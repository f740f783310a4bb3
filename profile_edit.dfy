/** The profile editing page: the form starts from the signed-in user, and
    submitting sends a PATCH to "/users/me" with the trimmed display name and,
    only when it is not blank, the trimmed status message. */
module ProfileEdit {
  import opened Common
  import opened Strings
  import opened AuthSlice
  import opened ApiClient

  const UpdateProfileFallback := "Failed to update profile"
  const ProfilePath := "/users/me"
  const AfterSavePage := "/profile"
  const LoginPage := "/auth/login"

  /** `userData || currentUser`: the fetched user when there is one, else the
      user in the store. */
  function PageUser(fetched: Option<User>, stored: Option<User>): (u: Option<User>)
    ensures fetched.Some? ==> u == fetched
    ensures fetched.None? ==> u == stored
  {
    if fetched.Some? then fetched else stored
  }

  /** The fields' first values: the page user's display name and status
      message, "" for whatever is missing. */
  function InitialFields(user: Option<User>): (fields: (string, string))
    ensures user.None? ==> fields == ("", "")
    ensures user.Some? ==> fields.0 == user.value.displayName
    ensures user.Some? && user.value.statusMessage.Some? ==> fields.1 == user.value.statusMessage.value
    ensures user.Some? && user.value.statusMessage.None? ==> fields.1 == ""
  {
    if user.None? then ("", "")
    else (user.value.displayName, user.value.statusMessage.GetOr(""))
  }

  /** The body of the PATCH; a missing status message is a field left out. */
  datatype UpdateData = UpdateData(displayName: string, statusMessage: Option<string>)

  function BuildUpdate(displayName: string, statusMessage: string): (d: UpdateData)
    ensures d.displayName == Trim(displayName)
    ensures d.statusMessage.Some? <==> !AllWhitespace(statusMessage)
    ensures d.statusMessage.Some? ==> d.statusMessage.value == Trim(statusMessage) && d.statusMessage.value != ""
  {
    TrimEmptyIff(statusMessage);
    var status := Trim(statusMessage);
    UpdateData(Trim(displayName), if status != "" then Some(status) else None)
  }

  /** Building the body is stable: submitting the values just sent again sends
      the same body. */
  lemma BuildUpdateStable(displayName: string, statusMessage: string)
    ensures var d := BuildUpdate(displayName, statusMessage);
            BuildUpdate(d.displayName, d.statusMessage.GetOr("")) == d
  {
    var d := BuildUpdate(displayName, statusMessage);
    var e := BuildUpdate(d.displayName, d.statusMessage.GetOr(""));
    TrimIdempotent(displayName);
    assert e.displayName == d.displayName;
    if d.statusMessage.None? {
      assert Trim("") == "";
      assert e.statusMessage == None;
    } else {
      TrimIdempotent(statusMessage);
      assert e.statusMessage == d.statusMessage;
    }
  }

  datatype ProfileRequest = ProfileRequest(url: string, authorization: string, body: UpdateData)

  class ProfileForm {
    var displayName: string
    var statusMessage: string
    var isSubmitting: bool
    var error: string
    var success: bool
    /** Whether the delayed move to the profile page is pending. */
    var redirectPending: bool

    constructor (fetched: Option<User>, stored: Option<User>)
      ensures (displayName, statusMessage) == InitialFields(PageUser(fetched, stored))
      ensures !isSubmitting && error == "" && !success && !redirectPending
    {
      var fields := InitialFields(PageUser(fetched, stored));
      displayName := fields.0;
      statusMessage := fields.1;
      isSubmitting := false;
      error := "";
      success := false;
      redirectPending := false;
    }

    method Edit(name: string, status: string)
      modifies this`displayName, this`statusMessage
      ensures displayName == name && statusMessage == status
    {
      displayName := name;
      statusMessage := status;
    }

    /** `handleSubmit`, with the fetch's outcome as a parameter: the request
        always goes out; success sets the flag and schedules the move to the
        profile page, failure shows the server's message or the fallback; the
        form is no longer submitting either way and its fields are kept. */
    method Submit(apiEnv: Option<string>, local: map<string, string>, outcome: FetchOutcome)
      returns (request: ProfileRequest)
      modifies this`isSubmitting, this`error, this`success, this`redirectPending
      ensures request == ProfileRequest(BaseUrl(apiEnv) + ProfilePath, StoredBearer(local),
                                        BuildUpdate(displayName, statusMessage))
      ensures !isSubmitting
      ensures outcome.Ok? ==> success && error == "" && redirectPending
      ensures !outcome.Ok? ==>
                !success && error == FetchErrorText(outcome, UpdateProfileFallback) &&
                redirectPending == old(redirectPending)
    {
      var body := BuildUpdate(displayName, statusMessage);
      request := ProfileRequest(BaseUrl(apiEnv) + ProfilePath, StoredBearer(local), body);
      Settle(outcome);
    }

    /** The answer to the PATCH: the messages are reset, then set from the
        outcome, and the form is no longer submitting. */
    method Settle(outcome: FetchOutcome)
      modifies this`isSubmitting, this`error, this`success, this`redirectPending
      ensures !isSubmitting
      ensures outcome.Ok? ==> success && error == "" && redirectPending
      ensures !outcome.Ok? ==>
                !success && error == FetchErrorText(outcome, UpdateProfileFallback) &&
                redirectPending == old(redirectPending)
    {
      error := "";
      success := false;
      isSubmitting := true;
      if outcome.Ok? {
        success := true;
        redirectPending := true;
      } else {
        error := FetchErrorText(outcome, UpdateProfileFallback);
      }
      isSubmitting := false;
    }

    /** The 1.5 second timer after a successful save: a full page load of the
        profile page. */
    method OnRedirectTimer(browser: Browser)
      modifies this`redirectPending, browser`navigations
      ensures browser.navigations ==
                if old(redirectPending) then old(browser.navigations) + [Load(AfterSavePage)]
                else old(browser.navigations)
      ensures !redirectPending
    {
      if redirectPending {
        browser.Navigate(Load(AfterSavePage));
      }
      redirectPending := false;
    }
  }

  /** A render of the page: without a page user it navigates to the login page
      and shows nothing. */
  method Render(fetched: Option<User>, stored: Option<User>, browser: Browser) returns (shown: bool)
    modifies browser`navigations
    ensures shown <==> PageUser(fetched, stored).Some?
    ensures browser.navigations ==
              if shown then old(browser.navigations) else old(browser.navigations) + [Push(LoginPage)]
  {
    if PageUser(fetched, stored).None? {
      browser.Navigate(Push(LoginPage));
      return false;
    }
    return true;
  }
}
