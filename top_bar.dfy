/** The top bar: the signed-in user's avatar with its presence dot, the avatar
    upload, and sign-out. */
module TopBar {
  import opened Common
  import opened Strings
  import opened AuthSlice
  import opened ApiClient

  const MaxAvatarBytes := 5 * 1024 * 1024
  const NotAnImage := "Please select an image file"
  const AvatarTooLarge := "File size must be less than 5MB"
  const UploadSucceeded := "Avatar uploaded successfully!"
  const UploadFailed := "Failed to upload image. Please try again."
  const AvatarPath := "/users/me/avatar"
  const LoginPage := "/auth/login"
  const FallbackAvatarPrefix := "https://ui-avatars.com/api/?name="
  const FallbackAvatarSuffix := "&background=random&size=128"

  /** The checks on a chosen avatar file, in order: the type must start with
      "image/", then the size must not exceed 5 MiB. */
  function ValidateAvatar(file: FileInfo): (alert: Option<string>)
    ensures !StartsWith(file.mimeType, "image/") ==> alert == Some(NotAnImage)
    ensures StartsWith(file.mimeType, "image/") && file.size > MaxAvatarBytes ==> alert == Some(AvatarTooLarge)
    ensures alert.None? <==> StartsWith(file.mimeType, "image/") && file.size <= MaxAvatarBytes
  {
    if !StartsWith(file.mimeType, "image/") then Some(NotAnImage)
    else if file.size > MaxAvatarBytes then Some(AvatarTooLarge)
    else None
  }

  /** An image of exactly 5 MiB is accepted, one byte more is not, and a file
      that is not an image is refused for its type whatever its size. */
  lemma AvatarSizeBoundary(mimeType: string, name: string)
    requires StartsWith(mimeType, "image/")
    ensures ValidateAvatar(FileInfo(name, mimeType, 5242880)).None?
    ensures ValidateAvatar(FileInfo(name, mimeType, 5242881)) == Some(AvatarTooLarge)
    ensures ValidateAvatar(FileInfo(name, "text/plain", 5242881)) == Some(NotAnImage)
  {
    assert "text/plain"[..6] != "image/" by {
      assert "text/plain"[0] == 't';
    }
  }

  /** The user object in the upload response, if any. */
  datatype UploadedUser = UploadedUser(avatarUrl: Option<string>)

  /** How the upload ended: an ok response and its `data.user`, a response
      that is not ok, or a thrown error. */
  datatype UploadOutcome = UploadOk(user: Option<UploadedUser>) | UploadNotOk | UploadThrew

  datatype AvatarRequest = AvatarRequest(url: string, authorization: string, file: FileInfo)

  /** The avatar shown: the user's own when it is set and not empty, otherwise
      the generated one, which carries the encoded display name. The encoding
      (`encodeURIComponent`) is a parameter. */
  function AvatarSource(user: User, encode: string -> string): (src: string)
    ensures src != ""
    ensures Truthy(user.avatarUrl) ==> src == user.avatarUrl.value
    ensures !Truthy(user.avatarUrl) ==>
              StartsWith(src, FallbackAvatarPrefix) &&
              |src| == |FallbackAvatarPrefix| + |encode(user.displayName)| + |FallbackAvatarSuffix| &&
              src[|FallbackAvatarPrefix|..|FallbackAvatarPrefix| + |encode(user.displayName)|] == encode(user.displayName)
  {
    var generated := FallbackAvatarPrefix + encode(user.displayName) + FallbackAvatarSuffix;
    assert generated[..|FallbackAvatarPrefix|] == FallbackAvatarPrefix;
    OrElse(user.avatarUrl, generated)
  }

  /** What the bar shows for the signed-in user. */
  datatype BarView = BarView(avatar: string, displayName: string, online: bool)

  /** The bar renders nothing without a signed-in user. */
  function View(s: AuthState, encode: string -> string): (v: Option<BarView>)
    ensures v.None? <==> s.currentUser.None?
    ensures v.Some? ==>
              v.value == BarView(AvatarSource(s.currentUser.value, encode), s.currentUser.value.displayName, s.isOnline)
  {
    if s.currentUser.None? then None
    else Some(BarView(AvatarSource(s.currentUser.value, encode), s.currentUser.value.displayName, s.isOnline))
  }

  class TopBarView {
    var isUploading: bool
    /** The file the hidden input holds. */
    var fileInput: Option<FileInfo>
    var alerts: seq<string>

    constructor ()
      ensures !isUploading && fileInput.None? && alerts == []
    {
      isUploading := false;
      fileInput := None;
      alerts := [];
    }

    /** `handleFileChange` for the file just chosen, with the upload's outcome
        as a parameter. A refused file is only alerted about, and stays in
        the input; an accepted one is uploaded, and afterwards the upload is
        over and the input is cleared. A response with a user patches the
        avatar of the signed-in user, if there is one, and nothing else. */
    method HandleFileChange(file: Option<FileInfo>, apiEnv: Option<string>, local: map<string, string>,
                            outcome: UploadOutcome, store: AuthStore)
      returns (request: Option<AvatarRequest>)
      modifies this, store
      ensures file.None? ==>
                request.None? && alerts == old(alerts) && isUploading == old(isUploading) &&
                store.State() == old(store.State())
      ensures file.Some? && ValidateAvatar(file.value).Some? ==>
                && request.None? && alerts == old(alerts) + [ValidateAvatar(file.value).value]
                && isUploading == old(isUploading) && store.State() == old(store.State())
      ensures request.Some? <==> file.Some? && ValidateAvatar(file.value).None?
      ensures request.None? ==> fileInput == file
      ensures request.Some? ==>
                && request.value == AvatarRequest(BaseUrl(apiEnv) + AvatarPath, StoredBearer(local), file.value)
                && !isUploading && fileInput.None?
                && alerts == old(alerts) + [if outcome.UploadOk? then UploadSucceeded else UploadFailed]
      ensures request.Some? && outcome.UploadOk? && outcome.user.Some? && old(store.currentUser).Some? ==>
                store.State() ==
                  Reduce(old(store.State()),
                         SetCurrentUser(old(store.currentUser).value.(avatarUrl := outcome.user.value.avatarUrl)))
      ensures request.Some? && !(outcome.UploadOk? && outcome.user.Some? && old(store.currentUser).Some?) ==>
                store.State() == old(store.State())
    {
      fileInput := file;
      if file.None? {
        return None;
      }
      var refusal := ValidateAvatar(file.value);
      if refusal.Some? {
        alerts := alerts + [refusal.value];
        return None;
      }
      isUploading := true;
      request := Some(AvatarRequest(BaseUrl(apiEnv) + AvatarPath, StoredBearer(local), file.value));
      if outcome.UploadOk? {
        if outcome.user.Some? && store.currentUser.Some? {
          store.SetCurrentUser(store.currentUser.value.(avatarUrl := outcome.user.value.avatarUrl));
        }
        alerts := alerts + [UploadSucceeded];
      } else {
        alerts := alerts + [UploadFailed];
      }
      isUploading := false;
      fileInput := None;
    }
  }

  /** `handleLogout`, with the logout mutation's outcome as a parameter: a
      failed logout still removes the stored token, and the user lands on the
      login page either way. */
  method HandleLogout(outcome: MutationOutcome, browser: Browser)
    modifies browser`localStorage, browser`navigations
    ensures browser.navigations == old(browser.navigations) + [Push(LoginPage)]
    ensures outcome.Rejected? ==> browser.localStorage == old(browser.localStorage) - {TokenKey}
    ensures outcome.Fulfilled? ==> browser.localStorage == old(browser.localStorage)
  {
    if outcome.Rejected? {
      browser.localStorage := browser.localStorage - {TokenKey};
    }
    browser.Navigate(Push(LoginPage));
  }
}
