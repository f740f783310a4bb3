/** String operations of the JavaScript runtime that the chat client relies on:
    `trim`, `startsWith`, `endsWith`, `includes`, `replace` with a string pattern,
    `toLowerCase` (ASCII only), `Array.prototype.join` and number-to-string. */
module Strings {

  /** The code points that ECMAScript's `String.prototype.trim` strips:
      WhiteSpace (TAB, VT, FF, ZWNBSP and every space separator) and LineTerminator. */
  predicate IsWhitespace(c: char) {
    || c == ' ' || c == '\t' || c == '\n' || c == '\r'
    || c == '\U{000B}' || c == '\U{000C}' || c == '\U{00A0}' || c == '\U{1680}'
    || ('\U{2000}' <= c <= '\U{200A}')
    || c == '\U{2028}' || c == '\U{2029}' || c == '\U{202F}' || c == '\U{205F}'
    || c == '\U{3000}' || c == '\U{FEFF}'
  }

  /** Every character is whitespace. */
  predicate AllWhitespace(s: string)
    decreases |s|
  {
    s == [] || (IsWhitespace(s[0]) && AllWhitespace(s[1..]))
  }

  lemma {:induction false} AllWhitespaceAt(s: string, i: nat)
    requires AllWhitespace(s) && i < |s|
    ensures IsWhitespace(s[i])
    decreases i
  {
    if i > 0 {
      AllWhitespaceAt(s[1..], i - 1);
    }
  }

  lemma {:induction false} AllWhitespaceAppend(a: string, b: string)
    ensures AllWhitespace(a + b) <==> AllWhitespace(a) && AllWhitespace(b)
    decreases |a|
  {
    if a == [] {
      assert a + b == b;
    } else {
      assert (a + b)[1..] == a[1..] + b;
      AllWhitespaceAppend(a[1..], b);
    }
  }

  /** `s.trimStart()`: drops the longest all-whitespace prefix (the shape of
      the result is `TrimStartShape`). */
  function TrimStart(s: string): (r: string)
    ensures |r| <= |s|
    ensures r == [] || !IsWhitespace(r[0])
  {
    if s == [] || !IsWhitespace(s[0]) then s else TrimStart(s[1..])
  }

  /** What `trimStart` drops is a whitespace prefix, and it keeps the rest. */
  lemma {:induction false} TrimStartShape(s: string)
    ensures var r := TrimStart(s);
            r == s[|s| - |r|..] && AllWhitespace(s[..|s| - |r|])
    decreases |s|
  {
    if s == [] || !IsWhitespace(s[0]) {
      assert s[..0] == [];
    } else {
      TrimStartShape(s[1..]);
      var r := TrimStart(s[1..]);
      assert s[..|s| - |r|][1..] == s[1..][..|s| - 1 - |r|];
    }
  }

  /** `s.trimEnd()`: drops the longest all-whitespace suffix (the shape of the
      result is `TrimEndShape`). */
  function TrimEnd(s: string): (r: string)
    ensures |r| <= |s|
    ensures r == [] || !IsWhitespace(r[|r| - 1])
  {
    if s == [] || !IsWhitespace(s[|s| - 1]) then s else TrimEnd(s[..|s| - 1])
  }

  /** What `trimEnd` drops is a whitespace suffix, and it keeps the rest. */
  lemma {:induction false} TrimEndShape(s: string)
    ensures var r := TrimEnd(s);
            r == s[..|r|] && AllWhitespace(s[|r|..])
    decreases |s|
  {
    if s == [] || !IsWhitespace(s[|s| - 1]) {
      assert s[|s|..] == [];
    } else {
      TrimEndShape(s[..|s| - 1]);
      var r := TrimEnd(s[..|s| - 1]);
      assert s[|r|..] == s[..|s| - 1][|r|..] + [s[|s| - 1]];
      assert [s[|s| - 1]][1..] == [];
      AllWhitespaceAppend(s[..|s| - 1][|r|..], [s[|s| - 1]]);
    }
  }

  /** `s.trim()`: whitespace dropped from both ends. */
  function Trim(s: string): (r: string)
    ensures |r| <= |s|
    ensures r == [] || (!IsWhitespace(r[0]) && !IsWhitespace(r[|r| - 1]))
  {
    TrimEndShape(TrimStart(s));
    TrimEnd(TrimStart(s))
  }

  /** `trim` keeps a middle part of `s` and drops only whitespace around it. */
  lemma TrimShape(s: string)
    ensures var r := Trim(s);
            exists k :: 0 <= k && k + |r| <= |s| && r == s[k..k + |r|] &&
                        AllWhitespace(s[..k]) && AllWhitespace(s[k + |r|..])
  {
    var a := TrimStart(s);
    var r := Trim(s);
    TrimStartShape(s);
    TrimEndShape(a);
    var k := |s| - |a|;
    assert a == s[k..];
    assert r == a[..|r|];
    assert s[k..k + |r|] == s[k..][..|r|];
    assert s[k + |r|..] == s[k..][|r|..];
    assert s[..k] == s[..|s| - |a|];
    assert 0 <= k && k + |r| <= |s| && r == s[k..k + |r|] &&
           AllWhitespace(s[..k]) && AllWhitespace(s[k + |r|..]);
  }

  /** A string trims to "" exactly when it is made of whitespace only; this is
      the test behind every `!x.trim()` guard of the client. */
  lemma TrimEmptyIff(s: string)
    ensures Trim(s) == [] <==> AllWhitespace(s)
  {
    var a := TrimStart(s);
    TrimStartShape(s);
    TrimEndShape(a);
    if Trim(s) == [] {
      assert a[0..] == a;
      assert s == s[..|s| - |a|] + a;
      AllWhitespaceAppend(s[..|s| - |a|], a);
    } else if AllWhitespace(s) {
      assert a != [];
      AllWhitespaceAt(s, |s| - |a|);
      assert false;
    }
  }

  /** Trimming twice is trimming once. */
  lemma TrimIdempotent(s: string)
    ensures Trim(Trim(s)) == Trim(s)
  {
    var r := Trim(s);
    assert TrimStart(r) == r;
    assert TrimEnd(r) == r;
  }

  /** `s.startsWith(p)`. */
  predicate StartsWith(s: string, p: string) {
    |p| <= |s| && s[..|p|] == p
  }

  /** `s.endsWith(p)`. */
  predicate EndsWith(s: string, p: string) {
    |p| <= |s| && s[|s| - |p|..] == p
  }

  /** `t` occurs in `s` starting at index `i`. */
  predicate OccursAt(s: string, t: string, i: int) {
    0 <= i && i + |t| <= |s| && s[i..i + |t|] == t
  }

  /** `s.indexOf(t, k)`: the first occurrence at or after `k`, or -1. */
  function IndexOfFrom(s: string, t: string, k: nat): (r: int)
    requires k <= |s|
    ensures r == -1 || (k <= r && OccursAt(s, t, r))
    ensures r == -1 ==> forall i :: k <= i <= |s| - |t| ==> !OccursAt(s, t, i)
    ensures r >= 0 ==> forall i :: k <= i < r ==> !OccursAt(s, t, i)
    decreases |s| - k
  {
    if k + |t| > |s| then -1
    else if s[k..k + |t|] == t then k
    else if k == |s| then -1
    else IndexOfFrom(s, t, k + 1)
  }

  function IndexOf(s: string, t: string): (r: int)
    ensures r == -1 || OccursAt(s, t, r)
    ensures r == -1 <==> forall i :: 0 <= i <= |s| - |t| ==> !OccursAt(s, t, i)
    ensures r >= 0 ==> forall i :: 0 <= i < r ==> !OccursAt(s, t, i)
  {
    IndexOfFrom(s, t, 0)
  }

  /** An occurrence with none before it is the one `indexOf` finds. */
  lemma IndexOfIsFirst(s: string, t: string, k: int)
    requires OccursAt(s, t, k)
    requires forall i :: 0 <= i < k ==> !OccursAt(s, t, i)
    ensures IndexOf(s, t) == k
  {
  }

  /** `s.includes(t)`. */
  predicate Contains(s: string, t: string) {
    IndexOf(s, t) >= 0
  }

  /** Every string contains the empty string, at index 0. */
  lemma ContainsEmpty(s: string)
    ensures Contains(s, "")
  {
    assert OccursAt(s, "", 0);
  }

  /** `s.includes(t)` holds exactly when `t` occurs somewhere in `s`. */
  lemma ContainsIff(s: string, t: string, i: int)
    requires OccursAt(s, t, i)
    ensures Contains(s, t)
  {
  }

  /** `s.replace(pat, rep)` with a string pattern: only the FIRST occurrence is
      replaced; without an occurrence the string is returned as it is. */
  function ReplaceFirst(s: string, pat: string, rep: string): (r: string)
    ensures IndexOf(s, pat) == -1 ==> r == s
    ensures IndexOf(s, pat) >= 0 ==> |r| == |s| - |pat| + |rep|
    ensures IndexOf(s, pat) >= 0 ==>
              var i := IndexOf(s, pat);
              && r[..i] == s[..i]
              && r[i..i + |rep|] == rep
              && r[i + |rep|..] == s[i + |pat|..]
  {
    var i := IndexOf(s, pat);
    if i < 0 then s else s[..i] + rep + s[i + |pat|..]
  }

  function LowerChar(c: char): char {
    if 'A' <= c <= 'Z' then (c as int + 32) as char else c
  }

  /** `s.toLowerCase()` restricted to ASCII letters. */
  function Lower(s: string): (r: string)
    ensures |r| == |s|
    ensures forall i :: 0 <= i < |s| ==> r[i] == LowerChar(s[i])
  {
    if s == [] then [] else [LowerChar(s[0])] + Lower(s[1..])
  }

  /** `names.join(sep)`. */
  function Join(names: seq<string>, sep: string): (r: string)
    ensures |names| == 1 ==> r == names[0]
  {
    if |names| == 0 then ""
    else if |names| == 1 then names[0]
    else names[0] + sep + Join(names[1..], sep)
  }

  /** Joining reads the names left to right: adding a name at the end adds the
      separator and that name at the end of the text. */
  lemma {:induction false} JoinSnoc(names: seq<string>, last: string, sep: string)
    requires |names| >= 1
    ensures Join(names + [last], sep) == Join(names, sep) + sep + last
  {
    if |names| == 1 {
      assert (names + [last])[1..] == [last];
    } else {
      assert (names + [last])[1..] == names[1..] + [last];
      JoinSnoc(names[1..], last, sep);
    }
  }

  predicate IsDigit(c: char) { '0' <= c <= '9' }

  function DigitChar(d: nat): (c: char)
    requires d < 10
    ensures IsDigit(c)
  {
    ('0' as int + d) as char
  }

  /** `String(n)` for a non-negative integer: decimal digits, no leading zero. */
  function NatToString(n: nat): (r: string)
    ensures |r| >= 1
    ensures forall i :: 0 <= i < |r| ==> IsDigit(r[i])
    ensures |r| > 1 ==> r[0] != '0'
    decreases n
  {
    if n < 10 then [DigitChar(n)] else NatToString(n / 10) + [DigitChar(n % 10)]
  }

  function DigitValue(c: char): nat
    requires IsDigit(c)
  {
    c as int - '0' as int
  }

  /** Reads decimal digits back into a number. */
  function ParseDigits(s: string): nat
    requires forall i :: 0 <= i < |s| ==> IsDigit(s[i])
  {
    if s == [] then 0 else 10 * ParseDigits(s[..|s| - 1]) + DigitValue(s[|s| - 1])
  }

  /** The decimal text of a count reads back as that count. */
  lemma {:induction false} NatToStringRoundTrip(n: nat)
    ensures ParseDigits(NatToString(n)) == n
    decreases n
  {
    if n >= 10 {
      var r := NatToString(n);
      assert r[..|r| - 1] == NatToString(n / 10);
      NatToStringRoundTrip(n / 10);
    }
  }
}
