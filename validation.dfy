/** Rules shared by the sign-up, login and reset-password forms: the unanchored
    e-mail test `/\S+@\S+\.\S+/`, the two e-mail messages, and the per-field error
    map that `handleChange` clears. */
module Validation {
  import opened Wrappers
  import opened Text

  /** At `i` a non-blank, at `i + 1` an `@`, then a non-empty run of non-blanks up to the
      `.` at `j`, and a non-blank at `j + 1`. */
  predicate EmailMatchAt(s: string, i: int, j: int)
    requires 0 <= i && i + 3 <= j && j + 1 < |s|
  {
    && !IsWhitespace(s[i])
    && s[i + 1] == '@'
    && (forall k | i + 2 <= k < j :: !IsWhitespace(s[k]))
    && s[j] == '.'
    && !IsWhitespace(s[j + 1])
  }

  /** The e-mail regular expression of the three forms. The pattern is unanchored, so it
      holds as soon as some part of `s` matches; a match of `\S+` before `@` and after `.`
      can always be shortened to a single character, which is what `EmailMatchAt` asks for. */
  predicate EmailPattern(s: string): (b: bool)
    ensures b ==> 5 <= |s| && '@' in s && '.' in s
    ensures b ==> exists k, l :: 0 < k && k + 2 <= l < |s| - 1 && s[k] == '@' && s[l] == '.'
  {
    exists i, j | 0 <= i && i + 3 <= j && j + 1 < |s| :: EmailMatchAt(s, i, j)
  }

  /** Any text around an accepted address is accepted too: nothing anchors the pattern. */
  lemma EmailPatternUnanchored(prefix: string, s: string, suffix: string)
    requires EmailPattern(s)
    ensures EmailPattern(prefix + s + suffix)
  {
    var i, j :| 0 <= i && i + 3 <= j && j + 1 < |s| && EmailMatchAt(s, i, j);
    var t := prefix + s + suffix;
    var n := |prefix|;
    assert t[n..n + |s|] == s;
    forall k | n + i + 2 <= k < n + j
      ensures !IsWhitespace(t[k])
    {
      assert t[k] == s[k - n];
    }
    assert t[n + i] == s[i] && t[n + i + 1] == s[i + 1];
    assert t[n + j] == s[j] && t[n + j + 1] == s[j + 1];
    assert EmailMatchAt(t, n + i, n + j);
  }

  lemma EmailPatternExamples()
    ensures EmailPattern("user@example.com")
    ensures EmailPattern("a b@c.d")
    ensures !EmailPattern("")
    ensures !EmailPattern("user@example")
    ensures !EmailPattern("a@.c")
  {
    assert EmailMatchAt("user@example.com", 3, 12);
    assert EmailMatchAt("a b@c.d", 2, 5);
    var s := "user@example";
    forall i, j | 0 <= i && i + 3 <= j && j + 1 < |s|
      ensures !EmailMatchAt(s, i, j)
    {
      assert s[j] != '.';
    }
  }

  /** The e-mail rule of all three forms: required first, then the pattern. */
  function EmailError(email: string): (r: Option<string>)
    ensures r.None? <==> EmailPattern(email)
    ensures email == "" ==> r == Some("Email is required")
    ensures email != "" && !EmailPattern(email) ==> r == Some("Email is invalid")
  {
    if email == "" then Some("Email is required")
    else if !EmailPattern(email) then Some("Email is invalid")
    else None
  }

  /** A form field's value; a field never written reads as the empty string, which every
      rule treats as JavaScript treats `undefined`: as missing. */
  function Field(form: map<string, string>, key: string): string {
    if key in form then form[key] else ""
  }

  /** The input under a field shows its error only when the entry is present and non-empty. */
  predicate ErrorShown(errors: map<string, string>, key: string) {
    key in errors && errors[key] != ""
  }

  /** Editing a field blanks its error if one is shown and leaves every other entry alone. */
  function ClearError(errors: map<string, string>, key: string): (r: map<string, string>)
    ensures r.Keys == errors.Keys
    ensures !ErrorShown(r, key)
    ensures forall k :: k in errors && k != key ==> r[k] == errors[k]
    ensures !ErrorShown(errors, key) ==> r == errors
  {
    if ErrorShown(errors, key) then errors[key := ""] else errors
  }

  /** Clearing twice is clearing once. */
  lemma ClearErrorIdempotent(errors: map<string, string>, key: string)
    ensures ClearError(ClearError(errors, key), key) == ClearError(errors, key)
  {
  }
}
