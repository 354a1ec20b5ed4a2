/**
 * The fixed regular expressions of the sign-up, login and profile forms,
 * written out as predicates on strings: the e-mail pattern
 * `^[^\s@]+@[^\s@]+\.[^\s@]+$`, the name pattern `^[A-Za-z\s]+$` and the
 * profile's phone pattern `^\d{11}$` (`\d` being ASCII 0-9).
 */
module Validators {
  import JsStrings

  /** `[^\s@]+`: a non-empty run without white space and without '@'. */
  predicate Plain(t: string) {
    t != "" && forall k :: 0 <= k < |t| ==> !JsStrings.IsWhitespace(t[k]) && t[k] != '@'
  }

  /** `^[^\s@]+@[^\s@]+\.[^\s@]+$`: a local part, '@' at position `i`, a
      domain part, '.' at position `j`, and a last part, each part a
      non-empty run without white space or '@' (dots may occur inside the
      parts). */
  predicate IsEmail(s: string) {
    exists i, j :: 0 < i && i + 1 < j && j + 1 < |s| && s[i] == '@' && s[j] == '.'
      && Plain(s[..i]) && Plain(s[i + 1..j]) && Plain(s[j + 1..])
  }

  /** Reading the pattern forwards: any three such parts around '@' and '.'
      make an address. */
  lemma EmailFromParts(local: string, domain: string, last: string)
    requires Plain(local) && Plain(domain) && Plain(last)
    ensures IsEmail(local + "@" + domain + "." + last)
  {
    var s := local + "@" + domain + "." + last;
    var i, j := |local|, |local| + 1 + |domain|;
    assert s[..i] == local;
    assert s[i + 1..j] == domain;
    assert s[j + 1..] == last;
    assert s[i] == '@' && s[j] == '.';
    assert 0 < i && i + 1 < j && j + 1 < |s|;
  }

  /** Reading the pattern backwards: an address has no white space, exactly
      one '@', which is not its first character, and at least five
      characters. */
  lemma EmailShape(s: string)
    requires IsEmail(s)
    ensures |s| >= 5 && s[0] != '@'
    ensures forall k :: 0 <= k < |s| ==> !JsStrings.IsWhitespace(s[k])
    ensures exists i :: 0 < i < |s| && s[i] == '@' && forall k :: 0 <= k < |s| && s[k] == '@' ==> k == i
  {
    var i, j :| 0 < i && i + 1 < j && j + 1 < |s| && s[i] == '@' && s[j] == '.'
      && Plain(s[..i]) && Plain(s[i + 1..j]) && Plain(s[j + 1..]);
    assert s[0] == s[..i][0];
    forall k | 0 <= k < |s|
      ensures !JsStrings.IsWhitespace(s[k]) && (s[k] == '@' ==> k == i)
    {
      if k < i {
        assert s[k] == s[..i][k];
      } else if i < k < j {
        assert s[k] == s[i + 1..j][k - i - 1];
      } else if j < k {
        assert s[k] == s[j + 1..][k - j - 1];
      }
    }
  }

  /** The empty string is not an address (so the login's format check would
      also catch a missing e-mail). */
  lemma EmptyIsNotEmail()
    ensures !IsEmail("")
  {
  }

  predicate IsAsciiLetter(c: char) {
    ('A' <= c <= 'Z') || ('a' <= c <= 'z')
  }

  /** `^[A-Za-z\s]+$`: one or more ASCII letters or white-space characters. */
  predicate IsName(s: string) {
    s != "" && forall k :: 0 <= k < |s| ==> IsAsciiLetter(s[k]) || JsStrings.IsWhitespace(s[k])
  }

  /** The name pattern lets a name made only of spaces through, and keeps
      out names with digits or accents. */
  lemma NameExamples()
    ensures IsName(" ")
    ensures !IsName("") && !IsName("R2") && !IsName("Zoë")
  {
    assert !IsAsciiLetter("R2"[1]) && !JsStrings.IsWhitespace("R2"[1]);
    assert !IsAsciiLetter("Zoë"[2]) && !JsStrings.IsWhitespace("Zoë"[2]);
  }

  /** `^\d{11}$`: exactly eleven ASCII digits. */
  predicate IsElevenDigits(s: string) {
    |s| == 11 && JsStrings.AllDigits(s)
  }
}
