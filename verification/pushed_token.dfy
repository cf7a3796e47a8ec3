/**
 The format guard applied to a one-time password pushed by the hardware-key
 listener (the `gotYubiKeyOTP` broadcast). The guard is the conjunction written
 in `TwoFactorPage.OnAppearing`, minus the view-model flag, which the page
 module adds: the payload is not null and not blank, it is exactly 44
 characters long, and it contains no ASCII space. Only the space character is
 refused: other white space inside an otherwise non-blank token is let through.
 */
module PushedToken {
  import opened Wrappers

  /** Length of a YubiKey OTP as the page expects it. */
  const OtpLength: nat := 44

  /** The space character searched for by `Contains(" ")`. */
  const Space: char := ' '

  /** The characters .NET's `char.IsWhiteSpace` answers true for: the Unicode
      space separators, the line and paragraph separators, U+0009 to U+000D and
      U+0085. */
  predicate IsWhiteSpace(c: char) {
    || ('\U{0009}' <= c <= '\U{000D}')
    || c == ' '
    || c == '\U{0085}'
    || c == '\U{00A0}'
    || c == '\U{1680}'
    || ('\U{2000}' <= c <= '\U{200A}')
    || c == '\U{2028}'
    || c == '\U{2029}'
    || c == '\U{202F}'
    || c == '\U{205F}'
    || c == '\U{3000}'
  }

  /** True when every character of `s` is white space (vacuously for ""). */
  function AllWhiteSpace(s: string): (r: bool)
    ensures r <==> forall i :: 0 <= i < |s| ==> IsWhiteSpace(s[i])
  {
    if |s| == 0 then true else IsWhiteSpace(s[0]) && AllWhiteSpace(s[1..])
  }

  /** `string.IsNullOrWhiteSpace`: null, empty, or made only of white space. */
  predicate IsNullOrWhiteSpace(data: Option<string>) {
    data.None? || AllWhiteSpace(data.value)
  }

  /** `s.Contains(" ")`: an ordinal search for the one-character string " ". */
  function ContainsSpace(s: string): (r: bool)
    ensures r <==> exists i :: 0 <= i < |s| && s[i] == Space
  {
    if |s| == 0 then false else s[0] == Space || ContainsSpace(s[1..])
  }

  /** The format part of the guard on a pushed token, written as the source
      writes it; the contract gives the same condition character by character. */
  function Accepts(data: Option<string>): (r: bool)
    ensures r <==>
      && data.Some?
      && |data.value| == OtpLength
      && (forall i :: 0 <= i < |data.value| ==> data.value[i] != Space)
      && (exists i :: 0 <= i < |data.value| && !IsWhiteSpace(data.value[i]))
  {
    !IsNullOrWhiteSpace(data) && |data.value| == OtpLength && !ContainsSpace(data.value)
  }

  /** A token of the right length with no white space at all is accepted. */
  lemma StrictTokenAccepted(t: string)
    requires |t| == OtpLength
    requires forall i :: 0 <= i < |t| ==> !IsWhiteSpace(t[i])
    ensures Accepts(Some(t))
  {
  }

  /** Any rejected non-null token is rejected for one of three reasons: it is
      blank, it has the wrong length, or it holds a space. */
  lemma RejectionReasons(t: string)
    requires !Accepts(Some(t))
    ensures || AllWhiteSpace(t)
            || |t| != OtpLength
            || (exists i :: 0 <= i < |t| && t[i] == Space)
  {
  }

  /** A 44-character token that carries a tab is accepted: only the ASCII
      space is refused, not white space in general. */
  lemma TabInsideTokenAccepted()
    ensures Accepts(Some(seq(OtpLength, i => if i == 0 then '\t' else 'c')))
  {
    var t := seq(OtpLength, i => if i == 0 then '\t' else 'c');
    assert !IsWhiteSpace(t[1]);
    assert IsWhiteSpace(t[0]);
  }

  /** Null and blank payloads are never accepted, whatever their length. */
  lemma BlankNeverAccepted(data: Option<string>)
    requires IsNullOrWhiteSpace(data)
    ensures !Accepts(data)
  {
  }
}
