/** `OAuthService`: the e-mail domain gate and the session token format.
    The Google token exchange is not modelled; the random bytes of a token
    are an input. */
module OAuthService {
  import opened Common

  const AllowedDomains: seq<string> := ["rooche.digital", "rooche.net"]

  /** `email.split('@')[1]`: None (undefined) when there is no '@'. */
  function DomainPart(email: string): (d: Option<string>)
    ensures '@' !in email ==> d.None?
  {
    NoSeparatorOnePart(email, '@');
    var parts := Split(email, '@');
    if |parts| > 1 then Some(parts[1]) else None
  }

  /** `checkDomainAccess`: the segment after the first '@' is exactly an
      allowed domain, so an accepted address has an '@'. */
  predicate CheckDomainAccess(email: string)
    ensures CheckDomainAccess(email) ==> '@' in email && DomainPart(email).Some? && DomainPart(email).value in AllowedDomains
  {
    var d := DomainPart(email);
    d.Some? && d.value in AllowedDomains
  }

  /** A plain address is accepted iff its domain is exactly an allowed one. */
  lemma PlainAddress(local: string, domain: string)
    requires '@' !in local && '@' !in domain
    ensures CheckDomainAccess(local + "@" + domain) <==> domain == "rooche.digital" || domain == "rooche.net"
  {
    SplitAt(local, '@', domain);
    SplitAt(domain, '@', "");
  }

  /** An address without '@' is refused. */
  lemma NoAtRefused(email: string)
    requires '@' !in email
    ensures !CheckDomainAccess(email)
  {
    SplitAt(email, '@', "");
  }

  /** With two '@', only the text between them is judged. */
  lemma TwoAtsJudgedBetween(a: string, b: string, rest: string)
    requires '@' !in a && '@' !in b
    ensures CheckDomainAccess(a + "@" + b + "@" + rest) <==> b in AllowedDomains
  {
    SplitAt(a, '@', b + "@" + rest);
    SplitAt(b, '@', rest);
    assert a + "@" + b + "@" + rest == a + ['@'] + (b + ['@'] + rest);
  }

  /** Subdomains and other letter cases are refused. */
  lemma SubdomainAndCaseRefused()
    ensures !CheckDomainAccess("a@mail.rooche.net")
    ensures !CheckDomainAccess("a@ROOCHE.NET")
  {
    var sub, upper := "mail.rooche.net", "ROOCHE.NET";
    assert forall i :: 0 <= i < |sub| ==> sub[i] != '@';
    assert forall i :: 0 <= i < |upper| ==> upper[i] != '@';
    assert "a@mail.rooche.net" == "a" + "@" + sub;
    assert "a@ROOCHE.NET" == "a" + "@" + upper;
    PlainAddress("a", sub);
    PlainAddress("a", upper);
    assert |sub| != |"rooche.digital"| && |sub| != |"rooche.net"|;
    assert upper[0] != "rooche.net"[0] && |upper| != |"rooche.digital"|;
  }

  newtype Byte = x: int | 0 <= x < 256

  predicate IsHexDigit(ch: char) { '0' <= ch <= '9' || 'a' <= ch <= 'f' }

  /** The lower-case hex digit of a value below 16. */
  function HexDigit(k: nat): (ch: char)
    requires k < 16
    ensures IsHexDigit(ch)
  {
    if k < 10 then ('0' as int + k) as char else ('a' as int + k - 10) as char
  }

  /** Two lower-case hex digits per byte, as `toString('hex')`. */
  function Hex(bytes: seq<Byte>): (s: string)
    ensures |s| == 2 * |bytes|
    ensures forall i :: 0 <= i < |s| ==> IsHexDigit(s[i])
  {
    if bytes == [] then []
    else [HexDigit(bytes[0] as int / 16), HexDigit(bytes[0] as int % 16)] + Hex(bytes[1..])
  }

  /** The value of one lower-case hex digit. */
  function DigitValue(ch: char): (v: nat)
    ensures v < 16
    ensures IsHexDigit(ch) ==> HexDigit(v) == ch
  {
    if '0' <= ch <= '9' then ch as int - '0' as int
    else if 'a' <= ch <= 'f' then ch as int - 'a' as int + 10
    else 0
  }

  /** Reading the hex text back, two digits at a time. */
  function Unhex(s: string): seq<Byte>
    requires |s| % 2 == 0
  {
    if s == [] then [] else [(16 * DigitValue(s[0]) + DigitValue(s[1])) as Byte] + Unhex(s[2..])
  }

  /** The hex encoding loses nothing: decoding it gives the bytes back. */
  lemma {:induction false} HexRoundTrip(bytes: seq<Byte>)
    ensures Unhex(Hex(bytes)) == bytes
  {
    if bytes != [] {
      var b := bytes[0] as int;
      var s := Hex(bytes);
      assert s[2..] == Hex(bytes[1..]);
      HexRoundTrip(bytes[1..]);
      assert DigitValue(HexDigit(b / 16)) == b / 16;
      assert DigitValue(HexDigit(b % 16)) == b % 16;
      assert 16 * (b / 16) + b % 16 == b;
    }
  }

  /** `generateSessionToken`: 32 random bytes, hex-encoded. */
  function GenerateSessionToken(random: seq<Byte>): (t: string)
    requires |random| == 32
    ensures |t| == 64 && forall i :: 0 <= i < |t| ==> IsHexDigit(t[i])
    ensures Unhex(t) == random
  {
    HexRoundTrip(random);
    Hex(random)
  }
}
