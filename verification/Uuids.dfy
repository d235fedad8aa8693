/** Device ids: 128-bit values, their canonical text and the parser's accepted forms. */
module Uuids {
  import opened Collections
  import opened Strings

  predicate IsUuid(s: seq<nat>) {
    |s| == 32 && forall i :: 0 <= i < 32 ==> s[i] < 16
  }

  /** A UUID as its 32 hexadecimal digits. */
  type Uuid = s: seq<nat> | IsUuid(s) witness seq(32, _ => 0)

  const DIGITS: string := "0123456789abcdef"

  function HexDigit(n: nat): char
    requires n < 16
  {
    DIGITS[n]
  }

  function HexValue(c: char): Option<nat> {
    if '0' <= c <= '9' then Some((c - '0') as nat)
    else if 'a' <= c <= 'f' then Some((c - 'a') as nat + 10)
    else if 'A' <= c <= 'F' then Some((c - 'A') as nat + 10)
    else None
  }

  function Hex(u: Uuid): string {
    seq(32, i requires 0 <= i < 32 => HexDigit(u[i]))
  }

  /** Lower-case hyphenated form, the one the program writes. */
  function ToText(u: Uuid): string {
    var h := Hex(u);
    h[..8] + "-" + h[8..12] + "-" + h[12..16] + "-" + h[16..20] + "-" + h[20..]
  }

  function ParseSimple(s: string): (r: Option<Uuid>)
    requires |s| == 32
  {
    if forall i :: 0 <= i < 32 ==> HexValue(s[i]).Some? then
      Some(seq(32, i requires 0 <= i < 32 && HexValue(s[i]).Some? => HexValue(s[i]).value))
    else None
  }

  function ParseHyphenated(s: string): Option<Uuid>
    requires |s| == 36
  {
    if s[8] == '-' && s[13] == '-' && s[18] == '-' && s[23] == '-' then
      ParseSimple(s[..8] + s[9..13] + s[14..18] + s[19..23] + s[24..])
    else None
  }

  /** Accepts 32 digits, the hyphenated form, and that form in braces or as a URN. */
  function Parse(s: string): Option<Uuid> {
    if |s| == 32 then ParseSimple(s)
    else if |s| == 36 then ParseHyphenated(s)
    else if |s| == 38 && s[0] == '{' && s[37] == '}' then ParseHyphenated(s[1..37])
    else if |s| == 45 && s[..9] == "urn:uuid:" then ParseHyphenated(s[9..])
    else None
  }

  lemma ParseToText(u: Uuid)
    ensures Parse(ToText(u)) == Some(u)
  {
    var s, h := ToText(u), Hex(u);
    assert |s| == 36 && s[8] == '-' && s[13] == '-' && s[18] == '-' && s[23] == '-';
    assert s[..8] + s[9..13] + s[14..18] + s[19..23] + s[24..] == h by {
      assert s[..8] == h[..8] && s[9..13] == h[8..12] && s[14..18] == h[12..16];
      assert s[19..23] == h[16..20] && s[24..] == h[20..];
    }
    assert forall i :: 0 <= i < 32 ==> HexValue(h[i]) == Some(u[i]);
    assert ParseSimple(h).value == u;
  }

  /** A text the program itself could have written. */
  predicate Canonical(s: string) {
    Parse(s).Some? && ToText(Parse(s).value) == s
  }

  predicate IsLowerHex(c: char) {
    '0' <= c <= '9' || 'a' <= c <= 'f'
  }

  /** The canonical text: 36 characters, hyphens after 8, 12, 16 and 20 lower-case digits. */
  lemma ToTextShape(u: Uuid)
    ensures |ToText(u)| == 36
    ensures forall i :: 0 <= i < 36 ==> if i in {8, 13, 18, 23} then ToText(u)[i] == '-' else IsLowerHex(ToText(u)[i])
  {
    assert forall i :: 0 <= i < 32 ==> IsLowerHex(Hex(u)[i]);
  }

  /** The other forms read as the same UUID: plain digits, in braces, and as a URN. */
  lemma ParseOtherForms(u: Uuid)
    ensures Parse(Hex(u)) == Some(u)
    ensures Parse("{" + ToText(u) + "}") == Some(u)
    ensures Parse("urn:uuid:" + ToText(u)) == Some(u)
  {
    var s, h := ToText(u), Hex(u);
    ParseToText(u);
    ToTextShape(u);
    assert forall i :: 0 <= i < 32 ==> HexValue(h[i]) == Some(u[i]);
    assert ParseSimple(h).value == u;
    assert ("{" + s + "}")[1..37] == s;
    assert ("urn:uuid:" + s)[9..] == s && ("urn:uuid:" + s)[..9] == "urn:uuid:";
  }

  /** Digits are read in either case. */
  lemma HexIgnoresCase(c: char)
    ensures HexValue(c) == HexValue(Lower(c))
  {
  }
}
