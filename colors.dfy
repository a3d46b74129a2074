/** The colour picker's conversion of an RGB choice into the ASS colour notation `&HBBGGRR&`. */
module Colors {
  import opened Common

  /** `0`-`9` and `A`-`F`: the digits `X` formatting writes. */
  predicate IsUpperHex(c: char) {
    '0' <= c <= '9' || 'A' <= c <= 'F'
  }

  /** One upper-case hexadecimal digit. */
  function HexDigit(d: nat): (c: char)
    requires d < 16
    ensures IsUpperHex(c)
  {
    if d < 10 then ('0' as int + d) as char else ('A' as int + d - 10) as char
  }

  /** `format(n, 'X')`: upper-case hexadecimal without leading zeros. */
  function Hex(n: nat): (r: string)
    ensures |r| >= 1
    ensures forall k :: 0 <= k < |r| ==> IsUpperHex(r[k])
    ensures n < 16 <==> |r| == 1
    decreases n
  {
    if n < 16 then [HexDigit(n)] else Hex(n / 16) + [HexDigit(n % 16)]
  }

  /** `format(n, '02X')`: padded with zeros to at least two digits. */
  function Hex2(n: nat): (r: string)
    ensures |r| >= 2
    ensures forall k :: 0 <= k < |r| ==> IsUpperHex(r[k])
  {
    var h := Hex(n);
    if |h| < 2 then "0" + h else h
  }

  /** A channel value 0..255 takes exactly two digits, the high nibble first. */
  lemma Hex2OfByte(n: nat)
    requires n < 256
    ensures Hex2(n) == [HexDigit(n / 16), HexDigit(n % 16)]
  {
    if n >= 16 {
      assert Hex(n / 16) == [HexDigit(n / 16)];
    }
  }

  /** `f"&H{b:02X}{g:02X}{r:02X}&"`: blue first, red last. */
  function AssColor(r: nat, g: nat, b: nat): string {
    "&H" + Hex2(b) + Hex2(g) + Hex2(r) + "&"
  }

  /** The value of one hexadecimal digit, upper or lower case. */
  function HexValue(c: char): (v: Option<nat>)
    ensures v.Some? ==> v.value < 16
  {
    if '0' <= c <= '9' then Some(c as int - '0' as int)
    else if 'A' <= c <= 'F' then Some(c as int - 'A' as int + 10)
    else if 'a' <= c <= 'f' then Some(c as int - 'a' as int + 10)
    else None
  }

  /** Reading two hexadecimal digits. */
  function ParseHex2(s: string): (v: Option<nat>)
    ensures v.Some? ==> v.value < 256
  {
    if |s| != 2 || HexValue(s[0]).None? || HexValue(s[1]).None? then None
    else Some(16 * HexValue(s[0]).value + HexValue(s[1]).value)
  }

  lemma HexValueOfDigit(d: nat)
    requires d < 16
    ensures HexValue(HexDigit(d)) == Some(d)
  {
  }

  lemma ParseHex2Digits(hi: nat, lo: nat)
    requires hi < 16 && lo < 16
    ensures ParseHex2([HexDigit(hi), HexDigit(lo)]) == Some(16 * hi + lo)
  {
    HexValueOfDigit(hi);
    HexValueOfDigit(lo);
  }

  /** Two digits read back as the channel value they render. */
  lemma ParseHex2OfByte(n: nat)
    requires n < 256
    ensures ParseHex2([HexDigit(n / 16), HexDigit(n % 16)]) == Some(n)
  {
    ParseHex2Digits(n / 16, n % 16);
  }

  /** For channels in 0..255 the colour string is nine characters long, framed by `&H` and `&`,
      and its digit pairs 2-3, 4-5 and 6-7 read back as blue, green and red. */
  lemma AssColorDecodes(r: nat, g: nat, b: nat)
    requires r < 256 && g < 256 && b < 256
    ensures |AssColor(r, g, b)| == 9
    ensures AssColor(r, g, b)[..2] == "&H" && AssColor(r, g, b)[8] == '&'
    ensures ParseHex2(AssColor(r, g, b)[2..4]) == Some(b)
    ensures ParseHex2(AssColor(r, g, b)[4..6]) == Some(g)
    ensures ParseHex2(AssColor(r, g, b)[6..8]) == Some(r)
  {
    Hex2OfByte(r);
    Hex2OfByte(g);
    Hex2OfByte(b);
    var s := AssColor(r, g, b);
    assert s[2..4] == Hex2(b) && s[4..6] == Hex2(g) && s[6..8] == Hex2(r);
    ParseHex2OfByte(b);
    ParseHex2OfByte(g);
    ParseHex2OfByte(r);
  }

  /** Distinct colours give distinct strings. */
  lemma AssColorInjective(r: nat, g: nat, b: nat, r': nat, g': nat, b': nat)
    requires r < 256 && g < 256 && b < 256 && r' < 256 && g' < 256 && b' < 256
    requires AssColor(r, g, b) == AssColor(r', g', b')
    ensures r == r' && g == g' && b == b'
  {
    AssColorDecodes(r, g, b);
    AssColorDecodes(r', g', b');
  }
}
