/** Bytes as text: lower-case hexadecimal, and base64 as in section 4 of RFC 4648.
    A byte is a character below 256. */
module Encoding {
  import opened Wrappers

  ghost predicate IsBytes(s: string) {
    forall i :: 0 <= i < |s| ==> s[i] as int < 256
  }

  // ---- hexadecimal ----

  function HexDigit(v: nat): char
    requires v < 16
  {
    "0123456789abcdef"[v]
  }

  function HexByte(c: char): string {
    [HexDigit(c as int / 16 % 16), HexDigit(c as int % 16)]
  }

  function Hex(s: string): string {
    if s == "" then "" else HexByte(s[0]) + Hex(s[1..])
  }

  predicate IsHex(s: string) {
    forall i :: 0 <= i < |s| ==> '0' <= s[i] <= '9' || 'a' <= s[i] <= 'f'
  }

  lemma {:induction false} HexShape(s: string)
    ensures |Hex(s)| == 2 * |s| && IsHex(Hex(s))
  {
    if s != "" {
      HexShape(s[1..]);
      HexByteShape(s[0]);
      HexAppend(HexByte(s[0]), Hex(s[1..]));
    }
  }

  lemma HexByteShape(c: char)
    ensures |HexByte(c)| == 2 && IsHex(HexByte(c))
  {
  }

  /** Two digits for each byte, the high one first. */
  lemma {:induction false} HexAt(s: string, i: nat)
    requires IsBytes(s) && i < |s|
    ensures |Hex(s)| == 2 * |s|
    ensures Hex(s)[2 * i] == "0123456789abcdef"[s[i] as int / 16] && Hex(s)[2 * i + 1] == "0123456789abcdef"[s[i] as int % 16]
  {
    HexShape(s);
    HexShape(s[1..]);
    if i > 0 { HexAt(s[1..], i - 1); }
  }

  lemma HexAppend(a: string, b: string)
    requires IsHex(a) && IsHex(b)
    ensures IsHex(a + b)
  {
  }

  lemma HexDigitInjective(a: nat, b: nat)
    requires a < 16 && b < 16 && HexDigit(a) == HexDigit(b)
    ensures a == b
  {
  }

  lemma HexByteInjective(a: char, b: char)
    requires HexByte(a) == HexByte(b) && a as int < 256 && b as int < 256
    ensures a == b
  {
    assert HexByte(a)[0] == HexByte(b)[0] && HexByte(a)[1] == HexByte(b)[1];
    HexDigitInjective(a as int / 16 % 16, b as int / 16 % 16);
    HexDigitInjective(a as int % 16, b as int % 16);
  }

  /** Distinct byte strings have distinct hexadecimal forms. */
  lemma {:induction false} HexInjective(a: string, b: string)
    requires IsBytes(a) && IsBytes(b)
    ensures Hex(a) == Hex(b) ==> a == b
  {
    HexShape(a);
    HexShape(b);
    if Hex(a) == Hex(b) && a != "" && b != "" {
      assert Hex(a)[..2] == HexByte(a[0]) && Hex(a)[2..] == Hex(a[1..]);
      assert Hex(b)[..2] == HexByte(b[0]) && Hex(b)[2..] == Hex(b[1..]);
      HexByteInjective(a[0], b[0]);
      HexInjective(a[1..], b[1..]);
      assert a == [a[0]] + a[1..] && b == [b[0]] + b[1..];
    }
  }

  // ---- base64 ----

  function Symbol(v: nat): char
    requires v < 64
  {
    if v < 26 then 'A' + v as char
    else if v < 52 then 'a' + (v - 26) as char
    else if v < 62 then '0' + (v - 52) as char
    else if v == 62 then '+' else '/'
  }

  // 64 stands for a character outside the alphabet.
  function Value(c: char): nat {
    if 'A' <= c <= 'Z' then c as int - 'A' as int
    else if 'a' <= c <= 'z' then c as int - 'a' as int + 26
    else if '0' <= c <= '9' then c as int - '0' as int + 52
    else if c == '+' then 62
    else if c == '/' then 63
    else 64
  }

  lemma SymbolValue(v: nat)
    requires v < 64
    ensures Value(Symbol(v)) == v && Symbol(v) != '=' && Symbol(v) != '\r' && Symbol(v) != '\n'
  {
  }

  function Byte(s: string, i: nat): nat {
    if i < |s| then s[i] as int % 256 else 0
  }

  // The four values of the next group of three bytes; missing bytes count as zero.
  function V0(s: string): nat { Byte(s, 0) / 4 }
  function V1(s: string): nat { Byte(s, 0) % 4 * 16 + Byte(s, 1) / 16 }
  function V2(s: string): nat { Byte(s, 1) % 16 * 4 + Byte(s, 2) / 64 }
  function V3(s: string): nat { Byte(s, 2) % 64 }

  function Encode(s: string): string {
    if |s| == 0 then ""
    else if |s| == 1 then [Symbol(V0(s)), Symbol(V1(s)), '=', '=']
    else if |s| == 2 then [Symbol(V0(s)), Symbol(V1(s)), Symbol(V2(s)), '=']
    else [Symbol(V0(s)), Symbol(V1(s)), Symbol(V2(s)), Symbol(V3(s))] + Encode(s[3..])
  }

  // The decoder skips line breaks.
  function Strip(s: string): string {
    if s == "" then "" else (if s[0] == '\r' || s[0] == '\n' then "" else [s[0]]) + Strip(s[1..])
  }

  function First(a: nat, b: nat): char requires a < 64 && b < 64 { (a * 4 + b / 16) as char }
  function Second(b: nat, c: nat): char requires b < 64 && c < 64 { (b % 16 * 16 + c / 4) as char }
  function Third(c: nat, d: nat): char requires c < 64 && d < 64 { (c % 4 * 64 + d) as char }

  // Groups of four; padding only at the end, its unused bits ignored.
  function Groups(s: string): Option<string> {
    if s == "" then Some("")
    else if |s| < 4 || Value(s[0]) == 64 || Value(s[1]) == 64 then None
    else if Value(s[2]) == 64 then
      if s[2..] == "==" then Some([First(Value(s[0]), Value(s[1]))]) else None
    else if Value(s[3]) == 64 then
      if s[3..] == "=" then Some([First(Value(s[0]), Value(s[1])), Second(Value(s[1]), Value(s[2]))]) else None
    else
      var rest := Groups(s[4..]);
      if rest.None? then None
      else Some([First(Value(s[0]), Value(s[1])), Second(Value(s[1]), Value(s[2])), Third(Value(s[2]), Value(s[3]))] + rest.value)
  }

  function Decode(s: string): Option<string> {
    Groups(Strip(s))
  }

  ghost predicate NoBreaks(s: string) { '\r' !in s && '\n' !in s }

  lemma {:induction false} StripNothing(s: string)
    requires NoBreaks(s)
    ensures Strip(s) == s
  {
    if s != "" {
      StripNothing(s[1..]);
      assert s == [s[0]] + s[1..];
    }
  }

  lemma {:induction false} EncodedHasNoBreaks(s: string)
    ensures NoBreaks(Encode(s))
  {
    SymbolValue(V0(s));
    SymbolValue(V1(s));
    SymbolValue(V2(s));
    SymbolValue(V3(s));
    if |s| >= 3 { EncodedHasNoBreaks(s[3..]); }
  }

  lemma GroupBits(x: nat, y: nat, z: nat)
    requires x < 256 && y < 256 && z < 256
    ensures First(x / 4, x % 4 * 16 + y / 16) as int == x
    ensures Second(x % 4 * 16 + y / 16, y % 16 * 4 + z / 64) as int == y
    ensures Third(y % 16 * 4 + z / 64, z % 64) as int == z
  {
  }

  lemma PaddedTwice(v0: nat, v1: nat)
    requires v0 < 64 && v1 < 64
    ensures Groups([Symbol(v0), Symbol(v1), '=', '=']) == Some([First(v0, v1)])
  {
    SymbolValue(v0);
    SymbolValue(v1);
    assert [Symbol(v0), Symbol(v1), '=', '='][2..] == "==";
  }

  lemma PaddedOnce(v0: nat, v1: nat, v2: nat)
    requires v0 < 64 && v1 < 64 && v2 < 64
    ensures Groups([Symbol(v0), Symbol(v1), Symbol(v2), '=']) == Some([First(v0, v1), Second(v1, v2)])
  {
    SymbolValue(v0);
    SymbolValue(v1);
    SymbolValue(v2);
    assert [Symbol(v0), Symbol(v1), Symbol(v2), '='][3..] == "=";
  }

  lemma WholeGroup(v0: nat, v1: nat, v2: nat, v3: nat, more: string)
    requires v0 < 64 && v1 < 64 && v2 < 64 && v3 < 64 && Groups(more).Some?
    ensures Groups([Symbol(v0), Symbol(v1), Symbol(v2), Symbol(v3)] + more) ==
      Some([First(v0, v1), Second(v1, v2), Third(v2, v3)] + Groups(more).value)
  {
    SymbolValue(v0);
    SymbolValue(v1);
    SymbolValue(v2);
    SymbolValue(v3);
    assert ([Symbol(v0), Symbol(v1), Symbol(v2), Symbol(v3)] + more)[4..] == more;
  }

  lemma Bits(s: string)
    requires IsBytes(s) && s != ""
    ensures First(V0(s), V1(s)) == s[0]
    ensures |s| > 1 ==> Second(V1(s), V2(s)) == s[1]
    ensures |s| > 2 ==> Third(V2(s), V3(s)) == s[2]
  {
    GroupBits(Byte(s, 0), Byte(s, 1), Byte(s, 2));
  }

  lemma {:induction false} GroupsOfEncoded(s: string)
    requires IsBytes(s)
    ensures Groups(Encode(s)) == Some(s)
  {
    if s == "" {
      return;
    }
    Bits(s);
    var v0, v1, v2, v3 := V0(s), V1(s), V2(s), V3(s);
    if |s| == 1 {
      PaddedTwice(v0, v1);
      Same(s, [Symbol(v0), Symbol(v1), '=', '='], [First(v0, v1)]);
    } else if |s| == 2 {
      PaddedOnce(v0, v1, v2);
      Same(s, [Symbol(v0), Symbol(v1), Symbol(v2), '='], [First(v0, v1), Second(v1, v2)]);
    } else {
      GroupsOfEncoded(s[3..]);
      WholeGroup(v0, v1, v2, v3, Encode(s[3..]));
      Same(s, [Symbol(v0), Symbol(v1), Symbol(v2), Symbol(v3)] + Encode(s[3..]),
           [First(v0, v1), Second(v1, v2), Third(v2, v3)] + s[3..]);
    }
  }

  lemma Same(s: string, encoded: string, decoded: string)
    requires Encode(s) == encoded && decoded == s && Groups(encoded) == Some(decoded)
    ensures Groups(Encode(s)) == Some(s)
  {
  }

  /** Decoding undoes encoding. */
  lemma RoundTrip(s: string)
    requires IsBytes(s)
    ensures Decode(Encode(s)) == Some(s)
  {
    EncodedHasNoBreaks(s);
    StripNothing(Encode(s));
    GroupsOfEncoded(s);
  }

  /** The decoder is not strict: bits that padding leaves unused do not matter, so one byte has sixteen texts. */
  lemma UnusedBitsIgnored(v0: nat, v1: nat, w1: nat)
    requires v0 < 64 && v1 < 64 && w1 < 64 && v1 / 16 == w1 / 16
    ensures Groups([Symbol(v0), Symbol(v1), '=', '=']) == Groups([Symbol(v0), Symbol(w1), '=', '='])
  {
    PaddedTwice(v0, v1);
    PaddedTwice(v0, w1);
  }

  /** The alphabet and the padding, by the vectors of section 10 of RFC 4648. */
  lemma Vectors()
    ensures Encode("f") == "Zg==" && Encode("fo") == "Zm8=" && Encode("foo") == "Zm9v" && Encode("foob") == "Zm9vYg=="
  {
    assert "foob"[3..] == "b";
  }
}
