/** Standard padded base64 (section 4 of RFC 4648), decoded the way Go's StdEncoding does. */
module Base64 {
  import opened Collections

  type sextet = x: int | 0 <= x < 64

  function Symbol(v: sextet): char {
    if v < 26 then 'A' + v as char
    else if v < 52 then 'a' + (v - 26) as char
    else if v < 62 then '0' + (v - 52) as char
    else if v == 62 then '+'
    else '/'
  }

  function Unsymbol(c: char): Option<sextet> {
    if 'A' <= c <= 'Z' then Some((c - 'A') as int)
    else if 'a' <= c <= 'z' then Some((c - 'a') as int + 26)
    else if '0' <= c <= '9' then Some((c - '0') as int + 52)
    else if c == '+' then Some(62)
    else if c == '/' then Some(63)
    else None
  }

  /** The 64 characters of table 1 in RFC 4648, in order. */
  const UPPER := "ABCDEFGHIJKLMNOPQRSTUVWXYZ"
  const LOWER := "abcdefghijklmnopqrstuvwxyz"
  const ALPHABET := UPPER + LOWER + "0123456789" + "+/"

  function EncodeQuantum(x: byte, y: byte, z: byte): (s: string)
    ensures |s| == 4
  {
    [Symbol(x / 4), Symbol(x % 4 * 16 + y / 16), Symbol(y % 16 * 4 + z / 64), Symbol(z % 64)]
  }

  /** The last one or two bytes, padded. */
  function EncodeTail(b: bytes): (s: string)
    requires |b| < 3
    ensures |s| == if b == [] then 0 else 4
  {
    if |b| == 0 then ""
    else if |b| == 1 then [Symbol(b[0] / 4), Symbol(b[0] % 4 * 16), '=', '=']
    else [Symbol(b[0] / 4), Symbol(b[0] % 4 * 16 + b[1] / 16), Symbol(b[1] % 16 * 4), '=']
  }

  function Encode(b: bytes): string {
    if |b| < 3 then EncodeTail(b) else EncodeQuantum(b[0], b[1], b[2]) + Encode(b[3..])
  }

  /** The decoder skips line breaks wherever they occur. */
  function Strip(s: string): string {
    if s == "" then ""
    else if s[0] == '\r' || s[0] == '\n' then Strip(s[1..])
    else [s[0]] + Strip(s[1..])
  }

  /** Padding may only end the input; the unused low bits before it are not checked. */
  function DecodeQuanta(t: string): Option<bytes> {
    if t == "" then Some([])
    else if |t| < 4 then None
    else
      match (Unsymbol(t[0]), Unsymbol(t[1]))
      case (Some(v0), Some(v1)) =>
        var b0: byte := v0 * 4 + v1 / 16;
        if t[2] == '=' then
          if t[3] == '=' && |t| == 4 then Some([b0]) else None
        else (
          match Unsymbol(t[2])
          case None => None
          case Some(v2) =>
            var b1: byte := v1 % 16 * 16 + v2 / 4;
            if t[3] == '=' then
              if |t| == 4 then Some([b0, b1]) else None
            else (
              match (Unsymbol(t[3]), DecodeQuanta(t[4..]))
              case (Some(v3), Some(rest)) => Some([b0, b1, v2 % 4 * 64 + v3] + rest)
              case _ => None
            )
        )
      case _ => None
  }

  function Decode(s: string): Option<bytes> {
    DecodeQuanta(Strip(s))
  }

  lemma UpperLetter(i: nat)
    requires i < 26
    ensures UPPER[i] == 'A' + i as char
  {
  }

  lemma LowerLetter(i: nat)
    requires i < 26
    ensures LOWER[i] == 'a' + i as char
  {
  }

  lemma Alphabet(v: sextet)
    ensures |ALPHABET| == 64 && Symbol(v) == ALPHABET[v]
  {
    var digits := "0123456789";
    if v < 26 {
      UpperLetter(v);
    } else if v < 52 {
      LowerLetter(v - 26);
      assert ALPHABET[v] == LOWER[v - 26];
    } else if v < 62 {
      assert digits[v - 52] == '0' + (v - 52) as char;
      assert ALPHABET[v] == digits[v - 52];
    } else {
      assert ALPHABET[v] == "+/"[v - 62];
    }
  }

  lemma SymbolRoundTrip(v: sextet)
    ensures Unsymbol(Symbol(v)) == Some(v)
    ensures Symbol(v) != '=' && Symbol(v) != '\r' && Symbol(v) != '\n'
  {
  }

  lemma {:induction false} StripKeeps(s: string)
    requires forall i :: 0 <= i < |s| ==> s[i] != '\r' && s[i] != '\n'
    ensures Strip(s) == s
  {
    if s != "" {
      StripKeeps(s[1..]);
    }
  }

  lemma EncodeStep(b: bytes)
    requires |b| >= 3
    ensures |Encode(b)| == 4 + |Encode(b[3..])|
  {
  }

  lemma {:induction false} EncodedLength(b: bytes)
    ensures |Encode(b)| == (|b| + 2) / 3 * 4
  {
    if |b| >= 3 {
      EncodeStep(b);
      EncodedLength(b[3..]);
    }
  }

  lemma {:induction false} EncodedText(b: bytes)
    ensures |Encode(b)| == (|b| + 2) / 3 * 4
    ensures forall i :: 0 <= i < |Encode(b)| ==> Encode(b)[i] == '=' || Unsymbol(Encode(b)[i]).Some?
  {
    EncodedLength(b);
    if |b| >= 3 {
      EncodedText(b[3..]);
      assert Encode(b)[4..] == Encode(b[3..]);
      forall i | 0 <= i < |Encode(b)| ensures Encode(b)[i] == '=' || Unsymbol(Encode(b)[i]).Some? {
        assert i >= 4 ==> Encode(b)[i] == Encode(b[3..])[i - 4];
      }
    }
  }

  /** The sextet a character stands for; padding stands for zero bits. */
  function Bits6(c: char): nat {
    if Unsymbol(c).Some? then Unsymbol(c).value else 0
  }

  /** Characters, read as a number of six bits each. */
  function Number(s: string): nat {
    if s == "" then 0 else 64 * Number(s[..|s| - 1]) + Bits6(s[|s| - 1])
  }

  lemma NumberOfFour(a: char, b: char, c: char, d: char)
    ensures Number([a, b, c, d]) == 262_144 * Bits6(a) + 4096 * Bits6(b) + 64 * Bits6(c) + Bits6(d)
  {
    assert [a, b, c, d][..3] == [a, b, c] && [a, b, c][..2] == [a, b] && [a, b][..1] == [a];
    assert Number([a]) == Bits6(a);
    assert Number([a, b]) == 64 * Number([a]) + Bits6(b);
    assert Number([a, b, c]) == 64 * Number([a, b]) + Bits6(c);
  }

  function Bytes24(x: int, y: int, z: int): int {
    x * 65_536 + y * 256 + z
  }

  lemma ThreeByteBits(x: byte, y: byte, z: byte)
    ensures Number(EncodeQuantum(x, y, z)) == Bytes24(x, y, z)
  {
    var v0: sextet, v1: sextet, v2: sextet, v3: sextet :=
      x / 4, x % 4 * 16 + y / 16, y % 16 * 4 + z / 64, z % 64;
    SymbolRoundTrip(v0);
    SymbolRoundTrip(v1);
    SymbolRoundTrip(v2);
    SymbolRoundTrip(v3);
    NumberOfFour(Symbol(v0), Symbol(v1), Symbol(v2), Symbol(v3));
  }

  lemma FirstQuantumBits(b: bytes)
    requires |b| >= 3
    ensures |Encode(b)| == 4 + |Encode(b[3..])| && Encode(b)[4..] == Encode(b[3..])
    ensures Number(Encode(b)[..4]) == Bytes24(b[0], b[1], b[2])
  {
    ThreeByteBits(b[0], b[1], b[2]);
    assert Encode(b)[..4] == EncodeQuantum(b[0], b[1], b[2]);
  }

  /** The four characters of s at i carry the three bytes of b at j. */
  predicate Carries(s: string, i: nat, b: bytes, j: nat) {
    i + 4 <= |s| && j + 3 <= |b| && Number(s[i..i + 4]) == Bytes24(b[j], b[j + 1], b[j + 2])
  }

  lemma CarriesNext(s: string, i: nat, b: bytes, j: nat)
    requires |s| >= 4 && |b| >= 3 && Carries(s[4..], i, b[3..], j)
    ensures Carries(s, i + 4, b, j + 3)
  {
    assert s[4..][i..i + 4] == s[i + 4..i + 8];
  }

  /** Every four characters carry the bits of three bytes, most significant first. */
  lemma {:induction false} QuantumBits(b: bytes, k: nat)
    requires 3 * k + 3 <= |b|
    ensures Carries(Encode(b), 4 * k, b, 3 * k)
    decreases k
  {
    FirstQuantumBits(b);
    if k > 0 {
      QuantumBits(b[3..], k - 1);
      CarriesNext(Encode(b), 4 * k - 4, b, 3 * k - 3);
    }
  }

  /** One or two bytes at the end are filled up with zero bits, and the text with padding. */
  lemma TailBits(x: byte, y: byte)
    ensures |Encode([x])| == 4 && Number(Encode([x])) == Bytes24(x, 0, 0) && Encode([x])[2..] == "=="
    ensures |Encode([x, y])| == 4 && Number(Encode([x, y])) == Bytes24(x, y, 0) && Encode([x, y])[3..] == "="
  {
    var v0: sextet, u1: sextet, v1: sextet, v2: sextet := x / 4, x % 4 * 16, x % 4 * 16 + y / 16, y % 16 * 4;
    SymbolRoundTrip(v0);
    SymbolRoundTrip(u1);
    SymbolRoundTrip(v1);
    SymbolRoundTrip(v2);
    NumberOfFour(Symbol(v0), Symbol(u1), '=', '=');
    NumberOfFour(Symbol(v0), Symbol(v1), Symbol(v2), '=');
  }

  /** Two adjacent bytes, cut into sextets and joined again. */
  lemma Bits(x: byte, y: byte)
    ensures x / 4 * 4 + (x % 4 * 16 + y / 16) / 16 == x
    ensures (x % 4 * 16 + y / 16) % 16 * 16 + (y % 16 * 4) / 4 == y
  {
  }

  lemma OneByte(x: byte)
    ensures DecodeQuanta(Encode([x])) == Some([x])
  {
    SymbolRoundTrip(x / 4);
    SymbolRoundTrip(x % 4 * 16);
    Bits(x, 0);
  }

  lemma TwoBytes(x: byte, y: byte)
    ensures DecodeQuanta(Encode([x, y])) == Some([x, y])
  {
    var v0: sextet, v1: sextet, v2: sextet := x / 4, x % 4 * 16 + y / 16, y % 16 * 4;
    SymbolRoundTrip(v0);
    SymbolRoundTrip(v1);
    SymbolRoundTrip(v2);
    assert Encode([x, y]) == [Symbol(v0), Symbol(v1), Symbol(v2), '='];
    Bits(x, y);
  }

  lemma FullQuantum(v0: sextet, v1: sextet, v2: sextet, v3: sextet, text: string, rest: bytes)
    requires DecodeQuanta(text) == Some(rest)
    ensures DecodeQuanta([Symbol(v0), Symbol(v1), Symbol(v2), Symbol(v3)] + text)
            == Some([v0 * 4 + v1 / 16, v1 % 16 * 16 + v2 / 4, v2 % 4 * 64 + v3] + rest)
  {
    SymbolRoundTrip(v0);
    SymbolRoundTrip(v1);
    SymbolRoundTrip(v2);
    SymbolRoundTrip(v3);
    assert ([Symbol(v0), Symbol(v1), Symbol(v2), Symbol(v3)] + text)[4..] == text;
  }

  lemma FourSextets(x: byte, y: byte, z: byte)
    ensures x / 4 * 4 + (x % 4 * 16 + y / 16) / 16 == x
    ensures (x % 4 * 16 + y / 16) % 16 * 16 + (y % 16 * 4 + z / 64) / 4 == y
    ensures (y % 16 * 4 + z / 64) % 4 * 64 + z % 64 == z
  {
  }

  lemma EncodeThree(x: byte, y: byte, z: byte, rest: bytes)
    ensures Encode([x, y, z] + rest) == EncodeQuantum(x, y, z) + Encode(rest)
  {
    assert ([x, y, z] + rest)[3..] == rest;
  }

  lemma DecodesQuantum(x: byte, y: byte, z: byte, text: string, rest: bytes)
    requires DecodeQuanta(text) == Some(rest)
    ensures DecodeQuanta(EncodeQuantum(x, y, z) + text) == Some([x, y, z] + rest)
  {
    var v0: sextet, v1: sextet, v2: sextet, v3: sextet :=
      x / 4, x % 4 * 16 + y / 16, y % 16 * 4 + z / 64, z % 64;
    FourSextets(x, y, z);
    FullQuantum(v0, v1, v2, v3, text, rest);
  }

  lemma ThreeBytes(x: byte, y: byte, z: byte, rest: bytes)
    requires DecodeQuanta(Encode(rest)) == Some(rest)
    ensures DecodeQuanta(Encode([x, y, z] + rest)) == Some([x, y, z] + rest)
  {
    EncodeThree(x, y, z, rest);
    DecodesQuantum(x, y, z, Encode(rest), rest);
  }

  lemma ShortRoundTrip(b: bytes)
    requires |b| <= 2
    ensures DecodeQuanta(Encode(b)) == Some(b)
  {
    if |b| == 1 {
      OneByte(b[0]);
      assert b == [b[0]];
    } else if |b| == 2 {
      TwoBytes(b[0], b[1]);
      assert b == [b[0], b[1]];
    }
  }

  lemma {:induction false} QuantaRoundTrip(b: bytes)
    ensures DecodeQuanta(Encode(b)) == Some(b)
  {
    if |b| <= 2 {
      ShortRoundTrip(b);
    } else {
      QuantaRoundTrip(b[3..]);
      ThreeBytes(b[0], b[1], b[2], b[3..]);
      assert b == [b[0], b[1], b[2]] + b[3..];
    }
  }

  /** Decoding undoes encoding, and only the empty string encodes to nothing. */
  lemma RoundTrip(b: bytes)
    ensures Decode(Encode(b)) == Some(b)
    ensures Encode(b) == "" <==> b == []
  {
    EncodedText(b);
    StripKeeps(Encode(b));
    QuantaRoundTrip(b);
  }
}
