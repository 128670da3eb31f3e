// The unpadded base64url encoding of section 5 of RFC 4648, with the leniency of the Go decoder:
// it skips line breaks and ignores the unused bits of the last character.
module Base64Url {
  import opened Wrappers

  type Byte = x: int | 0 <= x < 256

  type Sextet = x: int | 0 <= x < 64

  function Digit(v: Sextet): char {
    if v < 26 then ('A' as int + v) as char
    else if v < 52 then ('a' as int + v - 26) as char
    else if v < 62 then ('0' as int + v - 52) as char
    else if v == 62 then '-'
    else '_'
  }

  function ValueOf(c: char): Option<Sextet> {
    if 'A' <= c <= 'Z' then Some(c as int - 'A' as int)
    else if 'a' <= c <= 'z' then Some(c as int - 'a' as int + 26)
    else if '0' <= c <= '9' then Some(c as int - '0' as int + 52)
    else if c == '-' then Some(62)
    else if c == '_' then Some(63)
    else None
  }

  lemma DigitValue(v: Sextet)
    ensures ValueOf(Digit(v)) == Some(v) && Digit(v) != '\r' && Digit(v) != '\n'
  {
  }

  // ---------- Bytes and sextets ----------

  function Pack(data: seq<Byte>): seq<Sextet> {
    if |data| == 0 then []
    else if |data| == 1 then [data[0] / 4, data[0] % 4 * 16]
    else if |data| == 2 then [data[0] / 4, data[0] % 4 * 16 + data[1] / 16, data[1] % 16 * 4]
    else Quad(data[0], data[1], data[2]) + Pack(data[3..])
  }

  function Quad(a: Byte, b: Byte, c: Byte): seq<Sextet> {
    [a / 4, a % 4 * 16 + b / 16, b % 16 * 4 + c / 64, c % 64]
  }

  function First(u: Sextet, v: Sextet): Byte {
    u * 4 + v / 16
  }

  function Second(v: Sextet, w: Sextet): Byte {
    v % 16 * 16 + w / 4
  }

  function Third(w: Sextet, x: Sextet): Byte {
    w % 4 * 64 + x
  }

  function Triple(u: Sextet, v: Sextet, w: Sextet, x: Sextet): seq<Byte> {
    [First(u, v), Second(v, w), Third(w, x)]
  }

  /** A single sextet left over is corrupt input. */
  function Unpack(s: seq<Sextet>): Option<seq<Byte>> {
    if |s| == 0 then Some([])
    else if |s| == 1 then None
    else if |s| == 2 then Some([First(s[0], s[1])])
    else if |s| == 3 then Some([First(s[0], s[1]), Second(s[1], s[2])])
    else
      match Unpack(s[4..])
      case None => None
      case Some(rest) => Some(Triple(s[0], s[1], s[2], s[3]) + rest)
  }

  /** Three bytes survive the trip through four sextets. */
  lemma ThreeBytes(a: Byte, b: Byte, c: Byte)
    ensures var v, w: Sextet := a % 4 * 16 + b / 16, b % 16 * 4 + c / 64;
            First(a / 4, v) == a && Second(v, w) == b && Third(w, c % 64) == c
  {
  }

  lemma OneGroup(a: Byte, b: Byte, c: Byte, rest: seq<Sextet>)
    ensures Unpack(Quad(a, b, c) + rest) ==
            match Unpack(rest) case None => None case Some(data) => Some([a, b, c] + data)
  {
    ThreeBytes(a, b, c);
    var s := Quad(a, b, c) + rest;
    assert s[4..] == rest;
    assert Triple(s[0], s[1], s[2], s[3]) == [a, b, c];
  }

  lemma UnpackShort(u: Sextet, v: Sextet, w: Sextet)
    ensures Unpack([u, v]) == Some([First(u, v)])
    ensures Unpack([u, v, w]) == Some([First(u, v), Second(v, w)])
  {
  }

  lemma OneByte(a: Byte)
    ensures Unpack([a / 4, a % 4 * 16]) == Some([a])
  {
    var v: Sextet := a % 4 * 16;
    UnpackShort(a / 4, v, 0);
    assert First(a / 4, v) == a;
  }

  lemma TwoBytes(a: Byte, b: Byte)
    ensures Unpack([a / 4, a % 4 * 16 + b / 16, b % 16 * 4]) == Some([a, b])
  {
    var v: Sextet := a % 4 * 16 + b / 16;
    var w: Sextet := b % 16 * 4;
    UnpackShort(a / 4, v, w);
    assert First(a / 4, v) == a;
    assert Second(v, w) == b;
  }

  lemma {:induction false} UnpackPack(data: seq<Byte>)
    ensures Unpack(Pack(data)) == Some(data)
  {
    if |data| == 1 {
      OneByte(data[0]);
      assert data == [data[0]];
    } else if |data| == 2 {
      TwoBytes(data[0], data[1]);
      assert data == [data[0], data[1]];
    } else if |data| >= 3 {
      OneGroup(data[0], data[1], data[2], Pack(data[3..]));
      UnpackPack(data[3..]);
      assert data == [data[0], data[1], data[2]] + data[3..];
    }
  }

  // ---------- Sextets and text ----------

  function ToText(s: seq<Sextet>): string {
    if s == [] then "" else [Digit(s[0])] + ToText(s[1..])
  }

  /** Line breaks are skipped; any other character outside the alphabet is corrupt input. */
  function FromText(text: string): Option<seq<Sextet>> {
    if text == "" then Some([])
    else if text[0] == '\r' || text[0] == '\n' then FromText(text[1..])
    else if ValueOf(text[0]) == None then None
    else
      match FromText(text[1..])
      case None => None
      case Some(rest) => Some([ValueOf(text[0]).value] + rest)
  }

  lemma {:induction false} FromToText(s: seq<Sextet>)
    ensures FromText(ToText(s)) == Some(s)
  {
    if s != [] {
      DigitValue(s[0]);
      FromToText(s[1..]);
      assert ToText(s)[1..] == ToText(s[1..]);
      assert s == [s[0]] + s[1..];
    }
  }

  // ---------- The codec ----------

  function Encode(data: seq<Byte>): string {
    ToText(Pack(data))
  }

  function Decode(text: string): Option<seq<Byte>> {
    match FromText(text)
    case None => None
    case Some(s) => Unpack(s)
  }

  /** Decoding inverts encoding, for every sequence of bytes. */
  lemma RoundTrip(data: seq<Byte>)
    ensures Decode(Encode(data)) == Some(data)
  {
    UnpackPack(data);
    FromToText(Pack(data));
  }

  // ---------- Section 5 of RFC 4648 ----------

  const Upper := "ABCDEFGHIJKLMNOPQRSTUVWXYZ"
  const Lower := "abcdefghijklmnopqrstuvwxyz"
  const Decimals := "0123456789"

  /** Table 2 of RFC 4648. */
  const Alphabet := Upper + Lower + Decimals + "-_"

  lemma UpperAt(v: nat)
    requires v < 26
    ensures Upper[v] == ('A' as int + v) as char
  {
    assert v < 13 || v >= 13;
  }

  lemma LowerAt(v: nat)
    requires v < 26
    ensures Lower[v] == ('a' as int + v) as char
  {
    assert v < 13 || v >= 13;
  }

  lemma DigitInAlphabet(v: Sextet)
    ensures |Alphabet| == 64 && Digit(v) == Alphabet[v]
  {
    if v < 26 {
      UpperAt(v);
    } else if v < 52 {
      LowerAt(v - 26);
    }
  }

  function ByteAt(data: seq<Byte>, i: nat): Byte {
    if i < |data| then data[i] else 0
  }

  /** Six of the sixteen bits of two bytes, after some of the first ones. */
  function SixBits(a: Byte, b: Byte, offset: nat): Sextet {
    match offset
    case 0 => (a * 256 + b) / 1024 % 64
    case 2 => (a * 256 + b) / 256 % 64
    case 4 => (a * 256 + b) / 64 % 64
    case _ => (a * 256 + b) / 16 % 64
  }

  /** The six bits that begin at bit 6 * k of the data, most significant bit first, with zeros after the end. */
  function BitsAt(data: seq<Byte>, k: nat): Sextet {
    SixBits(ByteAt(data, 6 * k / 8), ByteAt(data, 6 * k / 8 + 1), 6 * k % 8)
  }

  lemma BitsLater(data: seq<Byte>, k: nat)
    requires |data| >= 3 && k >= 4
    ensures BitsAt(data, k) == BitsAt(data[3..], k - 4)
  {
    assert 6 * k / 8 == 6 * (k - 4) / 8 + 3 && 6 * k % 8 == 6 * (k - 4) % 8;
  }

  lemma DropLow(x: nat, b: nat, d: nat)
    requires d == 16 || d == 64
    ensures (x * d + b) / d == x + b / d
  {
  }

  lemma KeepLow(q: nat, y: nat)
    requires y < 64
    ensures (64 * q + y) % 64 == y
  {
  }

  lemma Bits0(a: Byte, b: Byte)
    ensures SixBits(a, b, 0) == a / 4
  {
    assert a * 256 + b == 1024 * (a / 4) + (a % 4 * 256 + b);
  }

  lemma Bits1(a: Byte, b: Byte)
    ensures SixBits(a, b, 6) == a % 4 * 16 + b / 16
  {
    DropLow(a * 16, b, 16);
    KeepLow(a / 4, a % 4 * 16 + b / 16);
  }

  lemma Bits2(b: Byte, c: Byte)
    ensures SixBits(b, c, 4) == b % 16 * 4 + c / 64
  {
    DropLow(b * 4, c, 64);
    KeepLow(b / 16, b % 16 * 4 + c / 64);
  }

  lemma Bits3(c: Byte, d: Byte)
    ensures SixBits(c, d, 2) == c % 64
  {
  }

  lemma FirstBits(a: Byte, b: Byte, c: Byte, data: seq<Byte>, k: nat)
    requires k < 4 && |data| > 0 && a == data[0] && b == ByteAt(data, 1) && c == ByteAt(data, 2)
    ensures BitsAt(data, k) == Quad(a, b, c)[k]
  {
    if k == 0 {
      Bits0(a, b);
    } else if k == 1 {
      Bits1(a, b);
    } else if k == 2 {
      Bits2(b, c);
    } else {
      Bits3(c, ByteAt(data, 3));
    }
  }

  lemma {:induction false} PackAt(data: seq<Byte>, k: nat)
    requires k < |Pack(data)|
    ensures Pack(data)[k] == BitsAt(data, k)
  {
    if k < 4 {
      FirstBits(data[0], ByteAt(data, 1), ByteAt(data, 2), data, k);
    } else {
      PackAt(data[3..], k - 4);
      BitsLater(data, k);
    }
  }

  lemma {:induction false} PackLength(data: seq<Byte>)
    ensures |Pack(data)| == (4 * |data| + 2) / 3
  {
    if |data| >= 3 {
      PackLength(data[3..]);
    }
  }

  lemma {:induction false} TextAt(s: seq<Sextet>, k: nat)
    requires k < |s|
    ensures |ToText(s)| == |s| && ToText(s)[k] == Digit(s[k])
  {
    if |s| > 1 {
      TextAt(s[1..], if k > 0 then k - 1 else 0);
    }
  }

  /** Every character is the one that the alphabet gives for its six bits; no padding follows. */
  lemma EncodeAt(data: seq<Byte>, k: nat)
    requires k < (4 * |data| + 2) / 3
    ensures |Encode(data)| == (4 * |data| + 2) / 3
    ensures Encode(data)[k] == Alphabet[BitsAt(data, k)]
  {
    PackLength(data);
    PackAt(data, k);
    TextAt(Pack(data), k);
    DigitInAlphabet(BitsAt(data, k));
  }

  // ---------- Which texts are decoded ----------

  lemma {:induction false} FromTextDefined(text: string)
    ensures FromText(text).Some? <==> forall c :: c in text ==> c == '\r' || c == '\n' || c in Alphabet
    ensures FromText(text).Some? ==> |FromText(text).value| == Characters(text)
  {
    if text != "" {
      FromTextDefined(text[1..]);
      ValueInAlphabet(text[0]);
      assert text == [text[0]] + text[1..];
    }
  }

  lemma ValueInAlphabet(c: char)
    ensures ValueOf(c).Some? <==> c in Alphabet
  {
    if ValueOf(c).Some? {
      DigitInAlphabet(ValueOf(c).value);
      assert Digit(ValueOf(c).value) == c;
    }
    forall v: int | 0 <= v < 64 ensures ValueOf(Alphabet[v]).Some? {
      DigitInAlphabet(v);
      DigitValue(v);
    }
  }

  /** How many characters are not line breaks. */
  function Characters(text: string): nat {
    if text == "" then 0 else (if text[0] == '\r' || text[0] == '\n' then 0 else 1) + Characters(text[1..])
  }

  lemma {:induction false} UnpackDefined(s: seq<Sextet>)
    ensures Unpack(s).Some? <==> |s| % 4 != 1
  {
    if |s| >= 4 {
      UnpackDefined(s[4..]);
      FourLess(|s|);
    }
  }

  lemma FourLess(n: nat)
    requires n >= 4
    ensures (n - 4) % 4 == n % 4
  {
  }

  /** Text is decoded if and only if it has only letters of the alphabet and line breaks, and no letter left over. */
  lemma DecodeDefined(text: string)
    ensures Decode(text).Some? <==>
              (forall c :: c in text ==> c == '\r' || c == '\n' || c in Alphabet) && Characters(text) % 4 != 1
  {
    FromTextDefined(text);
    if FromText(text).Some? {
      UnpackDefined(FromText(text).value);
    }
  }
}
