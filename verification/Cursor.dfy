// The opaque paging cursor: base64url of "<unix nanoseconds>,<uuid>".
module Cursor {
  import opened Wrappers
  import opened Money
  import opened Ledger
  import B = Base64Url

  // ---------- Decimal numbers ----------

  predicate IsDigit(c: char) {
    '0' <= c <= '9'
  }

  function Decimal(n: nat): string {
    if n < 10 then [('0' as int + n) as char] else Decimal(n / 10) + [('0' as int + n % 10) as char]
  }

  /** The value of a non-empty run of digits. */
  function Number(text: string): Option<nat> {
    if text == "" then None
    else
      var last := text[|text| - 1];
      if !IsDigit(last) then None
      else if |text| == 1 then Some(last as int - '0' as int)
      else
        match Number(text[..|text| - 1])
        case None => None
        case Some(n) => Some(10 * n + (last as int - '0' as int))
  }

  function Magnitude(n: int): nat {
    if n < 0 then -n else n
  }

  function Format(n: Sen): string {
    if n < 0 then "-" + Decimal(Magnitude(n)) else Decimal(Magnitude(n))
  }

  /** Base 10 and 64 bits: an optional sign, then digits; out of range is an error. */
  function ParseInt(text: string): Option<Sen> {
    if text == "" then None
    else
      var signed := text[0] == '-' || text[0] == '+';
      match Number(if signed then text[1..] else text)
      case None => None
      case Some(n) =>
        var value: int := if text[0] == '-' then 0 - n else n;
        if InRange(value) then Some(value) else None
  }

  predicate Digits(text: string) {
    forall i :: 0 <= i < |text| ==> IsDigit(text[i])
  }

  lemma {:induction false} NumberOfDecimal(n: nat)
    ensures Number(Decimal(n)) == Some(n) && Digits(Decimal(n)) && Decimal(n) != ""
  {
    if n >= 10 {
      NumberOfDecimal(n / 10);
      var last := ('0' as int + n % 10) as char;
      assert (Decimal(n / 10) + [last])[..|Decimal(n / 10)|] == Decimal(n / 10);
    }
  }

  lemma ParseFormat(n: Sen)
    ensures ParseInt(Format(n)) == Some(n)
  {
    NumberOfDecimal(Magnitude(n));
    if n < 0 {
      assert Format(n)[1..] == Decimal(Magnitude(n));
    }
  }

  lemma FormatHasNoComma(n: Sen)
    ensures ',' !in Format(n)
  {
    NumberOfDecimal(Magnitude(n));
  }

  // ---------- UUIDs ----------

  function HexDigit(v: int): char
    requires 0 <= v < 16
  {
    if v < 10 then ('0' as int + v) as char else ('a' as int + v - 10) as char
  }

  /** Upper-case digits are accepted when parsing. */
  function HexValue(c: char): Option<nat> {
    if '0' <= c <= '9' then Some(c as int - '0' as int)
    else if 'a' <= c <= 'f' then Some(c as int - 'a' as int + 10)
    else if 'A' <= c <= 'F' then Some(c as int - 'A' as int + 10)
    else None
  }

  function Pow16(k: nat): nat {
    if k == 0 then 1 else 16 * Pow16(k - 1)
  }

  function Hex(n: nat, k: nat): (s: string)
    ensures |s| == k
  {
    if k == 0 then "" else Hex(n / 16, k - 1) + [HexDigit(n % 16)]
  }

  function HexNumber(text: string): (r: Option<nat>)
    ensures r.Some? ==> r.value < Pow16(|text|)
  {
    if text == "" then Some(0)
    else
      match (HexNumber(text[..|text| - 1]), HexValue(text[|text| - 1]))
      case (Some(n), Some(v)) => Some(16 * n + v)
      case _ => None
  }

  lemma {:induction false} HexRoundTrip(n: nat, k: nat)
    requires n < Pow16(k)
    ensures HexNumber(Hex(n, k)) == Some(n)
  {
    if k > 0 {
      HexRoundTrip(n / 16, k - 1);
      assert Hex(n, k)[..k - 1] == Hex(n / 16, k - 1);
    }
  }

  lemma AllIds()
    ensures Pow16(32) == 0x1_0000_0000_0000_0000_0000_0000_0000_0000
  {
    assert Pow16(8) == 0x1_0000_0000 by {
      assert Pow16(4) == 0x1_0000;
    }
    assert Pow16(16) == 0x1_0000_0000_0000_0000 by {
      assert Pow16(12) == 0x1_0000_0000_0000;
    }
    assert Pow16(24) == 0x1_0000_0000_0000_0000_0000_0000 by {
      assert Pow16(20) == 0x1_0000_0000_0000_0000_0000;
    }
    assert Pow16(28) == 0x1_0000_0000_0000_0000_0000_0000_0000;
  }

  /** Section 4 of RFC 9562: 32 digits in groups of 8, 4, 4, 4 and 12. */
  function Group(h: string): string
    requires |h| == 32
  {
    h[..8] + "-" + h[8..12] + "-" + h[12..16] + "-" + h[16..20] + "-" + h[20..]
  }

  function Ungroup(text: string): Option<string> {
    if |text| != 36 || text[8] != '-' || text[13] != '-' || text[18] != '-' || text[23] != '-' then None
    else Some(text[..8] + text[9..13] + text[14..18] + text[19..23] + text[24..])
  }

  lemma UngroupGroup(h: string)
    requires |h| == 32
    ensures Ungroup(Group(h)) == Some(h)
  {
    var text := Group(h);
    assert text[..8] == h[..8] && text[9..13] == h[8..12] && text[14..18] == h[12..16];
    assert text[19..23] == h[16..20] && text[24..] == h[20..];
    assert h == h[..8] + h[8..12] + h[12..16] + h[16..20] + h[20..];
  }

  function UuidText(id: Id): string {
    Group(Hex(id, 32))
  }

  function Lower(c: char): char {
    if 'A' <= c <= 'Z' then (c as int - 'A' as int + 'a' as int) as char else c
  }

  const UrnPrefix := "urn:uuid:"

  predicate IsUrnPrefix(text: string) {
    |text| == |UrnPrefix| && forall i :: 0 <= i < |text| ==> Lower(text[i]) == UrnPrefix[i]
  }

  /** The grouped form within a longer one: after the URN prefix in any case, or between any two characters. */
  function Grouped(text: string): Option<string> {
    if |text| == 36 then Some(text)
    else if |text| == 45 && IsUrnPrefix(text[..9]) then Some(text[9..])
    else if |text| == 38 then Some(text[1..37])
    else None
  }

  /**
   * The forms the UUID library takes: plain digits, grouped, with the URN prefix, or in braces, which it does not
   * check.
   */
  function ParseUuid(text: string): Option<Id> {
    AllIds();
    if |text| == 32 then HexNumber(text)
    else
      match Grouped(text)
      case None => None
      case Some(grouped) =>
        match Ungroup(grouped)
        case None => None
        case Some(h) => HexNumber(h)
  }

  lemma ParseGrouped(text: string, id: Id)
    requires |text| != 32 && Grouped(text) == Some(UuidText(id))
    ensures ParseUuid(text) == Some(id)
  {
    AllIds();
    HexRoundTrip(id, 32);
    UngroupGroup(Hex(id, 32));
  }

  lemma ParseUuidText(id: Id)
    ensures ParseUuid(UuidText(id)) == Some(id)
  {
    ParseGrouped(UuidText(id), id);
  }

  /** The other forms of the same UUID. */
  lemma ParseUuidForms(id: Id, open: char, close: char)
    ensures ParseUuid(Hex(id, 32)) == ParseUuid(UrnPrefix + UuidText(id)) == Some(id)
    ensures ParseUuid([open] + UuidText(id) + [close]) == Some(id)
  {
    AllIds();
    HexRoundTrip(id, 32);
    GroupedForms(UuidText(id), open, close);
    ParseGrouped(UrnPrefix + UuidText(id), id);
    ParseGrouped([open] + UuidText(id) + [close], id);
  }

  lemma GroupedForms(text: string, open: char, close: char)
    requires |text| == 36
    ensures Grouped(UrnPrefix + text) == Some(text) && Grouped([open] + text + [close]) == Some(text)
  {
    assert (UrnPrefix + text)[..9] == UrnPrefix && (UrnPrefix + text)[9..] == text;
    assert ([open] + text + [close])[1..37] == text;
  }

  // ---------- Cursors ----------

  /** The bytes of an ASCII text, and the text of bytes. */
  function Bytes(text: string): seq<B.Byte> {
    seq(|text|, i requires 0 <= i < |text| => if text[i] as int < 256 then text[i] as int else 0)
  }

  function Text(data: seq<B.Byte>): string {
    seq(|data|, i requires 0 <= i < |data| => data[i] as char)
  }

  predicate Ascii(text: string) {
    forall i :: 0 <= i < |text| ==> text[i] as int < 128
  }

  lemma TextOfBytes(text: string)
    requires Ascii(text)
    ensures Text(Bytes(text)) == text
  {
  }

  /** The index of the first comma, or the length. */
  function Comma(text: string): (i: nat)
    ensures i <= |text| && (forall j :: 0 <= j < i ==> text[j] != ',') && (i < |text| ==> text[i] == ',')
  {
    if text == "" || text[0] == ',' then 0 else 1 + Comma(text[1..])
  }

  datatype Position = Position(createdAt: Sen, id: Id)

  function EncodeCursor(p: Position): string {
    B.Encode(Bytes(Format(p.createdAt) + "," + UuidText(p.id)))
  }

  function ParsePosition(text: string): Option<Position> {
    var i := Comma(text);
    if i == |text| then None
    else
      match (ParseInt(text[..i]), ParseUuid(text[i + 1..]))
      case (Some(createdAt), Some(id)) => Some(Position(createdAt, id))
      case _ => None
  }

  function DecodeCursor(cursor: string): Option<Position> {
    match B.Decode(cursor)
    case None => None
    case Some(data) => ParsePosition(Text(data))
  }

  lemma CommaAfter(front: string, rest: string)
    requires ',' !in front
    ensures Comma(front + "," + rest) == |front|
  {
    var text := front + "," + rest;
    assert text[|front|] == ',';
    assert forall j :: 0 <= j < |front| ==> text[j] == front[j] != ',';
  }

  lemma ParsePositionText(p: Position)
    ensures ParsePosition(Format(p.createdAt) + "," + UuidText(p.id)) == Some(p)
  {
    var front, rest := Format(p.createdAt), UuidText(p.id);
    FormatHasNoComma(p.createdAt);
    CommaAfter(front, rest);
    assert (front + "," + rest)[..|front|] == front;
    assert (front + "," + rest)[|front| + 1..] == rest;
    ParseFormat(p.createdAt);
    ParseUuidText(p.id);
  }

  lemma {:induction false} HexAscii(n: nat, k: nat)
    ensures Ascii(Hex(n, k))
  {
    if k > 0 {
      HexAscii(n / 16, k - 1);
    }
  }

  lemma PositionTextAscii(p: Position)
    ensures Ascii(Format(p.createdAt) + "," + UuidText(p.id))
  {
    NumberOfDecimal(Magnitude(p.createdAt));
    HexAscii(p.id, 32);
  }

  /** Decoding inverts encoding, for every 64-bit time and every UUID. */
  lemma CursorRoundTrip(p: Position)
    ensures DecodeCursor(EncodeCursor(p)) == Some(p)
  {
    var text := Format(p.createdAt) + "," + UuidText(p.id);
    PositionTextAscii(p);
    TextOfBytes(text);
    B.RoundTrip(Bytes(text));
    ParsePositionText(p);
  }

  /** Hence no two positions share a cursor, and no cursor is the empty one that asks for the first page. */
  lemma CursorsDiffer(p: Position, q: Position)
    requires EncodeCursor(p) == EncodeCursor(q)
    ensures p == q && EncodeCursor(p) != ""
  {
    CursorRoundTrip(p);
    CursorRoundTrip(q);
    assert DecodeCursor("") == None;
  }

  // ---------- Which cursors are valid ----------

  lemma {:induction false} NumberDefined(text: string)
    ensures Number(text).Some? <==> text != "" && Digits(text)
  {
    if |text| > 1 {
      NumberDefined(text[..|text| - 1]);
      assert text == text[..|text| - 1] + [text[|text| - 1]];
    }
  }

  /** A number is an optional sign and digits, with a value of 64 bits. */
  lemma ParseIntDefined(text: string)
    ensures ParseInt(text).Some? <==>
              && text != ""
              && var digits := if text[0] == '-' || text[0] == '+' then text[1..] else text;
                 && digits != "" && Digits(digits) && Number(digits).Some?
                 && InRange(if text[0] == '-' then 0 - Number(digits).value else Number(digits).value)
  {
    if text != "" {
      NumberDefined(if text[0] == '-' || text[0] == '+' then text[1..] else text);
    }
  }

  /** A position is a number and a UUID around the first comma. */
  lemma ParsePositionDefined(text: string)
    ensures ParsePosition(text).Some? <==>
              exists a: string, b: string ::
                text == a + "," + b && ',' !in a && ParseInt(a).Some? && ParseUuid(b).Some?
  {
    var i := Comma(text);
    if i < |text| {
      assert text == text[..i] + "," + text[i + 1..];
    }
    forall a: string, b: string | text == a + "," + b && ',' !in a ensures Comma(text) == |a| {
      CommaAfter(a, b);
    }
    forall a: string, b: string | text == a + "," + b && ',' !in a ensures text[..i] == a && text[i + 1..] == b {
      CommaAfter(a, b);
    }
  }

  // ---------- What the text looks like ----------

  /** The last digit is the units; the rest is the text of the quotient. */
  lemma DecimalFromTheRight(n: nat)
    ensures n >= 10 ==> Decimal(n) == Decimal(n / 10) + ["0123456789"[n % 10]]
    ensures n < 10 ==> Decimal(n) == ["0123456789"[n]]
  {
  }

  lemma HexFromTheRight(n: nat, k: nat)
    requires k > 0
    ensures Hex(n, k) == Hex(n / 16, k - 1) + ["0123456789abcdef"[n % 16]]
  {
  }
}
