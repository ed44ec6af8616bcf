/** The two texts the statistics reader speaks of without building them: names are the UTF-8
    of Unicode scalar values, and the output limit is the length of the JSON it prints. */
module StatsText {
  import opened StatsWire
  import opened StatsFormat

  // --------------------------------------------------------------------------- UTF-8

  /** A code point that is no surrogate. */
  type Scalar = c: int | 0 <= c < 0x110000 && !(0xD800 <= c < 0xE000)

  /** Its UTF-8 form (section 3 of RFC 3629). */
  function Encoded(c: Scalar): seq<Byte> {
    if c < 0x80 then [c]
    else if c < 0x800 then [0xC0 + c / 64, 0x80 + c % 64]
    else if c < 0x10000 then [0xE0 + c / 4096, 0x80 + c / 64 % 64, 0x80 + c % 64]
    else [0xF0 + c / 262144, 0x80 + c / 4096 % 64, 0x80 + c / 64 % 64, 0x80 + c % 64]
  }

  function EncodedText(text: seq<Scalar>): seq<Byte> {
    if text == [] then [] else Encoded(text[0]) + EncodedText(text[1..])
  }

  lemma EncodedReads(c: Scalar, rest: seq<Byte>)
    ensures Utf8(Encoded(c) + rest) <==> Utf8(rest)
  {
    var s := Encoded(c) + rest;
    assert s[|Encoded(c)|..] == rest;
  }

  lemma {:induction false} EncodedTextReads(text: seq<Scalar>)
    ensures Utf8(EncodedText(text))
  {
    if text != [] {
      EncodedTextReads(text[1..]);
      EncodedReads(text[0], EncodedText(text[1..]));
    }
  }

  function Lead(s: seq<Byte>, mark: int): int
    requires s != []
  {
    s[0] as int - mark
  }

  function Six(s: seq<Byte>, i: nat): int
    requires i < |s|
  {
    s[i] as int - 0x80
  }

  /** The number with these digits to the base 64. */
  function Joined(a: int, x: int, y: int, z: int): int {
    a * 262144 + x * 4096 + y * 64 + z
  }

  lemma JoinedSplits(a: int, x: int, y: int, z: int)
    requires 0 <= x < 64 && 0 <= y < 64 && 0 <= z < 64
    ensures var c := Joined(a, x, y, z);
            c / 262144 == a && c / 4096 % 64 == x && c / 64 % 64 == y && c % 64 == z
    ensures a == 0 ==> Joined(a, x, y, z) / 4096 == x
    ensures a == 0 && x == 0 ==> Joined(a, x, y, z) / 64 == y
  {
    var c := Joined(a, x, y, z);
    assert c / 64 == a * 4096 + x * 64 + y;
    assert c / 4096 == a * 64 + x;
  }

  /** The first scalar of a name that the reader takes. */
  function First(s: seq<Byte>): int
    requires Utf8(s) && s != []
  {
    if s[0] < 0x80 then s[0]
    else if s[0] < 0xE0 then Joined(0, 0, Lead(s, 0xC0), Six(s, 1))
    else if s[0] < 0xF0 then Joined(0, Lead(s, 0xE0), Six(s, 1), Six(s, 2))
    else Joined(Lead(s, 0xF0), Six(s, 1), Six(s, 2), Six(s, 3))
  }

  lemma FirstMeans(s: seq<Byte>) returns (c: Scalar)
    requires Utf8(s) && s != []
    ensures |Encoded(c)| <= |s| && Encoded(c) == s[..|Encoded(c)|] && Utf8(s[|Encoded(c)|..])
  {
    c := First(s);
    if s[0] >= 0xF0 {
      JoinedSplits(Lead(s, 0xF0), Six(s, 1), Six(s, 2), Six(s, 3));
    } else if s[0] >= 0xE0 {
      JoinedSplits(0, Lead(s, 0xE0), Six(s, 1), Six(s, 2));
    } else if s[0] >= 0x80 {
      JoinedSplits(0, 0, Lead(s, 0xC0), Six(s, 1));
    }
    hide Joined;
  }

  lemma {:induction false} Utf8IsText(s: seq<Byte>) returns (text: seq<Scalar>)
    requires Utf8(s)
    ensures s == EncodedText(text)
    decreases |s|
  {
    if s == [] {
      text := [];
    } else {
      var c := FirstMeans(s);
      var rest := Utf8IsText(s[|Encoded(c)|..]);
      text := [c] + rest;
      assert text[1..] == rest;
      assert s == Encoded(c) + s[|Encoded(c)|..];
    }
  }

  /** The reader takes a name exactly when it is the UTF-8 of some text. */
  lemma Utf8Exact(s: seq<Byte>)
    ensures Utf8(s) <==> exists text :: s == EncodedText(text)
  {
    if Utf8(s) {
      var text := Utf8IsText(s);
    }
    if text :| s == EncodedText(text) {
      EncodedTextReads(text);
    }
  }

  // ---------------------------------------------------------------------------- JSON

  /** An ASCII text as bytes. */
  function Ascii(text: string): (s: seq<Byte>)
    requires forall i :: 0 <= i < |text| ==> text[i] < 128 as char
    ensures |s| == |text|
  {
    seq(|text|, i requires 0 <= i < |text| => text[i] as int)
  }

  function Decimal(n: nat): seq<Byte> {
    if n < 10 then [0x30 + n] else Decimal(n / 10) + [0x30 + n % 10]
  }

  function Hex(n: nat): Byte
    requires n < 16
  {
    if n < 10 then 0x30 + n else 0x61 + n - 10
  }

  /** A byte inside a JSON string: quote, backslash and control characters are escaped
      (section 7 of RFC 8259), the short form where there is one. */
  function Quoted(b: Byte): seq<Byte> {
    if b == 0x22 || b == 0x5C then [0x5C, b]
    else if b == 0x08 then Ascii("\\b")
    else if b == 0x09 then Ascii("\\t")
    else if b == 0x0A then Ascii("\\n")
    else if b == 0x0C then Ascii("\\f")
    else if b == 0x0D then Ascii("\\r")
    else if b < 0x20 then Ascii("\\u00") + [Hex(b / 16), Hex(b % 16)]
    else [b]
  }

  function QuotedText(s: seq<Byte>): seq<Byte> {
    if s == [] then [] else Quoted(s[0]) + QuotedText(s[1..])
  }

  function RowText(row: Row): seq<Byte> {
    Ascii("{\"name\":\"") + QuotedText(row.name) + Ascii("\",\"value\":") + Decimal(row.value) + Ascii("}")
  }

  function RowTexts(rows: seq<Row>): seq<Byte> {
    if rows == [] then []
    else
      RowTexts(rows[..|rows| - 1]) + (if |rows| == 1 then [] else Ascii(",")) + RowText(rows[|rows| - 1])
  }

  /** What the client prints. */
  function OutputText(rows: seq<Row>): seq<Byte> {
    Ascii("{\"stat\":[") + RowTexts(rows) + Ascii("]}")
  }

  lemma {:induction false} DecimalLength(n: nat)
    ensures |Decimal(n)| == Digits(n)
  {
    if n >= 10 {
      DecimalLength(n / 10);
    }
  }

  lemma {:induction false} QuotedLength(s: seq<Byte>)
    ensures |QuotedText(s)| == Escaped(s)
  {
    if s != [] {
      QuotedLength(s[1..]);
    }
  }

  lemma RowLength(row: Row)
    ensures |RowText(row)| == JsonRow(row)
  {
    QuotedLength(row.name);
    DecimalLength(row.value);
  }

  lemma {:induction false} RowsLength(rows: seq<Row>)
    ensures |OutputText(rows)| == JsonSize(rows)
  {
    if rows != [] {
      RowsLength(rows[..|rows| - 1]);
      RowLength(rows[|rows| - 1]);
      hide RowText, JsonRow;
    }
  }

  /** A response decodes to these rows exactly when it encodes them and neither it nor the
      JSON printed for them is longer than 2 MiB. */
  lemma PrintedExactly(data: seq<Byte>, rows: seq<Row>)
    ensures Decode(data) == Ok(rows) <==>
              |data| <= 2097152 && IsResponse(data, rows) && |OutputText(rows)| <= 2097152
  {
    hide Decode, IsResponse, OutputText, JsonSize;
    DecodeExact(data, rows);
    RowsLength(rows);
  }
}
