/** The bounded protobuf reader of the statistics client
    (hysteria/tuic_stats_client.py, `_Wire`, `_stat`, `decode_response`).

    The functions say what is left of the input after each step; the class moves an
    offset over the input as the source does. */
module StatsWire {

  type Byte = b: int | 0 <= b < 256

  const MAX_BYTES: nat := 2 * 1024 * 1024
  const MAX_FIELD: nat := 0x1FFF_FFFF
  const MAX_COUNTER: nat := 0x8000_0000_0000_0000

  datatype Error =
    | TruncatedVarint | OverflowedVarint | OversizedVarint | TruncatedField | InvalidFieldNumber
    | UnsupportedWireType | InvalidScalar | InvalidName | NegativeCounter | MissingName
    | InvalidRowWireType | ResponseTooLong | OutputTooLong

  datatype Parsed<T> = Good(value: T, rest: seq<Byte>) | Bad(error: Error)
  datatype Result<T> = Ok(value: T) | Err(error: Error)

  datatype Payload = Number(n: nat) | Eight(bytes: seq<Byte>) | Bytes(bytes: seq<Byte>) | Four(bytes: seq<Byte>)
  datatype Field = Field(number: nat, payload: Payload)
  datatype Row = Row(name: seq<Byte>, value: nat)

  // -------------------------------------------------------------- value functions

  function VarintFrom(s: seq<Byte>, index: nat): Parsed<nat>
    requires index <= 10
    decreases 10 - index
  {
    if index == 10 then Bad(OversizedVarint)
    else if s == [] then Bad(TruncatedVarint)
    else if index == 9 && s[0] > 1 then Bad(OverflowedVarint)
    else if s[0] < 128 then Good(s[0], s[1..])
    else
      match VarintFrom(s[1..], index + 1)
      case Good(high, rest) => Good(s[0] - 128 + 128 * high, rest)
      case Bad(e) => Bad(e)
  }

  function Varint(s: seq<Byte>): Parsed<nat> {
    VarintFrom(s, 0)
  }

  function Take(s: seq<Byte>, length: nat): Parsed<seq<Byte>> {
    if length > |s| then Bad(TruncatedField) else Good(s[..length], s[length..])
  }

  function Body(s: seq<Byte>, wire: nat): Parsed<Payload> {
    if wire == 0 then
      match Varint(s) case Good(n, rest) => Good(Number(n), rest) case Bad(e) => Bad(e)
    else if wire == 1 then
      match Take(s, 8) case Good(bytes, rest) => Good(Eight(bytes), rest) case Bad(e) => Bad(e)
    else if wire == 2 then
      match Varint(s)
      case Good(length, after) =>
        (match Take(after, length) case Good(bytes, rest) => Good(Bytes(bytes), rest) case Bad(e) => Bad(e))
      case Bad(e) => Bad(e)
    else if wire == 5 then
      match Take(s, 4) case Good(bytes, rest) => Good(Four(bytes), rest) case Bad(e) => Bad(e)
    else Bad(UnsupportedWireType)
  }

  function NextField(s: seq<Byte>): Parsed<Field> {
    match Varint(s)
    case Bad(e) => Bad(e)
    case Good(tag, after) =>
      if !(1 <= tag / 8 <= MAX_FIELD) then Bad(InvalidFieldNumber)
      else
        match Body(after, tag % 8)
        case Good(payload, rest) => Good(Field(tag / 8, payload), rest)
        case Bad(e) => Bad(e)
  }

  lemma VarintShortens(s: seq<Byte>, index: nat)
    requires index <= 10 && VarintFrom(s, index).Good?
    ensures |VarintFrom(s, index).rest| < |s|
    decreases 10 - index
  {
    if s[0] >= 128 {
      VarintShortens(s[1..], index + 1);
    }
  }

  lemma NextFieldShortens(s: seq<Byte>)
    requires NextField(s).Good?
    ensures |NextField(s).rest| < |s|
  {
    VarintShortens(s, 0);
    var after := Varint(s).rest;
    if Varint(after).Good? {
      VarintShortens(after, 0);
    }
  }

  /** Strict UTF-8: no overlong form, no surrogate, nothing above U+10FFFF. */
  predicate Utf8(s: seq<Byte>) {
    if s == [] then true
    else if s[0] < 0x80 then Utf8(s[1..])
    else if 0xC2 <= s[0] < 0xE0 then |s| >= 2 && Tail(s[1]) && Utf8(s[2..])
    else if 0xE0 <= s[0] < 0xF0 then
      && |s| >= 3 && Tail(s[1]) && Tail(s[2])
      && (s[0] == 0xE0 ==> s[1] >= 0xA0) && (s[0] == 0xED ==> s[1] < 0xA0) && Utf8(s[3..])
    else if 0xF0 <= s[0] < 0xF5 then
      && |s| >= 4 && Tail(s[1]) && Tail(s[2]) && Tail(s[3])
      && (s[0] == 0xF0 ==> s[1] >= 0x90) && (s[0] == 0xF4 ==> s[1] < 0x90) && Utf8(s[4..])
    else false
  }

  predicate Tail(b: Byte) {
    0x80 <= b < 0xC0
  }

  /** The fields a row has seen so far. */
  datatype Partial = Partial(hasName: bool, name: seq<Byte>, hasValue: bool, value: nat)

  /** One field of a row. */
  function Absorb(p: Partial, f: Field): Result<Partial> {
    if f.number != 1 && f.number != 2 then Ok(p)
    else if (if f.number == 1 then p.hasName || !f.payload.Bytes? else p.hasValue || !f.payload.Number?) then
      Err(InvalidScalar)
    else if f.number == 1 then
      if Utf8(f.payload.bytes) then Ok(p.(hasName := true, name := f.payload.bytes)) else Err(InvalidName)
    else if f.payload.n >= MAX_COUNTER then Err(NegativeCounter)
    else Ok(p.(hasValue := true, value := f.payload.n))
  }

  function Finished(p: Partial): Result<Row> {
    if p.name == [] then Err(MissingName) else Ok(Row(p.name, p.value))
  }

  function StatFrom(s: seq<Byte>, p: Partial): Result<Row>
    decreases |s|
  {
    if s == [] then Finished(p)
    else
      match NextField(s)
      case Bad(e) => Err(e)
      case Good(f, rest) =>
        NextFieldShortens(s);
        match Absorb(p, f)
        case Err(e) => Err(e)
        case Ok(q) => StatFrom(rest, q)
  }

  function Stat(s: seq<Byte>): Result<Row> {
    StatFrom(s, Partial(false, [], false, 0))
  }

  // ------------------------------------------------------------- size of the output

  function Digits(n: nat): nat {
    if n < 10 then 1 else 1 + Digits(n / 10)
  }

  /** Bytes of one character of a JSON string without ASCII escaping. */
  function EscapedByte(b: Byte): nat {
    if b == 0x22 || b == 0x5C || b in {0x08, 0x09, 0x0A, 0x0C, 0x0D} then 2 else if b < 0x20 then 6 else 1
  }

  function Escaped(s: seq<Byte>): nat {
    if s == [] then 0 else EscapedByte(s[0]) + Escaped(s[1..])
  }

  /** {"name":"…","value":…} */
  function JsonRow(row: Row): nat {
    20 + Escaped(row.name) + Digits(row.value)
  }

  const EMPTY_OUTPUT: nat := 11  // {"stat":[]}

  function OutputAfter(output: nat, rows: seq<Row>, row: Row): nat {
    output + JsonRow(row) + (if rows == [] then 0 else 1)
  }

  /** What one row field adds, within the output limit. */
  function RowAfter(f: Field, rows: seq<Row>, output: nat): Result<Row> {
    if !f.payload.Bytes? then Err(InvalidRowWireType)
    else
      match Stat(f.payload.bytes)
      case Err(e) => Err(e)
      case Ok(row) => if OutputAfter(output, rows, row) > MAX_BYTES then Err(OutputTooLong) else Ok(row)
  }

  function DecodeFrom(s: seq<Byte>, rows: seq<Row>, output: nat): Result<seq<Row>>
    decreases |s|
  {
    if s == [] then Ok(rows)
    else
      match NextField(s)
      case Bad(e) => Err(e)
      case Good(f, rest) =>
        NextFieldShortens(s);
        if f.number != 1 then DecodeFrom(rest, rows, output)
        else
          match RowAfter(f, rows, output)
          case Err(e) => Err(e)
          case Ok(row) => DecodeFrom(rest, rows + [row], OutputAfter(output, rows, row))
  }

  function Decode(data: seq<Byte>): Result<seq<Row>> {
    if |data| > MAX_BYTES then Err(ResponseTooLong) else DecodeFrom(data, [], EMPTY_OUTPUT)
  }

  // ------------------------------------------------------------------- the reader

  function Shift(n: nat): nat {
    if n == 0 then 1 else 128 * Shift(n - 1)
  }

  class Wire {
    const data: seq<Byte>
    var offset: nat

    ghost predicate Valid()
      reads this
    {
      offset <= |data|
    }

    ghost function Rest(): seq<Byte>
      requires Valid()
      reads this
    {
      data[offset..]
    }

    /** The reader is where `p` leaves the input. */
    ghost predicate At<T>(p: Parsed<T>)
      requires Valid()
      reads this
    {
      p.Good? ==> Rest() == p.rest
    }

    constructor (input: seq<Byte>)
      ensures Valid() && Rest() == input && data == input
    {
      data, offset := input, 0;
    }

    method ReadVarint() returns (r: Result<nat>)
      requires Valid()
      modifies this`offset
      ensures Valid() && At(Varint(old(Rest())))
      ensures r == (match Varint(old(Rest())) case Good(n, _) => Ok(n) case Bad(e) => Err(e))
    {
      hide VarintFrom, Shift, Agrees;
      ghost var whole := Varint(Rest());
      var number: nat, index := 0, 0;
      VarintStarts(Rest());
      while index < 10
        invariant 0 <= index <= 10 && Valid()
        invariant Agrees(whole, VarintFrom(Rest(), index), number, Shift(index))
      {
        VarintStep(Rest(), index, whole, number);
        if offset >= |data| {
          return Err(TruncatedVarint);
        }
        var byte := data[offset];
        assert Rest()[1..] == data[offset + 1..];
        offset := offset + 1;
        if index == 9 && byte > 1 {
          return Err(OverflowedVarint);
        }
        number := number + (byte % 128) * Shift(index);
        if byte < 128 {
          return Ok(number);
        }
        index := index + 1;
      }
      VarintTooLong(Rest(), whole, number);
      r := Err(OversizedVarint);
    }

    method ReadBytes(length: nat) returns (r: Result<seq<Byte>>)
      requires Valid()
      modifies this`offset
      ensures Valid() && At(Take(old(Rest()), length))
      ensures r == (match Take(old(Rest()), length) case Good(bytes, _) => Ok(bytes) case Bad(e) => Err(e))
    {
      var end := offset + length;
      if end > |data| {
        return Err(TruncatedField);
      }
      assert data[offset..end] == Rest()[..length] && data[end..] == Rest()[length..];
      r := Ok(data[offset..end]);
      offset := end;
    }

    method ReadBody(wire: nat) returns (r: Result<Payload>)
      requires Valid()
      modifies this`offset
      ensures Valid() && At(Body(old(Rest()), wire))
      ensures r == (match Body(old(Rest()), wire) case Good(v, _) => Ok(v) case Bad(e) => Err(e))
    {
      if wire == 0 {
        var n := ReadVarint();
        r := if n.Ok? then Ok(Number(n.value)) else Err(n.error);
      } else if wire == 1 {
        var bytes := ReadBytes(8);
        r := if bytes.Ok? then Ok(Eight(bytes.value)) else Err(bytes.error);
      } else if wire == 2 {
        var length := ReadVarint();
        if length.Err? {
          return Err(length.error);
        }
        var bytes := ReadBytes(length.value);
        r := if bytes.Ok? then Ok(Bytes(bytes.value)) else Err(bytes.error);
      } else if wire == 5 {
        var bytes := ReadBytes(4);
        r := if bytes.Ok? then Ok(Four(bytes.value)) else Err(bytes.error);
      } else {
        r := Err(UnsupportedWireType);
      }
    }

    /** One step of the generator `fields`. */
    method ReadField() returns (r: Result<Field>)
      requires Valid()
      modifies this`offset
      ensures Valid() && At(NextField(old(Rest())))
      ensures r == (match NextField(old(Rest())) case Good(f, _) => Ok(f) case Bad(e) => Err(e))
    {
      var tag := ReadVarint();
      if tag.Err? {
        return Err(tag.error);
      }
      var number, wire := tag.value / 8, tag.value % 8;
      if !(1 <= number <= MAX_FIELD) {
        return Err(InvalidFieldNumber);
      }
      var payload := ReadBody(wire);
      r := if payload.Ok? then Ok(Field(number, payload.value)) else Err(payload.error);
    }
  }

  /** What is read so far and what is still to read make the whole varint. */
  ghost predicate Agrees(whole: Parsed<nat>, part: Parsed<nat>, number: nat, weight: nat) {
    match part
    case Good(n, rest) => whole == Good(number + weight * n, rest)
    case Bad(e) => whole == Bad(e)
  }

  lemma VarintStarts(s: seq<Byte>)
    ensures Agrees(Varint(s), VarintFrom(s, 0), 0, Shift(0))
  {
  }

  lemma VarintTooLong(s: seq<Byte>, whole: Parsed<nat>, number: nat)
    requires Agrees(whole, VarintFrom(s, 10), number, Shift(10))
    ensures whole == Bad(OversizedVarint)
  {
  }

  lemma VarintStep(s: seq<Byte>, index: nat, whole: Parsed<nat>, number: nat)
    requires index < 10 && Agrees(whole, VarintFrom(s, index), number, Shift(index))
    ensures s == [] ==> whole == Bad(TruncatedVarint)
    ensures s != [] && index == 9 && s[0] > 1 ==> whole == Bad(OverflowedVarint)
    ensures s != [] && !(index == 9 && s[0] > 1) ==>
      var next := number + (s[0] % 128) * Shift(index);
      if s[0] < 128 then whole == Good(next, s[1..])
      else Agrees(whole, VarintFrom(s[1..], index + 1), next, Shift(index + 1))
  {
    if s != [] && s[0] >= 128 {
      var part := VarintFrom(s[1..], index + 1);
      assert s[0] % 128 == s[0] - 128;
      if part.Good? {
        Distributes(Shift(index), s[0] - 128, part.value);
      }
    }
  }

  lemma Distributes(weight: nat, low: nat, high: nat)
    ensures weight * (low + 128 * high) == low * weight + (128 * weight) * high
  {
  }

  method ReadStat(data: seq<Byte>) returns (r: Result<Row>)
    ensures r == Stat(data)
  {
    var wire := new Wire(data);
    var p := Partial(false, [], false, 0);
    while wire.offset < |wire.data|
      invariant wire.Valid() && StatFrom(wire.Rest(), p) == Stat(data)
      decreases |wire.Rest()|
    {
      ghost var here := wire.Rest();
      var field := wire.ReadField();
      if field.Err? {
        return Err(field.error);
      }
      NextFieldShortens(here);
      var f := field.value;
      if f.number == 1 || f.number == 2 {
        var seen := if f.number == 1 then p.hasName else p.hasValue;
        if seen || (if f.number == 1 then !f.payload.Bytes? else !f.payload.Number?) {
          return Err(InvalidScalar);
        }
        if f.number == 1 {
          if !Utf8(f.payload.bytes) {
            return Err(InvalidName);
          }
          p := p.(hasName := true, name := f.payload.bytes);
        } else {
          if f.payload.n >= MAX_COUNTER {
            return Err(NegativeCounter);
          }
          p := p.(hasValue := true, value := f.payload.n);
        }
      }
    }
    r := if p.name == [] then Err(MissingName) else Ok(Row(p.name, p.value));
  }

  /** One row of the response. */
  method DecodeRow(f: Field, rows: seq<Row>, output: nat) returns (r: Result<Row>, grown: nat)
    requires f.number == 1
    ensures r == RowAfter(f, rows, output)
    ensures r.Ok? ==> grown == OutputAfter(output, rows, r.value)
  {
    grown := output;
    if !f.payload.Bytes? {
      return Err(InvalidRowWireType), output;
    }
    r := ReadStat(f.payload.bytes);
    if r.Err? {
      return;
    }
    grown := output + JsonRow(r.value);
    if rows != [] {
      grown := grown + 1;
    }
    if grown > MAX_BYTES {
      r := Err(OutputTooLong);
    }
  }

  method DecodeResponse(data: seq<Byte>) returns (r: Result<seq<Row>>)
    ensures r == Decode(data)
  {
    hide NextField, RowAfter, OutputAfter;
    if |data| > MAX_BYTES {
      return Err(ResponseTooLong);
    }
    var rows: seq<Row>, output: nat := [], EMPTY_OUTPUT;
    var wire := new Wire(data);
    while wire.offset < |wire.data|
      invariant wire.Valid() && DecodeFrom(wire.Rest(), rows, output) == Decode(data)
      decreases |wire.Rest()|
    {
      ghost var here := wire.Rest();
      var field := wire.ReadField();
      if field.Err? {
        return Err(field.error);
      }
      NextFieldShortens(here);
      if field.value.number == 1 {
        var row, grown := DecodeRow(field.value, rows, output);
        if row.Err? {
          return Err(row.error);
        }
        rows, output := rows + [row.value], grown;
      }
    }
    r := Ok(rows);
  }
}
