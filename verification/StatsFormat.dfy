/** The statistics messages the reader accepts are exactly the encodings of lists of rows
    (Protocol Buffers encoding specification, "Base 128 Varints", "Message Structure"). */
module StatsFormat {
  import opened StatsWire

  // ----------------------------------------------------------------------- varints

  /** A base-128 varint of at most 64 bits, minimal or not. */
  ghost predicate IsVarint(v: seq<Byte>) {
    IsVarintFrom(v, 0)
  }

  ghost predicate IsVarintFrom(v: seq<Byte>, index: nat) {
    && 1 <= |v| && |v| + index <= 10
    && (forall i :: 0 <= i < |v| - 1 ==> v[i] >= 128)
    && v[|v| - 1] < 128
    && (|v| + index == 10 ==> v[|v| - 1] <= 1)
  }

  function ValueOf(v: seq<Byte>): nat {
    if v == [] then 0 else v[0] % 128 + 128 * ValueOf(v[1..])
  }

  function Limit(index: nat): nat
    decreases 9 - index
  {
    if index >= 9 then 2 else 128 * Limit(index + 1)
  }

  lemma {:induction false} VarintParses(v: seq<Byte>, rest: seq<Byte>, index: nat)
    requires IsVarintFrom(v, index)
    ensures VarintFrom(v + rest, index) == Good(ValueOf(v), rest)
    decreases |v|
  {
    var s, tail := v + rest, v[1..];
    assert s[0] == v[0] && s[1..] == tail + rest;
    if |v| == 1 {
      assert tail == [] && ValueOf(v) == v[0];
    } else {
      TailIsVarint(v, index);
      VarintParses(tail, rest, index + 1);
      assert v[0] % 128 == v[0] - 128;
    }
  }

  lemma TailIsVarint(v: seq<Byte>, index: nat)
    requires IsVarintFrom(v, index) && |v| > 1
    ensures IsVarintFrom(v[1..], index + 1) && v[0] >= 128 && index <= 8
  {
    var tail := v[1..];
    assert forall i :: 0 <= i < |tail| ==> tail[i] == v[i + 1];
  }

  lemma {:induction false} VarintIsEncoded(s: seq<Byte>, index: nat) returns (v: seq<Byte>)
    requires index <= 9 && VarintFrom(s, index).Good?
    ensures var p := VarintFrom(s, index);
            s == v + p.rest && IsVarintFrom(v, index) && ValueOf(v) == p.value && p.value < Limit(index)
    decreases 9 - index
  {
    hide IsVarintFrom, ValueOf;
    LimitAtLeast(index);
    if s[0] < 128 {
      OneByteVarint(s[0], index);
      v := [s[0]];
    } else {
      var tail := VarintIsEncoded(s[1..], index + 1);
      VarintExtends(s[0], tail, index);
      v := [s[0]] + tail;
      LimitStep(index);
    }
    assert s == [s[0]] + s[1..];
  }

  lemma LimitStep(index: nat)
    requires index < 9
    ensures Limit(index) == 128 * Limit(index + 1)
  {
  }

  lemma OneByteVarint(b: Byte, index: nat)
    requires b < 128 && index <= 9 && (index == 9 ==> b <= 1)
    ensures IsVarintFrom([b], index) && ValueOf([b]) == b
  {
    assert [b][1..] == [];
  }

  lemma VarintExtends(b: Byte, tail: seq<Byte>, index: nat)
    requires b >= 128 && IsVarintFrom(tail, index + 1)
    ensures IsVarintFrom([b] + tail, index) && ValueOf([b] + tail) == b - 128 + 128 * ValueOf(tail)
  {
    var v := [b] + tail;
    assert v[1..] == tail && v[|v| - 1] == tail[|tail| - 1];
  }

  lemma LimitAtLeast(index: nat)
    ensures Limit(index) >= 2 && (index < 9 ==> Limit(index) >= 256)
    decreases 9 - index
  {
    if index < 9 {
      LimitAtLeast(index + 1);
    }
  }

  /** The reader accepts exactly the encodings of a number, and never a number of more
      than 64 bits. */
  lemma VarintExact(s: seq<Byte>, n: nat, rest: seq<Byte>)
    ensures Varint(s) == Good(n, rest) <==> exists v :: IsVarint(v) && ValueOf(v) == n && s == v + rest
    ensures Varint(s) == Good(n, rest) ==> n < 0x1_0000_0000_0000_0000
  {
    if Varint(s) == Good(n, rest) {
      var v := VarintIsEncoded(s, 0);
      assert IsVarint(v);
      LimitOfAll();
    }
    if v :| IsVarint(v) && ValueOf(v) == n && s == v + rest {
      VarintParses(v, rest, 0);
    }
  }

  lemma LimitOfAll()
    ensures Limit(0) == 0x1_0000_0000_0000_0000
  {
    assert Limit(9) == 2 && Limit(8) == 128 * 2 && Limit(7) == 128 * Limit(8);
    assert Limit(6) == 128 * Limit(7) && Limit(5) == 128 * Limit(6) && Limit(4) == 128 * Limit(5);
    assert Limit(3) == 128 * Limit(4) && Limit(2) == 128 * Limit(3) && Limit(1) == 128 * Limit(2);
  }

  // ------------------------------------------------------------------------ fields

  /** A field as written: every choice its writer has. */
  datatype Encoded = Encoded(tag: seq<Byte>, body: EncodedBody)

  datatype EncodedBody =
    | AsVarint(v: seq<Byte>)
    | AsEight(bytes: seq<Byte>)
    | AsBytes(length: seq<Byte>, bytes: seq<Byte>)
    | AsFour(bytes: seq<Byte>)

  function WireType(b: EncodedBody): nat {
    match b
    case AsVarint(_) => 0
    case AsEight(_) => 1
    case AsBytes(_, _) => 2
    case AsFour(_) => 5
  }

  function BodyBytes(b: EncodedBody): seq<Byte> {
    match b
    case AsVarint(v) => v
    case AsEight(bytes) => bytes
    case AsBytes(length, bytes) => length + bytes
    case AsFour(bytes) => bytes
  }

  function PayloadOf(b: EncodedBody): Payload {
    match b
    case AsVarint(v) => Number(ValueOf(v))
    case AsEight(bytes) => Eight(bytes)
    case AsBytes(_, bytes) => Bytes(bytes)
    case AsFour(bytes) => Four(bytes)
  }

  ghost predicate WellEncodedBody(b: EncodedBody) {
    match b
    case AsVarint(v) => IsVarint(v)
    case AsEight(bytes) => |bytes| == 8
    case AsBytes(length, bytes) => IsVarint(length) && ValueOf(length) == |bytes|
    case AsFour(bytes) => |bytes| == 4
  }

  ghost predicate WellEncoded(e: Encoded) {
    && IsVarint(e.tag) && 1 <= ValueOf(e.tag) / 8 <= MAX_FIELD
    && ValueOf(e.tag) % 8 == WireType(e.body) && WellEncodedBody(e.body)
  }

  function FieldOf(e: Encoded): Field {
    Field(ValueOf(e.tag) / 8, PayloadOf(e.body))
  }

  lemma BodyParses(b: EncodedBody, rest: seq<Byte>)
    requires WellEncodedBody(b)
    ensures Body(BodyBytes(b) + rest, WireType(b)) == Good(PayloadOf(b), rest)
  {
    match b
    case AsVarint(v) => VarintParses(v, rest, 0);
    case AsEight(bytes) =>
      assert (bytes + rest)[..8] == bytes && (bytes + rest)[8..] == rest;
    case AsBytes(length, bytes) =>
      assert (length + bytes) + rest == length + (bytes + rest);
      VarintParses(length, bytes + rest, 0);
      assert (bytes + rest)[..|bytes|] == bytes && (bytes + rest)[|bytes|..] == rest;
    case AsFour(bytes) =>
      assert (bytes + rest)[..4] == bytes && (bytes + rest)[4..] == rest;
  }

  lemma FieldParses(e: Encoded, rest: seq<Byte>)
    requires WellEncoded(e)
    ensures NextField(e.tag + BodyBytes(e.body) + rest) == Good(FieldOf(e), rest)
  {
    hide Body;
    assert e.tag + BodyBytes(e.body) + rest == e.tag + (BodyBytes(e.body) + rest);
    VarintParses(e.tag, BodyBytes(e.body) + rest, 0);
    BodyParses(e.body, rest);
  }

  lemma BodyIsEncoded(s: seq<Byte>, wire: nat) returns (b: EncodedBody)
    requires Body(s, wire).Good?
    ensures WellEncodedBody(b) && WireType(b) == wire && PayloadOf(b) == Body(s, wire).value
    ensures s == BodyBytes(b) + Body(s, wire).rest
  {
    var rest := Body(s, wire).rest;
    if wire == 0 {
      var v := VarintIsEncoded(s, 0);
      b := AsVarint(v);
    } else if wire == 1 {
      b := AsEight(s[..8]);
    } else if wire == 5 {
      b := AsFour(s[..4]);
    } else {
      var length := VarintIsEncoded(s, 0);
      var after := Varint(s).rest;
      b := AsBytes(length, after[..|after| - |rest|]);
      assert after == b.bytes + rest;
    }
  }

  lemma FieldIsEncoded(s: seq<Byte>) returns (e: Encoded)
    requires NextField(s).Good?
    ensures WellEncoded(e) && FieldOf(e) == NextField(s).value
    ensures s == e.tag + BodyBytes(e.body) + NextField(s).rest
  {
    hide Body;
    var tag := VarintIsEncoded(s, 0);
    var after := Varint(s).rest;
    var body := BodyIsEncoded(after, Varint(s).value % 8);
    e := Encoded(tag, body);
    assert s == e.tag + (BodyBytes(body) + NextField(s).rest);
  }

  // ---------------------------------------------------------------------- messages

  function Serialized(doc: seq<Encoded>): seq<Byte> {
    if doc == [] then [] else doc[0].tag + BodyBytes(doc[0].body) + Serialized(doc[1..])
  }

  ghost predicate WellFormed(doc: seq<Encoded>) {
    forall i :: 0 <= i < |doc| ==> WellEncoded(doc[i])
  }

  function FieldsOf(doc: seq<Encoded>): seq<Field> {
    if doc == [] then [] else [FieldOf(doc[0])] + FieldsOf(doc[1..])
  }

  /** The message that carries exactly these fields is one of its encodings. */
  ghost predicate Encodes(s: seq<Byte>, fields: seq<Field>) {
    exists doc :: WellFormed(doc) && Serialized(doc) == s && FieldsOf(doc) == fields
  }

  lemma EncodesNothing()
    ensures Encodes([], [])
  {
    assert WellFormed([]) && Serialized([]) == [] && FieldsOf([]) == [];
  }

  lemma EncodesOneMore(s: seq<Byte>, fields: seq<Field>)
    requires NextField(s).Good? && Encodes(NextField(s).rest, fields)
    ensures Encodes(s, [NextField(s).value] + fields)
  {
    var doc :| WellFormed(doc) && Serialized(doc) == NextField(s).rest && FieldsOf(doc) == fields;
    var e := FieldIsEncoded(s);
    var all := [e] + doc;
    assert all[1..] == doc;
    assert WellFormed(all) && Serialized(all) == s;
  }

  lemma EncodesUnfolds(s: seq<Byte>, fields: seq<Field>)
    requires Encodes(s, fields)
    ensures if fields == [] then s == []
            else NextField(s).Good? && NextField(s).value == fields[0] && Encodes(NextField(s).rest, fields[1..])
  {
    hide NextField;
    var doc :| WellFormed(doc) && Serialized(doc) == s && FieldsOf(doc) == fields;
    if doc != [] {
      FieldParses(doc[0], Serialized(doc[1..]));
      assert WellFormed(doc[1..]) && FieldsOf(doc[1..]) == fields[1..];
      NextFieldShortens(s);
    }
  }

  // -------------------------------------------------------------------------- rows

  function Known(fields: seq<Field>): seq<Field> {
    if fields == [] then []
    else if fields[0].number in {1, 2} then [fields[0]] + Known(fields[1..])
    else Known(fields[1..])
  }

  /** A name once, a counter at most once, in either order; a missing counter is zero. */
  ghost predicate RowShape(known: seq<Field>, row: Row) {
    var name, value := Field(1, Bytes(row.name)), Field(2, Number(row.value));
    && row.name != [] && Utf8(row.name) && row.value < MAX_COUNTER
    && ((known == [name] && row.value == 0) || known == [name, value] || known == [value, name])
  }

  ghost predicate IsStat(s: seq<Byte>, row: Row) {
    exists fields :: Encodes(s, fields) && RowShape(Known(fields), row)
  }

  function StatOf(fields: seq<Field>, p: Partial): Result<Row> {
    if fields == [] then Finished(p)
    else
      match Absorb(p, fields[0])
      case Err(e) => Err(e)
      case Ok(q) => StatOf(fields[1..], q)
  }

  lemma {:induction false} StatReads(s: seq<Byte>, fields: seq<Field>, p: Partial)
    requires Encodes(s, fields)
    ensures StatFrom(s, p) == StatOf(fields, p)
    decreases |fields|
  {
    hide NextField, Absorb, Encodes;
    EncodesUnfolds(s, fields);
    if fields != [] {
      NextFieldShortens(s);
      if Absorb(p, fields[0]).Ok? {
        StatReads(NextField(s).rest, fields[1..], Absorb(p, fields[0]).value);
      }
    } else {
      assert s == [];
    }
  }

  lemma {:induction false} StatIsEncoded(s: seq<Byte>, p: Partial) returns (fields: seq<Field>)
    requires StatFrom(s, p).Ok?
    ensures Encodes(s, fields)
    decreases |s|
  {
    hide NextField, Absorb, Encodes;
    if s == [] {
      fields := [];
      EncodesNothing();
    } else {
      NextFieldShortens(s);
      var rest := StatIsEncoded(NextField(s).rest, Absorb(p, NextField(s).value).value);
      fields := [NextField(s).value] + rest;
      EncodesOneMore(s, rest);
    }
  }

  lemma {:induction false} UnknownSkipped(fields: seq<Field>, p: Partial)
    ensures StatOf(fields, p) == StatOf(Known(fields), p)
    decreases |fields|
  {
    if fields != [] {
      var rest := Known(fields[1..]);
      match Absorb(p, fields[0])
      case Err(_) =>
        assert Known(fields)[0] == fields[0];
      case Ok(q) =>
        UnknownSkipped(fields[1..], q);
        assert ([fields[0]] + rest)[1..] == rest;
    }
  }

  lemma KnownOnly(fields: seq<Field>)
    ensures forall i :: 0 <= i < |Known(fields)| ==> Known(fields)[i].number in {1, 2}
  {
  }

  lemma FoldMeans(k: seq<Field>, row: Row)
    requires forall i :: 0 <= i < |k| ==> k[i].number in {1, 2}
    ensures StatOf(k, Partial(false, [], false, 0)) == Ok(row) <==> RowShape(k, row)
  {
    var start := Partial(false, [], false, 0);
    if k == [] {
    } else {
      var first := Absorb(start, k[0]);
      if |k| == 1 {
        assert k == [k[0]] && k[1..] == [];
      } else if first.Ok? {
        var second := Absorb(first.value, k[1]);
        assert k[1..][0] == k[1] && k[1..][1..] == k[2..];
        assert StatOf(k, start) == StatOf(k[1..], first.value);
        assert StatOf(k[1..], first.value) == if second.Ok? then StatOf(k[2..], second.value) else Err(second.error);
        if |k| == 2 {
          assert k == [k[0], k[1]] && k[2..] == [];
        } else if second.Ok? {
          assert second.value.hasName && second.value.hasValue;
          assert Absorb(second.value, k[2]).Err?;
          assert k[2..][0] == k[2];
          assert StatOf(k[2..], second.value).Err?;
        }
      }
    }
  }

  /** A row is read exactly from its encodings, whatever unknown fields they carry. */
  lemma StatExact(s: seq<Byte>, row: Row)
    ensures Stat(s) == Ok(row) <==> IsStat(s, row)
  {
    hide Encodes, StatOf, StatFrom, Known, RowShape;
    var start := Partial(false, [], false, 0);
    if Stat(s) == Ok(row) {
      var fields := StatIsEncoded(s, start);
      StatReads(s, fields, start);
      UnknownSkipped(fields, start);
      KnownOnly(fields);
      FoldMeans(Known(fields), row);
    }
    if IsStat(s, row) {
      var fields :| Encodes(s, fields) && RowShape(Known(fields), row);
      StatReads(s, fields, start);
      UnknownSkipped(fields, start);
      KnownOnly(fields);
      FoldMeans(Known(fields), row);
    }
  }

  // --------------------------------------------------------------------- responses

  function RowFields(fields: seq<Field>): seq<Field> {
    if fields == [] then []
    else if fields[0].number == 1 then [fields[0]] + RowFields(fields[1..])
    else RowFields(fields[1..])
  }

  ghost predicate RowsMatch(rs: seq<Field>, rows: seq<Row>) {
    && |rs| == |rows|
    && forall i :: 0 <= i < |rs| ==> rs[i].payload.Bytes? && IsStat(rs[i].payload.bytes, rows[i])
  }

  /** The size of the rendered rows. */
  function JsonSize(rows: seq<Row>): nat {
    if rows == [] then EMPTY_OUTPUT
    else JsonSize(rows[..|rows| - 1]) + JsonRow(rows[|rows| - 1]) + (if |rows| == 1 then 0 else 1)
  }

  ghost predicate IsResponse(data: seq<Byte>, rows: seq<Row>) {
    exists fields :: Encodes(data, fields) && RowsMatch(RowFields(fields), rows)
  }

  function DecodeOf(fields: seq<Field>, rows: seq<Row>, output: nat): Result<seq<Row>>
    decreases |fields|
  {
    if fields == [] then Ok(rows)
    else if fields[0].number != 1 then DecodeOf(fields[1..], rows, output)
    else
      match RowAfter(fields[0], rows, output)
      case Err(e) => Err(e)
      case Ok(row) => DecodeOf(fields[1..], rows + [row], OutputAfter(output, rows, row))
  }

  lemma {:induction false} DecodeReads(s: seq<Byte>, fields: seq<Field>, rows: seq<Row>, output: nat)
    requires Encodes(s, fields)
    ensures DecodeFrom(s, rows, output) == DecodeOf(fields, rows, output)
    decreases |fields|
  {
    hide NextField, RowAfter, OutputAfter, Encodes;
    EncodesUnfolds(s, fields);
    if fields != [] {
      NextFieldShortens(s);
      var rest := NextField(s).rest;
      var r := RowAfter(fields[0], rows, output);
      if fields[0].number != 1 {
        DecodeReads(rest, fields[1..], rows, output);
      } else if r.Ok? {
        DecodeReads(rest, fields[1..], rows + [r.value], OutputAfter(output, rows, r.value));
      }
    } else {
      assert s == [];
    }
  }

  lemma {:induction false} DecodeIsEncoded(s: seq<Byte>, rows: seq<Row>, output: nat) returns (fields: seq<Field>)
    requires DecodeFrom(s, rows, output).Ok?
    ensures Encodes(s, fields)
    decreases |s|
  {
    hide NextField, RowAfter, OutputAfter, Encodes;
    if s == [] {
      fields := [];
      EncodesNothing();
    } else {
      NextFieldShortens(s);
      var f, rest := NextField(s).value, NextField(s).rest;
      var more;
      if f.number != 1 {
        more := DecodeIsEncoded(rest, rows, output);
      } else {
        var row := RowAfter(f, rows, output).value;
        more := DecodeIsEncoded(rest, rows + [row], OutputAfter(output, rows, row));
      }
      fields := [f] + more;
      EncodesOneMore(s, more);
    }
  }

  lemma {:induction false} JsonSizeGrows(rows: seq<Row>, n: nat)
    requires n <= |rows|
    ensures JsonSize(rows[..n]) <= JsonSize(rows)
    decreases |rows|
  {
    if n == |rows| {
      assert rows[..n] == rows;
    } else {
      var front := rows[..|rows| - 1];
      JsonSizeGrows(front, n);
      assert front[..n] == rows[..n];
    }
  }

  lemma OutputIsJsonSize(rows: seq<Row>, row: Row)
    ensures OutputAfter(JsonSize(rows), rows, row) == JsonSize(rows + [row])
  {
    assert (rows + [row])[..|rows|] == rows;
  }

  /** The fold, in both directions: `result` is `rows` followed by the rows of `fields`. */
  lemma {:induction false} DecodeOfMeans(fields: seq<Field>, rows: seq<Row>, result: seq<Row>)
    requires JsonSize(rows) <= MAX_BYTES
    ensures DecodeOf(fields, rows, JsonSize(rows)) == Ok(result) <==>
              && rows <= result && RowsMatch(RowFields(fields), result[|rows|..]) && JsonSize(result) <= MAX_BYTES
    decreases |fields|
  {
    hide RowAfter, OutputAfter, JsonSize, IsStat;
    if fields == [] {
      if rows <= result && |result| == |rows| {
        assert result == rows;
      }
    } else if fields[0].number != 1 {
      DecodeOfMeans(fields[1..], rows, result);
    } else {
      DecodeRowMeans(fields, rows, result);
    }
  }

  lemma {:induction false} DecodeRowMeans(fields: seq<Field>, rows: seq<Row>, result: seq<Row>)
    requires JsonSize(rows) <= MAX_BYTES && fields != [] && fields[0].number == 1
    ensures DecodeOf(fields, rows, JsonSize(rows)) == Ok(result) <==>
              && rows <= result && RowsMatch(RowFields(fields), result[|rows|..]) && JsonSize(result) <= MAX_BYTES
    decreases |fields|, 0
  {
    hide OutputAfter, JsonSize, IsStat, Stat;
    var f, r := fields[0], RowAfter(fields[0], rows, JsonSize(rows));
    var tail := RowFields(fields[1..]);
    assert RowFields(fields) == [f] + tail;
    if r.Ok? {
      var row := r.value;
      StatExact(f.payload.bytes, row);
      OutputIsJsonSize(rows, row);
      DecodeOfMeans(fields[1..], rows + [row], result);
      MatchesOneMore(f, tail, rows, row, result);
    } else if rows <= result && RowsMatch(RowFields(fields), result[|rows|..]) && JsonSize(result) <= MAX_BYTES {
      var row := result[|rows|];
      assert result[..|rows| + 1] == rows + [row];
      assert result[|rows|..][0] == row && ([f] + tail)[0] == f;
      StatExact(f.payload.bytes, row);
      OutputIsJsonSize(rows, row);
      JsonSizeGrows(result, |rows| + 1);
    }
  }

  lemma MatchesOneMore(f: Field, tail: seq<Field>, rows: seq<Row>, row: Row, result: seq<Row>)
    requires f.payload.Bytes? && Stat(f.payload.bytes) == Ok(row)
    ensures (rows + [row] <= result && RowsMatch(tail, result[|rows| + 1..]))
            <==> (rows <= result && RowsMatch([f] + tail, result[|rows|..]))
  {
    hide IsStat, Stat;
    if rows <= result && |result| > |rows| {
      var rest := result[|rows|..];
      assert rest[1..] == result[|rows| + 1..];
      StatExact(f.payload.bytes, rest[0]);
      if rest[0] == row {
        assert rows + [row] <= result;
        if RowsMatch(tail, rest[1..]) {
          forall i | 0 <= i < |[f] + tail| ensures ([f] + tail)[i].payload.Bytes?
              && IsStat(([f] + tail)[i].payload.bytes, rest[i]) {
            if i > 0 {
              assert ([f] + tail)[i] == tail[i - 1] && rest[i] == rest[1..][i - 1];
            }
          }
        }
        if RowsMatch([f] + tail, rest) {
          forall i | 0 <= i < |tail| ensures tail[i].payload.Bytes? && IsStat(tail[i].payload.bytes, rest[1..][i]) {
            assert ([f] + tail)[i + 1] == tail[i] && rest[i + 1] == rest[1..][i];
          }
        }
      } else {
        assert ([f] + tail)[0] == f;
      }
    }
  }

  /** A response decodes to `rows` exactly when it is an encoding of them within the size
      limits: fields in any order, unknown fields anywhere, any varint form. */
  lemma DecodeExact(data: seq<Byte>, rows: seq<Row>)
    ensures Decode(data) == Ok(rows) <==> |data| <= MAX_BYTES && IsResponse(data, rows) && JsonSize(rows) <= MAX_BYTES
  {
    hide Encodes, DecodeOf, DecodeFrom, RowFields, RowsMatch;
    assert JsonSize([]) == EMPTY_OUTPUT;
    assert rows[0..] == rows;
    if |data| <= MAX_BYTES {
      if Decode(data) == Ok(rows) {
        var fields := DecodeIsEncoded(data, [], EMPTY_OUTPUT);
        DecodeReads(data, fields, [], EMPTY_OUTPUT);
        DecodeOfMeans(fields, [], rows);
      }
      if IsResponse(data, rows) && JsonSize(rows) <= MAX_BYTES {
        var fields :| Encodes(data, fields) && RowsMatch(RowFields(fields), rows);
        DecodeReads(data, fields, [], EMPTY_OUTPUT);
        DecodeOfMeans(fields, [], rows);
      }
    }
  }

  // ------------------------------------------------------------------ an encoder

  /** The shortest encoding of a number. */
  function Minimal(n: nat): seq<Byte> {
    if n < 128 then [n] else [128 + n % 128] + Minimal(n / 128)
  }

  const NAME_TAG: seq<Byte> := [10]   // field 1, length-delimited
  const VALUE_TAG: seq<Byte> := [16]  // field 2, varint

  function RowDocument(row: Row): seq<Encoded> {
    [Encoded(NAME_TAG, AsBytes(Minimal(|row.name|), row.name))]
    + (if row.value == 0 then [] else [Encoded(VALUE_TAG, AsVarint(Minimal(row.value)))])
  }

  function ResponseDocument(rows: seq<Row>): seq<Encoded> {
    if rows == [] then []
    else
      var bytes := Serialized(RowDocument(rows[0]));
      [Encoded(NAME_TAG, AsBytes(Minimal(|bytes|), bytes))] + ResponseDocument(rows[1..])
  }

  function EncodeResponse(rows: seq<Row>): seq<Byte> {
    Serialized(ResponseDocument(rows))
  }

  ghost predicate ValidRow(row: Row) {
    row.name != [] && Utf8(row.name) && row.value < MAX_COUNTER
  }

  lemma {:induction false} MinimalIsVarint(n: nat, index: nat)
    requires index <= 9 && n < Limit(index)
    ensures IsVarintFrom(Minimal(n), index) && ValueOf(Minimal(n)) == n
    decreases n
  {
    hide IsVarintFrom, ValueOf;
    if n < 128 {
      OneByteVarint(n, index);
    } else {
      LimitStep(index);
      MinimalIsVarint(n / 128, index + 1);
      VarintExtends(128 + n % 128, Minimal(n / 128), index);
    }
  }

  lemma TagsAreVarints()
    ensures IsVarint(NAME_TAG) && ValueOf(NAME_TAG) == 10 && IsVarint(VALUE_TAG) && ValueOf(VALUE_TAG) == 16
  {
    OneByteVarint(10, 0);
    OneByteVarint(16, 0);
  }

  lemma {:induction false} EscapedAtLeast(s: seq<Byte>)
    ensures Escaped(s) >= |s|
  {
    if s != [] {
      EscapedAtLeast(s[1..]);
    }
  }

  lemma RowEncodes(row: Row)
    requires ValidRow(row) && |row.name| <= MAX_BYTES
    ensures IsStat(Serialized(RowDocument(row)), row)
  {
    hide IsVarintFrom;
    LimitOfAll();
    TagsAreVarints();
    MinimalIsVarint(|row.name|, 0);
    MinimalIsVarint(row.value, 0);
    var doc := RowDocument(row);
    assert WellFormed(doc);
    var name, value := Field(1, Bytes(row.name)), Field(2, Number(row.value));
    if row.value == 0 {
      assert doc[1..] == [];
      assert FieldsOf(doc) == [name] && Known([name]) == [name];
    } else {
      assert doc[1..] == [doc[1]] && doc[1..][1..] == [];
      assert FieldsOf(doc[1..]) == [value];
      assert FieldsOf(doc) == [name, value];
      assert [name, value][1..] == [value] && [value][1..] == [];
      assert Known([value]) == [value] && [name] + [value] == [name, value];
      assert Known([name, value]) == [name, value];
    }
    assert Encodes(Serialized(doc), FieldsOf(doc));
  }

  /** A field holding `bytes` in front of a message. */
  lemma RowFieldEncodes(bytes: seq<Byte>, rest: seq<Byte>, fields: seq<Field>)
    requires |bytes| <= MAX_BYTES && Encodes(rest, fields)
    ensures Encodes(NAME_TAG + (Minimal(|bytes|) + bytes) + rest, [Field(1, Bytes(bytes))] + fields)
  {
    hide IsVarintFrom, Encodes;
    LimitOfAll();
    TagsAreVarints();
    MinimalIsVarint(|bytes|, 0);
    FieldParses(Encoded(NAME_TAG, AsBytes(Minimal(|bytes|), bytes)), rest);
    EncodesOneMore(NAME_TAG + (Minimal(|bytes|) + bytes) + rest, fields);
  }

  lemma RowPrepended(bytes: seq<Byte>, row: Row, fields: seq<Field>, rows: seq<Row>)
    requires IsStat(bytes, row) && RowsMatch(RowFields(fields), rows)
    ensures RowsMatch(RowFields([Field(1, Bytes(bytes))] + fields), [row] + rows)
  {
    hide IsStat;
    var f := Field(1, Bytes(bytes));
    assert ([f] + fields)[1..] == fields;
    assert RowFields([f] + fields) == [f] + RowFields(fields);
  }

  lemma {:induction false} ResponseEncodes(rows: seq<Row>)
    requires forall i :: 0 <= i < |rows| ==> ValidRow(rows[i]) && |rows[i].name| <= MAX_BYTES
    requires |EncodeResponse(rows)| <= MAX_BYTES
    ensures IsResponse(EncodeResponse(rows), rows)
    decreases |rows|
  {
    hide IsStat, Encodes, RowsMatch, RowFields, ValidRow, RowDocument, Minimal;
    if rows == [] {
      EncodesNothing();
      NoRowsMatch();
    } else {
      var bytes, rest := Serialized(RowDocument(rows[0])), EncodeResponse(rows[1..]);
      var doc := ResponseDocument(rows);
      assert doc[1..] == ResponseDocument(rows[1..]);
      assert EncodeResponse(rows) == NAME_TAG + (Minimal(|bytes|) + bytes) + rest;
      ResponseEncodes(rows[1..]);
      RowEncodes(rows[0]);
      var fields :| Encodes(rest, fields) && RowsMatch(RowFields(fields), rows[1..]);
      RowFieldEncodes(bytes, rest, fields);
      RowPrepended(bytes, rows[0], fields, rows[1..]);
      assert rows == [rows[0]] + rows[1..];
    }
  }

  lemma NoRowsMatch()
    ensures RowsMatch(RowFields([]), [])
  {
  }

  /** Decoding an encoded list of rows within the limits gives the list back. */
  lemma RoundTrip(rows: seq<Row>)
    requires forall i :: 0 <= i < |rows| ==> ValidRow(rows[i])
    requires |EncodeResponse(rows)| <= MAX_BYTES && JsonSize(rows) <= MAX_BYTES
    ensures Decode(EncodeResponse(rows)) == Ok(rows)
  {
    hide IsResponse, ValidRow, EncodeResponse, JsonSize;
    forall i | 0 <= i < |rows| ensures |rows[i].name| <= MAX_BYTES {
      NameFits(rows, i);
    }
    ResponseEncodes(rows);
    DecodeExact(EncodeResponse(rows), rows);
  }

  lemma NameFits(rows: seq<Row>, i: nat)
    requires i < |rows|
    ensures |rows[i].name| <= JsonSize(rows)
  {
    EscapedAtLeast(rows[i].name);
    JsonSizeGrows(rows, i + 1);
    assert rows[..i + 1][i] == rows[i];
  }
}
