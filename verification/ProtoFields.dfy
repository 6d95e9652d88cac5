/** The hand-written protobuf encoding of string fields, against the wire format it has to match. */
module ProtoFields {
  import opened Basics

  const U64 := 0x1_0000_0000_0000_0000

  // ---------------------------------------------------------------- the encoder

  function Varint(v: nat): (s: seq<byte>)
    ensures |s| > 0
  {
    if v < 0x80 then [v as byte] else [(v % 0x80 + 0x80) as byte] + Varint(v / 0x80)
  }

  method AppendVarint(buf: seq<byte>, v: nat) returns (r: seq<byte>)
    ensures r == buf + Varint(v)
  {
    r := buf;
    var w := v;
    while w >= 0x80
      invariant r + Varint(w) == buf + Varint(v)
    {
      assert (r + [(w % 0x80 + 0x80) as byte]) + Varint(w / 0x80) == r + Varint(w);
      r := r + [(w % 0x80 + 0x80) as byte];
      w := w / 0x80;
    }
    r := r + [w as byte];
  }

  datatype Field = Field(number: nat, value: seq<byte>)

  const LENGTH_DELIMITED := 2

  function EncodeField(f: Field): seq<byte> {
    if f.value == [] then [] else Varint(f.number * 8 + LENGTH_DELIMITED) + Varint(|f.value|) + f.value
  }

  function Encode(fields: seq<Field>): seq<byte> {
    if fields == [] then [] else EncodeField(fields[0]) + Encode(fields[1..])
  }

  method AppendField(buf: seq<byte>, f: Field) returns (r: seq<byte>)
    ensures r == buf + EncodeField(f)
  {
    if f.value == [] { return buf; }
    r := AppendVarint(buf, f.number * 8 + LENGTH_DELIMITED);
    r := AppendVarint(r, |f.value|);
    r := r + f.value;
  }

  method ForkAccount(fields: seq<Field>) returns (value: seq<byte>)
    ensures value == Encode(fields)
  {
    assert fields[0..] == fields && fields[|fields|..] == [] && Encode([]) == [];
    hide Encode, EncodeField;
    value := [];
    for i := 0 to |fields|
      invariant value + Encode(fields[i..]) == Encode(fields)
    {
      EncodeStep(value, fields, i);
      value := AppendField(value, fields[i]);
    }
  }

  lemma EncodeStep(value: seq<byte>, fields: seq<Field>, i: nat)
    requires i < |fields|
    ensures (value + EncodeField(fields[i])) + Encode(fields[i + 1..]) == value + Encode(fields[i..])
  {
    assert fields[i..][1..] == fields[i + 1..] && fields[i..][0] == fields[i];
    var a, b := EncodeField(fields[i]), Encode(fields[i + 1..]);
    assert Encode(fields[i..]) == a + b;
    hide Encode, EncodeField;
    Assoc(value, a, b);
  }

  // ---------------------------------------------------------------- the wire format, read

  datatype Read = Read(value: nat, rest: seq<byte>)

  // A varint has at most ten bytes and stays below 2^64.
  function ReadVarint(s: seq<byte>, room: nat): Option<Read> {
    if s == [] || room == 0 then None
    else if s[0] < 0x80 then Some(Read(s[0] as nat, s[1..]))
    else
      match ReadVarint(s[1..], room - 1)
      case None => None
      case Some(r) => Some(Read((s[0] as nat - 0x80) + 0x80 * r.value, r.rest))
  }

  function DecodeVarint(s: seq<byte>): Option<Read> {
    match ReadVarint(s, 10)
    case None => None
    case Some(r) => if r.value < U64 then Some(r) else None
  }

  // A record of the wire format: a tag whose lower three bits give the wire type, of which 2 is a length and as many
  // bytes, the only one a string field may have.
  function Decode(s: seq<byte>): Option<seq<Field>>
    decreases |s|
  {
    if s == [] then Some([])
    else
      match DecodeVarint(s)
      case None => None
      case Some(tag) =>
        if tag.value % 8 != 2 then None
        else
          match DecodeVarint(tag.rest)
          case None => None
          case Some(len) =>
            ReadShorter(s, 10);
            ReadShorter(tag.rest, 10);
            if len.value > |len.rest| then None
            else
              match Decode(len.rest[len.value..])
              case None => None
              case Some(more) => Some([Field(tag.value / 8, len.rest[..len.value])] + more)
  }

  lemma {:induction false} ReadShorter(s: seq<byte>, room: nat)
    ensures ReadVarint(s, room).Some? ==> |ReadVarint(s, room).value.rest| < |s|
  {
    if s != [] && room > 0 && s[0] >= 0x80 { ReadShorter(s[1..], room - 1); }
  }

  // ---------------------------------------------------------------- one undoes the other

  function Pow(n: nat): nat {
    if n == 0 then 1 else 0x80 * Pow(n - 1)
  }

  lemma ReadContinued(head: byte, rest: seq<byte>, room: nat, v: nat, tail: seq<byte>)
    requires head >= 0x80 && room > 0 && ReadVarint(rest, room - 1) == Some(Read(v, tail))
    ensures ReadVarint([head] + rest, room) == Some(Read((head as nat - 0x80) + 0x80 * v, tail))
  {
    assert ([head] + rest)[1..] == rest;
  }

  lemma {:induction false} ReadWritten(v: nat, room: nat, tail: seq<byte>)
    requires v < Pow(room) && room > 0
    ensures ReadVarint(Varint(v) + tail, room) == Some(Read(v, tail))
    decreases v
  {
    if v < 0x80 {
      assert (Varint(v) + tail)[1..] == tail;
    } else {
      assert room > 1 by { assert Pow(1) == 0x80; }
      ReadWritten(v / 0x80, room - 1, tail);
      var head, rest := (v % 0x80 + 0x80) as byte, Varint(v / 0x80);
      assert Varint(v) == [head] + rest;
      hide Varint, ReadVarint, Pow;
      Assoc([head], rest, tail);
      ReadContinued(head, rest + tail, room, v / 0x80, tail);
    }
  }

  lemma TenBytes()
    ensures U64 <= Pow(10)
  {
    assert Pow(1) == 0x80;
    assert Pow(2) == 0x4000;
    assert Pow(3) == 0x20_0000;
    assert Pow(4) == 0x1000_0000;
    assert Pow(5) == 0x8_0000_0000;
    assert Pow(6) == 0x400_0000_0000;
    assert Pow(7) == 0x2_0000_0000_0000;
    assert Pow(8) == 0x100_0000_0000_0000;
    assert Pow(9) == 0x8000_0000_0000_0000;
  }

  lemma VarintRoundTrip(v: nat, tail: seq<byte>)
    requires v < U64
    ensures DecodeVarint(Varint(v) + tail) == Some(Read(v, tail))
  {
    TenBytes();
    ReadWritten(v, 10, tail);
  }

  // What a reader gets back: the fields that are not empty, in their order.
  function Present(fields: seq<Field>): seq<Field> {
    if fields == [] then [] else (if fields[0].value == [] then [] else [fields[0]]) + Present(fields[1..])
  }

  predicate Encodable(fields: seq<Field>) {
    forall i | 0 <= i < |fields| :: fields[i].number * 8 + LENGTH_DELIMITED < U64 && |fields[i].value| < U64
  }

  lemma DecodeField(s: seq<byte>, tag: Read, len: Read, tail: seq<byte>, more: seq<Field>)
    requires s != [] && DecodeVarint(s) == Some(tag) && tag.value % 8 == 2
    requires DecodeVarint(tag.rest) == Some(len) && len.value <= |len.rest|
    requires len.rest[len.value..] == tail && Decode(tail) == Some(more)
    ensures Decode(s) == Some([Field(tag.value / 8, len.rest[..len.value])] + more)
  {
    hide DecodeVarint;
  }

  lemma FieldParts(f: Field, tail: seq<byte>)
    requires f.value != []
    ensures EncodeField(f) + tail
      == Varint(f.number * 8 + LENGTH_DELIMITED) + (Varint(|f.value|) + (f.value + tail)) != []
  {
    hide Varint;
  }

  lemma FieldRoundTrip(f: Field, tail: seq<byte>, more: seq<Field>)
    requires f.value != [] && f.number * 8 + LENGTH_DELIMITED < U64 && |f.value| < U64 && Decode(tail) == Some(more)
    ensures Decode(EncodeField(f) + tail) == Some([f] + more)
  {
    hide Varint, DecodeVarint, Decode, EncodeField;
    var tag, len := f.number * 8 + LENGTH_DELIMITED, |f.value|;
    var after := f.value + tail;
    FieldParts(f, tail);
    VarintRoundTrip(tag, Varint(len) + after);
    VarintRoundTrip(len, after);
    assert after[..len] == f.value && after[len..] == tail;
    DecodeField(EncodeField(f) + tail, Read(tag, Varint(len) + after), Read(len, after), tail, more);
  }

  lemma {:induction false} RoundTrip(fields: seq<Field>)
    requires Encodable(fields)
    ensures Decode(Encode(fields)) == Some(Present(fields))
  {
    if fields != [] {
      var f, rest := fields[0], fields[1..];
      RoundTrip(rest);
      if f.value == [] {
        assert Encode(fields) == Encode(rest) && Present(fields) == Present(rest);
      } else {
        FieldRoundTrip(f, Encode(rest), Present(rest));
      }
    }
  }

  // The account as the core sees it: each field by its number, empty when it is not there.
  function Lookup(fields: seq<Field>, number: nat): seq<byte> {
    if fields == [] then []
    else if fields[|fields| - 1].number == number then fields[|fields| - 1].value
    else Lookup(fields[..|fields| - 1], number)
  }

  predicate Increasing(fields: seq<Field>) {
    forall i, j | 0 <= i < j < |fields| :: fields[i].number < fields[j].number
  }

  lemma {:induction false} PresentAppend(fields: seq<Field>, f: Field)
    ensures Present(fields + [f]) == Present(fields) + if f.value == [] then [] else [f]
  {
    var last := if f.value == [] then [] else [f];
    if fields == [] {
      assert [f][1..] == [] && fields + [f] == [f];
      assert Present([f]) == last + [] && Present(fields) == [];
    } else {
      PresentAppend(fields[1..], f);
      var first, rest := if fields[0].value == [] then [] else [fields[0]], Present(fields[1..]);
      assert (fields + [f])[1..] == fields[1..] + [f] && (fields + [f])[0] == fields[0];
      assert Present(fields + [f]) == first + (rest + last) && Present(fields) == first + rest;
      hide Present;
      Assoc(first, rest, last);
    }
  }

  lemma {:induction false} PresentNumbers(fields: seq<Field>, number: nat)
    requires forall i | 0 <= i < |fields| :: fields[i].number != number
    ensures Lookup(Present(fields), number) == []
  {
    if fields != [] {
      var n := |fields| - 1;
      PresentNumbers(fields[..n], number);
      PresentAppend(fields[..n], fields[n]);
      assert fields[..n] + [fields[n]] == fields;
      var p := Present(fields[..n]);
      if fields[n].value != [] { assert (p + [fields[n]])[..|p|] == p; } else { assert p + [] == p; }
    }
  }

  // With distinct numbers every field is found again under its own number, an empty one as absent.
  lemma {:induction false} EveryFieldFound(fields: seq<Field>, i: nat)
    requires Increasing(fields) && i < |fields|
    ensures Lookup(Present(fields), fields[i].number) == fields[i].value
  {
    var n := |fields| - 1;
    PresentAppend(fields[..n], fields[n]);
    assert fields[..n] + [fields[n]] == fields;
    var p := Present(fields[..n]);
    if fields[n].value != [] { assert (p + [fields[n]])[..|p|] == p; } else { assert p + [] == p; }
    if i == n {
      PresentNumbers(fields[..n], fields[n].number);
    } else {
      EveryFieldFound(fields[..n], i);
    }
  }
}
