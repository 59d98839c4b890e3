/**
 * Entry tables as the telemetry layouts declare them (`DictStruct` of
 * `(name, decoder)` pairs): the bytes each entry occupies, the offset it gives
 * every named field, and how tables compose zone by zone.
 *
 * Sizes are those of packed primitives (bool 1; int, unsigned int and float 4;
 * double and (unsigned) long long 8).
 */
module Layout {
  import opened Wrappers

  newtype byte = x: int | 0 <= x < 256

  /** The primitive decoders the layout is built from (`struct_bool` ... `struct_unsigned_long_long`). */
  datatype Primitive = Bool | Int | UInt | Float | Double | LongLong | ULongLong

  /** A field's representation: a primitive, raw padding bytes, a fixed-size string, or a fixed-length array. */
  datatype Shape =
    | Basic(primitive: Primitive)
    | Bytes(count: nat)
    | Text(length: nat)
    | Array(element: Shape, count: nat)

  /** One line of an entry table; `name == None` marks padding. */
  datatype Entry = Entry(name: Option<string>, shape: Shape)

  /** A named field of a decoded layout, with the offset of its first byte. */
  datatype Field = Field(name: string, offset: nat, shape: Shape)

  function Slot(name: string, shape: Shape): Entry {
    Entry(Some(name), shape)
  }

  function Pad(count: nat): Entry {
    Entry(None, Bytes(count))
  }

  function PrimitiveSize(p: Primitive): nat {
    match p
    case Bool => 1
    case Int | UInt | Float => 4
    case Double | LongLong | ULongLong => 8
  }

  function ShapeSize(s: Shape): nat {
    match s
    case Basic(p) => PrimitiveSize(p)
    case Bytes(n) => n
    case Text(n) => n
    case Array(e, n) => n * ShapeSize(e)
  }

  /** The number of bytes an entry table occupies. */
  function Span(es: seq<Entry>): nat {
    if es == [] then 0 else ShapeSize(es[0].shape) + Span(es[1..])
  }

  /** The bytes of an entry table that belong to padding entries. */
  function PaddingBytes(es: seq<Entry>): nat {
    if es == [] then 0
    else (if es[0].name.None? then ShapeSize(es[0].shape) else 0) + PaddingBytes(es[1..])
  }

  function FieldBytes(fs: seq<Field>): nat {
    if fs == [] then 0 else ShapeSize(fs[0].shape) + FieldBytes(fs[1..])
  }

  function NamedCount(es: seq<Entry>): nat {
    if es == [] then 0 else (if es[0].name.Some? then 1 else 0) + NamedCount(es[1..])
  }

  /**
   * The fields an entry table decodes into when it starts at byte `base`:
   * one per named entry, in table order; padding advances the offset and
   * produces nothing.
   */
  function Fields(es: seq<Entry>, base: nat): (fs: seq<Field>)
    ensures |fs| == NamedCount(es)
  {
    if es == [] then []
    else
      var rest := Fields(es[1..], base + ShapeSize(es[0].shape));
      match es[0].name
      case None => rest
      case Some(n) => [Field(n, base, es[0].shape)] + rest
  }

  /** The first field called `name`, if the table has one. */
  function FindField(es: seq<Entry>, base: nat, name: string): Option<Field> {
    if es == [] then None
    else if es[0].name == Some(name) then Some(Field(name, base, es[0].shape))
    else FindField(es[1..], base + ShapeSize(es[0].shape), name)
  }

  // ---------------------------------------------------------------------------
  // Tables built from zones.

  lemma {:induction false} SpanAppend(a: seq<Entry>, b: seq<Entry>)
    ensures Span(a + b) == Span(a) + Span(b)
  {
    if a == [] {
      assert a + b == b;
    } else {
      assert (a + b)[1..] == a[1..] + b;
      SpanAppend(a[1..], b);
    }
  }

  /** A lookup in a concatenated table searches the first part, then the second from where the first ends. */
  lemma {:induction false} FindFieldAppend(a: seq<Entry>, b: seq<Entry>, base: nat, name: string)
    ensures FindField(a + b, base, name)
         == if FindField(a, base, name).Some? then FindField(a, base, name)
            else FindField(b, base + Span(a), name)
  {
    if a == [] {
      assert a + b == b;
    } else if a[0].name != Some(name) {
      assert (a + b)[0] == a[0];
      assert (a + b)[1..] == a[1..] + b;
      FindFieldAppend(a[1..], b, base + ShapeSize(a[0].shape), name);
    } else {
      assert (a + b)[0] == a[0];
    }
  }

  /** A padding entry moves every later field by its width and yields no field of its own. */
  lemma PaddingYieldsNoField(n: nat, es: seq<Entry>, base: nat)
    ensures Fields([Pad(n)] + es, base) == Fields(es, base + n)
  {
    assert ([Pad(n)] + es)[1..] == es;
  }

  /** The first of the fields called `name`. */
  function FirstNamed(fs: seq<Field>, name: string): (r: Option<Field>)
    ensures r.Some? ==> r.value in fs && r.value.name == name
    ensures r.None? <==> forall i :: 0 <= i < |fs| ==> fs[i].name != name
  {
    if fs == [] then None
    else if fs[0].name == name then Some(fs[0])
    else FirstNamed(fs[1..], name)
  }

  /** Looking a name up in the table finds the first decoded field of that name. */
  lemma {:induction false} FindFieldDecodes(es: seq<Entry>, base: nat, name: string)
    ensures FindField(es, base, name) == FirstNamed(Fields(es, base), name)
  {
    if es != [] {
      var rest := base + ShapeSize(es[0].shape);
      FindFieldDecodes(es[1..], rest, name);
      match es[0].name
      case None =>
      case Some(n) =>
        var fs := Fields(es[1..], rest);
        assert Fields(es, base) == [Field(n, base, es[0].shape)] + fs;
        assert ([Field(n, base, es[0].shape)] + fs)[1..] == fs;
    }
  }

  /** Decoded fields lie inside the table's bytes. */
  lemma {:induction false} FieldsInsideTable(es: seq<Entry>, base: nat)
    ensures forall i :: 0 <= i < |Fields(es, base)| ==>
              base <= Fields(es, base)[i].offset
              && Fields(es, base)[i].offset + ShapeSize(Fields(es, base)[i].shape) <= base + Span(es)
  {
    if es != [] {
      var rest := base + ShapeSize(es[0].shape);
      var fs := Fields(es[1..], rest);
      FieldsInsideTable(es[1..], rest);
      match es[0].name
      case None =>
      case Some(n) =>
        var f0 := Field(n, base, es[0].shape);
        assert Fields(es, base) == [f0] + fs;
        forall i | 0 <= i < |Fields(es, base)|
          ensures base <= Fields(es, base)[i].offset
          ensures Fields(es, base)[i].offset + ShapeSize(Fields(es, base)[i].shape) <= base + Span(es)
        {
          if i > 0 {
            assert Fields(es, base)[i] == fs[i - 1];
          }
        }
    }
  }

  /** Decoded fields follow table order and never overlap. */
  lemma {:induction false} FieldsDisjoint(es: seq<Entry>, base: nat)
    ensures forall i, j :: 0 <= i < j < |Fields(es, base)| ==>
              Fields(es, base)[i].offset + ShapeSize(Fields(es, base)[i].shape) <= Fields(es, base)[j].offset
  {
    if es != [] {
      var rest := base + ShapeSize(es[0].shape);
      var fs := Fields(es[1..], rest);
      FieldsDisjoint(es[1..], rest);
      FieldsInsideTable(es[1..], rest);
      match es[0].name
      case None =>
      case Some(n) =>
        var f0 := Field(n, base, es[0].shape);
        assert Fields(es, base) == [f0] + fs;
        forall i, j | 0 <= i < j < |Fields(es, base)|
          ensures Fields(es, base)[i].offset + ShapeSize(Fields(es, base)[i].shape) <= Fields(es, base)[j].offset
        {
          assert Fields(es, base)[j] == fs[j - 1];
          if i > 0 {
            assert Fields(es, base)[i] == fs[i - 1];
          }
        }
    }
  }

  /** The decoded fields and the padding together account for every byte of the table. */
  lemma {:induction false} FieldsAndPaddingCoverTable(es: seq<Entry>, base: nat)
    ensures FieldBytes(Fields(es, base)) + PaddingBytes(es) == Span(es)
  {
    if es != [] {
      var rest := base + ShapeSize(es[0].shape);
      var fs := Fields(es[1..], rest);
      FieldsAndPaddingCoverTable(es[1..], rest);
      match es[0].name
      case None =>
      case Some(n) =>
        var f0 := Field(n, base, es[0].shape);
        assert Fields(es, base) == [f0] + fs;
        assert ([f0] + fs)[1..] == fs;
    }
  }

  // ---------------------------------------------------------------------------
  // Unsigned 32-bit values, little-endian (the native order of the game's platform).

  const U32Limit: nat := 0x1_0000_0000

  function DecodeU32(b: seq<byte>): (v: nat)
    requires |b| == 4
    ensures v < U32Limit
  {
    b[0] as nat + 0x100 * b[1] as nat + 0x1_0000 * b[2] as nat + 0x100_0000 * b[3] as nat
  }

  function EncodeU32(v: nat): (b: seq<byte>)
    requires v < U32Limit
    ensures |b| == 4
  {
    [(v % 0x100) as byte, (v / 0x100 % 0x100) as byte, (v / 0x1_0000 % 0x100) as byte, (v / 0x100_0000) as byte]
  }

  lemma DecodeEncodeU32(v: nat)
    requires v < U32Limit
    ensures DecodeU32(EncodeU32(v)) == v
  {
  }

  lemma EncodeDecodeU32(b: seq<byte>)
    requires |b| == 4
    ensures EncodeU32(DecodeU32(b)) == b
  {
    var b0, b1, b2, b3 := b[0] as nat, b[1] as nat, b[2] as nat, b[3] as nat;
    var v := DecodeU32(b);
    assert v == b0 + 0x100 * (b1 + 0x100 * (b2 + 0x100 * b3));
    assert v % 0x100 == b0 && v / 0x100 == b1 + 0x100 * (b2 + 0x100 * b3);
    assert v / 0x1_0000 == b2 + 0x100 * b3;
    assert v / 0x100_0000 == b3;
    assert EncodeU32(v) == [b[0], b[1], b[2], b[3]];
  }

  /** Decoding a concatenated table decodes the second part from where the first ends. */
  lemma {:induction false} FieldsAppend(a: seq<Entry>, b: seq<Entry>, base: nat)
    ensures Fields(a + b, base) == Fields(a, base) + Fields(b, base + Span(a))
  {
    if a == [] {
      assert a + b == b;
    } else {
      assert (a + b)[0] == a[0];
      assert (a + b)[1..] == a[1..] + b;
      FieldsAppend(a[1..], b, base + ShapeSize(a[0].shape));
    }
  }

  /** Appending entries keeps every field already decoded where it was. */
  lemma FieldsPrefixStable(a: seq<Entry>, b: seq<Entry>, base: nat, i: nat)
    requires i < |Fields(a, base)|
    ensures i < |Fields(a + b, base)| && Fields(a + b, base)[i] == Fields(a, base)[i]
  {
    FieldsAppend(a, b, base);
  }
}
