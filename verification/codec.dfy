/** internal/sparkplug/metric.go, the payload builders of internal/sparkplug/payload.go,
    and the type tables of internal/plc/manager.go: how a reading becomes a Sparkplug B
    metric and back. Timestamps and protobuf framing are left out. */
module Codec {
  import opened Base
  import opened Scalars

  const TWO32 := 0x1_0000_0000
  const TWO64 := 0x1_0000_0000_0000_0000

  /** The oneof value of a metric. */
  datatype Wire =
    | NoValue
    | BooleanValue(b: bool)
    | IntValue(u32: UInt32)
    | LongValue(u64: UInt64)
    | FloatValue(bits32: UInt32)
    | DoubleValue(bits64: UInt64)
    | StringValue(s: string)

  /** A Go value of type any: nil, one of the twelve scalar types, or something else. */
  datatype GoValue = Nil | Known(v: Scalar) | Foreign

  datatype Metric = Metric(name: string, datatype_: Option<UInt32>, value: Wire, isNull: bool)

  const DT_INT8: UInt32 := 1
  const DT_INT16: UInt32 := 2
  const DT_INT32: UInt32 := 3
  const DT_INT64: UInt32 := 4
  const DT_UINT8: UInt32 := 5
  const DT_UINT16: UInt32 := 6
  const DT_UINT32: UInt32 := 7
  const DT_UINT64: UInt32 := 8
  const DT_FLOAT: UInt32 := 9
  const DT_DOUBLE: UInt32 := 10
  const DT_BOOLEAN: UInt32 := 11
  const DT_STRING: UInt32 := 12

  // ----- Go's integer conversions -----

  /** uint32(v) and uint64(v) of a signed value: its two's complement. */
  function ToUInt32(x: int): UInt32 {
    x % TWO32
  }

  function ToUInt64(x: int): UInt64 {
    x % TWO64
  }

  /** int8(v), int16(v), ... of an unsigned value: its low bits, read as two's complement.
      `span` is 2 to the width. */
  function Signed(u: nat, span: nat): int
    requires span > 0
  {
    var r := u % span;
    if 2 * r >= span then r - span else r
  }

  // ----- EncodeMetric and DecodeMetricValue -----

  /** EncodeMetric; a nil or otherwise unsupported value is an error. */
  function Encode(name: string, value: GoValue): Option<Metric> {
    match value
    case Nil => None
    case Foreign => None
    case Known(v) =>
      match v
      case Bool(b) => Some(Metric(name, Some(DT_BOOLEAN), BooleanValue(b), false))
      case I8(x) => Some(Metric(name, Some(DT_INT8), IntValue(ToUInt32(x)), false))
      case I16(x) => Some(Metric(name, Some(DT_INT16), IntValue(ToUInt32(x)), false))
      case I32(x) => Some(Metric(name, Some(DT_INT32), IntValue(ToUInt32(x)), false))
      case I64(x) => Some(Metric(name, Some(DT_INT64), LongValue(ToUInt64(x)), false))
      case U8(x) => Some(Metric(name, Some(DT_UINT8), IntValue(ToUInt32(x)), false))
      case U16(x) => Some(Metric(name, Some(DT_UINT16), IntValue(ToUInt32(x)), false))
      case U32(x) => Some(Metric(name, Some(DT_UINT32), IntValue(x), false))
      case U64(x) => Some(Metric(name, Some(DT_UINT64), LongValue(x), false))
      case F32(bits) => Some(Metric(name, Some(DT_FLOAT), FloatValue(bits), false))
      case F64(bits) => Some(Metric(name, Some(DT_DOUBLE), DoubleValue(bits), false))
      case Str(s) => Some(Metric(name, Some(DT_STRING), StringValue(s), false))
  }

  function Decode(m: Metric): Option<Scalar> {
    match m.datatype_
    case None => None
    case Some(dt) =>
      match m.value
      case NoValue => None
      case BooleanValue(b) => if dt == DT_BOOLEAN then Some(Bool(b)) else None
      case IntValue(u) =>
        if dt == DT_INT8 then Some(I8(Signed(u, 0x100)))
        else if dt == DT_INT16 then Some(I16(Signed(u, 0x1_0000)))
        else if dt == DT_INT32 then Some(I32(Signed(u, TWO32)))
        else if dt == DT_UINT8 then Some(U8(u % 0x100))
        else if dt == DT_UINT16 then Some(U16(u % 0x1_0000))
        else if dt == DT_UINT32 then Some(U32(u))
        else None
      case LongValue(u) =>
        if dt == DT_INT64 then Some(I64(Signed(u, TWO64)))
        else if dt == DT_UINT64 then Some(U64(u))
        else None
      case FloatValue(bits) => if dt == DT_FLOAT then Some(F32(bits)) else None
      case DoubleValue(bits) => if dt == DT_DOUBLE then Some(F64(bits)) else None
      case StringValue(s) => if dt == DT_STRING then Some(Str(s)) else None
  }

  /** The unsigned word of a width for x: x itself, or x plus the span when x is negative. */
  predicate IsWordOf(u: int, x: int, span: int) {
    0 <= u < span && u == if x < 0 then x + span else x
  }

  /** What goes on the wire: the integers of up to 32 bits, sign-extended to a 32-bit word,
      those of 64 bits as a 64-bit word, everything else as it is, each with its own
      datatype, under the given name and not null. */
  lemma EncodePutsWord(name: string, v: Scalar)
    ensures Encode(name, Known(v)).Some?
    ensures var m := Encode(name, Known(v)).value;
            && m.name == name && !m.isNull && m.datatype_.Some?
            && match v
               case Bool(b) => m.value == BooleanValue(b) && m.datatype_.value == 11
               case I8(x) => m.value.IntValue? && IsWordOf(m.value.u32, x, TWO32) && m.datatype_.value == 1
               case I16(x) => m.value.IntValue? && IsWordOf(m.value.u32, x, TWO32) && m.datatype_.value == 2
               case I32(x) => m.value.IntValue? && IsWordOf(m.value.u32, x, TWO32) && m.datatype_.value == 3
               case I64(x) => m.value.LongValue? && IsWordOf(m.value.u64, x, TWO64) && m.datatype_.value == 4
               case U8(x) => m.value == IntValue(x) && m.datatype_.value == 5
               case U16(x) => m.value == IntValue(x) && m.datatype_.value == 6
               case U32(x) => m.value == IntValue(x) && m.datatype_.value == 7
               case U64(x) => m.value == LongValue(x) && m.datatype_.value == 8
               case F32(bits) => m.value == FloatValue(bits) && m.datatype_.value == 9
               case F64(bits) => m.value == DoubleValue(bits) && m.datatype_.value == 10
               case Str(s) => m.value == StringValue(s) && m.datatype_.value == 12
  {
    match v
    case I8(x) => WordIsUnique(x, TWO32);
    case I16(x) => WordIsUnique(x, TWO32);
    case I32(x) => WordIsUnique(x, TWO32);
    case I64(x) => WordIsUnique(x, TWO64);
    case _ =>
  }

  lemma WordIsUnique(x: int, span: int)
    requires span > 0 && -span <= x < span
    ensures IsWordOf(x % span, x, span)
  {
    if x < 0 {
      assert x + span == span * 0 + (x + span);
      assert (x + span) % span == x % span;
    }
  }

  /** A reader of the whole word, whatever the datatype's width, gets the integer back. */
  lemma WholeWordIsValue(name: string, x: Int32)
    ensures -0x80 <= x < 0x80 ==> Signed(Encode(name, Known(I8(x))).value.value.u32, TWO32) == x
    ensures -0x8000 <= x < 0x8000 ==> Signed(Encode(name, Known(I16(x))).value.value.u32, TWO32) == x
    ensures Signed(Encode(name, Known(I32(x))).value.value.u32, TWO32) == x
  {
    Int32Survives(x);
  }

  /** A value of each signed type survives sign extension and truncation. */
  lemma Int8Survives(x: Int8)
    ensures Signed(ToUInt32(x), 0x100) == x
  {
    assert x < 0 ==> ToUInt32(x) == 0x100 * 0xFF_FFFF + (x + 0x100);
  }

  lemma Int16Survives(x: Int16)
    ensures Signed(ToUInt32(x), 0x1_0000) == x
  {
    assert x < 0 ==> ToUInt32(x) == 0x1_0000 * 0xFFFF + (x + 0x1_0000);
  }

  lemma Int32Survives(x: Int32)
    ensures Signed(ToUInt32(x), TWO32) == x
  {
  }

  lemma Int64Survives(x: Int64)
    ensures Signed(ToUInt64(x), TWO64) == x
  {
  }

  /** Decoding what was encoded gives the value back, for every scalar. */
  lemma RoundTrip(name: string, v: Scalar)
    ensures Encode(name, Known(v)).Some? && Decode(Encode(name, Known(v)).value) == Some(v)
  {
    match v
    case I8(x) => Int8Survives(x);
    case I16(x) => Int16Survives(x);
    case I32(x) => Int32Survives(x);
    case I64(x) => Int64Survives(x);
    case _ =>
  }

  /** Two values with the same metric are the same value. */
  lemma EncodeIsInjective(name: string, v: Scalar, w: Scalar)
    ensures Encode(name, Known(v)) == Encode(name, Known(w)) <==> v == w
  {
    RoundTrip(name, v);
    RoundTrip(name, w);
  }

  // ----- decoding keeps the low bits only -----

  /** How many values an IntValue of this datatype can stand for; 0 for the others. */
  function Span(dt: UInt32): nat {
    if dt == DT_INT8 || dt == DT_UINT8 then 0x100
    else if dt == DT_INT16 || dt == DT_UINT16 then 0x1_0000
    else if dt == DT_INT32 || dt == DT_UINT32 then TWO32
    else 0
  }

  /** Two words of an integer datatype decode alike if and only if they agree in the low
      bits of its width. */
  lemma DecodeSeesLowBits(name: string, dt: UInt32, u: UInt32, w: UInt32)
    requires Span(dt) > 0
    ensures Decode(Metric(name, Some(dt), IntValue(u), false)) == Decode(Metric(name, Some(dt), IntValue(w), false))
            <==> u % Span(dt) == w % Span(dt)
  {
    SignedIsInjective(u, w, Span(dt));
  }

  lemma SignedIsInjective(u: nat, w: nat, span: nat)
    requires span > 0
    ensures Signed(u, span) == Signed(w, span) <==> u % span == w % span
  {
  }

  /** Re-encoding what was decoded. */
  function Normalise(m: Metric): Option<Metric> {
    match Decode(m)
    case None => None
    case Some(v) => Encode(m.name, Known(v))
  }

  /** Normalising is idempotent and keeps the decoded value. */
  lemma NormaliseIsIdempotent(m: Metric)
    requires Normalise(m).Some?
    ensures Decode(Normalise(m).value) == Decode(m)
    ensures Normalise(Normalise(m).value) == Normalise(m)
    ensures Normalise(m).value.datatype_ == m.datatype_
  {
    RoundTrip(m.name, Decode(m).value);
    hide Signed, ToUInt32, ToUInt64;
  }

  /** The metrics that normalising leaves alone are exactly the encoded ones. */
  lemma FixedIffEncoded(m: Metric)
    ensures Normalise(m) == Some(m) <==> exists v :: Encode(m.name, Known(v)) == Some(m)
  {
    if Normalise(m) == Some(m) {
      assert Encode(m.name, Known(Decode(m).value)) == Some(m);
    }
    if v :| Encode(m.name, Known(v)) == Some(m) {
      RoundTrip(m.name, v);
    }
  }

  /** The kind of value a datatype goes with. */
  predicate Fits(dt: UInt32, w: Wire) {
    match w
    case NoValue => false
    case BooleanValue(_) => dt == DT_BOOLEAN
    case IntValue(_) => Span(dt) > 0
    case LongValue(_) => dt == DT_INT64 || dt == DT_UINT64
    case FloatValue(_) => dt == DT_FLOAT
    case DoubleValue(_) => dt == DT_DOUBLE
    case StringValue(_) => dt == DT_STRING
  }

  /** Decoding fails exactly on a missing datatype or a value of another kind. */
  lemma DecodeFailsIff(m: Metric)
    ensures Decode(m).Some? <==> m.datatype_.Some? && Fits(m.datatype_.value, m.value)
  {
    hide Signed;
  }

  // ----- the type tables -----

  /** sparkplugTypeToDataType: 0 for a name it does not know. */
  function DataTypeOf(typeName: string): UInt32 {
    if typeName == "Boolean" then DT_BOOLEAN
    else if typeName == "Int8" then DT_INT8
    else if typeName == "Int16" then DT_INT16
    else if typeName == "Int32" then DT_INT32
    else if typeName == "Int64" then DT_INT64
    else if typeName == "UInt8" then DT_UINT8
    else if typeName == "UInt16" then DT_UINT16
    else if typeName == "UInt32" then DT_UINT32
    else if typeName == "UInt64" then DT_UINT64
    else if typeName == "Float" then DT_FLOAT
    else if typeName == "Double" then DT_DOUBLE
    else if typeName == "String" then DT_STRING
    else 0
  }

  /** What allocDest allocates: a cell of one Go type, or an untyped cell. */
  datatype Cell =
    | BoolCell | I8Cell | I16Cell | I32Cell | I64Cell | U8Cell | U16Cell | U32Cell | U64Cell
    | F32Cell | F64Cell | StrCell | AnyCell

  function AllocDest(typeName: string): Cell {
    if typeName == "Boolean" then BoolCell
    else if typeName == "Int8" then I8Cell
    else if typeName == "Int16" then I16Cell
    else if typeName == "Int32" then I32Cell
    else if typeName == "Int64" then I64Cell
    else if typeName == "UInt8" then U8Cell
    else if typeName == "UInt16" then U16Cell
    else if typeName == "UInt32" then U32Cell
    else if typeName == "UInt64" then U64Cell
    else if typeName == "Float" then F32Cell
    else if typeName == "Double" then F64Cell
    else if typeName == "String" then StrCell
    else AnyCell
  }

  /** deref: what a cell yields when a driver has stored v in it. A typed cell holds a
      value of its type; the pointer to an untyped cell is passed on as it is, which no
      encoder accepts. */
  predicate Yields(cell: Cell, v: GoValue) {
    match cell
    case BoolCell => v.Known? && v.v.Bool?
    case I8Cell => v.Known? && v.v.I8?
    case I16Cell => v.Known? && v.v.I16?
    case I32Cell => v.Known? && v.v.I32?
    case I64Cell => v.Known? && v.v.I64?
    case U8Cell => v.Known? && v.v.U8?
    case U16Cell => v.Known? && v.v.U16?
    case U32Cell => v.Known? && v.v.U32?
    case U64Cell => v.Known? && v.v.U64?
    case F32Cell => v.Known? && v.v.F32?
    case F64Cell => v.Known? && v.v.F64?
    case StrCell => v.Known? && v.v.Str?
    case AnyCell => v.Foreign?
  }

  /** A good reading of a configured type is published with the datatype that NBIRTH
      declares for that type; a type name unknown to the tables has no datatype, and its
      readings are never encoded. */
  lemma GoodReadingMatchesDeclaration(name: string, typeName: string, v: GoValue)
    requires Yields(AllocDest(typeName), v)
    ensures Encode(name, v).Some? <==> DataTypeOf(typeName) != 0
    ensures Encode(name, v).Some? ==> Encode(name, v).value.datatype_ == Some(DataTypeOf(typeName))
  {
    hide ToUInt32, ToUInt64;
  }

  // ----- the builders -----

  /** The fields of a tag update that a DDATA payload uses. */
  datatype Update = Update(tag: string, value: GoValue, bad: bool)

  /** The update the scan loop emits for a good or a bad reading. */
  predicate FromScan(u: Update) {
    u.bad <==> u.value.Nil?
  }

  /** One metric of BuildDDATA: a missing value is encoded as float32(0), a bad quality
      marks it as null. */
  function DataMetric(u: Update): Option<Metric> {
    match Encode(u.tag, if u.value.Nil? then Known(F32(0)) else u.value)
    case None => None
    case Some(m) => Some(if u.bad then m.(isNull := true) else m)
  }

  /** BuildDDATA: one metric for each update, in order, or an error exactly when some
      update has a value of a foreign type. */
  method BuildDdata(updates: seq<Update>) returns (metrics: Option<seq<Metric>>)
    ensures metrics.Some? <==> forall i :: 0 <= i < |updates| ==> !updates[i].value.Foreign?
    ensures metrics.Some? ==> |metrics.value| == |updates|
    ensures metrics.Some? ==> forall i :: 0 <= i < |updates| ==> DataMetric(updates[i]) == Some(metrics.value[i])
  {
    hide ToUInt32, ToUInt64;
    var ms := [];
    for i := 0 to |updates|
      invariant |ms| == i
      invariant forall j :: 0 <= j < i ==> !updates[j].value.Foreign? && DataMetric(updates[j]) == Some(ms[j])
    {
      var encoded := Encode(updates[i].tag, if updates[i].value.Nil? then Known(F32(0)) else updates[i].value);
      if encoded.None? {
        return None;
      }
      ms := ms + [if updates[i].bad then encoded.value.(isNull := true) else encoded.value];
    }
    return Some(ms);
  }

  /** What a DDATA metric says of an update of the scan loop: it is null exactly for the
      bad readings, and the others decode to the value that was read. */
  lemma DdataRoundTrip(u: Update)
    requires FromScan(u) && !u.value.Foreign?
    ensures DataMetric(u).Some?
    ensures var m := DataMetric(u).value;
            && m.name == u.tag && (m.isNull <==> u.bad)
            && (if u.bad then Decode(m) == Some(F32(0)) else Decode(m) == Some(u.value.v))
  {
    RoundTrip(u.tag, if u.value.Nil? then F32(0) else u.value.v);
    hide ToUInt32, ToUInt64, Signed;
  }

  /** A bad reading, which has no value, is published as a null Float: with the declared
      datatype if and only if the tag is declared Float. */
  lemma BadReadingMatchesOnlyFloat(u: Update, typeName: string)
    requires u.value.Nil?
    ensures DataMetric(u).Some? && DataMetric(u).value.datatype_ == Some(DT_FLOAT)
    ensures DataMetric(u).value.datatype_ == Some(DataTypeOf(typeName)) <==> typeName == "Float"
  {
    assert DataTypeOf(typeName) == DT_FLOAT <==> typeName == "Float";
  }

  /** The metrics of an NBIRTH: the bdSeq, then a declaration for each tag. */
  function BdSeqMetric(bdSeq: UInt64): Metric {
    Metric("bdSeq", Some(DT_UINT64), LongValue(bdSeq), false)
  }

  function Declarations(tags: seq<TagDef>): seq<Metric> {
    if tags == [] then []
    else
      var t := tags[|tags| - 1];
      Declarations(tags[..|tags| - 1]) + [Metric(t.name, Some(DataTypeOf(t.typ)), NoValue, false)]
  }

  /** BuildNBIRTH, after the tracker has been reset and advanced. */
  method BuildNbirth(tags: seq<TagDef>, bdSeq: UInt64) returns (metrics: seq<Metric>)
    ensures metrics == [BdSeqMetric(bdSeq)] + Declarations(tags)
  {
    hide DataTypeOf;
    metrics := [Metric("bdSeq", Some(DT_UINT64), LongValue(bdSeq), false)];
    for i := 0 to |tags|
      invariant metrics == [BdSeqMetric(bdSeq)] + Declarations(tags[..i])
    {
      assert tags[..i + 1][..i] == tags[..i];
      metrics := metrics + [Metric(tags[i].name, Some(DataTypeOf(tags[i].typ)), NoValue, false)];
    }
    assert tags[..|tags|] == tags;
  }

  /** An NBIRTH gives the bdSeq as a value, and for each tag, in order, its name and the
      datatype of its type without a value. */
  lemma {:induction false} NbirthDeclares(tags: seq<TagDef>, bdSeq: UInt64, i: nat)
    requires i < |tags|
    ensures Decode(BdSeqMetric(bdSeq)) == Some(U64(bdSeq)) && BdSeqMetric(bdSeq).name == "bdSeq"
    ensures !BdSeqMetric(bdSeq).isNull
    ensures |Declarations(tags)| == |tags|
    ensures var m := Declarations(tags)[i];
            m.name == tags[i].name && m.datatype_ == Some(DataTypeOf(tags[i].typ)) && Decode(m).None? && !m.isNull
  {
    var n := |tags| - 1;
    hide DataTypeOf;
    if n > 0 {
      NbirthDeclares(tags[..n], bdSeq, if i < n then i else 0);
    }
  }
}
