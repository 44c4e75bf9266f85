/** The wire encoding of values as JSON trees. */
module Codec {
  import opened Common
  import opened Base64
  import opened NumpyTypes

  const TENSOR_TAG := "__actionstream_tensor__"
  const NDARRAY_TAG := "__actionstream_ndarray__"
  const BYTES_TAG := "__actionstream_bytes__"
  const TUPLE_TAG := "__actionstream_tuple__"

  datatype Scalar = None_ | Bool(b: bool) | Int(n: int) | Float(x: real) | Str(s: string)

  /** `BadKeys` is a mapping with a key that is not a string; `Unsupported` any other
      type the encoder does not know. */
  datatype Value =
    | Plain(scalar: Scalar)
    | NumpyScalar(scalar: Scalar)
    | Bytes(data: seq<byte>)
    | Tensor(dtype: string, shape: seq<nat>, data: seq<byte>)
    | NdArray(element: NumpyType, shape: seq<nat>, data: seq<byte>)
    | List(items: seq<Value>)
    | Tuple(items: seq<Value>)
    | Dict(entries: map<string, Value>)
    | BadKeys
    | Unsupported

  datatype Json =
    | JScalar(scalar: Scalar)
    | JList(items: seq<Json>)
    | JObject(entries: map<string, Json>)

  // ---------------------------------------------------------------- dtypes and shapes

  function TorchItemSize(dtype: string): Option<nat> {
    if dtype in {"torch.bool", "torch.uint8", "torch.int8"} then Some(1)
    else if dtype in {"torch.int16", "torch.float16", "torch.bfloat16"} then Some(2)
    else if dtype in {"torch.int32", "torch.float32"} then Some(4)
    else if dtype in {"torch.int64", "torch.float64"} then Some(8)
    else None
  }

  function Product(shape: seq<nat>): nat {
    if shape == [] then 1 else shape[0] * Product(shape[1..])
  }

  predicate Fills(itemSize: Option<nat>, shape: seq<nat>, data: seq<byte>) {
    itemSize.Some? && |data| == Product(shape) * itemSize.value
  }

  /** Torch refuses to read an empty buffer. */
  predicate TensorReads(dtype: string, shape: seq<nat>, data: seq<byte>) {
    data != [] && Fills(TorchItemSize(dtype), shape, data)
  }

  /** Numpy refuses references and elements of no size, but reads an empty buffer. */
  predicate ArrayReads(dtype: NumpyType, shape: seq<nat>, data: seq<byte>) {
    ItemSize(dtype) != Some(0) && Fills(ItemSize(dtype), shape, data)
  }

  // ---------------------------------------------------------------- encoding

  function JString(s: string): Json {
    JScalar(Str(s))
  }

  function EncodeBuffer(tag: string, dtype: string, shape: seq<nat>, data: seq<byte>): Json {
    JObject(map[
      tag := JScalar(Bool(true)),
      "dtype" := JString(dtype),
      "shape" := JList(seq(|shape|, i requires 0 <= i < |shape| => JScalar(Int(shape[i])))),
      "data" := JString(Base64.Encode(data))])
  }

  /** Making an array contiguous gives one without dimensions a dimension. */
  function ArrayShape(shape: seq<nat>): seq<nat> {
    if shape == [] then [1] else shape
  }

  /** None stands for the encoder's `TypeError`. */
  function Encode(v: Value): Option<Json>
    decreases v, 1
  {
    match v
    case Plain(s) => Some(JScalar(s))
    case NumpyScalar(s) => Some(JScalar(s))
    case Bytes(data) => Some(JObject(map[BYTES_TAG := JScalar(Bool(true)), "data" := JString(Base64.Encode(data))]))
    case Tensor(dtype, shape, data) => Some(EncodeBuffer(TENSOR_TAG, dtype, shape, data))
    case NdArray(dtype, shape, data) => Some(EncodeBuffer(NDARRAY_TAG, Name(dtype), ArrayShape(shape), data))
    case List(items) =>
      var encoded := EncodeItems(items);
      if encoded.None? then None else Some(JList(encoded.value))
    case Tuple(items) =>
      var encoded := EncodeItems(items);
      if encoded.None? then None else Some(JObject(map[TUPLE_TAG := JList(encoded.value)]))
    case Dict(entries) =>
      var encoded := EncodeEntries(v);
      if encoded.None? then None else Some(JObject(encoded.value))
    case BadKeys => None
    case Unsupported => None
  }

  function EncodeItems(items: seq<Value>): Option<seq<Json>>
    decreases items, 1
  {
    if exists i :: 0 <= i < |items| && Encode(items[i]).None? then None
    else Some(seq(|items|, i requires 0 <= i < |items| => Encode(items[i]).value))
  }

  function EncodeEntries(v: Value): Option<map<string, Json>>
    requires v.Dict?
    decreases v, 0
  {
    if exists k :: k in v.entries && Encode(v.entries[k]).None? then None
    else Some(map k | k in v.entries :: Encode(v.entries[k]).value)
  }

  // ---------------------------------------------------------------- decoding

  predicate Tagged(entries: map<string, Json>, tag: string) {
    tag in entries && entries[tag] == JScalar(Bool(true))
  }

  function Text(entries: map<string, Json>, key: string): Option<string> {
    if key in entries && entries[key].JScalar? && entries[key].scalar.Str? then Some(entries[key].scalar.s) else None
  }

  function Dimensions(items: seq<Json>): Option<seq<nat>> {
    if items == [] then Some([])
    else
      var rest := Dimensions(items[1..]);
      if rest.Some? && items[0].JScalar? && items[0].scalar.Int? && items[0].scalar.n >= 0
      then Some([items[0].scalar.n] + rest.value)
      else None
  }

  function Shape(entries: map<string, Json>): Option<seq<nat>> {
    if "shape" in entries && entries["shape"].JList? then Dimensions(entries["shape"].items) else None
  }

  function Data(entries: map<string, Json>): Option<seq<byte>> {
    var text := Text(entries, "data");
    if text.Some? then Base64.Decode(text.value) else None
  }

  /** A tagged buffer; None when a part is missing, malformed or does not fit. */
  function DecodeBuffer(entries: map<string, Json>, torch: bool): Option<Value> {
    var dtype, shape, data := Text(entries, "dtype"), Shape(entries), Data(entries);
    if dtype.None? || shape.None? || data.None? then None
    else if torch then
      if TensorReads(dtype.value, shape.value, data.value) then Some(Tensor(dtype.value, shape.value, data.value)) else None
    else
      var found := ByName(dtype.value);
      if found.Some? && ArrayReads(found.value, shape.value, data.value)
      then Some(NdArray(found.value, shape.value, data.value))
      else None
  }

  /** None stands for the decoder's errors. */
  function Decode(j: Json): Option<Value>
    decreases j, 1
  {
    match j
    case JScalar(s) => Some(Plain(s))
    case JList(items) =>
      var decoded := DecodeItems(items);
      if decoded.None? then None else Some(List(decoded.value))
    case JObject(entries) =>
      if Tagged(entries, TENSOR_TAG) then DecodeBuffer(entries, true)
      else if Tagged(entries, NDARRAY_TAG) then DecodeBuffer(entries, false)
      else if Tagged(entries, BYTES_TAG) then
        var data := Data(entries);
        if data.Some? then Some(Bytes(data.value)) else None
      else if TUPLE_TAG in entries then
        DecodeTuple(entries[TUPLE_TAG])
      else
        var decoded := DecodeEntries(j);
        if decoded.None? then None else Some(Dict(decoded.value))
  }

  function DecodeItems(items: seq<Json>): Option<seq<Value>>
    decreases items, 1
  {
    if exists i :: 0 <= i < |items| && Decode(items[i]).None? then None
    else Some(seq(|items|, i requires 0 <= i < |items| => Decode(items[i]).value))
  }

  function DecodeEntries(j: Json): Option<map<string, Value>>
    requires j.JObject?
    decreases j, 0
  {
    if exists k :: k in j.entries && Decode(j.entries[k]).None? then None
    else Some(map k | k in j.entries :: Decode(j.entries[k]).value)
  }

  /** Whatever can be iterated becomes a tuple: the items of a list, the keys of an
      object, the characters of a string. Key order is not kept here, so objects and
      strings yield a tuple of no particular items. */
  function DecodeTuple(j: Json): Option<Value>
    decreases j, 1
  {
    match j
    case JList(items) =>
      var decoded := DecodeItems(items);
      if decoded.None? then None else Some(Tuple(decoded.value))
    case JObject(_) => Some(Tuple([]))
    case JScalar(s) =>
      if s.Str? then Some(Tuple(seq(|s.s|, i requires 0 <= i < |s.s| => Plain(Str([s.s[i]]))))) else None
  }

  // ---------------------------------------------------------------- the round trip

  /** The encoding of this value is the JSON `true` that marks a tag. */
  predicate MarksTag(v: Value) {
    (v.Plain? || v.NumpyScalar?) && v.scalar == Bool(true)
  }

  /** A mapping the decoder takes for something else: a reserved tag mapped to true, or
      the tuple tag mapped to anything. */
  predicate UsesReserved(entries: map<string, Value>) {
    || (TENSOR_TAG in entries && MarksTag(entries[TENSOR_TAG]))
    || (NDARRAY_TAG in entries && MarksTag(entries[NDARRAY_TAG]))
    || (BYTES_TAG in entries && MarksTag(entries[BYTES_TAG]))
    || TUPLE_TAG in entries
  }

  /** A buffer of as many elements as the dimensions say. */
  predicate Holds(itemSize: Option<nat>, shape: seq<nat>, data: seq<byte>) {
    itemSize.Some? && itemSize.value > 0 && |data| == Product(shape) * itemSize.value
  }

  /** An array the wire can carry: with a dimension, and of a type that is neither
      structured nor of references nor of no size. */
  predicate ArrayCarried(dtype: NumpyType, shape: seq<nat>, data: seq<byte>) {
    shape != [] && !dtype.Structured? && !dtype.Objects? && Holds(ItemSize(dtype), shape, data)
  }

  /** A value the wire can carry: no mapping inside uses a reserved key, no numpy scalar,
      tensors of a supported type with at least one element, and arrays as above. */
  predicate Carried(v: Value) {
    match v
    case Plain(_) => true
    case NumpyScalar(_) => false
    case Bytes(_) => true
    case Tensor(dtype, shape, data) => data != [] && Holds(TorchItemSize(dtype), shape, data)
    case NdArray(dtype, shape, data) => ArrayCarried(dtype, shape, data)
    case List(items) => forall i | 0 <= i < |items| :: Carried(items[i])
    case Tuple(items) => forall i | 0 <= i < |items| :: Carried(items[i])
    case Dict(entries) => !UsesReserved(entries) && forall k | k in entries :: Carried(entries[k])
    case BadKeys => false
    case Unsupported => false
  }

  predicate RoundTrips(v: Value) {
    Encode(v).Some? && Decode(Encode(v).value) == Some(v)
  }

  lemma {:induction false} DimensionsInvert(shape: seq<nat>)
    ensures Dimensions(seq(|shape|, i requires 0 <= i < |shape| => JScalar(Int(shape[i])))) == Some(shape)
  {
    var items := seq(|shape|, i requires 0 <= i < |shape| => JScalar(Int(shape[i])));
    if shape != [] {
      DimensionsInvert(shape[1..]);
      assert shape == [shape[0]] + shape[1..];
      assert items[0] == JScalar(Int(shape[0]));
      assert items[1..] == seq(|shape[1..]|, i requires 0 <= i < |shape[1..]| => JScalar(Int(shape[1..][i])));
    }
  }

  /** The parts of an encoded buffer read back as they were written. */
  lemma BufferReadsBack(tag: string, dtype: string, shape: seq<nat>, data: seq<byte>)
    requires tag == TENSOR_TAG || tag == NDARRAY_TAG
    ensures var e := EncodeBuffer(tag, dtype, shape, data).entries;
            && Text(e, "dtype") == Some(dtype) && Shape(e) == Some(shape) && Data(e) == Some(data)
            && (Tagged(e, TENSOR_TAG) <==> tag == TENSOR_TAG) && (Tagged(e, NDARRAY_TAG) <==> tag == NDARRAY_TAG)
  {
    DimensionsInvert(shape);
    DecodeInvertsEncode(data);
  }

  lemma TagsDistinct()
    ensures TENSOR_TAG != NDARRAY_TAG && TENSOR_TAG != BYTES_TAG && TENSOR_TAG != TUPLE_TAG
    ensures NDARRAY_TAG != BYTES_TAG && NDARRAY_TAG != TUPLE_TAG && BYTES_TAG != TUPLE_TAG
  {
    assert |TENSOR_TAG| == 23 && |NDARRAY_TAG| == 24 && |BYTES_TAG| == 22 && |TUPLE_TAG| == 22;
    assert BYTES_TAG[15] == 'b' && TUPLE_TAG[15] == 't';
  }

  lemma TensorRoundTrips(dtype: string, shape: seq<nat>, data: seq<byte>)
    ensures RoundTrips(Tensor(dtype, shape, data)) <==> Carried(Tensor(dtype, shape, data))
  {
    BufferReadsBack(TENSOR_TAG, dtype, shape, data);
  }

  lemma NdArrayRoundTrips(dtype: NumpyType, shape: seq<nat>, data: seq<byte>)
    ensures RoundTrips(NdArray(dtype, shape, data)) <==> Carried(NdArray(dtype, shape, data))
  {
    NameReadsBack(dtype);
    BufferReadsBack(NDARRAY_TAG, Name(dtype), ArrayShape(shape), data);
  }

  lemma BytesRoundTrip(data: seq<byte>)
    ensures RoundTrips(Bytes(data))
  {
    TagsDistinct();
    DecodeInvertsEncode(data);
    var e := Encode(Bytes(data)).value.entries;
    assert Data(e) == Some(data);
  }

  lemma ItemsRoundTrip(items: seq<Value>)
    requires forall i | 0 <= i < |items| :: RoundTrips(items[i]) <==> Carried(items[i])
    ensures EncodeItems(items).Some? && DecodeItems(EncodeItems(items).value) == Some(items) <==>
              forall i | 0 <= i < |items| :: Carried(items[i])
  {
    if EncodeItems(items).Some? {
      var encoded := EncodeItems(items).value;
      assert forall i | 0 <= i < |items| :: encoded[i] == Encode(items[i]).value;
      if DecodeItems(encoded) == Some(items) {
        forall i | 0 <= i < |items| ensures RoundTrips(items[i]) {
          assert Decode(encoded[i]).Some? && DecodeItems(encoded).value[i] == Decode(encoded[i]).value;
        }
      }
      if forall i | 0 <= i < |items| :: RoundTrips(items[i]) {
        assert DecodeItems(encoded).Some? && DecodeItems(encoded).value == items;
      }
    }
  }

  lemma SequencesRoundTrip(v: Value)
    requires v.List? || v.Tuple?
    requires EncodeItems(v.items).Some? && DecodeItems(EncodeItems(v.items).value) == Some(v.items) <==>
              forall i | 0 <= i < |v.items| :: Carried(v.items[i])
    ensures RoundTrips(v) <==> Carried(v)
  {
    TagsDistinct();
    if EncodeItems(v.items).Some? {
      var list := JList(EncodeItems(v.items).value);
      if v.Tuple? {
        assert Encode(v) == Some(JObject(map[TUPLE_TAG := list]));
        assert Decode(JObject(map[TUPLE_TAG := list])) == DecodeTuple(list);
      } else {
        assert Encode(v) == Some(list);
      }
    }
  }

  lemma EntriesRoundTrip(entries: map<string, Value>)
    requires forall k | k in entries :: RoundTrips(entries[k]) <==> Carried(entries[k])
    ensures EncodeEntries(Dict(entries)).Some?
            && DecodeEntries(JObject(EncodeEntries(Dict(entries)).value)) == Some(entries) <==>
              forall k | k in entries :: Carried(entries[k])
  {
    if EncodeEntries(Dict(entries)).Some? {
      var encoded := EncodeEntries(Dict(entries)).value;
      assert forall k | k in entries :: encoded[k] == Encode(entries[k]).value;
      if DecodeEntries(JObject(encoded)) == Some(entries) {
        forall k | k in entries ensures RoundTrips(entries[k]) {
          assert Decode(encoded[k]).Some? && DecodeEntries(JObject(encoded)).value[k] == Decode(encoded[k]).value;
        }
      }
      if forall k | k in entries :: RoundTrips(entries[k]) {
        assert forall k | k in encoded :: Decode(encoded[k]) == Some(entries[k]);
        assert DecodeEntries(JObject(encoded)).Some? && DecodeEntries(JObject(encoded)).value == entries;
      }
    }
  }

  /** What carries a tag is never read back as a mapping. */
  lemma ReservedNeverDict(encoded: map<string, Json>)
    requires Tagged(encoded, TENSOR_TAG) || Tagged(encoded, NDARRAY_TAG) || Tagged(encoded, BYTES_TAG)
             || TUPLE_TAG in encoded
    ensures Decode(JObject(encoded)).Some? ==> !Decode(JObject(encoded)).value.Dict?
  {
  }

  lemma TagsAreReserved(entries: map<string, Value>, encoded: map<string, Json>)
    requires forall k | k in entries :: Encode(entries[k]).Some?
    requires encoded == map k | k in entries :: Encode(entries[k]).value
    ensures UsesReserved(entries) <==>
              || Tagged(encoded, TENSOR_TAG) || Tagged(encoded, NDARRAY_TAG) || Tagged(encoded, BYTES_TAG)
              || TUPLE_TAG in encoded
  {
    assert forall k | k in entries :: encoded[k] == JScalar(Bool(true)) <==> MarksTag(entries[k]);
  }

  lemma DictRoundTrips(entries: map<string, Value>)
    requires EncodeEntries(Dict(entries)).Some?
             && DecodeEntries(JObject(EncodeEntries(Dict(entries)).value)) == Some(entries) <==>
               forall k | k in entries :: Carried(entries[k])
    ensures RoundTrips(Dict(entries)) <==> Carried(Dict(entries))
  {
    if EncodeEntries(Dict(entries)).Some? {
      var encoded := EncodeEntries(Dict(entries)).value;
      assert Encode(Dict(entries)) == Some(JObject(encoded));
      TagsAreReserved(entries, encoded);
      if UsesReserved(entries) {
        ReservedNeverDict(encoded);
      }
    }
  }

  /** Decoding inverts encoding on exactly the values the wire can carry. */
  lemma {:induction false} RoundTripExactlyCarried(v: Value)
    ensures RoundTrips(v) <==> Carried(v)
  {
    match v
    case Plain(_) =>
    case NumpyScalar(_) =>
    case Bytes(data) => BytesRoundTrip(data);
    case Tensor(dtype, shape, data) => TensorRoundTrips(dtype, shape, data);
    case NdArray(dtype, shape, data) => NdArrayRoundTrips(dtype, shape, data);
    case List(items) =>
      forall i | 0 <= i < |items| ensures RoundTrips(items[i]) <==> Carried(items[i]) {
        RoundTripExactlyCarried(items[i]);
      }
      ItemsRoundTrip(items);
      SequencesRoundTrip(v);
    case Tuple(items) =>
      forall i | 0 <= i < |items| ensures RoundTrips(items[i]) <==> Carried(items[i]) {
        RoundTripExactlyCarried(items[i]);
      }
      ItemsRoundTrip(items);
      SequencesRoundTrip(v);
    case Dict(entries) =>
      forall k | k in entries ensures RoundTrips(entries[k]) <==> Carried(entries[k]) {
        RoundTripExactlyCarried(entries[k]);
      }
      EntriesRoundTrip(entries);
      DictRoundTrips(entries);
    case BadKeys =>
    case Unsupported =>
  }

  /** The encoding is not injective: a mapping under the tuple tag is written as the
      tuple itself is. */
  lemma TupleTagCollides(items: seq<Value>)
    ensures Encode(Dict(map[TUPLE_TAG := List(items)])) == Encode(Tuple(items))
  {
    var entries := map[TUPLE_TAG := List(items)];
    assert forall k | k in entries :: Encode(entries[k]) == Encode(List(items));
    if EncodeItems(items).Some? {
      var encoded := EncodeEntries(Dict(entries)).value;
      assert encoded == map[TUPLE_TAG := JList(EncodeItems(items).value)];
    } else {
      assert TUPLE_TAG in entries && Encode(entries[TUPLE_TAG]).None?;
    }
  }

  /** Among values the wire can carry, different ones are written differently. */
  lemma CarriedEncodeInjectively(a: Value, b: Value)
    requires Carried(a) && Carried(b) && Encode(a) == Encode(b)
    ensures a == b
  {
    RoundTripExactlyCarried(a);
    RoundTripExactlyCarried(b);
  }

  // ---------------------------------------------------------------- whatever arrives

  /** A value that can be made: every buffer in it holds what its type and shape say. */
  predicate Made(v: Value) {
    match v
    case Plain(_) => true
    case Bytes(_) => true
    case Tensor(dtype, shape, data) => data != [] && Holds(TorchItemSize(dtype), shape, data)
    case NdArray(dtype, shape, data) => !dtype.Objects? && !dtype.Structured? && Holds(ItemSize(dtype), shape, data)
    case List(items) => forall i | 0 <= i < |items| :: Made(items[i])
    case Tuple(items) => forall i | 0 <= i < |items| :: Made(items[i])
    case Dict(entries) => forall k | k in entries :: Made(entries[k])
    case NumpyScalar(_) => false
    case BadKeys => false
    case Unsupported => false
  }

  lemma BuffersAreMade(entries: map<string, Json>, torch: bool)
    ensures DecodeBuffer(entries, torch).Some? ==> Made(DecodeBuffer(entries, torch).value)
  {
  }

  lemma {:induction false} ItemsAreMade(items: seq<Json>)
    ensures forall i | 0 <= i < |items| :: Decode(items[i]).Some? ==> Made(Decode(items[i]).value)
    decreases items, 0
  {
    forall i | 0 <= i < |items| ensures Decode(items[i]).Some? ==> Made(Decode(items[i]).value) {
      DecodedIsMade(items[i]);
    }
  }

  lemma {:induction false} TuplesAreMade(j: Json)
    ensures DecodeTuple(j).Some? ==> Made(DecodeTuple(j).value)
    decreases j, 1
  {
    match j
    case JList(items) => ItemsAreMade(items);
    case JObject(_) =>
    case JScalar(s) =>
      if s.Str? {
        var items := DecodeTuple(j).value.items;
        assert forall i | 0 <= i < |items| :: items[i] == Plain(Str([s.s[i]])) && Made(items[i]);
      }
  }

  /** Whatever is on the wire, a value that decodes is one that can be made: no buffer of
      another length than its type and shape say gets through. */
  lemma {:induction false} DecodedIsMade(j: Json)
    ensures Decode(j).Some? ==> Made(Decode(j).value)
    decreases j, 1
  {
    match j
    case JScalar(_) =>
    case JList(items) => ItemsAreMade(items);
    case JObject(entries) =>
      BuffersAreMade(entries, true);
      BuffersAreMade(entries, false);
      if TUPLE_TAG in entries {
        TuplesAreMade(entries[TUPLE_TAG]);
      } else {
        forall k | k in entries ensures Decode(entries[k]).Some? ==> Made(Decode(entries[k]).value) {
          DecodedIsMade(entries[k]);
        }
      }
  }

  function Numbers(shape: seq<nat>): seq<Json> {
    seq(|shape|, i requires 0 <= i < |shape| => JScalar(Int(shape[i])))
  }

  lemma {:induction false} NegativeRefused(before: seq<nat>, n: int, after: seq<Json>)
    requires n < 0
    ensures Dimensions(Numbers(before) + [JScalar(Int(n))] + after).None?
  {
    if before != [] {
      NegativeRefused(before[1..], n, after);
      assert (Numbers(before) + [JScalar(Int(n))] + after)[1..] == Numbers(before[1..]) + [JScalar(Int(n))] + after;
    }
  }

  /** A text under the tuple tag decodes to the tuple of its characters, an object to a tuple
      as well, and a dimension below zero is refused. */
  lemma OdditiesDecode(s: string, entries: map<string, Json>, before: seq<nat>, n: int, after: seq<Json>)
    requires n < 0
    ensures var v := Decode(JObject(map[TUPLE_TAG := JString(s)]));
            && v.Some? && v.value.Tuple? && |v.value.items| == |s|
            && forall i | 0 <= i < |s| :: v.value.items[i] == Plain(Str([s[i]]))
    ensures var v := Decode(JObject(map[TUPLE_TAG := JObject(entries)])); v.Some? && v.value.Tuple?
    ensures Dimensions(Numbers(before) + [JScalar(Int(n))] + after).None?
  {
    TagsDistinct();
    NegativeRefused(before, n, after);
  }
}
