/**
  What the codec of graphson.py promises, proved of the model: the dispatch of the
  default session, the structural encoding and decoding of containers, the fallback of
  `toObject`, the shape of each unit's output, and the round trips.
 */
module CodecLaws {
  import opened Wrappers
  import opened Dicts
  import opened Python
  import opened Registry
  import opened GraphSON

  /** A session built without caller maps. */
  predicate IsDefault(io: GraphSONIO)
    reads io
  {
    io.serializers == DefaultSerializers() && io.deserializers == DefaultDeserializers()
  }

  /** The serializer the default dict picks for each kind of value, read off the class hierarchy. */
  function DefaultUnit(v: Value): Option<Unit>
  {
    match v
    case Bool(_) | Int(_) => Some(Int32IO)    // `bool` is a subclass of `int`
    case Long(_) => Some(Int64IO)
    case Float(_) => Some(DoubleIO)
    case Traversal(_) => Some(TraversalSerializer)
    case Bytecode(_, _) => Some(BytecodeSerializer)
    case TraversalStrategy(_, _) => Some(TraversalStrategySerializer)
    case Traverser(_, _) => Some(TraverserIO)
    case Enum(_, _) => Some(EnumSerializer)
    case P(_, _, _) => Some(PSerializer)
    case Binding(_, _) => Some(BindingSerializer)
    case _ => None
  }

  /**
    The first match over the default serializer dict: a long goes to Int64IO although it is
    also an int, a bool to Int32IO, a float to DoubleIO, and containers, strings, None and
    graph elements to no serializer at all.
   */
  lemma DefaultDispatch(v: Value)
    ensures FirstMatch(DefaultSerializers(), v) == DefaultUnit(v)
  {
    if v.Traversal? || v.Bytecode? || v.TraversalStrategy? || v.Traverser? {
      DispatchTraversal(v);
    } else if v.Enum? || v.P? || v.Binding? {
      DispatchArgument(v);
    } else if v.Float? || v.Long? || v.Bool? || v.Int? {
      DispatchNumber(v);
    } else {
      FirstMatchIndexUnique(DefaultSerializers(), v, 10);
    }
  }

  lemma DispatchTraversal(v: Value)
    requires v.Traversal? || v.Bytecode? || v.TraversalStrategy? || v.Traverser?
    ensures FirstMatch(DefaultSerializers(), v) == DefaultUnit(v)
  {
    var d := DefaultSerializers();
    if v.Traversal? { FirstMatchIndexUnique(d, v, 0); }
    else if v.Bytecode? { FirstMatchIndexUnique(d, v, 1); }
    else if v.TraversalStrategy? { FirstMatchIndexUnique(d, v, 2); }
    else { FirstMatchIndexUnique(d, v, 3); }
  }

  lemma DispatchArgument(v: Value)
    requires v.Enum? || v.P? || v.Binding?
    ensures FirstMatch(DefaultSerializers(), v) == DefaultUnit(v)
  {
    var d := DefaultSerializers();
    if v.Enum? { FirstMatchIndexUnique(d, v, 4); }
    else if v.P? { FirstMatchIndexUnique(d, v, 5); }
    else { FirstMatchIndexUnique(d, v, 6); }
  }

  lemma DispatchNumber(v: Value)
    requires v.Float? || v.Long? || v.Bool? || v.Int?
    ensures FirstMatch(DefaultSerializers(), v) == DefaultUnit(v)
  {
    var d := DefaultSerializers();
    if v.Float? { FirstMatchIndexUnique(d, v, 7); }
    else if v.Long? { FirstMatchIndexUnique(d, v, 8); }
    else { FirstMatchIndexUnique(d, v, 9); }
  }

  /**
    A class without a `python_type` (the element deserializers) defines no `dictify`;
    reached through a caller's serializer map, calling it on the class raises TypeError.
   */
  lemma UnboundDictify(io: GraphSONIO, u: Unit, v: Value)
    requires PythonTypeOf(u).None?
    ensures io.Dictify(u, v) == Raise(TypeError)
  {
  }

  /**
    A class without a `graphson_type` (the serializers other than the numbers and TraverserIO)
    defines no `objectify`; reached through a caller's deserializer map, it raises TypeError.
   */
  lemma UnboundObjectify(io: GraphSONIO, u: Unit, d: Value)
    requires GraphsonTypeOf(u).None?
    ensures io.Objectify(u, d) == Raise(TypeError)
  {
  }

  /** Encoding the elements of a list or set `c` from the `i`-th on succeeds exactly when each of them encodes. */
  lemma {:induction false} EncodeItemsDone(io: GraphSONIO, c: Value, i: nat)
    requires c.List? || c.Set?
    requires i <= |c.items|
    ensures io.ToDictItems(c, i).Done? <==> forall j :: i <= j < |c.items| ==> io.ToDict(c.items[j]).Done?
    decreases |c.items| - i
  {
    if i < |c.items| {
      EncodeItemsDone(io, c, i + 1);
    }
  }

  /** Encoding the elements of `c` from the `i`-th on gives one result per element, each its encoding, in order. */
  lemma {:induction false} EncodeItems(io: GraphSONIO, c: Value, i: nat)
    requires c.List? || c.Set?
    requires i <= |c.items|
    ensures io.ToDictItems(c, i).Done? ==>
              |io.ToDictItems(c, i).value| == |c.items| - i &&
              forall j :: i <= j < |c.items| ==> io.ToDict(c.items[j]) == Done(io.ToDictItems(c, i).value[j - i])
    decreases |c.items| - i
  {
    if i < |c.items| {
      EncodeItems(io, c, i + 1);
      var x := io.ToDict(c.items[i]);
      var rest := io.ToDictItems(c, i + 1);
      if x.Done? && rest.Done? {
        var r := [x.value] + rest.value;
        assert io.ToDictItems(c, i) == Done(r);
        forall j | i <= j < |c.items| ensures io.ToDict(c.items[j]) == Done(r[j - i]) {
          if j > i { assert r[j - i] == rest.value[j - (i + 1)]; }
        }
      }
    }
  }

  /** Decoding the elements of a list or set `c` from the `i`-th on succeeds exactly when each of them decodes. */
  lemma {:induction false} DecodeItemsDone(io: GraphSONIO, c: Value, i: nat)
    requires c.List? || c.Set?
    requires i <= |c.items|
    ensures io.ToObjectItems(c, i).Done? <==> forall j :: i <= j < |c.items| ==> io.ToObject(c.items[j]).Done?
    decreases |c.items| - i
  {
    if i < |c.items| {
      DecodeItemsDone(io, c, i + 1);
    }
  }

  /** Decoding the elements of `c` from the `i`-th on gives one result per element, each its decoding, in order. */
  lemma {:induction false} DecodeItems(io: GraphSONIO, c: Value, i: nat)
    requires c.List? || c.Set?
    requires i <= |c.items|
    ensures io.ToObjectItems(c, i).Done? ==>
              |io.ToObjectItems(c, i).value| == |c.items| - i &&
              forall j :: i <= j < |c.items| ==> io.ToObject(c.items[j]) == Done(io.ToObjectItems(c, i).value[j - i])
    decreases |c.items| - i
  {
    if i < |c.items| {
      DecodeItems(io, c, i + 1);
      var x := io.ToObject(c.items[i]);
      var rest := io.ToObjectItems(c, i + 1);
      if x.Done? && rest.Done? {
        var r := [x.value] + rest.value;
        assert io.ToObjectItems(c, i) == Done(r);
        forall j | i <= j < |c.items| ensures io.ToObject(c.items[j]) == Done(r[j - i]) {
          if j > i { assert r[j - i] == rest.value[j - (i + 1)]; }
        }
      }
    }
  }

  /** Entry `j` of `obj.items()` is encodable: its key and value encode and the encoded key hashes. */
  predicate EntryEncodes(io: GraphSONIO, c: Value, j: nat)
    requires c.Dict? && j < |c.entries|
    reads io
  {
    io.ToDict(c.entries[j].0).Done? && io.ToDict(c.entries[j].1).Done? &&
    CheckHashable(io.ToDict(c.entries[j].0).value).Done?
  }

  /** When the dict comprehension of `toDict` succeeds, each entry from the `i`-th on is encodable. */
  lemma {:induction false} EncodedEntryAt(io: GraphSONIO, c: Value, i: nat, acc: seq<(Value, Value)>, j: nat)
    requires c.Dict? && i <= j < |c.entries| && io.ToDictEntries(c, i, acc).Done?
    ensures EntryEncodes(io, c, j)
    decreases j - i
  {
    var k := io.ToDict(c.entries[i].0);
    var x := io.ToDict(c.entries[i].1);
    assert EntryEncodes(io, c, i);
    if j > i {
      assert io.ToDictEntries(c, i, acc) == io.ToDictEntries(c, i + 1, Put(acc, k.value, x.value));
      EncodedEntryAt(io, c, i + 1, Put(acc, k.value, x.value), j);
    }
  }

  /** The dict comprehension of `toDict` succeeds when every entry from the `i`-th on is encodable. */
  lemma EncodeEntriesSucceed(io: GraphSONIO, c: Value, i: nat, acc: seq<(Value, Value)>)
    requires c.Dict? && i <= |c.entries|
    requires forall j :: i <= j < |c.entries| ==> EntryEncodes(io, c, j)
    ensures io.ToDictEntries(c, i, acc).Done?
  {
    var es := c.entries;
    var pairs := seq(|es|, j reads io requires 0 <= j < |es| =>
                             if j >= i && EntryEncodes(io, c, j) then (io.ToDict(es[j].0).value, io.ToDict(es[j].1).value)
                             else es[j]);
    forall j | i <= j < |pairs|
      ensures io.ToDict(es[j].0) == Done(pairs[j].0) && io.ToDict(es[j].1) == Done(pairs[j].1) &&
              CheckHashable(pairs[j].0).Done?
    {
      assert EntryEncodes(io, c, j);
    }
    EncodeEntries(io, c, i, acc, pairs);
  }

  /**
    The dict comprehension of `toDict` succeeds exactly when every key and value encodes and
    every encoded key hashes.
   */
  lemma EncodeEntriesDone(io: GraphSONIO, c: Value, i: nat, acc: seq<(Value, Value)>)
    requires c.Dict? && i <= |c.entries|
    ensures io.ToDictEntries(c, i, acc).Done? <==> forall j :: i <= j < |c.entries| ==> EntryEncodes(io, c, j)
  {
    if io.ToDictEntries(c, i, acc).Done? {
      forall j | i <= j < |c.entries| ensures EntryEncodes(io, c, j) {
        EncodedEntryAt(io, c, i, acc, j);
      }
    } else if forall j :: i <= j < |c.entries| ==> EntryEncodes(io, c, j) {
      EncodeEntriesSucceed(io, c, i, acc);
    }
  }

  /** If the keys and values encode to `pairs`, the result is the dict that inserts them in order. */
  lemma {:induction false} EncodeEntries(io: GraphSONIO, c: Value, i: nat, acc: seq<(Value, Value)>, pairs: seq<(Value, Value)>)
    requires c.Dict? && i <= |c.entries| && |pairs| == |c.entries|
    requires forall k :: i <= k < |pairs| ==>
               io.ToDict(c.entries[k].0) == Done(pairs[k].0) && io.ToDict(c.entries[k].1) == Done(pairs[k].1) &&
               CheckHashable(pairs[k].0).Done?
    ensures io.ToDictEntries(c, i, acc) == Done(Update(acc, pairs[i..]))
    decreases |pairs| - i
  {
    if i < |pairs| {
      var p := pairs[i];
      assert io.ToDictEntries(c, i, acc) == io.ToDictEntries(c, i + 1, Put(acc, p.0, p.1));
      EncodeEntries(io, c, i + 1, Put(acc, p.0, p.1), pairs);
      UpdateFrom(acc, pairs, i);
    }
  }

  /** If the keys and values decode to `pairs`, the result is the dict that inserts them in order. */
  lemma {:induction false} DecodeEntries(io: GraphSONIO, c: Value, i: nat, acc: seq<(Value, Value)>, pairs: seq<(Value, Value)>)
    requires c.Dict? && i <= |c.entries| && |pairs| == |c.entries|
    requires forall k :: i <= k < |pairs| ==>
               io.ToObject(c.entries[k].0) == Done(pairs[k].0) && io.ToObject(c.entries[k].1) == Done(pairs[k].1) &&
               CheckHashable(pairs[k].0).Done?
    ensures io.ToObjectEntries(c, i, acc) == Done(Update(acc, pairs[i..]))
    decreases |pairs| - i
  {
    if i < |pairs| {
      var p := pairs[i];
      assert io.ToObjectEntries(c, i, acc) == io.ToObjectEntries(c, i + 1, Put(acc, p.0, p.1));
      DecodeEntries(io, c, i + 1, Put(acc, p.0, p.1), pairs);
      UpdateFrom(acc, pairs, i);
    }
  }

  /** `toDict` returns a value no serializer matches and that is not a container as it is. */
  lemma EncodePassthrough(io: GraphSONIO, v: Value)
    requires FirstMatch(io.serializers, v).None? && !IsContainer(v)
    ensures io.ToDict(v) == Done(v)
  {
  }

  /** `toObject` returns anything but a dict or a list as it is. */
  lemma DecodePassthrough(io: GraphSONIO, v: Value)
    requires !v.Dict? && !v.List?
    ensures io.ToObject(v) == Done(v)
  {
  }

  /**
    An envelope whose tag names a deserializer decodes with it, unless that deserializer
    raises KeyError.
   */
  lemma DecodeEnvelope(io: GraphSONIO, typeName: string, payload: Value)
    requires "g:" + typeName in io.deserializers && !payload.Null?
    requires io.Objectify(io.deserializers["g:" + typeName], payload) != Raise(KeyError)
    ensures io.ToObject(Envelope(typeName, payload, "g")) == io.Objectify(io.deserializers["g:" + typeName], payload)
  {
    var w := Envelope(typeName, payload, "g");
    EnvelopeSpec(typeName, payload, "g");
    assert "g" + ":" + typeName == "g:" + typeName;
    assert io.Deserialize(w) == io.Objectify(io.deserializers["g:" + typeName], payload);
  }

  /** `toObject(toDict(n)) == n` for an int: it travels as `g:Int32`. */
  lemma Int32RoundTrip(io: GraphSONIO, n: int)
    requires IsDefault(io)
    ensures io.ToDict(Int(n)) == Done(Envelope("Int32", Int(n), "g"))
    ensures io.ToObject(Envelope("Int32", Int(n), "g")) == Done(Int(n))
  {
    DefaultDispatch(Int(n));
    assert "g:" + "Int32" == "g:Int32";
    DecodeEnvelope(io, "Int32", Int(n));
  }

  /** `toObject(toDict(n)) == n` for a long: it travels as `g:Int64`, although a long is also an int. */
  lemma Int64RoundTrip(io: GraphSONIO, n: int)
    requires IsDefault(io)
    ensures io.ToDict(Long(n)) == Done(Envelope("Int64", Long(n), "g"))
    ensures io.ToObject(Envelope("Int64", Long(n), "g")) == Done(Long(n))
  {
    DefaultDispatch(Long(n));
    assert "g:" + "Int64" == "g:Int64";
    DecodeEnvelope(io, "Int64", Long(n));
  }

  /** A float travels as `g:Double`, DoubleIO having replaced FloatIO, and comes back as it was. */
  lemma DoubleRoundTrip(io: GraphSONIO, bits: bv64)
    requires IsDefault(io)
    ensures io.ToDict(Float(bits)) == Done(Envelope("Double", Float(bits), "g"))
    ensures io.ToObject(Envelope("Double", Float(bits), "g")) == Done(Float(bits))
  {
    DefaultDispatch(Float(bits));
    assert "g:" + "Double" == "g:Double";
    DecodeEnvelope(io, "Double", Float(bits));
  }

  /**
    A bool is an instance of `int`, so Int32IO encodes it, and `_NumberIO.dictify` returns it
    without an envelope; `toObject` returns it as it is.
   */
  lemma BoolBypass(io: GraphSONIO, b: bool)
    requires IsDefault(io)
    ensures FirstMatch(io.serializers, Bool(b)) == Some(Int32IO)
    ensures io.ToDict(Bool(b)) == Done(Bool(b))
    ensures io.ToObject(Bool(b)) == Done(Bool(b))
  {
    DefaultDispatch(Bool(b));
  }

  /**
    The values `toObject(toDict(v))` gives back: None, bools, numbers, strings, lists and
    traversers of them, and dicts of them under distinct string keys other than `"@type"`.
   */
  predicate Plain(v: Value)
  {
    match v
    case Null | Bool(_) | Int(_) | Long(_) | Float(_) | Str(_) => true
    case List(xs) => forall i :: 0 <= i < |xs| ==> Plain(xs[i])
    case Dict(es) =>
      DistinctKeys(es) && forall i :: 0 <= i < |es| ==> es[i].0.Str? && es[i].0 != Str("@type") && Plain(es[i].1)
    case Traverser(o, b) => Plain(o) && Plain(b)
    case _ => false
  }

  /** `toObject(toDict(v)) == v` in a default session, for every plain value `v`. */
  lemma {:induction false} RoundTrip(io: GraphSONIO, v: Value)
    requires IsDefault(io) && Plain(v)
    ensures io.ToDict(v).Done? && io.ToObject(io.ToDict(v).value) == Done(v)
    decreases v, 1
  {
    if v.List? {
      RoundTripList(io, v);
    } else if v.Dict? {
      RoundTripDict(io, v);
    } else if v.Traverser? {
      RoundTripTraverser(io, v);
    } else {
      RoundTripScalar(io, v);
    }
  }

  lemma RoundTripScalar(io: GraphSONIO, v: Value)
    requires IsDefault(io) && Plain(v) && !v.List? && !v.Dict? && !v.Traverser?
    ensures io.ToDict(v).Done? && io.ToObject(io.ToDict(v).value) == Done(v)
  {
    if v.Bool? {
      BoolBypass(io, v.b);
    } else if v.Int? {
      Int32RoundTrip(io, v.i);
    } else if v.Long? {
      Int64RoundTrip(io, v.i);
    } else if v.Float? {
      DoubleRoundTrip(io, v.bits);
    } else {
      DefaultDispatch(v);
      EncodePassthrough(io, v);
    }
  }

  lemma {:induction false} RoundTripList(io: GraphSONIO, v: Value)
    requires IsDefault(io) && v.List? && Plain(v)
    ensures io.ToDict(v).Done? && io.ToObject(io.ToDict(v).value) == Done(v)
    decreases v, 0
  {
    forall j | 0 <= j < |v.items|
      ensures io.ToDict(v.items[j]).Done? && io.ToObject(io.ToDict(v.items[j]).value) == Done(v.items[j])
    {
      RoundTrip(io, v.items[j]);
    }
    DefaultDispatch(v);
    ListRoundTrip(io, v);
  }

  /** `toDict` encodes a list no serializer claims element by element, in order. */
  lemma EncodeList(io: GraphSONIO, v: Value)
    requires v.List? && FirstMatch(io.serializers, v).None?
    requires forall j :: 0 <= j < |v.items| ==> io.ToDict(v.items[j]).Done?
    ensures var r := io.ToDict(v);
      r.Done? && r.value.List? && |r.value.items| == |v.items| &&
      forall j :: 0 <= j < |v.items| ==> io.ToDict(v.items[j]) == Done(r.value.items[j])
  {
    EncodeItemsDone(io, v, 0);
    EncodeItems(io, v, 0);
    assert io.ToDict(v) == Done(List(io.ToDictItems(v, 0).value));
  }

  /** `toDict` encodes a set no serializer claims as a list of its encoded elements, in iteration order. */
  lemma EncodeSet(io: GraphSONIO, v: Value)
    requires v.Set? && FirstMatch(io.serializers, v).None?
    requires forall j :: 0 <= j < |v.items| ==> io.ToDict(v.items[j]).Done?
    ensures var r := io.ToDict(v);
      r.Done? && r.value.List? && |r.value.items| == |v.items| &&
      forall j :: 0 <= j < |v.items| ==> io.ToDict(v.items[j]) == Done(r.value.items[j])
  {
    EncodeItemsDone(io, v, 0);
    EncodeItems(io, v, 0);
    assert io.ToDict(v) == Done(List(io.ToDictItems(v, 0).value));
  }

  /** `toObject` decodes a list element by element, in order. */
  lemma DecodeList(io: GraphSONIO, w: Value, xs: seq<Value>)
    requires w.List? && |w.items| == |xs|
    requires forall j :: 0 <= j < |xs| ==> io.ToObject(w.items[j]) == Done(xs[j])
    ensures io.ToObject(w) == Done(List(xs))
  {
    DecodeItemsDone(io, w, 0);
    DecodeItems(io, w, 0);
    assert io.ToObjectItems(w, 0).value == xs;
  }

  /** A list no serializer claims comes back from `toObject(toDict(_))` when each element does. */
  lemma ListRoundTrip(io: GraphSONIO, v: Value)
    requires v.List? && FirstMatch(io.serializers, v).None?
    requires forall j :: 0 <= j < |v.items| ==>
               io.ToDict(v.items[j]).Done? && io.ToObject(io.ToDict(v.items[j]).value) == Done(v.items[j])
    ensures io.ToDict(v).Done? && io.ToObject(io.ToDict(v).value) == Done(v)
  {
    EncodeList(io, v);
    var w := io.ToDict(v).value;
    forall j | 0 <= j < |v.items| ensures io.ToObject(w.items[j]) == Done(v.items[j]) {
      assert io.ToDict(v.items[j]) == Done(w.items[j]);
    }
    DecodeList(io, w, v.items);
  }

  lemma {:induction false} RoundTripTraverser(io: GraphSONIO, v: Value)
    requires IsDefault(io) && v.Traverser? && Plain(v)
    ensures io.ToDict(v).Done? && io.ToObject(io.ToDict(v).value) == Done(v)
    decreases v, 0
  {
    RoundTrip(io, v.obj);
    RoundTrip(io, v.bulk);
    DefaultDispatch(v);
    EncodeTraverser(io, v.obj, v.bulk);
    DecodeTraverser(io, io.ToDict(v.obj).value, io.ToDict(v.bulk).value);
  }

  /** `TraverserIO.dictify`: `{"value": toDict(object), "bulk": toDict(bulk)}` under `g:Traverser`. */
  lemma EncodeTraverser(io: GraphSONIO, obj: Value, bulk: Value)
    requires FirstMatch(io.serializers, Traverser(obj, bulk)) == Some(TraverserIO)
    requires io.ToDict(obj).Done? && io.ToDict(bulk).Done?
    ensures io.ToDict(Traverser(obj, bulk)) ==
              Done(Envelope("Traverser", Dict([(Str("value"), io.ToDict(obj).value), (Str("bulk"), io.ToDict(bulk).value)]), "g"))
  {
    var t := Traverser(obj, bulk);
    assert io.ToDict(t) == io.Dictify(TraverserIO, t) == io.TraverserDictify(t);
    assert Attr(t, "object") == Done(obj) && Attr(t, "bulk") == Done(bulk);
  }

  /** `TraverserIO.objectify`: a `g:Traverser` envelope decodes to the traverser of its decoded fields. */
  lemma DecodeTraverser(io: GraphSONIO, obj: Value, bulk: Value)
    requires "g:Traverser" in io.deserializers && io.deserializers["g:Traverser"] == TraverserIO
    requires io.ToObject(obj).Done? && io.ToObject(bulk).Done?
    ensures io.ToObject(Envelope("Traverser", Dict([(Str("value"), obj), (Str("bulk"), bulk)]), "g")) ==
              Done(Traverser(io.ToObject(obj).value, io.ToObject(bulk).value))
  {
    var payload := Dict([(Str("value"), obj), (Str("bulk"), bulk)]);
    assert "g:" + "Traverser" == "g:Traverser";
    assert io.Objectify(io.deserializers["g:" + "Traverser"], payload) ==
             Done(Traverser(io.ToObject(obj).value, io.ToObject(bulk).value)) by {
      TraverserPayload(io, obj, bulk);
    }
    DecodeEnvelope(io, "Traverser", payload);
  }

  /** `TraverserIO.objectify` of a `{"value": _, "bulk": _}` dict decodes both fields. */
  lemma TraverserPayload(io: GraphSONIO, obj: Value, bulk: Value)
    requires io.ToObject(obj).Done? && io.ToObject(bulk).Done?
    ensures io.Objectify(TraverserIO, Dict([(Str("value"), obj), (Str("bulk"), bulk)])) ==
              Done(Traverser(io.ToObject(obj).value, io.ToObject(bulk).value))
  {
    var payload := Dict([(Str("value"), obj), (Str("bulk"), bulk)]);
    IndexOfUnique(payload.entries, Str("value"), 0);
    IndexOfUnique(payload.entries, Str("bulk"), 1);
    assert io.TraverserObjectify(payload) == Done(Traverser(io.ToObject(obj).value, io.ToObject(bulk).value));
  }

  lemma {:induction false} RoundTripDict(io: GraphSONIO, v: Value)
    requires IsDefault(io) && v.Dict? && Plain(v)
    ensures io.ToDict(v).Done? && io.ToObject(io.ToDict(v).value) == Done(v)
    decreases v, 0
  {
    var es := v.entries;
    forall j | 0 <= j < |es| ensures io.ToDict(es[j].1).Done? && io.ToObject(io.ToDict(es[j].1).value) == Done(es[j].1) {
      RoundTrip(io, es[j].1);
    }
    var pairs := seq(|es|, k reads io requires 0 <= k < |es| && io.ToDict(es[k].1).Done? =>
                             (es[k].0, io.ToDict(es[k].1).value));
    EncodeStringKeyed(io, v, pairs);
    DecodeStringKeyed(io, Dict(pairs), es);
  }

  /** A dict with distinct string keys encodes to the dict of the same keys and the encoded values. */
  lemma EncodeStringKeyed(io: GraphSONIO, v: Value, pairs: seq<(Value, Value)>)
    requires IsDefault(io) && v.Dict? && DistinctKeys(v.entries) && |pairs| == |v.entries|
    requires forall k :: 0 <= k < |pairs| ==>
               pairs[k].0 == v.entries[k].0 && pairs[k].0.Str? && io.ToDict(v.entries[k].1) == Done(pairs[k].1)
    ensures io.ToDict(v) == Done(Dict(pairs))
  {
    forall k | 0 <= k < |pairs| ensures io.ToDict(v.entries[k].0) == Done(pairs[k].0) {
      DefaultDispatch(v.entries[k].0);
    }
    DefaultDispatch(v);
    EncodeEntries(io, v, 0, [], pairs);
    assert pairs[0..] == pairs && [] + pairs == pairs;
    UpdateFresh([], pairs);
  }

  /**
    A dict without `"@type"` and with distinct string keys decodes to the dict of the same keys
    and the decoded values.
   */
  lemma DecodeStringKeyed(io: GraphSONIO, w: Value, es: seq<(Value, Value)>)
    requires w.Dict? && DistinctKeys(es) && |es| == |w.entries|
    requires forall k :: 0 <= k < |es| ==>
               w.entries[k].0 == es[k].0 && es[k].0.Str? && es[k].0 != Str("@type") && io.ToObject(w.entries[k].1) == Done(es[k].1)
    ensures io.ToObject(w) == Done(Dict(es))
  {
    assert Str("@type") !in Keys(w.entries);
    assert io.Deserialize(w) == Raise(KeyError);
    DecodeEntries(io, w, 0, [], es);
    assert es[0..] == es && [] + es == es;
    UpdateFresh([], es);
  }
}
