/**
  The GraphSON codec session of graphson.py, `GraphSONIO`, and what each codec class's
  `dictify` and `objectify` do.

  `toDict` encodes a Python object as GraphSON: the first serializer whose type the
  object is an instance of encodes it, lists, sets and dicts are encoded element by
  element, and anything else is returned as it is.  `toObject` decodes: a dict whose
  `"@type"` names a registered deserializer is handed to it with its `"@value"`; a dict
  for which that raises KeyError, for whatever reason, is decoded entry by entry; lists
  are decoded element by element and anything else is returned as it is.
 */
module GraphSON {
  import opened Wrappers
  import opened Dicts
  import opened Python
  import opened Registry

  /** `symbolMap` of `_GraphSONTypeIO`: identifiers that Python reserves, with the `_` suffix. */
  function SymbolMap(): map<string, string>
  {
    map[ "global_" := "global", "as_" := "as", "in_" := "in", "and_" := "and",
         "or_" := "or", "is_" := "is", "not_" := "not", "from_" := "from",
         "set_" := "set", "list_" := "list", "all_" := "all" ]
  }

  /** `unmangleKeyword`: the keyword a mangled symbol stands for, or the symbol itself. */
  function Unmangle(symbol: string): string
  {
    if symbol in SymbolMap() then SymbolMap()[symbol] else symbol
  }

  /** The dict `typedValue(typeName, value, prefix)` returns. */
  function Envelope(typeName: string, value: Value, prefix: string): Value
  {
    Dict([(Str("@type"), Str(prefix + ":" + typeName))] + if value.Null? then [] else [(Str("@value"), value)])
  }

  /**
    `typedValue` gives a dict with no key twice whose `"@type"` is the prefixed type name,
    which has `"@value"` exactly when the value is not None, and which has no other key.
   */
  lemma EnvelopeSpec(typeName: string, value: Value, prefix: string)
    ensures var r := Envelope(typeName, value, prefix);
      r.Dict? && DistinctKeys(r.entries) &&
      Get(r.entries, Str("@type")) == Some(Str(prefix + ":" + typeName)) &&
      Get(r.entries, Str("@value")) == (if value.Null? then None else Some(value)) &&
      Keys(r.entries) == {Str("@type")} + (if value.Null? then {} else {Str("@value")})
  {
    var es := Envelope(typeName, value, prefix).entries;
    IndexOfUnique(es, Str("@type"), 0);
    if value.Null? {
      assert Keys(es) == {Str("@type")};
    } else {
      IndexOfUnique(es, Str("@value"), 1);
      assert Keys(es) == {Str("@type"), Str("@value")};
    }
  }

  /** The position of the first serializer entry whose type `v` is an instance of, or `|sers|`. */
  function FirstMatchIndex(sers: seq<(PyType, Unit)>, v: Value): (i: nat)
    ensures i <= |sers|
  {
    if sers == [] then 0
    else if IsInstance(v, sers[0].0) then 0
    else 1 + FirstMatchIndex(sers[1..], v)
  }

  /** The serializer `toDict`'s loop picks for `v`, if any. */
  function FirstMatch(sers: seq<(PyType, Unit)>, v: Value): Option<Unit>
  {
    var i := FirstMatchIndex(sers, v);
    if i < |sers| then Some(sers[i].1) else None
  }

  /** The first match is an entry `v` is an instance of, and `v` is an instance of none before it. */
  lemma {:induction false} FirstMatchIndexSpec(sers: seq<(PyType, Unit)>, v: Value)
    ensures var i := FirstMatchIndex(sers, v);
      (i < |sers| ==> IsInstance(v, sers[i].0)) &&
      forall j :: 0 <= j < i ==> !IsInstance(v, sers[j].0)
  {
    if sers != [] && !IsInstance(v, sers[0].0) {
      FirstMatchIndexSpec(sers[1..], v);
      var i := FirstMatchIndex(sers[1..], v);
      assert forall j :: 0 < j <= i ==> sers[j] == sers[1..][j - 1];
    }
  }

  /** The first match is determined by the serializers before it. */
  lemma FirstMatchIndexUnique(sers: seq<(PyType, Unit)>, v: Value, i: nat)
    requires i <= |sers|
    requires i < |sers| ==> IsInstance(v, sers[i].0)
    requires forall j :: 0 <= j < i ==> !IsInstance(v, sers[j].0)
    ensures FirstMatchIndex(sers, v) == i
  {
    FirstMatchIndexSpec(sers, v);
  }

  /** `FirstMatch` names the serializer of the first entry `v` is an instance of, and none when there is none. */
  lemma FirstMatchSpec(sers: seq<(PyType, Unit)>, v: Value)
    ensures FirstMatch(sers, v).None? <==> forall i :: 0 <= i < |sers| ==> !IsInstance(v, sers[i].0)
    ensures FirstMatch(sers, v).Some? ==>
              exists i :: 0 <= i < |sers| && IsInstance(v, sers[i].0) && sers[i].1 == FirstMatch(sers, v).value &&
                forall j :: 0 <= j < i ==> !IsInstance(v, sers[j].0)
  {
    FirstMatchIndexSpec(sers, v);
  }

  /** `_NumberIO.dictify`: a bool is returned as it is, anything else wrapped unencoded. */
  function NumberDictify(u: Unit, n: Value): Value
  {
    if n.Bool? then n else Envelope(BaseTypeOf(u), n, "g")
  }

  /** `EnumSerializer.dictify`. */
  function EnumDictify(v: Value): Outcome<Value>
  {
    match v
    case Enum(enumClass, name) => Done(Envelope(Unmangle(enumClass), Str(Unmangle(name)), "g"))
    case Opaque(_) => Unmodelled
    case _ => Raise(AttributeError)    // `enum.name`
  }

  /** Every element of `xs` hashes. */
  predicate AllHashable(xs: seq<Value>)
  {
    forall i :: 0 <= i < |xs| ==> CheckHashable(xs[i]).Done?
  }

  /** The elements of `xs`, hashed one by one as `set(xs)` does. */
  function HashAll(xs: seq<Value>): (r: Outcome<set<Value>>)
    ensures r.Done? ==> r.value == set x | x in xs
    ensures r.Done? <==> AllHashable(xs)
    ensures (forall i :: 0 <= i < |xs| ==> !IsContainer(xs[i])) || r.IsFailure()
  {
    if xs == [] then Done({})
    else
      var x :- CheckHashable(xs[0]);
      var rest :- HashAll(xs[1..]);
      assert (set y | y in xs) == {xs[0]} + set y | y in xs[1..] by {
        assert xs == [xs[0]] + xs[1..];
      }
      Done({x} + rest)
  }

  /** A set of the labels of each item `labels` iterates over, in order. */
  function LabelSets(labels: seq<Value>): (r: Outcome<seq<set<Value>>>)
    ensures r.Done? ==> |r.value| == |labels|
    ensures r.Done? ==> forall k :: 0 <= k < |labels| ==>
              Iterate(labels[k]).Done? && HashAll(Iterate(labels[k]).value) == Done(r.value[k])
    ensures r.Done? <==> forall k :: 0 <= k < |labels| ==>
              Iterate(labels[k]).Done? && AllHashable(Iterate(labels[k]).value)
  {
    if labels == [] then Done([])
    else
      var xs :- Iterate(labels[0]);
      var s :- HashAll(xs);
      var rest :- LabelSets(labels[1..]);
      Done([s] + rest)
  }

  /** The instructions of a Bytecode: its source instructions, or its step instructions. */
  function Instructions(bc: Value, source: bool): seq<Instruction>
    requires bc.Bytecode?
  {
    if source then bc.sourceInstructions else bc.stepInstructions
  }

  /** The `"@value"` dict of an encoded Bytecode, from its encoded instruction lists. */
  function BytecodePayload(bc: Value, source: seq<Value>, step: seq<Value>): seq<(Value, Value)>
    requires bc.Bytecode?
  {
    (if |bc.sourceInstructions| > 0 then [(Str("source"), List(source))] else []) +
    (if |bc.stepInstructions| > 0 then [(Str("step"), List(step))] else [])
  }

  /** A codec session: its own copies of the serializer and deserializer dicts. */
  class GraphSONIO {
    var serializers: seq<(PyType, Unit)>
    var deserializers: map<string, Unit>

    /**
      `GraphSONIO(serializer_map, deserializer_map)`: the default dicts, updated with the
      caller's.  An empty or absent map leaves the defaults as they are.
     */
    constructor (serializerMap: seq<(PyType, Unit)>, deserializerMap: map<string, Unit>)
      ensures serializers == Update(DefaultSerializers(), serializerMap)
      ensures deserializers == DefaultDeserializers() + deserializerMap
    {
      var sers := DefaultSerializers();
      if |serializerMap| > 0 {
        var i := 0;
        while i < |serializerMap|
          invariant 0 <= i <= |serializerMap|
          invariant sers == Update(DefaultSerializers(), serializerMap[..i])
        {
          assert serializerMap[..i + 1][..i] == serializerMap[..i];
          sers := Put(sers, serializerMap[i].0, serializerMap[i].1);
          i := i + 1;
        }
        assert serializerMap[..i] == serializerMap;
      }
      var desers := DefaultDeserializers();
      if |deserializerMap| > 0 {
        desers := desers + deserializerMap;
      }
      serializers := sers;
      deserializers := desers;
    }

    /** `typedValue`: the `"@type"` entry, then the `"@value"` entry unless `value` is None. */
    method TypedValue(typeName: string, value: Value, prefix: string) returns (out: Value)
      ensures out == Envelope(typeName, value, prefix)
    {
      var entries := [(Str("@type"), Str(prefix + ":" + typeName))];
      if value != Null {
        assert Str("@value") !in Keys(entries) by { assert entries[0].0 == Str("@type"); }
        entries := Put(entries, Str("@value"), value);
      }
      out := Dict(entries);
    }

    /** The loop at the start of `toDict`: the first serializer whose type `v` is an instance of. */
    method FindSerializer(v: Value) returns (r: Option<Unit>)
      ensures r == FirstMatch(serializers, v)
    {
      var i := 0;
      while i < |serializers|
        invariant 0 <= i <= |serializers|
        invariant forall j :: 0 <= j < i ==> !IsInstance(v, serializers[j].0)
      {
        if IsInstance(v, serializers[i].0) {
          FirstMatchIndexUnique(serializers, v, i);
          return Some(serializers[i].1);
        }
        i := i + 1;
      }
      FirstMatchIndexUnique(serializers, v, i);
      return None;
    }

    /** `toDict`. */
    function ToDict(v: Value): Outcome<Value>
      reads this
      decreases v, 2
    {
      match FirstMatch(serializers, v)
      case Some(u) => Dictify(u, v)
      case None =>
        if v.List? || v.Set? then
          var xs :- ToDictItems(v, 0);
          Done(List(xs))
        else if v.Dict? then
          var es :- ToDictEntries(v, 0, []);
          Done(Dict(es))
        else Done(v)
    }

    /** The list comprehension that encodes each element of `obj`, from the `i`-th element on. */
    function ToDictItems(c: Value, i: nat): Outcome<seq<Value>>
      requires c.List? || c.Set?
      requires i <= |c.items|
      reads this
      decreases c, 1, |c.items| - i
    {
      if i == |c.items| then Done([])
      else
        var x :- ToDict(c.items[i]);
        var rest :- ToDictItems(c, i + 1);
        Done([x] + rest)
    }

    /** The dict built from the encoded key and encoded value of each entry, from the `i`-th entry on. */
    function ToDictEntries(c: Value, i: nat, acc: seq<(Value, Value)>): Outcome<seq<(Value, Value)>>
      requires c.Dict?
      requires i <= |c.entries|
      reads this
      decreases c, 1, |c.entries| - i
    {
      if i == |c.entries| then Done(acc)
      else
        var k :- ToDict(c.entries[i].0);
        var x :- ToDict(c.entries[i].1);
        var key :- CheckHashable(k);
        ToDictEntries(c, i + 1, Put(acc, key, x))
    }

    /**
      `serializer.dictify(v, self)`.  The registry holds classes, not instances, so for a
      class that does not define `dictify` itself the call reaches the inherited instance
      method unbound, one argument short, and raises TypeError.
     */
    function Dictify(u: Unit, v: Value): Outcome<Value>
      reads this
      decreases v, 1
    {
      match u
      case TraversalSerializer | BytecodeSerializer => BytecodeDictify(v)
      case TraversalStrategySerializer => StrategyDictify(v)
      case TraverserIO => TraverserDictify(v)
      case EnumSerializer => EnumDictify(v)
      case PSerializer => PDictify(v)
      case BindingSerializer => BindingDictify(v)
      case FloatIO | DoubleIO | Int64IO | Int32IO => Done(NumberDictify(u, v))
      case _ => Raise(TypeError)    // `_GraphSONTypeIO.dictify`, called on the class
    }

    /** `_BytecodeSerializer.dictify`: a Traversal is encoded as its bytecode. */
    function BytecodeDictify(v: Value): Outcome<Value>
      reads this
      decreases v, 0
    {
      var bc := if v.Traversal? then v.bytecode else v;
      if !bc.Bytecode? then (if bc.Opaque? then Unmodelled else Raise(AttributeError))
      else
        var source :- if |bc.sourceInstructions| > 0 then EncodedInstructions(bc, true, 0) else Done([]);
        var step :- if |bc.stepInstructions| > 0 then EncodedInstructions(bc, false, 0) else Done([]);
        Done(Envelope("Bytecode", Dict(BytecodePayload(bc, source, step)), "g"))
    }

    /** `_dictify_instructions`, from the `i`-th instruction on. */
    function EncodedInstructions(bc: Value, source: bool, i: nat): Outcome<seq<Value>>
      requires bc.Bytecode?
      requires i <= |Instructions(bc, source)|
      reads this
      decreases bc, 0, |Instructions(bc, source)| - i
    {
      if i == |Instructions(bc, source)| then Done([])
      else
        var args :- EncodedArgs(bc, source, i, 0);
        var rest :- EncodedInstructions(bc, source, i + 1);
        Done([List([Str(Instructions(bc, source)[i].op)] + args)] + rest)
    }

    /** The arguments of the `i`-th instruction, from the `j`-th on, each through `toDict`. */
    function EncodedArgs(bc: Value, source: bool, i: nat, j: nat): Outcome<seq<Value>>
      requires bc.Bytecode?
      requires i < |Instructions(bc, source)| && j <= |Instructions(bc, source)[i].args|
      reads this
      decreases bc, 0, |Instructions(bc, source)| - i, |Instructions(bc, source)[i].args| - j
    {
      var ins := Instructions(bc, source)[i];
      if j == |ins.args| then Done([])
      else
        assert ins in Instructions(bc, source);
        assert ins.args[j] in ins.args;
        var x :- ToDict(ins.args[j]);
        var rest :- EncodedArgs(bc, source, i, j + 1);
        Done([x] + rest)
    }

    /** `TraversalStrategySerializer.dictify`: tagged with the strategy's own name. */
    function StrategyDictify(v: Value): Outcome<Value>
      reads this
      decreases v, 0
    {
      var name :- Attr(v, "strategy_name");
      var configuration :- Attr(v, "configuration");
      var c :- ToDict(configuration);
      Done(Envelope(name.s, c, "g"))
    }

    /** `TraverserIO.dictify`. */
    function TraverserDictify(v: Value): Outcome<Value>
      reads this
      decreases v, 0
    {
      var obj :- Attr(v, "object");
      var o :- ToDict(obj);
      var bulk :- Attr(v, "bulk");
      var b :- ToDict(bulk);
      Done(Envelope("Traverser", Dict([(Str("value"), o), (Str("bulk"), b)]), "g"))
    }

    /** `PSerializer.dictify`: one encoded operand, or a list of two when `other` is not None. */
    function PDictify(v: Value): Outcome<Value>
      reads this
      decreases v, 0
    {
      var operator :- Attr(v, "operator");
      var other :- Attr(v, "other");
      var value :- Attr(v, "value");
      var x :- ToDict(value);
      var operand :-
        if other != Null then
          var y :- ToDict(other);
          Done(List([x, y]))
        else Done(x);
      Done(Envelope("P", Dict([(Str("predicate"), operator), (Str("value"), operand)]), "g"))
    }

    /** `BindingSerializer.dictify`: the key as it is, the value encoded. */
    function BindingDictify(v: Value): Outcome<Value>
      reads this
      decreases v, 0
    {
      var key :- Attr(v, "key");
      var value :- Attr(v, "value");
      var x :- ToDict(value);
      Done(Envelope("Binding", Dict([(Str("key"), key), (Str("value"), x)]), "g"))
    }

    /** `_dictify_instructions`, as the loop graphson.py writes. */
    method DictifyInstructions(bc: Value, source: bool) returns (r: Outcome<seq<Value>>)
      requires bc.Bytecode?
      ensures r == EncodedInstructions(bc, source, 0)
    {
      var instructions := Instructions(bc, source);
      var out: seq<Value> := [];
      var i := 0;
      PrefixedNil(EncodedInstructions(bc, source, 0));
      while i < |instructions|
        invariant 0 <= i <= |instructions|
        invariant EncodedInstructions(bc, source, 0) == Prefixed(out, EncodedInstructions(bc, source, i))
      {
        var args := DictifyArgs(bc, source, i);
        InstructionStep(bc, source, i, out);
        if args.IsFailure() {
          return args.PropagateFailure();
        }
        out := out + [List([Str(instructions[i].op)] + args.value)];
        i := i + 1;
      }
      assert out + [] == out;
      return Done(out);
    }

    /** The inner loop of `_dictify_instructions`: the arguments of the `i`-th instruction. */
    method DictifyArgs(bc: Value, source: bool, i: nat) returns (r: Outcome<seq<Value>>)
      requires bc.Bytecode? && i < |Instructions(bc, source)|
      ensures r == EncodedArgs(bc, source, i, 0)
    {
      var args := Instructions(bc, source)[i].args;
      var out: seq<Value> := [];
      var j := 0;
      PrefixedNil(EncodedArgs(bc, source, i, 0));
      while j < |args|
        invariant 0 <= j <= |args|
        invariant EncodedArgs(bc, source, i, 0) == Prefixed(out, EncodedArgs(bc, source, i, j))
      {
        var x := ToDict(args[j]);
        ArgStep(bc, source, i, j, out);
        if x.IsFailure() {
          return x.PropagateFailure();
        }
        out := out + [x.value];
        j := j + 1;
      }
      assert out + [] == out;
      return Done(out);
    }

    lemma ArgStep(bc: Value, source: bool, i: nat, j: nat, out: seq<Value>)
      requires bc.Bytecode? && i < |Instructions(bc, source)| && j < |Instructions(bc, source)[i].args|
      ensures var x := ToDict(Instructions(bc, source)[i].args[j]);
        Prefixed(out, EncodedArgs(bc, source, i, j)) ==
          if x.IsFailure() then x.PropagateFailure() else Prefixed(out + [x.value], EncodedArgs(bc, source, i, j + 1))
    {
      var rest := EncodedArgs(bc, source, i, j + 1);
      if ToDict(Instructions(bc, source)[i].args[j]).Done? && rest.Done? {
        assert out + ([ToDict(Instructions(bc, source)[i].args[j]).value] + rest.value) ==
               out + [ToDict(Instructions(bc, source)[i].args[j]).value] + rest.value;
      }
    }

    lemma InstructionStep(bc: Value, source: bool, i: nat, out: seq<Value>)
      requires bc.Bytecode? && i < |Instructions(bc, source)|
      ensures var args := EncodedArgs(bc, source, i, 0);
        Prefixed(out, EncodedInstructions(bc, source, i)) ==
          if args.IsFailure() then args.PropagateFailure()
          else Prefixed(out + [List([Str(Instructions(bc, source)[i].op)] + args.value)], EncodedInstructions(bc, source, i + 1))
    {
      var args := EncodedArgs(bc, source, i, 0);
      var rest := EncodedInstructions(bc, source, i + 1);
      if args.Done? && rest.Done? {
        var inst := List([Str(Instructions(bc, source)[i].op)] + args.value);
        assert out + ([inst] + rest.value) == out + [inst] + rest.value;
      }
    }

    /** `_BytecodeSerializer.dictify`, inserting `"source"` and `"step"` as graphson.py does. */
    method DictifyBytecode(v: Value) returns (r: Outcome<Value>)
      ensures r == BytecodeDictify(v)
    {
      var bytecode := v;
      if bytecode.Traversal? {
        bytecode := bytecode.bytecode;
      }
      if !bytecode.Bytecode? {
        return if bytecode.Opaque? then Unmodelled else Raise(AttributeError);
      }
      var out: seq<(Value, Value)> := [];
      var source: seq<Value> := [];
      var step: seq<Value> := [];
      if |bytecode.sourceInstructions| > 0 {
        var s := DictifyInstructions(bytecode, true);
        if s.IsFailure() {
          return s.PropagateFailure();
        }
        source := s.value;
        out := Put(out, Str("source"), List(source));
      }
      if |bytecode.stepInstructions| > 0 {
        var s := DictifyInstructions(bytecode, false);
        if s.IsFailure() {
          return s.PropagateFailure();
        }
        step := s.value;
        assert Str("step") !in Keys(out) by {
          if |out| > 0 { assert out[0].0 == Str("source"); }
        }
        out := Put(out, Str("step"), List(step));
      }
      assert out == BytecodePayload(bytecode, source, step);
      var envelope := TypedValue("Bytecode", Dict(out), "g");
      r := Done(envelope);
    }

    /** `toObject`. */
    function ToObject(v: Value): (r: Outcome<Value>)
      reads this
      ensures r != Raise(KeyError)
      decreases v, 2
    {
      match v
      case Dict(_) =>
        var t := Deserialize(v);
        if t == Raise(KeyError) then
          var es :- ToObjectEntries(v, 0, []);
          Done(Dict(es))
        else t
      case List(_) =>
        var xs :- ToObjectItems(v, 0);
        Done(List(xs))
      case _ => Done(v)
    }

    /** The `try` block of `toObject`: look up the deserializer for the `"@type"` tag and objectify the `"@value"` payload. */
    function Deserialize(v: Value): Outcome<Value>
      requires v.Dict?
      reads this
      decreases v, 1
    {
      var tag :- Subscript(v, "@type");
      var key :- CheckHashable(tag);
      if key.Str? && key.s in deserializers then
        var payload :- Subscript(v, "@value");
        Objectify(deserializers[key.s], payload)
      else Raise(KeyError)
    }

    /** The dict built from the decoded key and decoded value of each entry, from the `i`-th entry on. */
    function ToObjectEntries(c: Value, i: nat, acc: seq<(Value, Value)>): (r: Outcome<seq<(Value, Value)>>)
      requires c.Dict?
      requires i <= |c.entries|
      reads this
      ensures r != Raise(KeyError)
      decreases c, 1, |c.entries| - i
    {
      if i == |c.entries| then Done(acc)
      else
        var k :- ToObject(c.entries[i].0);
        var x :- ToObject(c.entries[i].1);
        var key :- CheckHashable(k);
        ToObjectEntries(c, i + 1, Put(acc, key, x))
    }

    /** The list of the decoded elements of a list or set `c`, from the `i`-th element on. */
    function ToObjectItems(c: Value, i: nat): (r: Outcome<seq<Value>>)
      requires c.List? || c.Set?
      requires i <= |c.items|
      reads this
      ensures r != Raise(KeyError)
      decreases c, 1, |c.items| - i
    {
      if i == |c.items| then Done([])
      else
        var x :- ToObject(c.items[i]);
        var rest :- ToObjectItems(c, i + 1);
        Done([x] + rest)
    }

    /** The list of the decoded keys of a dict `c`, which is what iterating over it visits. */
    function ToObjectKeys(c: Value, i: nat): (r: Outcome<seq<Value>>)
      requires c.Dict?
      requires i <= |c.entries|
      reads this
      ensures r != Raise(KeyError)
      decreases c, 1, |c.entries| - i
    {
      if i == |c.entries| then Done([])
      else
        var x :- ToObject(c.entries[i].0);
        var rest :- ToObjectKeys(c, i + 1);
        Done([x] + rest)
    }

    /**
      `deserializer.objectify(d, self)`.  As in `Dictify`, a class that does not define
      `objectify` itself is called unbound, one argument short, and raises TypeError.
     */
    function Objectify(u: Unit, d: Value): Outcome<Value>
      reads this
      decreases d, 3
    {
      match u
      case TraverserIO => TraverserObjectify(d)
      case FloatIO | DoubleIO => ToFloat(d)     // `python_type(d)`
      case Int64IO => ToLong(d)
      case Int32IO => ToInt(d)
      case VertexDeserializer => VertexObjectify(d)
      case EdgeDeserializer => EdgeObjectify(d)
      case VertexPropertyDeserializer => VertexPropertyObjectify(d)
      case PropertyDeserializer => PropertyObjectify(d)
      case PathDeserializer => PathObjectify(d)
      case _ => Raise(TypeError)    // `_GraphSONTypeIO.objectify`, called on the class
    }

    /** `TraverserIO.objectify`. */
    function TraverserObjectify(d: Value): Outcome<Value>
      reads this
      decreases d, 0
    {
      var value :- Subscript(d, "value");
      var obj :- ToObject(value);
      var bulk :- Subscript(d, "bulk");
      var b :- ToObject(bulk);
      Done(Traverser(obj, b))
    }

    /** `VertexDeserializer.objectify`: the label is not decoded, and defaults to `""`. */
    function VertexObjectify(d: Value): Outcome<Value>
      reads this
      decreases d, 0
    {
      var id :- Subscript(d, "id");
      var i :- ToObject(id);
      var lbl :- GetOr(d, "label", Str(""));
      Done(Vertex(i, lbl))
    }

    /** `EdgeDeserializer.objectify`: the label defaults to `"vertex"`, the ends are bare vertices. */
    function EdgeObjectify(d: Value): Outcome<Value>
      reads this
      decreases d, 0
    {
      var id :- Subscript(d, "id");
      var i :- ToObject(id);
      var outV :- Subscript(d, "outV");
      var o :- ToObject(outV);
      var lbl :- GetOr(d, "label", Str("vertex"));
      var inV :- Subscript(d, "inV");
      var n :- ToObject(inV);
      Done(Edge(i, Vertex(o, Str("")), lbl, Vertex(n, Str(""))))
    }

    /** `VertexPropertyDeserializer.objectify`: the label is required and not decoded. */
    function VertexPropertyObjectify(d: Value): Outcome<Value>
      reads this
      decreases d, 0
    {
      var id :- Subscript(d, "id");
      var i :- ToObject(id);
      var lbl :- Subscript(d, "label");
      var value :- Subscript(d, "value");
      var x :- ToObject(value);
      Done(VertexProperty(i, lbl, x))
    }

    /** `PropertyDeserializer.objectify`: the key is not decoded. */
    function PropertyObjectify(d: Value): Outcome<Value>
      reads this
      decreases d, 0
    {
      var key :- Subscript(d, "key");
      var value :- Subscript(d, "value");
      var x :- ToObject(value);
      Done(Property(key, x))
    }

    /** `PathDeserializer.objectify`. */
    function PathObjectify(d: Value): Outcome<Value>
      reads this
      decreases d, 2
    {
      var labels :- Subscript(d, "labels");
      var items :- Iterate(labels);
      var sets :- LabelSets(items);
      var objects :- Subscript(d, "objects");
      var xs :- PathObjects(objects);
      Done(Path(sets, xs))
    }

    /**
      The list of the decoded items `objects` iterates over.  The one-character strings a string iterates
      over come back from `toObject` unchanged.
     */
    function PathObjects(objects: Value): Outcome<seq<Value>>
      reads this
      decreases objects, 2
    {
      match objects
      case List(_) => ToObjectItems(objects, 0)
      case Set(_) => ToObjectItems(objects, 0)
      case Dict(_) => ToObjectKeys(objects, 0)
      case Str(s) => Done(Chars(s))
      case _ => Iterate(objects)    // raises: `objects` is not iterable
    }
  }
}
