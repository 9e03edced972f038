/**
  The type registry of graphson.py: the module-level `_serializers` and `_deserializers`
  dicts that the metaclass `GraphSONTypeType` fills as each codec class is defined.

  A class whose name does not start with an underscore is entered under its
  `python_type` in the serializer dict and under its `graphson_type` in the deserializer
  dict, whichever of the two it sets.  A later class replaces an earlier one under the
  same key, in the earlier one's position.  The model states the two dicts this produces
  explicitly, proves them equal to the result of registering the classes one at a time in
  definition order, and proves them consistent with the class attributes.
 */
module Registry {
  import opened Wrappers
  import opened Dicts
  import opened Python

  /** The codec classes of graphson.py (LambdaSerializer and TypeSerializer are not modelled). */
  datatype Unit =
    | TraversalSerializer | BytecodeSerializer | TraversalStrategySerializer | TraverserIO
    | EnumSerializer | PSerializer | BindingSerializer
    | FloatIO | DoubleIO | Int64IO | Int32IO
    | VertexDeserializer | EdgeDeserializer | VertexPropertyDeserializer
    | PropertyDeserializer | PathDeserializer

  /** A class's `python_type`, inherited ones included: DoubleIO inherits FloatIO's. */
  function PythonTypeOf(u: Unit): Option<PyType>
  {
    match u
    case TraversalSerializer => Some(TraversalType)
    case BytecodeSerializer => Some(BytecodeType)
    case TraversalStrategySerializer => Some(TraversalStrategyType)
    case TraverserIO => Some(TraverserType)
    case EnumSerializer => Some(EnumType)
    case PSerializer => Some(PType)
    case BindingSerializer => Some(BindingType)
    case FloatIO | DoubleIO => Some(FloatType)
    case Int64IO => Some(LongType)
    case Int32IO => Some(IntType)
    case _ => None
  }

  /** A class's `graphson_type`. */
  function GraphsonTypeOf(u: Unit): Option<string>
  {
    match u
    case TraverserIO => Some("g:Traverser")
    case FloatIO => Some("g:Float")
    case DoubleIO => Some("g:Double")
    case Int64IO => Some("g:Int64")
    case Int32IO => Some("g:Int32")
    case VertexDeserializer => Some("g:Vertex")
    case EdgeDeserializer => Some("g:Edge")
    case VertexPropertyDeserializer => Some("g:VertexProperty")
    case PropertyDeserializer => Some("g:Property")
    case PathDeserializer => Some("g:Path")
    case _ => None
  }

  /** `graphson_base_type`, the type name the numeric classes put in their envelope. */
  function BaseTypeOf(u: Unit): string
  {
    match u
    case FloatIO => "Float"
    case DoubleIO => "Double"
    case Int64IO => "Int64"
    case Int32IO => "Int32"
    case _ => ""
  }

  /**
    The default serializer dict in iteration order: the order in which the classes first
    registered their `python_type`, with DoubleIO in the position FloatIO took.
   */
  function DefaultSerializers(): seq<(PyType, Unit)>
  {
    [ (TraversalType, TraversalSerializer), (BytecodeType, BytecodeSerializer),
      (TraversalStrategyType, TraversalStrategySerializer), (TraverserType, TraverserIO),
      (EnumType, EnumSerializer), (PType, PSerializer), (BindingType, BindingSerializer),
      (FloatType, DoubleIO), (LongType, Int64IO), (IntType, Int32IO) ]
  }

  /** The default deserializer dict. */
  function DefaultDeserializers(): map<string, Unit>
  {
    map[ "g:Traverser" := TraverserIO, "g:Float" := FloatIO, "g:Double" := DoubleIO,
         "g:Int64" := Int64IO, "g:Int32" := Int32IO, "g:Vertex" := VertexDeserializer,
         "g:Edge" := EdgeDeserializer, "g:VertexProperty" := VertexPropertyDeserializer,
         "g:Property" := PropertyDeserializer, "g:Path" := PathDeserializer ]
  }

  /** `order` lists the codec classes in the order graphson.py defines them. */
  predicate InDefinitionOrder(order: seq<Unit>)
  {
    |order| == 16 &&
    order[0] == TraversalSerializer && order[1] == BytecodeSerializer &&
    order[2] == TraversalStrategySerializer && order[3] == TraverserIO &&
    order[4] == EnumSerializer && order[5] == PSerializer &&
    order[6] == BindingSerializer && order[7] == FloatIO &&
    order[8] == DoubleIO && order[9] == Int64IO &&
    order[10] == Int32IO && order[11] == VertexDeserializer &&
    order[12] == EdgeDeserializer && order[13] == VertexPropertyDeserializer &&
    order[14] == PropertyDeserializer && order[15] == PathDeserializer
  }

  /** Only one sequence lists the classes in definition order. */
  lemma DefinitionOrderUnique(order: seq<Unit>, other: seq<Unit>)
    requires InDefinitionOrder(order) && InDefinitionOrder(other)
    ensures order == other
  {
    assert forall i :: 0 <= i < |order| ==> order[i] == other[i];
  }

  /** The index at which graphson.py defines `u`. */
  function Position(u: Unit): nat
  {
    match u
    case TraversalSerializer => 0
    case BytecodeSerializer => 1
    case TraversalStrategySerializer => 2
    case TraverserIO => 3
    case EnumSerializer => 4
    case PSerializer => 5
    case BindingSerializer => 6
    case FloatIO => 7
    case DoubleIO => 8
    case Int64IO => 9
    case Int32IO => 10
    case VertexDeserializer => 11
    case EdgeDeserializer => 12
    case VertexPropertyDeserializer => 13
    case PropertyDeserializer => 14
    case PathDeserializer => 15
  }

  /** Each class is defined exactly once, at its `Position`. */
  lemma PositionInOrder(order: seq<Unit>, u: Unit, i: nat)
    requires InDefinitionOrder(order) && i < |order|
    ensures Position(u) < |order| && order[Position(u)] == u
    ensures Position(order[i]) == i
  {
  }

  /**
    What defining the class `u` does to the serializer dict (graphson.py:47-48): a public
    class with a `python_type` becomes the entry under it.  Every class in `Unit` is public.
   */
  function RegisterSerializer(d: seq<(PyType, Unit)>, u: Unit): seq<(PyType, Unit)>
  {
    match PythonTypeOf(u)
    case Some(t) => Put(d, t, u)
    case None => d
  }

  /** The serializer dict once the first `n` classes of `order` are defined, starting from `{}`. */
  function SerializersAfter(order: seq<Unit>, n: nat): seq<(PyType, Unit)>
    requires n <= |order|
  {
    if n == 0 then [] else RegisterSerializer(SerializersAfter(order, n - 1), order[n - 1])
  }

  /** What defining the class `u` does to the deserializer dict (graphson.py:49-50). */
  function RegisterDeserializer(m: map<string, Unit>, u: Unit): map<string, Unit>
  {
    match GraphsonTypeOf(u)
    case Some(tag) => m[tag := u]
    case None => m
  }

  /** The deserializer dict once the first `n` classes of `order` are defined. */
  function DeserializersAfter(order: seq<Unit>, n: nat): map<string, Unit>
    requires n <= |order|
  {
    if n == 0 then map[] else RegisterDeserializer(DeserializersAfter(order, n - 1), order[n - 1])
  }

  /**
    The serializer dict of graphson.py is what defining its classes in order produces:
    `DefaultSerializers()` is the result of the registration, entry order included.
   */
  lemma DefaultSerializersByRegistration(order: seq<Unit>)
    requires InDefinitionOrder(order)
    ensures SerializersAfter(order, |order|) == DefaultSerializers()
  {
    RegisterTraversalUnits(order);
    RegisterArgumentUnits(order);
    RegisterFloatUnits(order);
    RegisterIntegerUnits(order);
    RegisterStructureUnits(order);
    WholePrefix(DefaultSerializers());
  }

  /**
    Defining a class whose `python_type` no earlier class registered appends its entry: once
    the dict is the first `k` entries of a dict `d` without repeated types, defining the class
    of entry `k` makes it the first `k + 1`.
   */
  lemma RegisterFreshType(order: seq<Unit>, n: nat, d: seq<(PyType, Unit)>, k: nat)
    requires 0 < n <= |order| && k < |d| && DistinctKeys(d)
    requires SerializersAfter(order, n - 1) == d[..k]
    requires order[n - 1] == d[k].1 && PythonTypeOf(d[k].1) == Some(d[k].0)
    ensures SerializersAfter(order, n) == d[..k + 1]
  {
    assert forall j :: 0 <= j < k ==> d[..k][j] == d[j];
    PutFresh(d[..k], d[k].0, d[k].1);
    assert d[..k] + [d[k]] == d[..k + 1];
  }

  /**
    A class `first` that registers the type of entry `k` of `d`, followed by the class of
    that entry, which registers the same type again: the first appends its entry, the
    second replaces it in place.
   */
  lemma RegisterReplacesType(order: seq<Unit>, n: nat, d: seq<(PyType, Unit)>, k: nat, first: Unit)
    requires 1 < n <= |order| && k < |d| && DistinctKeys(d)
    requires SerializersAfter(order, n - 2) == d[..k]
    requires order[n - 2] == first && PythonTypeOf(first) == Some(d[k].0)
    requires order[n - 1] == d[k].1 && PythonTypeOf(d[k].1) == Some(d[k].0)
    ensures SerializersAfter(order, n - 1) == d[..k] + [(d[k].0, first)]
    ensures SerializersAfter(order, n) == d[..k + 1]
  {
    assert forall j :: 0 <= j < k ==> d[..k][j] == d[j];
    PutFresh(d[..k], d[k].0, first);
    PutPresent(d[..k] + [(d[k].0, first)], d[k].0, d[k].1, k);
    assert (d[..k] + [(d[k].0, first)])[k := d[k]] == d[..k + 1];
  }

  /** Classes without a `python_type` leave the serializer dict as it is. */
  lemma {:induction false} RegisterUntypedUnits(order: seq<Unit>, n: nat, m: nat)
    requires n <= m <= |order|
    requires forall i :: n <= i < m ==> PythonTypeOf(order[i]).None?
    ensures SerializersAfter(order, m) == SerializersAfter(order, n)
    decreases m - n
  {
    if n < m {
      RegisterUntypedUnits(order, n, m - 1);
    }
  }

  /** The classes of the default serializer entries, in entry order. */
  lemma DefaultSerializerUnits()
    ensures DefaultSerializers()[0].1 == TraversalSerializer && DefaultSerializers()[1].1 == BytecodeSerializer
    ensures DefaultSerializers()[2].1 == TraversalStrategySerializer && DefaultSerializers()[3].1 == TraverserIO
    ensures DefaultSerializers()[4].1 == EnumSerializer && DefaultSerializers()[5].1 == PSerializer
    ensures DefaultSerializers()[6].1 == BindingSerializer && DefaultSerializers()[7] == (FloatType, DoubleIO)
    ensures DefaultSerializers()[8].1 == Int64IO && DefaultSerializers()[9].1 == Int32IO
  {
  }

  /** The traversal serializers, defined first, each add an entry in turn. */
  lemma RegisterTraversalUnits(order: seq<Unit>)
    requires |order| == 16 && order[0] == TraversalSerializer
    requires order[1] == BytecodeSerializer && order[2] == TraversalStrategySerializer
    requires order[3] == TraverserIO
    ensures SerializersAfter(order, 4) == DefaultSerializers()[..4]
  {
    var d := DefaultSerializers();
    DefaultSerializerUnits();
    SerializerTypesDistinct();
    SerializerEntriesOwnType();
    assert SerializersAfter(order, 0) == d[..0];
    RegisterFreshType(order, 1, d, 0);
    RegisterFreshType(order, 2, d, 1);
    RegisterFreshType(order, 3, d, 2);
    RegisterFreshType(order, 4, d, 3);
  }

  /** The argument serializers after them add theirs. */
  lemma RegisterArgumentUnits(order: seq<Unit>)
    requires |order| == 16 && order[4] == EnumSerializer && order[5] == PSerializer
    requires order[6] == BindingSerializer
    requires SerializersAfter(order, 4) == DefaultSerializers()[..4]
    ensures SerializersAfter(order, 7) == DefaultSerializers()[..7]
  {
    var d := DefaultSerializers();
    DefaultSerializerUnits();
    SerializerTypesDistinct();
    SerializerEntriesOwnType();
    RegisterFreshType(order, 5, d, 4);
    RegisterFreshType(order, 6, d, 5);
    RegisterFreshType(order, 7, d, 6);
  }

  /** FloatIO adds `float`; DoubleIO then replaces FloatIO under `float`, in its position. */
  lemma RegisterFloatUnits(order: seq<Unit>)
    requires |order| == 16 && order[7] == FloatIO && order[8] == DoubleIO
    requires SerializersAfter(order, 7) == DefaultSerializers()[..7]
    ensures SerializersAfter(order, 8) == DefaultSerializers()[..7] + [(FloatType, FloatIO)]
    ensures SerializersAfter(order, 9) == DefaultSerializers()[..8]
  {
    DefaultSerializerUnits();
    SerializerTypesDistinct();
    SerializerEntriesOwnType();
    RegisterReplacesType(order, 9, DefaultSerializers(), 7, FloatIO);
  }

  /** Int64IO and Int32IO then add `long` and `int` after `float`. */
  lemma RegisterIntegerUnits(order: seq<Unit>)
    requires |order| == 16 && order[9] == Int64IO && order[10] == Int32IO
    requires SerializersAfter(order, 9) == DefaultSerializers()[..8]
    ensures SerializersAfter(order, 11) == DefaultSerializers()[..10]
  {
    assert DefaultSerializers()[8].1 == Int64IO && DefaultSerializers()[9].1 == Int32IO;
    SerializerTypesDistinct();
    SerializerEntriesOwnType();
    RegisterFreshType(order, 10, DefaultSerializers(), 8);
    RegisterFreshType(order, 11, DefaultSerializers(), 9);
  }

  /** The structure deserializers, defined last, have no `python_type` and leave the dict as it is. */
  lemma RegisterStructureUnits(order: seq<Unit>)
    requires |order| == 16 && order[11] == VertexDeserializer
    requires order[12] == EdgeDeserializer && order[13] == VertexPropertyDeserializer
    requires order[14] == PropertyDeserializer && order[15] == PathDeserializer
    ensures SerializersAfter(order, |order|) == SerializersAfter(order, 11)
  {
    assert forall i :: 11 <= i < 16 ==> PythonTypeOf(order[i]).None?;
    RegisterUntypedUnits(order, 11, 16);
  }

  lemma WholePrefix<T>(s: seq<T>)
    ensures s[..|s|] == s
  {
  }

  /**
    The deserializer dict of graphson.py is what defining its classes in order produces:
    each class with a `graphson_type` adds its tag, in definition order.
   */
  lemma DefaultDeserializersByRegistration(order: seq<Unit>)
    requires InDefinitionOrder(order)
    ensures DeserializersAfter(order, |order|) == DefaultDeserializers()
  {
    DeserializeArgumentUnits(order);
    DeserializeFloatUnits(order);
    DeserializeIntegerUnits(order);
    DeserializeElementUnits(order);
    DeserializeStructureUnits(order);
  }

  /** Of the classes defined before the number classes only TraverserIO has a `graphson_type`. */
  lemma DeserializeArgumentUnits(order: seq<Unit>)
    requires |order| == 16 && order[0] == TraversalSerializer
    requires order[1] == BytecodeSerializer && order[2] == TraversalStrategySerializer
    requires order[3] == TraverserIO && order[4] == EnumSerializer && order[5] == PSerializer
    requires order[6] == BindingSerializer
    ensures DeserializersAfter(order, 7) == map["g:Traverser" := TraverserIO]
  {
    DeserializersUntouched(order, 0, 3);
    DeserializerAdded(order, 4, "g:Traverser");
    DeserializersUntouched(order, 4, 7);
  }

  /** FloatIO and DoubleIO add their tags. */
  lemma DeserializeFloatUnits(order: seq<Unit>)
    requires |order| == 16 && order[7] == FloatIO && order[8] == DoubleIO
    requires DeserializersAfter(order, 7) == map["g:Traverser" := TraverserIO]
    ensures DeserializersAfter(order, 9) == map["g:Traverser" := TraverserIO, "g:Float" := FloatIO, "g:Double" := DoubleIO]
  {
    DeserializerAdded(order, 8, "g:Float");
    DeserializerAdded(order, 9, "g:Double");
  }

  /** Int64IO and Int32IO add theirs. */
  lemma DeserializeIntegerUnits(order: seq<Unit>)
    requires |order| == 16 && order[9] == Int64IO && order[10] == Int32IO
    requires DeserializersAfter(order, 9) == map["g:Traverser" := TraverserIO, "g:Float" := FloatIO, "g:Double" := DoubleIO]
    ensures DeserializersAfter(order, 11) ==
              map["g:Traverser" := TraverserIO, "g:Float" := FloatIO, "g:Double" := DoubleIO,
                  "g:Int64" := Int64IO, "g:Int32" := Int32IO]
  {
    DeserializerAdded(order, 10, "g:Int64");
    DeserializerAdded(order, 11, "g:Int32");
  }

  /** The vertex and edge deserializers, defined after the number classes, add theirs. */
  lemma DeserializeElementUnits(order: seq<Unit>)
    requires |order| == 16 && order[11] == VertexDeserializer
    requires order[12] == EdgeDeserializer
    requires DeserializersAfter(order, 11) ==
               map["g:Traverser" := TraverserIO, "g:Float" := FloatIO, "g:Double" := DoubleIO,
                   "g:Int64" := Int64IO, "g:Int32" := Int32IO]
    ensures DeserializersAfter(order, 13) ==
              map["g:Traverser" := TraverserIO, "g:Float" := FloatIO, "g:Double" := DoubleIO,
                  "g:Int64" := Int64IO, "g:Int32" := Int32IO, "g:Vertex" := VertexDeserializer,
                  "g:Edge" := EdgeDeserializer]
  {
    DeserializerAdded(order, 12, "g:Vertex");
    DeserializerAdded(order, 13, "g:Edge");
  }

  /** The property and path deserializers, defined last, add theirs. */
  lemma DeserializeStructureUnits(order: seq<Unit>)
    requires |order| == 16 && order[13] == VertexPropertyDeserializer
    requires order[14] == PropertyDeserializer && order[15] == PathDeserializer
    requires DeserializersAfter(order, 13) ==
               map["g:Traverser" := TraverserIO, "g:Float" := FloatIO, "g:Double" := DoubleIO,
                   "g:Int64" := Int64IO, "g:Int32" := Int32IO, "g:Vertex" := VertexDeserializer,
                   "g:Edge" := EdgeDeserializer]
    ensures DeserializersAfter(order, |order|) == DefaultDeserializers()
  {
    DeserializerAdded(order, 14, "g:VertexProperty");
    DeserializerAdded(order, 15, "g:Property");
    DeserializerAdded(order, 16, "g:Path");
  }

  /** Defining a class with `graphson_type` `tag` enters it under `tag`. */
  lemma DeserializerAdded(order: seq<Unit>, n: nat, tag: string)
    requires 0 < n <= |order| && GraphsonTypeOf(order[n - 1]) == Some(tag)
    ensures DeserializersAfter(order, n) == DeserializersAfter(order, n - 1)[tag := order[n - 1]]
    ensures tag in DeserializersAfter(order, n)
  {
  }

  /** Classes without a `graphson_type` leave the deserializer dict as it is. */
  lemma {:induction false} DeserializersUntouched(order: seq<Unit>, n: nat, m: nat)
    requires n <= m <= |order|
    requires forall i :: n <= i < m ==> GraphsonTypeOf(order[i]).None?
    ensures DeserializersAfter(order, m) == DeserializersAfter(order, n)
    decreases m - n
  {
    if n < m {
      DeserializersUntouched(order, n, m - 1);
    }
  }

  /**
    The serializer dict is the result of registering every class's `python_type`, the last
    registration winning: no type is entered twice, every entry is a class under its own
    `python_type`, and the `python_type` of every class is entered, under that class or
    under one defined after it.
   */
  lemma DefaultSerializersRegistered()
    ensures DistinctKeys(DefaultSerializers())
    ensures forall i :: 0 <= i < |DefaultSerializers()| ==>
              PythonTypeOf(DefaultSerializers()[i].1) == Some(DefaultSerializers()[i].0)
    ensures forall u :: PythonTypeOf(u).Some? ==>
              exists i :: 0 <= i < |DefaultSerializers()| && DefaultSerializers()[i].0 == PythonTypeOf(u).value &&
                Position(u) <= Position(DefaultSerializers()[i].1)
  {
    SerializerTypesDistinct();
    SerializerEntriesOwnType();
    SerializerCoversClasses();
  }

  lemma SerializerTypesDistinct()
    ensures DistinctKeys(DefaultSerializers())
  {
  }

  lemma SerializerEntriesOwnType()
    ensures forall i :: 0 <= i < |DefaultSerializers()| ==>
              PythonTypeOf(DefaultSerializers()[i].1) == Some(DefaultSerializers()[i].0)
  {
  }

  lemma SerializerCoversClasses()
    ensures forall u :: PythonTypeOf(u).Some? ==>
              exists i :: 0 <= i < |DefaultSerializers()| && DefaultSerializers()[i].0 == PythonTypeOf(u).value &&
                Position(u) <= Position(DefaultSerializers()[i].1)
  {
    var d := DefaultSerializers();
    forall u | PythonTypeOf(u).Some?
      ensures exists i :: 0 <= i < |d| && d[i].0 == PythonTypeOf(u).value && Position(u) <= Position(d[i].1)
    {
      var i := match u
        case TraversalSerializer => 0
        case BytecodeSerializer => 1
        case TraversalStrategySerializer => 2
        case TraverserIO => 3
        case EnumSerializer => 4
        case PSerializer => 5
        case BindingSerializer => 6
        case FloatIO => 7
        case DoubleIO => 7
        case Int64IO => 8
        case _ => 9;
      assert d[i].0 == PythonTypeOf(u).value && Position(u) <= Position(d[i].1);
    }
  }

  /** FloatIO's registration under FloatType is the one replaced: DoubleIO encodes floats. */
  lemma DoubleIOEncodesFloats()
    ensures Get(DefaultSerializers(), FloatType) == Some(DoubleIO)
    ensures Position(FloatIO) < Position(DoubleIO)
  {
    assert Position(FloatIO) == 7 && Position(DoubleIO) == 8;
    assert Get(DefaultSerializers(), FloatType) == Some(DoubleIO) by {
      IndexOfUnique(DefaultSerializers(), FloatType, 7);
    }
  }

  /**
    The deserializer dict is the result of registering every class's `graphson_type`:
    each class with one is the entry for it, and every entry is such a class.
   */
  lemma DefaultDeserializersRegistered()
    ensures forall u :: GraphsonTypeOf(u).Some? ==>
              GraphsonTypeOf(u).value in DefaultDeserializers() &&
              DefaultDeserializers()[GraphsonTypeOf(u).value] == u
    ensures forall tag :: tag in DefaultDeserializers() ==>
              GraphsonTypeOf(DefaultDeserializers()[tag]) == Some(tag)
  {
  }
}
