/**
  The Python objects the GraphSON codec consumes and produces.

  `toDict` returns, and `toObject` receives, ordinary Python objects: dicts, lists,
  strings, numbers, booleans and None (what `json.loads` produces and `json.dumps`
  accepts), possibly with domain objects left in place.  One datatype, `Value`, stands
  for all of them.  The domain classes (Vertex, Edge, Bytecode, P, Traverser, ...) are
  defined outside the codec module; each carries here only the attributes the codec
  reads.
 */
module Python {
  import opened Wrappers
  import opened Dicts

  /** The Python exceptions the codec raises or lets through. */
  datatype Exception = KeyError | TypeError | AttributeError

  /**
    What evaluating a Python expression does: it returns a value, raises, or does
    something the model does not determine (`Unmodelled`: a float or string conversion,
    item access on a class whose definition is not part of the model).
   */
  datatype Outcome<+T> = Done(value: T) | Raise(exc: Exception) | Unmodelled
  {
    predicate IsFailure()
    {
      !Done?
    }

    function PropagateFailure<U>(): Outcome<U>
      requires !Done?
    {
      if Raise? then Raise(exc) else Unmodelled
    }

    function Extract(): T
      requires Done?
    {
      value
    }
  }

  /** `xs` followed by what `o` returns, or what `o` raises. */
  function Prefixed<T>(xs: seq<T>, o: Outcome<seq<T>>): Outcome<seq<T>>
  {
    if o.Done? then Done(xs + o.value) else o
  }

  lemma PrefixedNil<T>(o: Outcome<seq<T>>)
    ensures Prefixed([], o) == o
  {
    if o.Done? { assert [] + o.value == o.value; }
  }

  /** A Python object, as far as the codec can tell them apart. */
  datatype Value =
    | Null                                          // None
    | Bool(b: bool)
    | Int(i: int)                                   // int: unbounded, as in Python
    | Long(i: int)                                  // gremlin_python.statics.long, a subclass of int
    | Float(bits: bv64)                             // float, kept as an opaque bit pattern
    | Str(s: string)
    | List(items: seq<Value>)
    | Set(items: seq<Value>)                        // a set, listed in its iteration order
    | Dict(entries: seq<(Value, Value)>)            // a dict, in insertion order
    | Vertex(id: Value, elementLabel: Value)        // `label` in Python, a keyword in Dafny
    | Edge(id: Value, outV: Value, elementLabel: Value, inV: Value)
    | VertexProperty(id: Value, elementLabel: Value, value: Value)
    | Property(key: Value, value: Value)
    | Path(labels: seq<set<Value>>, objects: seq<Value>)
    | Traverser(obj: Value, bulk: Value)            // the attribute is called `object` in Python
    | Bytecode(sourceInstructions: seq<Instruction>, stepInstructions: seq<Instruction>)
    | Traversal(bytecode: Value)
    | TraversalStrategy(strategyName: string, configuration: Value)
    | P(operator: string, value: Value, other: Value)
    | Binding(key: Value, value: Value)
    | Enum(enumClass: string, name: string)         // a member `name` of the enum class `enumClass`
    | Opaque(token: int)                            // an object of a class the codec does not know

  /** A bytecode instruction: the operator name at index 0, then its arguments. */
  datatype Instruction = Instruction(op: string, args: seq<Value>)

  /** The classes a registry can name.  `ObjectType` is `object`. */
  datatype PyType =
    | NoneType | BoolType | IntType | LongType | FloatType | StrType
    | ListType | SetType | DictType
    | VertexType | EdgeType | VertexPropertyType | PropertyType | PathType
    | TraverserType | BytecodeType | TraversalType | TraversalStrategyType
    | PType | BindingType | EnumType | ObjectType

  /** `isinstance(v, t)`: `bool` and `long` are subclasses of `int`, every class of `object`. */
  predicate IsInstance(v: Value, t: PyType)
  {
    t == ObjectType ||
    match v
    case Null => t == NoneType
    case Bool(_) => t == BoolType || t == IntType
    case Int(_) => t == IntType
    case Long(_) => t == LongType || t == IntType
    case Float(_) => t == FloatType
    case Str(_) => t == StrType
    case List(_) => t == ListType
    case Set(_) => t == SetType
    case Dict(_) => t == DictType
    case Vertex(_, _) => t == VertexType
    case Edge(_, _, _, _) => t == EdgeType
    case VertexProperty(_, _, _) => t == VertexPropertyType
    case Property(_, _) => t == PropertyType
    case Path(_, _) => t == PathType
    case Traverser(_, _) => t == TraverserType
    case Bytecode(_, _) => t == BytecodeType
    case Traversal(_) => t == TraversalType
    case TraversalStrategy(_, _) => t == TraversalStrategyType
    case P(_, _, _) => t == PType
    case Binding(_, _) => t == BindingType
    case Enum(_, _) => t == EnumType
    case Opaque(_) => false
  }

  /** Containers; Python's `dict`, `list` and `set` are unhashable. */
  predicate IsContainer(v: Value)
  {
    v.List? || v.Set? || v.Dict?
  }

  /**
    Hashing `v`, as a dict key or a set element does: containers raise TypeError;
    whether a domain object hashes is decided by its class, which is not part of the model.
   */
  function CheckHashable(v: Value): (r: Outcome<Value>)
    ensures r.Done? ==> r.value == v && !IsContainer(v)
    ensures r == Raise(TypeError) <==> IsContainer(v)
    ensures v.Null? || v.Bool? || v.Int? || v.Long? || v.Float? || v.Str? || v.Enum? ==> r == Done(v)
  {
    match v
    case Null | Bool(_) | Int(_) | Long(_) | Float(_) | Str(_) | Enum(_, _) => Done(v)
    case List(_) | Set(_) | Dict(_) => Raise(TypeError)
    case _ => Unmodelled
  }

  /** `d[key]` for a string key. */
  function Subscript(d: Value, key: string): (r: Outcome<Value>)
    ensures r.Done? ==> d.Dict? && exists i :: 0 <= i < |d.entries| && d.entries[i] == (Str(key), r.value)
    ensures d.Dict? && Str(key) in Keys(d.entries) ==> r == Done(Get(d.entries, Str(key)).value)
    ensures r == Raise(KeyError) <==> d.Dict? && Str(key) !in Keys(d.entries)
    ensures !d.Dict? && !d.Path? && !d.Opaque? ==> r == Raise(TypeError)
  {
    match d
    case Dict(es) =>
      (match Get(es, Str(key))
       case Some(x) => Done(x)
       case None => Raise(KeyError))
    case Path(_, _) | Opaque(_) => Unmodelled
    case _ => Raise(TypeError)
  }

  /** `d.get(key, default)` for a string key. */
  function GetOr(d: Value, key: string, default: Value): (r: Outcome<Value>)
    ensures d.Dict? ==> r == Done(if Str(key) in Keys(d.entries) then Get(d.entries, Str(key)).value else default)
  {
    match d
    case Dict(es) =>
      (match Get(es, Str(key))
       case Some(x) => Done(x)
       case None => Done(default))
    case Path(_, _) | Opaque(_) => Unmodelled
    case _ => Raise(AttributeError)
  }

  /** The attributes whose value is a string built from the object rather than a part of it. */
  predicate IsNameAttribute(name: string)
  {
    name == "operator" || name == "strategy_name" || name == "name"
  }

  /**
    `v.name`.  Each domain class has the attributes its definition gives it (the names
    the codec reads); other attributes, and every attribute of a builtin value, raise
    AttributeError.
   */
  function Attr(v: Value, name: string): (r: Outcome<Value>)
    ensures r.Done? && !IsNameAttribute(name) ==> r.value < v
    ensures r.Done? && IsNameAttribute(name) ==> r.value.Str?
  {
    match v
    case Vertex(id, l) =>
      if name == "id" then Done(id) else if name == "label" then Done(l) else Raise(AttributeError)
    case Edge(id, o, l, i) =>
      if name == "id" then Done(id) else if name == "outV" then Done(o)
      else if name == "label" then Done(l) else if name == "inV" then Done(i) else Raise(AttributeError)
    case VertexProperty(id, l, x) =>
      if name == "id" then Done(id) else if name == "label" then Done(l)
      else if name == "value" then Done(x) else Raise(AttributeError)
    case Property(k, x) =>
      if name == "key" then Done(k) else if name == "value" then Done(x) else Raise(AttributeError)
    case Traverser(o, b) =>
      if name == "object" then Done(o) else if name == "bulk" then Done(b) else Raise(AttributeError)
    case Traversal(b) =>
      if name == "bytecode" then Done(b) else Raise(AttributeError)
    case TraversalStrategy(n, c) =>
      if name == "strategy_name" then Done(Str(n)) else if name == "configuration" then Done(c)
      else Raise(AttributeError)
    case P(op, x, y) =>
      if name == "operator" then Done(Str(op)) else if name == "value" then Done(x)
      else if name == "other" then Done(y) else Raise(AttributeError)
    case Binding(k, x) =>
      if name == "key" then Done(k) else if name == "value" then Done(x) else Raise(AttributeError)
    case Enum(_, n) =>
      if name == "name" then Done(Str(n)) else Raise(AttributeError)
    case Opaque(_) => Unmodelled
    case _ => Raise(AttributeError)
  }

  /** The one-character strings of `s`, which is what iterating over a Python string yields. */
  function Chars(s: string): (r: seq<Value>)
    ensures |r| == |s| && forall i :: 0 <= i < |s| ==> r[i] == Str([s[i]])
  {
    seq(|s|, i requires 0 <= i < |s| => Str([s[i]]))
  }

  /** The keys of a dict in iteration order, which is what iterating over a dict yields. */
  function KeyList(es: seq<(Value, Value)>): (r: seq<Value>)
    ensures |r| == |es| && forall i :: 0 <= i < |es| ==> r[i] == es[i].0
  {
    seq(|es|, i requires 0 <= i < |es| => es[i].0)
  }

  /** What `for x in v` visits. */
  function Iterate(v: Value): Outcome<seq<Value>>
  {
    match v
    case List(xs) => Done(xs)
    case Set(xs) => Done(xs)
    case Str(s) => Done(Chars(s))
    case Dict(es) => Done(KeyList(es))
    case Path(_, _) | Opaque(_) => Unmodelled
    case _ => Raise(TypeError)
  }

  /** The integer Python's `int()` takes from a bool or an integer, if `v` is one. */
  function IntegerOf(v: Value): Option<int>
  {
    match v
    case Bool(b) => Some(if b then 1 else 0)
    case Int(i) => Some(i)
    case Long(i) => Some(i)
    case _ => None
  }

  /** Checks shared by `int()`, `long()` and `float()` for an argument that is not numeric. */
  function NonNumeric<T>(v: Value): Outcome<T>
  {
    match v
    case Str(_) | Opaque(_) => Unmodelled     // string parsing, `__int__`/`__float__` of unknown classes
    case _ => Raise(TypeError)
  }

  /** `int(v)`; no narrowing to 32 bits takes place. */
  function ToInt(v: Value): (r: Outcome<Value>)
    ensures IntegerOf(v).Some? ==> r == Done(Int(IntegerOf(v).value))
    ensures v.Null? || IsContainer(v) ==> r == Raise(TypeError)
  {
    match IntegerOf(v)
    case Some(i) => Done(Int(i))
    case None => if v.Float? then Unmodelled else NonNumeric(v)
  }

  /** `long(v)`, with `long` the subclass of `int` that gremlin_python.statics defines. */
  function ToLong(v: Value): (r: Outcome<Value>)
    ensures IntegerOf(v).Some? ==> r == Done(Long(IntegerOf(v).value))
    ensures v.Null? || IsContainer(v) ==> r == Raise(TypeError)
  {
    match IntegerOf(v)
    case Some(i) => Done(Long(i))
    case None => if v.Float? then Unmodelled else NonNumeric(v)
  }

  /** `float(v)`: a float is returned as it is; converting anything else is not modelled. */
  function ToFloat(v: Value): (r: Outcome<Value>)
    ensures v.Float? ==> r == Done(v)
    ensures v.Null? || IsContainer(v) ==> r == Raise(TypeError)
  {
    match v
    case Float(_) => Done(v)
    case Bool(_) | Int(_) | Long(_) => Unmodelled
    case _ => NonNumeric(v)
  }
}
