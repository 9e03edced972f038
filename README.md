# GraphSON codec of gremlin-python, modelled in Dafny

This project models `gremlin_python/structure/io/graphson.py`, the GraphSON codec of the
Gremlin Python driver, and proves properties of the model.

- `GraphSONIO.toDict` encodes a Python object as GraphSON. The first registered serializer
  whose type the object is an instance of encodes it. Lists, sets and dicts are encoded
  element by element. Anything else is returned as it is.
- `GraphSONIO.toObject` decodes. A dict whose `"@type"` names a registered deserializer is
  handed, with its `"@value"`, to that deserializer. Any KeyError raised in that attempt
  makes the dict decode entry by entry instead. Lists decode element by element.
- `typedValue` builds the `{"@type": "g:Name", "@value": v}` envelope.
- `unmangleKeyword` and `symbolMap` strip the `_` that Python keywords such as `global_`
  carry.

The model is organised as follows.

- `wrappers.dfy`: `Option`.
- `dicts.dfy`: a Python dict as the sequence of its entries in insertion order, as Python 3.7 and later iterate it. It covers
  `d.get`, `d[k] = v` and `d.update(m)`, with their laws. Order matters to the codec: the
  serializer dict is searched in insertion order, and envelopes list `"@type"` first.
- `python.dfy`: one `Value` datatype for every Python object the codec sees. This includes
  JSON values and the domain classes, each with the attributes the codec reads. It also has
  `isinstance` over a class hierarchy (`bool` and `long` are subclasses of `int`), hashing,
  item access, attribute access, iteration, and `int()`, `long()` and `float()`. Every
  evaluation gives an `Outcome`: it returns a value, it raises an exception, or it does
  something the model does not determine (`Unmodelled`).
- `registry.dfy`: the module-level `_serializers` and `_deserializers` dicts that the
  metaclass fills as the classes are defined. The registration of one class is `d[k] = v`
  under its `python_type` and its `graphson_type`. The two default dicts are stated
  explicitly and proved equal to the result of registering the sixteen classes one at a
  time in definition order, entry order included. It follows from that registration that
  DoubleIO, defined right after FloatIO, replaces it under `float` in FloatIO's position.
  The dicts are also proved consistent with each class's `python_type` and `graphson_type`.
- `graphson.dfy`: the session class `GraphSONIO` and its two fields, which are the
  session's own copies of the two dicts. The constructor, the serializer search of
  `toDict`, `_dictify_instructions` and its loop over an instruction's arguments are
  methods with loops. `typedValue` and `_BytecodeSerializer.dictify` are methods without
  loops. Each method is proved equal to a function of the model: the constructor to
  `Update(DefaultSerializers(), …)` and `DefaultDeserializers() + …`, `TypedValue` to
  `Envelope`, `FindSerializer` to `FirstMatch`, `DictifyInstructions` and `DictifyArgs` to
  `EncodedInstructions` and `EncodedArgs`, and `DictifyBytecode` to `BytecodeDictify`.
  `toDict`, `toObject` and the `dictify`/`objectify` of each codec class are functions.
- `codec_laws.dfy`: the dispatch of the default session; container encoding and decoding;
  passthrough; the number codecs; and the round trip `toObject(toDict(v)) == v` for every
  plain value.
- `encoder_laws.dfy`: `unmangleKeyword`, and what each serializer produces.
- `decoder_laws.dfy`: when the `try` of `toObject` falls back, and what each structure
  deserializer builds from its payload, error cases included.

## Model

| member | source | states |
|---|---|---|
| Dicts.Get | gremlin-python/src/main/jython/gremlin_python/structure/io/graphson.py:291 | `d.get(k)` finds a value exactly when `k` is a key of `d` |
| Dicts.IndexOf | gremlin-python/src/main/jython/gremlin_python/structure/io/graphson.py:84 | the position of a key is at its first occurrence, no earlier entry has it, and it is in range exactly when the key is present |
| Dicts.Put | gremlin-python/src/main/jython/gremlin_python/structure/io/graphson.py:48 | `d[k] = v` keeps every key's position, appends a new key at the end, and afterwards `k` maps to `v` |
| Dicts.PutFresh | gremlin-python/src/main/jython/gremlin_python/structure/io/graphson.py:48 | `d[k] = v` for a new key appends the entry at the end |
| Dicts.PutPresent | gremlin-python/src/main/jython/gremlin_python/structure/io/graphson.py:48 | `d[k] = v` for a present key replaces its entry in place |
| Dicts.IndexOfUnique | gremlin-python/src/main/jython/gremlin_python/structure/io/graphson.py:84 | a key's position is determined by the keys before it |
| Dicts.GetOfDistinct | gremlin-python/src/main/jython/gremlin_python/structure/io/graphson.py:101 | in a dict without repeated keys each entry is what its key maps to |
| Dicts.KeysOfPut | gremlin-python/src/main/jython/gremlin_python/structure/io/graphson.py:48 | after `d[k] = v` the keys are the old keys plus `k` |
| Dicts.GetOfPut | gremlin-python/src/main/jython/gremlin_python/structure/io/graphson.py:48 | `d[k] = v` leaves the value of every other key unchanged |
| Dicts.DistinctKeysOfPut | gremlin-python/src/main/jython/gremlin_python/structure/io/graphson.py:48 | `d[k] = v` never repeats a key |
| Dicts.Update | gremlin-python/src/main/jython/gremlin_python/structure/io/graphson.py:66 | `d.update(m)` keeps every key of `d` in its position |
| Dicts.KeysOfUpdate | gremlin-python/src/main/jython/gremlin_python/structure/io/graphson.py:66 | the keys after `d.update(m)` are those of `d` and of `m` |
| Dicts.UpdateKeeps | gremlin-python/src/main/jython/gremlin_python/structure/io/graphson.py:64-66 | `d.update(m)` leaves the value of every key `m` does not mention |
| Dicts.UpdateOverrides | gremlin-python/src/main/jython/gremlin_python/structure/io/graphson.py:64-66 | after `d.update(m)` every key of `m` has the value `m` gives it: a caller's serializer replaces the default one |
| Dicts.UpdateFresh | gremlin-python/src/main/jython/gremlin_python/structure/io/graphson.py:91 | updating with entries whose keys are all new appends them in order |
| Python.CheckHashable | gremlin-python/src/main/jython/gremlin_python/structure/io/graphson.py:91 | hashing raises TypeError exactly for dicts, lists and sets; None, booleans, numbers, strings and enum members hash and are returned unchanged |
| Python.Subscript | gremlin-python/src/main/jython/gremlin_python/structure/io/graphson.py:101 | on a dict holding the key, `d[key]` returns its value; it raises KeyError exactly when `d` is a dict without the key, and TypeError on a value that is neither a dict nor a domain object defining item access |
| Python.GetOr | gremlin-python/src/main/jython/gremlin_python/structure/io/graphson.py:291 | `d.get(key, default)` on a dict returns the stored value, or the default when the key is absent |
| Python.ToInt | gremlin-python/src/main/jython/gremlin_python/structure/io/graphson.py:259-260 | `int(v)` of a bool or an integer is that integer, unbounded; of None or a container it raises TypeError |
| Python.ToLong | gremlin-python/src/main/jython/gremlin_python/structure/io/graphson.py:259-260 | `long(v)` of a bool or an integer is that integer as a long; of None or a container it raises TypeError |
| Python.ToFloat | gremlin-python/src/main/jython/gremlin_python/structure/io/graphson.py:259-260 | `float(v)` of a float is that float; of None or a container it raises TypeError |
| Python.Chars | gremlin-python/src/main/jython/gremlin_python/structure/io/graphson.py:327 | iterating over a string yields its one-character strings, in order |
| Python.KeyList | gremlin-python/src/main/jython/gremlin_python/structure/io/graphson.py:328 | iterating over a dict yields its keys, in insertion order |
| Registry.PositionInOrder | gremlin-python/src/main/jython/gremlin_python/structure/io/graphson.py:161-329 | in the definition order each class appears exactly once, at its position |
| Registry.DefinitionOrderUnique | gremlin-python/src/main/jython/gremlin_python/structure/io/graphson.py:161-329 | exactly one sequence lists the classes in definition order |
| Registry.DefaultSerializersByRegistration | gremlin-python/src/main/jython/gremlin_python/structure/io/graphson.py:43-51 | registering the classes one at a time in definition order yields exactly the default serializer dict, entry order included |
| Registry.RegisterFreshType | gremlin-python/src/main/jython/gremlin_python/structure/io/graphson.py:47-48 | defining a class whose `python_type` is not yet registered appends its entry at the end |
| Registry.RegisterReplacesType | gremlin-python/src/main/jython/gremlin_python/structure/io/graphson.py:47-48 | a second class registering the same `python_type` replaces the first one's entry in place |
| Registry.RegisterUntypedUnits | gremlin-python/src/main/jython/gremlin_python/structure/io/graphson.py:47 | classes without a `python_type` leave the serializer dict unchanged |
| Registry.RegisterTraversalUnits | gremlin-python/src/main/jython/gremlin_python/structure/io/graphson.py:161-189 | the traversal, bytecode, strategy and traverser classes enter the first four entries, in that order |
| Registry.RegisterArgumentUnits | gremlin-python/src/main/jython/gremlin_python/structure/io/graphson.py:192-219 | the enum, predicate and binding serializers enter the next three |
| Registry.RegisterFloatUnits | gremlin-python/src/main/jython/gremlin_python/structure/io/graphson.py:263-271 | FloatIO first enters `float`, and DoubleIO, defined next, replaces it in that position |
| Registry.RegisterIntegerUnits | gremlin-python/src/main/jython/gremlin_python/structure/io/graphson.py:274-283 | Int64IO and Int32IO then enter `long` and `int`, in that order, after `float` |
| Registry.RegisterStructureUnits | gremlin-python/src/main/jython/gremlin_python/structure/io/graphson.py:286-329 | the structure deserializers, defined last, leave the serializer dict as it is |
| Registry.DefaultDeserializersByRegistration | gremlin-python/src/main/jython/gremlin_python/structure/io/graphson.py:43-51 | registering the classes in definition order yields exactly the default deserializer dict |
| Registry.DeserializerAdded | gremlin-python/src/main/jython/gremlin_python/structure/io/graphson.py:49-50 | a class with a `graphson_type` is entered under that tag |
| Registry.DeserializersUntouched | gremlin-python/src/main/jython/gremlin_python/structure/io/graphson.py:49 | classes without a `graphson_type` leave the deserializer dict unchanged |
| Registry.DefaultSerializersRegistered | gremlin-python/src/main/jython/gremlin_python/structure/io/graphson.py:43-51 | the default serializer dict repeats no type. Every entry is a class under its own `python_type`. Every public class's `python_type` is entered, under that class or a later one |
| Registry.SerializerTypesDistinct | gremlin-python/src/main/jython/gremlin_python/structure/io/graphson.py:48 | no Python type is registered twice |
| Registry.SerializerEntriesOwnType | gremlin-python/src/main/jython/gremlin_python/structure/io/graphson.py:48 | every serializer entry is a class under its own `python_type` |
| Registry.SerializerCoversClasses | gremlin-python/src/main/jython/gremlin_python/structure/io/graphson.py:46-48 | every class with a `python_type` is entered under it, by itself or by a class defined after it |
| Registry.DoubleIOEncodesFloats | gremlin-python/src/main/jython/gremlin_python/structure/io/graphson.py:263-271 | DoubleIO, defined after FloatIO and inheriting its `python_type`, is the serializer for `float` |
| Registry.DefaultDeserializersRegistered | gremlin-python/src/main/jython/gremlin_python/structure/io/graphson.py:49-50 | every class with a `graphson_type` is the deserializer for that tag, and every entry is such a class |
| GraphSON.GraphSONIO.constructor | gremlin-python/src/main/jython/gremlin_python/structure/io/graphson.py:59-70 | the session's dicts are copies of the defaults updated with the caller's maps |
| GraphSON.GraphSONIO.TypedValue | gremlin-python/src/main/jython/gremlin_python/structure/io/graphson.py:111-115 | `typedValue` builds the envelope `Envelope` describes |
| GraphSON.EnvelopeSpec | gremlin-python/src/main/jython/gremlin_python/structure/io/graphson.py:111-115 | the envelope has `"@type"` holding `prefix:name`, has `"@value"` exactly when the value is not None, and has no other key |
| GraphSON.FirstMatchIndex | gremlin-python/src/main/jython/gremlin_python/structure/io/graphson.py:84-86 | the serializer search stops within the dict |
| GraphSON.FirstMatchIndexSpec | gremlin-python/src/main/jython/gremlin_python/structure/io/graphson.py:84-86 | the search stops at an entry the object is an instance of, and the object is an instance of none before it |
| GraphSON.FirstMatchIndexUnique | gremlin-python/src/main/jython/gremlin_python/structure/io/graphson.py:84-86 | the chosen entry is determined by the entries before it |
| GraphSON.FirstMatchSpec | gremlin-python/src/main/jython/gremlin_python/structure/io/graphson.py:84-93 | no serializer is found exactly when the object is an instance of no registered type; otherwise the chosen one is the first one that matches |
| GraphSON.GraphSONIO.FindSerializer | gremlin-python/src/main/jython/gremlin_python/structure/io/graphson.py:84-86 | the loop of `toDict` returns the first matching serializer |
| GraphSON.HashAll | gremlin-python/src/main/jython/gremlin_python/structure/io/graphson.py:327 | `set(label)` succeeds exactly when every member hashes, and then holds exactly the members of the list; a container member makes it fail |
| GraphSON.LabelSets | gremlin-python/src/main/jython/gremlin_python/structure/io/graphson.py:327 | the label sets are built exactly when every label iterates and all its members hash, and then there is one set per label, each made by `set()` of what that label iterates over |
| GraphSON.GraphSONIO.DictifyArgs | gremlin-python/src/main/jython/gremlin_python/structure/io/graphson.py:145 | the loop over an instruction's arguments passes each through `toDict` and stops at the first failure |
| GraphSON.GraphSONIO.DictifyInstructions | gremlin-python/src/main/jython/gremlin_python/structure/io/graphson.py:141-147 | the loop of `_dictify_instructions` gives the encoded instruction lists |
| GraphSON.GraphSONIO.ArgStep | gremlin-python/src/main/jython/gremlin_python/structure/io/graphson.py:145 | one iteration of the argument loop extends what was collected by one encoded argument, or fails as `toDict` does |
| GraphSON.GraphSONIO.InstructionStep | gremlin-python/src/main/jython/gremlin_python/structure/io/graphson.py:143-146 | one iteration of the instruction loop appends `[op] + encoded args`, or fails as the arguments do |
| GraphSON.GraphSONIO.DictifyBytecode | gremlin-python/src/main/jython/gremlin_python/structure/io/graphson.py:150-158 | `_BytecodeSerializer.dictify` as written, inserting `"source"` and then `"step"`, agrees with the `toDict` model |
| GraphSON.GraphSONIO.ToObject | gremlin-python/src/main/jython/gremlin_python/structure/io/graphson.py:95-109 | `toObject` never raises KeyError: every KeyError is caught by its `try` |
| GraphSON.GraphSONIO.ToObjectEntries | gremlin-python/src/main/jython/gremlin_python/structure/io/graphson.py:105 | decoding a dict entry by entry never raises KeyError |
| GraphSON.GraphSONIO.ToObjectItems | gremlin-python/src/main/jython/gremlin_python/structure/io/graphson.py:107 | decoding a list element by element never raises KeyError |
| GraphSON.GraphSONIO.ToObjectKeys | gremlin-python/src/main/jython/gremlin_python/structure/io/graphson.py:328 | decoding the keys a dict iterates over never raises KeyError |
| CodecLaws.DefaultDispatch | gremlin-python/src/main/jython/gremlin_python/structure/io/graphson.py:84-93 | in the default session, a long goes to Int64IO although it is an int, a bool to Int32IO, a float to DoubleIO, each domain class to its serializer, and strings, None, containers and graph elements to none |
| CodecLaws.DispatchTraversal | gremlin-python/src/main/jython/gremlin_python/structure/io/graphson.py:161-189 | traversals, bytecode, strategies and traversers go to their own serializers |
| CodecLaws.DispatchArgument | gremlin-python/src/main/jython/gremlin_python/structure/io/graphson.py:192-219 | enums, predicates and bindings go to their own serializers |
| CodecLaws.DispatchNumber | gremlin-python/src/main/jython/gremlin_python/structure/io/graphson.py:263-283 | floats, longs, bools and ints go to the number serializer the dict order selects |
| CodecLaws.UnboundDictify | gremlin-python/src/main/jython/gremlin_python/structure/io/graphson.py:131-132 | a class with no `python_type` defines no `dictify`; called on the class from a caller's serializer map it raises TypeError |
| CodecLaws.UnboundObjectify | gremlin-python/src/main/jython/gremlin_python/structure/io/graphson.py:134-135 | a class with no `graphson_type` defines no `objectify`; called on the class from a caller's deserializer map it raises TypeError |
| CodecLaws.EncodeItemsDone | gremlin-python/src/main/jython/gremlin_python/structure/io/graphson.py:88-89 | encoding a list or set succeeds exactly when every element encodes |
| CodecLaws.EncodeItems | gremlin-python/src/main/jython/gremlin_python/structure/io/graphson.py:88-89 | an encoded list has one element per element, each encoded, in order |
| CodecLaws.DecodeItemsDone | gremlin-python/src/main/jython/gremlin_python/structure/io/graphson.py:106-107 | decoding a list succeeds exactly when every element decodes |
| CodecLaws.DecodeItems | gremlin-python/src/main/jython/gremlin_python/structure/io/graphson.py:106-107 | a decoded list has one element per element, each decoded, in order |
| CodecLaws.EncodedEntryAt | gremlin-python/src/main/jython/gremlin_python/structure/io/graphson.py:90-91 | when a dict encodes, each entry's key and value encode and the encoded key hashes |
| CodecLaws.EncodeEntriesSucceed | gremlin-python/src/main/jython/gremlin_python/structure/io/graphson.py:90-91 | a dict encodes when every entry does |
| CodecLaws.EncodeEntriesDone | gremlin-python/src/main/jython/gremlin_python/structure/io/graphson.py:90-91 | a dict encodes exactly when every key and value encodes and every encoded key hashes |
| CodecLaws.EncodeEntries | gremlin-python/src/main/jython/gremlin_python/structure/io/graphson.py:90-91 | the encoded dict inserts the encoded pairs in order, a later equal key replacing an earlier one's value |
| CodecLaws.DecodeEntries | gremlin-python/src/main/jython/gremlin_python/structure/io/graphson.py:105 | the decoded dict inserts the decoded pairs in order |
| CodecLaws.EncodePassthrough | gremlin-python/src/main/jython/gremlin_python/structure/io/graphson.py:92-93 | an object no serializer claims that is not a container is returned as it is |
| CodecLaws.DecodePassthrough | gremlin-python/src/main/jython/gremlin_python/structure/io/graphson.py:108-109 | anything but a dict or a list is decoded as itself |
| CodecLaws.DecodeEnvelope | gremlin-python/src/main/jython/gremlin_python/structure/io/graphson.py:99-101 | an envelope whose tag is registered decodes through that deserializer, unless it raises KeyError |
| CodecLaws.Int32RoundTrip | gremlin-python/src/main/jython/gremlin_python/structure/io/graphson.py:253-260 | an int encodes as `g:Int32` with the number unencoded, and decodes back to itself |
| CodecLaws.Int64RoundTrip | gremlin-python/src/main/jython/gremlin_python/structure/io/graphson.py:253-260 | a long encodes as `g:Int64` and decodes back to the long |
| CodecLaws.DoubleRoundTrip | gremlin-python/src/main/jython/gremlin_python/structure/io/graphson.py:253-271 | a float encodes as `g:Double` and decodes back to itself |
| CodecLaws.BoolBypass | gremlin-python/src/main/jython/gremlin_python/structure/io/graphson.py:253-255 | a bool goes to Int32IO, which returns it without an envelope, and it decodes as itself |
| CodecLaws.RoundTrip | gremlin-python/src/main/jython/gremlin_python/structure/io/graphson.py:80-109 | `toObject(toDict(v)) == v` in a default session for every plain value: None, bools, numbers, strings, and lists, traversers and string-keyed dicts of them |
| CodecLaws.RoundTripScalar | gremlin-python/src/main/jython/gremlin_python/structure/io/graphson.py:253-260 | the round trip for None, bools, numbers and strings |
| CodecLaws.RoundTripList | gremlin-python/src/main/jython/gremlin_python/structure/io/graphson.py:88-89 | the round trip for a list of plain values |
| CodecLaws.EncodeList | gremlin-python/src/main/jython/gremlin_python/structure/io/graphson.py:88-89 | a list no serializer claims encodes to a list of the same length, each element encoded |
| CodecLaws.EncodeSet | gremlin-python/src/main/jython/gremlin_python/structure/io/graphson.py:88-89 | a set no serializer claims encodes to a list of its encoded elements, in iteration order |
| CodecLaws.DecodeList | gremlin-python/src/main/jython/gremlin_python/structure/io/graphson.py:106-107 | a list whose elements decode to `xs` decodes to `xs` |
| CodecLaws.ListRoundTrip | gremlin-python/src/main/jython/gremlin_python/structure/io/graphson.py:88-107 | a list survives the round trip when each of its elements does |
| CodecLaws.RoundTripTraverser | gremlin-python/src/main/jython/gremlin_python/structure/io/graphson.py:182-189 | a traverser of plain values survives the round trip |
| CodecLaws.EncodeTraverser | gremlin-python/src/main/jython/gremlin_python/structure/io/graphson.py:182-184 | a traverser encodes to `g:Traverser` with `"value"` and `"bulk"` encoded |
| CodecLaws.DecodeTraverser | gremlin-python/src/main/jython/gremlin_python/structure/io/graphson.py:187-189 | a `g:Traverser` envelope decodes to the traverser of its decoded value and bulk |
| CodecLaws.TraverserPayload | gremlin-python/src/main/jython/gremlin_python/structure/io/graphson.py:187-189 | `TraverserIO.objectify` decodes both fields of its payload |
| CodecLaws.RoundTripDict | gremlin-python/src/main/jython/gremlin_python/structure/io/graphson.py:90-105 | a dict with distinct string keys, none `"@type"`, of plain values survives the round trip |
| CodecLaws.EncodeStringKeyed | gremlin-python/src/main/jython/gremlin_python/structure/io/graphson.py:90-91 | a string-keyed dict encodes to the same keys with the encoded values, in order |
| CodecLaws.DecodeStringKeyed | gremlin-python/src/main/jython/gremlin_python/structure/io/graphson.py:99-105 | a string-keyed dict without `"@type"` falls through the `try` and decodes to the same keys with the decoded values |
| EncoderLaws.SymbolMapShape | gremlin-python/src/main/jython/gremlin_python/structure/io/graphson.py:123-125 | every key of `symbolMap` is a name with one trailing underscore, and maps to that name without it |
| EncoderLaws.UnmangleTable | gremlin-python/src/main/jython/gremlin_python/structure/io/graphson.py:128-129 | `unmangleKeyword` strips the underscore from the table's keywords and returns every other symbol unchanged |
| EncoderLaws.UnmangleIdempotent | gremlin-python/src/main/jython/gremlin_python/structure/io/graphson.py:123-129 | unmangling twice is unmangling once |
| EncoderLaws.EncodeEnum | gremlin-python/src/main/jython/gremlin_python/structure/io/graphson.py:196-198 | an enum member is tagged with its unmangled class name and carries its unmangled name |
| EncoderLaws.EncodeKeywordEnum | gremlin-python/src/main/jython/gremlin_python/structure/io/graphson.py:196-198 | `Scope.global_` encodes as `{"@type": "g:Scope", "@value": "global"}` |
| EncoderLaws.EncodeP | gremlin-python/src/main/jython/gremlin_python/structure/io/graphson.py:205-209 | a predicate carries its operator as it is, and as `"value"` the list of both encoded operands exactly when `other` is not None, else the one encoded operand |
| EncoderLaws.EncodeBinding | gremlin-python/src/main/jython/gremlin_python/structure/io/graphson.py:216-219 | a binding carries its key as it is and its value encoded |
| EncoderLaws.EncodeStrategy | gremlin-python/src/main/jython/gremlin_python/structure/io/graphson.py:173-174 | a strategy encodes to exactly the envelope tagged with its own name around its encoded configuration, whose `@value` is left out when that encodes to None |
| EncoderLaws.ArgsCons | gremlin-python/src/main/jython/gremlin_python/structure/io/graphson.py:145 | the encoded arguments are the first one encoded, then the rest |
| EncoderLaws.EncodedArgsLength | gremlin-python/src/main/jython/gremlin_python/structure/io/graphson.py:145 | one encoded argument per argument |
| EncoderLaws.EncodedArgAt | gremlin-python/src/main/jython/gremlin_python/structure/io/graphson.py:145 | each encoded argument is that argument through `toDict` |
| EncoderLaws.EncodedArgsShape | gremlin-python/src/main/jython/gremlin_python/structure/io/graphson.py:145 | the arguments are encoded one for one, in order |
| EncoderLaws.InstructionsCons | gremlin-python/src/main/jython/gremlin_python/structure/io/graphson.py:143-146 | the encoded instructions are the first one encoded, then the rest |
| EncoderLaws.EncodedInstructionsLength | gremlin-python/src/main/jython/gremlin_python/structure/io/graphson.py:141-147 | one encoded list per instruction |
| EncoderLaws.EncodedInstructionAt | gremlin-python/src/main/jython/gremlin_python/structure/io/graphson.py:143-146 | each encoded instruction is its operator followed by its encoded arguments |
| EncoderLaws.EncodedInstructionsShape | gremlin-python/src/main/jython/gremlin_python/structure/io/graphson.py:141-147 | `_dictify_instructions` keeps the number and order of the instructions, each the list of its operator, as it is, and its encoded arguments |
| EncoderLaws.InstructionEncoding | gremlin-python/src/main/jython/gremlin_python/structure/io/graphson.py:144-145 | instruction `k` becomes a list with its operator at index 0 and argument `a` encoded at index `1 + a` |
| EncoderLaws.BytecodePayloadKeys | gremlin-python/src/main/jython/gremlin_python/structure/io/graphson.py:153-157 | the payload has `"source"` exactly when there are source instructions and `"step"` exactly when there are step instructions, each holding its list |
| EncoderLaws.BytecodeEnvelope | gremlin-python/src/main/jython/gremlin_python/structure/io/graphson.py:158 | encoded bytecode is tagged `g:Bytecode` and carries the payload |
| EncoderLaws.EncodeBytecode | gremlin-python/src/main/jython/gremlin_python/structure/io/graphson.py:150-158 | bytecode encodes exactly when each nonempty instruction list encodes, and then to the `g:Bytecode` envelope of its payload |
| EncoderLaws.EncodeEmptyBytecode | gremlin-python/src/main/jython/gremlin_python/structure/io/graphson.py:153-158 | bytecode without instructions encodes as `{"@type": "g:Bytecode", "@value": {}}` |
| EncoderLaws.EncodeTraversal | gremlin-python/src/main/jython/gremlin_python/structure/io/graphson.py:151-152 | a traversal encodes as its bytecode |
| EncoderLaws.EncodeIntKeyRaises | gremlin-python/src/main/jython/gremlin_python/structure/io/graphson.py:90-91 | a dict with an int key cannot be encoded: the key becomes an envelope, an unhashable dict, and Python raises TypeError |
| DecoderLaws.DeserializeKeyError | gremlin-python/src/main/jython/gremlin_python/structure/io/graphson.py:100-103 | the `try` raises KeyError exactly when `"@type"` is missing, the tag is not registered, `"@value"` is missing, or the deserializer raises KeyError |
| DecoderLaws.DecodeFallback | gremlin-python/src/main/jython/gremlin_python/structure/io/graphson.py:100-105 | a dict the `try` gives up on decodes entry by entry into the dict of the decoded pairs |
| DecoderLaws.DecodeUnknownTag | gremlin-python/src/main/jython/gremlin_python/structure/io/graphson.py:100-105 | an envelope with an unregistered tag comes back as the plain dict it is |
| DecoderLaws.VertexDecoding | gremlin-python/src/main/jython/gremlin_python/structure/io/graphson.py:290-291 | KeyError exactly when `"id"` is missing; success exactly when the id decodes; the label is kept as it is and defaults to `""` |
| DecoderLaws.EdgeKeyError | gremlin-python/src/main/jython/gremlin_python/structure/io/graphson.py:298-302 | KeyError exactly when the first missing one of `"id"`, `"outV"`, `"inV"` comes after fields that all decoded |
| DecoderLaws.EdgeDecoding | gremlin-python/src/main/jython/gremlin_python/structure/io/graphson.py:298-302 | an edge decodes exactly when its three endpoint fields are present and decode; its ends are unlabelled vertices and its label defaults to `"vertex"` |
| DecoderLaws.VertexPropertyDecoding | gremlin-python/src/main/jython/gremlin_python/structure/io/graphson.py:309-311 | `"id"`, `"label"` and `"value"` are required; the id and value are decoded and the label is kept as it is |
| DecoderLaws.PropertyDecoding | gremlin-python/src/main/jython/gremlin_python/structure/io/graphson.py:318-319 | `"key"` and `"value"` are required; only the value is decoded |
| DecoderLaws.PathDecoding | gremlin-python/src/main/jython/gremlin_python/structure/io/graphson.py:326-329 | a path decodes exactly when its label lists hash and its objects decode. It has one label set per label list, holding that list's members, and the decoded objects, in order |
| DecoderLaws.ExampleLabelSets | gremlin-python/src/main/jython/gremlin_python/structure/io/graphson.py:327 | the labels `[[], ["a"]]` become the sets `{}` and `{"a"}` |
| DecoderLaws.ExampleObjects | gremlin-python/src/main/jython/gremlin_python/structure/io/graphson.py:328 | the objects `[1, 2]` decode to `[1, 2]` |
| DecoderLaws.ExamplePath | gremlin-python/src/main/jython/gremlin_python/structure/io/graphson.py:326-329 | `PathDeserializer.objectify` of those labels and objects |
| DecoderLaws.DecodePathExample | gremlin-python/src/main/jython/gremlin_python/structure/io/graphson.py:322-329 | a `g:Path` envelope decodes to that path |
| DecoderLaws.DecodeVertexEnvelope | gremlin-python/src/main/jython/gremlin_python/structure/io/graphson.py:286-291 | a `g:Vertex` envelope with an id and a label decodes to the vertex of the decoded id and that label |
| DecoderLaws.VertexRoundTrip | gremlin-python/src/main/jython/gremlin_python/structure/io/graphson.py:286-291 | a vertex whose id is plain comes back from its envelope, with the id encoded by `toDict` |

## Definitions

The functions that model the source's code directly, and the lemmas that state their properties.

| definition | source | properties in |
|---|---|---|
| GraphSON.SymbolMap | gremlin-python/src/main/jython/gremlin_python/structure/io/graphson.py:123-125 | EncoderLaws.SymbolMapShape |
| GraphSON.Unmangle | gremlin-python/src/main/jython/gremlin_python/structure/io/graphson.py:128-129 | EncoderLaws.UnmangleTable, EncoderLaws.UnmangleIdempotent |
| GraphSON.Envelope | gremlin-python/src/main/jython/gremlin_python/structure/io/graphson.py:111-115 | GraphSON.EnvelopeSpec |
| GraphSON.FirstMatch | gremlin-python/src/main/jython/gremlin_python/structure/io/graphson.py:84-86 | GraphSON.FirstMatchSpec, CodecLaws.DefaultDispatch |
| GraphSON.NumberDictify | gremlin-python/src/main/jython/gremlin_python/structure/io/graphson.py:253-256 | CodecLaws.Int32RoundTrip, CodecLaws.Int64RoundTrip, CodecLaws.DoubleRoundTrip, CodecLaws.BoolBypass |
| GraphSON.EnumDictify | gremlin-python/src/main/jython/gremlin_python/structure/io/graphson.py:196-198 | EncoderLaws.EncodeEnum, EncoderLaws.EncodeKeywordEnum |
| GraphSON.Instructions | gremlin-python/src/main/jython/gremlin_python/structure/io/graphson.py:151-157 | EncoderLaws.EncodeBytecode |
| GraphSON.BytecodePayload | gremlin-python/src/main/jython/gremlin_python/structure/io/graphson.py:153-157 | EncoderLaws.BytecodePayloadKeys |
| GraphSON.GraphSONIO.ToDict | gremlin-python/src/main/jython/gremlin_python/structure/io/graphson.py:80-93 | CodecLaws.RoundTrip, CodecLaws.EncodeList, CodecLaws.EncodePassthrough |
| GraphSON.GraphSONIO.ToDictItems | gremlin-python/src/main/jython/gremlin_python/structure/io/graphson.py:88-89 | CodecLaws.EncodeItemsDone, CodecLaws.EncodeItems |
| GraphSON.GraphSONIO.ToDictEntries | gremlin-python/src/main/jython/gremlin_python/structure/io/graphson.py:90-91 | CodecLaws.EncodeEntriesDone, CodecLaws.EncodeEntries |
| GraphSON.GraphSONIO.Dictify | gremlin-python/src/main/jython/gremlin_python/structure/io/graphson.py:86 | CodecLaws.DefaultDispatch, CodecLaws.UnboundDictify |
| GraphSON.GraphSONIO.BytecodeDictify | gremlin-python/src/main/jython/gremlin_python/structure/io/graphson.py:150-158 | EncoderLaws.EncodeBytecode, EncoderLaws.EncodeTraversal |
| GraphSON.GraphSONIO.EncodedInstructions | gremlin-python/src/main/jython/gremlin_python/structure/io/graphson.py:141-147 | EncoderLaws.EncodedInstructionsShape |
| GraphSON.GraphSONIO.EncodedArgs | gremlin-python/src/main/jython/gremlin_python/structure/io/graphson.py:145 | EncoderLaws.EncodedArgsShape |
| GraphSON.GraphSONIO.StrategyDictify | gremlin-python/src/main/jython/gremlin_python/structure/io/graphson.py:173-174 | EncoderLaws.EncodeStrategy |
| GraphSON.GraphSONIO.TraverserDictify | gremlin-python/src/main/jython/gremlin_python/structure/io/graphson.py:182-184 | CodecLaws.EncodeTraverser |
| GraphSON.GraphSONIO.PDictify | gremlin-python/src/main/jython/gremlin_python/structure/io/graphson.py:205-209 | EncoderLaws.EncodeP |
| GraphSON.GraphSONIO.BindingDictify | gremlin-python/src/main/jython/gremlin_python/structure/io/graphson.py:216-219 | EncoderLaws.EncodeBinding |
| GraphSON.GraphSONIO.Deserialize | gremlin-python/src/main/jython/gremlin_python/structure/io/graphson.py:100-101 | DecoderLaws.DeserializeKeyError, CodecLaws.DecodeEnvelope |
| GraphSON.GraphSONIO.Objectify | gremlin-python/src/main/jython/gremlin_python/structure/io/graphson.py:101 | CodecLaws.DecodeEnvelope, CodecLaws.UnboundObjectify |
| GraphSON.GraphSONIO.TraverserObjectify | gremlin-python/src/main/jython/gremlin_python/structure/io/graphson.py:187-189 | CodecLaws.DecodeTraverser |
| GraphSON.GraphSONIO.VertexObjectify | gremlin-python/src/main/jython/gremlin_python/structure/io/graphson.py:290-291 | DecoderLaws.VertexDecoding |
| GraphSON.GraphSONIO.EdgeObjectify | gremlin-python/src/main/jython/gremlin_python/structure/io/graphson.py:298-302 | DecoderLaws.EdgeKeyError, DecoderLaws.EdgeDecoding |
| GraphSON.GraphSONIO.VertexPropertyObjectify | gremlin-python/src/main/jython/gremlin_python/structure/io/graphson.py:309-311 | DecoderLaws.VertexPropertyDecoding |
| GraphSON.GraphSONIO.PropertyObjectify | gremlin-python/src/main/jython/gremlin_python/structure/io/graphson.py:318-319 | DecoderLaws.PropertyDecoding |
| GraphSON.GraphSONIO.PathObjectify | gremlin-python/src/main/jython/gremlin_python/structure/io/graphson.py:326-329 | DecoderLaws.PathDecoding |
| GraphSON.GraphSONIO.PathObjects | gremlin-python/src/main/jython/gremlin_python/structure/io/graphson.py:328 | DecoderLaws.PathDecoding |
| Python.IsInstance | gremlin-python/src/main/jython/gremlin_python/structure/io/graphson.py:85 | GraphSON.FirstMatchIndexSpec, CodecLaws.DefaultDispatch |
| Python.Attr | gremlin-python/src/main/jython/gremlin_python/structure/io/graphson.py:150-219 | EncoderLaws.EncodeStrategy, EncoderLaws.EncodeP, EncoderLaws.EncodeBinding |
| Python.Iterate | gremlin-python/src/main/jython/gremlin_python/structure/io/graphson.py:327-328 | GraphSON.HashAll, GraphSON.LabelSets, DecoderLaws.PathDecoding |
| Registry.PythonTypeOf | gremlin-python/src/main/jython/gremlin_python/structure/io/graphson.py:47-48 | Registry.SerializerEntriesOwnType |
| Registry.GraphsonTypeOf | gremlin-python/src/main/jython/gremlin_python/structure/io/graphson.py:49-50 | Registry.DefaultDeserializersRegistered |
| Registry.DefaultSerializers | gremlin-python/src/main/jython/gremlin_python/structure/io/graphson.py:43-51 | Registry.DefaultSerializersByRegistration |
| Registry.DefaultDeserializers | gremlin-python/src/main/jython/gremlin_python/structure/io/graphson.py:43-51 | Registry.DefaultDeserializersByRegistration |
| Registry.RegisterSerializer | gremlin-python/src/main/jython/gremlin_python/structure/io/graphson.py:47-48 | Registry.RegisterFreshType, Registry.RegisterReplacesType |
| Registry.SerializersAfter | gremlin-python/src/main/jython/gremlin_python/structure/io/graphson.py:43-51 | Registry.DefaultSerializersByRegistration |
| Registry.RegisterDeserializer | gremlin-python/src/main/jython/gremlin_python/structure/io/graphson.py:49-50 | Registry.DeserializerAdded |
| Registry.DeserializersAfter | gremlin-python/src/main/jython/gremlin_python/structure/io/graphson.py:43-51 | Registry.DefaultDeserializersByRegistration |

## Left out

- `writeObject` and `readObject` are left out. They only add `json.dumps` and `json.loads`, and JSON text is not modelled: the codec works on Python object trees.
- `LambdaSerializer` and `TypeSerializer` are left out. They evaluate Python source text (`eval`) and instantiate classes. No modelled value is a function or a class, so dropping their registry entries does not change dispatch.
- The metaclass `GraphSONTypeType` is modelled by what it does to the two dicts as each class is defined (`Registry.SerializersAfter`, `Registry.DeserializersAfter`), for the modelled classes in their order of definition. The name test on a leading underscore is not modelled: every modelled class is public.
- A caller's serializer and deserializer maps may only name the modelled classes, and deserializer tags are strings. An entry stands for the class itself, as the default registry stores it, so a class without its own `dictify` or `objectify` raises TypeError when called. Instances (which would reach `raise NotImplementedError()` instead) and arbitrary Python objects with `dictify`/`objectify` are not modelled.
- The module imports `Traversal`, `Bytecode`, `P` and the other domain classes from code that is not part of this model. They are modelled as `Value` constructors carrying only the attributes the codec reads. Of these, only enum members are known to be hashable; whether the others hash is `Unmodelled`. Item access and `.get` on a Path (and on an object of a class outside the model) are `Unmodelled`. Item access on any other domain object raises TypeError, and `.get` on one raises AttributeError.
- Bytecode instructions are modelled as an operator name and a list of arguments, which is how `_dictify_instructions` reads `instruction[0]` and `instruction[1:]`.
- Python.ToInt, Python.ToLong, Python.ToFloat: `int()` of a float or a string, `long()` of the same, and `float()` of a bool, an integer or a string are `Unmodelled`. They involve float arithmetic and string parsing. Floats are opaque bit patterns.
- Python's numeric key equality (`1 == True == 1.0` as dict keys) is not modelled: dict keys compare as Dafny values. `Plain` values therefore use string keys.
- Integers are unbounded, as in Python. The source performs no narrowing to 32 or 64 bits, which is why `Int32RoundTrip` holds for every `int`. `long` is the subclass of `int` that the Python 3 branch of `gremlin_python.statics` defines.
- Insertion-ordered dicts: the model assumes Python 3.7 or later, where dicts iterate in insertion order, and the Python 3 branch of `gremlin_python.statics`, where `long` is a subclass of `int`. The source also supports Python 2 through `six`. There the serializer dict's order, and with it `CodecLaws.DefaultDispatch`, `CodecLaws.Int64RoundTrip` and the order stated in `CodecLaws.EncodeEntries`, is not guaranteed.
- Concurrency is not modelled: the registry dicts are filled at import time and copied per session.
