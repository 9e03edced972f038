/**
  The encoders of graphson.py, one lemma per unit: what `toDict` gives for a value its
  serializer claims.  Each lemma assumes only that the session dispatches the value to that
  unit, which the default session does (`CodecLaws.DefaultDispatch`).
 */
module EncoderLaws {
  import opened Wrappers
  import opened Dicts
  import opened Python
  import opened Registry
  import opened GraphSON

  /**
    Every key of `symbolMap` is a name with one trailing underscore, and maps to that name
    without it.
   */
  lemma SymbolMapShape()
    ensures forall k | k in SymbolMap() ::
              |k| >= 2 && k[|k| - 1] == '_' && k[|k| - 2] != '_' && SymbolMap()[k] == k[..|k| - 1]
  {
    forall k | k in SymbolMap()
      ensures |k| >= 2 && k[|k| - 1] == '_' && k[|k| - 2] != '_' && SymbolMap()[k] == k[..|k| - 1]
    {
    }
  }

  /**
    `unmangleKeyword` strips the trailing underscore from the keywords of its table and
    returns every other symbol unchanged.
   */
  lemma UnmangleTable(symbol: string)
    ensures symbol in SymbolMap() ==> Unmangle(symbol) + "_" == symbol
    ensures symbol !in SymbolMap() ==> Unmangle(symbol) == symbol
  {
    SymbolMapShape();
    if symbol in SymbolMap() {
      StripLast(symbol);
    }
  }

  lemma StripLast(s: string)
    requires |s| >= 1
    ensures s[..|s| - 1] + [s[|s| - 1]] == s
  {
  }

  /** No value of the table is itself a key, so unmangling twice is unmangling once. */
  lemma UnmangleIdempotent(symbol: string)
    ensures Unmangle(Unmangle(symbol)) == Unmangle(symbol)
  {
    SymbolMapShape();
  }

  /** `EnumSerializer.dictify`: the unmangled class name is the tag, the unmangled member name the value. */
  lemma EncodeEnum(io: GraphSONIO, enumClass: string, name: string)
    requires FirstMatch(io.serializers, Enum(enumClass, name)) == Some(EnumSerializer)
    ensures io.ToDict(Enum(enumClass, name)) == Done(Envelope(Unmangle(enumClass), Str(Unmangle(name)), "g"))
  {
  }

  /** A keyword member such as `Scope.global_` goes over the wire as `{"@type": "g:Scope", "@value": "global"}`. */
  lemma EncodeKeywordEnum(io: GraphSONIO)
    requires FirstMatch(io.serializers, Enum("Scope", "global_")) == Some(EnumSerializer)
    ensures io.ToDict(Enum("Scope", "global_")) ==
              Done(Dict([(Str("@type"), Str("g:Scope")), (Str("@value"), Str("global"))]))
  {
    var e := Enum("Scope", "global_");
    assert io.ToDict(e) == io.Dictify(EnumSerializer, e) == EnumDictify(e);
    assert Unmangle("Scope") == "Scope" && Unmangle("global_") == "global";
    assert "g" + ":" + "Scope" == "g:Scope";
    assert Envelope("Scope", Str("global"), "g").entries == [(Str("@type"), Str("g:Scope")), (Str("@value"), Str("global"))];
  }

  /**
    `PSerializer.dictify`: `"predicate"` is the operator as it is; `"value"` is the list of the
    two encoded operands exactly when `other` is not None, and the one encoded operand otherwise.
   */
  lemma EncodeP(io: GraphSONIO, operator: string, value: Value, other: Value)
    requires FirstMatch(io.serializers, P(operator, value, other)) == Some(PSerializer)
    requires io.ToDict(value).Done? && (other != Null ==> io.ToDict(other).Done?)
    ensures io.ToDict(P(operator, value, other)) ==
              Done(Envelope("P", Dict([(Str("predicate"), Str(operator)),
                                       (Str("value"), if other != Null then List([io.ToDict(value).value, io.ToDict(other).value])
                                                      else io.ToDict(value).value)]), "g"))
  {
    var p := P(operator, value, other);
    assert io.ToDict(p) == io.PDictify(p);
    assert Attr(p, "operator") == Done(Str(operator)) && Attr(p, "other") == Done(other) && Attr(p, "value") == Done(value);
  }

  /** `BindingSerializer.dictify`: the key as it is, the value encoded. */
  lemma EncodeBinding(io: GraphSONIO, key: Value, value: Value)
    requires FirstMatch(io.serializers, Binding(key, value)) == Some(BindingSerializer)
    requires io.ToDict(value).Done?
    ensures io.ToDict(Binding(key, value)) ==
              Done(Envelope("Binding", Dict([(Str("key"), key), (Str("value"), io.ToDict(value).value)]), "g"))
  {
    var b := Binding(key, value);
    assert io.ToDict(b) == io.BindingDictify(b);
    assert Attr(b, "key") == Done(key) && Attr(b, "value") == Done(value);
  }

  /**
    `TraversalStrategySerializer.dictify`: the strategy's own name is the tag, and the encoded
    configuration the value, which is left out when the configuration encodes to None.
   */
  lemma EncodeStrategy(io: GraphSONIO, name: string, configuration: Value)
    requires FirstMatch(io.serializers, TraversalStrategy(name, configuration)) == Some(TraversalStrategySerializer)
    requires io.ToDict(configuration).Done?
    ensures var r := io.ToDict(TraversalStrategy(name, configuration));
      r.Done? && r.value.Dict? && Get(r.value.entries, Str("@type")) == Some(Str("g:" + name)) &&
      Get(r.value.entries, Str("@value")) == if io.ToDict(configuration).value.Null? then None else Some(io.ToDict(configuration).value)
    ensures io.ToDict(TraversalStrategy(name, configuration)) == Done(Envelope(name, io.ToDict(configuration).value, "g"))
  {
    var s := TraversalStrategy(name, configuration);
    assert io.ToDict(s) == io.StrategyDictify(s);
    assert Attr(s, "strategy_name") == Done(Str(name)) && Attr(s, "configuration") == Done(configuration);
    EnvelopeSpec(name, io.ToDict(configuration).value, "g");
    assert "g" + ":" + name == "g:" + name;
  }

  /** One step of `EncodedArgs`: the `j`-th argument encoded, then the rest. */
  lemma ArgsCons(io: GraphSONIO, bc: Value, source: bool, i: nat, j: nat)
    requires bc.Bytecode? && i < |Instructions(bc, source)| && j < |Instructions(bc, source)[i].args|
    requires io.EncodedArgs(bc, source, i, j).Done?
    ensures io.ToDict(Instructions(bc, source)[i].args[j]).Done? && io.EncodedArgs(bc, source, i, j + 1).Done?
    ensures io.EncodedArgs(bc, source, i, j).value ==
              [io.ToDict(Instructions(bc, source)[i].args[j]).value] + io.EncodedArgs(bc, source, i, j + 1).value
  {
  }

  /** The encoded arguments of an instruction, from the `j`-th on, one per argument. */
  lemma {:induction false} EncodedArgsLength(io: GraphSONIO, bc: Value, source: bool, i: nat, j: nat)
    requires bc.Bytecode? && i < |Instructions(bc, source)| && j <= |Instructions(bc, source)[i].args|
    ensures io.EncodedArgs(bc, source, i, j).Done? ==>
              |io.EncodedArgs(bc, source, i, j).value| == |Instructions(bc, source)[i].args| - j
    decreases |Instructions(bc, source)[i].args| - j
  {
    if j < |Instructions(bc, source)[i].args| && io.EncodedArgs(bc, source, i, j).Done? {
      ArgsCons(io, bc, source, i, j);
      EncodedArgsLength(io, bc, source, i, j + 1);
    }
  }

  /** Entry `a` of the encoded arguments from the `j`-th on is argument `a`, encoded. */
  lemma {:induction false} EncodedArgAt(io: GraphSONIO, bc: Value, source: bool, i: nat, j: nat, a: nat)
    requires bc.Bytecode? && i < |Instructions(bc, source)| && j <= a < |Instructions(bc, source)[i].args|
    requires io.EncodedArgs(bc, source, i, j).Done?
    ensures |io.EncodedArgs(bc, source, i, j).value| > a - j
    ensures io.ToDict(Instructions(bc, source)[i].args[a]) == Done(io.EncodedArgs(bc, source, i, j).value[a - j])
    decreases a - j
  {
    ArgsCons(io, bc, source, i, j);
    if a > j {
      EncodedArgAt(io, bc, source, i, j + 1, a);
    }
  }

  /** The arguments of an instruction, from the `j`-th on, each encoded, in order. */
  lemma EncodedArgsShape(io: GraphSONIO, bc: Value, source: bool, i: nat, j: nat)
    requires bc.Bytecode? && i < |Instructions(bc, source)| && j <= |Instructions(bc, source)[i].args|
    ensures var args := Instructions(bc, source)[i].args; var r := io.EncodedArgs(bc, source, i, j);
      r.Done? ==> |r.value| == |args| - j && forall a :: j <= a < |args| ==> io.ToDict(args[a]) == Done(r.value[a - j])
  {
    var args := Instructions(bc, source)[i].args;
    var r := io.EncodedArgs(bc, source, i, j);
    if r.Done? {
      EncodedArgsLength(io, bc, source, i, j);
      forall a | j <= a < |args| ensures io.ToDict(args[a]) == Done(r.value[a - j]) {
        EncodedArgAt(io, bc, source, i, j, a);
      }
    }
  }

  /** One step of `EncodedInstructions`: the `i`-th instruction encoded, then the rest. */
  lemma InstructionsCons(io: GraphSONIO, bc: Value, source: bool, i: nat)
    requires bc.Bytecode? && i < |Instructions(bc, source)|
    requires io.EncodedInstructions(bc, source, i).Done?
    ensures io.EncodedArgs(bc, source, i, 0).Done? && io.EncodedInstructions(bc, source, i + 1).Done?
    ensures io.EncodedInstructions(bc, source, i).value ==
              [List([Str(Instructions(bc, source)[i].op)] + io.EncodedArgs(bc, source, i, 0).value)] +
              io.EncodedInstructions(bc, source, i + 1).value
  {
  }

  /** `_dictify_instructions` returns one entry per instruction. */
  lemma {:induction false} EncodedInstructionsLength(io: GraphSONIO, bc: Value, source: bool, i: nat)
    requires bc.Bytecode? && i <= |Instructions(bc, source)|
    ensures io.EncodedInstructions(bc, source, i).Done? ==>
              |io.EncodedInstructions(bc, source, i).value| == |Instructions(bc, source)| - i
    decreases |Instructions(bc, source)| - i
  {
    if i < |Instructions(bc, source)| && io.EncodedInstructions(bc, source, i).Done? {
      InstructionsCons(io, bc, source, i);
      EncodedInstructionsLength(io, bc, source, i + 1);
    }
  }

  /** Entry `k` of `_dictify_instructions` from the `i`-th instruction on is instruction `k`'s. */
  lemma {:induction false} EncodedInstructionAt(io: GraphSONIO, bc: Value, source: bool, i: nat, k: nat)
    requires bc.Bytecode? && i <= k < |Instructions(bc, source)| && io.EncodedInstructions(bc, source, i).Done?
    ensures io.EncodedArgs(bc, source, k, 0).Done?
    ensures |io.EncodedInstructions(bc, source, i).value| > k - i
    ensures io.EncodedInstructions(bc, source, i).value[k - i] ==
              List([Str(Instructions(bc, source)[k].op)] + io.EncodedArgs(bc, source, k, 0).value)
    decreases k - i
  {
    InstructionsCons(io, bc, source, i);
    if k > i {
      EncodedInstructionAt(io, bc, source, i + 1, k);
    }
  }

  /**
    `_dictify_instructions` keeps the instructions' number and order; each becomes the list of
    its operator name, as it is, followed by its encoded arguments.
   */
  lemma EncodedInstructionsShape(io: GraphSONIO, bc: Value, source: bool, i: nat)
    requires bc.Bytecode? && i <= |Instructions(bc, source)|
    ensures var ins := Instructions(bc, source); var r := io.EncodedInstructions(bc, source, i);
      r.Done? ==>
        |r.value| == |ins| - i &&
        forall k :: i <= k < |ins| ==>
          io.EncodedArgs(bc, source, k, 0).Done? &&
          r.value[k - i] == List([Str(ins[k].op)] + io.EncodedArgs(bc, source, k, 0).value)
  {
    var ins := Instructions(bc, source);
    var r := io.EncodedInstructions(bc, source, i);
    if r.Done? {
      EncodedInstructionsLength(io, bc, source, i);
      forall k | i <= k < |ins|
        ensures io.EncodedArgs(bc, source, k, 0).Done? &&
                r.value[k - i] == List([Str(ins[k].op)] + io.EncodedArgs(bc, source, k, 0).value)
      {
        EncodedInstructionAt(io, bc, source, i, k);
      }
    }
  }

  /** Instruction `k` of an encoded list: its operator at index 0, then each argument encoded. */
  lemma InstructionEncoding(io: GraphSONIO, bc: Value, source: bool, k: nat)
    requires bc.Bytecode? && k < |Instructions(bc, source)| && io.EncodedInstructions(bc, source, 0).Done?
    ensures var ins := Instructions(bc, source)[k]; var e := io.EncodedInstructions(bc, source, 0).value;
      |e| == |Instructions(bc, source)| && e[k].List? && |e[k].items| == 1 + |ins.args| &&
      e[k].items[0] == Str(ins.op) &&
      forall a :: 0 <= a < |ins.args| ==> io.ToDict(ins.args[a]) == Done(e[k].items[1 + a])
  {
    var ins := Instructions(bc, source)[k];
    EncodedInstructionsLength(io, bc, source, 0);
    EncodedInstructionAt(io, bc, source, 0, k);
    var args := io.EncodedArgs(bc, source, k, 0).value;
    var e := io.EncodedInstructions(bc, source, 0).value;
    assert e[k] == List([Str(ins.op)] + args);
    EncodedArgsLength(io, bc, source, k, 0);
    forall a | 0 <= a < |ins.args| ensures io.ToDict(ins.args[a]) == Done(e[k].items[1 + a]) {
      EncodedArgAt(io, bc, source, k, 0, a);
      assert e[k].items[1 + a] == args[a];
    }
  }

  /**
    The `"@value"` dict of an encoded Bytecode has `"source"` exactly when there are source
    instructions and `"step"` exactly when there are step instructions, each holding its list.
   */
  lemma BytecodePayloadKeys(bc: Value, source: seq<Value>, step: seq<Value>)
    requires bc.Bytecode?
    ensures var p := BytecodePayload(bc, source, step);
      Keys(p) == (if |bc.sourceInstructions| > 0 then {Str("source")} else {}) +
                 (if |bc.stepInstructions| > 0 then {Str("step")} else {}) &&
      (|bc.sourceInstructions| > 0 ==> Get(p, Str("source")) == Some(List(source))) &&
      (|bc.stepInstructions| > 0 ==> Get(p, Str("step")) == Some(List(step)))
  {
    var p := BytecodePayload(bc, source, step);
    if |bc.sourceInstructions| > 0 && |bc.stepInstructions| > 0 {
      assert p == [(Str("source"), List(source)), (Str("step"), List(step))];
      IndexOfUnique(p, Str("source"), 0);
      IndexOfUnique(p, Str("step"), 1);
      assert Keys(p) == {Str("source"), Str("step")} by { assert p[0].0 == Str("source") && p[1].0 == Str("step"); }
    } else if |bc.sourceInstructions| > 0 {
      assert p == [(Str("source"), List(source))];
      IndexOfUnique(p, Str("source"), 0);
      assert Keys(p) == {Str("source")} by { assert p[0].0 == Str("source"); }
    } else if |bc.stepInstructions| > 0 {
      assert p == [(Str("step"), List(step))];
      IndexOfUnique(p, Str("step"), 0);
      assert Keys(p) == {Str("step")} by { assert p[0].0 == Str("step"); }
    } else {
      assert p == [];
    }
  }

  /** The envelope of an encoded Bytecode is tagged `g:Bytecode` and holds the payload dict. */
  lemma BytecodeEnvelope(bc: Value, source: seq<Value>, step: seq<Value>)
    requires bc.Bytecode?
    ensures var r := Envelope("Bytecode", Dict(BytecodePayload(bc, source, step)), "g");
      r.Dict? && Get(r.entries, Str("@type")) == Some(Str("g:Bytecode")) &&
      Get(r.entries, Str("@value")) == Some(Dict(BytecodePayload(bc, source, step)))
  {
    EnvelopeSpec("Bytecode", Dict(BytecodePayload(bc, source, step)), "g");
    assert "g" + ":" + "Bytecode" == "g:Bytecode";
  }

  /**
    `_BytecodeSerializer.dictify` succeeds exactly when each nonempty instruction list
    encodes, and then builds the envelope `BytecodeEnvelope` and `BytecodePayloadKeys` describe.
   */
  lemma EncodeBytecode(io: GraphSONIO, bc: Value)
    requires bc.Bytecode? && FirstMatch(io.serializers, bc) == Some(BytecodeSerializer)
    ensures var r := io.ToDict(bc);
      r.Done? <==> (|bc.sourceInstructions| > 0 ==> io.EncodedInstructions(bc, true, 0).Done?) &&
                   (|bc.stepInstructions| > 0 ==> io.EncodedInstructions(bc, false, 0).Done?)
    ensures var r := io.ToDict(bc);
      r.Done? ==>
        r.value == Envelope("Bytecode", Dict(BytecodePayload(bc,
          if |bc.sourceInstructions| > 0 then io.EncodedInstructions(bc, true, 0).value else [],
          if |bc.stepInstructions| > 0 then io.EncodedInstructions(bc, false, 0).value else [])), "g")
  {
    assert io.ToDict(bc) == io.BytecodeDictify(bc);
  }

  /** A bytecode without instructions encodes as `{"@type": "g:Bytecode", "@value": {}}`. */
  lemma EncodeEmptyBytecode(io: GraphSONIO)
    requires FirstMatch(io.serializers, Bytecode([], [])) == Some(BytecodeSerializer)
    ensures io.ToDict(Bytecode([], [])) == Done(Dict([(Str("@type"), Str("g:Bytecode")), (Str("@value"), Dict([]))]))
  {
    var bc := Bytecode([], []);
    assert io.ToDict(bc) == io.BytecodeDictify(bc);
    assert BytecodePayload(bc, [], []) == [];
    assert "g" + ":" + "Bytecode" == "g:Bytecode";
    assert Envelope("Bytecode", Dict([]), "g").entries == [(Str("@type"), Str("g:Bytecode")), (Str("@value"), Dict([]))];
  }

  /** A traversal is encoded as its bytecode. */
  lemma EncodeTraversal(io: GraphSONIO, bc: Value)
    requires bc.Bytecode?
    requires FirstMatch(io.serializers, Traversal(bc)) == Some(TraversalSerializer)
    requires FirstMatch(io.serializers, bc) == Some(BytecodeSerializer)
    ensures io.ToDict(Traversal(bc)) == io.ToDict(bc)
  {
    assert io.ToDict(Traversal(bc)) == io.BytecodeDictify(Traversal(bc));
    assert io.ToDict(bc) == io.BytecodeDictify(bc);
  }

  /**
    A dict with an int key cannot be encoded: the key becomes a `g:Int32` envelope, a dict,
    which cannot be a key of the encoded dict, so `toDict` raises TypeError.
   */
  lemma EncodeIntKeyRaises(io: GraphSONIO, n: int, x: Value)
    requires FirstMatch(io.serializers, Dict([(Int(n), x)])).None?
    requires FirstMatch(io.serializers, Int(n)) == Some(Int32IO)
    requires io.ToDict(x).Done?
    ensures io.ToDict(Dict([(Int(n), x)])) == Raise(TypeError)
  {
    var d := Dict([(Int(n), x)]);
    assert io.ToDict(Int(n)) == Done(Envelope("Int32", Int(n), "g"));
    assert io.ToDictEntries(d, 0, []) == Raise(TypeError);
  }
}
