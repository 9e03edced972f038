/**
  What `toObject` and the deserializers of graphson.py do: when the `try` block of
  `toObject` gives up on a dict and falls back to decoding it entry by entry, and what each
  structure deserializer builds from its `"@value"` dict, error cases included.
 */
module DecoderLaws {
  import opened Wrappers
  import opened Dicts
  import opened Python
  import opened Registry
  import opened GraphSON
  import opened CodecLaws

  /**
    The `try` block of `toObject` raises KeyError exactly when the dict has no `"@type"`,
    when its (hashable) tag is not a registered deserializer tag, when it has no `"@value"`,
    or when the deserializer itself raises KeyError.
   */
  lemma DeserializeKeyError(io: GraphSONIO, v: Value)
    requires v.Dict?
    ensures io.Deserialize(v) == Raise(KeyError) <==>
      Str("@type") !in Keys(v.entries) ||
      (var t := Get(v.entries, Str("@type")).value;
       !IsContainer(t) && CheckHashable(t).Done? &&
       (!(t.Str? && t.s in io.deserializers) ||
        Str("@value") !in Keys(v.entries) ||
        io.Objectify(io.deserializers[t.s], Get(v.entries, Str("@value")).value) == Raise(KeyError)))
  {
  }

  /**
    A dict whose `try` block raises KeyError decodes entry by entry: if its keys and values
    decode to `pairs`, the result is the dict that inserts them in order.
   */
  lemma DecodeFallback(io: GraphSONIO, v: Value, pairs: seq<(Value, Value)>)
    requires v.Dict? && io.Deserialize(v) == Raise(KeyError) && |pairs| == |v.entries|
    requires forall k :: 0 <= k < |pairs| ==>
               io.ToObject(v.entries[k].0) == Done(pairs[k].0) && io.ToObject(v.entries[k].1) == Done(pairs[k].1) &&
               CheckHashable(pairs[k].0).Done?
    ensures io.ToObject(v) == Done(Dict(Update([], pairs)))
  {
    DecodeEntries(io, v, 0, [], pairs);
    assert pairs[0..] == pairs;
  }

  /** An envelope with a tag no deserializer is registered for comes back as the plain dict it is. */
  lemma DecodeUnknownTag(io: GraphSONIO)
    requires "x:Bogus" !in io.deserializers
    ensures var w := Dict([(Str("@type"), Str("x:Bogus")), (Str("@value"), Int(1))]);
      io.ToObject(w) == Done(w)
  {
    var es := [(Str("@type"), Str("x:Bogus")), (Str("@value"), Int(1))];
    var w := Dict(es);
    IndexOfUnique(es, Str("@type"), 0);
    assert io.Deserialize(w) == Raise(KeyError);
    DecodeFallback(io, w, es);
    UpdateFresh([], es);
    assert [] + es == es;
  }

  /**
    `VertexDeserializer.objectify`: KeyError exactly when `"id"` is missing; otherwise the vertex
    of the decoded id and the label as it is, `""` when absent.
   */
  lemma VertexDecoding(io: GraphSONIO, d: Value)
    requires d.Dict?
    ensures io.VertexObjectify(d) == Raise(KeyError) <==> Str("id") !in Keys(d.entries)
    ensures io.VertexObjectify(d).Done? <==>
              Str("id") in Keys(d.entries) && io.ToObject(Get(d.entries, Str("id")).value).Done?
    ensures io.VertexObjectify(d).Done? ==>
              io.VertexObjectify(d).value ==
                Vertex(io.ToObject(Get(d.entries, Str("id")).value).value,
                       if Str("label") in Keys(d.entries) then Get(d.entries, Str("label")).value else Str(""))
  {
  }

  /**
    `EdgeDeserializer.objectify` reads `"id"`, `"outV"` and `"inV"` in that order: KeyError
    exactly when the first of them that is missing comes after fields that all decoded.
   */
  lemma EdgeKeyError(io: GraphSONIO, d: Value)
    requires d.Dict?
    ensures var es := d.entries;
      io.EdgeObjectify(d) == Raise(KeyError) <==>
        Str("id") !in Keys(es) ||
        (io.ToObject(Get(es, Str("id")).value).Done? &&
         (Str("outV") !in Keys(es) ||
          (io.ToObject(Get(es, Str("outV")).value).Done? && Str("inV") !in Keys(es))))
  {
  }

  /**
    `EdgeDeserializer.objectify` succeeds exactly when the three endpoint fields are present and
    decode; the ends are vertices without a label and the label defaults to `"vertex"`.
   */
  lemma EdgeDecoding(io: GraphSONIO, d: Value)
    requires d.Dict?
    ensures var es := d.entries;
      io.EdgeObjectify(d).Done? <==>
        Str("id") in Keys(es) && Str("outV") in Keys(es) && Str("inV") in Keys(es) &&
        io.ToObject(Get(es, Str("id")).value).Done? && io.ToObject(Get(es, Str("outV")).value).Done? &&
        io.ToObject(Get(es, Str("inV")).value).Done?
    ensures var es := d.entries;
      io.EdgeObjectify(d).Done? ==>
        io.EdgeObjectify(d).value ==
          Edge(io.ToObject(Get(es, Str("id")).value).value,
               Vertex(io.ToObject(Get(es, Str("outV")).value).value, Str("")),
               if Str("label") in Keys(es) then Get(es, Str("label")).value else Str("vertex"),
               Vertex(io.ToObject(Get(es, Str("inV")).value).value, Str("")))
  {
  }

  /**
    `VertexPropertyDeserializer.objectify`: `"id"`, `"label"` and `"value"` are all required;
    the id and the value are decoded, the label is kept as it is.
   */
  lemma VertexPropertyDecoding(io: GraphSONIO, d: Value)
    requires d.Dict?
    ensures var es := d.entries;
      io.VertexPropertyObjectify(d) == Raise(KeyError) <==>
        Str("id") !in Keys(es) ||
        (io.ToObject(Get(es, Str("id")).value).Done? && (Str("label") !in Keys(es) || Str("value") !in Keys(es)))
    ensures var es := d.entries;
      io.VertexPropertyObjectify(d).Done? <==>
        Str("id") in Keys(es) && Str("label") in Keys(es) && Str("value") in Keys(es) &&
        io.ToObject(Get(es, Str("id")).value).Done? && io.ToObject(Get(es, Str("value")).value).Done?
    ensures var es := d.entries;
      io.VertexPropertyObjectify(d).Done? ==>
        io.VertexPropertyObjectify(d).value ==
          VertexProperty(io.ToObject(Get(es, Str("id")).value).value, Get(es, Str("label")).value,
                         io.ToObject(Get(es, Str("value")).value).value)
  {
  }

  /** `PropertyDeserializer.objectify`: `"key"` and `"value"` are required; only the value is decoded. */
  lemma PropertyDecoding(io: GraphSONIO, d: Value)
    requires d.Dict?
    ensures var es := d.entries;
      io.PropertyObjectify(d) == Raise(KeyError) <==> Str("key") !in Keys(es) || Str("value") !in Keys(es)
    ensures var es := d.entries;
      io.PropertyObjectify(d).Done? <==>
        Str("key") in Keys(es) && Str("value") in Keys(es) && io.ToObject(Get(es, Str("value")).value).Done?
    ensures var es := d.entries;
      io.PropertyObjectify(d).Done? ==>
        io.PropertyObjectify(d).value ==
          Property(Get(es, Str("key")).value, io.ToObject(Get(es, Str("value")).value).value)
  {
  }

  /**
    `PathDeserializer.objectify` on lists: one label set per label list, holding that list's
    members, and the decoded objects, in order.
   */
  lemma PathDecoding(io: GraphSONIO, d: Value, labels: seq<Value>, objects: seq<Value>)
    requires d.Dict? && Get(d.entries, Str("labels")) == Some(List(labels)) &&
             Get(d.entries, Str("objects")) == Some(List(objects))
    ensures io.PathObjectify(d).Done? <==>
              LabelSets(labels).Done? && forall k :: 0 <= k < |objects| ==> io.ToObject(objects[k]).Done?
    ensures var r := io.PathObjectify(d);
      r.Done? ==>
        r.value.Path? && |r.value.labels| == |labels| && |r.value.objects| == |objects| &&
        (forall k :: 0 <= k < |labels| ==>
           Iterate(labels[k]).Done? && r.value.labels[k] == set x | x in Iterate(labels[k]).value) &&
        forall k :: 0 <= k < |objects| ==> io.ToObject(objects[k]) == Done(r.value.objects[k])
  {
    var o := List(objects);
    assert io.PathObjects(o) == io.ToObjectItems(o, 0);
    DecodeItemsDone(io, o, 0);
    DecodeItems(io, o, 0);
    var r := io.PathObjectify(d);
    if r.Done? {
      var sets := LabelSets(labels).value;
      forall k | 0 <= k < |labels|
        ensures Iterate(labels[k]).Done? && sets[k] == set x | x in Iterate(labels[k]).value
      {
        assert HashAll(Iterate(labels[k]).value) == Done(sets[k]);
      }
    }
  }

  /** The label sets of the label lists `[]` and `["a"]`. */
  lemma ExampleLabelSets()
    ensures LabelSets([List([]), List([Str("a")])]) == Done([{}, {Str("a")}])
  {
    var labels := [List([]), List([Str("a")])];
    assert HashAll([]) == Done({});
    assert [Str("a")][1..] == [];
    assert HashAll([Str("a")][1..]) == Done({});
    assert {Str("a")} + {} == {Str("a")};
    assert HashAll([Str("a")]) == Done({Str("a")});
    assert labels[1..][1..] == [];
    assert [{Str("a")}] + [] == [{Str("a")}];
    assert LabelSets(labels[1..]) == Done([{Str("a")}]);
    assert [{}] + [{Str("a")}] == [{}, {Str("a")}];
  }

  /** Decoding the path objects `[1, 2]`. */
  lemma ExampleObjects(io: GraphSONIO)
    ensures io.PathObjects(List([Int(1), Int(2)])) == Done([Int(1), Int(2)])
  {
    var o := List([Int(1), Int(2)]);
    assert io.ToObject(Int(1)) == Done(Int(1)) && io.ToObject(Int(2)) == Done(Int(2));
    assert io.ToObjectItems(o, 2) == Done([]);
    assert [Int(2)] + [] == [Int(2)] && [Int(1)] + [Int(2)] == [Int(1), Int(2)];
    assert io.ToObjectItems(o, 1) == Done([Int(2)]);
  }

  /** `PathDeserializer.objectify` of the labels `[[], ["a"]]` and the objects `[1, 2]`. */
  lemma ExamplePath(io: GraphSONIO)
    ensures io.PathObjectify(Dict([(Str("labels"), List([List([]), List([Str("a")])])),
                                   (Str("objects"), List([Int(1), Int(2)]))])) ==
              Done(Path([{}, {Str("a")}], [Int(1), Int(2)]))
  {
    var labels := List([List([]), List([Str("a")])]);
    var objects := List([Int(1), Int(2)]);
    var es := [(Str("labels"), labels), (Str("objects"), objects)];
    var d := Dict(es);
    IndexOfUnique(es, Str("labels"), 0);
    IndexOfUnique(es, Str("objects"), 1);
    assert Subscript(d, "labels") == Done(labels) && Subscript(d, "objects") == Done(objects);
    ExampleLabelSets();
    ExampleObjects(io);
  }

  /** The path with label sets `{}` and `{"a"}` and objects 1 and 2, from its `g:Path` envelope. */
  lemma DecodePathExample(io: GraphSONIO)
    requires "g:Path" in io.deserializers && io.deserializers["g:Path"] == PathDeserializer
    ensures io.ToObject(Envelope("Path", Dict([(Str("labels"), List([List([]), List([Str("a")])])),
                                               (Str("objects"), List([Int(1), Int(2)]))]), "g")) ==
              Done(Path([{}, {Str("a")}], [Int(1), Int(2)]))
  {
    var d := Dict([(Str("labels"), List([List([]), List([Str("a")])])), (Str("objects"), List([Int(1), Int(2)]))]);
    ExamplePath(io);
    assert "g:" + "Path" == "g:Path";
    DecodeEnvelope(io, "Path", d);
  }

  /**
    A `g:Vertex` envelope with an id and a string label decodes to the vertex of the decoded id
    and that label.
   */
  lemma DecodeVertexEnvelope(io: GraphSONIO, id: Value, lbl: string)
    requires "g:Vertex" in io.deserializers && io.deserializers["g:Vertex"] == VertexDeserializer
    requires io.ToObject(id).Done?
    ensures io.ToObject(Envelope("Vertex", Dict([(Str("id"), id), (Str("label"), Str(lbl))]), "g")) ==
              Done(Vertex(io.ToObject(id).value, Str(lbl)))
  {
    var es := [(Str("id"), id), (Str("label"), Str(lbl))];
    IndexOfUnique(es, Str("id"), 0);
    IndexOfUnique(es, Str("label"), 1);
    assert io.VertexObjectify(Dict(es)) == Done(Vertex(io.ToObject(id).value, Str(lbl)));
    assert "g:" + "Vertex" == "g:Vertex";
    DecodeEnvelope(io, "Vertex", Dict(es));
  }

  /**
    A vertex whose id is a plain value survives the wire: its `g:Vertex` envelope, with the id
    encoded by `toDict`, decodes to the same vertex.
   */
  lemma VertexRoundTrip(io: GraphSONIO, id: Value, lbl: string)
    requires IsDefault(io) && Plain(id)
    ensures io.ToDict(id).Done?
    ensures io.ToObject(Envelope("Vertex", Dict([(Str("id"), io.ToDict(id).value), (Str("label"), Str(lbl))]), "g")) ==
              Done(Vertex(id, Str(lbl)))
  {
    RoundTrip(io, id);
    DecodeVertexEnvelope(io, io.ToDict(id).value, lbl);
  }
}
