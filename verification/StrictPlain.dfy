/** What the rewriter promises about any document, in terms of the document's own keywords. */
module StrictPlain {
  import opened Json
  import opened StrictSchema
  import opened StrictShape
  import opened StrictDocuments

  lemma NodeOfDefect(schema: Json, path: seq<Step>, defect: Defect)
    requires DocumentDefectAt(schema, path, defect)
    ensures var node := DocumentNodeAt(schema, path);
      && node.Some? && node.value.Obj?
      && (defect.OpenDictionary? <==> IsOpenDictionary(node.value.fields))
      && (defect.AmbiguousOptionalRef? ==> IsAmbiguousRef(node.value.fields))
      && (defect.AmbiguousOptionalRef? ==> DocumentOptionalAt(schema, path))
  {
  }

  lemma OpenNodeIsADefect(schema: Json, path: seq<Step>)
    requires DocumentNodeAt(schema, path).Some? && DocumentNodeAt(schema, path).value.Obj?
    requires IsOpenDictionary(DocumentNodeAt(schema, path).value.fields)
    ensures DocumentDefectAt(schema, path, OpenDictionary)
  {
  }

  lemma AmbiguousNodeIsADefect(schema: Json, path: seq<Step>)
    requires DocumentNodeAt(schema, path).Some? && DocumentNodeAt(schema, path).value.Obj?
    requires var f := DocumentNodeAt(schema, path).value.fields; IsAmbiguousRef(f) && !IsOpenDictionary(f)
    requires DocumentOptionalAt(schema, path)
    ensures DocumentDefectAt(schema, path, AmbiguousOptionalRef)
  {
  }

  /** An open dictionary is reported exactly where `additionalProperties` is a schema object
      or true, and no node of an accepted document has either. */
  lemma OpenDictionariesAreRefused(schema: Json)
    ensures ToStrict(schema).Err? ==>
      var node := DocumentNodeAt(schema, ToStrict(schema).path);
      && node.Some? && node.value.Obj?
      && var f := node.value.fields;
         (ToStrict(schema).defect == OpenDictionary
          <==> "additionalProperties" in f
               && (f["additionalProperties"].Obj? || f["additionalProperties"] == Bool(true)))
    ensures ToStrict(schema).Ok? ==>
      forall path | DocumentNodeAt(schema, path).Some? && DocumentNodeAt(schema, path).value.Obj? ::
        var f := DocumentNodeAt(schema, path).value.fields;
        "additionalProperties" in f ==>
          !f["additionalProperties"].Obj? && f["additionalProperties"] != Bool(true)
  {
    ToStrictFailsExactlyOnDefects(schema);
    if ToStrict(schema).Err? {
      NodeOfDefect(schema, ToStrict(schema).path, ToStrict(schema).defect);
    } else {
      forall path | DocumentNodeAt(schema, path).Some? && DocumentNodeAt(schema, path).value.Obj?
        ensures !IsOpenDictionary(DocumentNodeAt(schema, path).value.fields)
      {
        if IsOpenDictionary(DocumentNodeAt(schema, path).value.fields) { OpenNodeIsADefect(schema, path); }
      }
    }
  }

  /** A property, and the object that lists it without requiring it. */
  ghost predicate Optional(schema: Json, path: seq<Step>) {
    && path != [] && path[|path| - 1].Property?
    && var parent := DocumentNodeAt(schema, path[..|path| - 1]);
    && parent.Some? && parent.value.Obj?
    && var f, name := parent.value.fields, path[|path| - 1].name;
       !("required" in f && f["required"].Arr? && Str(name) in f["required"].items)
  }

  lemma OptionalIs(schema: Json, path: seq<Step>)
    ensures DocumentOptionalAt(schema, path) <==> Optional(schema, path)
  {
    if path != [] {
      var init := path[..|path| - 1];
      if path[0].Definition? {
        if |path| > 1 {
          assert init[0] == path[0] && init[1..] == path[1..][..|path[1..]| - 1];
        }
      } else if |path| > 1 {
        assert init[0] == path[0];
      }
    }
  }

  /** What says that null is among the values of a schema. */
  predicate SaysNull(f: Fields) {
    "anyOf" in f && f["anyOf"].Arr?
    && exists i | 0 <= i < |f["anyOf"].items| ::
         var v := f["anyOf"].items[i]; v.Obj? && "type" in v.fields && v.fields["type"] == Str("null")
  }

  lemma SaysNullIs(f: Fields)
    ensures HasNullBranch(f) <==> SaysNull(f)
  {
    if HasNullBranch(f) {
      var v :| v in f["anyOf"].items && IsNullType(v);
      var i :| 0 <= i < |f["anyOf"].items| && f["anyOf"].items[i] == v;
    }
    if SaysNull(f) {
      var i :| 0 <= i < |f["anyOf"].items|
               && var v := f["anyOf"].items[i]; v.Obj? && "type" in v.fields && v.fields["type"] == Str("null");
      assert IsNullType(f["anyOf"].items[i]);
    }
  }

  /** An ambiguous reference is reported exactly at an optional property without a type,
      with `$ref` or `allOf`, and with nothing that says null; an accepted document has none. */
  lemma AmbiguousReferencesAreRefused(schema: Json)
    ensures ToStrict(schema).Err? && ToStrict(schema).defect == AmbiguousOptionalRef ==>
      var node := DocumentNodeAt(schema, ToStrict(schema).path);
      && node.Some? && node.value.Obj? && Optional(schema, ToStrict(schema).path)
      && var f := node.value.fields;
         "type" !in f && ("$ref" in f || "allOf" in f) && !SaysNull(f)
    ensures ToStrict(schema).Ok? ==>
      forall path | Optional(schema, path) && DocumentNodeAt(schema, path).Some?
                    && DocumentNodeAt(schema, path).value.Obj? ::
        var f := DocumentNodeAt(schema, path).value.fields;
        "type" in f || SaysNull(f) || ("$ref" !in f && "allOf" !in f)
  {
    ToStrictFailsExactlyOnDefects(schema);
    OpenDictionariesAreRefused(schema);
    if ToStrict(schema).Err? {
      var path := ToStrict(schema).path;
      NodeOfDefect(schema, path, ToStrict(schema).defect);
      SaysNullIs(DocumentNodeAt(schema, path).value.fields);
      OptionalIs(schema, path);
    } else {
      forall path | Optional(schema, path) && DocumentNodeAt(schema, path).Some?
                    && DocumentNodeAt(schema, path).value.Obj?
        ensures !IsAmbiguousRef(DocumentNodeAt(schema, path).value.fields)
        ensures var f := DocumentNodeAt(schema, path).value.fields; HasNullBranch(f) <==> SaysNull(f)
      {
        OptionalIs(schema, path);
        SaysNullIs(DocumentNodeAt(schema, path).value.fields);
        if IsAmbiguousRef(DocumentNodeAt(schema, path).value.fields) { AmbiguousNodeIsADefect(schema, path); }
      }
    }
  }

  /** The array that names each of these keys once, in order. */
  ghost predicate ListsExactly(required: Json, keys: set<string>) {
    && required.Arr? && |required.items| == |keys|
    && (forall i | 0 <= i < |required.items| :: required.items[i].Str? && required.items[i].s in keys)
    && (forall i, j | 0 <= i < j < |required.items| :: Before(required.items[i].s, required.items[j].s))
    && forall k | k in keys :: Str(k) in required.items
  }

  lemma RequiredArrayLists(properties: Fields)
    ensures ListsExactly(RequiredArray(properties), properties.Keys)
  {
    forall k | k in properties.Keys ensures Str(k) in RequiredArray(properties).items { RequiredHolds(properties, k); }
  }

  /** Every object node of an accepted document, by its properties or by its type, becomes
      one that allows exactly its properties and requires all of them. */
  lemma ObjectNodesAreClosed(schema: Json, strict: Json, path: seq<Step>)
    requires ToStrict(schema) == Ok(strict)
    requires DocumentNodeAt(schema, path).Some? && DocumentNodeAt(schema, path).value.Obj?
    requires var f := DocumentNodeAt(schema, path).value.fields;
      ("properties" in f && f["properties"].Obj?) || ("type" in f && f["type"] == Str("object"))
    ensures DocumentNodeAt(strict, path).Some? && DocumentNodeAt(strict, path).value.Obj?
    ensures var f, g := DocumentNodeAt(schema, path).value.fields, DocumentNodeAt(strict, path).value.fields;
      && "properties" in g && g["properties"].Obj?
      && g["properties"].fields.Keys
         == (if "properties" in f && f["properties"].Obj? then f["properties"].fields.Keys else {})
      && "additionalProperties" in g && g["additionalProperties"] == Bool(false)
      && "required" in g && ListsExactly(g["required"], g["properties"].fields.Keys)
  {
    ToStrictCloses(schema, strict, path);
    var f, g := DocumentNodeAt(schema, path).value.fields, DocumentNodeAt(strict, path).value.fields;
    TypesAreAddedExactly(schema, strict, path);
    ClosedObjectNode(f, g);
    SamePropertyNames(schema, strict, path);
    RequiredArrayLists(g["properties"].fields);
  }

  lemma ClosedObjectNode(f: Fields, g: Fields)
    requires Closed(Obj(g)) && (HasProperties(f) ==> HasProperties(g)) && (TypeIsObject(f) ==> TypeIsObject(g))
    requires HasProperties(f) || TypeIsObject(f)
    ensures HasProperties(g) && "additionalProperties" in g && g["additionalProperties"] == Bool(false)
    ensures "required" in g && g["required"] == RequiredArray(g["properties"].fields)
  {
  }

  /** The output lists a property at a node exactly if the input does. */
  lemma SamePropertyNames(schema: Json, strict: Json, path: seq<Step>)
    requires ToStrict(schema) == Ok(strict)
    requires DocumentNodeAt(schema, path).Some? && DocumentNodeAt(schema, path).value.Obj?
    requires DocumentNodeAt(strict, path).Some? && DocumentNodeAt(strict, path).value.Obj?
    ensures var f, g := DocumentNodeAt(schema, path).value.fields, DocumentNodeAt(strict, path).value.fields;
      forall k :: HasProperties(f) && k in f["properties"].fields <==> HasProperties(g) && k in g["properties"].fields
  {
    var f, g := DocumentNodeAt(schema, path).value.fields, DocumentNodeAt(strict, path).value.fields;
    forall k
      ensures HasProperties(f) && k in f["properties"].fields <==> HasProperties(g) && k in g["properties"].fields
    {
      ToStrictCloses(schema, strict, path + [Property(k)]);
      OneStepMore(schema, path, Property(k));
      OneStepMore(strict, path, Property(k));
    }
  }

  lemma {:induction false} NodeOneStepMore(node: Json, path: seq<Step>, step: Step)
    requires NodeAt(node, path).Some?
    ensures NodeAt(node, path + [step]) == Child(NodeAt(node, path).value, step)
  {
    if path == [] {
      assert [step][1..] == [];
      assert path + [step] == [step];
    } else {
      NodeOneStepMore(Child(node, path[0]).value, path[1..], step);
      assert (path + [step])[1..] == path[1..] + [step];
    }
  }

  lemma OneStepMore(schema: Json, path: seq<Step>, step: Step)
    requires DocumentNodeAt(schema, path).Some? && !step.Definition?
    ensures DocumentNodeAt(schema, path + [step]) == Child(DocumentNodeAt(schema, path).value, step)
  {
    if path != [] && path[0].Definition? {
      NodeOneStepMore(schema.fields["definitions"].fields[path[0].name], path[1..], step);
      assert (path + [step])[1..] == path[1..] + [step];
    } else {
      NodeOneStepMore(schema, path, step);
    }
  }

  /** An untyped optional property that does not say null gets a list of all types; every
      other node keeps its type. */
  lemma TypesAreAddedExactly(schema: Json, strict: Json, path: seq<Step>)
    requires ToStrict(schema) == Ok(strict)
    requires DocumentNodeAt(schema, path).Some? && DocumentNodeAt(schema, path).value.Obj?
    ensures DocumentNodeAt(strict, path).Some? && DocumentNodeAt(strict, path).value.Obj?
    ensures var f, g := DocumentNodeAt(schema, path).value.fields, DocumentNodeAt(strict, path).value.fields;
      if Optional(schema, path) && "type" !in f && !SaysNull(f)
      then "type" in g && g["type"] == Arr([Str("string"), Str("number"), Str("object"), Str("array"),
                                            Str("boolean"), Str("null")])
      else ("type" in g <==> "type" in f) && ("type" in f ==> g["type"] == f["type"])
  {
    ToStrictCloses(schema, strict, path);
    OptionalIs(schema, path);
    SaysNullIs(DocumentNodeAt(schema, path).value.fields);
  }

  // ---- two inputs ----

  const OPEN_MAP := Obj(map["type" := Str("object"), "additionalProperties" := Bool(true)])

  /** A tool argument that may be any object is refused. */
  lemma OpenMapIsRefused()
    ensures ToStrict(OPEN_MAP) == Err(OpenDictionary, [])
  {
  }

  /** A tool without arguments gets an empty closed object. */
  lemma NoArgumentsAreClosed()
    ensures ToStrict(Obj(map["type" := Str("object")]))
      == Ok(Obj(map["type" := Str("object"), "properties" := Obj(map[]), "required" := Arr([]),
                    "additionalProperties" := Bool(false)]))
  {
    var f: Fields := map["type" := Str("object")];
    assert f.Keys == {"type"};
    OnlyAnEnvelope(f);
    assert !HasDefinitions(Obj(f));
    EmptyEnvelope();
    Laid();
  }

  lemma EmptyEnvelope()
    ensures Envelope(map[])
      == map["properties" := Obj(map[]), "required" := Arr([]), "additionalProperties" := Bool(false)]
  {
    assert RequiredArray(map[]) == Arr([]);
  }

  lemma Laid()
    ensures map["type" := Str("object")]
              + map["properties" := Obj(map[]), "required" := Arr([]), "additionalProperties" := Bool(false)]
         == map["type" := Str("object"), "properties" := Obj(map[]), "required" := Arr([]),
                "additionalProperties" := Bool(false)]
  {
  }

  lemma OnlyAnEnvelope(f: Fields)
    requires f.Keys == {"type"} && f["type"] == Str("object")
    ensures Strict(Obj(f)) == Ok(Obj(f + Envelope(map[])))
  {
    assert "oneOf" !in f && "anyOf" !in f && "allOf" !in f && "items" !in f && "additionalProperties" !in f;
    assert StrictObject(Obj(f)) == Ok(Envelope(map[]));
    NothingElse(f);
    PartsFrom(f, Envelope(map[]));
    StrictParted(f);
    OverNothing(f, Envelope(map[]));
  }

  lemma NothingElse(f: Fields)
    requires "oneOf" !in f && "anyOf" !in f && "allOf" !in f && "items" !in f
    ensures StrictCombinator(Obj(f), "oneOf") == Ok(map[]) && StrictCombinator(Obj(f), "anyOf") == Ok(map[])
    ensures StrictCombinator(Obj(f), "allOf") == Ok(map[]) && StrictItems(Obj(f)) == Ok(map[])
  {
  }

  lemma PartsFrom(f: Fields, envelope: Fields)
    requires StrictCombinator(Obj(f), "oneOf") == Ok(map[]) && StrictCombinator(Obj(f), "anyOf") == Ok(map[])
    requires StrictCombinator(Obj(f), "allOf") == Ok(map[]) && StrictItems(Obj(f)) == Ok(map[])
    requires StrictObject(Obj(f)) == Ok(envelope)
    ensures StrictParts(Obj(f)) == Ok(Parts(map[], map[], map[], map[], envelope))
  {
  }

  lemma OverNothing(f: Fields, envelope: Fields)
    ensures Parts(map[], map[], map[], map[], envelope).Over(f) == f + envelope
  {
    assert f + map[] == f;
  }
}
