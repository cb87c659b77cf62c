/** The rewriter on whole documents: definitions first, then the root. */
module StrictDocuments {
  import opened Json
  import opened StrictSchema
  import opened StrictShape

  ghost predicate DocumentDefectAt(schema: Json, path: seq<Step>, defect: Defect) {
    if path != [] && path[0].Definition? then
      && HasDefinitions(schema) && path[0].name in schema.fields["definitions"].fields
      && DefectAt(schema.fields["definitions"].fields[path[0].name], path[1..], defect)
    else DefectAt(schema, path, defect)
  }

  lemma {:induction false} SameStrictProperties(f: Fields, g: Fields, keys: seq<string>)
    requires HasProperties(f) && forall k | k in keys :: k in f["properties"].fields
    requires KeepsKey(f, g, "properties") && KeepsKey(f, g, "required")
    ensures StrictProperties(Obj(f), keys) == StrictProperties(Obj(g), keys)
  {
    if keys != [] {
      SameStrictProperties(f, g, keys[1..]);
    }
  }

  lemma {:induction false} SameStrictCombinator(f: Fields, g: Fields, c: string)
    requires KeepsKey(f, g, c)
    ensures StrictCombinator(Obj(f), c) == StrictCombinator(Obj(g), c)
  {
  }

  lemma SameParts(f: Fields, g: Fields)
    requires KeepsKey(f, g, "oneOf") && KeepsKey(f, g, "anyOf") && KeepsKey(f, g, "allOf") && KeepsKey(f, g, "items")
    requires KeepsKey(f, g, "properties") && KeepsKey(f, g, "required") && KeepsKey(f, g, "type")
    ensures StrictParts(Obj(f)) == StrictParts(Obj(g))
  {
    SameStrictCombinator(f, g, "oneOf");
    SameStrictCombinator(f, g, "anyOf");
    SameStrictCombinator(f, g, "allOf");
    assert StrictItems(Obj(f)) == StrictItems(Obj(g));
    if HasProperties(f) {
      SameStrictProperties(f, g, SortedKeys(f["properties"].fields.Keys));
    }
    assert StrictObject(Obj(f)) == StrictObject(Obj(g));
  }

  lemma MergeAside(f: Fields, part: Fields, k: string, v: Json)
    requires k !in part
    ensures f[k := v] + part == (f + part)[k := v]
  {
  }

  lemma OverAside(p: Parts, f: Fields, k: string, v: Json)
    requires k !in p.one && k !in p.any && k !in p.all && k !in p.items && k !in p.envelope
    ensures p.Over(f[k := v]) == p.Over(f)[k := v]
  {
    MergeAside(f, p.one, k, v);
    MergeAside(f + p.one, p.any, k, v);
    MergeAside(f + p.one + p.any, p.all, k, v);
    MergeAside(f + p.one + p.any + p.all, p.items, k, v);
    MergeAside(f + p.one + p.any + p.all + p.items, p.envelope, k, v);
  }

  lemma OverDefinitions(p: Parts, f: Fields, definitions: Json)
    requires p.Separate()
    ensures p.Over(f["definitions" := definitions]) == p.Over(f)["definitions" := definitions]
  {
    assert "definitions" !in {"oneOf"} + {"anyOf"} + {"allOf"} + {"items"}
      + {"properties", "required", "additionalProperties"};
    OverAside(p, f, "definitions", definitions);
  }

  lemma DefinitionsKeep(f: Fields, definitions: Json, k: string)
    requires k != "definitions"
    ensures KeepsKey(f, f["definitions" := definitions], k)
  {
  }

  lemma StrictParted(f: Fields)
    ensures Strict(Obj(f)) ==
      if IsOpenDictionary(f) then Err(OpenDictionary, [])
      else if StrictParts(Obj(f)).Ok? then Ok(Obj(StrictParts(Obj(f)).value.Over(f)))
      else Err(StrictParts(Obj(f)).defect, StrictParts(Obj(f)).path)
  {
  }

  /** Rewriting the root does not look at its definitions. */
  lemma DefinitionsUnvisited(f: Fields, definitions: Json)
    ensures var g := f["definitions" := definitions];
      if Strict(Obj(f)).Ok? then Strict(Obj(g)) == Ok(Obj(Strict(Obj(f)).value.fields["definitions" := definitions]))
      else Strict(Obj(g)) == Strict(Obj(f))
  {
    var g := f["definitions" := definitions];
    assert KeepsKey(f, g, "additionalProperties") && StrictParts(Obj(f)) == StrictParts(Obj(g)) by {
      forall k | k != "definitions" ensures KeepsKey(f, g, k) { DefinitionsKeep(f, definitions, k); }
      SameParts(f, g);
    }
    StrictParted(f);
    StrictParted(g);
    if StrictParts(Obj(f)).Ok? {
      OverDefinitions(StrictParts(Obj(f)).value, f, definitions);
    }
  }

  lemma {:induction false} FailedDefinition(definitions: Fields, keys: seq<string>) returns (k: string)
    requires forall k | k in keys :: k in definitions
    requires StrictDefinitions(definitions, keys).Err?
    ensures k in definitions && Strict(definitions[k]).Err?
    ensures StrictDefinitions(definitions, keys)
      == Err(Strict(definitions[k]).defect, [Definition(k)] + Strict(definitions[k]).path)
  {
    k := keys[0];
    if Strict(definitions[k]).Ok? {
      k := FailedDefinition(definitions, keys[1..]);
    }
  }

  /** The rewriter fails exactly when some node it reaches is an open dictionary
      or an ambiguous optional reference, and then it reports one that is there. */
  lemma ToStrictFailsExactlyOnDefects(schema: Json)
    ensures ToStrict(schema).Err? <==> exists path, defect :: DocumentDefectAt(schema, path, defect)
    ensures ToStrict(schema).Err? ==> DocumentDefectAt(schema, ToStrict(schema).path, ToStrict(schema).defect)
  {
    if ToStrict(schema).Err? {
      ReportedDefect(schema);
    }
    if path, defect :| DocumentDefectAt(schema, path, defect) {
      DocumentDefectFails(schema, path, defect);
    }
  }

  lemma DefectPathStaysBelow(node: Json, path: seq<Step>, defect: Defect)
    requires DefectAt(node, path, defect)
    ensures path != [] ==> !path[0].Definition?
  {
  }

  lemma ReportedDefect(schema: Json)
    requires ToStrict(schema).Err?
    ensures DocumentDefectAt(schema, ToStrict(schema).path, ToStrict(schema).defect)
  {
    if HasDefinitions(schema) {
      var defs := schema.fields["definitions"].fields;
      var rewritten := StrictDefinitions(defs, SortedKeys(defs.Keys));
      if rewritten.Err? {
        var k := FailedDefinition(defs, SortedKeys(defs.Keys));
        ErrIsDefect(defs[k]);
        assert rewritten.path[1..] == Strict(defs[k]).path;
        return;
      }
      DefinitionsUnvisited(schema.fields, Obj(rewritten.value));
    }
    ErrIsDefect(schema);
    DefectPathStaysBelow(schema, Strict(schema).path, Strict(schema).defect);
  }

  lemma DocumentDefectFails(schema: Json, path: seq<Step>, defect: Defect)
    requires DocumentDefectAt(schema, path, defect)
    ensures ToStrict(schema).Err?
  {
    if path != [] && path[0].Definition? {
      DefectMeansErr(schema.fields["definitions"].fields[path[0].name], path[1..], defect);
    } else {
      DefectMeansErr(schema, path, defect);
      if HasDefinitions(schema) {
        var defs := schema.fields["definitions"].fields;
        var rewritten := StrictDefinitions(defs, SortedKeys(defs.Keys));
        if rewritten.Ok? {
          DefinitionsUnvisited(schema.fields, Obj(rewritten.value));
        }
      }
    }
  }

  // ---- the finished document ----

  /** The root and the definitions of a rewritten document. */
  lemma {:induction false} ToStrictParts(schema: Json)
    requires ToStrict(schema).Ok?
    ensures Strict(schema).Ok?
    ensures HasDefinitions(schema) <==> HasDefinitions(ToStrict(schema).value)
    ensures HasDefinitions(schema) ==>
      var before, after := schema.fields["definitions"].fields, ToStrict(schema).value.fields["definitions"].fields;
      && before.Keys == after.Keys
      && (forall k | k in before :: Strict(before[k]) == Ok(after[k]))
      && ToStrict(schema).value == Obj(Strict(schema).value.fields["definitions" := Obj(after)])
    ensures !HasDefinitions(schema) ==> ToStrict(schema) == Strict(schema)
  {
    if HasDefinitions(schema) {
      var defs := schema.fields["definitions"].fields;
      var rewritten := StrictDefinitions(defs, SortedKeys(defs.Keys)).value;
      DefinitionsUnvisited(schema.fields, Obj(rewritten));
    } else if schema.Obj? {
      assert "definitions" !in TOUCHED;
      StrictNodeOther(schema.fields, "definitions");
    }
  }

  lemma {:induction false} NodeAtAside(f: Fields, definitions: Json, path: seq<Step>)
    requires path != []
    ensures NodeAt(Obj(f["definitions" := definitions]), path) == NodeAt(Obj(f), path)
  {
    DefinitionsKeep(f, definitions, "items");
    DefinitionsKeep(f, definitions, "properties");
    assert COMBINATORS == ["oneOf", "anyOf", "allOf"];
    if path[0].Variant? && path[0].combinator in COMBINATORS {
      DefinitionsKeep(f, definitions, path[0].combinator);
    }
    assert Child(Obj(f["definitions" := definitions]), path[0]) == Child(Obj(f), path[0]);
  }

  lemma ClosedAside(f: Fields, definitions: Json)
    requires Closed(Obj(f))
    ensures Closed(Obj(f["definitions" := definitions]))
  {
    DefinitionsKeep(f, definitions, "type");
    DefinitionsKeep(f, definitions, "properties");
    DefinitionsKeep(f, definitions, "required");
    DefinitionsKeep(f, definitions, "additionalProperties");
  }

  lemma KeptAside(before: Json, f: Fields, definitions: Json, optional: bool)
    requires before.Obj? && Kept(before, Obj(f), optional)
    ensures Kept(before, Obj(f["definitions" := definitions]), optional)
  {
    var g := f["definitions" := definitions];
    forall k | k !in TOUCHED && k != "type" && k != "definitions" ensures KeepsKey(before.fields, g, k) {
      assert KeepsKey(before.fields, f, k);
      DefinitionsKeep(f, definitions, k);
    }
    DefinitionsKeep(f, definitions, "required");
    DefinitionsKeep(f, definitions, "properties");
    DefinitionsKeep(f, definitions, "type");
  }

  ghost predicate DocumentOptionalAt(schema: Json, path: seq<Step>) {
    if path != [] && path[0].Definition? then
      && HasDefinitions(schema) && path[0].name in schema.fields["definitions"].fields
      && OptionalAt(schema.fields["definitions"].fields[path[0].name], path[1..])
    else OptionalAt(schema, path)
  }

  /** The output has exactly the nodes of the input.  Each of them is closed, and
      each keeps what the rewriter has no business changing. */
  lemma ToStrictCloses(schema: Json, strict: Json, path: seq<Step>)
    requires ToStrict(schema) == Ok(strict)
    ensures var before, after := DocumentNodeAt(schema, path), DocumentNodeAt(strict, path);
      && (before.Some? <==> after.Some?)
      && (after.Some? ==> Closed(after.value) && Kept(before.value, after.value, DocumentOptionalAt(schema, path)))
  {
    ToStrictParts(schema);
    if path != [] && path[0].Definition? {
      if HasDefinitions(schema) && path[0].name in schema.fields["definitions"].fields {
        var def := schema.fields["definitions"].fields[path[0].name];
        PropertyClosedBelow(def, true, path[1..]);
        if NodeAt(def, path[1..]).Some? { KeptBelow(def, true, path[1..]); }
      }
    } else {
      PropertyClosedBelow(schema, true, path);
      if NodeAt(schema, path).Some? { KeptBelow(schema, true, path); }
      if HasDefinitions(schema) {
        var f := Strict(schema).value.fields;
        var after := ToStrict(schema).value.fields["definitions"];
        if path == [] {
          ClosedAside(f, after);
          KeptAside(schema, f, after, false);
        } else {
          NodeAtAside(f, after, path);
        }
      }
    }
  }

  ghost predicate StrictDocument(schema: Json) {
    forall path :: DocumentNodeAt(schema, path).Some? ==> Closed(DocumentNodeAt(schema, path).value)
  }

  /** The documents that the rewriter returns unchanged are exactly the strict ones. */
  lemma ToStrictFixesExactlyStrictDocuments(schema: Json)
    ensures ToStrict(schema) == Ok(schema) <==> StrictDocument(schema)
  {
    if ToStrict(schema) == Ok(schema) {
      forall path | DocumentNodeAt(schema, path).Some? ensures Closed(DocumentNodeAt(schema, path).value) {
        ToStrictCloses(schema, schema, path);
      }
    }
    if StrictDocument(schema) {
      forall path: seq<Step> | NodeAt(schema, path).Some? ensures Closed(NodeAt(schema, path).value) {
        assert path != [] ==> !path[0].Definition?;
        assert DocumentNodeAt(schema, path) == NodeAt(schema, path);
      }
      ClosedIsFixed(schema);
      if HasDefinitions(schema) {
        DefinitionsFixed(schema);
      }
    }
  }

  lemma DefinitionClosed(schema: Json, k: string)
    requires HasDefinitions(schema) && StrictDocument(schema) && k in schema.fields["definitions"].fields
    ensures ClosedBelow(schema.fields["definitions"].fields[k])
  {
    var def := schema.fields["definitions"].fields[k];
    forall path | NodeAt(def, path).Some? ensures Closed(NodeAt(def, path).value) {
      var whole := [Definition(k)] + path;
      assert whole[1..] == path;
      assert DocumentNodeAt(schema, whole) == NodeAt(def, path);
    }
  }

  lemma {:induction false} AllDefinitionsFixed(defs: Fields)
    requires forall k | k in defs :: Strict(defs[k]) == Ok(defs[k])
    ensures StrictDefinitions(defs, SortedKeys(defs.Keys)) == Ok(defs)
  {
    var rewritten := StrictDefinitions(defs, SortedKeys(defs.Keys));
    assert rewritten.Ok? && rewritten.value.Keys == defs.Keys;
    assert rewritten.value == defs;
  }

  lemma {:induction false} DefinitionsFixed(schema: Json)
    requires HasDefinitions(schema) && StrictDocument(schema) && Strict(schema) == Ok(schema)
    ensures ToStrict(schema) == Ok(schema)
  {
    var defs := schema.fields["definitions"].fields;
    forall k | k in defs ensures Strict(defs[k]) == Ok(defs[k]) {
      DefinitionClosed(schema, k);
      ClosedIsFixed(defs[k]);
    }
    AllDefinitionsFixed(defs);
    assert schema.fields["definitions" := Obj(defs)] == schema.fields;
  }

  /** A second pass changes nothing. */
  lemma ToStrictIsIdempotent(schema: Json, strict: Json)
    requires ToStrict(schema) == Ok(strict)
    ensures ToStrict(strict) == Ok(strict)
  {
    forall path | DocumentNodeAt(strict, path).Some? ensures Closed(DocumentNodeAt(strict, path).value) {
      ToStrictCloses(schema, strict, path);
    }
    ToStrictFixesExactlyStrictDocuments(strict);
  }
}
