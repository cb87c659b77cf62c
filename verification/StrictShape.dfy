/** What the rewriter does to the shape of one schema and everything below it.

    A step leads from a node to a child that the rewriter visits, a path is a sequence
    of steps.  First the places where it fails; then what it puts at each key of a
    node, key by key, so that later proofs need not unfold the rewrite; then what its
    output looks like at every node it reaches; then the schemas it leaves as they
    are; and last, what it has no business changing. */
module StrictShape {
  import opened Json
  import opened StrictSchema
  import opened Wrappers

  // ---- reaching nodes ----

  /** The schema one step below `node`, if the rewriter goes there. */
  function Child(node: Json, step: Step): Option<Json> {
    if !node.Obj? then None
    else
      match step
      case Variant(c, i) =>
        if c in COMBINATORS && c in node.fields && node.fields[c].Arr? && i < |node.fields[c].items|
        then Some(node.fields[c].items[i]) else None
      case Items => if "items" in node.fields then Some(node.fields["items"]) else None
      case Property(k) =>
        if HasProperties(node.fields) && k in node.fields["properties"].fields
        then Some(node.fields["properties"].fields[k]) else None
      case Definition(_) => None
  }

  function NodeAt(node: Json, path: seq<Step>): Option<Json> {
    if path == [] then Some(node)
    else
      var child := Child(node, path[0]);
      if child.None? then None else NodeAt(child.value, path[1..])
  }

  /** As `NodeAt`, from the root of a document, whose definitions are reached too. */
  function DocumentNodeAt(schema: Json, path: seq<Step>): Option<Json> {
    if path != [] && path[0].Definition? then
      if HasDefinitions(schema) && path[0].name in schema.fields["definitions"].fields
      then NodeAt(schema.fields["definitions"].fields[path[0].name], path[1..]) else None
    else NodeAt(schema, path)
  }

  // ---- where it fails ----

  /** `path` leads from `node` to an open dictionary, or to an optional property
      whose schema is an ambiguous reference, and no open dictionary. */
  ghost predicate DefectAt(node: Json, path: seq<Step>, defect: Defect) {
    var found := NodeAt(node, path);
    && found.Some? && found.value.Obj?
    && match defect
       case OpenDictionary => IsOpenDictionary(found.value.fields)
       case AmbiguousOptionalRef =>
         && path != [] && path[|path| - 1].Property?
         && IsAmbiguousRef(found.value.fields) && !IsOpenDictionary(found.value.fields)
         && var parent := NodeAt(node, path[..|path| - 1]);
            parent.Some? && parent.value.Obj? && !IsRequired(parent.value.fields, path[|path| - 1].name)
  }

  // ---- one node, key by key ----

  const TOUCHED := {"oneOf", "anyOf", "allOf", "items", "properties", "required", "additionalProperties"}

  ghost predicate VariantsRewritten(f: Fields, g: Fields, c: string)
    requires c in f
  {
    && c in g
    && if f[c].Arr? then
         && StrictVariants(f[c].items, c, 0).Ok?
         && g[c] == Arr(StrictVariants(f[c].items, c, 0).value)
       else g[c] == f[c]
  }

  ghost predicate ItemsRewritten(f: Fields, g: Fields)
    requires "items" in f
  {
    "items" in g && Strict(f["items"]) == Ok(g["items"])
  }

  ghost predicate PropertiesRewritten(f: Fields, g: Fields)
    requires HasProperties(f)
  {
    var props := f["properties"].fields;
    && HasProperties(g)
    && g["properties"].fields.Keys == props.Keys
    && forall k | k in props :: StrictProperty(props[k], IsRequired(f, k)) == Ok(g["properties"].fields[k])
  }

  ghost predicate Enveloped(g: Fields) {
    && HasProperties(g)
    && "required" in g && g["required"] == RequiredArray(g["properties"].fields)
    && "additionalProperties" in g && g["additionalProperties"] == Bool(false)
  }

  ghost predicate KeepsKey(f: Fields, g: Fields, k: string) {
    (k in f <==> k in g) && (k in f ==> f[k] == g[k])
  }

  lemma OverAt(p: Parts, f: Fields, k: string)
    ensures k !in p.one && k !in p.any && k !in p.all && k !in p.items && k !in p.envelope ==> KeepsKey(f, p.Over(f), k)
    ensures k in p.envelope ==> k in p.Over(f) && p.Over(f)[k] == p.envelope[k]
    ensures k !in p.envelope && k in p.items ==> k in p.Over(f) && p.Over(f)[k] == p.items[k]
    ensures k !in p.envelope && k !in p.items && k in p.all ==> k in p.Over(f) && p.Over(f)[k] == p.all[k]
    ensures k !in p.envelope && k !in p.items && k !in p.all && k in p.any
      ==> k in p.Over(f) && p.Over(f)[k] == p.any[k]
    ensures k !in p.envelope && k !in p.items && k !in p.all && k !in p.any && k in p.one
      ==> k in p.Over(f) && p.Over(f)[k] == p.one[k]
  {
  }

  ghost predicate From(f: Fields, part: Fields, g: Fields, k: string) {
    if k in part then k in g && g[k] == part[k] else KeepsKey(f, g, k)
  }

  lemma OverCombinators(p: Parts, f: Fields)
    requires p.Separate()
    ensures From(f, p.one, p.Over(f), "oneOf") && From(f, p.any, p.Over(f), "anyOf")
    ensures From(f, p.all, p.Over(f), "allOf") && From(f, p.items, p.Over(f), "items")
  {
    OverAt(p, f, "oneOf");
    OverAt(p, f, "anyOf");
    OverAt(p, f, "allOf");
    OverAt(p, f, "items");
  }

  lemma OverObject(p: Parts, f: Fields)
    requires p.Separate()
    ensures From(f, p.envelope, p.Over(f), "properties") && From(f, p.envelope, p.Over(f), "required")
    ensures From(f, p.envelope, p.Over(f), "additionalProperties")
  {
    OverAt(p, f, "properties");
    OverAt(p, f, "required");
    OverAt(p, f, "additionalProperties");
  }

  lemma OverOther(p: Parts, f: Fields, k: string)
    requires p.Separate() && k !in TOUCHED
    ensures KeepsKey(f, p.Over(f), k)
  {
    OverAt(p, f, k);
  }

  lemma PartsOk(f: Fields)
    requires Strict(Obj(f)).Ok?
    ensures !IsOpenDictionary(f)
    ensures StrictParts(Obj(f)).Ok?
    ensures Strict(Obj(f)).value == Obj(StrictParts(Obj(f)).value.Over(f))
  {
  }

  lemma PartsAre(f: Fields)
    requires StrictParts(Obj(f)).Ok?
    ensures var p, node := StrictParts(Obj(f)).value, Obj(f);
      && StrictCombinator(node, "oneOf") == Ok(p.one)
      && StrictCombinator(node, "anyOf") == Ok(p.any)
      && StrictCombinator(node, "allOf") == Ok(p.all)
      && StrictItems(node) == Ok(p.items)
      && StrictObject(node) == Ok(p.envelope)
  {
  }

  lemma {:induction false} PartOfCombinator(f: Fields, c: string, part: Fields, g: Fields)
    requires StrictCombinator(Obj(f), c) == Ok(part) && From(f, part, g, c)
    ensures if c in f then VariantsRewritten(f, g, c) else c !in g
  {
  }

  lemma StrictNodeCombinator(f: Fields, c: string)
    requires Strict(Obj(f)).Ok? && c in COMBINATORS
    ensures if c in f then VariantsRewritten(f, Strict(Obj(f)).value.fields, c) else c !in Strict(Obj(f)).value.fields
  {
    PartsOk(f);
    PartsAre(f);
    var p := StrictParts(Obj(f)).value;
    OverCombinators(p, f);
    PartOfCombinator(f, "oneOf", p.one, p.Over(f));
    PartOfCombinator(f, "anyOf", p.any, p.Over(f));
    PartOfCombinator(f, "allOf", p.all, p.Over(f));
  }

  lemma StrictNodeItems(f: Fields)
    requires Strict(Obj(f)).Ok?
    ensures if "items" in f then ItemsRewritten(f, Strict(Obj(f)).value.fields)
      else "items" !in Strict(Obj(f)).value.fields
  {
    PartsOk(f);
    PartsAre(f);
    OverCombinators(StrictParts(Obj(f)).value, f);
  }

  ghost predicate ObjectRewritten(f: Fields, g: Fields) {
    && (HasProperties(f) ==> PropertiesRewritten(f, g) && Enveloped(g))
    && (!HasProperties(f) && TypeIsObject(f) ==> Enveloped(g) && g["properties"] == Obj(map[]))
    && (!HasProperties(f) && !TypeIsObject(f) ==>
          KeepsKey(f, g, "properties") && KeepsKey(f, g, "required") && KeepsKey(f, g, "additionalProperties"))
  }

  lemma EnvelopeOver(f: Fields, properties: Fields, g: Fields)
    requires From(f, Envelope(properties), g, "properties") && From(f, Envelope(properties), g, "required")
    requires From(f, Envelope(properties), g, "additionalProperties")
    ensures Enveloped(g) && g["properties"] == Obj(properties)
  {
  }

  lemma PartOfObject(f: Fields, part: Fields, g: Fields)
    requires StrictObject(Obj(f)) == Ok(part)
    requires From(f, part, g, "properties") && From(f, part, g, "required") && From(f, part, g, "additionalProperties")
    ensures ObjectRewritten(f, g)
  {
    if HasProperties(f) {
      var props := f["properties"].fields;
      var rewritten := StrictProperties(Obj(f), SortedKeys(props.Keys)).value;
      EnvelopeOver(f, rewritten, g);
      assert PropertiesRewritten(f, g);
    } else if TypeIsObject(f) {
      EnvelopeOver(f, map[], g);
    }
  }

  lemma StrictNodeObject(f: Fields)
    requires Strict(Obj(f)).Ok?
    ensures ObjectRewritten(f, Strict(Obj(f)).value.fields)
  {
    PartsOk(f);
    PartsAre(f);
    var p := StrictParts(Obj(f)).value;
    OverObject(p, f);
    PartOfObject(f, p.envelope, p.Over(f));
  }

  lemma StrictNodeOther(f: Fields, k: string)
    requires Strict(Obj(f)).Ok? && k !in TOUCHED
    ensures KeepsKey(f, Strict(Obj(f)).value.fields, k)
  {
    PartsOk(f);
    OverOther(StrictParts(Obj(f)).value, f, k);
  }

  // ---- failure ----

  lemma {:induction false} FailedVariant(vs: seq<Json>, c: string, index: nat) returns (i: nat)
    requires StrictVariants(vs, c, index).Err?
    ensures i < |vs| && Strict(vs[i]).Err?
    ensures var r := StrictVariants(vs, c, index);
      r.defect == Strict(vs[i]).defect && r.path == [Variant(c, index + i)] + Strict(vs[i]).path
  {
    if Strict(vs[0]).Err? {
      i := 0;
    } else {
      LaterVariantFails(vs, c, index);
      var later := FailedVariant(vs[1..], c, index + 1);
      i := later + 1;
      assert vs[i] == vs[1..][later];
    }
  }

  lemma LaterVariantFails(vs: seq<Json>, c: string, index: nat)
    requires StrictVariants(vs, c, index).Err? && Strict(vs[0]).Ok?
    ensures StrictVariants(vs[1..], c, index + 1).Err?
    ensures var r, later := StrictVariants(vs, c, index), StrictVariants(vs[1..], c, index + 1);
      r.defect == later.defect && r.path == later.path
  {
  }

  lemma {:induction false} FailedProperty(f: Fields, keys: seq<string>) returns (k: string)
    requires HasProperties(f) && forall k | k in keys :: k in f["properties"].fields
    requires StrictProperties(Obj(f), keys).Err?
    ensures k in f["properties"].fields
    ensures var p := StrictProperty(f["properties"].fields[k], IsRequired(f, k));
      p.Err? && StrictProperties(Obj(f), keys) == Err(p.defect, [Property(k)] + p.path)
  {
    k := keys[0];
    if StrictProperty(f["properties"].fields[k], IsRequired(f, k)).Ok? {
      k := FailedProperty(f, keys[1..]);
    }
  }

  lemma DefectBelow(node: Json, step: Step, path: seq<Step>, defect: Defect)
    requires Child(node, step).Some? && DefectAt(Child(node, step).value, path, defect)
    ensures DefectAt(node, [step] + path, defect)
  {
    var whole := [step] + path;
    assert whole[1..] == path;
    if path != [] {
      assert whole[..|whole| - 1] == [step] + path[..|path| - 1];
      assert whole[..|whole| - 1][1..] == path[..|path| - 1];
    }
  }

  lemma {:induction false} CombinatorDefect(f: Fields, c: string)
    requires c in COMBINATORS && StrictCombinator(Obj(f), c).Err?
    ensures var r := StrictCombinator(Obj(f), c); DefectAt(Obj(f), r.path, r.defect)
    decreases Obj(f), 0
  {
    var vs := f[c].items;
    var i := FailedVariant(vs, c, 0);
    ErrIsDefect(vs[i]);
    DefectBelow(Obj(f), Variant(c, i), Strict(vs[i]).path, Strict(vs[i]).defect);
  }

  lemma ItemsDefect(f: Fields)
    requires StrictItems(Obj(f)).Err?
    ensures var r := StrictItems(Obj(f)); DefectAt(Obj(f), r.path, r.defect)
    decreases Obj(f), 0
  {
    ErrIsDefect(f["items"]);
    DefectBelow(Obj(f), Items, Strict(f["items"]).path, Strict(f["items"]).defect);
  }

  lemma PropertyDefect(f: Fields)
    requires StrictObject(Obj(f)).Err?
    ensures var r := StrictObject(Obj(f)); DefectAt(Obj(f), r.path, r.defect)
    decreases Obj(f), 0
  {
    var props := f["properties"].fields;
    var k := FailedProperty(f, SortedKeys(props.Keys));
    var failed := StrictProperty(props[k], IsRequired(f, k));
    assert StrictObject(Obj(f)) == Err(failed.defect, [Property(k)] + failed.path);
    if Strict(props[k]).Err? {
      DefectBelowProperty(f, k);
    } else {
      NullabilityDefect(f, k);
    }
  }

  lemma DefectBelowProperty(f: Fields, k: string)
    requires HasProperties(f) && k in f["properties"].fields && Strict(f["properties"].fields[k]).Err?
    ensures var failed := StrictProperty(f["properties"].fields[k], IsRequired(f, k));
      failed.Err? && DefectAt(Obj(f), [Property(k)] + failed.path, failed.defect)
    decreases Obj(f), 0, 0
  {
    var prop := f["properties"].fields[k];
    ErrIsDefect(prop);
    DefectBelow(Obj(f), Property(k), Strict(prop).path, Strict(prop).defect);
  }

  /** A property that is itself in order, but an ambiguous optional reference. */
  lemma NullabilityDefect(f: Fields, k: string)
    requires HasProperties(f) && k in f["properties"].fields
    requires var prop := f["properties"].fields[k]; Strict(prop).Ok? && StrictProperty(prop, IsRequired(f, k)).Err?
    ensures var failed := StrictProperty(f["properties"].fields[k], IsRequired(f, k));
      failed.path == [] && DefectAt(Obj(f), [Property(k)] + failed.path, failed.defect)
  {
    var prop, path := f["properties"].fields[k], [Property(k)];
    StrictKeepsRefShape(prop);
    AmbiguousNode(prop);
    assert path[..|path| - 1] == [];
    assert path + [] == path;
    assert NodeAt(Obj(f), path) == Some(prop) by { assert path[1..] == []; }
  }

  lemma {:induction false} AmbiguousNode(prop: Json)
    requires prop.Obj? && Strict(prop).Ok? && Nullable(Strict(prop).value).Err?
    requires var f, g := prop.fields, Strict(prop).value.fields;
      && KeepsKey(f, g, "type") && ("$ref" in f <==> "$ref" in g) && ("allOf" in f <==> "allOf" in g)
      && (HasNullBranch(f) <==> HasNullBranch(g))
    ensures IsAmbiguousRef(prop.fields) && Nullable(Strict(prop).value) == Err(AmbiguousOptionalRef, [])
  {
  }

  lemma {:induction false} NullKept(v: Json)
    requires Strict(v).Ok?
    ensures IsNullType(v) <==> IsNullType(Strict(v).value)
  {
    if v.Obj? {
      StrictNodeOther(v.fields, "type");
    }
  }

  lemma NullBranchKept(vs: seq<Json>, ws: seq<Json>)
    requires |vs| == |ws| && forall i | 0 <= i < |vs| :: Strict(vs[i]) == Ok(ws[i])
    ensures (exists v | v in vs :: IsNullType(v)) <==> (exists w | w in ws :: IsNullType(w))
  {
    if v :| v in vs && IsNullType(v) {
      var i :| 0 <= i < |vs| && vs[i] == v;
      NullKept(vs[i]);
      assert IsNullType(ws[i]);
    }
    if w :| w in ws && IsNullType(w) {
      var i :| 0 <= i < |ws| && ws[i] == w;
      NullKept(vs[i]);
      assert IsNullType(vs[i]);
    }
  }

  /** A node that `Strict` returns keeps the signs that `Nullable` looks at. */
  lemma {:induction false} StrictKeepsRefShape(schema: Json)
    requires Strict(schema).Ok? && schema.Obj?
    ensures var f, g := schema.fields, Strict(schema).value.fields;
      && KeepsKey(f, g, "type") && ("$ref" in f <==> "$ref" in g) && ("allOf" in f <==> "allOf" in g)
      && (HasNullBranch(f) <==> HasNullBranch(g))
  {
    var f, g := schema.fields, Strict(schema).value.fields;
    StrictNodeOther(f, "type");
    StrictNodeOther(f, "$ref");
    StrictNodeCombinator(f, "allOf");
    StrictNodeCombinator(f, "anyOf");
    if "anyOf" in f && f["anyOf"].Arr? {
      NullBranchKept(f["anyOf"].items, g["anyOf"].items);
    }
  }

  /** The path and defect that the rewriter reports are really there. */
  lemma {:induction false} ErrIsDefect(node: Json)
    requires Strict(node).Err?
    ensures DefectAt(node, Strict(node).path, Strict(node).defect)
    decreases node, 1
  {
    var f := node.fields;
    if !IsOpenDictionary(f) {
      if StrictCombinator(node, "oneOf").Err? {
        CombinatorDefect(f, "oneOf");
      } else if StrictCombinator(node, "anyOf").Err? {
        CombinatorDefect(f, "anyOf");
      } else if StrictCombinator(node, "allOf").Err? {
        CombinatorDefect(f, "allOf");
      } else if StrictItems(node).Err? {
        ItemsDefect(f);
      } else {
        PropertyDefect(f);
      }
    }
  }

  lemma {:induction false} DefectMeansErr(node: Json, path: seq<Step>, defect: Defect)
    requires DefectAt(node, path, defect)
    ensures Strict(node).Err?
    decreases path
  {
    if Strict(node).Ok? && path != [] {
      var child := Child(node, path[0]).value;
      ChildIsOk(node, path[0]);
      if |path| == 1 {
        assert path[..0] == [] && path[1..] == [];
        assert NodeAt(node, path) == Some(child);
        StrictKeepsRefShape(child);
      } else {
        var rest := path[1..];
        assert rest[..|rest| - 1] == path[..|path| - 1][1..];
        DefectMeansErr(child, rest, defect);
      }
    }
  }

  lemma {:induction false} ChildIsOk(node: Json, step: Step)
    requires Strict(node).Ok? && Child(node, step).Some?
    ensures Strict(Child(node, step).value).Ok?
    ensures step.Property? ==> StrictProperty(Child(node, step).value, IsRequired(node.fields, step.name)).Ok?
  {
    match step
    case Variant(c, i) => StrictNodeCombinator(node.fields, c);
    case Items => StrictNodeItems(node.fields);
    case Property(k) => StrictNodeObject(node.fields);
  }

  // ---- what the output looks like ----

  /** A closed object node: every property required, nothing else allowed. */
  ghost predicate Closed(node: Json) {
    node.Obj? ==>
      && !IsOpenDictionary(node.fields)
      && (HasProperties(node.fields) || TypeIsObject(node.fields) ==> Enveloped(node.fields))
  }

  lemma NullableClosed(schema: Json)
    requires Nullable(schema).Ok? && Closed(schema)
    ensures Closed(Nullable(schema).value)
  {
    assert ANY_TYPE != Str("object");
  }

  lemma RewrittenIsClosed(f: Fields, g: Fields)
    requires !IsOpenDictionary(f) && ObjectRewritten(f, g) && KeepsKey(f, g, "type")
    ensures Closed(Obj(g))
  {
    if !HasProperties(f) && !TypeIsObject(f) {
      assert !HasProperties(g) && !TypeIsObject(g);
    } else {
      assert Enveloped(g);
    }
  }

  lemma StrictObjectClosed(f: Fields, g: Fields)
    requires Strict(Obj(f)) == Ok(Obj(g))
    ensures Closed(Obj(g))
  {
    assert Strict(Obj(f)).value.fields == g;
    PartsOk(f);
    StrictNodeObject(f);
    StrictNodeOther(f, "type");
    RewrittenIsClosed(f, Strict(Obj(f)).value.fields);
  }

  lemma {:induction false} StrictClosed(schema: Json)
    requires Strict(schema).Ok?
    ensures Closed(Strict(schema).value)
  {
    if schema.Obj? {
      StrictObjectClosed(schema.fields, Strict(schema).value.fields);
    }
  }

  /** Nullability touches no node below the property. */
  lemma NullableChild(schema: Json, step: Step)
    requires Nullable(schema).Ok?
    ensures Child(Nullable(schema).value, step) == Child(schema, step)
  {
    assert COMBINATORS == ["oneOf", "anyOf", "allOf"];
  }

  ghost predicate ChildRewritten(f: Fields, g: Fields, step: Step) {
    var before, after := Child(Obj(f), step), Child(Obj(g), step);
    && (before.Some? <==> after.Some?)
    && (before.Some? ==> StrictProperty(before.value, step.Property? ==> IsRequired(f, step.name)) == Ok(after.value))
  }

  lemma VariantChild(f: Fields, g: Fields, c: string, i: nat)
    requires if c in f then VariantsRewritten(f, g, c) else c !in g
    ensures ChildRewritten(f, g, Variant(c, i))
  {
  }

  lemma ItemsChild(f: Fields, g: Fields)
    requires if "items" in f then ItemsRewritten(f, g) else "items" !in g
    ensures ChildRewritten(f, g, Items)
  {
  }

  lemma PropertyChild(f: Fields, g: Fields, k: string)
    requires ObjectRewritten(f, g)
    ensures ChildRewritten(f, g, Property(k))
  {
  }

  lemma StrictNodeChild(f: Fields, g: Fields, step: Step)
    requires Strict(Obj(f)) == Ok(Obj(g))
    ensures ChildRewritten(f, g, step)
  {
    match step
    case Variant(c, i) =>
      if c in COMBINATORS {
        StrictNodeCombinator(f, c);
        VariantChild(f, g, c, i);
      }
    case Items =>
      StrictNodeItems(f);
      ItemsChild(f, g);
    case Property(k) =>
      StrictNodeObject(f);
      PropertyChild(f, g, k);
    case Definition(_) =>
  }

  /** The schema that a child of a rewritten node was rewritten from. */
  lemma {:induction false} StrictChild(schema: Json, step: Step)
    requires Strict(schema).Ok?
    ensures Child(schema, step).Some? <==> Child(Strict(schema).value, step).Some?
    ensures Child(schema, step).Some? ==>
      StrictProperty(Child(schema, step).value, step.Property? ==> IsRequired(schema.fields, step.name))
        == Ok(Child(Strict(schema).value, step).value)
  {
    if schema.Obj? {
      StrictNodeChild(schema.fields, Strict(schema).value.fields, step);
    }
  }

  lemma {:induction false} PropertyClosedBelow(schema: Json, required: bool, path: seq<Step>)
    requires StrictProperty(schema, required).Ok?
    ensures var after := NodeAt(StrictProperty(schema, required).value, path);
      && (after.Some? <==> NodeAt(schema, path).Some?)
      && (after.Some? ==> Closed(after.value))
    decreases path
  {
    var strict := Strict(schema).value;
    if path == [] {
      StrictClosed(schema);
      if !required { NullableClosed(strict); }
    } else {
      if !required { NullableChild(strict, path[0]); }
      StrictChild(schema, path[0]);
      var child := Child(schema, path[0]);
      if child.Some? {
        PropertyClosedBelow(child.value, path[0].Property? ==> IsRequired(schema.fields, path[0].name), path[1..]);
      }
    }
  }

  // ---- fixed points ----

  lemma {:induction false} RequiredHolds(properties: Fields, k: string)
    requires k in properties
    ensures Str(k) in RequiredArray(properties).items
  {
    var keys := SortedKeys(properties.Keys);
    var i :| 0 <= i < |keys| && keys[i] == k;
    assert RequiredArray(properties).items[i] == Str(k);
  }

  ghost predicate ClosedBelow(schema: Json) {
    forall path :: NodeAt(schema, path).Some? ==> Closed(NodeAt(schema, path).value)
  }

  lemma ClosedChild(schema: Json, step: Step)
    requires ClosedBelow(schema) && Child(schema, step).Some?
    ensures ClosedBelow(Child(schema, step).value)
  {
    var child := Child(schema, step).value;
    forall path | NodeAt(child, path).Some? ensures Closed(NodeAt(child, path).value) {
      var whole := [step] + path;
      assert whole[1..] == path;
      assert NodeAt(schema, whole) == NodeAt(child, path);
    }
  }

  ghost predicate Within(part: Fields, f: Fields) {
    forall k | k in part :: k in f && part[k] == f[k]
  }

  lemma OverWithin(p: Parts, f: Fields)
    requires Within(p.one, f) && Within(p.any, f) && Within(p.all, f) && Within(p.items, f) && Within(p.envelope, f)
    ensures p.Over(f) == f
  {
  }

  lemma PartsWithin(f: Fields, one: Fields, any: Fields, all: Fields, items: Fields, envelope: Fields)
    requires !IsOpenDictionary(f)
    requires StrictCombinator(Obj(f), "oneOf") == Ok(one) && StrictCombinator(Obj(f), "anyOf") == Ok(any)
    requires StrictCombinator(Obj(f), "allOf") == Ok(all) && StrictItems(Obj(f)) == Ok(items)
    requires StrictObject(Obj(f)) == Ok(envelope)
    requires Within(one, f) && Within(any, f) && Within(all, f) && Within(items, f) && Within(envelope, f)
    ensures Strict(Obj(f)) == Ok(Obj(f))
  {
    assert StrictParts(Obj(f)) == Ok(Parts(one, any, all, items, envelope));
    OverWithin(Parts(one, any, all, items, envelope), f);
  }

  lemma {:induction false} ClosedIsFixed(schema: Json)
    requires ClosedBelow(schema)
    ensures Strict(schema) == Ok(schema)
    decreases schema, 2
  {
    assert NodeAt(schema, []) == Some(schema);
    if schema.Obj? {
      var one := CombinatorFixed(schema, "oneOf");
      var any := CombinatorFixed(schema, "anyOf");
      var all := CombinatorFixed(schema, "allOf");
      var items := ItemsFixed(schema);
      var envelope := ObjectFixed(schema);
      PartsWithin(schema.fields, one, any, all, items, envelope);
    }
  }

  lemma CombinatorFixed(schema: Json, c: string) returns (part: Fields)
    requires schema.Obj? && ClosedBelow(schema) && c in COMBINATORS
    ensures StrictCombinator(schema, c) == Ok(part) && Within(part, schema.fields)
    decreases schema, 0
  {
    var f := schema.fields;
    if c in f && f[c].Arr? {
      forall i | 0 <= i < |f[c].items| ensures Strict(f[c].items[i]) == Ok(f[c].items[i]) {
        ClosedChild(schema, Variant(c, i));
        ClosedIsFixed(f[c].items[i]);
      }
      assert StrictVariants(f[c].items, c, 0).value == f[c].items;
      part := map[c := f[c]];
    } else {
      part := map[];
    }
  }

  lemma ItemsFixed(schema: Json) returns (part: Fields)
    requires schema.Obj? && ClosedBelow(schema)
    ensures StrictItems(schema) == Ok(part) && Within(part, schema.fields)
    decreases schema, 0
  {
    if "items" in schema.fields {
      ClosedChild(schema, Items);
      ClosedIsFixed(schema.fields["items"]);
      part := map["items" := schema.fields["items"]];
    } else {
      part := map[];
    }
  }

  lemma EnvelopeWithin(f: Fields)
    requires Enveloped(f)
    ensures Within(Envelope(f["properties"].fields), f)
  {
  }

  lemma EachPropertyFixed(schema: Json)
    requires schema.Obj? && ClosedBelow(schema) && HasProperties(schema.fields)
    ensures var f := schema.fields;
      forall k | k in f["properties"].fields ::
        StrictProperty(f["properties"].fields[k], IsRequired(f, k)) == Ok(f["properties"].fields[k])
    decreases schema, 0, 1
  {
    var f := schema.fields;
    forall k | k in f["properties"].fields
      ensures StrictProperty(f["properties"].fields[k], IsRequired(f, k)) == Ok(f["properties"].fields[k])
    {
      PropertyFixed(schema, k);
    }
  }

  lemma PropertyFixed(schema: Json, k: string)
    requires schema.Obj? && ClosedBelow(schema) && HasProperties(schema.fields)
    requires k in schema.fields["properties"].fields
    ensures var p := schema.fields["properties"].fields[k];
      StrictProperty(p, IsRequired(schema.fields, k)) == Ok(p)
    decreases schema, 0, 0
  {
    assert NodeAt(schema, []) == Some(schema);
    assert Child(schema, Property(k)) == Some(schema.fields["properties"].fields[k]);
    ClosedChild(schema, Property(k));
    ClosedIsFixed(schema.fields["properties"].fields[k]);
    RequiredHolds(schema.fields["properties"].fields, k);
  }

  lemma AllPropertiesFixed(f: Fields)
    requires HasProperties(f)
    requires forall k | k in f["properties"].fields ::
      StrictProperty(f["properties"].fields[k], IsRequired(f, k)) == Ok(f["properties"].fields[k])
    ensures var props := f["properties"].fields;
      StrictProperties(Obj(f), SortedKeys(props.Keys)) == Ok(props)
  {
    var props := f["properties"].fields;
    var r := StrictProperties(Obj(f), SortedKeys(props.Keys));
    assert r.value.Keys == props.Keys;
    assert r.value == props;
  }

  lemma ObjectFixed(schema: Json) returns (part: Fields)
    requires schema.Obj? && ClosedBelow(schema)
    ensures StrictObject(schema) == Ok(part) && Within(part, schema.fields)
    decreases schema, 1
  {
    var f := schema.fields;
    assert NodeAt(schema, []) == Some(schema);
    if HasProperties(f) {
      EachPropertyFixed(schema);
      AllPropertiesFixed(f);
      EnvelopeWithin(f);
      part := Envelope(f["properties"].fields);
    } else {
      part := map[];
    }
  }

  // ---- what is kept ----

  /** The path ends at a property that its object does not require. */
  predicate OptionalAt(schema: Json, path: seq<Step>) {
    && path != [] && path[|path| - 1].Property?
    && var parent := NodeAt(schema, path[..|path| - 1]);
       parent.Some? && parent.value.Obj? && !IsRequired(parent.value.fields, path[|path| - 1].name)
  }

  /** `after` is `before` with its subschemas and envelope rewritten, every other
      keyword as it was, and a type list added exactly to an untyped optional
      property without a null branch. */
  ghost predicate Kept(before: Json, after: Json, optional: bool) {
    if before.Obj? then after.Obj? && KeptFields(before.fields, after.fields, optional) else after == before
  }

  ghost predicate KeptFields(f: Fields, g: Fields, optional: bool) {
    && (forall k | k !in TOUCHED && k != "type" && k != "definitions" :: KeepsKey(f, g, k))
    && (HasProperties(f) ==> HasProperties(g))
    && (!HasProperties(f) && !TypeIsObject(f) ==> KeepsKey(f, g, "required"))
    && if "type" !in f && optional && !HasNullBranch(f)
       then "type" in g && g["type"] == ANY_TYPE
       else KeepsKey(f, g, "type")
  }

  lemma KeptFieldsFrom(f: Fields, g: Fields)
    requires ObjectRewritten(f, g) && forall k | k !in TOUCHED :: KeepsKey(f, g, k)
    ensures KeptFields(f, g, false)
  {
    assert "type" !in TOUCHED;
  }

  lemma {:induction false} StrictKept(schema: Json)
    requires Strict(schema).Ok?
    ensures Kept(schema, Strict(schema).value, false)
  {
    if schema.Obj? {
      var f, g := schema.fields, Strict(schema).value.fields;
      assert ObjectRewritten(f, g) by { StrictNodeObject(f); }
      assert forall k | k !in TOUCHED :: KeepsKey(f, g, k) by {
        forall k | k !in TOUCHED ensures KeepsKey(f, g, k) { StrictNodeOther(f, k); }
      }
      KeptFieldsFrom(f, g);
    }
  }

  lemma {:induction false} NullableKept(schema: Json, strict: Json)
    requires Strict(schema) == Ok(strict) && Nullable(strict).Ok?
    requires Kept(schema, strict, false)
    ensures Kept(schema, Nullable(strict).value, true)
  {
    if schema.Obj? {
      StrictKeepsRefShape(schema);
      var f, g := schema.fields, strict.fields;
      var h := g["type" := ANY_TYPE];
      if "type" !in f && !HasNullBranch(f) {
        forall k | k !in TOUCHED && k != "type" && k != "definitions" ensures KeepsKey(f, h, k) {
          assert KeepsKey(f, g, k);
        }
      }
    }
  }

  lemma OptionalBelow(schema: Json, path: seq<Step>)
    requires |path| > 1 && Child(schema, path[0]).Some?
    ensures OptionalAt(schema, path) <==> OptionalAt(Child(schema, path[0]).value, path[1..])
  {
    var rest := path[1..];
    assert rest[..|rest| - 1] == path[..|path| - 1][1..];
  }

  lemma {:induction false} KeptBelow(schema: Json, required: bool, path: seq<Step>)
    requires StrictProperty(schema, required).Ok? && NodeAt(schema, path).Some?
    ensures var after := NodeAt(StrictProperty(schema, required).value, path);
      && after.Some?
      && Kept(NodeAt(schema, path).value, after.value, if path == [] then !required else OptionalAt(schema, path))
    decreases path
  {
    var strict := Strict(schema).value;
    if path == [] {
      StrictKept(schema);
      if !required { NullableKept(schema, strict); }
    } else {
      if !required { NullableChild(strict, path[0]); }
      StrictChild(schema, path[0]);
      var child := Child(schema, path[0]).value;
      KeptBelow(child, path[0].Property? ==> IsRequired(schema.fields, path[0].name), path[1..]);
      if |path| == 1 {
        assert path[..0] == [];
      } else {
        OptionalBelow(schema, path);
      }
    }
  }
}
