/** The rewriter's own loops, each proved to end with what `StrictSchema` says. */
module StrictRewriter {
  import opened Json
  import opened StrictSchema

  method EnsureNullableOrReject(schema: Json) returns (r: Outcome<Json>)
    ensures r == Nullable(schema)
  {
    if !schema.Obj? { return Ok(schema); }
    var obj := schema.fields;
    if "type" in obj { return Ok(schema); }
    if "anyOf" in obj && obj["anyOf"].Arr? {
      var variants := obj["anyOf"].items;
      for i := 0 to |variants|
        invariant forall v | v in variants[..i] :: !IsNullType(v)
      {
        var variant := variants[i];
        if variant.Obj? && "type" in variant.fields && variant.fields["type"] == Str("null") {
          assert variants[i] in obj["anyOf"].items;
          return Ok(schema);
        }
      }
      assert variants[..|variants|] == variants;
    }
    if "$ref" in obj || "allOf" in obj { return Err(AmbiguousOptionalRef, []); }
    var names := [Str("string"), Str("number"), Str("object"), Str("array"), Str("boolean"), Str("null")];
    obj := obj["type" := Arr(names)];
    return Ok(Obj(obj));
  }

  /** The variants from `k` on fail where the first of them does. */
  lemma {:induction false} FirstFailedVariant(variants: seq<Json>, combinator: string, k: nat, i: nat)
    requires k <= i < |variants| && Strict(variants[i]).Err?
    requires forall j | k <= j < i :: Strict(variants[j]).Ok?
    ensures StrictVariants(variants[k..], combinator, k)
      == Err(Strict(variants[i]).defect, [Variant(combinator, i)] + Strict(variants[i]).path)
    decreases i - k
  {
    if k == i {
      VariantFails(variants[k..], combinator, k);
    } else {
      FirstFailedVariant(variants, combinator, k + 1, i);
      assert variants[k..][1..] == variants[k + 1..];
      LaterFails(variants[k..], combinator, k, StrictVariants(variants[k + 1..], combinator, k + 1));
    }
  }

  lemma {:induction false} VariantFails(variants: seq<Json>, combinator: string, index: nat)
    requires variants != [] && Strict(variants[0]).Err?
    ensures StrictVariants(variants, combinator, index)
      == Err(Strict(variants[0]).defect, [Variant(combinator, index)] + Strict(variants[0]).path)
  {
  }

  lemma LaterFails(variants: seq<Json>, combinator: string, index: nat, rest: Outcome<seq<Json>>)
    requires variants != [] && Strict(variants[0]).Ok?
    requires rest == StrictVariants(variants[1..], combinator, index + 1) && rest.Err?
    ensures StrictVariants(variants, combinator, index) == Err(rest.defect, rest.path)
  {
  }

  lemma {:induction false} FirstFailedProperty(node: Json, keys: seq<string>, i: nat)
    requires node.Obj? && HasProperties(node.fields)
    requires forall k | k in keys :: k in node.fields["properties"].fields
    requires i < |keys|
    requires StrictProperty(node.fields["properties"].fields[keys[i]], IsRequired(node.fields, keys[i])).Err?
    requires forall j | 0 <= j < i ::
      StrictProperty(node.fields["properties"].fields[keys[j]], IsRequired(node.fields, keys[j])).Ok?
    ensures var p := StrictProperty(node.fields["properties"].fields[keys[i]], IsRequired(node.fields, keys[i]));
      StrictProperties(node, keys) == Err(p.defect, [Property(keys[i])] + p.path)
  {
    if i > 0 {
      FirstFailedProperty(node, keys[1..], i - 1);
    }
  }

  lemma {:induction false} FirstFailedDefinition(definitions: Fields, keys: seq<string>, i: nat)
    requires forall k | k in keys :: k in definitions
    requires i < |keys| && Strict(definitions[keys[i]]).Err?
    requires forall j | 0 <= j < i :: Strict(definitions[keys[j]]).Ok?
    ensures StrictDefinitions(definitions, keys)
      == Err(Strict(definitions[keys[i]]).defect, [Definition(keys[i])] + Strict(definitions[keys[i]]).path)
  {
    if i > 0 {
      FirstFailedDefinition(definitions, keys[1..], i - 1);
    }
  }

  method StrictifyVariants(variants: seq<Json>, combinator: string) returns (r: Outcome<seq<Json>>)
    ensures r == StrictVariants(variants, combinator, 0)
    decreases variants, 0
  {
    var rewritten := variants;
    for i := 0 to |variants|
      invariant |rewritten| == |variants| && rewritten[i..] == variants[i..]
      invariant forall j | 0 <= j < i :: Strict(variants[j]) == Ok(rewritten[j])
    {
      var variant := StrictifyNode(variants[i]);
      if variant.Err? {
        FirstFailedVariant(variants, combinator, 0, i);
        assert variants[0..] == variants;
        return Err(variant.defect, [Variant(combinator, i)] + variant.path);
      }
      rewritten := rewritten[i := variant.value];
    }
    assert rewritten == StrictVariants(variants, combinator, 0).value;
    return Ok(rewritten);
  }

  /** `rewritten` holds the results for exactly these keys. */
  ghost predicate Gathered(node: Json, keys: seq<string>, rewritten: Fields)
    requires node.Obj? && HasProperties(node.fields)
    requires forall k | k in keys :: k in node.fields["properties"].fields
  {
    && rewritten.Keys == (set k | k in keys)
    && forall k | k in keys ::
      StrictProperty(node.fields["properties"].fields[k], IsRequired(node.fields, k)) == Ok(rewritten[k])
  }

  lemma {:induction false} GatheredAll(node: Json, keys: seq<string>, rewritten: Fields)
    requires node.Obj? && HasProperties(node.fields)
    requires forall k | k in keys :: k in node.fields["properties"].fields
    requires Gathered(node, keys, rewritten)
    ensures StrictProperties(node, keys) == Ok(rewritten)
  {
    assert StrictProperties(node, keys).Ok?;
    assert StrictProperties(node, keys).value == rewritten;
  }

  lemma GatheredMore(node: Json, keys: seq<string>, rewritten: Fields, key: string, property: Json)
    requires node.Obj? && HasProperties(node.fields)
    requires forall k | k in keys :: k in node.fields["properties"].fields
    requires Gathered(node, keys, rewritten) && key in node.fields["properties"].fields
    requires StrictProperty(node.fields["properties"].fields[key], IsRequired(node.fields, key)) == Ok(property)
    ensures Gathered(node, keys + [key], rewritten[key := property])
  {
  }

  lemma {:induction false} GatheredUntil(node: Json, keys: seq<string>, i: nat, rewritten: Fields)
    requires node.Obj? && HasProperties(node.fields)
    requires forall k | k in keys :: k in node.fields["properties"].fields
    requires i < |keys| && Gathered(node, keys[..i], rewritten)
    requires StrictProperty(node.fields["properties"].fields[keys[i]], IsRequired(node.fields, keys[i])).Err?
    ensures var p := StrictProperty(node.fields["properties"].fields[keys[i]], IsRequired(node.fields, keys[i]));
      StrictProperties(node, keys) == Err(p.defect, [Property(keys[i])] + p.path)
  {
    forall j | 0 <= j < i
      ensures StrictProperty(node.fields["properties"].fields[keys[j]], IsRequired(node.fields, keys[j])).Ok?
    {
      assert keys[j] in keys[..i];
    }
    FirstFailedProperty(node, keys, i);
  }

  method StrictifyProperties(node: Json, keys: seq<string>) returns (r: Outcome<Fields>)
    requires node.Obj? && HasProperties(node.fields)
    requires forall k | k in keys :: k in node.fields["properties"].fields
    ensures r == StrictProperties(node, keys)
    decreases node, 0
  {
    var properties := node.fields["properties"].fields;
    var rewritten: Fields := map[];
    for i := 0 to |keys|
      invariant Gathered(node, keys[..i], rewritten)
    {
      var key := keys[i];
      assert key in keys;
      var required := "required" in node.fields && node.fields["required"].Arr?
        && Str(key) in node.fields["required"].items;
      var property := StrictifyProperty(properties[key], required);
      if property.Err? {
        GatheredUntil(node, keys, i, rewritten);
        return Err(property.defect, [Property(key)] + property.path);
      }
      GatheredMore(node, keys[..i], rewritten, key, property.value);
      assert keys[..i + 1] == keys[..i] + [key];
      rewritten := rewritten[key := property.value];
    }
    assert keys[..|keys|] == keys;
    GatheredAll(node, keys, rewritten);
    return Ok(rewritten);
  }

  method StrictifyProperty(schema: Json, required: bool) returns (r: Outcome<Json>)
    ensures r == StrictProperty(schema, required)
    decreases schema, 3
  {
    r := StrictifyNode(schema);
    if r.Ok? && !required {
      r := EnsureNullableOrReject(r.value);
    }
  }

  method StrictifyCombinator(node: Json, combinator: string) returns (r: Outcome<Fields>)
    requires node.Obj?
    ensures r == StrictCombinator(node, combinator)
    decreases node, 0
  {
    if combinator in node.fields && node.fields[combinator].Arr? {
      var variants := StrictifyVariants(node.fields[combinator].items, combinator);
      if variants.Err? { return Err(variants.defect, variants.path); }
      return Ok(map[combinator := Arr(variants.value)]);
    }
    return Ok(map[]);
  }

  lemma {:induction false} PartsFail(node: Json)
    requires node.Obj?
    ensures StrictCombinator(node, "oneOf").Err? ==>
      StrictParts(node) == Err(StrictCombinator(node, "oneOf").defect, StrictCombinator(node, "oneOf").path)
    ensures StrictCombinator(node, "oneOf").Ok? && StrictCombinator(node, "anyOf").Err? ==>
      StrictParts(node) == Err(StrictCombinator(node, "anyOf").defect, StrictCombinator(node, "anyOf").path)
    ensures var one, any, all := StrictCombinator(node, "oneOf"), StrictCombinator(node, "anyOf"),
                                 StrictCombinator(node, "allOf");
      one.Ok? && any.Ok? && all.Err? ==> StrictParts(node) == Err(all.defect, all.path)
  {
  }

  /** The loop over the combinators: what it lays over the node, or its failure. */
  ghost predicate CombinatorsRun(node: Json, count: nat, obj: Fields)
    requires node.Obj? && count <= 3
  {
    var one, any := StrictCombinator(node, "oneOf"), StrictCombinator(node, "anyOf");
    var all := StrictCombinator(node, "allOf");
    match count
    case 0 => obj == node.fields
    case 1 => one.Ok? && obj == node.fields + one.value
    case 2 => one.Ok? && any.Ok? && obj == node.fields + one.value + any.value
    case _ => one.Ok? && any.Ok? && all.Ok? && obj == node.fields + one.value + any.value + all.value
  }

  method StrictifyNode(node: Json) returns (r: Outcome<Json>)
    ensures r == Strict(node)
    decreases node, 2
  {
    if !node.Obj? { return Ok(node); }
    var obj := node.fields;
    if "additionalProperties" in obj
       && (obj["additionalProperties"].Obj? || obj["additionalProperties"] == Bool(true)) {
      return Err(OpenDictionary, []);
    }

    for c := 0 to |COMBINATORS|
      invariant |COMBINATORS| == 3 && CombinatorsRun(node, c, obj)
    {
      assert COMBINATORS == ["oneOf", "anyOf", "allOf"];
      var part := StrictifyCombinator(node, COMBINATORS[c]);
      if part.Err? {
        PartsFail(node);
        return Err(part.defect, part.path);
      }
      obj := obj + part.value;
    }

    var items := StrictifyItems(node);
    if items.Err? {
      assert StrictParts(node) == Err(items.defect, items.path);
      return Err(items.defect, items.path);
    }
    obj := obj + items.value;

    var envelope := StrictifyObject(node);
    if envelope.Err? {
      assert StrictParts(node) == Err(envelope.defect, envelope.path);
      return Err(envelope.defect, envelope.path);
    }
    obj := obj + envelope.value;
    assert StrictParts(node).Ok? && obj == StrictParts(node).value.Over(node.fields);
    return Ok(Obj(obj));
  }

  method StrictifyItems(node: Json) returns (r: Outcome<Fields>)
    requires node.Obj?
    ensures r == StrictItems(node)
    decreases node, 0
  {
    if "items" in node.fields {
      var items := StrictifyNode(node.fields["items"]);
      if items.Err? { return Err(items.defect, [Items] + items.path); }
      return Ok(map["items" := items.value]);
    }
    return Ok(map[]);
  }

  method StrictifyObject(node: Json) returns (r: Outcome<Fields>)
    requires node.Obj?
    ensures r == StrictObject(node)
    decreases node, 1
  {
    if "properties" in node.fields && node.fields["properties"].Obj? {
      var properties := StrictifyProperties(node, SortedKeys(node.fields["properties"].fields.Keys));
      if properties.Err? { return Err(properties.defect, properties.path); }
      var keys := SortedKeys(properties.value.Keys);
      var allRequired := seq(|keys|, i requires 0 <= i < |keys| => Str(keys[i]));
      return Ok(map["properties" := Obj(properties.value),
                    "required" := Arr(allRequired),
                    "additionalProperties" := Bool(false)]);
    }
    if "type" in node.fields && node.fields["type"] == Str("object") {
      assert RequiredArray(map[]) == Arr([]);
      return Ok(map["properties" := Obj(map[]), "required" := Arr([]), "additionalProperties" := Bool(false)]);
    }
    return Ok(map[]);
  }

  /** The definitions rewritten so far; the others are still as they were. */
  ghost predicate Replaced(definitions: Fields, keys: seq<string>, rewritten: Fields) {
    && rewritten.Keys == definitions.Keys
    && forall k | k in definitions ::
      if k in keys then Strict(definitions[k]) == Ok(rewritten[k]) else rewritten[k] == definitions[k]
  }

  lemma {:induction false} ReplacedUntil(definitions: Fields, keys: seq<string>, i: nat, rewritten: Fields)
    requires forall k | k in keys :: k in definitions
    requires i < |keys| && Replaced(definitions, keys[..i], rewritten) && Strict(definitions[keys[i]]).Err?
    ensures StrictDefinitions(definitions, keys)
      == Err(Strict(definitions[keys[i]]).defect, [Definition(keys[i])] + Strict(definitions[keys[i]]).path)
  {
    forall j | 0 <= j < i ensures Strict(definitions[keys[j]]).Ok? {
      assert keys[j] in keys[..i];
    }
    FirstFailedDefinition(definitions, keys, i);
  }

  lemma ReplacedMore(definitions: Fields, keys: seq<string>, rewritten: Fields, key: string, definition: Json)
    requires Replaced(definitions, keys, rewritten) && key in definitions
    requires Strict(definitions[key]) == Ok(definition)
    ensures Replaced(definitions, keys + [key], rewritten[key := definition])
  {
  }

  lemma {:induction false} ReplacedAll(definitions: Fields, keys: seq<string>, rewritten: Fields)
    requires forall k :: k in keys <==> k in definitions
    requires Replaced(definitions, keys, rewritten)
    ensures StrictDefinitions(definitions, keys) == Ok(rewritten)
  {
    assert StrictDefinitions(definitions, keys).Ok?;
    assert StrictDefinitions(definitions, keys).value == rewritten;
  }

  lemma NextIsOriginal(definitions: Fields, keys: seq<string>, i: nat, rewritten: Fields)
    requires i < |keys| && keys[i] in definitions && Replaced(definitions, keys[..i], rewritten)
    requires forall j | 0 <= j < i :: keys[j] != keys[i]
    ensures keys[i] in rewritten && rewritten[keys[i]] == definitions[keys[i]]
    ensures keys[..i + 1] == keys[..i] + [keys[i]]
  {
    assert keys[i] !in keys[..i];
  }

  method StrictifyDefinitions(definitions: Fields, keys: seq<string>) returns (r: Outcome<Fields>)
    requires forall k :: k in keys <==> k in definitions
    requires forall i, j | 0 <= i < j < |keys| :: keys[i] != keys[j]
    ensures r == StrictDefinitions(definitions, keys)
  {
    var rewritten := definitions;
    for i := 0 to |keys|
      invariant Replaced(definitions, keys[..i], rewritten)
    {
      var key := keys[i];
      assert key in keys;
      NextIsOriginal(definitions, keys, i, rewritten);
      var definition := StrictifyNode(rewritten[key]);
      if definition.Err? {
        ReplacedUntil(definitions, keys, i, rewritten);
        return Err(definition.defect, [Definition(key)] + definition.path);
      }
      ReplacedMore(definitions, keys[..i], rewritten, key, definition.value);
      rewritten := rewritten[key := definition.value];
    }
    assert keys[..|keys|] == keys;
    ReplacedAll(definitions, keys, rewritten);
    return Ok(rewritten);
  }

  method ToStrictSchema(schema: Json) returns (r: Outcome<Json>)
    ensures r == ToStrict(schema)
  {
    var root := schema;
    if root.Obj? && "definitions" in root.fields && root.fields["definitions"].Obj? {
      var keys := SortedKeys(root.fields["definitions"].fields.Keys);
      forall i, j | 0 <= i < j < |keys| ensures keys[i] != keys[j] { BeforeAsymmetric(keys[i], keys[j]); }
      var definitions := StrictifyDefinitions(root.fields["definitions"].fields, keys);
      if definitions.Err? { return Err(definitions.defect, definitions.path); }
      root := Obj(root.fields["definitions" := Obj(definitions.value)]);
    }
    r := StrictifyNode(root);
  }
}
