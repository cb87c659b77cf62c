/** When the rewrite only narrows: every value the output accepts, the input accepts.

    The strict reading of a schema implies the plain one, keyword by keyword, if the
    schema is narrowing.  A required name that is not listed is lost, so that hypothesis
    is needed; `SchemaFamilies` says the same of the others. */
module SchemaSound {
  import opened Json
  import opened StrictSchema
  import opened SchemaMeaning
  import opened SchemaExact

  // ---- schemas that a strict reading narrows ----

  predicate RefFree(s: Json) {
    match s
    case Obj(f) => "$ref" !in f && forall k | k in f :: RefFree(f[k])
    case Arr(vs) => forall i | 0 <= i < |vs| :: RefFree(vs[i])
    case _ => true
  }

  predicate RequiredListed(f: Fields) {
    "required" in f && f["required"].Arr? ==>
      forall name | name in f["required"].items :: name.Str? ==> ListedProperty(f, name.s)
  }

  ghost predicate Disjoint(voc: Vocabulary, root: Json, vs: seq<Json>) {
    forall fuel: nat, v, i, j | 0 <= i < j < |vs| ::
      !(Valid(voc, fuel, root, PLAIN, vs[i], v) && Valid(voc, fuel, root, PLAIN, vs[j], v))
  }

  /** No reference occurs below a keyword that may read its subschemas in any sense. */
  predicate OthersRefFree(f: Fields) {
    forall k | k in f && k !in KEYWORDS :: RefFree(f[k])
  }

  /** No required name is unlisted at a reached object node, `oneOf` branches
      exclude each other, and no reference occurs below a `not` or below a keyword
      that the rewriter does not know, such as `if` or `contains`. */
  ghost predicate Narrowing(voc: Vocabulary, root: Json, here: bool, s: Json)
    decreases s, 1
  {
    s.Obj? && "$ref" !in s.fields ==>
      var f := s.fields;
      && (here && (HasProperties(f) || TypeIsObject(f)) ==> RequiredListed(f))
      && (HasProperties(f) ==>
            forall k | k in f["properties"].fields :: Narrowing(voc, root, here, f["properties"].fields[k]))
      && ("patternProperties" in f && f["patternProperties"].Obj? ==>
            forall p | p in f["patternProperties"].fields ::
              Narrowing(voc, root, false, f["patternProperties"].fields[p]))
      && ("additionalProperties" in f ==> Narrowing(voc, root, false, f["additionalProperties"]))
      && ("items" in f ==>
            if f["items"].Arr? then
              forall i | 0 <= i < |f["items"].items| :: Narrowing(voc, root, false, f["items"].items[i])
            else Narrowing(voc, root, here, f["items"]))
      && ("items" in f && f["items"].Arr? && "additionalItems" in f ==>
            Narrowing(voc, root, false, f["additionalItems"]))
      && VariantsNarrowing(voc, root, here, s, "allOf")
      && VariantsNarrowing(voc, root, here, s, "anyOf")
      && VariantsNarrowing(voc, root, here, s, "oneOf")
      && (HasVariants(f, "oneOf") ==> Disjoint(voc, root, f["oneOf"].items))
      && ("not" in f ==> RefFree(f["not"]))
      && OthersRefFree(f)
  }

  ghost predicate VariantsNarrowing(voc: Vocabulary, root: Json, here: bool, s: Json, c: string)
    requires s.Obj?
    decreases s, 0
  {
    HasVariants(s.fields, c) ==>
      forall i | 0 <= i < |s.fields[c].items| :: Narrowing(voc, root, here, s.fields[c].items[i])
  }

  ghost predicate DocumentNarrowing(voc: Vocabulary, root: Json) {
    && Narrowing(voc, root, true, root)
    && (HasDefinitions(root) ==>
          forall k | k in root.fields["definitions"].fields ::
            Narrowing(voc, root, true, root.fields["definitions"].fields[k]))
  }

  // ---- schemas without references ----

  lemma {:induction false} RefFreeInside(whole: Json, sub: Json)
    requires RefFree(whole) && Inside(sub, whole)
    ensures RefFree(sub)
    decreases whole
  {
    if sub != whole {
      match whole
      case Obj(f) =>
        var k :| k in f && Inside(sub, f[k]);
        RefFreeInside(f[k], sub);
      case Arr(vs) =>
        var i :| 0 <= i < |vs| && Inside(sub, vs[i]);
        RefFreeInside(vs[i], sub);
    }
  }

  lemma {:induction false} RefFreeValid(voc: Vocabulary, fuel: nat, root: Json, s: Json, v: Json)
    requires RefFree(s)
    ensures Valid(voc, fuel, root, UNREACHED, s, v) <==> Valid(voc, fuel, root, PLAIN, s, v)
    decreases s, 2
  {
    if s.Obj? {
      RefFreeBelow(voc, fuel, root, s.fields);
      RefFreeMembers(voc, fuel, root, s.fields, v);
      RefFreeCombinations(voc, fuel, root, s.fields, v);
      NodesAgree(voc, fuel, root, UNREACHED, s.fields, root, PLAIN, s.fields, v);
    }
  }

  lemma {:induction false} RefFreeBelow(voc: Vocabulary, fuel: nat, root: Json, f: Fields)
    requires OthersRefFree(f)
    ensures BelowOthers(voc, fuel, root, UNREACHED, Obj(f)) == BelowOthers(voc, fuel, root, PLAIN, Obj(f))
    decreases Obj(f), 0
  {
    forall sub, w | InOthers(f, sub)
      ensures Valid(voc, fuel, root, UNREACHED, sub, w) == Valid(voc, fuel, root, PLAIN, sub, w)
    {
      var k :| k in f && k !in KEYWORDS && Inside(sub, f[k]);
      RefFreeInside(f[k], sub);
      RefFreeValid(voc, fuel, root, sub, w);
    }
  }

  lemma {:induction false} RefFreeMembers(voc: Vocabulary, fuel: nat, root: Json, f: Fields, v: Json)
    requires RefFree(Obj(f))
    ensures MembersValid(voc, fuel, root, UNREACHED, Obj(f), v) == MembersValid(voc, fuel, root, PLAIN, Obj(f), v)
    decreases Obj(f), 1
  {
    RefFreeProperties(voc, fuel, root, f, v);
    RefFreePatterns(voc, fuel, root, f, v);
    RefFreeAdditional(voc, fuel, root, f, v);
    RefFreeItems(voc, fuel, root, f, v);
    RefFreeLaterItems(voc, fuel, root, f, v);
    MembersAgree(voc, fuel, root, UNREACHED, f, root, PLAIN, f, v);
  }

  lemma {:induction false} RefFreeProperties(voc: Vocabulary, fuel: nat, root: Json, f: Fields, v: Json)
    requires RefFree(Obj(f))
    ensures PropertiesValid(voc, fuel, root, UNREACHED, Obj(f), v) == PropertiesValid(voc, fuel, root, PLAIN, Obj(f), v)
    decreases Obj(f), 0
  {
    if v.Obj? && HasProperties(f) {
      forall k | k in f["properties"].fields && k in v.fields
        ensures Valid(voc, fuel, root, UNREACHED, f["properties"].fields[k], v.fields[k])
             == Valid(voc, fuel, root, PLAIN, f["properties"].fields[k], v.fields[k])
      {
        RefFreeValid(voc, fuel, root, f["properties"].fields[k], v.fields[k]);
      }
    }
  }

  lemma {:induction false} RefFreePatterns(voc: Vocabulary, fuel: nat, root: Json, f: Fields, v: Json)
    requires RefFree(Obj(f))
    ensures PatternsValid(voc, fuel, root, UNREACHED, Obj(f), v) == PatternsValid(voc, fuel, root, PLAIN, Obj(f), v)
    decreases Obj(f), 0
  {
    if v.Obj? && "patternProperties" in f && f["patternProperties"].Obj? {
      forall p, k | p in f["patternProperties"].fields && k in v.fields
        ensures Valid(voc, fuel, root, UNREACHED, f["patternProperties"].fields[p], v.fields[k])
             == Valid(voc, fuel, root, PLAIN, f["patternProperties"].fields[p], v.fields[k])
      {
        RefFreeValid(voc, fuel, root, f["patternProperties"].fields[p], v.fields[k]);
      }
    }
  }

  lemma {:induction false} RefFreeAdditional(voc: Vocabulary, fuel: nat, root: Json, f: Fields, v: Json)
    requires RefFree(Obj(f))
    ensures AdditionalValid(voc, fuel, root, UNREACHED, Obj(f), v) == AdditionalValid(voc, fuel, root, PLAIN, Obj(f), v)
    decreases Obj(f), 0
  {
    if v.Obj? && "additionalProperties" in f && f["additionalProperties"].Obj? {
      forall k | k in v.fields
        ensures Valid(voc, fuel, root, UNREACHED, f["additionalProperties"], v.fields[k])
             == Valid(voc, fuel, root, PLAIN, f["additionalProperties"], v.fields[k])
      {
        RefFreeValid(voc, fuel, root, f["additionalProperties"], v.fields[k]);
      }
    }
  }

  lemma {:induction false} RefFreeItems(voc: Vocabulary, fuel: nat, root: Json, f: Fields, v: Json)
    requires RefFree(Obj(f))
    ensures ItemsValid(voc, fuel, root, UNREACHED, Obj(f), v) == ItemsValid(voc, fuel, root, PLAIN, Obj(f), v)
    decreases Obj(f), 0
  {
    if v.Arr? && "items" in f {
      forall i | 0 <= i < |v.items|
        ensures var s := if f["items"].Arr? && i < |f["items"].items| then f["items"].items[i] else f["items"];
          Valid(voc, fuel, root, UNREACHED, s, v.items[i]) == Valid(voc, fuel, root, PLAIN, s, v.items[i])
      {
        var s := if f["items"].Arr? && i < |f["items"].items| then f["items"].items[i] else f["items"];
        RefFreeValid(voc, fuel, root, s, v.items[i]);
      }
    }
  }

  lemma {:induction false} RefFreeLaterItems(voc: Vocabulary, fuel: nat, root: Json, f: Fields, v: Json)
    requires RefFree(Obj(f))
    ensures LaterItemsValid(voc, fuel, root, UNREACHED, Obj(f), v) == LaterItemsValid(voc, fuel, root, PLAIN, Obj(f), v)
    decreases Obj(f), 0
  {
    if v.Arr? && "additionalItems" in f {
      forall i | 0 <= i < |v.items|
        ensures Valid(voc, fuel, root, UNREACHED, f["additionalItems"], v.items[i])
             == Valid(voc, fuel, root, PLAIN, f["additionalItems"], v.items[i])
      {
        RefFreeValid(voc, fuel, root, f["additionalItems"], v.items[i]);
      }
    }
  }

  lemma {:induction false} RefFreeCombinations(voc: Vocabulary, fuel: nat, root: Json, f: Fields, v: Json)
    requires RefFree(Obj(f))
    ensures VariantsValid(voc, fuel, root, UNREACHED, Obj(f), v) == VariantsValid(voc, fuel, root, PLAIN, Obj(f), v)
    decreases Obj(f), 1
  {
    RefFreeVariants(voc, fuel, root, f, "allOf", v);
    RefFreeVariants(voc, fuel, root, f, "anyOf", v);
    RefFreeVariants(voc, fuel, root, f, "oneOf", v);
    RefFreeNot(voc, fuel, root, f, v);
    CombinationsAgree(voc, fuel, root, UNREACHED, f, root, PLAIN, f, v);
  }

  lemma {:induction false} RefFreeNot(voc: Vocabulary, fuel: nat, root: Json, f: Fields, v: Json)
    requires "not" in f ==> RefFree(f["not"])
    ensures NotValid(voc, fuel, root, UNREACHED, Obj(f), v) == NotValid(voc, fuel, root, PLAIN, Obj(f), v)
    decreases Obj(f), 0
  {
    if "not" in f { RefFreeValid(voc, fuel, root, f["not"], v); }
  }

  lemma {:induction false} RefFreeVariants(voc: Vocabulary, fuel: nat, root: Json, f: Fields, c: string, v: Json)
    requires RefFree(Obj(f))
    ensures VariantsAgree(voc, fuel, root, UNREACHED, f, root, PLAIN, f, c, v)
    decreases Obj(f), 0
  {
    if HasVariants(f, c) {
      forall i | 0 <= i < |f[c].items|
        ensures Valid(voc, fuel, root, UNREACHED, f[c].items[i], v) == Valid(voc, fuel, root, PLAIN, f[c].items[i], v)
      {
        assert RefFree(f[c]);
        RefFreeValid(voc, fuel, root, f[c].items[i], v);
      }
    }
  }

  // ---- the strict reading narrows ----

  lemma {:induction false} StrictNarrows(voc: Vocabulary, fuel: nat, root: Json, here: bool, s: Json, v: Json)
    requires DocumentNarrowing(voc, root) && Narrowing(voc, root, here, s)
    requires Valid(voc, fuel, root, Reading(true, here), s, v)
    ensures Valid(voc, fuel, root, PLAIN, s, v)
    decreases fuel, s, 3
  {
    if s.Obj? {
      if "$ref" in s.fields {
        StrictNarrows(voc, fuel - 1, root, true, Resolve(root, s.fields["$ref"]).value, v);
      } else {
        NodeNarrows(voc, fuel, root, here, s.fields, v);
      }
    }
  }

  lemma {:induction false} NodeNarrows(voc: Vocabulary, fuel: nat, root: Json, here: bool, f: Fields, v: Json)
    requires DocumentNarrowing(voc, root) && Narrowing(voc, root, here, Obj(f)) && "$ref" !in f
    requires NodeValid(voc, fuel, root, Reading(true, here), Obj(f), v)
    ensures NodeValid(voc, fuel, root, PLAIN, Obj(f), v)
    decreases fuel, Obj(f), 2
  {
    NamesNarrow(voc, here, f, v);
    RefFreeBelow(voc, fuel, root, f);
    BelowIgnoresHere(voc, fuel, root, here, f);
    MembersNarrow(voc, fuel, root, here, f, v);
    CombinationsNarrow(voc, fuel, root, here, f, v);
    NodeFollows(voc, fuel, root, here, f, v);
  }

  lemma {:induction false} BelowIgnoresHere(voc: Vocabulary, fuel: nat, root: Json, here: bool, f: Fields)
    ensures BelowOthers(voc, fuel, root, Reading(true, here), Obj(f)) == BelowOthers(voc, fuel, root, UNREACHED, Obj(f))
  {
  }

  lemma {:induction false} NodeFollows(voc: Vocabulary, fuel: nat, root: Json, here: bool, f: Fields, v: Json)
    requires NodeValid(voc, fuel, root, Reading(true, here), Obj(f), v)
    requires NamesAllowed(voc, false, f, v)
    requires BelowOthers(voc, fuel, root, Reading(true, here), Obj(f)) == BelowOthers(voc, fuel, root, PLAIN, Obj(f))
    requires MembersValid(voc, fuel, root, PLAIN, Obj(f), v) && VariantsValid(voc, fuel, root, PLAIN, Obj(f), v)
    ensures NodeValid(voc, fuel, root, PLAIN, Obj(f), v)
  {
  }

  lemma {:induction false} MembersNarrow(voc: Vocabulary, fuel: nat, root: Json, here: bool, f: Fields, v: Json)
    requires DocumentNarrowing(voc, root) && Narrowing(voc, root, here, Obj(f)) && "$ref" !in f
    requires MembersValid(voc, fuel, root, Reading(true, here), Obj(f), v)
    ensures MembersValid(voc, fuel, root, PLAIN, Obj(f), v)
    decreases fuel, Obj(f), 1
  {
    PropertiesNarrow(voc, fuel, root, here, f, v);
    PatternsNarrow(voc, fuel, root, here, f, v);
    AdditionalNarrows(voc, fuel, root, here, f, v);
    ItemsNarrow(voc, fuel, root, here, f, v);
    LaterItemsNarrow(voc, fuel, root, here, f, v);
  }

  lemma {:induction false} AdditionalNarrows(voc: Vocabulary, fuel: nat, root: Json, here: bool, f: Fields, v: Json)
    requires DocumentNarrowing(voc, root) && Narrowing(voc, root, here, Obj(f)) && "$ref" !in f
    requires AdditionalValid(voc, fuel, root, Reading(true, here), Obj(f), v)
    ensures AdditionalValid(voc, fuel, root, PLAIN, Obj(f), v)
    decreases fuel, Obj(f), 0
  {
    if v.Obj? && "additionalProperties" in f && f["additionalProperties"].Obj? {
      forall k | k in v.fields && !ListedProperty(f, k) && !PatternProperty(voc, f, k)
        ensures Valid(voc, fuel, root, PLAIN, f["additionalProperties"], v.fields[k])
      {
        StrictNarrows(voc, fuel, root, false, f["additionalProperties"], v.fields[k]);
      }
    }
  }

  lemma {:induction false} CombinationsNarrow(voc: Vocabulary, fuel: nat, root: Json, here: bool, f: Fields, v: Json)
    requires DocumentNarrowing(voc, root) && Narrowing(voc, root, here, Obj(f)) && "$ref" !in f
    requires VariantsValid(voc, fuel, root, Reading(true, here), Obj(f), v)
    ensures VariantsValid(voc, fuel, root, PLAIN, Obj(f), v)
    decreases fuel, Obj(f), 2, 0
  {
    VariantsNarrow(voc, fuel, root, here, f, v);
    NotNarrows(voc, fuel, root, here, f, v);
  }

  lemma {:induction false} NotNarrows(voc: Vocabulary, fuel: nat, root: Json, here: bool, f: Fields, v: Json)
    requires "not" in f ==> RefFree(f["not"])
    requires NotValid(voc, fuel, root, Reading(true, here), Obj(f), v)
    ensures NotValid(voc, fuel, root, PLAIN, Obj(f), v)
  {
    if "not" in f { RefFreeValid(voc, fuel, root, f["not"], v); }
  }

  lemma NamesNarrow(voc: Vocabulary, here: bool, f: Fields, v: Json)
    requires here && (HasProperties(f) || TypeIsObject(f)) ==> RequiredListed(f)
    requires NamesAllowed(voc, here, f, v)
    ensures NamesAllowed(voc, false, f, v)
  {
    if v.Obj? && here && (HasProperties(f) || TypeIsObject(f)) {
      forall k | IsRequired(f, k) ensures k in v.fields {
        assert Str(k) in f["required"].items && ListedProperty(f, Str(k).s);
      }
    }
  }

  lemma {:induction false} PropertiesNarrow(voc: Vocabulary, fuel: nat, root: Json, here: bool, f: Fields, v: Json)
    requires DocumentNarrowing(voc, root) && Narrowing(voc, root, here, Obj(f)) && "$ref" !in f
    requires PropertiesValid(voc, fuel, root, Reading(true, here), Obj(f), v)
    ensures PropertiesValid(voc, fuel, root, PLAIN, Obj(f), v)
    decreases fuel, Obj(f), 0
  {
    if v.Obj? && HasProperties(f) {
      forall k | k in f["properties"].fields && k in v.fields
        ensures Valid(voc, fuel, root, PLAIN, f["properties"].fields[k], v.fields[k])
      {
        StrictNarrows(voc, fuel, root, here, f["properties"].fields[k], v.fields[k]);
      }
    }
  }

  lemma {:induction false} PatternsNarrow(voc: Vocabulary, fuel: nat, root: Json, here: bool, f: Fields, v: Json)
    requires DocumentNarrowing(voc, root) && Narrowing(voc, root, here, Obj(f)) && "$ref" !in f
    requires PatternsValid(voc, fuel, root, Reading(true, here), Obj(f), v)
    ensures PatternsValid(voc, fuel, root, PLAIN, Obj(f), v)
    decreases fuel, Obj(f), 0
  {
    if v.Obj? && "patternProperties" in f && f["patternProperties"].Obj? {
      var ps := f["patternProperties"].fields;
      forall p, k | p in ps && k in v.fields && voc.matches(p, k)
        ensures Valid(voc, fuel, root, PLAIN, ps[p], v.fields[k])
      {
        StrictNarrows(voc, fuel, root, false, ps[p], v.fields[k]);
      }
    }
  }

  lemma {:induction false} ItemsNarrow(voc: Vocabulary, fuel: nat, root: Json, here: bool, f: Fields, v: Json)
    requires DocumentNarrowing(voc, root) && Narrowing(voc, root, here, Obj(f)) && "$ref" !in f
    requires ItemsValid(voc, fuel, root, Reading(true, here), Obj(f), v)
    ensures ItemsValid(voc, fuel, root, PLAIN, Obj(f), v)
    decreases fuel, Obj(f), 0
  {
    if v.Arr? && "items" in f {
      if f["items"].Arr? {
        var ss := f["items"].items;
        forall i | 0 <= i < |ss| && i < |v.items| ensures Valid(voc, fuel, root, PLAIN, ss[i], v.items[i]) {
          StrictNarrows(voc, fuel, root, false, ss[i], v.items[i]);
        }
      } else {
        forall i | 0 <= i < |v.items| ensures Valid(voc, fuel, root, PLAIN, f["items"], v.items[i]) {
          StrictNarrows(voc, fuel, root, here, f["items"], v.items[i]);
        }
      }
    }
  }

  lemma {:induction false} LaterItemsNarrow(voc: Vocabulary, fuel: nat, root: Json, here: bool, f: Fields, v: Json)
    requires DocumentNarrowing(voc, root) && Narrowing(voc, root, here, Obj(f)) && "$ref" !in f
    requires LaterItemsValid(voc, fuel, root, Reading(true, here), Obj(f), v)
    ensures LaterItemsValid(voc, fuel, root, PLAIN, Obj(f), v)
    decreases fuel, Obj(f), 0
  {
    if v.Arr? && "items" in f && f["items"].Arr? && "additionalItems" in f {
      forall i | |f["items"].items| <= i < |v.items|
        ensures Valid(voc, fuel, root, PLAIN, f["additionalItems"], v.items[i])
      {
        StrictNarrows(voc, fuel, root, false, f["additionalItems"], v.items[i]);
      }
    }
  }

  lemma {:induction false} VariantNarrows(voc: Vocabulary, fuel: nat, root: Json, here: bool, f: Fields, c: string,
        v: Json)
    requires DocumentNarrowing(voc, root) && VariantsNarrowing(voc, root, here, Obj(f), c)
    ensures HasVariants(f, c) ==> forall i | 0 <= i < |f[c].items| ::
      Valid(voc, fuel, root, Reading(true, here), f[c].items[i], v) ==> Valid(voc, fuel, root, PLAIN, f[c].items[i], v)
    decreases fuel, Obj(f), 0
  {
    if HasVariants(f, c) {
      forall i | 0 <= i < |f[c].items| && Valid(voc, fuel, root, Reading(true, here), f[c].items[i], v)
        ensures Valid(voc, fuel, root, PLAIN, f[c].items[i], v)
      {
        StrictNarrows(voc, fuel, root, here, f[c].items[i], v);
      }
    }
  }

  lemma {:induction false} VariantsNarrow(voc: Vocabulary, fuel: nat, root: Json, here: bool, f: Fields, v: Json)
    requires DocumentNarrowing(voc, root) && Narrowing(voc, root, here, Obj(f)) && "$ref" !in f
    requires AllOfValid(voc, fuel, root, Reading(true, here), Obj(f), v)
    requires AnyOfValid(voc, fuel, root, Reading(true, here), Obj(f), v)
    requires OneOfValid(voc, fuel, root, Reading(true, here), Obj(f), v)
    ensures AllOfValid(voc, fuel, root, PLAIN, Obj(f), v)
    ensures AnyOfValid(voc, fuel, root, PLAIN, Obj(f), v)
    ensures OneOfValid(voc, fuel, root, PLAIN, Obj(f), v)
    decreases fuel, Obj(f), 1
  {
    VariantNarrows(voc, fuel, root, here, f, "allOf", v);
    VariantNarrows(voc, fuel, root, here, f, "anyOf", v);
    VariantNarrows(voc, fuel, root, here, f, "oneOf", v);
    if HasVariants(f, "oneOf") {
      var vs := f["oneOf"].items;
      var i :| 0 <= i < |vs| && OnlyVariant(voc, fuel, root, Reading(true, here), vs, i, v);
      DisjointOnly(voc, fuel, root, vs, i, v);
    }
  }

  lemma {:induction false} DisjointOnly(voc: Vocabulary, fuel: nat, root: Json, vs: seq<Json>, i: nat, v: Json)
    requires Disjoint(voc, root, vs) && i < |vs| && Valid(voc, fuel, root, PLAIN, vs[i], v)
    ensures OnlyVariant(voc, fuel, root, PLAIN, vs, i, v)
  {
    forall j | 0 <= j < |vs| && j != i ensures !Valid(voc, fuel, root, PLAIN, vs[j], v) {
    }
  }

  /** The rewritten schema accepts nothing that the original rejects. */
  lemma {:induction false} ToStrictIsSound(voc: Vocabulary, fuel: nat, schema: Json, v: Json)
    requires ToStrict(schema).Ok? && DocumentNarrowing(voc, schema)
    requires Valid(voc, fuel, ToStrict(schema).value, PLAIN, ToStrict(schema).value, v)
    ensures Valid(voc, fuel, schema, PLAIN, schema, v)
  {
    ToStrictIsExact(voc, fuel, schema, v);
    StrictNarrows(voc, fuel, schema, true, schema, v);
  }

  // ---- why the conditions are there ----

  ghost predicate Sound(voc: Vocabulary, schema: Json)
    requires ToStrict(schema).Ok?
  {
    forall fuel: nat, v :: Valid(voc, fuel, ToStrict(schema).value, PLAIN, ToStrict(schema).value, v)
                           ==> Valid(voc, fuel, schema, PLAIN, schema, v)
  }

  /** A required name that the schema does not list is lost: no object passes both. */
  lemma {:induction false} UnlistedRequiredNameIsLost(voc: Vocabulary, fuel: nat, schema: Json, strict: Json,
        name: string, v: Json)
    requires ToStrict(schema) == Ok(strict) && schema.Obj? && "$ref" !in schema.fields
    requires HasProperties(schema.fields) || TypeIsObject(schema.fields)
    requires IsRequired(schema.fields, name)
    requires !ListedProperty(schema.fields, name) && !PatternProperty(voc, schema.fields, name)
    requires v.Obj? && Valid(voc, fuel, strict, PLAIN, strict, v)
    ensures !Valid(voc, fuel, schema, PLAIN, schema, v)
  {
    ToStrictIsExact(voc, fuel, schema, v);
    assert NodeValid(voc, fuel, schema, STRICT, schema, v);
    assert name !in v.fields;
  }

  /** For an object schema whose rewrite accepts some object, listing every
      required name is not only enough but needed. */
  lemma {:induction false} SoundExactlyWhenRequiredNamesAreListed(voc: Vocabulary, schema: Json, fuel: nat,
        accepted: Json)
    requires ToStrict(schema).Ok? && schema.Obj? && "$ref" !in schema.fields
    requires HasProperties(schema.fields) || TypeIsObject(schema.fields)
    requires "patternProperties" !in schema.fields
    requires RequiredListed(schema.fields) ==> DocumentNarrowing(voc, schema)
    requires accepted.Obj? && Valid(voc, fuel, ToStrict(schema).value, PLAIN, ToStrict(schema).value, accepted)
    ensures Sound(voc, schema) <==> RequiredListed(schema.fields)
  {
    if RequiredListed(schema.fields) {
      forall n: nat, v | Valid(voc, n, ToStrict(schema).value, PLAIN, ToStrict(schema).value, v)
        ensures Valid(voc, n, schema, PLAIN, schema, v)
      {
        ToStrictIsSound(voc, n, schema, v);
      }
    } else {
      var name :| name in schema.fields["required"].items && name.Str? && !ListedProperty(schema.fields, name.s);
      assert IsRequired(schema.fields, name.s);
      UnlistedRequiredNameIsLost(voc, fuel, schema, ToStrict(schema).value, name.s, accepted);
    }
  }
}
