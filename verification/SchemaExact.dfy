/** What a rewritten schema means, exactly: the original under the strict reading.

    The proof follows the rewrite, one keyword at a time: properties, items and
    variants are rewritten below, references lead to rewritten definitions, and what
    the rewriter never visits is only read with its references strict. */
module SchemaExact {
  import opened Json
  import opened StrictSchema
  import opened StrictShape
  import opened StrictDocuments
  import opened SchemaMeaning

  /** The unreached subschemas keep their text, but their references now lead to
      rewritten definitions. */
  const UNREACHED := Reading(true, false)

  predicate UpToDefinitions(s: Json, t: Json) {
    || t == s
    || (s.Obj? && t.Obj? && "definitions" in t.fields
        && t.fields == s.fields["definitions" := t.fields["definitions"]])
  }

  /** The reference resolves in both documents or in neither, and in the second one to
      the rewrite of what it is in the first. */
  ghost predicate TargetRewritten(root: Json, after: Json, ref: Json) {
    && (Resolve(root, ref).Some? <==> Resolve(after, ref).Some?)
    && (Resolve(root, ref).Some? ==>
          && Strict(Resolve(root, ref).value).Ok?
          && UpToDefinitions(Strict(Resolve(root, ref).value).value, Resolve(after, ref).value))
  }

  /** All that the proof needs to know of the two documents. */
  ghost predicate TargetsRewritten(root: Json, after: Json) {
    forall ref :: TargetRewritten(root, after, ref)
  }

  lemma {:induction false} ExactSchema(voc: Vocabulary, fuel: nat, root: Json, after: Json, s: Json, required: bool,
        v: Json)
    requires TargetsRewritten(root, after) && StrictProperty(s, required).Ok?
    ensures Valid(voc, fuel, after, PLAIN, StrictProperty(s, required).value, v)
       <==> Valid(voc, fuel, root, STRICT, s, v)
    decreases fuel, s, 4
  {
    ExactStrict(voc, fuel, root, after, s, Strict(s).value, v);
    if !required {
      NullableMeansTheSame(voc, fuel, after, Strict(s).value, v);
    }
  }

  lemma {:induction false} ExactStrict(voc: Vocabulary, fuel: nat, root: Json, after: Json, s: Json, t: Json, v: Json)
    requires TargetsRewritten(root, after) && Strict(s) == Ok(t)
    ensures Valid(voc, fuel, after, PLAIN, t, v) <==> Valid(voc, fuel, root, STRICT, s, v)
    decreases fuel, s, 3
  {
    if s.Obj? {
      StrictNodeOther(s.fields, "$ref");
      if "$ref" in s.fields {
        ExactReference(voc, fuel, root, after, STRICT, s.fields["$ref"], v);
      } else {
        ExactNode(voc, fuel, root, after, s.fields, t.fields, v);
      }
      SchemasAgree(voc, fuel, after, PLAIN, t.fields, root, STRICT, s.fields, v);
    }
  }

  lemma {:induction false} ExactUnreached(voc: Vocabulary, fuel: nat, root: Json, after: Json, s: Json, v: Json)
    requires TargetsRewritten(root, after)
    ensures Valid(voc, fuel, after, PLAIN, s, v) <==> Valid(voc, fuel, root, UNREACHED, s, v)
    decreases fuel, s, 3
  {
    if s.Obj? {
      var f := s.fields;
      if "$ref" in f {
        ExactReference(voc, fuel, root, after, UNREACHED, f["$ref"], v);
      } else {
        ExactBelow(voc, fuel, root, after, f, UNREACHED);
        UnreachedMembers(voc, fuel, root, after, f, v);
        UnreachedCombinations(voc, fuel, root, after, f, v);
        NodesAgree(voc, fuel, after, PLAIN, f, root, UNREACHED, f, v);
      }
      SchemasAgree(voc, fuel, after, PLAIN, f, root, UNREACHED, f, v);
    }
  }

  lemma {:induction false} SchemasAgree(voc: Vocabulary, fuel: nat, root1: Json, rd1: Reading, f1: Fields,
                     root2: Json, rd2: Reading, f2: Fields, v: Json)
    requires KeepsKey(f2, f1, "$ref")
    requires "$ref" in f2 ==>
      ReferenceValid(voc, fuel, root1, rd1, f2["$ref"], v) == ReferenceValid(voc, fuel, root2, rd2, f2["$ref"], v)
    requires "$ref" !in f2 ==>
      NodeValid(voc, fuel, root1, rd1, Obj(f1), v) == NodeValid(voc, fuel, root2, rd2, Obj(f2), v)
    ensures Valid(voc, fuel, root1, rd1, Obj(f1), v) == Valid(voc, fuel, root2, rd2, Obj(f2), v)
  {
  }

  // ---- references ----

  /** The two documents resolve a reference alike, to schemas that agree on the value. */
  ghost predicate TargetsAgree(voc: Vocabulary, fuel: nat, root1: Json, rd1: Reading, root2: Json, rd2: Reading,
                               ref: Json, v: Json) {
    var target1, target2 := Resolve(root1, ref), Resolve(root2, ref);
    && (target1.Some? <==> target2.Some?)
    && (target1.Some? ==>
          Valid(voc, fuel, root1, rd1, target1.value, v) == Valid(voc, fuel, root2, rd2, target2.value, v))
  }

  lemma {:induction false} ExactTarget(voc: Vocabulary, fuel: nat, root: Json, after: Json, ref: Json, v: Json)
    requires TargetsRewritten(root, after)
    ensures TargetsAgree(voc, fuel, after, PLAIN, root, STRICT, ref, v)
    decreases fuel
  {
    assert TargetRewritten(root, after, ref);
    var before, target := Resolve(root, ref), Resolve(after, ref);
    if before.Some? {
      ExactSchema(voc, fuel, root, after, before.value, true, v);
      SameUpToDefinitions(voc, fuel, after, Strict(before.value).value, target.value, v);
    }
  }

  lemma {:induction false} SameUpToDefinitions(voc: Vocabulary, fuel: nat, root: Json, s: Json, t: Json, v: Json)
    requires UpToDefinitions(s, t)
    ensures Valid(voc, fuel, root, PLAIN, t, v) <==> Valid(voc, fuel, root, PLAIN, s, v)
  {
    if t != s { DefinitionsMeanNothing(voc, fuel, root, s.fields, t.fields["definitions"], v); }
  }

  lemma {:induction false} ExactReference(voc: Vocabulary, fuel: nat, root: Json, after: Json, rd: Reading, ref: Json,
        v: Json)
    requires TargetsRewritten(root, after) && rd.refs
    ensures ReferenceValid(voc, fuel, after, PLAIN, ref, v)
         == ReferenceValid(voc, fuel, root, rd, ref, v)
    decreases fuel, ref, 0
  {
    if fuel > 0 {
      ExactTarget(voc, fuel - 1, root, after, ref, v);
      ReferencesAgree(voc, fuel, after, PLAIN, root, rd, ref, v);
    }
  }

  lemma {:induction false} ReferencesAgree(voc: Vocabulary, fuel: nat, root1: Json, rd1: Reading, root2: Json,
        rd2: Reading, ref: Json, v: Json)
    requires fuel > 0
    requires TargetsAgree(voc, fuel - 1, root1, Reading(rd1.refs, rd1.refs), root2, Reading(rd2.refs, rd2.refs), ref, v)
    ensures ReferenceValid(voc, fuel, root1, rd1, ref, v) == ReferenceValid(voc, fuel, root2, rd2, ref, v)
  {
  }

  // ---- reached nodes ----

  lemma {:induction false} ExactNode(voc: Vocabulary, fuel: nat, root: Json, after: Json, f: Fields, g: Fields, v: Json)
    requires TargetsRewritten(root, after) && Strict(Obj(f)) == Ok(Obj(g))
    ensures NodeValid(voc, fuel, after, PLAIN, Obj(g), v) <==> NodeValid(voc, fuel, root, STRICT, Obj(f), v)
    decreases fuel, Obj(f), 2
  {
    ExactType(f, g, v);
    ExactOthers(f, g);
    ExactNames(voc, f, g, v);
    ExactBelow(voc, fuel, root, after, f, STRICT);
    SameBelow(voc, fuel, after, PLAIN, f, g);
    ExactMembers(voc, fuel, root, after, f, g, v);
    ExactCombinations(voc, fuel, root, after, f, g, v);
    NodesAgree(voc, fuel, after, PLAIN, g, root, STRICT, f, v);
  }

  lemma ExactType(f: Fields, g: Fields, v: Json)
    requires Strict(Obj(f)) == Ok(Obj(g))
    ensures TypeAllows(g, v) == TypeAllows(f, v)
  {
    StrictNodeOther(f, "type");
  }

  lemma {:induction false} MembersAgree(voc: Vocabulary, fuel: nat, root1: Json, rd1: Reading, f1: Fields,
                     root2: Json, rd2: Reading, f2: Fields, v: Json)
    requires PropertiesValid(voc, fuel, root1, rd1, Obj(f1), v) == PropertiesValid(voc, fuel, root2, rd2, Obj(f2), v)
    requires PatternsValid(voc, fuel, root1, rd1, Obj(f1), v) == PatternsValid(voc, fuel, root2, rd2, Obj(f2), v)
    requires AdditionalValid(voc, fuel, root1, rd1, Obj(f1), v) == AdditionalValid(voc, fuel, root2, rd2, Obj(f2), v)
    requires ItemsValid(voc, fuel, root1, rd1, Obj(f1), v) == ItemsValid(voc, fuel, root2, rd2, Obj(f2), v)
    requires LaterItemsValid(voc, fuel, root1, rd1, Obj(f1), v) == LaterItemsValid(voc, fuel, root2, rd2, Obj(f2), v)
    ensures MembersValid(voc, fuel, root1, rd1, Obj(f1), v) == MembersValid(voc, fuel, root2, rd2, Obj(f2), v)
  {
  }

  lemma {:induction false} CombinationsAgree(voc: Vocabulary, fuel: nat, root1: Json, rd1: Reading, f1: Fields,
                          root2: Json, rd2: Reading, f2: Fields, v: Json)
    requires VariantsAgree(voc, fuel, root1, rd1, f1, root2, rd2, f2, "allOf", v)
    requires VariantsAgree(voc, fuel, root1, rd1, f1, root2, rd2, f2, "anyOf", v)
    requires VariantsAgree(voc, fuel, root1, rd1, f1, root2, rd2, f2, "oneOf", v)
    requires NotValid(voc, fuel, root1, rd1, Obj(f1), v) == NotValid(voc, fuel, root2, rd2, Obj(f2), v)
    ensures VariantsValid(voc, fuel, root1, rd1, Obj(f1), v) == VariantsValid(voc, fuel, root2, rd2, Obj(f2), v)
  {
    AllOfAgrees(voc, fuel, root1, rd1, f1, root2, rd2, f2, v);
    AnyOfAgrees(voc, fuel, root1, rd1, f1, root2, rd2, f2, v);
    OneOfAgrees(voc, fuel, root1, rd1, f1, root2, rd2, f2, v);
  }

  lemma {:induction false} ExactMembers(voc: Vocabulary, fuel: nat, root: Json, after: Json, f: Fields, g: Fields,
        v: Json)
    requires TargetsRewritten(root, after) && Strict(Obj(f)) == Ok(Obj(g))
    ensures MembersValid(voc, fuel, after, PLAIN, Obj(g), v) == MembersValid(voc, fuel, root, STRICT, Obj(f), v)
    decreases fuel, Obj(f), 1
  {
    ExactProperties(voc, fuel, root, after, f, g, v);
    KeptPatterns(voc, fuel, root, after, f, g, v);
    ExactAdditional(voc, fuel, root, after, f, g, v);
    ExactItems(voc, fuel, root, after, f, g, v);
    KeptLaterItems(voc, fuel, root, after, f, g, v);
    MembersAgree(voc, fuel, after, PLAIN, g, root, STRICT, f, v);
  }

  lemma {:induction false} ExactAdditional(voc: Vocabulary, fuel: nat, root: Json, after: Json, f: Fields, g: Fields,
        v: Json)
    requires Strict(Obj(f)) == Ok(Obj(g))
    ensures AdditionalValid(voc, fuel, after, PLAIN, Obj(g), v) == AdditionalValid(voc, fuel, root, STRICT, Obj(f), v)
  {
    NoAdditional(voc, fuel, after, PLAIN, f, g, v);
    NoAdditional(voc, fuel, root, STRICT, f, g, v);
  }

  lemma {:induction false} KeptPatterns(voc: Vocabulary, fuel: nat, root: Json, after: Json, f: Fields, g: Fields,
        v: Json)
    requires TargetsRewritten(root, after) && Strict(Obj(f)) == Ok(Obj(g))
    ensures PatternsValid(voc, fuel, after, PLAIN, Obj(g), v)
         == PatternsValid(voc, fuel, root, STRICT, Obj(f), v)
    decreases fuel, Obj(f), 0, 1
  {
    StrictNodeOther(f, "patternProperties");
    SamePatterns(voc, fuel, after, PLAIN, f, g, v);
    ExactPatterns(voc, fuel, root, after, f, STRICT, v);
  }

  lemma ItemListIsKept(f: Fields, g: Fields)
    requires Strict(Obj(f)) == Ok(Obj(g))
    ensures KeepsItemList(f, g)
  {
    StrictNodeItems(f);
  }

  lemma {:induction false} KeptLaterItems(voc: Vocabulary, fuel: nat, root: Json, after: Json, f: Fields, g: Fields,
        v: Json)
    requires TargetsRewritten(root, after) && Strict(Obj(f)) == Ok(Obj(g))
    ensures LaterItemsValid(voc, fuel, after, PLAIN, Obj(g), v)
         == LaterItemsValid(voc, fuel, root, STRICT, Obj(f), v)
    decreases fuel, Obj(f), 0, 1
  {
    StrictNodeOther(f, "additionalItems");
    ItemListIsKept(f, g);
    SameLaterItems(voc, fuel, after, PLAIN, f, g, v);
    ExactLaterItems(voc, fuel, root, after, f, STRICT, v);
  }

  /** A node that the rewriter has accepted has no schema for additional properties,
      neither before nor after. */
  lemma {:induction false} NoAdditional(voc: Vocabulary, fuel: nat, root: Json, rd: Reading, f: Fields, g: Fields,
        v: Json)
    requires Strict(Obj(f)) == Ok(Obj(g))
    ensures AdditionalValid(voc, fuel, root, rd, Obj(f), v) && AdditionalValid(voc, fuel, root, rd, Obj(g), v)
  {
    assert Strict(Obj(f)).value.fields == g;
    PartsOk(f);
    StrictObjectClosed(f, Strict(Obj(f)).value.fields);
  }

  lemma {:induction false} KeptNot(voc: Vocabulary, fuel: nat, root: Json, after: Json, f: Fields, g: Fields, v: Json)
    requires TargetsRewritten(root, after) && Strict(Obj(f)) == Ok(Obj(g))
    ensures NotValid(voc, fuel, after, PLAIN, Obj(g), v) == NotValid(voc, fuel, root, STRICT, Obj(f), v)
    decreases fuel, Obj(f), 0, 1
  {
    StrictNodeOther(f, "not");
    SameNot(voc, fuel, after, PLAIN, f, g, v);
    ExactNot(voc, fuel, root, after, f, STRICT, v);
  }

  lemma {:induction false} ExactCombinations(voc: Vocabulary, fuel: nat, root: Json, after: Json, f: Fields,
        g: Fields, v: Json)
    requires TargetsRewritten(root, after) && Strict(Obj(f)) == Ok(Obj(g))
    ensures VariantsValid(voc, fuel, after, PLAIN, Obj(g), v)
         == VariantsValid(voc, fuel, root, STRICT, Obj(f), v)
    decreases fuel, Obj(f), 1
  {
    assert "oneOf" in COMBINATORS && "anyOf" in COMBINATORS && "allOf" in COMBINATORS;
    ExactVariants(voc, fuel, root, after, f, g, "allOf", v);
    ExactVariants(voc, fuel, root, after, f, g, "anyOf", v);
    ExactVariants(voc, fuel, root, after, f, g, "oneOf", v);
    KeptNot(voc, fuel, root, after, f, g, v);
    CombinationsAgree(voc, fuel, after, PLAIN, g, root, STRICT, f, v);
  }

  lemma ExactOthers(f: Fields, g: Fields)
    requires Strict(Obj(f)) == Ok(Obj(g))
    ensures Others(f) == Others(g)
  {
    assert TOUCHED <= KEYWORDS;
    forall k | k !in KEYWORDS ensures KeepsKey(f, g, k) { StrictNodeOther(f, k); }
    SameOthers(f, g);
  }

  lemma {:induction false} RequiredMeansListed(g: Fields, k: string)
    requires Enveloped(g)
    ensures IsRequired(g, k) <==> ListedProperty(g, k)
  {
    var props := g["properties"].fields;
    if k in props { RequiredHolds(props, k); }
    if IsRequired(g, k) {
      var i :| 0 <= i < |g["required"].items| && g["required"].items[i] == Str(k);
      assert SortedKeys(props.Keys)[i] == k;
    }
  }

  lemma NamesEnveloped(voc: Vocabulary, f: Fields, g: Fields, v: Json)
    requires HasProperties(f) || TypeIsObject(f)
    requires Enveloped(g) && KeepsKey(f, g, "patternProperties")
    requires forall k :: ListedProperty(f, k) <==> ListedProperty(g, k)
    ensures NamesAllowed(voc, false, g, v) <==> NamesAllowed(voc, true, f, v)
  {
    forall k ensures IsRequired(g, k) <==> ListedProperty(g, k) { RequiredMeansListed(g, k); }
    forall k ensures PatternProperty(voc, f, k) <==> PatternProperty(voc, g, k) {}
  }

  lemma SameNamesAllowed(voc: Vocabulary, f: Fields, g: Fields, v: Json)
    requires ObjectRewritten(f, g) && KeepsKey(f, g, "patternProperties")
    ensures NamesAllowed(voc, false, g, v) <==> NamesAllowed(voc, true, f, v)
  {
    if HasProperties(f) || TypeIsObject(f) {
      NamesEnveloped(voc, f, g, v);
    }
  }

  lemma ObjectIsRewritten(f: Fields, g: Fields)
    requires Strict(Obj(f)) == Ok(Obj(g))
    ensures ObjectRewritten(f, g)
  {
    StrictNodeObject(f);
  }

  lemma PatternsAreKept(f: Fields, g: Fields)
    requires Strict(Obj(f)) == Ok(Obj(g))
    ensures KeepsKey(f, g, "patternProperties")
  {
    StrictNodeOther(f, "patternProperties");
  }

  lemma ExactNames(voc: Vocabulary, f: Fields, g: Fields, v: Json)
    requires Strict(Obj(f)) == Ok(Obj(g))
    ensures NamesAllowed(voc, false, g, v) <==> NamesAllowed(voc, true, f, v)
  {
    ObjectIsRewritten(f, g);
    PatternsAreKept(f, g);
    SameNamesAllowed(voc, f, g, v);
  }

  lemma {:induction false} ExactProperties(voc: Vocabulary, fuel: nat, root: Json, after: Json, f: Fields, g: Fields,
        v: Json)
    requires TargetsRewritten(root, after) && Strict(Obj(f)) == Ok(Obj(g))
    ensures PropertiesValid(voc, fuel, after, PLAIN, Obj(g), v)
       <==> PropertiesValid(voc, fuel, root, STRICT, Obj(f), v)
    decreases fuel, Obj(f), 0
  {
    assert ObjectRewritten(f, g) by { StrictNodeObject(f); }
    if v.Obj? && HasProperties(f) {
      var before, rewritten := f["properties"].fields, g["properties"].fields;
      forall k | k in before && k in v.fields
        ensures Valid(voc, fuel, after, PLAIN, rewritten[k], v.fields[k])
           <==> Valid(voc, fuel, root, STRICT, before[k], v.fields[k])
      {
        ExactSchema(voc, fuel, root, after, before[k], IsRequired(f, k), v.fields[k]);
      }
    }
  }

  lemma {:induction false} ExactItems(voc: Vocabulary, fuel: nat, root: Json, after: Json, f: Fields, g: Fields,
        v: Json)
    requires TargetsRewritten(root, after) && Strict(Obj(f)) == Ok(Obj(g))
    ensures ItemsValid(voc, fuel, after, PLAIN, Obj(g), v)
       <==> ItemsValid(voc, fuel, root, STRICT, Obj(f), v)
    decreases fuel, Obj(f), 0
  {
    var after := after;
    StrictNodeItems(f);
    if v.Arr? && "items" in f {
      if f["items"].Arr? {
        var ss := f["items"].items;
        forall i | 0 <= i < |ss| && i < |v.items|
          ensures Valid(voc, fuel, after, PLAIN, ss[i], v.items[i])
            <==> Valid(voc, fuel, root, UNREACHED, ss[i], v.items[i])
        {
          ExactUnreached(voc, fuel, root, after, ss[i], v.items[i]);
        }
      } else {
        forall i | 0 <= i < |v.items|
          ensures Valid(voc, fuel, after, PLAIN, g["items"], v.items[i])
            <==> Valid(voc, fuel, root, STRICT, f["items"], v.items[i])
        {
          ExactSchema(voc, fuel, root, after, f["items"], true, v.items[i]);
        }
      }
    }
  }

  /** Two lists of variants that accept the same values position by position. */
  ghost predicate VariantsAgree(voc: Vocabulary, fuel: nat, root1: Json, rd1: Reading, f1: Fields,
                                root2: Json, rd2: Reading, f2: Fields, c: string, v: Json) {
    var list1, list2 := c in f1 && f1[c].Arr?, c in f2 && f2[c].Arr?;
    && list1 == list2
    && (list1 ==>
          && |f1[c].items| == |f2[c].items|
          && forall i | 0 <= i < |f1[c].items| ::
            Valid(voc, fuel, root1, rd1, f1[c].items[i], v) == Valid(voc, fuel, root2, rd2, f2[c].items[i], v))
  }

  lemma {:induction false} AllOfAgrees(voc: Vocabulary, fuel: nat, root1: Json, rd1: Reading, f1: Fields,
                    root2: Json, rd2: Reading, f2: Fields, v: Json)
    requires VariantsAgree(voc, fuel, root1, rd1, f1, root2, rd2, f2, "allOf", v)
    ensures AllOfValid(voc, fuel, root1, rd1, Obj(f1), v) <==> AllOfValid(voc, fuel, root2, rd2, Obj(f2), v)
  {
  }

  lemma {:induction false} AnyOfAgrees(voc: Vocabulary, fuel: nat, root1: Json, rd1: Reading, f1: Fields,
                    root2: Json, rd2: Reading, f2: Fields, v: Json)
    requires VariantsAgree(voc, fuel, root1, rd1, f1, root2, rd2, f2, "anyOf", v)
    ensures AnyOfValid(voc, fuel, root1, rd1, Obj(f1), v) <==> AnyOfValid(voc, fuel, root2, rd2, Obj(f2), v)
  {
  }

  lemma {:induction false} OnlyVariantAgrees(voc: Vocabulary, fuel: nat, root1: Json, rd1: Reading, vs1: seq<Json>,
                          root2: Json, rd2: Reading, vs2: seq<Json>, i: nat, v: Json)
    requires |vs1| == |vs2| && i < |vs1| && OnlyVariant(voc, fuel, root1, rd1, vs1, i, v)
    requires forall j | 0 <= j < |vs1| ::
      Valid(voc, fuel, root1, rd1, vs1[j], v) == Valid(voc, fuel, root2, rd2, vs2[j], v)
    ensures OnlyVariant(voc, fuel, root2, rd2, vs2, i, v)
  {
    forall j | 0 <= j < |vs2| && j != i ensures !Valid(voc, fuel, root2, rd2, vs2[j], v) {
      assert !Valid(voc, fuel, root1, rd1, vs1[j], v);
    }
  }

  lemma {:induction false} OneOfKeepsWitness(voc: Vocabulary, fuel: nat, root1: Json, rd1: Reading, f1: Fields,
                          root2: Json, rd2: Reading, f2: Fields, v: Json)
    requires VariantsAgree(voc, fuel, root1, rd1, f1, root2, rd2, f2, "oneOf", v)
    requires OneOfValid(voc, fuel, root1, rd1, Obj(f1), v)
    ensures OneOfValid(voc, fuel, root2, rd2, Obj(f2), v)
  {
    if HasVariants(f2, "oneOf") {
      var vs1, vs2 := f1["oneOf"].items, f2["oneOf"].items;
      var i :| 0 <= i < |vs1| && OnlyVariant(voc, fuel, root1, rd1, vs1, i, v);
      OnlyVariantAgrees(voc, fuel, root1, rd1, vs1, root2, rd2, vs2, i, v);
    }
  }

  lemma {:induction false} OneOfFollows(voc: Vocabulary, fuel: nat, root1: Json, rd1: Reading, f1: Fields,
                     root2: Json, rd2: Reading, f2: Fields, v: Json)
    requires VariantsAgree(voc, fuel, root1, rd1, f1, root2, rd2, f2, "oneOf", v)
    ensures OneOfValid(voc, fuel, root1, rd1, Obj(f1), v) ==> OneOfValid(voc, fuel, root2, rd2, Obj(f2), v)
  {
    if OneOfValid(voc, fuel, root1, rd1, Obj(f1), v) {
      OneOfKeepsWitness(voc, fuel, root1, rd1, f1, root2, rd2, f2, v);
    }
  }

  lemma VariantsAgreeBothWays(voc: Vocabulary, fuel: nat, root1: Json, rd1: Reading, f1: Fields,
                              root2: Json, rd2: Reading, f2: Fields, c: string, v: Json)
    requires VariantsAgree(voc, fuel, root1, rd1, f1, root2, rd2, f2, c, v)
    ensures VariantsAgree(voc, fuel, root2, rd2, f2, root1, rd1, f1, c, v)
  {
  }

  lemma {:induction false} OneOfAgrees(voc: Vocabulary, fuel: nat, root1: Json, rd1: Reading, f1: Fields,
                    root2: Json, rd2: Reading, f2: Fields, v: Json)
    requires VariantsAgree(voc, fuel, root1, rd1, f1, root2, rd2, f2, "oneOf", v)
    ensures OneOfValid(voc, fuel, root1, rd1, Obj(f1), v) <==> OneOfValid(voc, fuel, root2, rd2, Obj(f2), v)
  {
    VariantsAgreeBothWays(voc, fuel, root1, rd1, f1, root2, rd2, f2, "oneOf", v);
    OneOfFollows(voc, fuel, root1, rd1, f1, root2, rd2, f2, v);
    OneOfFollows(voc, fuel, root2, rd2, f2, root1, rd1, f1, v);
  }

  lemma {:induction false} ExactVariants(voc: Vocabulary, fuel: nat, root: Json, after: Json, f: Fields, g: Fields,
        c: string, v: Json)
    requires TargetsRewritten(root, after) && Strict(Obj(f)) == Ok(Obj(g)) && c in COMBINATORS
    ensures VariantsAgree(voc, fuel, after, PLAIN, g, root, STRICT, f, c, v)
    decreases fuel, Obj(f), 0
  {
    StrictNodeCombinator(f, c);
    if c in f && f[c].Arr? {
      forall i | 0 <= i < |f[c].items|
        ensures Valid(voc, fuel, after, PLAIN, g[c].items[i], v) == Valid(voc, fuel, root, STRICT, f[c].items[i], v)
      {
        ExactSchema(voc, fuel, root, after, f[c].items[i], true, v);
      }
    }
  }

  // ---- unreached subschemas ----

  lemma {:induction false} UnreachedMembers(voc: Vocabulary, fuel: nat, root: Json, after: Json, f: Fields, v: Json)
    requires TargetsRewritten(root, after)
    ensures MembersValid(voc, fuel, after, PLAIN, Obj(f), v)
         == MembersValid(voc, fuel, root, UNREACHED, Obj(f), v)
    decreases fuel, Obj(f), 1
  {
    UnreachedProperties(voc, fuel, root, after, f, v);
    ExactPatterns(voc, fuel, root, after, f, UNREACHED, v);
    UnreachedAdditional(voc, fuel, root, after, f, v);
    UnreachedItems(voc, fuel, root, after, f, v);
    ExactLaterItems(voc, fuel, root, after, f, UNREACHED, v);
    MembersAgree(voc, fuel, after, PLAIN, f, root, UNREACHED, f, v);
  }

  lemma {:induction false} UnreachedCombinations(voc: Vocabulary, fuel: nat, root: Json, after: Json, f: Fields,
        v: Json)
    requires TargetsRewritten(root, after)
    ensures VariantsValid(voc, fuel, after, PLAIN, Obj(f), v)
         == VariantsValid(voc, fuel, root, UNREACHED, Obj(f), v)
    decreases fuel, Obj(f), 1
  {
    UnreachedVariants(voc, fuel, root, after, f, "allOf", v);
    UnreachedVariants(voc, fuel, root, after, f, "anyOf", v);
    UnreachedVariants(voc, fuel, root, after, f, "oneOf", v);
    ExactNot(voc, fuel, root, after, f, UNREACHED, v);
    CombinationsAgree(voc, fuel, after, PLAIN, f, root, UNREACHED, f, v);
  }

  /** What is inside the other keywords is never visited, but its references change. */
  lemma {:induction false} ExactBelow(voc: Vocabulary, fuel: nat, root: Json, after: Json, f: Fields, rd: Reading)
    requires TargetsRewritten(root, after) && rd.refs
    ensures BelowOthers(voc, fuel, after, PLAIN, Obj(f)) == BelowOthers(voc, fuel, root, rd, Obj(f))
    decreases fuel, Obj(f), 0
  {
    forall sub, w | InOthers(f, sub)
      ensures Valid(voc, fuel, after, PLAIN, sub, w) == Valid(voc, fuel, root, UNREACHED, sub, w)
    {
      ExactUnreached(voc, fuel, root, after, sub, w);
    }
  }

  lemma {:induction false} UnreachedAdditional(voc: Vocabulary, fuel: nat, root: Json, after: Json, f: Fields, v: Json)
    requires TargetsRewritten(root, after)
    ensures AdditionalValid(voc, fuel, after, PLAIN, Obj(f), v)
         == AdditionalValid(voc, fuel, root, UNREACHED, Obj(f), v)
    decreases fuel, Obj(f), 0
  {
    if v.Obj? && "additionalProperties" in f && f["additionalProperties"].Obj? {
      forall k | k in v.fields
        ensures Valid(voc, fuel, after, PLAIN, f["additionalProperties"], v.fields[k])
             == Valid(voc, fuel, root, UNREACHED, f["additionalProperties"], v.fields[k])
      {
        ExactUnreached(voc, fuel, root, after, f["additionalProperties"], v.fields[k]);
      }
    }
  }

  lemma {:induction false} ExactPatterns(voc: Vocabulary, fuel: nat, root: Json, after: Json, f: Fields, rd: Reading,
        v: Json)
    requires TargetsRewritten(root, after) && rd.refs
    ensures PatternsValid(voc, fuel, after, PLAIN, Obj(f), v)
       <==> PatternsValid(voc, fuel, root, rd, Obj(f), v)
    decreases fuel, Obj(f), 0, 0
  {
    if v.Obj? && "patternProperties" in f && f["patternProperties"].Obj? {
      var ps := f["patternProperties"].fields;
      forall p, k | p in ps && k in v.fields && voc.matches(p, k)
        ensures Valid(voc, fuel, after, PLAIN, ps[p], v.fields[k])
           <==> Valid(voc, fuel, root, UNREACHED, ps[p], v.fields[k])
      {
        ExactUnreached(voc, fuel, root, after, ps[p], v.fields[k]);
      }
    }
  }

  lemma {:induction false} ExactLaterItems(voc: Vocabulary, fuel: nat, root: Json, after: Json, f: Fields, rd: Reading,
        v: Json)
    requires TargetsRewritten(root, after) && rd.refs
    ensures LaterItemsValid(voc, fuel, after, PLAIN, Obj(f), v)
       <==> LaterItemsValid(voc, fuel, root, rd, Obj(f), v)
    decreases fuel, Obj(f), 0, 0
  {
    if v.Arr? && "items" in f && f["items"].Arr? && "additionalItems" in f {
      forall i | |f["items"].items| <= i < |v.items|
        ensures Valid(voc, fuel, after, PLAIN, f["additionalItems"], v.items[i])
           <==> Valid(voc, fuel, root, UNREACHED, f["additionalItems"], v.items[i])
      {
        ExactUnreached(voc, fuel, root, after, f["additionalItems"], v.items[i]);
      }
    }
  }

  lemma {:induction false} UnreachedProperties(voc: Vocabulary, fuel: nat, root: Json, after: Json, f: Fields, v: Json)
    requires TargetsRewritten(root, after)
    ensures PropertiesValid(voc, fuel, after, PLAIN, Obj(f), v)
       <==> PropertiesValid(voc, fuel, root, UNREACHED, Obj(f), v)
    decreases fuel, Obj(f), 0
  {
    if v.Obj? && HasProperties(f) {
      var props := f["properties"].fields;
      forall k | k in props && k in v.fields
        ensures Valid(voc, fuel, after, PLAIN, props[k], v.fields[k])
           <==> Valid(voc, fuel, root, UNREACHED, props[k], v.fields[k])
      {
        ExactUnreached(voc, fuel, root, after, props[k], v.fields[k]);
      }
    }
  }

  lemma {:induction false} UnreachedItems(voc: Vocabulary, fuel: nat, root: Json, after: Json, f: Fields, v: Json)
    requires TargetsRewritten(root, after)
    ensures ItemsValid(voc, fuel, after, PLAIN, Obj(f), v)
       <==> ItemsValid(voc, fuel, root, UNREACHED, Obj(f), v)
    decreases fuel, Obj(f), 0
  {
    if v.Arr? && "items" in f {
      forall i | 0 <= i < |v.items|
        ensures var s := if f["items"].Arr? && i < |f["items"].items| then f["items"].items[i] else f["items"];
          Valid(voc, fuel, after, PLAIN, s, v.items[i]) <==> Valid(voc, fuel, root, UNREACHED, s, v.items[i])
      {
        var s := if f["items"].Arr? && i < |f["items"].items| then f["items"].items[i] else f["items"];
        ExactUnreached(voc, fuel, root, after, s, v.items[i]);
      }
    }
  }

  lemma {:induction false} UnreachedVariants(voc: Vocabulary, fuel: nat, root: Json, after: Json, f: Fields,
        c: string, v: Json)
    requires TargetsRewritten(root, after)
    ensures VariantsAgree(voc, fuel, after, PLAIN, f, root, UNREACHED, f, c, v)
    decreases fuel, Obj(f), 0
  {
    if c in f && f[c].Arr? {
      forall i | 0 <= i < |f[c].items|
        ensures Valid(voc, fuel, after, PLAIN, f[c].items[i], v) == Valid(voc, fuel, root, UNREACHED, f[c].items[i], v)
      {
        ExactUnreached(voc, fuel, root, after, f[c].items[i], v);
      }
    }
  }

  lemma {:induction false} ExactNot(voc: Vocabulary, fuel: nat, root: Json, after: Json, f: Fields, rd: Reading,
        v: Json)
    requires TargetsRewritten(root, after) && rd.refs
    ensures NotValid(voc, fuel, after, PLAIN, Obj(f), v) <==> NotValid(voc, fuel, root, rd, Obj(f), v)
    decreases fuel, Obj(f), 0, 0
  {
    if "not" in f { ExactUnreached(voc, fuel, root, after, f["not"], v); }
  }

  lemma {:induction false} ToStrictTargets(schema: Json, after: Json)
    requires ToStrict(schema) == Ok(after)
    ensures Strict(schema).Ok? && UpToDefinitions(Strict(schema).value, after)
    ensures TargetsRewritten(schema, after)
  {
    ToStrictParts(schema);
    forall ref ensures TargetRewritten(schema, after, ref) {}
  }

  /** The rewritten document accepts a value exactly when the original accepts it
      under the strict reading. */
  lemma {:induction false} ToStrictIsExact(voc: Vocabulary, fuel: nat, schema: Json, v: Json)
    requires ToStrict(schema).Ok?
    ensures Valid(voc, fuel, ToStrict(schema).value, PLAIN, ToStrict(schema).value, v)
       <==> Valid(voc, fuel, schema, STRICT, schema, v)
  {
    var after := ToStrict(schema).value;
    ToStrictTargets(schema, after);
    ExactSchema(voc, fuel, schema, after, schema, true, v);
    SameUpToDefinitions(voc, fuel, after, Strict(schema).value, after, v);
  }
}
