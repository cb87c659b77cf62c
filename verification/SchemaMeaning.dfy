/** JSON Schema Validation draft-07 for the keywords the rewriter knows about.

    A schema is valid for a value under a reading.  The plain reading is the standard's
    own.  In the strict reading an object schema, where it is read by the rewriter,
    also requires each property it lists and forbids all others; a reading says
    whether it is strict right here, and whether it is below references.  What is
    not modelled keyword by keyword, and the matching of regular expressions, is a
    parameter: a vocabulary.  Then a few small facts: a keyword that two schemas
    share means the same in both. */
module SchemaMeaning {
  import opened Json
  import opened StrictSchema
  import opened StrictShape
  import opened Wrappers

  // ---- validation ----

  /** The parts of validation that are not spelled out below: which names a
      `patternProperties` pattern matches, and every other assertion keyword.  The
      latter may depend on the text of those keywords, on the value, and on which
      subschemas inside them accept which values: `if`, `contains`, `dependencies`
      and their like are applied to subschemas that may hold references. */
  datatype Vocabulary = Vocabulary(
    matches: (string, string) -> bool, others: (Fields, Json, iset<(Json, Json)>) -> bool)

  const KEYWORDS := {"$ref", "definitions", "type", "properties", "patternProperties", "required",
                     "additionalProperties", "items", "additionalItems", "allOf", "anyOf", "oneOf", "not"}

  function Others(f: Fields): Fields {
    map k | k in f && k !in KEYWORDS :: f[k]
  }

  /** `sub` is `whole`, or occurs somewhere below it. */
  ghost predicate Inside(sub: Json, whole: Json)
    ensures Inside(sub, whole) ==> sub == whole || sub < whole
    decreases whole
  {
    || sub == whole
    || (match whole
        case Obj(f) => exists k | k in f :: Inside(sub, f[k])
        case Arr(vs) => exists i | 0 <= i < |vs| :: Inside(sub, vs[i])
        case _ => false)
  }

  /** `sub` occurs below one of the other keywords. */
  ghost predicate InOthers(f: Fields, sub: Json)
    ensures InOthers(f, sub) ==> sub < Obj(f)
  {
    exists k | k in f && k !in KEYWORDS :: Inside(sub, f[k])
  }

  predicate HasType(name: Json, v: Json) {
    match v
    case Null => name == Str("null")
    case Bool(_) => name == Str("boolean")
    case Num(n) => name == Str("number") || (name == Str("integer") && n.Floor as real == n)
    case Str(_) => name == Str("string")
    case Arr(_) => name == Str("array")
    case Obj(_) => name == Str("object")
  }

  /** Section 6.1.1. */
  predicate TypeAllows(f: Fields, v: Json) {
    "type" in f ==>
      match f["type"]
      case Arr(names) => exists name | name in names :: HasType(name, v)
      case name => HasType(name, v)
  }

  /** How a schema is read.  The strict reading of a node takes its object to be
      closed with every property required, whatever the node says; `here` says
      whether this node is read strictly, `refs` whether the nodes behind a
      reference are. */
  datatype Reading = Reading(refs: bool, here: bool)

  const PLAIN := Reading(false, false)
  const STRICT := Reading(true, true)

  predicate ListedProperty(f: Fields, key: string) {
    HasProperties(f) && key in f["properties"].fields
  }

  predicate PatternProperty(voc: Vocabulary, f: Fields, key: string) {
    "patternProperties" in f && f["patternProperties"].Obj?
    && exists p | p in f["patternProperties"].fields :: voc.matches(p, key)
  }

  /** Sections 6.5.3 and 6.5.6: which names an object has to have and may have. */
  ghost predicate NamesAllowed(voc: Vocabulary, here: bool, f: Fields, v: Json) {
    v.Obj? ==>
      if here && (HasProperties(f) || TypeIsObject(f)) then
        && (forall k | ListedProperty(f, k) :: k in v.fields)
        && (forall k | k in v.fields :: ListedProperty(f, k) || PatternProperty(voc, f, k))
      else
        && (forall k | IsRequired(f, k) :: k in v.fields)
        && ("additionalProperties" in f && f["additionalProperties"] == Bool(false) ==>
              forall k | k in v.fields :: ListedProperty(f, k) || PatternProperty(voc, f, k))
  }

  /** What follows `prefix` in `s`, if `s` starts with it. */
  function Stripped(prefix: string, s: string): Option<string> {
    if prefix == [] then Some(s)
    else if s != [] && s[0] == prefix[0] then Stripped(prefix[1..], s[1..])
    else None
  }

  lemma {:induction false} StrippedAppend(prefix: string, rest: string)
    ensures Stripped(prefix, prefix + rest) == Some(rest)
  {
    if prefix == [] {
      assert prefix + rest == rest;
    } else {
      StrippedAppend(prefix[1..], rest);
      assert (prefix + rest)[1..] == prefix[1..] + rest;
    }
  }

  const DEFINITION_PREFIX := "#/definitions/"

  /** The schemas a `$ref` can name: the root, and the root's definitions. */
  function Resolve(root: Json, ref: Json): Option<Json> {
    if ref == Str("#") then Some(root)
    else if ref.Str? && Stripped(DEFINITION_PREFIX, ref.s).Some? then
      var name := Stripped(DEFINITION_PREFIX, ref.s).value;
      if HasDefinitions(root) && name in root.fields["definitions"].fields
      then Some(root.fields["definitions"].fields[name]) else None
    else None
  }

  /** `v` is valid against `s`, following at most `fuel` references.  A node with
      a `$ref` is only its reference. */
  ghost predicate Valid(voc: Vocabulary, fuel: nat, root: Json, rd: Reading, s: Json, v: Json)
    decreases fuel, s, 3
  {
    match s
    case Bool(b) => b
    case Obj(f) =>
      if "$ref" in f then ReferenceValid(voc, fuel, root, rd, f["$ref"], v) else NodeValid(voc, fuel, root, rd, s, v)
    case _ => true
  }

  ghost predicate ReferenceValid(voc: Vocabulary, fuel: nat, root: Json, rd: Reading, ref: Json, v: Json)
    decreases fuel, ref, 0
  {
    var target := Resolve(root, ref);
    target.Some? && fuel > 0 && Valid(voc, fuel - 1, root, Reading(rd.refs, rd.refs), target.value, v)
  }

  ghost predicate NodeValid(voc: Vocabulary, fuel: nat, root: Json, rd: Reading, s: Json, v: Json)
    requires s.Obj?
    decreases fuel, s, 2
  {
    && TypeAllows(s.fields, v)
    && NamesAllowed(voc, rd.here, s.fields, v)
    && voc.others(Others(s.fields), v, BelowOthers(voc, fuel, root, rd, s))
    && MembersValid(voc, fuel, root, rd, s, v)
    && VariantsValid(voc, fuel, root, rd, s, v)
  }

  /** Which subschemas of the other keywords accept which values. */
  ghost function BelowOthers(voc: Vocabulary, fuel: nat, root: Json, rd: Reading, s: Json): iset<(Json, Json)>
    requires s.Obj?
    decreases fuel, s, 0
  {
    iset sub: Json, w: Json |
      InOthers(s.fields, sub) && Valid(voc, fuel, root, Reading(rd.refs, false), sub, w) :: (sub, w)
  }

  /** The keywords that look into an object or an array. */
  ghost predicate MembersValid(voc: Vocabulary, fuel: nat, root: Json, rd: Reading, s: Json, v: Json)
    requires s.Obj?
    decreases fuel, s, 1
  {
    && PropertiesValid(voc, fuel, root, rd, s, v)
    && PatternsValid(voc, fuel, root, rd, s, v)
    && AdditionalValid(voc, fuel, root, rd, s, v)
    && ItemsValid(voc, fuel, root, rd, s, v)
    && LaterItemsValid(voc, fuel, root, rd, s, v)
  }

  /** The keywords that combine schemas for the same value. */
  ghost predicate VariantsValid(voc: Vocabulary, fuel: nat, root: Json, rd: Reading, s: Json, v: Json)
    requires s.Obj?
    decreases fuel, s, 1
  {
    && AllOfValid(voc, fuel, root, rd, s, v)
    && AnyOfValid(voc, fuel, root, rd, s, v)
    && OneOfValid(voc, fuel, root, rd, s, v)
    && NotValid(voc, fuel, root, rd, s, v)
  }

  /** Section 6.5.4. */
  ghost predicate PropertiesValid(voc: Vocabulary, fuel: nat, root: Json, rd: Reading, s: Json, v: Json)
    requires s.Obj?
    decreases fuel, s, 0
  {
    v.Obj? && HasProperties(s.fields) ==>
      forall k | k in s.fields["properties"].fields && k in v.fields ::
        Valid(voc, fuel, root, rd, s.fields["properties"].fields[k], v.fields[k])
  }

  /** Section 6.5.5. */
  ghost predicate PatternsValid(voc: Vocabulary, fuel: nat, root: Json, rd: Reading, s: Json, v: Json)
    requires s.Obj?
    decreases fuel, s, 0
  {
    v.Obj? && "patternProperties" in s.fields && s.fields["patternProperties"].Obj? ==>
      forall p, k | p in s.fields["patternProperties"].fields && k in v.fields && voc.matches(p, k) ::
        Valid(voc, fuel, root, Reading(rd.refs, false), s.fields["patternProperties"].fields[p], v.fields[k])
  }

  /** Section 6.5.6 with a schema, for the names that neither of the two lists covers. */
  ghost predicate AdditionalValid(voc: Vocabulary, fuel: nat, root: Json, rd: Reading, s: Json, v: Json)
    requires s.Obj?
    decreases fuel, s, 0
  {
    v.Obj? && "additionalProperties" in s.fields && s.fields["additionalProperties"].Obj? ==>
      forall k | k in v.fields && !ListedProperty(s.fields, k) && !PatternProperty(voc, s.fields, k) ::
        Valid(voc, fuel, root, Reading(rd.refs, false), s.fields["additionalProperties"], v.fields[k])
  }

  /** Section 6.4.1: one schema for every item, or one for each position. */
  ghost predicate ItemsValid(voc: Vocabulary, fuel: nat, root: Json, rd: Reading, s: Json, v: Json)
    requires s.Obj?
    decreases fuel, s, 0
  {
    v.Arr? && "items" in s.fields ==>
      if s.fields["items"].Arr? then
        forall i | 0 <= i < |s.fields["items"].items| && i < |v.items| ::
          Valid(voc, fuel, root, Reading(rd.refs, false), s.fields["items"].items[i], v.items[i])
      else
        forall i | 0 <= i < |v.items| :: Valid(voc, fuel, root, rd, s.fields["items"], v.items[i])
  }

  /** Section 6.4.2: the items after those that have a schema for their position. */
  ghost predicate LaterItemsValid(voc: Vocabulary, fuel: nat, root: Json, rd: Reading, s: Json, v: Json)
    requires s.Obj?
    decreases fuel, s, 0
  {
    v.Arr? && "items" in s.fields && s.fields["items"].Arr? && "additionalItems" in s.fields ==>
      forall i | |s.fields["items"].items| <= i < |v.items| ::
        Valid(voc, fuel, root, Reading(rd.refs, false), s.fields["additionalItems"], v.items[i])
  }

  predicate HasVariants(f: Fields, c: string) {
    c in f && f[c].Arr?
  }

  /** Section 6.7.1. */
  ghost predicate AllOfValid(voc: Vocabulary, fuel: nat, root: Json, rd: Reading, s: Json, v: Json)
    requires s.Obj?
    decreases fuel, s, 0
  {
    HasVariants(s.fields, "allOf") ==>
      forall i | 0 <= i < |s.fields["allOf"].items| :: Valid(voc, fuel, root, rd, s.fields["allOf"].items[i], v)
  }

  /** Section 6.7.2. */
  ghost predicate AnyOfValid(voc: Vocabulary, fuel: nat, root: Json, rd: Reading, s: Json, v: Json)
    requires s.Obj?
    decreases fuel, s, 0
  {
    HasVariants(s.fields, "anyOf") ==>
      exists i | 0 <= i < |s.fields["anyOf"].items| :: Valid(voc, fuel, root, rd, s.fields["anyOf"].items[i], v)
  }

  /** Section 6.7.3. */
  ghost predicate OneOfValid(voc: Vocabulary, fuel: nat, root: Json, rd: Reading, s: Json, v: Json)
    requires s.Obj?
    decreases fuel, s, 0
  {
    HasVariants(s.fields, "oneOf") ==>
      exists i | 0 <= i < |s.fields["oneOf"].items| :: OnlyVariant(voc, fuel, root, rd, s.fields["oneOf"].items, i, v)
  }

  ghost predicate OnlyVariant(voc: Vocabulary, fuel: nat, root: Json, rd: Reading, vs: seq<Json>, i: nat, v: Json)
    requires i < |vs|
    decreases fuel, vs, 0
  {
    && Valid(voc, fuel, root, rd, vs[i], v)
    && forall j | 0 <= j < |vs| && j != i :: !Valid(voc, fuel, root, rd, vs[j], v)
  }

  /** Section 6.7.4. */
  ghost predicate NotValid(voc: Vocabulary, fuel: nat, root: Json, rd: Reading, s: Json, v: Json)
    requires s.Obj?
    decreases fuel, s, 0
  {
    "not" in s.fields ==> !Valid(voc, fuel, root, Reading(rd.refs, false), s.fields["not"], v)
  }

  // ---- the rewrite is exact ----

  lemma AnyTypeAllows(f: Fields, v: Json)
    ensures TypeAllows(f["type" := ANY_TYPE], v)
  {
    var names := ANY_TYPE.items;
    assert names[0] == Str("string") && names[1] == Str("number") && names[2] == Str("object");
    assert names[3] == Str("array") && names[4] == Str("boolean") && names[5] == Str("null");
    match v
    case Null => assert HasType(names[5], v);
    case Bool(_) => assert HasType(names[4], v);
    case Num(_) => assert HasType(names[1], v);
    case Str(_) => assert HasType(names[0], v);
    case Arr(_) => assert HasType(names[3], v);
    case Obj(_) => assert HasType(names[2], v);
  }

  lemma {:induction false} SameProperties(voc: Vocabulary, fuel: nat, root: Json, rd: Reading, f: Fields, g: Fields,
        v: Json)
    requires KeepsKey(f, g, "properties")
    ensures PropertiesValid(voc, fuel, root, rd, Obj(f), v) <==> PropertiesValid(voc, fuel, root, rd, Obj(g), v)
  {
  }

  lemma {:induction false} SamePatterns(voc: Vocabulary, fuel: nat, root: Json, rd: Reading, f: Fields, g: Fields,
        v: Json)
    requires KeepsKey(f, g, "patternProperties")
    ensures PatternsValid(voc, fuel, root, rd, Obj(f), v) <==> PatternsValid(voc, fuel, root, rd, Obj(g), v)
  {
  }

  lemma SamePatternNames(voc: Vocabulary, f: Fields, g: Fields)
    requires KeepsKey(f, g, "patternProperties")
    ensures forall k :: PatternProperty(voc, f, k) <==> PatternProperty(voc, g, k)
  {
  }

  lemma {:induction false} SameAdditional(voc: Vocabulary, fuel: nat, root: Json, rd: Reading, f: Fields, g: Fields,
        v: Json)
    requires KeepsKey(f, g, "additionalProperties") && KeepsKey(f, g, "properties")
      && KeepsKey(f, g, "patternProperties")
    ensures AdditionalValid(voc, fuel, root, rd, Obj(f), v) <==> AdditionalValid(voc, fuel, root, rd, Obj(g), v)
  {
    SamePatternNames(voc, f, g);
  }

  lemma {:induction false} SameItems(voc: Vocabulary, fuel: nat, root: Json, rd: Reading, f: Fields, g: Fields, v: Json)
    requires KeepsKey(f, g, "items")
    ensures ItemsValid(voc, fuel, root, rd, Obj(f), v) <==> ItemsValid(voc, fuel, root, rd, Obj(g), v)
  {
  }

  /** `items` matters here only if it is a list. */
  predicate KeepsItemList(f: Fields, g: Fields) {
    && ("items" in f && f["items"].Arr? <==> "items" in g && g["items"].Arr?)
    && ("items" in f && f["items"].Arr? ==> g["items"] == f["items"])
  }

  lemma {:induction false} SameLaterItems(voc: Vocabulary, fuel: nat, root: Json, rd: Reading, f: Fields, g: Fields,
        v: Json)
    requires KeepsItemList(f, g) && KeepsKey(f, g, "additionalItems")
    ensures LaterItemsValid(voc, fuel, root, rd, Obj(f), v) <==> LaterItemsValid(voc, fuel, root, rd, Obj(g), v)
  {
  }

  lemma {:induction false} SameAllOf(voc: Vocabulary, fuel: nat, root: Json, rd: Reading, f: Fields, g: Fields, v: Json)
    requires KeepsKey(f, g, "allOf")
    ensures AllOfValid(voc, fuel, root, rd, Obj(f), v) <==> AllOfValid(voc, fuel, root, rd, Obj(g), v)
  {
  }

  lemma {:induction false} SameAnyOf(voc: Vocabulary, fuel: nat, root: Json, rd: Reading, f: Fields, g: Fields, v: Json)
    requires KeepsKey(f, g, "anyOf")
    ensures AnyOfValid(voc, fuel, root, rd, Obj(f), v) <==> AnyOfValid(voc, fuel, root, rd, Obj(g), v)
  {
  }

  lemma {:induction false} SameOneOf(voc: Vocabulary, fuel: nat, root: Json, rd: Reading, f: Fields, g: Fields, v: Json)
    requires KeepsKey(f, g, "oneOf")
    ensures OneOfValid(voc, fuel, root, rd, Obj(f), v) <==> OneOfValid(voc, fuel, root, rd, Obj(g), v)
  {
  }

  lemma {:induction false} SameNot(voc: Vocabulary, fuel: nat, root: Json, rd: Reading, f: Fields, g: Fields, v: Json)
    requires KeepsKey(f, g, "not")
    ensures NotValid(voc, fuel, root, rd, Obj(f), v) <==> NotValid(voc, fuel, root, rd, Obj(g), v)
  {
  }

  lemma {:induction false} SameMembers(voc: Vocabulary, fuel: nat, root: Json, rd: Reading, f: Fields, g: Fields,
        v: Json)
    requires KeepsKey(f, g, "properties") && KeepsKey(f, g, "patternProperties")
    requires KeepsKey(f, g, "additionalProperties") && KeepsKey(f, g, "items") && KeepsKey(f, g, "additionalItems")
    ensures MembersValid(voc, fuel, root, rd, Obj(f), v) <==> MembersValid(voc, fuel, root, rd, Obj(g), v)
  {
    SameProperties(voc, fuel, root, rd, f, g, v);
    SamePatterns(voc, fuel, root, rd, f, g, v);
    SameAdditional(voc, fuel, root, rd, f, g, v);
    SameItems(voc, fuel, root, rd, f, g, v);
    SameLaterItems(voc, fuel, root, rd, f, g, v);
  }

  lemma {:induction false} SameVariants(voc: Vocabulary, fuel: nat, root: Json, rd: Reading, f: Fields, g: Fields,
        v: Json)
    requires KeepsKey(f, g, "allOf") && KeepsKey(f, g, "anyOf") && KeepsKey(f, g, "oneOf") && KeepsKey(f, g, "not")
    ensures VariantsValid(voc, fuel, root, rd, Obj(f), v) <==> VariantsValid(voc, fuel, root, rd, Obj(g), v)
  {
    SameAllOf(voc, fuel, root, rd, f, g, v);
    SameAnyOf(voc, fuel, root, rd, f, g, v);
    SameOneOf(voc, fuel, root, rd, f, g, v);
    SameNot(voc, fuel, root, rd, f, g, v);
  }

  lemma {:induction false} SameBelow(voc: Vocabulary, fuel: nat, root: Json, rd: Reading, f: Fields, g: Fields)
    requires Others(f) == Others(g)
    ensures BelowOthers(voc, fuel, root, rd, Obj(f)) == BelowOthers(voc, fuel, root, rd, Obj(g))
  {
    forall sub ensures InOthers(f, sub) <==> InOthers(g, sub) { SameInOthers(f, g, sub); }
  }

  lemma SameInOthers(f: Fields, g: Fields, sub: Json)
    requires Others(f) == Others(g)
    ensures InOthers(f, sub) <==> InOthers(g, sub)
  {
    assert forall k :: k in f && k !in KEYWORDS <==> k in Others(f);
    assert forall k :: k in g && k !in KEYWORDS <==> k in Others(g);
    assert forall k | k in Others(f) :: f[k] == Others(f)[k] == Others(g)[k] == g[k];
  }

  lemma SameNames(voc: Vocabulary, f: Fields, g: Fields, v: Json)
    requires KeepsKey(f, g, "properties") && KeepsKey(f, g, "patternProperties")
    requires KeepsKey(f, g, "required") && KeepsKey(f, g, "additionalProperties")
    ensures NamesAllowed(voc, false, f, v) <==> NamesAllowed(voc, false, g, v)
  {
    SamePatternNames(voc, f, g);
  }

  lemma SameOthers(f: Fields, g: Fields)
    requires forall k | k !in KEYWORDS :: KeepsKey(f, g, k)
    ensures Others(f) == Others(g)
  {
    forall k ensures KeepsKey(Others(f), Others(g), k) {
      if k !in KEYWORDS { assert KeepsKey(f, g, k); }
    }
  }

  /** The two nodes differ at most in `type` and `definitions`. */
  ghost predicate SameConstraints(f: Fields, g: Fields) {
    && KeepsKey(f, g, "$ref") && KeepsKey(f, g, "not") && KeepsKey(f, g, "items") && KeepsKey(f, g, "additionalItems")
    && KeepsKey(f, g, "properties") && KeepsKey(f, g, "patternProperties")
    && KeepsKey(f, g, "required") && KeepsKey(f, g, "additionalProperties")
    && KeepsKey(f, g, "allOf") && KeepsKey(f, g, "anyOf") && KeepsKey(f, g, "oneOf")
    && Others(f) == Others(g)
  }

  /** Two nodes whose keywords agree, one by one, agree on the value. */
  lemma {:induction false} NodesAgree(voc: Vocabulary, fuel: nat, root1: Json, rd1: Reading, f1: Fields,
                   root2: Json, rd2: Reading, f2: Fields, v: Json)
    requires TypeAllows(f1, v) == TypeAllows(f2, v)
    requires NamesAllowed(voc, rd1.here, f1, v) == NamesAllowed(voc, rd2.here, f2, v)
    requires Others(f1) == Others(f2)
    requires BelowOthers(voc, fuel, root1, rd1, Obj(f1)) == BelowOthers(voc, fuel, root2, rd2, Obj(f2))
    requires MembersValid(voc, fuel, root1, rd1, Obj(f1), v) == MembersValid(voc, fuel, root2, rd2, Obj(f2), v)
    requires VariantsValid(voc, fuel, root1, rd1, Obj(f1), v) == VariantsValid(voc, fuel, root2, rd2, Obj(f2), v)
    ensures NodeValid(voc, fuel, root1, rd1, Obj(f1), v) == NodeValid(voc, fuel, root2, rd2, Obj(f2), v)
  {
  }

  lemma {:induction false} SameMeaningAside(voc: Vocabulary, fuel: nat, root: Json, f: Fields, g: Fields, v: Json)
    requires SameConstraints(f, g) && (TypeAllows(f, v) <==> TypeAllows(g, v))
    ensures Valid(voc, fuel, root, PLAIN, Obj(f), v) <==> Valid(voc, fuel, root, PLAIN, Obj(g), v)
  {
    SameNames(voc, f, g, v);
    SameBelow(voc, fuel, root, PLAIN, f, g);
    SameMembers(voc, fuel, root, PLAIN, f, g, v);
    SameVariants(voc, fuel, root, PLAIN, f, g, v);
    NodesAgree(voc, fuel, root, PLAIN, f, root, PLAIN, g, v);
    SameReference(voc, fuel, root, f, g, v);
  }

  lemma {:induction false} SameReference(voc: Vocabulary, fuel: nat, root: Json, f: Fields, g: Fields, v: Json)
    requires KeepsKey(f, g, "$ref")
    requires NodeValid(voc, fuel, root, PLAIN, Obj(f), v) == NodeValid(voc, fuel, root, PLAIN, Obj(g), v)
    ensures Valid(voc, fuel, root, PLAIN, Obj(f), v) <==> Valid(voc, fuel, root, PLAIN, Obj(g), v)
  {
  }

  lemma SameConstraintsAside(f: Fields, k: string, w: Json)
    requires k == "type" || k == "definitions"
    ensures SameConstraints(f, f[k := w])
  {
    assert Others(f) == Others(f[k := w]);
  }

  /** A type list that allows everything changes nothing. */
  lemma {:induction false} NullableMeansTheSame(voc: Vocabulary, fuel: nat, root: Json, schema: Json, v: Json)
    requires Nullable(schema).Ok?
    ensures Valid(voc, fuel, root, PLAIN, Nullable(schema).value, v) <==> Valid(voc, fuel, root, PLAIN, schema, v)
  {
    if Nullable(schema).value != schema {
      var f, g := schema.fields, schema.fields["type" := ANY_TYPE];
      AnyTypeAllows(f, v);
      SameConstraintsAside(f, "type", ANY_TYPE);
      SameMeaningAside(voc, fuel, root, f, g, v);
    }
  }

  lemma {:induction false} DefinitionsMeanNothing(voc: Vocabulary, fuel: nat, root: Json, f: Fields,
        definitions: Json, v: Json)
    ensures Valid(voc, fuel, root, PLAIN, Obj(f["definitions" := definitions]), v)
       <==> Valid(voc, fuel, root, PLAIN, Obj(f), v)
  {
    var g := f["definitions" := definitions];
    assert "type" != "definitions";
    SameConstraintsAside(f, "definitions", definitions);
    SameMeaningAside(voc, fuel, root, f, g, v);
  }
}
