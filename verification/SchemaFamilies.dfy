/** Families of schemas, and exactly which of their members the rewrite keeps sound. */
module SchemaFamilies {
  import opened Json
  import opened StrictSchema
  import opened StrictShape
  import opened StrictDocuments
  import opened SchemaMeaning
  import opened SchemaExact
  import opened SchemaSound
  import opened Wrappers

  const EVERYTHING := Bool(true)
  const NO_OTHERS := Vocabulary((p, k) => false, (f, v, below) => true)

  /** A vocabulary that has nothing to say about a node without other keywords. */
  ghost predicate Indifferent(voc: Vocabulary) {
    forall v, below: iset<(Json, Json)> :: voc.others(map[], v, below)
  }

  lemma {:induction false} NoMembers(voc: Vocabulary, fuel: nat, root: Json, rd: Reading, f: Fields, v: Json)
    requires f.Keys !! {"properties", "patternProperties", "additionalProperties", "items"}
    ensures MembersValid(voc, fuel, root, rd, Obj(f), v)
  {
    assert forall k | k in {"properties", "patternProperties", "additionalProperties", "items"} :: k !in f;
  }

  lemma {:induction false} NoVariants(voc: Vocabulary, fuel: nat, root: Json, rd: Reading, f: Fields, v: Json)
    requires "allOf" !in f && "anyOf" !in f && "oneOf" !in f
    ensures VariantsValid(voc, fuel, root, rd, Obj(f), v) == NotValid(voc, fuel, root, rd, Obj(f), v)
  {
  }

  lemma {:induction false} OnlyOneOf(voc: Vocabulary, fuel: nat, root: Json, rd: Reading, f: Fields, v: Json)
    requires "allOf" !in f && "anyOf" !in f && "not" !in f
    ensures VariantsValid(voc, fuel, root, rd, Obj(f), v) == OneOfValid(voc, fuel, root, rd, Obj(f), v)
  {
  }

  /** A node in which nothing but names, and what `VariantsValid` covers, is constrained. */
  lemma {:induction false} NamesAndVariants(voc: Vocabulary, fuel: nat, root: Json, rd: Reading, f: Fields, v: Json)
    requires "type" !in f && voc.others(Others(f), v, BelowOthers(voc, fuel, root, rd, Obj(f)))
    requires MembersValid(voc, fuel, root, rd, Obj(f), v)
    ensures NodeValid(voc, fuel, root, rd, Obj(f), v)
         == (NamesAllowed(voc, rd.here, f, v) && VariantsValid(voc, fuel, root, rd, Obj(f), v))
  {
  }

  lemma {:induction false} NodeIsValid(voc: Vocabulary, fuel: nat, root: Json, rd: Reading, f: Fields, v: Json)
    requires "$ref" !in f
    ensures Valid(voc, fuel, root, rd, Obj(f), v) == NodeValid(voc, fuel, root, rd, Obj(f), v)
  {
  }

  lemma {:induction false} NoNot(voc: Vocabulary, fuel: nat, root: Json, rd: Reading, f: Fields, v: Json)
    requires "not" !in f
    ensures NotValid(voc, fuel, root, rd, Obj(f), v)
  {
  }

  lemma StrictOkFromParts(f: Fields)
    requires !IsOpenDictionary(f)
    requires StrictCombinator(Obj(f), "oneOf").Ok? && StrictCombinator(Obj(f), "anyOf").Ok?
    requires StrictCombinator(Obj(f), "allOf").Ok? && StrictItems(Obj(f)).Ok? && StrictObject(Obj(f)).Ok?
    ensures Strict(Obj(f)).Ok?
  {
    assert StrictParts(Obj(f)).Ok?;
  }

  // ---- objects and lists, nested at will ----

  /** Objects with their members, required names, and whether they are open to other names
      and demand an object; lists of one kind of item; or anything. */
  datatype Shape =
    | Anything
    | List(item: Shape)
    | Object(members: map<string, Shape>, required: set<string>, open: bool, typed: bool)

  function RequiredKeys(required: set<string>): Json {
    var keys := SortedKeys(required);
    Arr(seq(|keys|, i requires 0 <= i < |keys| => Str(keys[i])))
  }

  function ObjectFields(properties: Fields, required: set<string>, open: bool, typed: bool): Fields {
    map["properties" := Obj(properties), "required" := RequiredKeys(required)]
    + (if open then map[] else map["additionalProperties" := Bool(false)])
    + (if typed then map["type" := Str("object")] else map[])
  }

  function SchemaOf(shape: Shape): Json {
    match shape
    case Anything => EVERYTHING
    case List(item) => Obj(map["items" := SchemaOf(item)])
    case Object(members, required, open, typed) =>
      Obj(ObjectFields(map k | k in members :: SchemaOf(members[k]), required, open, typed))
  }

  /** The names of an object that an object node allows. */
  predicate Fits(names: set<string>, required: set<string>, open: bool, keys: set<string>) {
    required <= keys && (open || keys <= names)
  }

  /** What a reading of the schema accepts. */
  predicate Accepts(shape: Shape, here: bool, v: Json) {
    match shape
    case Anything => true
    case List(item) => v.Arr? ==> forall i | 0 <= i < |v.items| :: Accepts(item, here, v.items[i])
    case Object(members, required, open, typed) =>
      if v.Obj? then
        && (if here then v.fields.Keys == members.Keys else Fits(members.Keys, required, open, v.fields.Keys))
        && forall k | k in members && k in v.fields :: Accepts(members[k], here, v.fields[k])
      else !typed
  }

  /** At every object node, the required names are among the members. */
  predicate ListsItsNames(shape: Shape) {
    match shape
    case Anything => true
    case List(item) => ListsItsNames(item)
    case Object(members, required, open, typed) =>
      required <= members.Keys && forall k | k in members :: ListsItsNames(members[k])
  }

  lemma RequiredKeysHold(required: set<string>, k: string)
    ensures Str(k) in RequiredKeys(required).items <==> k in required
  {
    var keys := SortedKeys(required);
    if k in required {
      var i :| 0 <= i < |keys| && keys[i] == k;
      assert RequiredKeys(required).items[i] == Str(k);
    }
  }

  /** All that matters of the fields of an object node. */
  ghost predicate IsObjectNode(f: Fields, properties: Fields, required: set<string>, open: bool, typed: bool) {
    && f.Keys <= {"properties", "required", "additionalProperties", "type"}
    && HasProperties(f) && f["properties"].fields == properties
    && ("additionalProperties" in f <==> !open)
    && ("additionalProperties" in f ==> f["additionalProperties"] == Bool(false))
    && ("type" in f <==> typed) && ("type" in f ==> f["type"] == Str("object"))
    && forall k :: IsRequired(f, k) <==> k in required
  }

  lemma ObjectFieldsAre(properties: Fields, required: set<string>, open: bool, typed: bool)
    ensures IsObjectNode(ObjectFields(properties, required, open, typed), properties, required, open, typed)
  {
    var f := ObjectFields(properties, required, open, typed);
    ObjectFieldsAt(properties, required, open, typed, f);
    forall k ensures IsRequired(f, k) <==> k in required { RequiredKeysHold(required, k); }
  }

  lemma ObjectFieldsAt(properties: Fields, required: set<string>, open: bool, typed: bool, f: Fields)
    requires f == ObjectFields(properties, required, open, typed)
    ensures f.Keys <= {"properties", "required", "additionalProperties", "type"}
    ensures "properties" in f && f["properties"] == Obj(properties)
    ensures "required" in f && f["required"] == RequiredKeys(required)
    ensures ("additionalProperties" in f <==> !open) && (!open ==> f["additionalProperties"] == Bool(false))
    ensures ("type" in f <==> typed) && (typed ==> f["type"] == Str("object"))
  {
  }

  lemma OnlyItsKeywords(f: Fields)
    requires f.Keys <= {"properties", "required", "additionalProperties", "type"}
    ensures Others(f) == map[] && "$ref" !in f && "definitions" !in f
    ensures "allOf" !in f && "anyOf" !in f && "oneOf" !in f && "not" !in f
    ensures "items" !in f && "additionalItems" !in f && "patternProperties" !in f
  {
  }

  lemma NamesRead(voc: Vocabulary, f: Fields, properties: Fields, required: set<string>, open: bool, typed: bool,
        here: bool, v: Json)
    requires v.Obj? && IsObjectNode(f, properties, required, open, typed)
    ensures NamesAllowed(voc, here, f, v)
       <==> if here then v.fields.Keys == properties.Keys else Fits(properties.Keys, required, open, v.fields.Keys)
  {
    OnlyItsKeywords(f);
    assert forall k :: ListedProperty(f, k) <==> k in properties;
    if here { NamesReadStrictly(voc, f, properties.Keys, v); }
  }

  lemma NamesReadStrictly(voc: Vocabulary, f: Fields, names: set<string>, v: Json)
    requires v.Obj? && HasProperties(f) && "patternProperties" !in f && f["properties"].fields.Keys == names
    ensures NamesAllowed(voc, true, f, v) <==> v.fields.Keys == names
  {
    assert forall k :: ListedProperty(f, k) <==> k in names;
    assert v.fields.Keys == names
      <==> (forall k | k in names :: k in v.fields) && forall k | k in v.fields :: k in names;
  }

  lemma {:induction false} OnlyProperties(voc: Vocabulary, fuel: nat, root: Json, rd: Reading, f: Fields, v: Json)
    requires "items" !in f && "patternProperties" !in f
    requires "additionalProperties" in f ==> !f["additionalProperties"].Obj?
    ensures MembersValid(voc, fuel, root, rd, Obj(f), v) == PropertiesValid(voc, fuel, root, rd, Obj(f), v)
  {
  }

  /** A node of which nothing but type, names and members is constrained. */
  lemma {:induction false} NodeRead(voc: Vocabulary, fuel: nat, root: Json, rd: Reading, f: Fields, v: Json)
    requires Indifferent(voc) && Others(f) == map[] && "$ref" !in f
    requires "allOf" !in f && "anyOf" !in f && "oneOf" !in f && "not" !in f
    ensures Valid(voc, fuel, root, rd, Obj(f), v)
         == (TypeAllows(f, v) && NamesAllowed(voc, rd.here, f, v) && MembersValid(voc, fuel, root, rd, Obj(f), v))
  {
    NoVariants(voc, fuel, root, rd, f, v);
    NoNot(voc, fuel, root, rd, f, v);
    NodeIsValid(voc, fuel, root, rd, f, v);
    assert voc.others(Others(f), v, BelowOthers(voc, fuel, root, rd, Obj(f)));
  }

  ghost predicate AllRead(voc: Vocabulary, fuel: nat, root: Json, rd: Reading, properties: Fields, v: Json)
    requires v.Obj?
  {
    forall k | k in properties && k in v.fields :: Valid(voc, fuel, root, rd, properties[k], v.fields[k])
  }

  lemma {:induction false} PropertiesRead(voc: Vocabulary, fuel: nat, root: Json, rd: Reading, f: Fields, v: Json)
    requires HasProperties(f)
    ensures PropertiesValid(voc, fuel, root, rd, Obj(f), v)
       <==> (v.Obj? ==> AllRead(voc, fuel, root, rd, f["properties"].fields, v))
  {
  }

  lemma {:induction false} ObjectNodeRead(voc: Vocabulary, fuel: nat, root: Json, here: bool, f: Fields,
        properties: Fields, required: set<string>, open: bool, typed: bool, v: Json)
    requires Indifferent(voc) && IsObjectNode(f, properties, required, open, typed)
    ensures Valid(voc, fuel, root, Reading(here, here), Obj(f), v)
       <==> if v.Obj? then
              && (if here then v.fields.Keys == properties.Keys
                  else Fits(properties.Keys, required, open, v.fields.Keys))
              && AllRead(voc, fuel, root, Reading(here, here), properties, v)
            else !typed
  {
    OnlyItsKeywords(f);
    NodeRead(voc, fuel, root, Reading(here, here), f, v);
    OnlyProperties(voc, fuel, root, Reading(here, here), f, v);
    PropertiesRead(voc, fuel, root, Reading(here, here), f, v);
    if v.Obj? { NamesRead(voc, f, properties, required, open, typed, here, v); }
  }

  lemma {:induction false} ListNodeRead(voc: Vocabulary, fuel: nat, root: Json, rd: Reading, item: Json, v: Json)
    requires Indifferent(voc) && !item.Arr?
    ensures Valid(voc, fuel, root, rd, Obj(map["items" := item]), v)
       <==> (v.Arr? ==> forall i | 0 <= i < |v.items| :: Valid(voc, fuel, root, rd, item, v.items[i]))
  {
    var f := map["items" := item];
    assert f.Keys == {"items"} && Others(f) == map[];
    NodeRead(voc, fuel, root, rd, f, v);
    assert NamesAllowed(voc, rd.here, f, v);
    OnlyItems(voc, fuel, root, rd, f, v);
  }

  lemma {:induction false} OnlyItems(voc: Vocabulary, fuel: nat, root: Json, rd: Reading, f: Fields, v: Json)
    requires "properties" !in f && "patternProperties" !in f && "additionalProperties" !in f && "additionalItems" !in f
    ensures MembersValid(voc, fuel, root, rd, Obj(f), v) == ItemsValid(voc, fuel, root, rd, Obj(f), v)
  {
  }

  lemma {:induction false} ListShapeRead(voc: Vocabulary, fuel: nat, root: Json, item: Shape, here: bool, v: Json)
    requires Indifferent(voc)
    requires v.Arr? ==> forall i | 0 <= i < |v.items| ::
      Valid(voc, fuel, root, Reading(here, here), SchemaOf(item), v.items[i]) <==> Accepts(item, here, v.items[i])
    ensures Valid(voc, fuel, root, Reading(here, here), SchemaOf(List(item)), v) <==> Accepts(List(item), here, v)
  {
    ListNodeRead(voc, fuel, root, Reading(here, here), SchemaOf(item), v);
  }

  lemma {:induction false} ObjectShapeRead(voc: Vocabulary, fuel: nat, root: Json, shape: Shape, here: bool, v: Json)
    requires Indifferent(voc) && shape.Object?
    requires v.Obj? ==> forall k | k in shape.members && k in v.fields ::
      Valid(voc, fuel, root, Reading(here, here), SchemaOf(shape.members[k]), v.fields[k])
      <==> Accepts(shape.members[k], here, v.fields[k])
    ensures Valid(voc, fuel, root, Reading(here, here), SchemaOf(shape), v) <==> Accepts(shape, here, v)
  {
    var properties := map k | k in shape.members :: SchemaOf(shape.members[k]);
    var f := ObjectFields(properties, shape.required, shape.open, shape.typed);
    assert properties.Keys == shape.members.Keys;
    ObjectFieldsAre(properties, shape.required, shape.open, shape.typed);
    ObjectNodeRead(voc, fuel, root, here, f, properties, shape.required, shape.open, shape.typed, v);
  }

  /** Both readings of such a schema, in terms of the shape alone. */
  lemma {:induction false} ShapeRead(voc: Vocabulary, fuel: nat, root: Json, shape: Shape, here: bool, v: Json)
    requires Indifferent(voc)
    ensures Valid(voc, fuel, root, Reading(here, here), SchemaOf(shape), v) <==> Accepts(shape, here, v)
    decreases shape
  {
    match shape
    case Anything =>
    case List(item) =>
      if v.Arr? {
        forall i | 0 <= i < |v.items|
          ensures Valid(voc, fuel, root, Reading(here, here), SchemaOf(item), v.items[i])
             <==> Accepts(item, here, v.items[i])
        {
          ShapeRead(voc, fuel, root, item, here, v.items[i]);
        }
      }
      ListShapeRead(voc, fuel, root, item, here, v);
    case Object(members, _, _, _) =>
      if v.Obj? {
        forall k | k in members && k in v.fields
          ensures Valid(voc, fuel, root, Reading(here, here), SchemaOf(members[k]), v.fields[k])
             <==> Accepts(members[k], here, v.fields[k])
        {
          ShapeRead(voc, fuel, root, members[k], here, v.fields[k]);
        }
      }
      ObjectShapeRead(voc, fuel, root, shape, here, v);
  }

  lemma OnlyObjectIsStrictable(f: Fields)
    requires "oneOf" !in f && "anyOf" !in f && "allOf" !in f && "items" !in f
    requires !IsOpenDictionary(f) && StrictObject(Obj(f)).Ok?
    ensures Strict(Obj(f)).Ok?
  {
    StrictOkFromParts(f);
  }

  lemma {:induction false} OptionalIsStrictable(s: Json, required: bool)
    requires Strict(s).Ok? && (s.Obj? ==> "$ref" !in s.fields && "allOf" !in s.fields)
    ensures StrictProperty(s, required).Ok?
  {
    if s.Obj? {
      StrictNodeOther(s.fields, "$ref");
      assert COMBINATORS[2] == "allOf";
      StrictNodeCombinator(s.fields, "allOf");
    }
  }

  lemma ObjectIsStrictable(f: Fields, properties: Fields, required: set<string>, open: bool, typed: bool)
    requires IsObjectNode(f, properties, required, open, typed)
    requires forall k, b | k in properties :: StrictProperty(properties[k], b).Ok?
    ensures Strict(Obj(f)).Ok?
  {
    OnlyItsKeywords(f);
    assert StrictProperties(Obj(f), SortedKeys(properties.Keys)).Ok?;
    OnlyObjectIsStrictable(f);
  }

  lemma {:induction false} ListIsStrictable(item: Json)
    requires Strict(item).Ok?
    ensures Strict(Obj(map["items" := item])).Ok?
  {
    var f := map["items" := item];
    assert f.Keys == {"items"};
    StrictOkFromParts(f);
  }

  lemma {:induction false} SchemaIsPlain(shape: Shape)
    ensures SchemaOf(shape).Obj? ==> SchemaOf(shape).fields.Keys !! {"$ref", "allOf", "definitions"}
  {
    match shape
    case Anything =>
    case List(item) => assert SchemaOf(shape).fields.Keys == {"items"};
    case Object(members, required, open, typed) =>
      var properties := map k | k in members :: SchemaOf(members[k]);
      ObjectFieldsAre(properties, required, open, typed);
      OnlyItsKeywords(ObjectFields(properties, required, open, typed));
  }

  lemma {:induction false} ShapesAreStrictable(shape: Shape)
    ensures Strict(SchemaOf(shape)).Ok?
    decreases shape
  {
    match shape
    case Anything =>
    case List(item) =>
      ShapesAreStrictable(item);
      ListIsStrictable(SchemaOf(item));
    case Object(members, required, open, typed) =>
      var properties := map k | k in members :: SchemaOf(members[k]);
      forall k, b | k in properties ensures StrictProperty(properties[k], b).Ok? {
        ShapesAreStrictable(members[k]);
        SchemaIsPlain(members[k]);
        OptionalIsStrictable(properties[k], b);
      }
      ObjectFieldsAre(properties, required, open, typed);
      ObjectIsStrictable(ObjectFields(properties, required, open, typed), properties, required, open, typed);
  }

  lemma {:induction false} ShapesAreAccepted(shape: Shape)
    ensures ToStrict(SchemaOf(shape)).Ok?
  {
    ShapesAreStrictable(shape);
    SchemaIsPlain(shape);
  }

  /** The value with every member that a shape names, which the strict reading accepts. */
  function Full(shape: Shape): Json {
    match shape
    case Anything => Null
    case List(item) => Arr([Full(item)])
    case Object(members, required, open, typed) => Obj(map k | k in members :: Full(members[k]))
  }

  lemma {:induction false} FullIsAccepted(shape: Shape)
    ensures Accepts(shape, true, Full(shape))
    ensures Accepts(shape, false, Full(shape)) ==> ListsItsNames(shape)
    decreases shape
  {
    match shape
    case Anything =>
    case List(item) =>
      assert Full(shape).items[0] == Full(item);
      FullIsAccepted(item);
    case Object(members, required, open, typed) =>
      var full := Full(shape).fields;
      assert full.Keys == members.Keys;
      forall k | k in members
        ensures Accepts(members[k], true, full[k])
        ensures Accepts(members[k], false, full[k]) ==> ListsItsNames(members[k])
      {
        FullIsAccepted(members[k]);
      }
  }

  lemma {:induction false} ListedNamesNarrow(shape: Shape, v: Json)
    requires ListsItsNames(shape) && Accepts(shape, true, v)
    ensures Accepts(shape, false, v)
    decreases shape
  {
    match shape
    case Anything =>
    case List(item) =>
      if v.Arr? {
        forall i | 0 <= i < |v.items| ensures Accepts(item, false, v.items[i]) { ListedNamesNarrow(item, v.items[i]); }
      }
    case Object(members, required, open, typed) =>
      if v.Obj? {
        forall k | k in members && k in v.fields ensures Accepts(members[k], false, v.fields[k]) {
          ListedNamesNarrow(members[k], v.fields[k]);
        }
      }
  }

  lemma {:induction false} BothRead(voc: Vocabulary, fuel: nat, shape: Shape, schema: Json, strict: Json, v: Json)
    requires Indifferent(voc) && schema == SchemaOf(shape) && ToStrict(schema) == Ok(strict)
    ensures Valid(voc, fuel, strict, PLAIN, strict, v) <==> Accepts(shape, true, v)
    ensures Valid(voc, fuel, schema, PLAIN, schema, v) <==> Accepts(shape, false, v)
  {
    ToStrictIsExact(voc, fuel, schema, v);
    ShapeRead(voc, fuel, schema, shape, true, v);
    ShapeRead(voc, fuel, schema, shape, false, v);
  }

  lemma {:induction false} SoundWhenListed(voc: Vocabulary, shape: Shape, schema: Json, strict: Json)
    requires Indifferent(voc) && schema == SchemaOf(shape) && ToStrict(schema) == Ok(strict) && ListsItsNames(shape)
    ensures Sound(voc, schema)
  {
    forall fuel: nat, v | Valid(voc, fuel, strict, PLAIN, strict, v)
      ensures Valid(voc, fuel, schema, PLAIN, schema, v)
    {
      BothRead(voc, fuel, shape, schema, strict, v);
      ListedNamesNarrow(shape, v);
    }
  }

  lemma {:induction false} UnsoundOtherwise(voc: Vocabulary, shape: Shape, schema: Json, strict: Json)
    requires Indifferent(voc) && schema == SchemaOf(shape) && ToStrict(schema) == Ok(strict) && !ListsItsNames(shape)
    ensures !Sound(voc, schema)
  {
    FullIsAccepted(shape);
    BothRead(voc, 0, shape, schema, strict, Full(shape));
  }

  /** For objects and lists nested to any depth, the rewrite is sound exactly when every
      object node lists the names that it requires. */
  lemma {:induction false} SoundExactlyWhenEveryNodeListsItsNames(voc: Vocabulary, shape: Shape)
    requires Indifferent(voc)
    ensures ToStrict(SchemaOf(shape)).Ok? && (Sound(voc, SchemaOf(shape)) <==> ListsItsNames(shape))
  {
    ShapesAreAccepted(shape);
    var schema := SchemaOf(shape);
    if ListsItsNames(shape) {
      SoundWhenListed(voc, shape, schema, ToStrict(schema).value);
    } else {
      UnsoundOtherwise(voc, shape, schema, ToStrict(schema).value);
    }
  }

  // ---- one object ----

  function Flat(names: set<string>, required: set<string>, open: bool): Shape {
    Object(map k | k in names :: Anything, required, open, false)
  }

  /** An object schema that lists `names`, requires some names, and is open or closed. */
  function ObjectSchema(names: set<string>, required: set<string>, open: bool): Json {
    SchemaOf(Flat(names, required, open))
  }

  /** The object schemas that are strict already: closed, and every property required. */
  predicate AlreadyStrict(names: set<string>, required: set<string>, open: bool) {
    !open && required == names
  }

  /** What the two readings of an object schema accept. */
  lemma {:induction false} ObjectRead(voc: Vocabulary, fuel: nat, root: Json, names: set<string>,
        required: set<string>, open: bool, here: bool, v: Json)
    requires Indifferent(voc)
    ensures Valid(voc, fuel, root, Reading(here, here), ObjectSchema(names, required, open), v)
       <==> (v.Obj? ==> if here then v.fields.Keys == names else Fits(names, required, open, v.fields.Keys))
  {
    assert Flat(names, required, open).members.Keys == names;
    ShapeRead(voc, fuel, root, Flat(names, required, open), here, v);
  }

  lemma ObjectsAreStrictable(names: set<string>, required: set<string>, open: bool)
    ensures Strict(ObjectSchema(names, required, open)).Ok?
  {
    ShapesAreStrictable(Flat(names, required, open));
  }

  /** So for a single object schema: sound exactly when it lists what it requires. */
  lemma ObjectSoundExactlyWhenListed(voc: Vocabulary, names: set<string>, required: set<string>, open: bool)
    requires Indifferent(voc)
    ensures ToStrict(ObjectSchema(names, required, open)).Ok?
    ensures Sound(voc, ObjectSchema(names, required, open)) <==> required <= names
  {
    assert Flat(names, required, open).members.Keys == names;
    SoundExactlyWhenEveryNodeListsItsNames(voc, Flat(names, required, open));
  }

  /** A schema that lists `a` and requires `b`: the rewrite accepts an object with `a`
      alone, which the schema rejects. */
  lemma {:induction false} UnlistedNameWidens(fuel: nat)
    ensures var schema, v := ObjectSchema({"a"}, {"b"}, true), Obj(map["a" := Null]);
      && ToStrict(schema).Ok?
      && Valid(NO_OTHERS, fuel, ToStrict(schema).value, PLAIN, ToStrict(schema).value, v)
      && !Valid(NO_OTHERS, fuel, schema, PLAIN, schema, v)
  {
    var schema, v := ObjectSchema({"a"}, {"b"}, true), Obj(map["a" := Null]);
    assert v.fields.Keys == {"a"} && "b" !in v.fields.Keys;
    ObjectSoundExactlyWhenListed(NO_OTHERS, {"a"}, {"b"}, true);
    ToStrictIsExact(NO_OTHERS, fuel, schema, v);
    ObjectRead(NO_OTHERS, fuel, schema, {"a"}, {"b"}, true, true, v);
    ObjectRead(NO_OTHERS, fuel, schema, {"a"}, {"b"}, true, false, v);
  }

  // ---- oneOf ----

  function OneOf(vs: seq<Json>): Json {
    Obj(map["oneOf" := Arr(vs)])
  }

  lemma BranchesAreStrictable(vs: seq<Json>)
    requires forall i | 0 <= i < |vs| :: Strict(vs[i]).Ok?
    ensures ToStrict(OneOf(vs)).Ok?
  {
    assert OneOf(vs).fields.Keys == {"oneOf"};
    assert StrictVariants(vs, "oneOf", 0).Ok?;
    StrictOkFromParts(OneOf(vs).fields);
  }

  lemma {:induction false} BranchesRead(fuel: nat, root: Json, rd: Reading, vs: seq<Json>, v: Json)
    ensures Valid(NO_OTHERS, fuel, root, rd, OneOf(vs), v) <==> OneOfValid(NO_OTHERS, fuel, root, rd, OneOf(vs), v)
  {
    var f := OneOf(vs).fields;
    assert f.Keys == {"oneOf"};
    NoMembers(NO_OTHERS, fuel, root, rd, f, v);
    OnlyOneOf(NO_OTHERS, fuel, root, rd, f, v);
    assert NamesAllowed(NO_OTHERS, rd.here, f, v);
  }

  function OneOfTwo(a: set<string>, b: set<string>): Json {
    OneOf([ObjectSchema(a, {}, true), ObjectSchema(b, {}, true)])
  }

  /** `oneOf` over two open object schemas: the plain reading accepts nothing, for both
      branches allow every value; the strict one accepts what is closed under only one. */
  lemma {:induction false} OneOfTwoRead(fuel: nat, root: Json, a: set<string>, b: set<string>, here: bool, v: Json)
    ensures Valid(NO_OTHERS, fuel, root, Reading(here, here), OneOfTwo(a, b), v)
       <==> here && v.Obj? && (v.fields.Keys == a) != (v.fields.Keys == b)
  {
    var vs, rd := [ObjectSchema(a, {}, true), ObjectSchema(b, {}, true)], Reading(here, here);
    ObjectRead(NO_OTHERS, fuel, root, a, {}, true, here, v);
    ObjectRead(NO_OTHERS, fuel, root, b, {}, true, here, v);
    BranchesRead(fuel, root, rd, vs, v);
    TwoVariants(fuel, root, rd, vs, v);
  }

  lemma {:induction false} TwoVariants(fuel: nat, root: Json, rd: Reading, vs: seq<Json>, v: Json)
    requires |vs| == 2
    ensures OneOfValid(NO_OTHERS, fuel, root, rd, OneOf(vs), v)
       <==> Valid(NO_OTHERS, fuel, root, rd, vs[0], v) != Valid(NO_OTHERS, fuel, root, rd, vs[1], v)
  {
    FirstOfTwo(fuel, root, rd, vs, v);
    SecondOfTwo(fuel, root, rd, vs, v);
    assert OneOfValid(NO_OTHERS, fuel, root, rd, OneOf(vs), v)
      <==> OnlyVariant(NO_OTHERS, fuel, root, rd, vs, 0, v) || OnlyVariant(NO_OTHERS, fuel, root, rd, vs, 1, v);
  }

  lemma {:induction false} FirstOfTwo(fuel: nat, root: Json, rd: Reading, vs: seq<Json>, v: Json)
    requires |vs| == 2
    ensures OnlyVariant(NO_OTHERS, fuel, root, rd, vs, 0, v)
       <==> Valid(NO_OTHERS, fuel, root, rd, vs[0], v) && !Valid(NO_OTHERS, fuel, root, rd, vs[1], v)
  {
  }

  lemma {:induction false} SecondOfTwo(fuel: nat, root: Json, rd: Reading, vs: seq<Json>, v: Json)
    requires |vs| == 2
    ensures OnlyVariant(NO_OTHERS, fuel, root, rd, vs, 1, v)
       <==> Valid(NO_OTHERS, fuel, root, rd, vs[1], v) && !Valid(NO_OTHERS, fuel, root, rd, vs[0], v)
  {
  }

  /** `oneOf` is not monotone: two overlapping branches can stop overlapping.  For two
      open object schemas the rewrite is sound exactly when they list the same names. */
  lemma OverlappingBranchesWiden(a: set<string>, b: set<string>)
    ensures ToStrict(OneOfTwo(a, b)).Ok?
    ensures Sound(NO_OTHERS, OneOfTwo(a, b)) <==> a == b
  {
    var schema := OneOfTwo(a, b);
    ObjectsAreStrictable(a, {}, true);
    ObjectsAreStrictable(b, {}, true);
    BranchesAreStrictable([ObjectSchema(a, {}, true), ObjectSchema(b, {}, true)]);
    forall fuel: nat, v
      ensures Valid(NO_OTHERS, fuel, ToStrict(schema).value, PLAIN, ToStrict(schema).value, v)
         <==> v.Obj? && (v.fields.Keys == a) != (v.fields.Keys == b)
      ensures !Valid(NO_OTHERS, fuel, schema, PLAIN, schema, v)
    {
      ToStrictIsExact(NO_OTHERS, fuel, schema, v);
      OneOfTwoRead(fuel, schema, a, b, true, v);
      OneOfTwoRead(fuel, schema, a, b, false, v);
    }
    if a != b {
      var v := Obj(map k | k in a :: Null);
      assert v.fields.Keys == a;
      assert Valid(NO_OTHERS, 0, ToStrict(schema).value, PLAIN, ToStrict(schema).value, v);
    }
  }

  // ---- references below `not` and `if` ----

  /** In both readings, the document accepts what its definition does not. */
  ghost predicate Refuses(voc: Vocabulary, schema: Json, definition: Json) {
    forall fuel: nat, here: bool, v ::
      Valid(voc, fuel, schema, Reading(here, here), schema, v)
      <==> (fuel > 0 ==> !Valid(voc, fuel - 1, schema, Reading(here, here), definition, v))
  }

  lemma {:induction false} RefusedAt(voc: Vocabulary, schema: Json, names: set<string>, required: set<string>,
        open: bool, fuel: nat, here: bool, v: Json)
    requires Indifferent(voc) && Refuses(voc, schema, ObjectSchema(names, required, open))
    ensures Valid(voc, fuel, schema, Reading(here, here), schema, v)
       <==> (fuel > 0 ==>
               v.Obj? && if here then v.fields.Keys != names else !Fits(names, required, open, v.fields.Keys))
  {
    if fuel > 0 { ObjectRead(voc, fuel - 1, schema, names, required, open, here, v); }
  }

  /** An object that an object schema allows and its strict form does not, if there is one. */
  lemma FitsMoreThanItsNames(names: set<string>, required: set<string>, open: bool) returns (v: Json)
    requires required <= names && !AlreadyStrict(names, required, open)
    ensures v.Obj? && v.fields.Keys != names && Fits(names, required, open, v.fields.Keys)
  {
    if required != names {
      v := Obj(map k | k in required :: Null);
      assert v.fields.Keys == required;
    } else {
      var extra := FreshName(names);
      v := Obj(map k | k in names + {extra} :: Null);
      assert v.fields.Keys == names + {extra};
    }
  }

  lemma {:induction false} FreshName(names: set<string>) returns (extra: string)
    ensures extra !in names
  {
    extra := "";
    if names != {} {
      var longest := LongestName(names);
      extra := longest + "x";
      assert |extra| > |longest|;
    }
  }

  lemma {:induction false} LongestName(names: set<string>) returns (longest: string)
    requires names != {}
    ensures forall k | k in names :: |k| <= |longest|
  {
    longest :| longest in names;
    if names != {longest} {
      var other := LongestName(names - {longest});
      if |longest| < |other| { longest := other; }
    }
  }

  lemma RefusalSoundExactlyWhenStrict(voc: Vocabulary, schema: Json, names: set<string>, required: set<string>,
        open: bool)
    requires ToStrict(schema).Ok? && Refuses(voc, schema, ObjectSchema(names, required, open)) && required <= names
    requires Indifferent(voc)
    ensures Sound(voc, schema) <==> AlreadyStrict(names, required, open)
  {
    forall fuel: nat, v
      ensures Valid(voc, fuel, ToStrict(schema).value, PLAIN, ToStrict(schema).value, v)
         <==> (fuel > 0 ==> v.Obj? && v.fields.Keys != names)
      ensures Valid(voc, fuel, schema, PLAIN, schema, v)
         <==> (fuel > 0 ==> v.Obj? && !Fits(names, required, open, v.fields.Keys))
    {
      ToStrictIsExact(voc, fuel, schema, v);
      RefusedAt(voc, schema, names, required, open, fuel, true, v);
      RefusedAt(voc, schema, names, required, open, fuel, false, v);
    }
    if !AlreadyStrict(names, required, open) {
      var v := FitsMoreThanItsNames(names, required, open);
      assert Valid(voc, 1, ToStrict(schema).value, PLAIN, ToStrict(schema).value, v);
    }
  }

  const TO_DEFINITION := Obj(map["$ref" := Str(DEFINITION_PREFIX + "D")])

  lemma ResolvesToDefinition(root: Json, name: string)
    requires HasDefinitions(root) && name in root.fields["definitions"].fields
    ensures Resolve(root, Str(DEFINITION_PREFIX + name)) == Some(root.fields["definitions"].fields[name])
  {
    StrippedAppend(DEFINITION_PREFIX, name);
    assert |DEFINITION_PREFIX + name| > |"#"|;
  }

  lemma {:induction false} ResolvedReferenceRead(voc: Vocabulary, fuel: nat, root: Json, rd: Reading, ref: Json,
        target: Json, v: Json)
    requires Resolve(root, ref) == Some(target)
    ensures Valid(voc, fuel, root, rd, Obj(map["$ref" := ref]), v)
       <==> fuel > 0 && Valid(voc, fuel - 1, root, Reading(rd.refs, rd.refs), target, v)
  {
    assert ReferenceValid(voc, fuel, root, rd, ref, v)
      <==> fuel > 0 && Valid(voc, fuel - 1, root, Reading(rd.refs, rd.refs), target, v);
  }

  lemma {:induction false} DefinitionRead(voc: Vocabulary, fuel: nat, definition: Json, root: Json, rd: Reading,
        v: Json)
    requires HasDefinitions(root) && root.fields["definitions"].fields == map["D" := definition]
    ensures Valid(voc, fuel, root, rd, TO_DEFINITION, v)
       <==> fuel > 0 && Valid(voc, fuel - 1, root, Reading(rd.refs, rd.refs), definition, v)
  {
    ResolvesToDefinition(root, "D");
    ResolvedReferenceRead(voc, fuel, root, rd, Str(DEFINITION_PREFIX + "D"), definition, v);
  }

  lemma {:induction false} ToStrictOkFromParts(schema: Json)
    requires HasDefinitions(schema) && Strict(schema).Ok?
    requires forall k | k in schema.fields["definitions"].fields :: Strict(schema.fields["definitions"].fields[k]).Ok?
    ensures ToStrict(schema).Ok?
  {
    var defs := schema.fields["definitions"].fields;
    var rewritten := StrictDefinitions(defs, SortedKeys(defs.Keys));
    DefinitionsUnvisited(schema.fields, Obj(rewritten.value));
  }

  function Excluding(definition: Json): Json {
    Obj(map["definitions" := Obj(map["D" := definition]), "not" := TO_DEFINITION])
  }

  lemma UntouchedIsStrictable(f: Fields)
    requires "oneOf" !in f && "anyOf" !in f && "allOf" !in f && "items" !in f
    requires "properties" !in f && "additionalProperties" !in f && "type" !in f
    ensures Strict(Obj(f)).Ok?
  {
    StrictOkFromParts(f);
  }

  lemma {:induction false} DocumentIsStrictable(f: Fields, definition: Json)
    requires "definitions" in f && f["definitions"] == Obj(map["D" := definition])
    requires Strict(Obj(f)).Ok? && Strict(definition).Ok?
    ensures ToStrict(Obj(f)).Ok?
  {
    ToStrictOkFromParts(Obj(f));
  }

  lemma {:induction false} ExcludingIsStrictable(definition: Json)
    requires Strict(definition).Ok?
    ensures ToStrict(Excluding(definition)).Ok?
  {
    var f := Excluding(definition).fields;
    assert f.Keys == {"definitions", "not"};
    UntouchedIsStrictable(f);
    DocumentIsStrictable(f, definition);
  }

  lemma {:induction false} ExcludingReads(fuel: nat, definition: Json, here: bool, v: Json)
    ensures var s := Excluding(definition);
      Valid(NO_OTHERS, fuel, s, Reading(here, here), s, v)
      <==> (fuel > 0 ==> !Valid(NO_OTHERS, fuel - 1, s, Reading(here, here), definition, v))
  {
    var s, rd := Excluding(definition), Reading(here, here);
    assert s.fields.Keys == {"definitions", "not"};
    DefinitionRead(NO_OTHERS, fuel, definition, s, Reading(here, false), v);
    NoMembers(NO_OTHERS, fuel, s, rd, s.fields, v);
    NoVariants(NO_OTHERS, fuel, s, rd, s.fields, v);
    NamesAndVariants(NO_OTHERS, fuel, s, rd, s.fields, v);
    NodeIsValid(NO_OTHERS, fuel, s, rd, s.fields, v);
    assert NamesAllowed(NO_OTHERS, here, s.fields, v);
    assert NotValid(NO_OTHERS, fuel, s, rd, s, v) == !Valid(NO_OTHERS, fuel, s, Reading(here, false), TO_DEFINITION, v);
  }

  /** `not` turns narrowing round, so a reference below it can widen the schema.  With an
      object schema behind the reference, it does unless that schema is strict already. */
  lemma ReferenceBelowNotWidens(names: set<string>, required: set<string>, open: bool)
    requires required <= names
    ensures var schema := Excluding(ObjectSchema(names, required, open));
      ToStrict(schema).Ok? && (Sound(NO_OTHERS, schema) <==> AlreadyStrict(names, required, open))
  {
    var definition := ObjectSchema(names, required, open);
    ObjectsAreStrictable(names, required, open);
    ExcludingIsStrictable(definition);
    forall fuel: nat, here: bool, v
      ensures Valid(NO_OTHERS, fuel, Excluding(definition), Reading(here, here), Excluding(definition), v)
         <==> (fuel > 0 ==> !Valid(NO_OTHERS, fuel - 1, Excluding(definition), Reading(here, here), definition, v))
    {
      ExcludingReads(fuel, definition, here, v);
    }
    RefusalSoundExactlyWhenStrict(NO_OTHERS, Excluding(definition), names, required, open);
  }

  /** Section 6.6: the vocabulary in which `if`, `then` and `else` are applied. */
  ghost const CONDITIONAL := Vocabulary((p, k) => false, (f, v, below) =>
    "if" in f ==>
      if (f["if"], v) in below then "then" in f ==> (f["then"], v) in below
      else "else" in f ==> (f["else"], v) in below)

  function Unless(definition: Json): Json {
    Obj(map["definitions" := Obj(map["D" := definition]), "if" := TO_DEFINITION, "then" := Bool(false)])
  }

  lemma {:induction false} UnlessIsStrictable(definition: Json)
    requires Strict(definition).Ok?
    ensures ToStrict(Unless(definition)).Ok?
  {
    var f := Unless(definition).fields;
    assert f.Keys == {"definitions", "if", "then"};
    UntouchedIsStrictable(f);
    DocumentIsStrictable(f, definition);
  }

  lemma {:induction false} UnlessBelow(fuel: nat, definition: Json, here: bool, v: Json)
    ensures var s := Unless(definition);
      var below := BelowOthers(CONDITIONAL, fuel, s, Reading(here, here), s);
      && ((TO_DEFINITION, v) in below <==>
            fuel > 0 && Valid(CONDITIONAL, fuel - 1, s, Reading(here, here), definition, v))
      && (Bool(false), v) !in below
  {
    var s := Unless(definition);
    assert "if" !in KEYWORDS && Inside(s.fields["if"], s.fields["if"]);
    assert InOthers(s.fields, TO_DEFINITION);
    DefinitionRead(CONDITIONAL, fuel, definition, s, Reading(here, false), v);
  }

  lemma {:induction false} UnlessReads(fuel: nat, definition: Json, here: bool, v: Json)
    ensures var s := Unless(definition);
      Valid(CONDITIONAL, fuel, s, Reading(here, here), s, v)
      <==> (fuel > 0 ==> !Valid(CONDITIONAL, fuel - 1, s, Reading(here, here), definition, v))
  {
    var s, rd := Unless(definition), Reading(here, here);
    assert s.fields.Keys == {"definitions", "if", "then"};
    UnlessBelow(fuel, definition, here, v);
    UnlessOthers(CONDITIONAL, fuel, s, rd, s.fields, v);
    var others := Others(s.fields);
    assert others["if"] == TO_DEFINITION && others["then"] == Bool(false);
  }

  lemma {:induction false} UnlessOthers(voc: Vocabulary, fuel: nat, root: Json, rd: Reading, f: Fields, v: Json)
    requires f.Keys == {"definitions", "if", "then"}
    ensures Valid(voc, fuel, root, rd, Obj(f), v)
         == voc.others(Others(f), v, BelowOthers(voc, fuel, root, rd, Obj(f)))
  {
    NoMembers(voc, fuel, root, rd, f, v);
    NoVariants(voc, fuel, root, rd, f, v);
    NoNot(voc, fuel, root, rd, f, v);
    NodeIsValid(voc, fuel, root, rd, f, v);
    if voc.others(Others(f), v, BelowOthers(voc, fuel, root, rd, Obj(f))) {
      NamesAndVariants(voc, fuel, root, rd, f, v);
      assert NamesAllowed(voc, rd.here, f, v);
    }
  }

  /** So can a reference below a conditional, which the rewriter does not visit either. */
  lemma ReferenceBelowIfWidens(names: set<string>, required: set<string>, open: bool)
    requires required <= names
    ensures var schema := Unless(ObjectSchema(names, required, open));
      ToStrict(schema).Ok? && (Sound(CONDITIONAL, schema) <==> AlreadyStrict(names, required, open))
  {
    var definition := ObjectSchema(names, required, open);
    ObjectsAreStrictable(names, required, open);
    UnlessIsStrictable(definition);
    forall fuel: nat, here: bool, v
      ensures Valid(CONDITIONAL, fuel, Unless(definition), Reading(here, here), Unless(definition), v)
         <==> (fuel > 0 ==> !Valid(CONDITIONAL, fuel - 1, Unless(definition), Reading(here, here), definition, v))
    {
      UnlessReads(fuel, definition, here, v);
    }
    RefusalSoundExactlyWhenStrict(CONDITIONAL, Unless(definition), names, required, open);
  }
}
