/** The strict-schema rewriter as functions: its result, or the first place where it fails. */
module StrictSchema {
  import opened Json

  /** One move of the rewriter from a node to a node it visits next. */
  datatype Step =
    | Definition(name: string)
    | Variant(combinator: string, index: nat)
    | Items
    | Property(name: string)

  datatype Defect = OpenDictionary | AmbiguousOptionalRef

  /** A rewritten value, or the first defect met and where it was met. */
  datatype Outcome<+T> = Ok(value: T) | Err(defect: Defect, path: seq<Step>) {
    predicate IsFailure() { Err? }
    function PropagateFailure<U>(): Outcome<U> requires Err? { Err(defect, path) }
    function Extract(): T requires Ok? { value }
    function Under(step: Step): Outcome<T> {
      if Ok? then this else Err(defect, [step] + path)
    }
  }

  const COMBINATORS := ["oneOf", "anyOf", "allOf"]

  // Every draft-07 type, so that the list constrains nothing.
  const ANY_TYPE := Arr([Str("string"), Str("number"), Str("object"), Str("array"), Str("boolean"), Str("null")])

  predicate IsOpenDictionary(f: Fields) {
    "additionalProperties" in f && (f["additionalProperties"].Obj? || f["additionalProperties"] == Bool(true))
  }

  predicate HasProperties(f: Fields) {
    "properties" in f && f["properties"].Obj?
  }

  predicate TypeIsObject(f: Fields) {
    "type" in f && f["type"] == Str("object")
  }

  predicate IsRequired(f: Fields, key: string) {
    "required" in f && f["required"].Arr? && Str(key) in f["required"].items
  }

  function RequiredArray(properties: Fields): Json {
    var keys := SortedKeys(properties.Keys);
    Arr(seq(|keys|, i requires 0 <= i < |keys| => Str(keys[i])))
  }

  function Envelope(properties: Fields): Fields {
    map["properties" := Obj(properties),
        "required" := RequiredArray(properties),
        "additionalProperties" := Bool(false)]
  }

  predicate IsNullType(v: Json) {
    v.Obj? && "type" in v.fields && v.fields["type"] == Str("null")
  }

  predicate HasNullBranch(f: Fields) {
    "anyOf" in f && f["anyOf"].Arr? && exists v | v in f["anyOf"].items :: IsNullType(v)
  }

  /** An optional property whose schema does not say whether null is meant. */
  predicate IsAmbiguousRef(f: Fields) {
    "type" !in f && !HasNullBranch(f) && ("$ref" in f || "allOf" in f)
  }

  function Nullable(schema: Json): Outcome<Json> {
    if !schema.Obj? || "type" in schema.fields || HasNullBranch(schema.fields) then Ok(schema)
    else if "$ref" in schema.fields || "allOf" in schema.fields then Err(AmbiguousOptionalRef, [])
    else Ok(Obj(schema.fields["type" := ANY_TYPE]))
  }

  /** The rewritten members that a pass lays over the fields of one node. */
  datatype Parts = Parts(one: Fields, any: Fields, all: Fields, items: Fields, envelope: Fields) {
    ghost predicate Separate() {
      && one.Keys <= {"oneOf"} && any.Keys <= {"anyOf"} && all.Keys <= {"allOf"} && items.Keys <= {"items"}
      && envelope.Keys <= {"properties", "required", "additionalProperties"}
    }
    function Over(f: Fields): Fields { f + one + any + all + items + envelope }
  }

  // ---- what one pass produces ----

  function Strict(node: Json): (r: Outcome<Json>)
    ensures r.Ok? ==> (r.value.Obj? <==> node.Obj?) && (!node.Obj? ==> r.value == node)
    decreases node, 3
  {
    if !node.Obj? then Ok(node)
    else if IsOpenDictionary(node.fields) then Err(OpenDictionary, [])
    else
      var parts :- StrictParts(node);
      Ok(Obj(parts.Over(node.fields)))
  }

  function StrictParts(node: Json): (r: Outcome<Parts>)
    requires node.Obj?
    ensures r.Ok? ==> r.value.Separate()
    decreases node, 2
  {
    var one :- StrictCombinator(node, "oneOf");
    var any :- StrictCombinator(node, "anyOf");
    var all :- StrictCombinator(node, "allOf");
    var items :- StrictItems(node);
    var envelope :- StrictObject(node);
    Ok(Parts(one, any, all, items, envelope))
  }

  function StrictCombinator(node: Json, combinator: string): (r: Outcome<Fields>)
    requires node.Obj?
    ensures r.Ok? ==> r.value.Keys <= {combinator}
    decreases node, 0
  {
    if combinator in node.fields && node.fields[combinator].Arr? then
      var variants :- StrictVariants(node.fields[combinator].items, combinator, 0);
      Ok(map[combinator := Arr(variants)])
    else Ok(map[])
  }

  function StrictVariants(variants: seq<Json>, combinator: string, index: nat): (r: Outcome<seq<Json>>)
    ensures r.Ok? <==> forall i | 0 <= i < |variants| :: Strict(variants[i]).Ok?
    ensures r.Ok? ==> |r.value| == |variants|
    ensures r.Ok? ==> forall i | 0 <= i < |variants| && i < |r.value| :: r.value[i] == Strict(variants[i]).value
    decreases variants, 0
  {
    if variants == [] then Ok([])
    else
      var first :- Strict(variants[0]).Under(Variant(combinator, index));
      var rest :- StrictVariants(variants[1..], combinator, index + 1);
      assert forall i | 0 < i < |variants| :: variants[i] == variants[1..][i - 1];
      Ok([first] + rest)
  }

  function StrictItems(node: Json): (r: Outcome<Fields>)
    requires node.Obj?
    ensures r.Ok? ==> r.value.Keys <= {"items"}
    decreases node, 0
  {
    if "items" in node.fields then
      var items :- Strict(node.fields["items"]).Under(Items);
      Ok(map["items" := items])
    else Ok(map[])
  }

  function StrictObject(node: Json): (r: Outcome<Fields>)
    requires node.Obj?
    ensures r.Ok? ==> r.value.Keys <= {"properties", "required", "additionalProperties"}
    decreases node, 1
  {
    if HasProperties(node.fields) then
      var properties := node.fields["properties"].fields;
      var rewritten :- StrictProperties(node, SortedKeys(properties.Keys));
      Ok(Envelope(rewritten))
    else if TypeIsObject(node.fields) then Ok(Envelope(map[]))
    else Ok(map[])
  }

  function StrictProperties(node: Json, keys: seq<string>): (r: Outcome<Fields>)
    requires node.Obj? && HasProperties(node.fields)
    requires forall k | k in keys :: k in node.fields["properties"].fields
    ensures r.Ok? <==> forall k | k in keys ::
      StrictProperty(node.fields["properties"].fields[k], IsRequired(node.fields, k)).Ok?
    ensures r.Ok? ==> r.value.Keys == (set k | k in keys)
    ensures r.Ok? ==> forall k | k in keys ::
        r.value[k] == StrictProperty(node.fields["properties"].fields[k], IsRequired(node.fields, k)).value
    decreases node, 0, |keys|
  {
    if keys == [] then Ok(map[])
    else
      var k := keys[0];
      var first :- StrictProperty(node.fields["properties"].fields[k], IsRequired(node.fields, k)).Under(Property(k));
      assert keys == [k] + keys[1..];
      var rest :- StrictProperties(node, keys[1..]);
      Ok(rest[k := first])
  }

  function StrictProperty(schema: Json, required: bool): Outcome<Json>
    decreases schema, 4
  {
    var strict :- Strict(schema);
    if required then Ok(strict) else Nullable(strict)
  }

  function StrictDefinitions(definitions: Fields, keys: seq<string>): (r: Outcome<Fields>)
    requires forall k | k in keys :: k in definitions
    ensures r.Ok? <==> forall k | k in keys :: Strict(definitions[k]).Ok?
    ensures r.Ok? ==> r.value.Keys == (set k | k in keys)
    ensures r.Ok? ==> forall k | k in keys :: r.value[k] == Strict(definitions[k]).value
  {
    if keys == [] then Ok(map[])
    else
      var first :- Strict(definitions[keys[0]]).Under(Definition(keys[0]));
      assert keys == [keys[0]] + keys[1..];
      var rest :- StrictDefinitions(definitions, keys[1..]);
      Ok(rest[keys[0] := first])
  }

  predicate HasDefinitions(schema: Json) {
    schema.Obj? && "definitions" in schema.fields && schema.fields["definitions"].Obj?
  }

  /** The definitions first, then the root itself. */
  function ToStrict(schema: Json): Outcome<Json> {
    if HasDefinitions(schema) then
      var definitions := schema.fields["definitions"].fields;
      var rewritten :- StrictDefinitions(definitions, SortedKeys(definitions.Keys));
      Strict(Obj(schema.fields["definitions" := Obj(rewritten)]))
    else Strict(schema)
  }
}
