/** The compiler from field specifications to JSON Schema, and what its output accepts compared with the
    interpreter. */
module SpecCompiler {
  import opened Wrappers
  import opened Json
  import opened FieldSpec
  import opened JsonSchema
  import WallClock

  // ── the compiler ───────────────────────────────────────────────────────

  const STRING := ANY.(kind := Some(TString))

  const NON_EMPTY := STRING.(minLength := Some(1))
  const NODE := ANY.(kind := Some(TObject), closed := true)

  function TagSchema(tag: string): Schema {
    STRING.(domain := Some([tag]))
  }

  const TEXT_NODE := NODE.(properties := map["type" := TagSchema("text"), "text" := NON_EMPTY], required := ["type", "text"])
  const REF_NODE := NODE.(properties := map["type" := TagSchema("entity_ref"), "ref_id" := NON_EMPTY], required := ["type", "ref_id"])
  const PLACEHOLDER := NODE.(properties := map["type" := TagSchema("entity_ref")], required := ["type"])

  function NodeSchemas(policy: BodyPolicy): seq<Schema> {
    match policy
    case TextOnly => [TEXT_NODE]
    case TextOrExistingRef => [TEXT_NODE, REF_NODE]
    case TextOrNewRef => [TEXT_NODE, PLACEHOLDER]
  }

  /** `body_schema`: the tagged union of the nodes a policy admits. */
  function BodySchema(policy: BodyPolicy): Schema {
    ANY.(kind := Some(TArray), minItems := Some(1), items := Some(ANY.(oneOf := OneOf(NodeSchemas(policy)))))
  }

  function SpecSchema(spec: Spec): Schema
    decreases spec
  {
    match spec
    case Never => ANY.(never := true)
    case StrSpec(nonEmpty) => if nonEmpty then NON_EMPTY else STRING
    case PositiveInt => ANY.(kind := Some(TInteger), minimum := Some(1.0))
    case NumberSpec(min) => ANY.(kind := Some(TNumber), minimum := min)
    case LocalDateTime => STRING.(pattern := Some(DateTimePattern))
    case Uuid(schemaRegex) =>
      if schemaRegex then STRING.(minLength := Some(36), maxLength := Some(36), pattern := Some(UuidPattern)) else STRING
    case EnumStr(domain) => STRING.(domain := Some(domain))
    case ArrayOf(element, plainItems, minItems) =>
      ANY.(kind := Some(TArray), items := Some(if plainItems then STRING else SpecSchema(element)), minItems := minItems)
    case Object(payload) => PayloadSchema(payload)
    case JsonObject => ANY.(kind := Some(TObject))
    case OneOfObject(variants) => ANY.(oneOf := OneOf(Schemas(variants)))
    case Body(policy) => BodySchema(policy)
    case OneOfArray(variants, minItems) =>
      ANY.(kind := Some(TArray), minItems := minItems, items := Some(ANY.(oneOf := OneOf(Schemas(variants)))))
  }

  function Schemas(variants: seq<Payload>): (schemas: seq<Schema>)
    ensures |schemas| == |variants|
    ensures forall i :: 0 <= i < |variants| ==> schemas[i] == PayloadSchema(variants[i])
    decreases variants
  {
    if variants == [] then [] else Schemas(variants[..|variants| - 1]) + [PayloadSchema(variants[|variants| - 1])]
  }

  /** A later field of the same name replaces an earlier one. */
  function Properties(fields: seq<Field>): map<string, Schema>
    decreases fields
  {
    if fields == [] then map[]
    else
      var last := fields[|fields| - 1];
      Properties(fields[..|fields| - 1])[last.name := SpecSchema(last.spec)]
  }

  function Required(fields: seq<Field>): seq<string> {
    if fields == [] then []
    else
      var last := fields[|fields| - 1];
      Required(fields[..|fields| - 1]) + if last.required then [last.name] else []
  }

  function PayloadSchema(p: Payload): Schema
    decreases p
  {
    ANY.(kind := Some(TObject), properties := Properties(p.fields), required := Required(p.fields), closed := true)
  }

  /** `json_schema`: one pass that fills the property map and the required list. */
  method CompilePayload(p: Payload) returns (schema: Schema)
    ensures schema == PayloadSchema(p)
    decreases p
  {
    var properties: map<string, Schema> := map[];
    var required: seq<string> := [];
    var i := 0;
    while i < |p.fields|
      invariant 0 <= i <= |p.fields|
      invariant properties == Properties(p.fields[..i]) && required == Required(p.fields[..i])
    {
      var field := p.fields[i];
      assert p.fields[..i + 1][..i] == p.fields[..i];
      var fragment := CompileSpec(field.spec);
      properties := properties[field.name := fragment];
      if field.required {
        required := required + [field.name];
      }
      i := i + 1;
    }
    assert p.fields[..i] == p.fields;
    schema := ANY.(kind := Some(TObject), properties := properties, required := required, closed := true);
  }

  method CompileVariants(variants: seq<Payload>) returns (schemas: seq<Schema>)
    ensures schemas == Schemas(variants)
    decreases variants
  {
    schemas := [];
    var i := 0;
    while i < |variants|
      invariant 0 <= i <= |variants|
      invariant schemas == Schemas(variants[..i])
    {
      assert variants[..i + 1][..i] == variants[..i];
      var schema := CompilePayload(variants[i]);
      schemas := schemas + [schema];
      i := i + 1;
    }
    assert variants[..i] == variants;
  }

  method CompileSpec(spec: Spec) returns (schema: Schema)
    ensures schema == SpecSchema(spec)
    decreases spec
  {
    match spec {
      case ArrayOf(element, plainItems, minItems) =>
        var item := STRING;
        if !plainItems {
          item := CompileSpec(element);
        }
        schema := ANY.(kind := Some(TArray), items := Some(item), minItems := minItems);
      case Object(payload) => schema := CompilePayload(payload);
      case OneOfObject(variants) =>
        var branches := CompileVariants(variants);
        schema := ANY.(oneOf := OneOf(branches));
      case OneOfArray(variants, minItems) =>
        var branches := CompileVariants(variants);
        schema := ANY.(kind := Some(TArray), minItems := minItems, items := Some(ANY.(oneOf := OneOf(branches))));
      case _ => schema := SpecSchema(spec);
    }
  }

  /** What the fragment of each shape without parts accepts: text need only have a character. */
  lemma {:induction false} LeavesValidate(spec: Spec, v: Value)
    ensures match spec
            case Never => !Validates(SpecSchema(spec), v)
            case StrSpec(nonEmpty) => Validates(SpecSchema(spec), v) <==> v.Str? && (nonEmpty ==> |v.s| >= 1)
            case LocalDateTime => Validates(SpecSchema(spec), v) <==> v.Str? && MatchesDateTime(v.s)
            case Uuid(schemaRegex) => Validates(SpecSchema(spec), v) <==> v.Str? && (schemaRegex ==> IsHyphenated(v.s))
            case EnumStr(domain) => Validates(SpecSchema(spec), v) <==> v.Str? && v.s in domain
            case JsonObject => Validates(SpecSchema(spec), v) <==> v.Obj?
            case _ => true
  {
  }

  /** A date need only have its digits and separators. */
  lemma DatesValidate(s: string)
    ensures Validates(SpecSchema(LocalDateTime), Str(s))
            <==> && |s| == 19 && s[4] == '-' && s[7] == '-' && s[10] == 'T' && s[13] == ':' && s[16] == ':'
                 && forall i :: 0 <= i < 19 && i !in {4, 7, 10, 13, 16} ==> '0' <= s[i] <= '9'
  {
    LeavesValidate(LocalDateTime, Str(s));
    assert forall i :: 0 <= i < |s| ==> (IsDigitAt(s, i) <==> '0' <= s[i] <= '9');
    hide Validates, SpecSchema;
  }

  /** A positive integer may be written with a fraction of zero, and a bound holds of a number however it is written. */
  lemma {:induction false} NumbersValidate(n: Number, min: Option<real>)
    ensures Validates(SpecSchema(PositiveInt), Num(n))
            <==> match n
                 case PosInt(k) => k >= 1
                 case NegInt(k) => k >= 1
                 case Float(x) => x == x.Floor as real && x >= 1.0
    ensures Validates(SpecSchema(NumberSpec(min)), Num(n))
            <==> min.Some? ==> match n
                               case PosInt(k) => k as real >= min.value
                               case NegInt(k) => k as real >= min.value
                               case Float(x) => x >= min.value
  {
  }

  lemma {:induction false} NumbersOnly(v: Value, min: Option<real>)
    ensures Validates(SpecSchema(PositiveInt), v) || Validates(SpecSchema(NumberSpec(min)), v) ==> v.Num?
  {
  }

  /** An array's fragment asks its length and its items; one that advertises plain items asks of them only to be text. */
  lemma {:induction false} ArraysValidate(element: Spec, plainItems: bool, minItems: Option<nat>, v: Value)
    ensures Validates(SpecSchema(ArrayOf(element, plainItems, minItems)), v)
            <==> && v.Arr? && (minItems.Some? ==> |v.items| >= minItems.value)
                 && forall i :: 0 <= i < |v.items| ==> if plainItems then v.items[i].Str? else Validates(SpecSchema(element), v.items[i])
  {
  }

  // ── well-formed specifications ─────────────────────────────────────────

  predicate Disjoint(a: seq<string>, b: seq<string>) {
    forall x :: x in a ==> x !in b
  }

  /** Two variants that no value can satisfy at once: a discriminant both require, with disjoint domains, or
      a key one requires and the other rules out. */
  ghost predicate Apart(p: Payload, q: Payload) {
    || (exists i, j :: Tagged(p, i) && Tagged(q, j) && p.fields[i].name == q.fields[j].name
                       && Disjoint(p.fields[i].spec.domain, q.fields[j].spec.domain))
    || RequiresForbidden(p, q)
    || RequiresForbidden(q, p)
  }

  ghost predicate Tagged(p: Payload, i: int) {
    0 <= i < |p.fields| && p.fields[i].required && p.fields[i].spec.EnumStr?
  }

  ghost predicate RequiresForbidden(p: Payload, q: Payload) {
    exists i :: Demands(p, i) && Forbids(q, p.fields[i].name)
  }

  ghost predicate Demands(p: Payload, i: int) {
    0 <= i < |p.fields| && p.fields[i].required
  }

  ghost predicate Forbids(q: Payload, name: string) {
    !Declares(q, name) || exists j :: 0 <= j < |q.fields| && q.fields[j].name == name && q.fields[j].spec.Never?
  }

  predicate DistinctNames(fields: seq<Field>) {
    forall i, j :: 0 <= i < j < |fields| ==> fields[i].name != fields[j].name
  }

  ghost predicate WellFormed(spec: Spec)
    decreases spec
  {
    match spec
    case ArrayOf(element, plainItems, _) => WellFormed(element) && (plainItems ==> element.StrSpec?)
    case Object(payload) => WellFormedPayload(payload)
    case OneOfObject(variants) => WellFormedVariants(variants)
    case OneOfArray(variants, _) => WellFormedVariants(variants)
    case Body(_) => false
    case _ => true
  }

  ghost predicate WellFormedVariants(variants: seq<Payload>)
    decreases variants
  {
    && (forall i :: 0 <= i < |variants| ==> WellFormedPayload(variants[i]))
    && forall i, j :: 0 <= i < j < |variants| ==> Apart(variants[i], variants[j])
  }

  ghost predicate WellFormedPayload(p: Payload)
    decreases p
  {
    DistinctNames(p.fields) && forall i :: 0 <= i < |p.fields| ==> WellFormed(p.fields[i].spec)
  }

  // ── what a schema cannot say ───────────────────────────────────────────

  /** The interpreter's rules that the emitted schema leaves out, along the value: non-blank text, a real
      date, a parsed UUID where no pattern is advertised, a positive integer written as an integer, and the
      elements of plainly advertised arrays. */
  ghost predicate Beyond(spec: Spec, v: Value)
    decreases spec
  {
    match spec
    case StrSpec(nonEmpty) => v.Str? && nonEmpty ==> !IsBlank(v.s)
    case PositiveInt => v.Num? ==> v.num.PosInt?
    case LocalDateTime => v.Str? ==> WallClock.Parse(v.s).Some?
    case Uuid(schemaRegex) => v.Str? && !schemaRegex ==> IsUuid(v.s)
    case ArrayOf(element, _, _) => v.Arr? ==> forall i :: 0 <= i < |v.items| ==> Beyond(element, v.items[i])
    case Object(payload) => BeyondPayload(payload, v)
    case OneOfObject(variants) => BeyondOneOf(variants, v)
    case OneOfArray(variants, _) => v.Arr? ==> forall i :: 0 <= i < |v.items| ==> BeyondOneOf(variants, v.items[i])
    case _ => true
  }

  ghost predicate BeyondOneOf(variants: seq<Payload>, v: Value)
    decreases variants
  {
    forall i :: 0 <= i < |variants| && Validates(PayloadSchema(variants[i]), v) ==> BeyondPayload(variants[i], v)
  }

  ghost predicate BeyondPayload(p: Payload, v: Value)
    decreases p
  {
    v.Obj? ==> forall i :: 0 <= i < |p.fields| && p.fields[i].name in v.fields ==> Beyond(p.fields[i].spec, v.fields[p.fields[i].name])
  }

  // ── what the interpreter takes beyond the schema ───────────────────────

  /** Neither of the two forms the interpreter takes and no emitted schema does, along the value: a null at a
      declared field, and a UUID written in another form where the 36-character pattern is advertised. */
  ghost predicate Sayable(spec: Spec, v: Value)
    decreases spec
  {
    match spec
    case Uuid(schemaRegex) => v.Str? && schemaRegex ==> IsHyphenated(v.s)
    case ArrayOf(element, _, _) => v.Arr? ==> forall i :: 0 <= i < |v.items| ==> Sayable(element, v.items[i])
    case Object(payload) => SayablePayload(payload, v)
    case OneOfObject(variants) => SayableOneOf(variants, v)
    case OneOfArray(variants, _) => v.Arr? ==> forall i :: 0 <= i < |v.items| ==> SayableOneOf(variants, v.items[i])
    case _ => true
  }

  /** Some variant that accepts the value does so without either form. */
  ghost predicate SayableOneOf(variants: seq<Payload>, v: Value)
    decreases variants
  {
    exists i :: 0 <= i < |variants| && Accepts(variants[i], v) && SayablePayload(variants[i], v)
  }

  ghost predicate SayablePayload(p: Payload, v: Value)
    decreases p
  {
    v.Obj? ==> forall i :: 0 <= i < |p.fields| && p.fields[i].name in v.fields ==>
      v.fields[p.fields[i].name] != Null && Sayable(p.fields[i].spec, v.fields[p.fields[i].name])
  }

  // ── properties and required names ──────────────────────────────────────

  predicate NamesIt(fields: seq<Field>, i: int, name: string) {
    0 <= i < |fields| && fields[i].name == name
  }

  lemma {:induction false} PropertiesAre(fields: seq<Field>)
    requires DistinctNames(fields)
    ensures forall i :: 0 <= i < |fields| ==> fields[i].name in Properties(fields) && Properties(fields)[fields[i].name] == SpecSchema(fields[i].spec)
    ensures forall k :: k in Properties(fields) ==> exists i :: NamesIt(fields, i, k)
  {
    if fields != [] {
      var n := |fields| - 1;
      PropertiesAre(fields[..n]);
      forall i | 0 <= i < |fields|
        ensures fields[i].name in Properties(fields) && Properties(fields)[fields[i].name] == SpecSchema(fields[i].spec)
      {
        if i < n { assert fields[..n][i] == fields[i]; }
      }
      forall k | k in Properties(fields) ensures exists i :: NamesIt(fields, i, k) {
        if k == fields[n].name {
          assert NamesIt(fields, n, k);
        } else {
          var i :| NamesIt(fields[..n], i, k);
          assert NamesIt(fields, i, k);
        }
      }
    }
  }

  lemma {:induction false} RequiredAre(fields: seq<Field>)
    ensures forall i :: 0 <= i < |fields| && fields[i].required ==> fields[i].name in Required(fields)
    ensures forall k :: k in Required(fields) ==> exists i :: NamesIt(fields, i, k) && fields[i].required
  {
    if fields != [] {
      var n := |fields| - 1;
      RequiredAre(fields[..n]);
      forall i | 0 <= i < |fields| && fields[i].required ensures fields[i].name in Required(fields) {
        if i < n { assert fields[..n][i] == fields[i]; }
      }
      forall k | k in Required(fields) ensures exists i :: NamesIt(fields, i, k) && fields[i].required {
        if k in Required(fields[..n]) {
          var i :| NamesIt(fields[..n], i, k) && fields[..n][i].required;
          assert NamesIt(fields, i, k) && fields[i].required;
        } else {
          assert NamesIt(fields, n, k) && fields[n].required;
        }
      }
    }
  }

  /** A payload's schema, field by field. */
  ghost predicate ValidFields(p: Payload, v: Value) {
    && v.Obj?
    && (forall k :: k in v.fields ==> Declares(p, k))
    && forall i :: 0 <= i < |p.fields| ==>
         if p.fields[i].name in v.fields then Validates(SpecSchema(p.fields[i].spec), v.fields[p.fields[i].name]) else !p.fields[i].required
  }

  /** What the keywords of a closed object schema say together. */
  lemma {:induction false} ObjectValidates(properties: map<string, Schema>, required: seq<string>, v: Value)
    ensures Validates(ANY.(kind := Some(TObject), properties := properties, required := required, closed := true), v)
            <==> && v.Obj?
                 && (forall i :: 0 <= i < |required| ==> required[i] in v.fields)
                 && (forall k :: k in v.fields ==> k in properties)
                 && forall k :: k in properties && k in v.fields ==> Validates(properties[k], v.fields[k])
  {
  }

  lemma {:induction false} ValidMeansFields(p: Payload, v: Value)
    requires DistinctNames(p.fields) && Validates(PayloadSchema(p), v)
    ensures ValidFields(p, v)
  {
    PropertiesAre(p.fields);
    RequiredAre(p.fields);
    ObjectValidates(Properties(p.fields), Required(p.fields), v);
    hide Properties, Required, Validates, SpecSchema, DistinctNames;
    forall k | k in v.fields ensures Declares(p, k) {
      var i :| NamesIt(p.fields, i, k);
    }
    forall i | 0 <= i < |p.fields|
      ensures if p.fields[i].name in v.fields then Validates(SpecSchema(p.fields[i].spec), v.fields[p.fields[i].name]) else !p.fields[i].required
    {
      assert p.fields[i].name in Properties(p.fields);
      if p.fields[i].required { assert p.fields[i].name in Required(p.fields); }
    }
  }

  lemma {:induction false} FieldsMeanValid(p: Payload, v: Value)
    requires DistinctNames(p.fields) && ValidFields(p, v)
    ensures Validates(PayloadSchema(p), v)
  {
    PropertiesAre(p.fields);
    RequiredAre(p.fields);
    ObjectValidates(Properties(p.fields), Required(p.fields), v);
    hide Properties, Required, Validates, SpecSchema, DistinctNames;
    var required := Required(p.fields);
    forall r | 0 <= r < |required| ensures required[r] in v.fields {
      assert required[r] in Required(p.fields);
    }
    forall k | k in Properties(p.fields) && k in v.fields ensures Validates(Properties(p.fields)[k], v.fields[k]) {
      var i :| NamesIt(p.fields, i, k);
    }
  }

  lemma {:induction false} ValidatesByField(p: Payload, v: Value)
    requires DistinctNames(p.fields)
    ensures Validates(PayloadSchema(p), v) <==> ValidFields(p, v)
  {
    if Validates(PayloadSchema(p), v) { ValidMeansFields(p, v); }
    if ValidFields(p, v) { FieldsMeanValid(p, v); }
  }
}
