/** The JSON Schema keywords the compiler emits, with the meaning section 6 of the Draft-07 JSON Schema
    Validation specification gives them. A keyword speaks only about values of its own type. */
module JsonSchema {
  import opened Wrappers
  import opened Json
  import FieldSpec

  datatype SchemaType = TString | TInteger | TNumber | TArray | TObject

  datatype Pattern = DateTimePattern | UuidPattern

  datatype Branches = NoBranches | OneOf(schemas: seq<Schema>)

  /** One schema object. An absent keyword is None, and `closed` is `additionalProperties: false`. */
  datatype Schema = Schema(
    kind: Option<SchemaType>,
    properties: map<string, Schema>,
    required: seq<string>,
    closed: bool,
    items: Option<Schema>,
    minItems: Option<nat>,
    minLength: Option<nat>,
    maxLength: Option<nat>,
    pattern: Option<Pattern>,
    domain: Option<seq<string>>,
    minimum: Option<real>,
    oneOf: Branches,
    never: bool)

  const ANY := Schema(None, map[], [], false, None, None, None, None, None, None, None, NoBranches, false)

  predicate IsDigitAt(s: string, i: nat) {
    i < |s| && '0' <= s[i] <= '9'
  }

  /** `^\d{4}-\d{2}-\d{2}T\d{2}:\d{2}:\d{2}$` */
  predicate MatchesDateTime(s: string) {
    && |s| == 19 && s[4] == '-' && s[7] == '-' && s[10] == 'T' && s[13] == ':' && s[16] == ':'
    && forall i :: 0 <= i < 19 && i !in {4, 7, 10, 13, 16} ==> IsDigitAt(s, i)
  }

  predicate Matches(pattern: Pattern, s: string) {
    match pattern
    case DateTimePattern => MatchesDateTime(s)
    case UuidPattern => FieldSpec.IsHyphenated(s)
  }

  /** An integer is any number without a fractional part, however it is written. */
  predicate IsIntegral(n: Number) {
    n.Float? ==> n.r == n.r.Floor as real
  }

  predicate HasType(kind: SchemaType, v: Value) {
    match kind
    case TString => v.Str?
    case TInteger => v.Num? && IsIntegral(v.num)
    case TNumber => v.Num?
    case TArray => v.Arr?
    case TObject => v.Obj?
  }

  predicate StringKeywords(schema: Schema, s: string) {
    && (schema.minLength.Some? ==> |s| >= schema.minLength.value)
    && (schema.maxLength.Some? ==> |s| <= schema.maxLength.value)
    && (schema.pattern.Some? ==> Matches(schema.pattern.value, s))
  }

  predicate Leaf(schema: Schema, v: Value) {
    && !schema.never
    && (schema.kind.Some? ==> HasType(schema.kind.value, v))
    && (v.Str? ==> StringKeywords(schema, v.s))
    && (schema.domain.Some? ==> v.Str? && v.s in schema.domain.value)
    && (v.Num? && schema.minimum.Some? ==> FieldSpec.AsReal(v.num) >= schema.minimum.value)
    && (v.Arr? && schema.minItems.Some? ==> |v.items| >= schema.minItems.value)
    && (v.Obj? ==> forall i :: 0 <= i < |schema.required| ==> schema.required[i] in v.fields)
    && (v.Obj? && schema.closed ==> forall k :: k in v.fields ==> k in schema.properties)
  }

  /** Exactly one branch holds. */
  ghost predicate ExactlyOne(branches: seq<Schema>, v: Value)
    decreases branches
  {
    exists i :: 0 <= i < |branches| && Validates(branches[i], v)
                && forall j :: 0 <= j < |branches| && Validates(branches[j], v) ==> j == i
  }

  ghost predicate Validates(schema: Schema, v: Value)
    decreases schema
  {
    && Leaf(schema, v)
    && (v.Obj? ==> forall k :: k in schema.properties && k in v.fields ==> Validates(schema.properties[k], v.fields[k]))
    && (v.Arr? && schema.items.Some? ==> forall i :: 0 <= i < |v.items| ==> Validates(schema.items.value, v.items[i]))
    && (schema.oneOf.OneOf? ==> ExactlyOne(schema.oneOf.schemas, v))
  }

  /** Two branches that both hold fail a `oneOf`. */
  lemma {:induction false} OneOfIsExclusive(a: Schema, b: Schema, v: Value)
    ensures Validates(ANY.(oneOf := OneOf([a, b])), v) <==> (Validates(a, v) <==> !Validates(b, v))
  {
    var both := [a, b];
    assert both[0] == a && both[1] == b;
    hide Validates;
    ExactlyOneOfTwo(both, v);
    assert Leaf(ANY, v);
    OneOfAlone(both, v);
  }

  lemma {:induction false} OneOfAlone(branches: seq<Schema>, v: Value)
    ensures Validates(ANY.(oneOf := OneOf(branches)), v) <==> ExactlyOne(branches, v)
  {
  }

  lemma {:induction false} ExactlyOneOfTwo(both: seq<Schema>, v: Value)
    requires |both| == 2
    ensures ExactlyOne(both, v) <==> (Validates(both[0], v) <==> !Validates(both[1], v))
  {
    hide Validates;
    if Validates(both[0], v) {
      if Validates(both[1], v) {
        assert forall i :: 0 <= i < |both| ==> Validates(both[i], v);
      } else {
        assert forall j :: 0 <= j < |both| && Validates(both[j], v) ==> j == 0;
      }
    } else if Validates(both[1], v) {
      assert forall j :: 0 <= j < |both| && Validates(both[j], v) ==> j == 1;
    }
  }

  /** The length keywords bound a text from both sides. */
  lemma {:induction false} LengthsBound(s: string, least: nat, most: nat)
    ensures Validates(ANY.(minLength := Some(least), maxLength := Some(most)), Str(s)) <==> least <= |s| <= most
  {
  }
}
