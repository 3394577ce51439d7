/** Compiler and interpreter agree: exactly which values either of the two takes and the other does not. */
module SpecAgreement {
  import opened Wrappers
  import opened Json
  import opened FieldSpec
  import opened JsonSchema
  import opened SpecCompiler
  import WallClock

  // ── variants ───────────────────────────────────────────────────────────

  /** A key one variant demands and the other forbids. */
  lemma ForbiddenFails(p: Payload, q: Payload, v: Value)
    requires RequiresForbidden(p, q) && ValidFields(p, v)
    ensures !ValidFields(q, v)
  {
  }

  /** A discriminant both demand, with no value in common. */
  lemma TagsDiffer(p: Payload, q: Payload, v: Value, i: int, j: int)
    requires Tagged(p, i) && Tagged(q, j) && p.fields[i].name == q.fields[j].name
    requires Disjoint(p.fields[i].spec.domain, q.fields[j].spec.domain) && ValidFields(p, v)
    ensures !ValidFields(q, v)
  {
  }

  /** Variants set apart by discriminants or forbidden keys have schemas no value satisfies twice. */
  lemma {:induction false} ApartNeverBoth(p: Payload, q: Payload, v: Value)
    requires DistinctNames(p.fields) && DistinctNames(q.fields) && Apart(p, q)
    ensures !(Validates(PayloadSchema(p), v) && Validates(PayloadSchema(q), v))
  {
    ValidatesByField(p, v);
    ValidatesByField(q, v);
    hide Validates, PayloadSchema;
    if ValidFields(p, v) {
      if RequiresForbidden(p, q) {
        ForbiddenFails(p, q, v);
      } else if RequiresForbidden(q, p) {
        if ValidFields(q, v) { ForbiddenFails(q, p, v); }
      } else {
        var i, j :| Tagged(p, i) && Tagged(q, j) && p.fields[i].name == q.fields[j].name
                    && Disjoint(p.fields[i].spec.domain, q.fields[j].spec.domain);
        TagsDiffer(p, q, v, i, j);
      }
    }
  }

  /** No emitted schema takes a null. */
  lemma {:induction false} NullNever(spec: Spec)
    requires WellFormed(spec)
    ensures !Validates(SpecSchema(spec), Null)
  {
    if spec.OneOfObject? {
      forall i | 0 <= i < |spec.variants| ensures !Validates(Schemas(spec.variants)[i], Null) {
        assert Schemas(spec.variants)[i] == PayloadSchema(spec.variants[i]);
      }
    }
  }

  lemma {:induction false} EnumValue(domain: seq<string>, v: Value)
    ensures Validates(SpecSchema(EnumStr(domain)), v) ==> v.Str? && v.s in domain
  {
  }

  lemma {:induction false} TagsDifferLoose(p: Payload, q: Payload, v: Value, i: int, j: int)
    requires Tagged(p, i) && Tagged(q, j) && p.fields[i].name == q.fields[j].name
    requires Disjoint(p.fields[i].spec.domain, q.fields[j].spec.domain) && ValidFields(p, v)
    ensures !Accepts(q, v)
  {
    var name := p.fields[i].name;
    if v.Obj? && name in v.fields {
      EnumValue(p.fields[i].spec.domain, v.fields[name]);
      assert p.fields[i].spec == EnumStr(p.fields[i].spec.domain);
      assert !AcceptsField(q.fields[j], v.fields[name]);
    }
    hide SpecSchema, Validates;
  }

  lemma {:induction false} ForbiddenNotAccepted(p: Payload, q: Payload, v: Value)
    requires WellFormedPayload(p) && RequiresForbidden(p, q) && ValidFields(p, v)
    ensures !Accepts(q, v)
  {
    var i :| Demands(p, i) && Forbids(q, p.fields[i].name);
    var name := p.fields[i].name;
    hide SpecSchema, Validates;
    NullNever(p.fields[i].spec);
    if Declares(q, name) {
      var j :| 0 <= j < |q.fields| && q.fields[j].name == name && q.fields[j].spec.Never?;
      assert !AcceptsField(q.fields[j], v.fields[name]);
    }
    hide AcceptsSpec, WellFormed;
  }

  lemma {:induction false} AcceptedNotForbidden(p: Payload, q: Payload, v: Value)
    requires RequiresForbidden(q, p) && ValidFields(p, v)
    ensures !Accepts(q, v)
  {
  }

  /** Nor does the interpreter's leniency let a value of one variant pass for one of another. */
  lemma {:induction false} ApartLoose(p: Payload, q: Payload, v: Value)
    requires WellFormedPayload(p) && Apart(p, q)
    ensures !(Validates(PayloadSchema(p), v) && Accepts(q, v))
  {
    ValidatesByField(p, v);
    hide Validates, PayloadSchema, Accepts, WellFormedPayload;
    if ValidFields(p, v) {
      if RequiresForbidden(p, q) {
        ForbiddenNotAccepted(p, q, v);
      } else if RequiresForbidden(q, p) {
        AcceptedNotForbidden(p, q, v);
      } else {
        var i, j :| Tagged(p, i) && Tagged(q, j) && p.fields[i].name == q.fields[j].name
                    && Disjoint(p.fields[i].spec.domain, q.fields[j].spec.domain);
        TagsDifferLoose(p, q, v, i, j);
      }
    }
  }

  // ── exact agreement ────────────────────────────────────────────────────

  /** How two readers agree on a value: of what the interpreter accepts the schema accepts exactly the sayable,
      and of what the schema accepts the interpreter accepts exactly what meets the rules beyond it. */
  predicate Agree(accepts: bool, validates: bool, sayable: bool, beyond: bool) {
    (accepts ==> (validates <==> sayable)) && (validates ==> (accepts <==> beyond))
  }

  ghost predicate SpecAgrees(spec: Spec, v: Value) {
    Agree(AcceptsSpec(spec, v), Validates(SpecSchema(spec), v), Sayable(spec, v), Beyond(spec, v))
  }

  ghost predicate FieldAgrees(f: Field, v: Value) {
    Agree(AcceptsField(f, v), Validates(SpecSchema(f.spec), v), v != Null && Sayable(f.spec, v), Beyond(f.spec, v))
  }

  ghost predicate OneOfAgrees(variants: seq<Payload>, v: Value) {
    Agree(AcceptsOneOf(variants, v), Validates(ANY.(oneOf := OneOf(Schemas(variants))), v), SayableOneOf(variants, v), BeyondOneOf(variants, v))
  }

  ghost predicate PayloadAgrees(p: Payload, v: Value) {
    Agree(Accepts(p, v), Validates(PayloadSchema(p), v), SayablePayload(p, v), BeyondPayload(p, v))
  }

  /** The leaves of the vocabulary. */
  predicate IsLeaf(spec: Spec) {
    !spec.ArrayOf? && !spec.Object? && !spec.OneOfObject? && !spec.OneOfArray? && !spec.Body?
  }

  lemma ParsedMatchesPattern(s: string)
    requires WallClock.Parse(s).Some?
    ensures MatchesDateTime(s)
  {
  }

  lemma TextLeafExact(spec: Spec, v: Value)
    requires spec.StrSpec? || spec.LocalDateTime? || spec.Uuid? || spec.EnumStr?
    ensures SpecAgrees(spec, v)
  {
    if spec.LocalDateTime? && v.Str? && WallClock.Parse(v.s).Some? { ParsedMatchesPattern(v.s); }
    hide WallClock.Parse, IsHyphenated;
    if spec.StrSpec? && v.Str? && v.s == "" { assert IsBlank(v.s); }
  }

  lemma LeafExact(spec: Spec, v: Value)
    requires IsLeaf(spec)
    ensures SpecAgrees(spec, v)
  {
    if spec.StrSpec? || spec.LocalDateTime? || spec.Uuid? || spec.EnumStr? { TextLeafExact(spec, v); }
  }

  /** A plain string item is all the schema asks of the element; the interpreter asks the rest. */
  ghost predicate ItemAgrees(spec: Spec, v: Value)
    requires spec.ArrayOf? || spec.OneOfArray?
  {
    if spec.OneOfArray? then OneOfAgrees(spec.variants, v)
    else Agree(AcceptsSpec(spec.element, v), Validates(if spec.plainItems then STRING else SpecSchema(spec.element), v),
               Sayable(spec.element, v), Beyond(spec.element, v))
  }

  /** Arrays agree when their elements do. */
  lemma ArrayExact(spec: Spec, v: Value)
    requires spec.ArrayOf? || spec.OneOfArray?
    requires v.Arr? ==> forall i :: 0 <= i < |v.items| ==> ItemAgrees(spec, v.items[i])
    ensures SpecAgrees(spec, v)
  {
  }

  lemma {:induction false} PlainItemExact(element: Spec, v: Value)
    requires element.StrSpec?
    ensures Agree(AcceptsSpec(element, v), Validates(STRING, v), Sayable(element, v), Beyond(element, v))
  {
  }

  lemma {:induction false} SpecExact(spec: Spec, v: Value)
    requires WellFormed(spec)
    ensures SpecAgrees(spec, v)
    decreases spec, 1
  {
    match spec {
      case ArrayOf(_, _, _) => ElementsExact(spec, v); ArrayExact(spec, v);
      case Object(payload) => PayloadExact(payload, v);
      case OneOfObject(variants) => OneOfExact(variants, v);
      case OneOfArray(_, _) => ElementsExact(spec, v); ArrayExact(spec, v);
      case _ => LeafExact(spec, v);
    }
  }

  lemma {:induction false} ElementsExact(spec: Spec, v: Value)
    requires WellFormed(spec) && (spec.ArrayOf? || spec.OneOfArray?)
    ensures v.Arr? ==> forall i :: 0 <= i < |v.items| ==> ItemAgrees(spec, v.items[i])
    decreases spec, 0
  {
    if v.Arr? {
      forall i | 0 <= i < |v.items| ensures ItemAgrees(spec, v.items[i]) {
        if spec.OneOfArray? { OneOfExact(spec.variants, v.items[i]); }
        else if spec.plainItems { PlainItemExact(spec.element, v.items[i]); }
        else { SpecExact(spec.element, v.items[i]); }
      }
    }
  }

  lemma {:induction false} NeverTwo(variants: seq<Payload>, v: Value, i: nat, j: nat)
    requires WellFormedVariants(variants) && i < |variants| && j < |variants| && i != j
    ensures !(Validates(PayloadSchema(variants[i]), v) && Validates(PayloadSchema(variants[j]), v))
    ensures !(Validates(PayloadSchema(variants[i]), v) && Accepts(variants[j], v))
  {
    hide Validates, PayloadSchema, Accepts;
    if i < j {
      ApartNeverBoth(variants[i], variants[j], v);
    } else {
      ApartNeverBoth(variants[j], variants[i], v);
      assert Apart(variants[j], variants[i]);
    }
    ApartLoose(variants[i], variants[j], v);
  }

  lemma {:induction false} OneOfExact(variants: seq<Payload>, v: Value)
    requires WellFormedVariants(variants)
    ensures OneOfAgrees(variants, v)
    decreases variants
  {
    hide PayloadSchema, BeyondPayload, SayablePayload, Accepts, WellFormedPayload, Apart;
    var schemas := Schemas(variants);
    forall i | 0 <= i < |variants| ensures PayloadAgrees(variants[i], v) {
      PayloadExact(variants[i], v);
    }
    hide Schemas, WellFormedVariants, PayloadAgrees;
    forall i, j | 0 <= i < |variants| && 0 <= j < |variants| && i != j
      ensures !(Validates(schemas[i], v) && Validates(schemas[j], v)) && !(Validates(schemas[i], v) && Accepts(variants[j], v))
    {
      NeverTwo(variants, v, i, j);
    }
    OneOfFromVariants(variants, schemas, v);
  }

  /** Branch by branch in agreement, and never two at once: then so are the unions. */
  lemma {:induction false} OneOfFromVariants(variants: seq<Payload>, schemas: seq<Schema>, v: Value)
    requires schemas == Schemas(variants)
    requires forall i :: 0 <= i < |variants| ==> PayloadAgrees(variants[i], v)
    requires forall i, j :: 0 <= i < |variants| && 0 <= j < |variants| && i != j ==>
               !(Validates(schemas[i], v) && Validates(schemas[j], v)) && !(Validates(schemas[i], v) && Accepts(variants[j], v))
    ensures Agree(AcceptsOneOf(variants, v), ExactlyOne(schemas, v), SayableOneOf(variants, v), BeyondOneOf(variants, v))
  {
  }

  /** For every value: of the payloads `check` accepts, the emitted schema accepts exactly the sayable; of those
      the schema accepts, `check` accepts exactly the ones that meet the rules a schema cannot say. */
  lemma {:induction false} PayloadExact(p: Payload, v: Value)
    requires WellFormedPayload(p)
    ensures Accepts(p, v) ==> (Validates(PayloadSchema(p), v) <==> SayablePayload(p, v))
    ensures Validates(PayloadSchema(p), v) ==> (Accepts(p, v) <==> BeyondPayload(p, v))
    decreases p
  {
    ValidatesByField(p, v);
    if v.Obj? {
      forall i | 0 <= i < |p.fields| && p.fields[i].name in v.fields
        ensures FieldAgrees(p.fields[i], v.fields[p.fields[i].name])
      {
        SpecExact(p.fields[i].spec, v.fields[p.fields[i].name]);
        NullNever(p.fields[i].spec);
      }
    }
    hide PayloadSchema, SpecSchema, AcceptsSpec, Beyond, Sayable, Validates;
    FieldsExact(p, v);
  }

  lemma {:induction false} FieldsExact(p: Payload, v: Value)
    requires v.Obj? ==> forall i :: 0 <= i < |p.fields| && p.fields[i].name in v.fields ==> FieldAgrees(p.fields[i], v.fields[p.fields[i].name])
    ensures Agree(Accepts(p, v), ValidFields(p, v), SayablePayload(p, v), BeyondPayload(p, v))
  {
    hide SpecSchema, AcceptsField, AcceptsSpec, Beyond, Sayable, Validates;
  }

  /** Compiler soundness, exactly: of the payloads `check` accepts the emitted schema accepts those that have no
      null at a declared field and write every advertised UUID with 36 characters, and no others. */
  lemma {:induction false} CompilerSound(p: Payload, v: Value)
    requires WellFormedPayload(p) && Accepts(p, v)
    ensures Validates(PayloadSchema(p), v) <==> SayablePayload(p, v)
  {
    PayloadExact(p, v);
  }

  /** On every value: the payloads both readers take are the sayable among those `check` accepts, and the ones
      that meet the unsayable rules among those the schema accepts. */
  lemma {:induction false} ReadersAgree(p: Payload, v: Value)
    requires WellFormedPayload(p)
    ensures Accepts(p, v) && SayablePayload(p, v) <==> Validates(PayloadSchema(p), v) && BeyondPayload(p, v)
    ensures (Accepts(p, v) <==> Validates(PayloadSchema(p), v))
            <==> (Accepts(p, v) ==> SayablePayload(p, v)) && (Validates(PayloadSchema(p), v) ==> BeyondPayload(p, v))
  {
    PayloadExact(p, v);
  }

  // ── where they part ────────────────────────────────────────────────────

  const NOTE := Payload([Field("note", false, true, StrSpec(false))])
  const TARGET := Payload([Field("entity_id", true, false, Uuid(false))])
  const SOURCE := Payload([Field("source", true, false, Uuid(true))])
  const DUE := Payload([Field("due", true, false, LocalDateTime)])
  const EVERY := Payload([Field("every", true, false, PositiveInt)])
  const TAGS := Payload([Field("tags", true, false, ArrayOf(StrSpec(true), true, None))])
  const PLAIN_UUID := "00000000000000000000000000000000"

  lemma {:induction false} OneField(p: Payload, name: string, v: Value)
    requires |p.fields| == 1 && p.fields[0].name == name && WellFormed(p.fields[0].spec)
    ensures Accepts(p, Obj(map[name := v])) <==> AcceptsField(p.fields[0], v)
    ensures Validates(PayloadSchema(p), Obj(map[name := v])) <==> Validates(SpecSchema(p.fields[0].spec), v)
  {
    var payload := Obj(map[name := v]);
    assert forall k :: k in payload.fields ==> k == p.fields[0].name;
    assert Declares(p, name);
    ValidatesByField(p, payload);
  }

  /** Both relaxations matter: `check` accepts a clearing null and a 32-character UUID, and the schemas it is
      compiled to refuse them. */
  lemma RelaxationsAreNotInTheSchema()
    ensures Accepts(NOTE, Obj(map["note" := Null])) && !Validates(PayloadSchema(NOTE), Obj(map["note" := Null]))
    ensures Accepts(SOURCE, Obj(map["source" := Str(PLAIN_UUID)]))
            && !Validates(PayloadSchema(SOURCE), Obj(map["source" := Str(PLAIN_UUID)]))
  {
    OneField(NOTE, "note", Null);
    OneField(SOURCE, "source", Str(PLAIN_UUID));
    NullIsNoString();
    PlainUuid();
    hide Accepts, Validates, PayloadSchema, SpecSchema, IsUuid;
  }

  lemma NullIsNoString()
    ensures !Validates(SpecSchema(StrSpec(false)), Null)
  {
  }

  lemma PlainUuid()
    ensures IsUuid(PLAIN_UUID) && !Validates(SpecSchema(Uuid(true)), Str(PLAIN_UUID))
  {
  }

  /** And each rule a schema cannot say matters: an advertised schema accepts the thirtieth of February, one
      written as 1.0, a blank element of a plain array, and any text for a bare target id; `check` refuses
      each. */
  lemma SchemasAreLooser()
    ensures var v := Obj(map["every" := Num(Float(1.0))]); Validates(PayloadSchema(EVERY), v) && !Accepts(EVERY, v)
    ensures var v := Obj(map["due" := Str("2025-02-30T00:00:00")]); Validates(PayloadSchema(DUE), v) && !Accepts(DUE, v)
    ensures var v := Obj(map["tags" := Arr([Str(" ")])]); Validates(PayloadSchema(TAGS), v) && !Accepts(TAGS, v)
    ensures var v := Obj(map["entity_id" := Str("ada")]); Validates(PayloadSchema(TARGET), v) && !Accepts(TARGET, v)
  {
    OneField(EVERY, "every", Num(Float(1.0)));
    OneField(DUE, "due", Str("2025-02-30T00:00:00"));
    OneField(TAGS, "tags", Arr([Str(" ")]));
    OneField(TARGET, "entity_id", Str("ada"));
    LooseLeaves();
    BlankTag();
    hide Accepts, Validates, PayloadSchema, SpecSchema, AcceptsSpec;
  }

  lemma LooseLeaves()
    ensures Validates(SpecSchema(PositiveInt), Num(Float(1.0))) && !AcceptsSpec(PositiveInt, Num(Float(1.0)))
    ensures Validates(SpecSchema(LocalDateTime), Str("2025-02-30T00:00:00"))
            && !AcceptsSpec(LocalDateTime, Str("2025-02-30T00:00:00"))
    ensures Validates(SpecSchema(Uuid(false)), Str("ada")) && !AcceptsSpec(Uuid(false), Str("ada"))
  {
    NoThirtiethOfFebruary();
    hide WallClock.Parse, MatchesDateTime;
  }

  lemma BlankTag()
    ensures Validates(SpecSchema(ArrayOf(StrSpec(true), true, None)), Arr([Str(" ")]))
    ensures !AcceptsSpec(ArrayOf(StrSpec(true), true, None), Arr([Str(" ")]))
  {
    var v := Arr([Str(" ")]);
    assert v.items[0] == Str(" ") && IsBlank(" ");
    assert !AcceptsSpec(StrSpec(true), v.items[0]);
  }

  lemma {:induction false} TwoDigitValue(t: string)
    requires |t| == 2
    ensures WallClock.Value(t) == 10 * (t[0] as int - '0' as int) + (t[1] as int - '0' as int)
  {
    assert t[..1][..0] == "";
    assert WallClock.Value(t[..1]) == t[0] as int - '0' as int;
  }

  lemma NoThirtiethOfFebruary()
    ensures MatchesDateTime("2025-02-30T00:00:00") && WallClock.Parse("2025-02-30T00:00:00").None?
  {
    var s := "2025-02-30T00:00:00";
    TwoDigitValue(s[5..7]);
    TwoDigitValue(s[8..10]);
    assert WallClock.Value(s[5..7]) == 2 && WallClock.Value(s[8..10]) == 30;
    hide WallClock.Value, WallClock.AllDigits;
  }
}
