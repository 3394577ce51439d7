/** The field specifications of the regular Entity Types and of the two batch proposals, and that each is
    one the compiler is sound for. */
module EntitySpecs {
  import opened Wrappers
  import opened Json
  import opened FieldSpec
  import opened JsonSchema
  import opened SpecCompiler
  import opened SpecAgreement

  datatype EntityType = Person | Project | Media | Habit

  datatype WriteOp = Create | Update

  // ── field shapes ───────────────────────────────────────────────────────

  const NAME := StrSpec(true)
  const TEXT := StrSpec(false)
  const NAMES := ArrayOf(StrSpec(true), true, None)
  const EVERY_UNIT := EnumStr(["day", "week", "month", "year"])
  const CADENCE := Payload([Must("interval", PositiveInt), Must("unit", EVERY_UNIT)])

  function Must(name: string, spec: Spec): Field {
    Field(name, true, false, spec)
  }

  function May(name: string, spec: Spec): Field {
    Field(name, false, false, spec)
  }

  function MayClear(name: string, spec: Spec): Field {
    Field(name, false, true, spec)
  }

  const PERSON_CORE := [Must("name", NAME), MayClear("note", TEXT), MayClear("aliases", NAMES)]

  const PROJECT_CORE := [
    Must("name", NAME), MayClear("outcome", TEXT), MayClear("note", TEXT),
    May("status", EnumStr(["active", "on_hold", "completed", "dropped"])),
    MayClear("defer_at", LocalDateTime), MayClear("due_at", LocalDateTime),
    MayClear("completed_at", LocalDateTime), MayClear("dropped_at", LocalDateTime),
    MayClear("review_every", Object(CADENCE)),
    MayClear("next_review_at", LocalDateTime), MayClear("last_reviewed_at", LocalDateTime)]

  const MEDIA_CORE := [
    Must("title", NAME), Must("medium", EnumStr(["link", "article", "book", "tv", "movie"])),
    Must("state", EnumStr(["backlog", "consuming", "done", "abandoned"])),
    MayClear("rating", PositiveInt), MayClear("finished_at", LocalDateTime),
    MayClear("url", TEXT), MayClear("note", TEXT), MayClear("tags", NAMES)]

  const HABIT_CORE := [
    Must("name", NAME), Must("cadence", Object(CADENCE)), MayClear("target", NAME),
    May("status", EnumStr(["active", "paused", "archived"])), MayClear("note", TEXT)]

  const ENTITY_ID := Must("entity_id", Uuid(false))
  const SOURCE_DIRECTIVE := May("source_journal_entry_id", Uuid(true))

  function Core(t: EntityType): seq<Field> {
    match t
    case Person => PERSON_CORE
    case Project => PROJECT_CORE
    case Media => MEDIA_CORE
    case Habit => HABIT_CORE
  }

  predicate SourceDirective(t: EntityType) {
    t == Person || t == Project
  }

  /** `create_payload` and `update_payload`: the core, framed by its transport keys. */
  function PayloadSpec(t: EntityType, op: WriteOp): Payload {
    match op
    case Create => Payload(Core(t) + if SourceDirective(t) then [SOURCE_DIRECTIVE] else [])
    case Update => Payload([ENTITY_ID] + Core(t))
  }

  /** `data_payload`: the fields an Entity stores. */
  function DataSpec(t: EntityType): Payload {
    Payload(Core(t))
  }

  // ── the batch proposals ────────────────────────────────────────────────

  function Tag(name: string, value: string): Field {
    Must(name, EnumStr([value]))
  }

  function EntityNode(tag: string, fields: seq<Field>): Payload {
    Payload([Must("handle", NAME), Tag("type", tag), May("existing_id", Uuid(true))] + fields)
  }

  const BODY_NODES := OneOfArray([Payload([Tag("type", "text"), Must("text", NAME)]),
                                  Payload([Tag("type", "entity_ref"), Must("target", NAME)])], Some(1))

  const JOURNAL_NODE := Payload([
    Must("handle", NAME), May("existing_id", Uuid(true)), Must("occurred_at", LocalDateTime),
    May("ended_at", LocalDateTime), May("body", BODY_NODES)])

  const LINKS := OneOfArray([Payload([
    Tag("kind", "journal_ref"), Must("from", NAME), Must("to", NAME), May("match_text", NAME), May("append_text", NAME)])], None)

  const ENTITY_NODES := OneOfArray([
    EntityNode("person", [Must("name", NAME), May("note", TEXT), May("aliases", NAMES)]),
    EntityNode("project", [Must("name", NAME), May("outcome", TEXT), May("note", TEXT)])], Some(1))

  const INTENT_GRAPH := Payload([May("journal_entry", Object(JOURNAL_NODE)), Must("entities", ENTITY_NODES), Must("links", LINKS)])

  /** Evidence names a Journal Entry or a Message, each forbidding the other's key. */
  const JOURNAL_EVIDENCE := Payload([Must("journal_entry_id", Uuid(true)), May("message_id", Never)])
  const MESSAGE_EVIDENCE := Payload([Must("message_id", Uuid(true)), May("journal_entry_id", Never)])
  const EVIDENCE := OneOfObject([JOURNAL_EVIDENCE, MESSAGE_EVIDENCE])

  const BODYWEIGHT := Payload([Must("kg", NumberSpec(Some(0.0)))])

  const HABIT_CHECKIN := Payload([
    Must("habit_id", Uuid(true)), Must("state", EnumStr(["done", "skipped", "missed"])), May("quantity", NumberSpec(None))])

  const NUTRITION := Payload([
    Must("kcal", NumberSpec(Some(0.0))), May("protein_g", NumberSpec(Some(0.0))), May("carbs_g", NumberSpec(Some(0.0))),
    May("fat_g", NumberSpec(Some(0.0))), May("label", TEXT)])

  function Observation(key: string, values: Payload): Payload {
    Payload([Tag("schema_key", key), Must("occurred_at", LocalDateTime), May("ended_at", LocalDateTime),
             Must("values", Object(values)), May("note", TEXT)])
  }

  const OBSERVATIONS := OneOfArray([
    Observation("bodyweight", BODYWEIGHT), Observation("habit.checkin", HABIT_CHECKIN), Observation("nutrition.intake", NUTRITION)], Some(1))

  const RECORD_OBSERVATIONS := Payload([Must("observations", OBSERVATIONS), May("evidence", EVIDENCE)])

  // ── they are well formed ───────────────────────────────────────────────

  lemma PersonIsWellFormed()
    ensures WellFormedPayload(Payload(PERSON_CORE))
  {
  }

  lemma ProjectIsWellFormed()
    ensures WellFormedPayload(Payload(PROJECT_CORE))
  {
    assert WellFormedPayload(CADENCE) && WellFormed(Object(CADENCE)) && WellFormed(NAMES);
  }

  lemma MediaIsWellFormed()
    ensures WellFormedPayload(Payload(MEDIA_CORE))
  {
  }

  lemma HabitIsWellFormed()
    ensures WellFormedPayload(Payload(HABIT_CORE))
  {
    assert WellFormedPayload(CADENCE) && WellFormed(Object(CADENCE)) && WellFormed(NAMES);
  }

  lemma CoresAreWellFormed(t: EntityType)
    ensures WellFormedPayload(DataSpec(t))
  {
    hide WellFormedPayload;
    PersonIsWellFormed();
    ProjectIsWellFormed();
    MediaIsWellFormed();
    HabitIsWellFormed();
  }

  lemma PayloadsAreWellFormed(t: EntityType, op: WriteOp)
    ensures WellFormedPayload(PayloadSpec(t, op))
  {
    CoresAreWellFormed(t);
    var p, core := PayloadSpec(t, op), Core(t);
    forall i, j | 0 <= i < j < |p.fields| ensures p.fields[i].name != p.fields[j].name {
      NoTransportInCore(t);
    }
    forall i | 0 <= i < |p.fields| ensures WellFormed(p.fields[i].spec) {
      if p.fields[i] in core {
        var k :| 0 <= k < |core| && core[k] == p.fields[i];
      }
    }
  }

  lemma NoTransportInCore(t: EntityType)
    ensures forall i :: 0 <= i < |Core(t)| ==> Core(t)[i].name != "entity_id" && Core(t)[i].name != "source_journal_entry_id"
  {
  }

  lemma TagsSetApart(p: Payload, q: Payload, i: nat, a: string, b: string)
    requires i < |p.fields| && i < |q.fields| && p.fields[i].name == q.fields[i].name && a != b
    requires p.fields[i] == Tag(p.fields[i].name, a) && q.fields[i] == Tag(q.fields[i].name, b)
    ensures Apart(p, q)
  {
  }

  lemma EvidenceIsWellFormed()
    ensures WellFormed(EVIDENCE)
  {
    var p, q := JOURNAL_EVIDENCE, MESSAGE_EVIDENCE;
    assert Demands(p, 0) && q.fields[1].name == p.fields[0].name && q.fields[1].spec.Never?;
    assert RequiresForbidden(p, q);
    assert WellFormedPayload(p) && WellFormedPayload(q);
  }

  lemma BodyNodesAreWellFormed()
    ensures WellFormed(BODY_NODES) && WellFormedPayload(JOURNAL_NODE)
  {
    TagsSetApart(BODY_NODES.variants[0], BODY_NODES.variants[1], 0, "text", "entity_ref");
    assert WellFormedPayload(BODY_NODES.variants[0]) && WellFormedPayload(BODY_NODES.variants[1]);
    assert WellFormedVariants(BODY_NODES.variants);
    assert WellFormed(BODY_NODES);
  }

  lemma PersonNodeIsWellFormed()
    ensures WellFormedPayload(ENTITY_NODES.variants[0])
  {
    assert WellFormed(NAMES);
  }

  lemma ProjectNodeIsWellFormed()
    ensures WellFormedPayload(ENTITY_NODES.variants[1])
  {
  }

  lemma EntityNodesAreWellFormed()
    ensures WellFormed(ENTITY_NODES)
  {
    var p, q := ENTITY_NODES.variants[0], ENTITY_NODES.variants[1];
    TagsSetApart(p, q, 1, "person", "project");
    PersonNodeIsWellFormed();
    ProjectNodeIsWellFormed();
    hide WellFormedPayload, Apart;
    assert WellFormedVariants(ENTITY_NODES.variants);
  }

  lemma LinksAreWellFormed()
    ensures WellFormed(LINKS)
  {
    assert WellFormedPayload(LINKS.variants[0]);
  }

  lemma IntentGraphIsWellFormed()
    ensures WellFormedPayload(INTENT_GRAPH)
  {
    BodyNodesAreWellFormed();
    EntityNodesAreWellFormed();
    LinksAreWellFormed();
    assert WellFormed(Object(JOURNAL_NODE));
  }

  lemma {:induction false} ObservationIsWellFormed(key: string, values: Payload)
    requires WellFormedPayload(values)
    ensures WellFormedPayload(Observation(key, values))
  {
  }

  lemma ObservationsAreWellFormed()
    ensures WellFormed(OBSERVATIONS)
  {
    var v := OBSERVATIONS.variants;
    assert WellFormedPayload(BODYWEIGHT) && WellFormedPayload(HABIT_CHECKIN) && WellFormedPayload(NUTRITION);
    hide WellFormedPayload;
    ObservationIsWellFormed("bodyweight", BODYWEIGHT);
    ObservationIsWellFormed("habit.checkin", HABIT_CHECKIN);
    ObservationIsWellFormed("nutrition.intake", NUTRITION);
    TagsSetApart(v[0], v[1], 0, "bodyweight", "habit.checkin");
    TagsSetApart(v[0], v[2], 0, "bodyweight", "nutrition.intake");
    TagsSetApart(v[1], v[2], 0, "habit.checkin", "nutrition.intake");
    hide Apart;
    assert WellFormedVariants(v);
  }

  lemma RecordObservationsIsWellFormed()
    ensures WellFormedPayload(RECORD_OBSERVATIONS)
  {
    hide WellFormed;
    ObservationsAreWellFormed();
    EvidenceIsWellFormed();
  }

  /** The two readers of every regular create and update, of an intent graph and of recorded observations agree
      on every value up to what the one cannot say and the other goes beyond. */
  lemma AdvertisedSchemasAgree(t: EntityType, op: WriteOp, v: Value)
    ensures PayloadAgrees(PayloadSpec(t, op), v)
    ensures PayloadAgrees(INTENT_GRAPH, v)
    ensures PayloadAgrees(RECORD_OBSERVATIONS, v)
  {
    hide Accepts, Validates, PayloadSchema, SayablePayload, BeyondPayload, WellFormedPayload;
    PayloadsAreWellFormed(t, op);
    PayloadExact(PayloadSpec(t, op), v);
    IntentGraphIsWellFormed();
    PayloadExact(INTENT_GRAPH, v);
    RecordObservationsIsWellFormed();
    PayloadExact(RECORD_OBSERVATIONS, v);
  }
}
