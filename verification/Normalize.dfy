/** What is stored of a validated create or update: transport keys stripped, clearing nulls dropped, a
    Project's defaults seeded. */
module Normalize {
  import opened Json
  import opened FieldSpec
  import opened EntitySpecs
  import CivilCalendar
  import ReviewAnchors
  import WallClock

  type Fields = map<string, Value>

  // ── the policy ─────────────────────────────────────────────────────────

  datatype Policy = Policy(strip: seq<string>, dropNulls: bool, projectDefaults: bool)

  const UPDATE_NORMALIZE := Policy(["entity_id", "source_journal_entry_id"], true, false)

  function PolicyOf(t: EntityType, op: WriteOp): Policy {
    if op == Update then UPDATE_NORMALIZE
    else Policy(if SourceDirective(t) then ["source_journal_entry_id"] else [], true, t == Project)
  }

  /** What is left once the policy's keys and the nulls are gone. */
  function Kept(policy: Policy, fields: Fields): Fields {
    map k | k in fields && k !in policy.strip && !(policy.dropNulls && fields[k].Null?) :: fields[k]
  }

  const WEEKLY := Obj(map["interval" := Num(PosInt(1)), "unit" := Str("week")])

  predicate Seeds(fields: Fields) {
    ("status" in fields ==> fields["status"] == Str("active")) && "review_every" !in fields && "next_review_at" !in fields
  }

  /** `project_create_defaults`: an explicit status, and the weekly ritual for an active Project without one. */
  function ProjectDefaults(fields: Fields, nowMs: int, offsetMinutes: int): Fields {
    var withStatus := if "status" in fields then fields else fields["status" := Str("active")];
    if Seeds(fields)
    then withStatus["review_every" := WEEKLY]["next_review_at" := Str(WallClock.SundayAnchor(ReviewAnchors.SeedDay(nowMs, offsetMinutes)))]
    else withStatus
  }

  function Stored(policy: Policy, fields: Fields, nowMs: int, offsetMinutes: int): Fields {
    var kept := Kept(policy, fields);
    if policy.projectDefaults then ProjectDefaults(kept, nowMs, offsetMinutes) else kept
  }

  function Normalized(policy: Policy, payload: Value, nowMs: int, offsetMinutes: int): Value {
    if payload.Obj? then Obj(Stored(policy, payload.fields, nowMs, offsetMinutes)) else payload
  }

  /** `NormalizePolicy::apply`: strip key by key, then retain what is not null, then the defaults. */
  method Apply(policy: Policy, payload: Value, nowMs: int, offsetMinutes: int) returns (stored: Value)
    ensures stored == Normalized(policy, payload, nowMs, offsetMinutes)
  {
    if !payload.Obj? {
      return payload;
    }
    var data := payload.fields;
    var i := 0;
    while i < |policy.strip|
      invariant 0 <= i <= |policy.strip|
      invariant data == map k | k in payload.fields && k !in policy.strip[..i] :: payload.fields[k]
    {
      data := data - {policy.strip[i]};
      assert policy.strip[..i + 1] == policy.strip[..i] + [policy.strip[i]];
      i := i + 1;
    }
    assert policy.strip[..i] == policy.strip;
    if policy.dropNulls {
      data := map k | k in data && !data[k].Null? :: data[k];
    }
    assert data == Kept(policy, payload.fields);
    if policy.projectDefaults {
      data := SeedDefaults(data, nowMs, offsetMinutes);
    }
    stored := Obj(data);
  }

  /** The post step, on the map in place. */
  method SeedDefaults(fields: Fields, nowMs: int, offsetMinutes: int) returns (data: Fields)
    ensures data == ProjectDefaults(fields, nowMs, offsetMinutes)
  {
    data := fields;
    if "status" !in data {
      data := data["status" := Str("active")];
    }
    var isActive := data["status"] == Str("active");
    if isActive && "review_every" !in data && "next_review_at" !in data {
      data := data["review_every" := WEEKLY];
      data := data["next_review_at" := Str(WallClock.SundayAnchor(ReviewAnchors.SeedDay(nowMs, offsetMinutes)))];
    }
  }

  // ── validators ─────────────────────────────────────────────────────────

  predicate PresentNonNull(fields: Fields, key: string) {
    key in fields && !fields[key].Null?
  }

  function TextAt(fields: Fields, key: string, absent: string): string {
    if key in fields && fields[key].Str? then fields[key].s else absent
  }

  predicate StatusTimestamps(fields: Fields) {
    var completed, dropped := PresentNonNull(fields, "completed_at"), PresentNonNull(fields, "dropped_at");
    match TextAt(fields, "status", "active")
    case "active" => !completed && !dropped
    case "on_hold" => !completed && !dropped
    case "completed" => completed && !dropped
    case "dropped" => dropped && !completed
    case _ => false
  }

  predicate FinishData(fields: Fields) {
    var terminal := TextAt(fields, "state", "") in {"done", "abandoned"};
    && (PresentNonNull(fields, "rating") ==> terminal)
    && (PresentNonNull(fields, "finished_at") ==> terminal)
    && ("rating" in fields && fields["rating"].Num? && fields["rating"].num.PosInt? ==> fields["rating"].num.n <= 5)
  }

  /** The cross-field hook that runs after the flat walk. */
  predicate Hook(t: EntityType, fields: Fields) {
    match t
    case Project => StatusTimestamps(fields)
    case Media => FinishData(fields)
    case _ => true
  }

  ghost predicate Valid(t: EntityType, op: WriteOp, payload: Value) {
    Accepts(PayloadSpec(t, op), payload) && Hook(t, payload.fields)
  }

  ghost predicate ValidData(t: EntityType, data: Value) {
    Accepts(DataSpec(t), data) && Hook(t, data.fields)
  }

  // ── what the validators accept ─────────────────────────────────────────

  /** The declared field of an accepted payload takes the value it is given. */
  lemma {:induction false} FieldAccepted(p: Payload, v: Value, i: nat)
    requires Accepts(p, v) && i < |p.fields|
    ensures if p.fields[i].name in v.fields then AcceptsField(p.fields[i], v.fields[p.fields[i].name]) else !p.fields[i].required
  {
  }

  lemma {:induction false} StatusIsOneOfFour(op: WriteOp, payload: Value)
    requires Accepts(PayloadSpec(Project, op), payload)
    ensures "status" in payload.fields ==> payload.fields["status"].Str?
                                           && payload.fields["status"].s in {"active", "on_hold", "completed", "dropped"}
  {
    CoreInPayload(Project, op, 3);
    assert PROJECT_CORE[3] == May("status", EnumStr(["active", "on_hold", "completed", "dropped"]));
    hide Accepts;
    FieldAccepted(PayloadSpec(Project, op), payload, if op == Create then 3 else 4);
  }

  /** A Project, created or updated, passes when its timestamps match its status: completed if and only if it has a
      completion date, dropped if and only if it has a drop date, an absent status counting as active and a null as
      no date. */
  lemma {:induction false} ProjectIsValid(op: WriteOp, payload: Value)
    requires Accepts(PayloadSpec(Project, op), payload)
    ensures var fields := payload.fields;
            var status := if "status" in fields then fields["status"] else Str("active");
            Valid(Project, op, payload)
            <==> && ("completed_at" in fields && fields["completed_at"] != Null <==> status == Str("completed"))
                 && ("dropped_at" in fields && fields["dropped_at"] != Null <==> status == Str("dropped"))
  {
    StatusIsOneOfFour(op, payload);
    hide Accepts;
  }

  lemma {:induction false} MediaFieldsAre(op: WriteOp, payload: Value)
    requires Accepts(PayloadSpec(Media, op), payload)
    ensures "state" in payload.fields && payload.fields["state"].Str?
    ensures "rating" in payload.fields && payload.fields["rating"] != Null ==>
              payload.fields["rating"].Num? && payload.fields["rating"].num.PosInt? && payload.fields["rating"].num.n >= 1
  {
    CoreInPayload(Media, op, 2);
    CoreInPayload(Media, op, 3);
    assert MEDIA_CORE[2] == Must("state", EnumStr(["backlog", "consuming", "done", "abandoned"]));
    assert MEDIA_CORE[3] == MayClear("rating", PositiveInt);
    hide Accepts;
    FieldAccepted(PayloadSpec(Media, op), payload, if op == Create then 2 else 3);
    FieldAccepted(PayloadSpec(Media, op), payload, if op == Create then 3 else 4);
  }

  /** Media, created or updated, passes when a rating or a finish date comes only with a finished state, done or
      abandoned, and the rating is one to five. */
  lemma {:induction false} MediaIsValid(op: WriteOp, payload: Value)
    requires Accepts(PayloadSpec(Media, op), payload)
    ensures var fields := payload.fields;
            var rated := "rating" in fields && fields["rating"] != Null;
            var finished := "finished_at" in fields && fields["finished_at"] != Null;
            Valid(Media, op, payload)
            <==> && (rated || finished ==> "state" in fields && (fields["state"] == Str("done") || fields["state"] == Str("abandoned")))
                 && (rated ==> fields["rating"].Num? && fields["rating"].num.PosInt? && 1 <= fields["rating"].num.n <= 5)
  {
    MediaFieldsAre(op, payload);
    hide Accepts;
  }

  /** People and Habits have no rule beyond their fields. */
  lemma {:induction false} OthersAreValid(t: EntityType, op: WriteOp, payload: Value)
    requires t == Person || t == Habit
    ensures Valid(t, op, payload) <==> Accepts(PayloadSpec(t, op), payload)
  {
  }

  // ── stripping and dropping ─────────────────────────────────────────────

  /** No core field takes a null unless it is clearable, and no required field is clearable. */
  predicate Sturdy(f: Field) {
    (f.required ==> !f.clearable) && !f.spec.Body?
  }

  lemma {:induction false} NullIsRefused(f: Field)
    requires Sturdy(f) && f.required
    ensures !AcceptsField(f, Null)
  {
    if f.spec.OneOfObject? {
      forall i | 0 <= i < |f.spec.variants| ensures !Accepts(f.spec.variants[i], Null) {
      }
      assert !AcceptsOneOf(f.spec.variants, Null);
    } else if f.spec.Object? {
      assert !Accepts(f.spec.payload, Null);
    }
    assert !AcceptsSpec(f.spec, Null);
  }

  lemma CoreIsSturdy(t: EntityType)
    ensures forall i :: 0 <= i < |Core(t)| ==> Sturdy(Core(t)[i])
  {
  }

  /** A core field sits in both framed payloads. */
  lemma CoreInPayload(t: EntityType, op: WriteOp, i: nat)
    requires i < |Core(t)|
    ensures var p := PayloadSpec(t, op);
            var j := if op == Create then i else i + 1;
            j < |p.fields| && p.fields[j] == Core(t)[i]
  {
  }

  lemma OnlyTransportBeside(t: EntityType, op: WriteOp, k: string)
    requires Declares(PayloadSpec(t, op), k) && k !in PolicyOf(t, op).strip
    ensures Declares(DataSpec(t), k)
  {
  }

  lemma CoreIsKept(t: EntityType, op: WriteOp, i: nat)
    requires i < |Core(t)|
    ensures Core(t)[i].name !in PolicyOf(t, op).strip
  {
  }

  /** What is kept of a payload that passes its own specification passes the data specification. */
  lemma {:induction false} KeptIsAccepted(t: EntityType, op: WriteOp, payload: Value)
    requires Accepts(PayloadSpec(t, op), payload)
    ensures Accepts(DataSpec(t), Obj(Kept(PolicyOf(t, op), payload.fields)))
  {
    var kept := Kept(PolicyOf(t, op), payload.fields);
    var p := PayloadSpec(t, op);
    CoreIsSturdy(t);
    forall k | k in kept ensures Declares(DataSpec(t), k) {
      OnlyTransportBeside(t, op, k);
    }
    hide PayloadSpec, AcceptsSpec;
    forall i | 0 <= i < |Core(t)|
      ensures var f := Core(t)[i]; if f.name in kept then AcceptsField(f, kept[f.name]) else !f.required
    {
      var f := Core(t)[i];
      CoreInPayload(t, op, i);
      CoreIsKept(t, op, i);
      var j := if op == Create then i else i + 1;
      assert p.fields[j] == f;
      if f.required { NullIsRefused(f); }
    }
  }

  lemma KeptHook(t: EntityType, op: WriteOp, fields: Fields)
    ensures var kept := Kept(PolicyOf(t, op), fields);
            && (forall k :: k !in ["entity_id", "source_journal_entry_id"] ==> (PresentNonNull(fields, k) <==> k in kept) && (k in kept ==> kept[k] == fields[k]))
            && (Hook(t, fields) <==> Hook(t, kept))
  {
  }

  // ── the Project's defaults ─────────────────────────────────────────────

  /** The year the seeded review falls in. */
  function SeedYear(nowMs: int, offsetMinutes: int): int {
    CivilCalendar.CivilFromDays(ReviewAnchors.SeedDay(nowMs, offsetMinutes)).year
  }

  predicate FourDigits(year: int) {
    0 <= year <= 9_999
  }

  lemma WeeklyIsCadence()
    ensures AcceptsSpec(Object(CADENCE), WEEKLY)
  {
    assert CADENCE.fields[0].name == "interval" && CADENCE.fields[1].name == "unit";
    assert Declares(CADENCE, "interval") && Declares(CADENCE, "unit");
    assert forall k :: k in WEEKLY.fields ==> Declares(CADENCE, k);
    assert AcceptsSpec(CADENCE.fields[0].spec, WEEKLY.fields["interval"]);
    assert AcceptsSpec(CADENCE.fields[1].spec, WEEKLY.fields["unit"]);
    assert Accepts(CADENCE, WEEKLY);
  }

  lemma AnchorIsDateTime(nowMs: int, offsetMinutes: int)
    ensures AcceptsSpec(LocalDateTime, Str(WallClock.SundayAnchor(ReviewAnchors.SeedDay(nowMs, offsetMinutes))))
            <==> FourDigits(SeedYear(nowMs, offsetMinutes))
  {
    hide WallClock.SundayAnchor, WallClock.Parse, ReviewAnchors.SeedDay, CivilCalendar.CivilFromDays;
    WallClock.AnchorReadsBack(ReviewAnchors.SeedDay(nowMs, offsetMinutes));
  }

  /** Setting one declared field of accepted data. */
  lemma {:induction false} SetField(t: EntityType, fields: Fields, i: nat, v: Value)
    requires i < |Core(t)| && Accepts(DataSpec(t), Obj(fields))
    requires forall j :: 0 <= j < |Core(t)| && j != i ==> Core(t)[j].name != Core(t)[i].name
    ensures Accepts(DataSpec(t), Obj(fields[Core(t)[i].name := v])) <==> AcceptsField(Core(t)[i], v)
  {
  }

  lemma ProjectNames(i: nat, j: nat)
    requires i < |PROJECT_CORE| && j < |PROJECT_CORE| && i != j
    ensures PROJECT_CORE[i].name != PROJECT_CORE[j].name
  {
  }

  lemma {:induction false} SetProjectField(fields: Fields, i: nat, v: Value)
    requires i < |PROJECT_CORE| && Accepts(DataSpec(Project), Obj(fields))
    ensures Accepts(DataSpec(Project), Obj(fields[PROJECT_CORE[i].name := v])) <==> AcceptsField(PROJECT_CORE[i], v)
  {
    assert Core(Project) == PROJECT_CORE;
    forall j | 0 <= j < |PROJECT_CORE| && j != i ensures PROJECT_CORE[j].name != PROJECT_CORE[i].name {
      ProjectNames(j, i);
    }
    SetField(Project, fields, i, v);
  }

  lemma StatusAccepted(fields: Fields)
    requires Accepts(DataSpec(Project), Obj(fields))
    ensures Accepts(DataSpec(Project), Obj(fields["status" := Str("active")]))
  {
    assert PROJECT_CORE[3].name == "status" && AcceptsField(PROJECT_CORE[3], Str("active"));
    hide Accepts;
    SetProjectField(fields, 3, Str("active"));
  }

  lemma {:induction false} RitualAccepted(fields: Fields, anchor: Value)
    requires Accepts(DataSpec(Project), Obj(fields)) && anchor.Str?
    ensures Accepts(DataSpec(Project), Obj(fields["review_every" := WEEKLY]["next_review_at" := anchor]))
            <==> AcceptsSpec(LocalDateTime, anchor)
  {
    WeeklyIsCadence();
    assert PROJECT_CORE[8].name == "review_every" && AcceptsField(PROJECT_CORE[8], WEEKLY);
    assert PROJECT_CORE[9].name == "next_review_at" && (AcceptsField(PROJECT_CORE[9], anchor) <==> AcceptsSpec(LocalDateTime, anchor));
    hide Accepts, AcceptsField, AcceptsSpec;
    SetProjectField(fields, 8, WEEKLY);
    SetProjectField(fields["review_every" := WEEKLY], 9, anchor);
  }

  /** Seeding keeps accepted data accepted, unless the clock lands in a year the datetime text cannot hold. */
  lemma DefaultsAccepted(fields: Fields, nowMs: int, offsetMinutes: int)
    requires Accepts(DataSpec(Project), Obj(fields))
    ensures Accepts(DataSpec(Project), Obj(ProjectDefaults(fields, nowMs, offsetMinutes)))
            <==> !Seeds(fields) || FourDigits(SeedYear(nowMs, offsetMinutes))
  {
    hide Accepts, AcceptsSpec, SeedYear, Seeds, DataSpec, WallClock.SundayAnchor, ReviewAnchors.SeedDay;
    StatusAccepted(fields);
    AnchorIsDateTime(nowMs, offsetMinutes);
    var withStatus := if "status" in fields then fields else fields["status" := Str("active")];
    RitualAccepted(withStatus, Str(WallClock.SundayAnchor(ReviewAnchors.SeedDay(nowMs, offsetMinutes))));
  }

  lemma DefaultsKeepHook(fields: Fields, nowMs: int, offsetMinutes: int)
    requires Hook(Project, fields)
    ensures Hook(Project, ProjectDefaults(fields, nowMs, offsetMinutes))
  {
    var after := ProjectDefaults(fields, nowMs, offsetMinutes);
    hide WallClock.SundayAnchor, ReviewAnchors.SeedDay;
    assert TextAt(after, "status", "active") == TextAt(fields, "status", "active");
    assert PresentNonNull(after, "completed_at") == PresentNonNull(fields, "completed_at");
    assert PresentNonNull(after, "dropped_at") == PresentNonNull(fields, "dropped_at");
  }

  // ── normalization preserves validity ───────────────────────────────────

  /** The one way a valid payload is stored as invalid data. */
  predicate SeedsUnreadable(t: EntityType, op: WriteOp, payload: Value, nowMs: int, offsetMinutes: int)
    requires payload.Obj?
  {
    t == Project && op == Create && Seeds(Kept(PolicyOf(t, op), payload.fields)) && !FourDigits(SeedYear(nowMs, offsetMinutes))
  }

  /** Every regular create and update, at every clock: what a valid payload is stored as passes the data
      specification and the cross-field hook if and only if the review date it seeds, if it seeds one, falls
      in the years 0-9999. */
  lemma StoredIsValidData(t: EntityType, op: WriteOp, payload: Value, nowMs: int, offsetMinutes: int)
    requires Valid(t, op, payload)
    ensures ValidData(t, Normalized(PolicyOf(t, op), payload, nowMs, offsetMinutes))
            <==> !SeedsUnreadable(t, op, payload, nowMs, offsetMinutes)
  {
    var policy := PolicyOf(t, op);
    var kept := Kept(policy, payload.fields);
    KeptIsAccepted(t, op, payload);
    KeptHook(t, op, payload.fields);
    if policy.projectDefaults {
      DefaultsAccepted(kept, nowMs, offsetMinutes);
      DefaultsKeepHook(kept, nowMs, offsetMinutes);
    }
    hide Accepts, Hook, Kept, Seeds, ProjectDefaults, SeedYear;
  }

  lemma NoTransport(t: EntityType, kept: Fields)
    requires Accepts(DataSpec(t), Obj(kept))
    ensures "entity_id" !in kept && "source_journal_entry_id" !in kept
  {
    NoTransportInCore(t);
    assert forall k :: k in kept ==> Declares(DataSpec(t), k);
  }

  lemma DefaultsFields(fields: Fields, nowMs: int, offsetMinutes: int)
    ensures var after := ProjectDefaults(fields, nowMs, offsetMinutes);
            && (forall k :: k in fields ==> k in after && after[k] == fields[k])
            && (forall k :: k in after && k !in fields ==> k in ["status", "review_every", "next_review_at"] && !after[k].Null?)
  {
  }

  /** Stored data carries no null and no transport key at the top, keeps every other value as it was sent,
      and adds nothing but a new Project's defaults. */
  lemma StoredFields(t: EntityType, op: WriteOp, payload: Value, nowMs: int, offsetMinutes: int)
    requires Valid(t, op, payload)
    ensures var stored := Normalized(PolicyOf(t, op), payload, nowMs, offsetMinutes).fields;
            && "entity_id" !in stored && "source_journal_entry_id" !in stored
            && (forall k :: k in stored ==> !stored[k].Null?)
            && (forall k :: PresentNonNull(payload.fields, k) && k !in ["entity_id", "source_journal_entry_id"] ==>
                  k in stored && stored[k] == payload.fields[k])
            && (forall k :: k in stored && !PresentNonNull(payload.fields, k) ==>
                  t == Project && op == Create && k in ["status", "review_every", "next_review_at"])
  {
    var kept := Kept(PolicyOf(t, op), payload.fields);
    KeptIsAccepted(t, op, payload);
    KeptHook(t, op, payload.fields);
    NoTransport(t, kept);
    DefaultsFields(kept, nowMs, offsetMinutes);
    hide ProjectDefaults, Accepts, Hook, Kept;
  }

  /** Normalizing stored data again changes nothing, at any later clock, by its own policy or by the other one
      of its type; only a Project that was updated would be seeded by the create policy. */
  lemma StoredIsFixed(t: EntityType, op: WriteOp, payload: Value, nowMs: int, offsetMinutes: int, again: WriteOp, laterMs: int, laterOffset: int)
    requires Valid(t, op, payload) && (t == Project && again == Create ==> op == Create)
    ensures var stored := Normalized(PolicyOf(t, op), payload, nowMs, offsetMinutes);
            Normalized(PolicyOf(t, again), stored, laterMs, laterOffset) == stored
  {
    StoredFields(t, op, payload, nowMs, offsetMinutes);
    var stored := Normalized(PolicyOf(t, op), payload, nowMs, offsetMinutes).fields;
    hide WallClock.SundayAnchor, ReviewAnchors.SeedDay, Accepts, Hook;
    assert Kept(PolicyOf(t, again), stored) == stored;
  }
}
