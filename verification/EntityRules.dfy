/** What the regular specifications ask of a payload, field by field: who accepts what, written out. */
module EntityRules {
  import opened Wrappers
  import opened Json
  import opened FieldSpec
  import opened EntitySpecs
  import WallClock

  type Fields = map<string, Value>

  // ── one field ──────────────────────────────────────────────────────────

  predicate NonBlank(v: Value) {
    v.Str? && !IsBlank(v.s)
  }

  predicate NonBlanks(v: Value) {
    v.Arr? && forall i :: 0 <= i < |v.items| ==> NonBlank(v.items[i])
  }

  predicate IsDate(v: Value) {
    v.Str? && WallClock.Parse(v.s).Some?
  }

  predicate IsOneOf(v: Value, words: seq<string>) {
    v.Str? && v.s in words
  }

  /** A positive interval of days, weeks, months or years, and nothing else. */
  predicate IsCadence(v: Value) {
    && v.Obj? && (forall k :: k in v.fields ==> k == "interval" || k == "unit")
    && "interval" in v.fields && v.fields["interval"].Num? && v.fields["interval"].num.PosInt? && v.fields["interval"].num.n >= 1
    && "unit" in v.fields && IsOneOf(v.fields["unit"], ["day", "week", "month", "year"])
  }

  predicate Cleared(fields: Fields, key: string) {
    key !in fields || fields[key].Null?
  }

  // ── payloads ───────────────────────────────────────────────────────────

  predicate IsPersonData(fields: Fields) {
    && (forall k :: k in fields ==> k in ["name", "note", "aliases"])
    && "name" in fields && NonBlank(fields["name"])
    && (Cleared(fields, "note") || fields["note"].Str?)
    && (Cleared(fields, "aliases") || NonBlanks(fields["aliases"]))
  }

  predicate IsHabitData(fields: Fields) {
    && (forall k :: k in fields ==> k in ["name", "cadence", "target", "status", "note"])
    && "name" in fields && NonBlank(fields["name"])
    && "cadence" in fields && IsCadence(fields["cadence"])
    && (Cleared(fields, "target") || NonBlank(fields["target"]))
    && ("status" in fields ==> IsOneOf(fields["status"], ["active", "paused", "archived"]))
    && (Cleared(fields, "note") || fields["note"].Str?)
  }

  predicate IsMediaData(fields: Fields) {
    && (forall k :: k in fields ==> k in ["title", "medium", "state", "rating", "finished_at", "url", "note", "tags"])
    && "title" in fields && NonBlank(fields["title"])
    && "medium" in fields && IsOneOf(fields["medium"], ["link", "article", "book", "tv", "movie"])
    && "state" in fields && IsOneOf(fields["state"], ["backlog", "consuming", "done", "abandoned"])
    && (Cleared(fields, "rating") || (fields["rating"].Num? && fields["rating"].num.PosInt? && fields["rating"].num.n >= 1))
    && (Cleared(fields, "finished_at") || IsDate(fields["finished_at"]))
    && (Cleared(fields, "url") || fields["url"].Str?)
    && (Cleared(fields, "note") || fields["note"].Str?)
    && (Cleared(fields, "tags") || NonBlanks(fields["tags"]))
  }

  predicate IsProjectData(fields: Fields) {
    && (forall k :: k in fields ==>
          k in ["name", "outcome", "note", "status", "defer_at", "due_at", "completed_at", "dropped_at", "review_every",
                "next_review_at", "last_reviewed_at"])
    && "name" in fields && NonBlank(fields["name"])
    && (Cleared(fields, "outcome") || fields["outcome"].Str?)
    && (Cleared(fields, "note") || fields["note"].Str?)
    && ("status" in fields ==> IsOneOf(fields["status"], ["active", "on_hold", "completed", "dropped"]))
    && (forall k :: k in ["defer_at", "due_at", "completed_at", "dropped_at", "next_review_at", "last_reviewed_at"] ==>
          Cleared(fields, k) || IsDate(fields[k]))
    && (Cleared(fields, "review_every") || IsCadence(fields["review_every"]))
  }

  // ── they are what the specifications accept ────────────────────────────

  ghost predicate Fits(f: Field, fields: Fields) {
    if f.name in fields then AcceptsField(f, fields[f.name]) else !f.required
  }

  lemma {:induction false} AcceptsFields(p: Payload, fields: Fields, names: seq<string>)
    requires |names| == |p.fields| && forall i :: 0 <= i < |names| ==> names[i] == p.fields[i].name
    ensures Accepts(p, Obj(fields)) <==> (forall k :: k in fields ==> k in names) && forall i :: 0 <= i < |p.fields| ==> Fits(p.fields[i], fields)
  {
    forall k ensures k in names <==> Declares(p, k) {
      if k in names {
        var i :| 0 <= i < |names| && names[i] == k;
        assert p.fields[i].name == k;
      }
    }
    hide AcceptsField;
  }

  lemma {:induction false} NamesAre(v: Value)
    ensures AcceptsSpec(NAMES, v) <==> NonBlanks(v)
  {
    hide IsBlank;
  }

  lemma {:induction false} CadenceIs(v: Value)
    ensures AcceptsSpec(Object(CADENCE), v) <==> IsCadence(v)
  {
    if v.Obj? {
      AcceptsFields(CADENCE, v.fields, ["interval", "unit"]);
      assert CADENCE.fields[0] == Must("interval", PositiveInt) && CADENCE.fields[1] == Must("unit", EVERY_UNIT);
    }
  }

  lemma {:induction false} ShapesAre(v: Value)
    ensures AcceptsSpec(TEXT, v) <==> v.Str?
    ensures AcceptsSpec(NAME, v) <==> NonBlank(v)
    ensures AcceptsSpec(LocalDateTime, v) <==> IsDate(v)
    ensures AcceptsSpec(PositiveInt, v) <==> v.Num? && v.num.PosInt? && v.num.n >= 1
  {
  }

  lemma FitsIs(f: Field, fields: Fields)
    ensures Fits(f, fields)
            <==> if f.name in fields then (f.clearable && fields[f.name].Null?) || AcceptsSpec(f.spec, fields[f.name]) else !f.required
  {
  }

  lemma TextFits(key: string, fields: Fields)
    ensures Fits(MayClear(key, TEXT), fields) <==> Cleared(fields, key) || fields[key].Str?
    ensures Fits(MayClear(key, NAME), fields) <==> Cleared(fields, key) || NonBlank(fields[key])
    ensures Fits(Must(key, NAME), fields) <==> key in fields && NonBlank(fields[key])
  {
    hide Fits, AcceptsSpec, NonBlank;
    FitsIs(MayClear(key, TEXT), fields);
    FitsIs(MayClear(key, NAME), fields);
    FitsIs(Must(key, NAME), fields);
    if key in fields { ShapesAre(fields[key]); }
  }

  lemma NamesFit(key: string, fields: Fields)
    ensures Fits(MayClear(key, NAMES), fields) <==> Cleared(fields, key) || NonBlanks(fields[key])
  {
    if key in fields { NamesAre(fields[key]); }
    hide NAMES, NonBlanks;
  }

  lemma DateFits(key: string, fields: Fields)
    ensures Fits(MayClear(key, LocalDateTime), fields) <==> Cleared(fields, key) || IsDate(fields[key])
  {
    hide Fits, AcceptsSpec, IsDate;
    FitsIs(MayClear(key, LocalDateTime), fields);
    if key in fields { ShapesAre(fields[key]); }
  }

  lemma WordFits(key: string, words: seq<string>, fields: Fields)
    ensures Fits(May(key, EnumStr(words)), fields) <==> (key in fields ==> IsOneOf(fields[key], words))
    ensures Fits(Must(key, EnumStr(words)), fields) <==> key in fields && IsOneOf(fields[key], words)
  {
    assert key in fields ==> (AcceptsSpec(EnumStr(words), fields[key]) <==> IsOneOf(fields[key], words));
    hide Fits, AcceptsSpec, IsOneOf;
    FitsIs(May(key, EnumStr(words)), fields);
    FitsIs(Must(key, EnumStr(words)), fields);
  }

  lemma CountFits(key: string, fields: Fields)
    ensures Fits(MayClear(key, PositiveInt), fields)
            <==> Cleared(fields, key) || (fields[key].Num? && fields[key].num.PosInt? && fields[key].num.n >= 1)
  {
    hide Fits, AcceptsSpec;
    FitsIs(MayClear(key, PositiveInt), fields);
    if key in fields { ShapesAre(fields[key]); }
  }

  lemma CadenceFits(key: string, fields: Fields)
    ensures Fits(MayClear(key, Object(CADENCE)), fields) <==> Cleared(fields, key) || IsCadence(fields[key])
    ensures Fits(Must(key, Object(CADENCE)), fields) <==> key in fields && IsCadence(fields[key])
  {
    if key in fields { CadenceIs(fields[key]); }
    hide CADENCE, IsCadence;
  }

  /** A Person is a name, and perhaps a note and aliases. */
  lemma PersonIs(fields: Fields)
    ensures Accepts(DataSpec(Person), Obj(fields)) <==> IsPersonData(fields)
  {
    var p := DataSpec(Person);
    AcceptsFields(p, fields, ["name", "note", "aliases"]);
    assert p.fields[0] == Must("name", NAME) && p.fields[1] == MayClear("note", TEXT) && p.fields[2] == MayClear("aliases", NAMES);
    hide Accepts, Fits, NonBlank, NonBlanks, NAME, TEXT, NAMES;
    TextFits("name", fields);
    TextFits("note", fields);
    NamesFit("aliases", fields);
  }

  lemma HabitFields()
    ensures var f := DataSpec(Habit).fields;
            && |f| == 5 && f[0] == Must("name", NAME) && f[1] == Must("cadence", Object(CADENCE)) && f[2] == MayClear("target", NAME)
            && f[3] == May("status", EnumStr(["active", "paused", "archived"])) && f[4] == MayClear("note", TEXT)
    ensures var f := DataSpec(Habit).fields;
            f[0].name == "name" && f[1].name == "cadence" && f[2].name == "target" && f[3].name == "status" && f[4].name == "note"
  {
  }

  lemma HabitTable(fields: Fields)
    ensures Accepts(DataSpec(Habit), Obj(fields))
            <==> && (forall k :: k in fields ==> k in ["name", "cadence", "target", "status", "note"])
                 && Fits(Must("name", NAME), fields) && Fits(Must("cadence", Object(CADENCE)), fields) && Fits(MayClear("target", NAME), fields)
                 && Fits(May("status", EnumStr(["active", "paused", "archived"])), fields) && Fits(MayClear("note", TEXT), fields)
  {
    HabitFields();
    var p := DataSpec(Habit);
    hide DataSpec, Must, May, MayClear, Accepts, Fits;
    AcceptsFields(p, fields, ["name", "cadence", "target", "status", "note"]);
  }

  /** A Habit is a name and a cadence, and perhaps a target, a status and a note. */
  lemma HabitIs(fields: Fields)
    ensures Accepts(DataSpec(Habit), Obj(fields)) <==> IsHabitData(fields)
  {
    HabitTable(fields);
    hide Accepts, DataSpec, Fits, NonBlank, IsOneOf, IsCadence, NAME, TEXT, CADENCE;
    TextFits("name", fields);
    CadenceFits("cadence", fields);
    TextFits("target", fields);
    WordFits("status", ["active", "paused", "archived"], fields);
    TextFits("note", fields);
  }

  lemma MediaFields()
    ensures var f := DataSpec(Media).fields;
            && |f| == 8 && f[0] == Must("title", NAME) && f[1] == Must("medium", EnumStr(["link", "article", "book", "tv", "movie"]))
            && f[2] == Must("state", EnumStr(["backlog", "consuming", "done", "abandoned"])) && f[3] == MayClear("rating", PositiveInt)
            && f[4] == MayClear("finished_at", LocalDateTime) && f[5] == MayClear("url", TEXT) && f[6] == MayClear("note", TEXT)
            && f[7] == MayClear("tags", NAMES)
    ensures var f := DataSpec(Media).fields;
            && f[0].name == "title" && f[1].name == "medium" && f[2].name == "state" && f[3].name == "rating"
            && f[4].name == "finished_at" && f[5].name == "url" && f[6].name == "note" && f[7].name == "tags"
  {
  }

  lemma MediaTable(fields: Fields)
    ensures Accepts(DataSpec(Media), Obj(fields))
            <==> && (forall k :: k in fields ==> k in ["title", "medium", "state", "rating", "finished_at", "url", "note", "tags"])
                 && Fits(Must("title", NAME), fields) && Fits(Must("medium", EnumStr(["link", "article", "book", "tv", "movie"])), fields)
                 && Fits(Must("state", EnumStr(["backlog", "consuming", "done", "abandoned"])), fields)
                 && Fits(MayClear("rating", PositiveInt), fields) && Fits(MayClear("finished_at", LocalDateTime), fields)
                 && Fits(MayClear("url", TEXT), fields) && Fits(MayClear("note", TEXT), fields) && Fits(MayClear("tags", NAMES), fields)
  {
    MediaFields();
    var p := DataSpec(Media);
    hide DataSpec, Must, May, MayClear, Accepts, Fits;
    AcceptsFields(p, fields, ["title", "medium", "state", "rating", "finished_at", "url", "note", "tags"]);
  }

  /** Media is a title, a medium and a state, and perhaps a rating, a finish date, a link, a note and tags. */
  lemma MediaIs(fields: Fields)
    ensures Accepts(DataSpec(Media), Obj(fields)) <==> IsMediaData(fields)
  {
    MediaTable(fields);
    hide Accepts, DataSpec, Fits, NonBlank, NonBlanks, IsOneOf, IsDate, NAME, TEXT, NAMES;
    TextFits("title", fields);
    WordFits("medium", ["link", "article", "book", "tv", "movie"], fields);
    WordFits("state", ["backlog", "consuming", "done", "abandoned"], fields);
    CountFits("rating", fields);
    DateFits("finished_at", fields);
    TextFits("url", fields);
    TextFits("note", fields);
    NamesFit("tags", fields);
  }

  lemma ProjectFields()
    ensures var f := DataSpec(Project).fields;
            && |f| == 11 && f[0] == Must("name", NAME) && f[1] == MayClear("outcome", TEXT) && f[2] == MayClear("note", TEXT)
            && f[3] == May("status", EnumStr(["active", "on_hold", "completed", "dropped"]))
            && f[4] == MayClear("defer_at", LocalDateTime) && f[5] == MayClear("due_at", LocalDateTime)
            && f[6] == MayClear("completed_at", LocalDateTime) && f[7] == MayClear("dropped_at", LocalDateTime)
            && f[8] == MayClear("review_every", Object(CADENCE)) && f[9] == MayClear("next_review_at", LocalDateTime)
            && f[10] == MayClear("last_reviewed_at", LocalDateTime)
    ensures var f := DataSpec(Project).fields;
            && f[0].name == "name" && f[1].name == "outcome" && f[2].name == "note" && f[3].name == "status" && f[4].name == "defer_at"
            && f[5].name == "due_at" && f[6].name == "completed_at" && f[7].name == "dropped_at" && f[8].name == "review_every"
            && f[9].name == "next_review_at" && f[10].name == "last_reviewed_at"
  {
  }

  lemma ProjectTable(fields: Fields)
    ensures Accepts(DataSpec(Project), Obj(fields))
            <==> && (forall k :: k in fields ==>
                       k in ["name", "outcome", "note", "status", "defer_at", "due_at", "completed_at", "dropped_at", "review_every",
                             "next_review_at", "last_reviewed_at"])
                 && Fits(Must("name", NAME), fields) && Fits(MayClear("outcome", TEXT), fields) && Fits(MayClear("note", TEXT), fields)
                 && Fits(May("status", EnumStr(["active", "on_hold", "completed", "dropped"])), fields)
                 && Fits(MayClear("defer_at", LocalDateTime), fields) && Fits(MayClear("due_at", LocalDateTime), fields)
                 && Fits(MayClear("completed_at", LocalDateTime), fields) && Fits(MayClear("dropped_at", LocalDateTime), fields)
                 && Fits(MayClear("review_every", Object(CADENCE)), fields)
                 && Fits(MayClear("next_review_at", LocalDateTime), fields) && Fits(MayClear("last_reviewed_at", LocalDateTime), fields)
  {
    ProjectFields();
    var p := DataSpec(Project);
    hide DataSpec, Must, May, MayClear, Accepts, Fits;
    AcceptsFields(p, fields, ["name", "outcome", "note", "status", "defer_at", "due_at", "completed_at", "dropped_at", "review_every",
                              "next_review_at", "last_reviewed_at"]);
  }

  lemma ProjectDates(fields: Fields)
    ensures (forall k :: k in ["defer_at", "due_at", "completed_at", "dropped_at", "next_review_at", "last_reviewed_at"] ==>
               Cleared(fields, k) || IsDate(fields[k]))
            <==> && Fits(MayClear("defer_at", LocalDateTime), fields) && Fits(MayClear("due_at", LocalDateTime), fields)
                 && Fits(MayClear("completed_at", LocalDateTime), fields) && Fits(MayClear("dropped_at", LocalDateTime), fields)
                 && Fits(MayClear("next_review_at", LocalDateTime), fields) && Fits(MayClear("last_reviewed_at", LocalDateTime), fields)
  {
    hide Fits, IsDate;
    DateFits("defer_at", fields);
    DateFits("due_at", fields);
    DateFits("completed_at", fields);
    DateFits("dropped_at", fields);
    DateFits("next_review_at", fields);
    DateFits("last_reviewed_at", fields);
  }

  /** A Project is a name, and perhaps an outcome, a note, a status, six dates and a review cadence. */
  lemma ProjectIs(fields: Fields)
    ensures Accepts(DataSpec(Project), Obj(fields)) <==> IsProjectData(fields)
  {
    ProjectTable(fields);
    ProjectDates(fields);
    hide Accepts, DataSpec, Fits, NonBlank, IsOneOf, IsDate, IsCadence, NAME, TEXT, CADENCE;
    TextFits("name", fields);
    TextFits("outcome", fields);
    TextFits("note", fields);
    WordFits("status", ["active", "on_hold", "completed", "dropped"], fields);
    CadenceFits("review_every", fields);
  }

  // ── the transport keys around them ─────────────────────────────────────

  /** Acceptance by membership: every key is declared and every field fits. */
  lemma {:induction false} AcceptsEach(p: Payload, fields: Fields)
    ensures Accepts(p, Obj(fields)) <==> (forall k :: k in fields ==> exists f :: f in p.fields && f.name == k) && forall f :: f in p.fields ==> Fits(f, fields)
  {
    hide AcceptsField;
    forall k ensures Declares(p, k) <==> exists f :: f in p.fields && f.name == k {
      if Declares(p, k) {
        var i :| 0 <= i < |p.fields| && p.fields[i].name == k;
        assert p.fields[i] in p.fields;
      }
    }
    assert forall i :: 0 <= i < |p.fields| ==> p.fields[i] in p.fields;
  }

  /** A field of another name beside the fields of `q` is asked of the payload, and `q` of what is left. */
  lemma {:induction false} OneMoreField(p: Payload, q: Payload, f: Field, fields: Fields)
    requires (forall g :: g in p.fields <==> g == f || g in q.fields) && forall g :: g in q.fields ==> g.name != f.name
    ensures Accepts(p, Obj(fields)) <==> Fits(f, fields) && Accepts(q, Obj(fields - {f.name}))
  {
    var rest := fields - {f.name};
    AcceptsEach(p, fields);
    AcceptsEach(q, rest);
    assert forall g :: g in q.fields ==> (Fits(g, fields) <==> Fits(g, rest)) by { hide AcceptsField; }
    hide Accepts, Fits;
    assert f in p.fields;
    if Accepts(q, Obj(rest)) {
      forall k | k in fields ensures exists g :: g in p.fields && g.name == k {
        if k != f.name { assert k in rest; }
      }
    }
  }

  /** An update names its target; a create of a Person or Project may name the Journal Entry it came from. Without
      those keys what is left is the type's own data. */
  lemma PayloadIs(t: EntityType, op: WriteOp, fields: Fields)
    ensures Accepts(PayloadSpec(t, op), Obj(fields))
            <==> if op == Update then
                   && "entity_id" in fields && fields["entity_id"].Str? && IsUuid(fields["entity_id"].s)
                   && Accepts(DataSpec(t), Obj(fields - {"entity_id"}))
                 else if t == Person || t == Project then
                   && ("source_journal_entry_id" in fields ==>
                         fields["source_journal_entry_id"].Str? && IsUuid(fields["source_journal_entry_id"].s))
                   && Accepts(DataSpec(t), Obj(fields - {"source_journal_entry_id"}))
                 else Accepts(DataSpec(t), Obj(fields))
  {
    NoTransportInCore(t);
    if op == Update { UpdateIs(t, fields); }
    else if SourceDirective(t) { SourcedIs(t, fields); }
    else { assert PayloadSpec(t, op).fields == DataSpec(t).fields; }
    hide Accepts, IsUuid;
  }

  lemma UpdateIs(t: EntityType, fields: Fields)
    requires forall i :: 0 <= i < |Core(t)| ==> Core(t)[i].name != "entity_id"
    ensures Accepts(PayloadSpec(t, Update), Obj(fields))
            <==> && "entity_id" in fields && fields["entity_id"].Str? && IsUuid(fields["entity_id"].s)
                 && Accepts(DataSpec(t), Obj(fields - {"entity_id"}))
  {
    assert Fits(ENTITY_ID, fields) <==> "entity_id" in fields && fields["entity_id"].Str? && IsUuid(fields["entity_id"].s);
    hide Accepts, IsUuid, Core, Fits;
    OneMoreField(PayloadSpec(t, Update), DataSpec(t), ENTITY_ID, fields);
  }

  lemma SourcedIs(t: EntityType, fields: Fields)
    requires SourceDirective(t) && forall i :: 0 <= i < |Core(t)| ==> Core(t)[i].name != "source_journal_entry_id"
    ensures Accepts(PayloadSpec(t, Create), Obj(fields))
            <==> && ("source_journal_entry_id" in fields ==>
                       fields["source_journal_entry_id"].Str? && IsUuid(fields["source_journal_entry_id"].s))
                 && Accepts(DataSpec(t), Obj(fields - {"source_journal_entry_id"}))
  {
    var key := "source_journal_entry_id";
    assert Fits(SOURCE_DIRECTIVE, fields) <==> (key in fields ==> fields[key].Str? && IsUuid(fields[key].s));
    hide Accepts, IsUuid, Core, Fits;
    OneMoreField(PayloadSpec(t, Create), DataSpec(t), SOURCE_DIRECTIVE, fields);
  }
}
