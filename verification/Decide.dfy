/** Deciding one single-entity Proposal: any number of concurrent decides, keyed replays and recoveries,
    while other mutations create, update, reference and delete entities around it. */
module Decide {
  import opened Wrappers
  import opened Json

  type EntityId = string
  type ProposalId = nat
  type TaskId = nat
  type Key = nat

  datatype EntityType = JournalEntry | Person | Project | Other

  datatype WriteOp = Create | Update | Delete

  /** A mutation kind as the decide path sees it. Creates have no target key; the reference weave is an
      update of a Journal Entry named by `source_entity_id`. */
  datatype Kind = Kind(op: WriteOp, etype: EntityType, targetKey: Option<string>)

  predicate KindOk(kind: Kind) {
    (kind.op == Create <==> kind.targetKey.None?)
  }

  /** People and Projects can be referenced from Journal Entries. */
  predicate Referenceable(etype: EntityType) {
    etype == Person || etype == Project
  }

  /** An entity row with the Proposals that created or revised it, and when last. */
  datatype Entity = Entity(etype: EntityType, marks: map<ProposalId, int>)

  datatype Status = Pending | Accepted | Rejected | Withdrawn

  datatype Decision = Accept | Reject | Edit

  datatype Failure = LostRace | NotDecidable | Invalid | Internal

  datatype Outcome = AcceptedAs(id: EntityId) | Declined | Failed(why: Failure)

  // ── payloads ───────────────────────────────────────────────────────────

  function TargetId(kind: Kind, payload: Value): Option<EntityId> {
    match kind.targetKey
    case None => None
    case Some(key) => AsStr(Get(payload, key))
  }

  /** `preserve_update_target_entity_id`: an edit keeps the proposed target, or is refused. */
  function PreserveTarget(kind: Kind, proposed: Value, edited: Value): Option<Value> {
    match kind.targetKey
    case None => Some(edited)
    case Some(key) =>
      match TargetId(kind, proposed)
      case None => None
      case Some(target) =>
        match TargetId(kind, edited)
        case Some(other) => if other == target then Some(edited) else None
        case None =>
          match edited
          case Obj(fields) => Some(Obj(fields[key := Str(target)]))
          case _ => Some(edited)
  }

  /** What a decide applies: the edit, its target preserved, or the proposed payload. */
  function AppliedPayload(kind: Kind, proposed: Value, decision: Decision, edited: Option<Value>): Option<Value> {
    if decision != Edit then Some(proposed)
    else match edited
      case None => None
      case Some(payload) => PreserveTarget(kind, proposed, payload)
  }

  ghost predicate SameBut(a: map<string, Value>, b: map<string, Value>, key: Option<string>) {
    forall k :: Some(k) != key ==> (k in a <==> k in b) && (k in b ==> a[k] == b[k])
  }

  predicate NamesAnotherTarget(kind: Kind, proposed: Value, edited: Value) {
    && kind.op != Create
    && (TargetId(kind, proposed).None? || (TargetId(kind, edited).Some? && TargetId(kind, edited) != TargetId(kind, proposed)))
  }

  /** An edit cannot change the target: whatever reaches apply as an object, which the validator demands,
      targets what was proposed; every other member of the edit arrives as written; and an edit is refused
      exactly when there is no proposed target or it names another one. */
  lemma EditKeepsTarget(kind: Kind, proposed: Value, edited: Value)
    requires KindOk(kind)
    ensures var applied := PreserveTarget(kind, proposed, edited);
            && (applied.Some? && applied.value.Obj? ==> TargetId(kind, applied.value) == TargetId(kind, proposed))
            && (applied.Some? && edited.Obj? ==> applied.value.Obj? && SameBut(applied.value.fields, edited.fields, kind.targetKey))
            && (applied.None? <==> NamesAnotherTarget(kind, proposed, edited))
  {
  }

  // ── the system ─────────────────────────────────────────────────────────

  /** What a caller sent: `edited` comes with an edit. */
  datatype Request = Request(decision: Decision, edited: Option<Value>, key: Option<Key>)

  /** How an answer came about: by the apply transaction, from the record, or without either. */
  datatype Way = Fresh | Replayed | Refused

  /** Where a decide stands; it carries what was sent, and the status and key it loaded. */
  datatype Task =
    | Loaded(request: Request, status: Status, recorded: Option<Key>)
    | AtPrior(request: Request, status: Status)
    | AtFresh(request: Request)
    | Answered(request: Request, outcome: Outcome, way: Way)

  /** A mutation this Proposal committed: where it landed, and with which payload. */
  datatype Committed = Committed(entity: EntityId, payload: Value)

  /** The Proposal being decided; `kind` and `payload` never change. */
  datatype Subject = Subject(id: ProposalId, kind: Kind, payload: Value)

  /** `used` remembers every id ever minted, and `applied` every mutation this Proposal committed. */
  datatype State = State(
    status: Status,
    key: Option<Key>,
    parked: bool,
    entities: map<EntityId, Entity>,
    refs: set<(EntityId, EntityId)>,
    used: set<EntityId>,
    tasks: map<TaskId, Task>,
    applied: seq<Committed>)

  datatype Event =
    | Load(t: TaskId, request: Request)
    | Branch(t: TaskId)
    | Prior(t: TaskId, found: Option<EntityId>)
    | Apply(t: TaskId, valid: bool, fault: bool, minted: EntityId, now: int)
    // everybody else
    | OtherCreate(e: EntityId, etype: EntityType, q: ProposalId, now: int)
    | OtherUpdate(e: EntityId, q: ProposalId, now: int)
    | OtherDelete(e: EntityId, q: ProposalId, now: int)
    | OtherReference(journal: EntityId, target: EntityId)
    | RunMoves(parked: bool)
    | Withdraw

  function Mark(entity: Entity, q: ProposalId, now: int): Entity {
    entity.(marks := entity.marks[q := now])
  }

  /** Deleting a referenceable entity turns the references to it into text: each Journal Entry that held
      one gets a revision. The entity's rows and references go with it. */
  function DeleteEntity(entities: map<EntityId, Entity>, refs: set<(EntityId, EntityId)>, e: EntityId, q: ProposalId, now: int)
    : map<EntityId, Entity>
    requires e in entities
  {
    map f | f in entities && f != e ::
      if Referenceable(entities[e].etype) && (f, e) in refs && entities[f].etype == JournalEntry then Mark(entities[f], q, now) else entities[f]
  }

  function RefsWithout(refs: set<(EntityId, EntityId)>, e: EntityId): set<(EntityId, EntityId)> {
    set r | r in refs && r.0 != e && r.1 != e
  }

  predicate Marked(s: State, p: ProposalId, e: EntityId) {
    e in s.entities && p in s.entities[e].marks
  }

  /** The lookup's order: a Journal Entry first, then the newest; among equals any may come out. */
  predicate Preferred(s: State, p: ProposalId, e: EntityId, f: EntityId)
    requires Marked(s, p, e) && Marked(s, p, f)
  {
    var a, b := s.entities[e], s.entities[f];
    if (a.etype == JournalEntry) != (b.etype == JournalEntry) then a.etype == JournalEntry
    else b.marks[p] <= a.marks[p]
  }

  /** What `entity_id_for_proposal` may return. */
  ghost predicate Finds(s: State, p: ProposalId, found: Option<EntityId>) {
    match found
    case None => forall e :: !Marked(s, p, e)
    case Some(e) => Marked(s, p, e) && forall f :: Marked(s, p, f) ==> Preferred(s, p, e, f)
  }

  /** Its order in columns: no Journal Entry is passed over for another kind, and no newer row for an older one. */
  lemma LookupPrefers(s: State, p: ProposalId, e: EntityId, f: EntityId)
    requires Finds(s, p, Some(e)) && f in s.entities && p in s.entities[f].marks
    ensures e in s.entities && p in s.entities[e].marks
    ensures s.entities[f].etype == JournalEntry ==> s.entities[e].etype == JournalEntry
    ensures (s.entities[e].etype == JournalEntry <==> s.entities[f].etype == JournalEntry) ==>
              s.entities[f].marks[p] <= s.entities[e].marks[p]
  {
    assert Marked(s, p, f);
  }

  ghost predicate Enabled(x: Subject, s: State, e: Event) {
    match e
    case Load(t, _) => t !in s.tasks
    case Branch(t) => t in s.tasks && s.tasks[t].Loaded?
    case Prior(t, found) => t in s.tasks && s.tasks[t].AtPrior? && Finds(s, x.id, found)
    case Apply(t, valid, fault, minted, now) =>
      t in s.tasks && s.tasks[t].AtFresh? && minted !in s.used
      && (valid && s.tasks[t].request.decision != Reject ==>
            var applied := AppliedPayload(x.kind, x.payload, s.tasks[t].request.decision, s.tasks[t].request.edited);
            applied.Some? && applied.value.Obj?)
    case OtherCreate(e, _, q, _) => e !in s.used && q != x.id
    case OtherUpdate(e, q, _) => e in s.entities && q != x.id
    case OtherDelete(e, q, _) => e in s.entities && q != x.id
    case OtherReference(_, _) => true
    case RunMoves(_) => true
    case Withdraw => s.status == Pending
  }

  function Answer(s: State, t: TaskId, outcome: Outcome, way: Way): State
    requires t in s.tasks
  {
    s.(tasks := s.tasks[t := Answered(s.tasks[t].request, outcome, way)])
  }

  /** Replay of the recorded key, recovery of a decided Proposal while the Run is parked, or the fresh path. */
  function ApplyBranch(s: State, t: TaskId): State
    requires t in s.tasks && s.tasks[t].Loaded?
  {
    var task := s.tasks[t];
    if task.recorded.Some? && task.request.key == task.recorded then s.(tasks := s.tasks[t := AtPrior(task.request, task.status)])
    else if task.status != Pending then
      if (task.status == Accepted || task.status == Rejected) && s.parked then s.(tasks := s.tasks[t := AtPrior(task.request, task.status)])
      else Answer(s, t, Failed(NotDecidable), Refused)
    else if s.parked then s.(tasks := s.tasks[t := AtFresh(task.request)])
    else Answer(s, t, Failed(NotDecidable), Refused)
  }

  /** `prior_outcome`. */
  function PriorOutcome(x: Subject, status: Status, found: Option<EntityId>): Outcome {
    match status
    case Rejected => Declined
    case Accepted =>
      (match found
       case Some(e) => AcceptedAs(e)
       case None =>
         match TargetId(x.kind, x.payload)
         case Some(target) => AcceptedAs(target)
         case None => Failed(Internal))
    case _ => Failed(Internal)
  }

  /** The accept transaction: flip, mutation and resolve together, or nothing. */
  function Commit(x: Subject, s: State, t: TaskId, payload: Value, minted: EntityId, now: int): State
    requires t in s.tasks
  {
    var target := TargetId(x.kind, payload);
    if s.status != Pending then Answer(s, t, Failed(LostRace), Fresh)
    else match x.kind.op
      case Create =>
        Landed(s.(entities := s.entities[minted := Entity(x.kind.etype, map[x.id := now])], used := s.used + {minted}), t, minted, payload)
      case Update =>
        if target.None? then Answer(s, t, Failed(Invalid), Fresh)
        else if target.value !in s.entities || s.entities[target.value].etype != x.kind.etype then Answer(s, t, Failed(NotDecidable), Fresh)
        else Landed(s.(entities := s.entities[target.value := Mark(s.entities[target.value], x.id, now)]), t, target.value, payload)
      case Delete =>
        if target.None? then Answer(s, t, Failed(Invalid), Fresh)
        else if target.value !in s.entities || s.entities[target.value].etype != x.kind.etype then Answer(s, t, Failed(NotDecidable), Fresh)
        else Landed(s.(entities := DeleteEntity(s.entities, s.refs, target.value, x.id, now), refs := RefsWithout(s.refs, target.value)),
                    t, target.value, payload)
  }

  function Landed(s: State, t: TaskId, e: EntityId, payload: Value): State
    requires t in s.tasks
  {
    Answer(s.(status := Accepted, key := s.tasks[t].request.key, applied := s.applied + [Committed(e, payload)]), t, AcceptedAs(e), Fresh)
  }

  function ApplyFresh(x: Subject, s: State, e: Event): State
    requires e.Apply? && e.t in s.tasks && s.tasks[e.t].AtFresh?
  {
    var request := s.tasks[e.t].request;
    if request.decision == Reject then
      if e.fault then Answer(s, e.t, Failed(Internal), Fresh)
      else if s.status != Pending then Answer(s, e.t, Failed(LostRace), Fresh)
      else Answer(s.(status := Rejected, key := request.key), e.t, Declined, Fresh)
    else
      var applied := AppliedPayload(x.kind, x.payload, request.decision, request.edited);
      if applied.None? || !e.valid then Answer(s, e.t, Failed(Invalid), Fresh)
      else if e.fault then Answer(s, e.t, Failed(Internal), Fresh)
      else Commit(x, s, e.t, applied.value, e.minted, e.now)
  }

  ghost function Step(x: Subject, s: State, e: Event): State
    requires Enabled(x, s, e)
  {
    match e
    case Load(t, request) => s.(tasks := s.tasks[t := Loaded(request, s.status, s.key)])
    case Branch(t) => ApplyBranch(s, t)
    case Prior(t, found) => Answer(s, t, PriorOutcome(x, s.tasks[t].status, found), Replayed)
    case Apply(_, _, _, _, _) => ApplyFresh(x, s, e)
    case OtherCreate(f, etype, q, now) => s.(entities := s.entities[f := Entity(etype, map[q := now])], used := s.used + {f})
    case OtherUpdate(f, q, now) => s.(entities := s.entities[f := Mark(s.entities[f], q, now)])
    case OtherDelete(f, q, now) => s.(entities := DeleteEntity(s.entities, s.refs, f, q, now), refs := RefsWithout(s.refs, f))
    case OtherReference(journal, target) => s.(refs := s.refs + {(journal, target)})
    case RunMoves(parked) => s.(parked := parked)
    case Withdraw => s.(status := Withdrawn)
  }

  /** A fresh Proposal over any entities it has not touched. */
  ghost predicate Initial(x: Subject, s: State) {
    && KindOk(x.kind) && s.status == Pending && s.key == None && s.tasks == map[] && s.applied == []
    && s.entities.Keys <= s.used && forall e :: !Marked(s, x.id, e)
  }

  ghost predicate Reaches(x: Subject, from: State, events: seq<Event>, s: State)
    decreases |events|
  {
    if events == [] then s == from
    else Enabled(x, from, events[0]) && Reaches(x, Step(x, from, events[0]), events[1..], s)
  }

  // ── the invariant ──────────────────────────────────────────────────────

  /** What the Proposal left in the store. */
  ghost predicate StoreOk(x: Subject, s: State) {
    if s.status != Accepted then s.applied == [] && forall f :: !Marked(s, x.id, f)
    else
      && |s.applied| == 1 && s.applied[0].entity in s.used && s.applied[0].payload.Obj?
      && (x.kind.op != Create ==> TargetId(x.kind, x.payload) == Some(s.applied[0].entity))
      && (forall f :: Marked(s, x.id, f) ==> if x.kind.op == Delete then s.entities[f].etype == JournalEntry else f == s.applied[0].entity)
      && (if x.kind.op == Delete then s.applied[0].entity !in s.entities
          else s.applied[0].entity in s.entities ==> Marked(s, x.id, s.applied[0].entity))
  }

  /** A caller told that the Proposal was accepted was told the entity it landed on; after a delete, maybe
      a Journal Entry instead. What the apply transaction answered is what its caller had decided. */
  ghost predicate TaskOk(x: Subject, s: State, task: Task) {
    match task
    case Loaded(_, status, recorded) => (status != Pending ==> s.status == status) && (recorded.Some? ==> status == Accepted || status == Rejected)
    case AtPrior(_, status) => s.status == status && (status == Accepted || status == Rejected)
    case AtFresh(_) => true
    case Answered(request, outcome, way) =>
      match outcome
      case AcceptedAs(e) =>
        && s.status == Accepted && |s.applied| == 1 && (x.kind.op != Delete || way.Fresh? ==> e == s.applied[0].entity)
        && (way.Fresh? ==> request.decision != Reject && s.key == request.key
                           && AppliedPayload(x.kind, x.payload, request.decision, request.edited) == Some(s.applied[0].payload))
      case Declined => s.status == Rejected && (way.Fresh? ==> request.decision == Reject && s.key == request.key)
      case Failed(_) => true
  }

  /** The task whose transaction decided the Proposal. */
  predicate Decider(s: State, t: TaskId) {
    && t in s.tasks && s.tasks[t].Answered? && s.tasks[t].way.Fresh?
    && (s.status == Accepted ==> s.tasks[t].outcome.AcceptedAs?) && (s.status == Rejected ==> s.tasks[t].outcome.Declined?)
  }

  ghost predicate Inv(x: Subject, s: State) {
    && KindOk(x.kind) && s.entities.Keys <= s.used && StoreOk(x, s)
    && (s.key.Some? ==> s.status == Accepted || s.status == Rejected)
    && (forall t :: t in s.tasks ==> TaskOk(x, s, s.tasks[t]))
    && (s.status == Accepted || s.status == Rejected ==> exists t :: Decider(s, t))
  }

  lemma DeleteMarks(s: State, e: EntityId, q: ProposalId, now: int, p: ProposalId, f: EntityId)
    requires e in s.entities
    ensures var s' := s.(entities := DeleteEntity(s.entities, s.refs, e, q, now), refs := RefsWithout(s.refs, e));
            && (f in s'.entities <==> f in s.entities && f != e)
            && (f in s'.entities ==> s'.entities[f].etype == s.entities[f].etype)
            && (p != q ==> (Marked(s', p, f) <==> Marked(s, p, f) && f != e))
            && (Marked(s', q, f) ==> Marked(s, q, f) || (s.entities[f].etype == JournalEntry && Referenceable(s.entities[e].etype) && (f, e) in s.refs))
  {
  }

  lemma OthersKeepStore(x: Subject, s: State, e: Event)
    requires Inv(x, s) && Enabled(x, s, e) && !e.Apply?
    ensures StoreOk(x, Step(x, s, e)) && Step(x, s, e).entities.Keys <= Step(x, s, e).used
  {
    var s' := Step(x, s, e);
    if e.OtherDelete? {
      forall f ensures Marked(s', x.id, f) <==> Marked(s, x.id, f) && f != e.e {
        DeleteMarks(s, e.e, e.q, e.now, x.id, f);
      }
    } else {
      forall f ensures Marked(s', x.id, f) <==> Marked(s, x.id, f) {
      }
    }
  }

  lemma ApplyKeepsStore(x: Subject, s: State, e: Event)
    requires Inv(x, s) && Enabled(x, s, e) && e.Apply?
    ensures StoreOk(x, Step(x, s, e)) && Step(x, s, e).entities.Keys <= Step(x, s, e).used
  {
    var s' := Step(x, s, e);
    var task := s.tasks[e.t];
    if s'.status == Accepted && s.status == Pending {
      var applied := AppliedPayload(x.kind, x.payload, task.request.decision, task.request.edited).value;
      if task.request.decision == Edit { EditKeepsTarget(x.kind, x.payload, task.request.edited.value); }
      assert TargetId(x.kind, applied) == TargetId(x.kind, x.payload);
      if x.kind.op == Delete {
        var target := TargetId(x.kind, applied).value;
        forall f ensures Marked(s', x.id, f) ==> s'.entities[f].etype == JournalEntry {
          assert !Marked(s, x.id, f);
          DeleteMarks(s, target, x.id, e.now, x.id, f);
        }
      } else {
        forall f ensures Marked(s', x.id, f) ==> f == s'.applied[0].entity {
          assert !Marked(s, x.id, f);
        }
      }
    } else {
      forall f ensures Marked(s', x.id, f) <==> Marked(s, x.id, f) {
      }
    }
  }

  lemma StatusIsFinal(x: Subject, s: State, e: Event)
    requires Inv(x, s) && Enabled(x, s, e)
    ensures s.status != Pending ==> Step(x, s, e).status == s.status && Step(x, s, e).key == s.key && Step(x, s, e).applied == s.applied
    ensures Step(x, s, e).key.Some? ==> Step(x, s, e).status == Accepted || Step(x, s, e).status == Rejected
  {
  }

  lemma TaskStands(x: Subject, s: State, s': State, task: Task)
    requires TaskOk(x, s, task) && (s.status != Pending ==> s'.status == s.status && s'.applied == s.applied && s'.key == s.key)
    ensures TaskOk(x, s', task)
  {
  }

  /** The task that moved. */
  lemma MoverIsOk(x: Subject, s: State, e: Event)
    requires Inv(x, s) && Enabled(x, s, e) && (e.Load? || e.Branch? || e.Prior?)
    ensures TaskOk(x, Step(x, s, e), Step(x, s, e).tasks[e.t])
  {
  }

  lemma ApplierIsOk(x: Subject, s: State, e: Event)
    requires Inv(x, s) && Enabled(x, s, e) && e.Apply?
    ensures TaskOk(x, Step(x, s, e), Step(x, s, e).tasks[e.t])
  {
    assert s.status == Pending ==> s.applied == [];
    hide StoreOk, Marked, TargetId, AppliedPayload, DeleteEntity, RefsWithout, Mark;
  }

  lemma TasksKeep(x: Subject, s: State, e: Event)
    requires Inv(x, s) && Enabled(x, s, e)
    ensures forall t :: t in Step(x, s, e).tasks ==> TaskOk(x, Step(x, s, e), Step(x, s, e).tasks[t])
  {
    var s' := Step(x, s, e);
    StatusIsFinal(x, s, e);
    if e.Apply? { ApplierIsOk(x, s, e); } else if e.Load? || e.Branch? || e.Prior? { MoverIsOk(x, s, e); }
    hide TaskOk, StoreOk;
    forall t | t in s.tasks && t in s'.tasks && s'.tasks[t] == s.tasks[t] ensures TaskOk(x, s', s'.tasks[t]) {
      TaskStands(x, s, s', s.tasks[t]);
    }
  }

  lemma DeciderStays(x: Subject, s: State, e: Event)
    requires Inv(x, s) && Enabled(x, s, e)
    ensures var s' := Step(x, s, e); s'.status == Accepted || s'.status == Rejected ==> exists t :: Decider(s', t)
  {
    var s' := Step(x, s, e);
    StatusIsFinal(x, s, e);
    if s.status == Accepted || s.status == Rejected {
      var t :| Decider(s, t);
      assert Decider(s', t);
    } else if s'.status == Accepted || s'.status == Rejected {
      assert Decider(s', e.t);
    }
  }

  lemma {:induction false} InvOnEveryRun(x: Subject, from: State, events: seq<Event>, s: State)
    requires Inv(x, from) && Reaches(x, from, events, s)
    ensures Inv(x, s)
    decreases |events|
  {
    if events != [] {
      var e := events[0];
      if e.Apply? { ApplyKeepsStore(x, from, e); } else { OthersKeepStore(x, from, e); }
      StatusIsFinal(x, from, e);
      TasksKeep(x, from, e);
      DeciderStays(x, from, e);
      InvOnEveryRun(x, Step(x, from, e), events[1..], s);
    }
  }

  ghost predicate Reachable(x: Subject, events: seq<Event>, s: State) {
    exists start :: Initial(x, start) && Reaches(x, start, events, s)
  }

  lemma ReachableInv(x: Subject, events: seq<Event>, s: State)
    requires Reachable(x, events, s)
    ensures Inv(x, s)
  {
    var start :| Initial(x, start) && Reaches(x, start, events, s);
    InvOnEveryRun(x, start, events, s);
  }

  // ── the promises ───────────────────────────────────────────────────────

  /** Over any run of concurrent decides the mutation commits at most once, and exactly once when the
      Proposal is accepted; an update or delete committed on the proposed target, edited or not. */
  lemma AppliedAtMostOnce(x: Subject, events: seq<Event>, s: State)
    requires Reachable(x, events, s)
    ensures |s.applied| == if s.status == Accepted then 1 else 0
    ensures s.applied != [] && x.kind.op != Create ==> TargetId(x.kind, x.payload) == Some(s.applied[0].entity)
  {
    ReachableInv(x, events, s);
  }

  /** No two callers are told different things: an accepted answer names the entity the one commit landed on,
      whether it came from that commit, a keyed replay or a recovery, and whatever decision or payload the
      caller sent; a declined answer means rejected. Deletes are the exception below. */
  lemma AnswersAgree(x: Subject, events: seq<Event>, s: State, t: TaskId, u: TaskId)
    requires Reachable(x, events, s) && t in s.tasks && u in s.tasks && s.tasks[t].Answered? && s.tasks[u].Answered?
    ensures s.tasks[t].outcome.AcceptedAs? && x.kind.op != Delete ==> |s.applied| == 1 && s.applied[0].entity == s.tasks[t].outcome.id
    ensures s.tasks[t].outcome.AcceptedAs? && s.tasks[u].outcome.AcceptedAs? && x.kind.op != Delete ==>
              s.tasks[t].outcome == s.tasks[u].outcome
    ensures !(s.tasks[t].outcome.AcceptedAs? && s.tasks[u].outcome.Declined?)
  {
    ReachableInv(x, events, s);
    assert TaskOk(x, s, s.tasks[t]) && TaskOk(x, s, s.tasks[u]);
  }

  /** When a replay of an accepted Proposal gives back the id the first decide returned. An update: always,
      its entity deleted or not. A create: exactly while the entity exists; afterwards the replay is an
      internal error. A delete: exactly when no Journal Entry still carries the revision in which the
      deleted entity's reference became text; otherwise the replay names that Journal Entry. */
  lemma ReplayReturnsTheFirstIdIff(x: Subject, events: seq<Event>, s: State, t: TaskId, found: Option<EntityId>)
    requires Reachable(x, events, s) && Enabled(x, s, Prior(t, found)) && s.status == Accepted
    ensures var outcome := Step(x, s, Prior(t, found)).tasks[t].outcome;
            && |s.applied| == 1
            && (x.kind.op == Update ==> outcome == AcceptedAs(s.applied[0].entity))
            && (x.kind.op == Create ==> outcome == if s.applied[0].entity in s.entities then AcceptedAs(s.applied[0].entity) else Failed(Internal))
            && (x.kind.op == Delete ==> (outcome == AcceptedAs(s.applied[0].entity) <==> forall f :: !Marked(s, x.id, f)))
            && (x.kind.op == Delete && found.Some? ==> outcome == AcceptedAs(found.value) && s.entities[found.value].etype == JournalEntry)
  {
    ReachableInv(x, events, s);
    assert TaskOk(x, s, s.tasks[t]);
  }

  /** A rejected Proposal replays as rejected. */
  lemma ReplayOfARejection(x: Subject, events: seq<Event>, s: State, t: TaskId, found: Option<EntityId>)
    requires Reachable(x, events, s) && Enabled(x, s, Prior(t, found)) && s.status == Rejected
    ensures Step(x, s, Prior(t, found)).tasks[t].outcome == Declined
  {
    ReachableInv(x, events, s);
    assert TaskOk(x, s, s.tasks[t]);
  }

  // ── what was decided is what happens ───────────────────────────────────

  lemma RequestStays(x: Subject, s: State, e: Event, t: TaskId)
    requires Enabled(x, s, e) && t in Step(x, s, e).tasks
    ensures var request := Step(x, s, e).tasks[t].request; e == Load(t, request) || (t in s.tasks && s.tasks[t].request == request)
  {
    hide DeleteEntity, RefsWithout;
  }

  lemma {:induction false} RequestsStay(x: Subject, from: State, events: seq<Event>, s: State, t: TaskId)
    requires Reaches(x, from, events, s) && t in s.tasks
    ensures (t in from.tasks && s.tasks[t].request == from.tasks[t].request)
            || exists i :: 0 <= i < |events| && events[i] == Load(t, s.tasks[t].request)
    decreases |events|
  {
    if events != [] {
      var next := Step(x, from, events[0]);
      RequestsStay(x, next, events[1..], s, t);
      if i :| 0 <= i < |events[1..]| && events[1..][i] == Load(t, s.tasks[t].request) {
        assert events[i + 1] == Load(t, s.tasks[t].request);
      } else {
        RequestStays(x, from, events[0], t);
      }
      hide Step, Enabled, Reaches;
    }
  }

  /** What a request that is not a rejection asks to be applied: the proposed payload for an accept; for an edit
      the edited one, member by member, on the proposed target. */
  ghost predicate AsksFor(x: Subject, request: Request, payload: Value) {
    && payload.Obj?
    && (request.decision == Accept ==> payload == x.payload)
    && (request.decision == Edit ==>
          && request.edited.Some? && request.edited.value.Obj?
          && SameBut(payload.fields, request.edited.value.fields, x.kind.targetKey)
          && TargetId(x.kind, payload) == TargetId(x.kind, x.payload))
  }

  /** An answer of the apply transaction is the caller's own decision: it declines only a caller that sent a
      rejection, and accepts only one that sent an accept or an edit, having committed what that asked for. */
  lemma AnswersFollowTheDecision(x: Subject, events: seq<Event>, s: State, t: TaskId)
    requires Reachable(x, events, s) && t in s.tasks && s.tasks[t].Answered? && s.tasks[t].way.Fresh?
    ensures var request, outcome := s.tasks[t].request, s.tasks[t].outcome;
            && (exists i :: 0 <= i < |events| && events[i] == Load(t, request))
            && (outcome.Declined? ==> request.decision == Reject && s.status == Rejected && s.key == request.key)
            && (outcome.AcceptedAs? ==>
                  && request.decision != Reject && s.status == Accepted && s.key == request.key
                  && |s.applied| == 1 && s.applied[0].entity == outcome.id && AsksFor(x, request, s.applied[0].payload))
  {
    var start :| Initial(x, start) && Reaches(x, start, events, s);
    RequestsStay(x, start, events, s, t);
    ReachableInv(x, events, s);
    assert TaskOk(x, s, s.tasks[t]);
    if s.tasks[t].outcome.AcceptedAs? && s.tasks[t].request.decision == Edit {
      EditKeepsTarget(x.kind, x.payload, s.tasks[t].request.edited.value);
    }
  }

  /** A decided Proposal was decided by one of its callers: a rejection was sent, or what stands applied was. */
  lemma SomebodyDecided(x: Subject, events: seq<Event>, s: State) returns (t: TaskId, request: Request)
    requires Reachable(x, events, s) && (s.status == Accepted || s.status == Rejected)
    ensures exists i :: 0 <= i < |events| && events[i] == Load(t, request)
    ensures s.key == request.key && (s.status == Rejected <==> request.decision == Reject)
    ensures s.status == Accepted ==> |s.applied| == 1 && AsksFor(x, request, s.applied[0].payload)
  {
    ReachableInv(x, events, s);
    t :| Decider(s, t);
    request := s.tasks[t].request;
    assert TaskOk(x, s, s.tasks[t]);
    AnswersFollowTheDecision(x, events, s, t);
  }

  predicate TargetExists(x: Subject, s: State) {
    var target := TargetId(x.kind, x.payload);
    target.Some? && target.value in s.entities && s.entities[target.value].etype == x.kind.etype
  }

  /** What one apply transaction answers, for every decision and every state it can find. */
  lemma ApplyAnswers(x: Subject, s: State, e: Event)
    requires KindOk(x.kind) && Enabled(x, s, e) && e.Apply?
    ensures var request, s' := s.tasks[e.t].request, Step(x, s, e);
            var outcome := s'.tasks[e.t].outcome;
            var reject := request.decision == Reject;
            var usable := e.valid && (request.decision == Edit ==> request.edited.Some? && !NamesAnotherTarget(x.kind, x.payload, request.edited.value));
            var pending, found := s.status == Pending, x.kind.op == Create || TargetExists(x, s);
            && s'.tasks == s.tasks[e.t := Answered(request, outcome, Fresh)]
            && (outcome == Declined <==> reject && !e.fault && pending)
            && (outcome.AcceptedAs? <==> !reject && usable && !e.fault && pending && found)
            && (outcome == Failed(LostRace) <==> (reject || usable) && !e.fault && !pending)
            && (outcome == Failed(Internal) <==> (reject || usable) && e.fault)
            && (outcome == Failed(NotDecidable) <==>
                  !reject && usable && !e.fault && pending && !found && TargetId(x.kind, x.payload).Some?)
            && s'.status == (if outcome == Declined then Rejected else if outcome.AcceptedAs? then Accepted else s.status)
            && s'.key == (if outcome == Declined || outcome.AcceptedAs? then request.key else s.key)
            && (!outcome.AcceptedAs? ==> s'.entities == s.entities && s'.refs == s.refs && s'.used == s.used && s'.applied == s.applied)
  {
    if s.tasks[e.t].request.decision == Edit && s.tasks[e.t].request.edited.Some? {
      EditKeepsTarget(x.kind, x.payload, s.tasks[e.t].request.edited.value);
    }
  }

  /** Where an accept lands. A create adds one entity under an unused id; an update revises its target; a delete
      removes its target and the references to and from it, and revises exactly the Journal Entries whose
      reference to a Person or Project became text. Nothing else is touched. */
  lemma AcceptLands(x: Subject, s: State, e: Event, id: EntityId)
    requires KindOk(x.kind) && Enabled(x, s, e) && e.Apply? && s.entities.Keys <= s.used
    requires Step(x, s, e).tasks[e.t].outcome == AcceptedAs(id)
    ensures var s' := Step(x, s, e);
            && s'.parked == s.parked
            && (x.kind.op == Create ==>
                  id == e.minted && id !in s.entities && s'.refs == s.refs
                  && s'.entities == s.entities[id := Entity(x.kind.etype, map[x.id := e.now])])
            && (x.kind.op != Create ==> TargetId(x.kind, x.payload) == Some(id) && id in s.entities && s.entities[id].etype == x.kind.etype)
            && (x.kind.op == Update ==>
                  id in s.entities && s'.refs == s.refs
                  && s'.entities == s.entities[id := Entity(x.kind.etype, s.entities[id].marks[x.id := e.now])])
            && (x.kind.op == Delete ==>
                  && (forall r :: r in s'.refs <==> r in s.refs && r.0 != id && r.1 != id)
                  && (forall f :: f in s'.entities <==> f in s.entities && f != id)
                  && (forall f :: f in s'.entities ==>
                        s'.entities[f] ==
                          if s.entities[f].etype == JournalEntry && (f, id) in s.refs && (x.kind.etype == Person || x.kind.etype == Project)
                          then Entity(JournalEntry, s.entities[f].marks[x.id := e.now]) else s.entities[f]))
  {
    var request := s.tasks[e.t].request;
    if request.decision == Edit && request.edited.Some? { EditKeepsTarget(x.kind, x.payload, request.edited.value); }
  }

  /** What everybody else does around the Proposal: other mutations create, revise, reference and delete entities, a
      delete in the same way as an accepted one, the Run moves, and a cancel withdraws a pending Proposal. None of it
      answers a decide, applies anything, or touches a decision. */
  lemma OthersWrite(x: Subject, s: State, e: Event)
    requires Enabled(x, s, e) && !e.Load? && !e.Branch? && !e.Prior? && !e.Apply?
    ensures var s' := Step(x, s, e);
            && s'.tasks == s.tasks && s'.applied == s.applied && s'.key == s.key
            && s'.status == (if e.Withdraw? then Withdrawn else s.status) && (e.Withdraw? ==> s.status == Pending)
            && s'.parked == (if e.RunMoves? then e.parked else s.parked)
            && s'.refs == (if e.OtherReference? then s.refs + {(e.journal, e.target)}
                           else if e.OtherDelete? then set r | r in s.refs && r.0 != e.e && r.1 != e.e else s.refs)
            && (e.OtherCreate? ==> s'.entities == s.entities[e.e := Entity(e.etype, map[e.q := e.now])])
            && (e.OtherUpdate? ==> s'.entities == s.entities[e.e := Entity(s.entities[e.e].etype, s.entities[e.e].marks[e.q := e.now])])
            && (e.OtherDelete? ==>
                  forall f :: (f in s'.entities <==> f in s.entities && f != e.e)
                              && (f in s'.entities ==>
                                    s'.entities[f] ==
                                      if s.entities[f].etype == JournalEntry && (f, e.e) in s.refs
                                         && (s.entities[e.e].etype == Person || s.entities[e.e].etype == Project)
                                      then Entity(JournalEntry, s.entities[f].marks[e.q := e.now]) else s.entities[f]))
            && (!e.OtherCreate? && !e.OtherUpdate? && !e.OtherDelete? ==> s'.entities == s.entities)
  {
  }

  /** Which way a decide takes, from the columns it loaded and the Run's parked status: a repeat under the
      recorded key is answered from the record whatever the Run does, a decided Proposal while its Run is parked,
      and only a pending one whose Run is parked is applied. */
  lemma BranchTakes(x: Subject, s: State, t: TaskId)
    requires Enabled(x, s, Branch(t))
    ensures var before, s' := s.tasks[t], Step(x, s, Branch(t));
            var after := s'.tasks[t];
            var repeated := before.recorded.Some? && before.request.key == before.recorded;
            && s' == s.(tasks := s.tasks[t := after]) && after.request == before.request
            && (after.AtFresh? <==> before.status == Pending && s.parked && !repeated)
            && (after.AtPrior? <==> repeated || ((before.status == Accepted || before.status == Rejected) && s.parked))
            && (after.AtPrior? ==> after.status == before.status)
            && (after.AtFresh? || after.AtPrior? || after == Answered(before.request, Failed(NotDecidable), Refused))
  {
  }

  /** A repeat of a decided Proposal under its key never reaches apply, and is answered as it was decided. */
  lemma RepeatIsAnswered(x: Subject, events: seq<Event>, s: State, t: TaskId, request: Request, found: Option<EntityId>)
    requires Reachable(x, events, s) && t !in s.tasks && request.key.Some? && request.key == s.key && Finds(s, x.id, found)
    ensures var loaded := Step(x, s, Load(t, request));
            var branched := Step(x, loaded, Branch(t));
            && Enabled(x, branched, Prior(t, found))
            && Step(x, branched, Prior(t, found)) == s.(tasks := s.tasks[t := Step(x, branched, Prior(t, found)).tasks[t]])
            && (s.status == Rejected <==> Step(x, branched, Prior(t, found)).tasks[t] == Answered(request, Declined, Replayed))
  {
    ReachableInv(x, events, s);
    var branched := Step(x, Step(x, s, Load(t, request)), Branch(t));
    assert branched.tasks[t] == AtPrior(request, s.status);
    assert forall e :: Marked(branched, x.id, e) <==> Marked(s, x.id, e);
  }

  // ── a delete that replays as somebody else ─────────────────────────────

  const DELETE_PERSON := Subject(7, Kind(Delete, Person, Some("entity_id")), Obj(map["entity_id" := Str("ada")]))

  const REFERENCED := State(Pending, None, true, map["ada" := Entity(Person, map[]), "monday" := Entity(JournalEntry, map[])],
                            {("monday", "ada")}, {"ada", "monday"}, map[], [])

  const FIRST_REQUEST := Request(Accept, None, Some(1))

  /** What the delete leaves: the Journal Entry, revised by Proposal 7. */
  const DELETED := State(Accepted, Some(1), true, map["monday" := Entity(JournalEntry, map[7 := 5])],
                         {}, {"ada", "monday"}, map[0 := Answered(FIRST_REQUEST, AcceptedAs("ada"), Fresh)], [Committed("ada", DELETE_PERSON.payload)])

  const FIRST_DECIDE := [Load(0, FIRST_REQUEST), Branch(0), Apply(0, true, false, "new", 5)]
  const SAME_AGAIN := [Load(1, FIRST_REQUEST), Branch(1), Prior(1, Some("monday"))]

  /** The decide is about to apply. */
  const DECIDING := REFERENCED.(tasks := map[0 := AtFresh(FIRST_REQUEST)])

  lemma AdaIsGone()
    ensures DeleteEntity(DECIDING.entities, DECIDING.refs, "ada", 7, 5) == DELETED.entities
    ensures RefsWithout(DECIDING.refs, "ada") == DELETED.refs
  {
  }

  lemma DeleteLands()
    ensures Enabled(DELETE_PERSON, DECIDING, FIRST_DECIDE[2]) && Step(DELETE_PERSON, DECIDING, FIRST_DECIDE[2]) == DELETED
  {
    AdaIsGone();
    hide DeleteEntity, RefsWithout;
    assert Step(DELETE_PERSON, DECIDING, FIRST_DECIDE[2]).tasks == DELETED.tasks;
  }

  lemma FirstDecideDeletes()
    ensures Reaches(DELETE_PERSON, REFERENCED, FIRST_DECIDE, DELETED)
  {
    var x, e := DELETE_PERSON, FIRST_DECIDE;
    var s1 := Step(x, REFERENCED, e[0]);
    var s2 := Step(x, s1, e[1]);
    assert s2.tasks == DECIDING.tasks;
    DeleteLands();
    hide Step, Enabled, DELETED;
    assert e[1..][1..] == [e[2]] && e[1..][1..][1..] == [];
    assert Reaches(x, DELETED, [], DELETED);
    assert Reaches(x, s2, e[1..][1..], DELETED);
    assert Reaches(x, s1, e[1..], DELETED);
  }

  lemma SameAgainNamesTheJournal() returns (s: State)
    ensures Reaches(DELETE_PERSON, DELETED, SAME_AGAIN, s)
    ensures s == DELETED.(tasks := DELETED.tasks[1 := Answered(FIRST_REQUEST, AcceptedAs("monday"), Replayed)])
  {
    var x, e := DELETE_PERSON, SAME_AGAIN;
    var s1 := Step(x, DELETED, e[0]);
    var s2 := Step(x, s1, e[1]);
    assert s2.tasks[1] == AtPrior(FIRST_REQUEST, Accepted);
    assert Marked(s2, 7, "monday") && forall f :: Marked(s2, 7, f) ==> f == "monday";
    assert Finds(s2, 7, Some("monday"));
    s := Step(x, s2, e[2]);
    assert s.tasks == DELETED.tasks[1 := Answered(FIRST_REQUEST, AcceptedAs("monday"), Replayed)];
    assert e[1..][1..] == [e[2]] && e[1..][1..][1..] == [];
    assert Reaches(x, s, [], s);
    assert Reaches(x, s2, e[1..][1..], s);
    assert Reaches(x, s1, e[1..], s);
  }

  lemma {:induction false} ReachesMore(x: Subject, from: State, first: seq<Event>, mid: State, more: seq<Event>, s: State)
    requires Reaches(x, from, first, mid) && Reaches(x, mid, more, s)
    ensures Reaches(x, from, first + more, s)
    decreases |first|
  {
    if first == [] {
      assert first + more == more;
    } else {
      ReachesMore(x, Step(x, from, first[0]), first[1..], mid, more, s);
      assert (first + more)[1..] == first[1..] + more;
    }
  }

  /** A Person referenced from a Journal Entry is deleted under key 1, and answered as the Person. The same
      decide sent again under the same key is answered as the Journal Entry. */
  lemma DeleteReplaysTheJournalEntry() returns (s: State)
    ensures Reachable(DELETE_PERSON, FIRST_DECIDE + SAME_AGAIN, s)
    ensures 0 in s.tasks && s.tasks[0] == Answered(FIRST_REQUEST, AcceptedAs("ada"), Fresh)
    ensures 1 in s.tasks && s.tasks[1] == Answered(FIRST_REQUEST, AcceptedAs("monday"), Replayed)
  {
    FirstDecideDeletes();
    s := SameAgainNamesTheJournal();
    ReachesMore(DELETE_PERSON, REFERENCED, FIRST_DECIDE, DELETED, SAME_AGAIN, s);
    assert Initial(DELETE_PERSON, REFERENCED);
  }
}
