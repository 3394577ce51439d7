/** What every run of the write protocol keeps, whatever the interleaving. */
module WriteSafety {
  import opened Wrappers
  import opened TickTickStore
  import opened WriteProtocol

  // ── the invariant, one Proposal and one task at a time ─────────────────

  /** An answer agrees with the durable columns; `executing` answers carry the row's own deadline. */
  ghost predicate AnswerOk(proposal: Proposal, answer: Answer) {
    proposal.row.Some? ==>
      match answer
      case AnswerRejected => proposal.status == Rejected
      case AnswerAccepted(write) =>
        if write.WireExecuting?
        then proposal.status == Accepted && proposal.row.value.requestedAt.Some?
             && write.deadlineAt == DeadlineAt(proposal.row.value.requestedAt.value)
        else proposal.row.value.state == Settled && write == WireStateFromRow(proposal.row.value, 0, None)
  }

  /** The columns a decide read may be old, but only in the forward direction. */
  ghost predicate Seen(proposal: Proposal, status: ProposalStatus, key: Option<Key>) {
    proposal.row.Some? && (status != Pending ==> proposal.status == status && proposal.key == key)
  }

  ghost predicate SeenRow(proposal: Proposal, status: ProposalStatus, row: WriteRow) {
    && proposal.row.Some?
    && (row.state != Proposed ==>
          proposal.status == Accepted && row.requestedAt.Some? && proposal.row.value.requestedAt == row.requestedAt)
    && (row.state == Settled ==> proposal.row.value == row)
    && (status == Accepted ==> row.state != Proposed)
  }

  /** What a task at this point may rely on about its Proposal. */
  ghost predicate Fits(proposal: Proposal, at: Point) {
    match at
    case Loaded(request, status, key) => Seen(proposal, status, key)
    case RowLoaded(request, status, key, row) => Seen(proposal, status, key) && SeenRow(proposal, status, row)
    case Fresh(request) => proposal.row.Some?
    case ReadyToPost => proposal.row.Some? && proposal.status == Accepted && proposal.posts == 0
    case AwaitingReply => proposal.row.Some? && proposal.posts == 1 && proposal.reply.None?
    case Settling(outcome, owner) =>
      && proposal.row.Some? && proposal.status == Accepted
      && (if owner == PhaseC then proposal.reply == Some(outcome) else outcome == Unknown(None))
    case Rereading => proposal.row.Some? && proposal.row.value.state == Settled
    case Resuming(answer) => AnswerOk(proposal, answer) && proposal.result.Some? && proposal.row.Some?
    case Flipping(answer) => AnswerOk(proposal, answer) && proposal.result.Some?
    case Answered(answer) => AnswerOk(proposal, answer)
    case ArmedWatchdog(deadline) =>
      && proposal.row.Some? && proposal.row.value.requestedAt.Some?
      && deadline == DeadlineAt(proposal.row.value.requestedAt.value)
    case OtherGate => proposal.row.None? && proposal.result.Some?
    case Impossible => false
  }

  /** Between its accept and its reply, a Proposal's POST belongs to one task. */
  predicate Posting(at: Point) {
    at.ReadyToPost? || at.AwaitingReply?
  }

  /** One step of one task leaves its Proposal consistent and moves it only forward. */
  lemma AdvanceKeepsProposal(proposal: Proposal, at: Point, v: View)
    requires Ready(at, v.now) && (proposal.row.None? ==> at.OtherGate? || at.Flipping?)
    requires Consistent(proposal) && Fits(proposal, at)
    ensures var effect := Advance(proposal, at, v);
            && Consistent(effect.proposal) && Evolves(proposal, effect.proposal)
            && (Posting(at) || (effect.proposal.posts == proposal.posts && effect.proposal.reply == proposal.reply))
  {
  }

  /** The point a step lands on, and the watchdog it may arm, fit the Proposal it leaves behind. */
  lemma AdvanceFits(proposal: Proposal, at: Point, v: View)
    requires Ready(at, v.now) && (proposal.row.None? ==> at.OtherGate? || at.Flipping?)
    requires Consistent(proposal) && Fits(proposal, at)
    ensures var effect := Advance(proposal, at, v);
            && (effect.next.Some? ==> Fits(effect.proposal, effect.next.value))
            && (effect.armed.Some? ==> Fits(effect.proposal, effect.armed.value) && effect.armed.value.ArmedWatchdog?)
            && (effect.next.Some? && Posting(effect.next.value) ==> Posting(at) || proposal.status == Pending)
  {
  }

  /** A task that does not move stays right while its Proposal moves forward under it. */
  lemma FitsStays(a: Proposal, b: Proposal, at: Point)
    requires Consistent(b) && Evolves(a, b) && Fits(a, at)
    requires Posting(at) ==> b.posts == a.posts && b.reply == a.reply
    ensures Fits(b, at)
  {
  }

  // ── the invariant of the whole system ──────────────────────────────────

  ghost predicate ProposalsOk(rows: Rows) {
    forall p :: p in rows.proposals ==> Consistent(rows.proposals[p])
  }

  ghost predicate TaskOk(rows: Rows, task: Task) {
    task.Work? ==> task.p in rows.proposals && Fits(rows.proposals[task.p], task.at)
  }

  ghost predicate TasksOk(s: State) {
    forall t :: t in s.tasks ==> TaskOk(s.rows, s.tasks[t])
  }

  predicate PostsFor(task: Task, p: ProposalId) {
    task.Work? && task.p == p && Posting(task.at)
  }

  ghost predicate OnePoster(s: State) {
    forall t, u :: t in s.tasks && u in s.tasks && t != u && s.tasks[t].Work? && PostsFor(s.tasks[t], s.tasks[t].p)
      ==> !PostsFor(s.tasks[u], s.tasks[t].p)
  }

  predicate Owns(task: Task, p: ProposalId) {
    task.Work? && task.p == p && (task.at.ArmedWatchdog? || (task.at.Settling? && task.at.owner == Watchdog))
  }

  /** A write in flight always has somebody left to settle it: a boot that has not swept it yet, or
      a watchdog. */
  ghost predicate Owned(s: State, p: ProposalId) {
    || s.boot.Down?
    || s.boot.Recovered?
    || (s.boot.SweepExecuting? && p in s.boot.todo)
    || exists t :: t in s.tasks && Owns(s.tasks[t], p)
  }

  ghost predicate WritesOwned(s: State) {
    forall p :: InState(s.rows, p, Executing) ==> Owned(s, p)
  }

  ghost predicate TodoOk(s: State) {
    && (s.boot.SweepExecuting? ==> forall p :: p in s.boot.todo ==> IsFamily(s.rows, p) && s.rows.proposals[p].status == Accepted)
    && (s.boot.SweepParked? ==> forall p :: p in s.boot.todo ==> InState(s.rows, p, Settled))
  }

  /** The part of the invariant that holds on every run, with no condition at all. */
  ghost predicate Core(s: State) {
    ProposalsOk(s.rows) && TasksOk(s) && OnePoster(s) && WritesOwned(s) && TodoOk(s)
  }

  /** Only Proposal `p` may differ between two states, and it moved forward. */
  ghost predicate MovesOnly(a: Rows, b: Rows, p: ProposalId) {
    && p in b.proposals
    && b.proposals == a.proposals[p := b.proposals[p]]
    && (p in a.proposals ==> Evolves(a.proposals[p], b.proposals[p]))
    && Consistent(b.proposals[p])
  }

  ghost predicate SameTask(s: State, s': State, t: TaskId) {
    t in s.tasks && t in s'.tasks && s'.tasks[t] == s.tasks[t]
  }

  /** Tasks other than `t` and `u` are untouched, or gone. */
  ghost predicate TasksMoved(s: State, s': State, t: TaskId, u: TaskId) {
    forall w :: w in s'.tasks && w != t && w != u ==> SameTask(s, s', w)
  }

  /** How a step on one Proposal lifts to the system. */
  lemma LiftTasks(s: State, s': State, p: ProposalId, t: TaskId, u: TaskId)
    requires ProposalsOk(s.rows) && TasksOk(s) && MovesOnly(s.rows, s'.rows, p) && TasksMoved(s, s', t, u)
    requires t in s'.tasks ==> TaskOk(s'.rows, s'.tasks[t])
    requires u in s'.tasks ==> TaskOk(s'.rows, s'.tasks[u])
    requires p in s.rows.proposals ==>
               || (s'.rows.proposals[p].posts == s.rows.proposals[p].posts && s'.rows.proposals[p].reply == s.rows.proposals[p].reply)
               || forall w :: w in s.tasks && w != t && w != u ==> !PostsFor(s.tasks[w], p)
    ensures ProposalsOk(s'.rows) && TasksOk(s')
  {
    forall w | w in s'.tasks && w != t && w != u ensures TaskOk(s'.rows, s'.tasks[w]) {
      assert SameTask(s, s', w) && TaskOk(s.rows, s.tasks[w]);
      if s.tasks[w].Work? && s.tasks[w].p == p {
        FitsStays(s.rows.proposals[p], s'.rows.proposals[p], s.tasks[w].at);
      }
    }
  }

  /** What one step changes: its Proposal, forward, its own task and the watchdog it may arm. */
  lemma StepMoves(s: State, t: TaskId, refused: bool, reply: WriteOutcome, armed: TaskId)
    requires Core(s) && StepEnabled(s, t, armed)
    ensures var p, s' := s.tasks[t].p, ApplyStep(s, t, refused, reply, armed);
            && MovesOnly(s.rows, s'.rows, p) && TasksMoved(s, s', t, armed)
            && (t in s'.tasks ==> TaskOk(s'.rows, s'.tasks[t]))
            && (armed in s'.tasks ==> TaskOk(s'.rows, s'.tasks[armed]))
            && (Posting(s.tasks[t].at)
                || (s'.rows.proposals[p].posts == s.rows.proposals[p].posts && s'.rows.proposals[p].reply == s.rows.proposals[p].reply))
  {
    var p, at := s.tasks[t].p, s.tasks[t].at;
    var v := ViewOf(s, p, RequestKey(at), refused, reply);
    assert TaskOk(s.rows, s.tasks[t]) && Consistent(s.rows.proposals[p]);
    hide Advance, Consistent, Evolves, Fits, OnePoster, WritesOwned, TodoOk;
    AdvanceKeepsProposal(s.rows.proposals[p], at, v);
    AdvanceFits(s.rows.proposals[p], at, v);
  }

  lemma StepTasks(s: State, t: TaskId, refused: bool, reply: WriteOutcome, armed: TaskId)
    requires Core(s) && StepEnabled(s, t, armed)
    ensures var s' := ApplyStep(s, t, refused, reply, armed);
            ProposalsOk(s'.rows) && TasksOk(s') && MovesOnly(s.rows, s'.rows, s.tasks[t].p)
  {
    hide ApplyStep, Consistent, Evolves, Fits, MovesOnly, ProposalsOk, TasksOk, TodoOk, WritesOwned;
    StepMoves(s, t, refused, reply, armed);
    if Posting(s.tasks[t].at) { assert PostsFor(s.tasks[t], s.tasks[t].p); }
    LiftTasks(s, ApplyStep(s, t, refused, reply, armed), s.tasks[t].p, t, armed);
  }

  lemma StepOnePoster(s: State, t: TaskId, refused: bool, reply: WriteOutcome, armed: TaskId)
    requires Core(s) && StepEnabled(s, t, armed)
    ensures OnePoster(ApplyStep(s, t, refused, reply, armed))
  {
    var p, at := s.tasks[t].p, s.tasks[t].at;
    assert TaskOk(s.rows, s.tasks[t]) && Consistent(s.rows.proposals[p]);
    AdvanceFits(s.rows.proposals[p], at, ViewOf(s, p, RequestKey(at), refused, reply));
    hide Advance, Consistent, WritesOwned, TodoOk;
    if s.rows.proposals[p].status == Pending {
      // nobody posts for a Proposal that is not accepted
      forall u | u in s.tasks ensures !PostsFor(s.tasks[u], p) {
        assert TaskOk(s.rows, s.tasks[u]);
      }
    }
  }

  /** If a write is in flight after a step, then the step armed its watchdog, or the write was in
      flight before and a watchdog that moved still means to settle it. */
  lemma AdvanceOwns(proposal: Proposal, at: Point, v: View)
    requires Ready(at, v.now) && proposal.row.Some? && Consistent(proposal) && Fits(proposal, at)
    requires var effect := Advance(proposal, at, v); effect.proposal.row.value.state == Executing
    ensures var effect := Advance(proposal, at, v);
            || effect.armed.Some?
            || (&& proposal.row.value.state == Executing
                && (at.ArmedWatchdog? ==> effect.next == Some(Settling(Unknown(None), Watchdog)))
                && !at.Settling?)
  {
  }

  lemma StepOwned(s: State, t: TaskId, refused: bool, reply: WriteOutcome, armed: TaskId)
    requires Core(s) && StepEnabled(s, t, armed)
    ensures WritesOwned(ApplyStep(s, t, refused, reply, armed))
  {
    var s' := ApplyStep(s, t, refused, reply, armed);
    var p, at := s.tasks[t].p, s.tasks[t].at;
    var v := ViewOf(s, p, RequestKey(at), refused, reply);
    assert TaskOk(s.rows, s.tasks[t]) && Consistent(s.rows.proposals[p]);
    forall q | InState(s'.rows, q, Executing) ensures Owned(s', q) {
      if q == p {
        AdvanceFits(s.rows.proposals[p], at, v);
        AdvanceOwns(s.rows.proposals[p], at, v);
      }
      if q != p || Advance(s.rows.proposals[p], at, v).armed.None? {
        assert InState(s.rows, q, Executing);
        if !(s.boot.Down? || s.boot.Recovered? || (s.boot.SweepExecuting? && q in s.boot.todo)) {
          var w :| w in s.tasks && Owns(s.tasks[w], q);
          assert w in s'.tasks && Owns(s'.tasks[w], q);
        }
      } else {
        assert armed in s'.tasks && Owns(s'.tasks[armed], q);
      }
    }
  }

  lemma StepCore(s: State, t: TaskId, refused: bool, reply: WriteOutcome, armed: TaskId)
    requires Core(s) && StepEnabled(s, t, armed)
    ensures Core(ApplyStep(s, t, refused, reply, armed))
  {
    StepTasks(s, t, refused, reply, armed);
    StepOnePoster(s, t, refused, reply, armed);
    StepOwned(s, t, refused, reply, armed);
  }

  // ── the other events ───────────────────────────────────────────────────

  /** Events that leave every Proposal alone and only drop, or add harmless, tasks. */
  lemma QuietCore(s: State, s': State)
    requires Core(s) && s'.rows.proposals == s.rows.proposals && s'.boot == s.boot
    requires forall t :: t in s'.tasks ==> SameTask(s, s', t) || (TaskOk(s'.rows, s'.tasks[t]) && (s'.tasks[t].Work? ==> !Posting(s'.tasks[t].at)))
    requires forall t :: t in s.tasks && !Mortal(s.tasks[t]) ==> SameTask(s, s', t)
    ensures Core(s')
  {
    forall p | InState(s'.rows, p, Executing) ensures Owned(s', p) {
      assert InState(s.rows, p, Executing);
      if !(s.boot.Down? || s.boot.Recovered? || (s.boot.SweepExecuting? && p in s.boot.todo)) {
        var w :| w in s.tasks && Owns(s.tasks[w], p);
        assert SameTask(s, s', w);
      }
    }
  }

  /** A Proposal appears or moves without any task posting for it or owning it. */
  lemma DecidedCore(s: State, s': State, p: ProposalId, t: TaskId)
    requires Core(s) && MovesOnly(s.rows, s'.rows, p) && s'.boot == s.boot
    requires p in s.rows.proposals ==> s'.rows.proposals[p].posts == s.rows.proposals[p].posts && s'.rows.proposals[p].reply == s.rows.proposals[p].reply
    requires !InState(s'.rows, p, Executing)
    requires s.boot.SweepExecuting? && p in s.boot.todo ==> IsFamily(s'.rows, p) && s'.rows.proposals[p].status == Accepted
    requires TasksMoved(s, s', t, t)
    requires forall w :: w in s.tasks && w != t ==> SameTask(s, s', w)
    requires t in s.tasks ==> Mortal(s.tasks[t])
    requires t in s'.tasks ==> TaskOk(s'.rows, s'.tasks[t]) && (s'.tasks[t].Work? ==> !Posting(s'.tasks[t].at))
    ensures Core(s')
  {
    LiftTasks(s, s', p, t, t);
    forall q | InState(s'.rows, q, Executing) ensures Owned(s', q) {
      assert InState(s.rows, q, Executing);
      if !(s.boot.Down? || s.boot.Recovered? || (s.boot.SweepExecuting? && q in s.boot.todo)) {
        var w :| w in s.tasks && Owns(s.tasks[w], q);
        assert SameTask(s, s', w);
      }
    }
  }

  /** The parked cancel withdraws the pending Proposal it found. */
  lemma WithdrawCore(s: State, t: TaskId, p: ProposalId)
    requires Core(s) && Enabled(s, CancelStep(t, Some(p))) && s.tasks[t].stage == TryPending && RunIs(s.rows, s.tasks[t].r, Parked)
    ensures Core(ApplyCancel(s, t, Some(p)))
  {
    assert Consistent(s.rows.proposals[p]);
    DecidedCore(s, ApplyCancel(s, t, Some(p)), p, t);
    hide Core;
  }

  lemma CancelCore(s: State, t: TaskId, pending: Option<ProposalId>)
    requires Core(s) && Enabled(s, CancelStep(t, pending))
    ensures Core(ApplyCancel(s, t, pending))
  {
    hide Core, Consistent;
    if s.tasks[t].stage == TryPending && pending.Some? && RunIs(s.rows, s.tasks[t].r, Parked) {
      WithdrawCore(s, t, pending.value);
    } else {
      QuietCore(s, ApplyCancel(s, t, pending));
    }
  }

  lemma ParkCore(s: State, r: RunId, p: ProposalId, fp: Option<string>)
    requires Core(s) && Enabled(s, Park(r, p, fp))
    ensures Core(Apply(s, Park(r, p, fp)))
  {
    var s' := Apply(s, Park(r, p, fp));
    if RunIs(s.rows, r, Running) { DecidedParked(s, s', p); } else { QuietCore(s, s'); }
  }

  lemma OtherDecideCore(s: State, p: ProposalId, accept: bool, key: Option<Key>, answers: bool, t: TaskId)
    requires Core(s) && Enabled(s, OtherDecide(p, accept, key, answers, t))
    ensures Core(Apply(s, OtherDecide(p, accept, key, answers, t)))
  {
    var s' := Apply(s, OtherDecide(p, accept, key, answers, t));
    assert Consistent(s.rows.proposals[p]);
    if s.rows.proposals[p].status == Pending && !KeyTaken(s.rows, p, key) {
      DecidedCore(s, s', p, t);
    } else {
      QuietCore(s, s');
    }
  }

  lemma RunCore(s: State, e: Event)
    requires Core(s) && Enabled(s, e)
    requires e.StartRun? || e.Finish? || e.Retry? || e.Tick?
    ensures Core(Apply(s, e))
  {
    QuietCore(s, Apply(s, e));
  }

  /** A finite set of ids leaves one unused. */
  lemma {:induction false} FreshId(used: set<nat>) returns (unused: nat)
    ensures unused !in used && forall n :: n in used ==> n < unused
  {
    if used == {} { return 0; }
    var n :| n in used;
    var above := FreshId(used - {n});
    unused := if n < above then above else n + 1;
    assert forall m :: m in used ==> m == n || m in used - {n};
  }

  /** Parking inserts a fresh pending Proposal; no task knows it yet. */
  lemma DecidedParked(s: State, s': State, p: ProposalId)
    requires Core(s) && p !in s.rows.proposals && MovesOnly(s.rows, s'.rows, p)
    requires s'.tasks == s.tasks && s'.boot == s.boot && !InState(s'.rows, p, Executing)
    ensures Core(s')
  {
    var t := FreshId(s.tasks.Keys);
    DecidedCore(s, s', p, t);
  }

  lemma BootCore(s: State, e: Event)
    requires Core(s) && Enabled(s, e)
    requires e.Crash? || e.Recover? || e.SweepList? || e.SweepListParked? || e.SweepDone?
    ensures Core(Apply(s, e))
  {
    var s' := Apply(s, e);
    if e.SweepListParked? {
      forall p | InState(s'.rows, p, Executing) ensures Owned(s', p) {
        var w :| w in s.tasks && Owns(s.tasks[w], p);
        assert w in s'.tasks && Owns(s'.tasks[w], p);
      }
    } else if e.SweepDone? {
      forall p | InState(s'.rows, p, Executing) ensures Owned(s', p) {
        var w :| w in s.tasks && Owns(s.tasks[w], p);
        assert w in s'.tasks && Owns(s'.tasks[w], p);
      }
    }
  }

  /** The sweep settles `unknown`, whatever it finds, and its answer is the durable row's. */
  lemma SweepSettles(proposal: Proposal, now: int)
    requires Consistent(proposal) && proposal.row.Some? && proposal.status == Accepted
    ensures var settled := SettleWrite(proposal, Unknown(None)).0;
            && Consistent(settled) && Evolves(proposal, settled) && settled.row.value.state == Settled
            && settled.posts == proposal.posts && settled.reply == proposal.reply
            && Fits(settled, Resuming(AnswerAccepted(WireStateFromRow(settled.row.value, now, None))))
  {
  }

  lemma SweepOwned(s: State, s': State, p: ProposalId, t: TaskId)
    requires Core(s) && MovesOnly(s.rows, s'.rows, p) && !InState(s'.rows, p, Executing)
    requires t !in s.tasks && forall w :: w in s.tasks ==> SameTask(s, s', w)
    requires s.boot.SweepExecuting? && s'.boot == SweepExecuting(s.boot.todo - {p})
    ensures WritesOwned(s')
  {
    forall q | InState(s'.rows, q, Executing) ensures Owned(s', q) {
      assert InState(s.rows, q, Executing);
      if q !in s.boot.todo {
        var w :| w in s.tasks && Owns(s.tasks[w], q);
        assert SameTask(s, s', w);
      }
    }
  }

  lemma SweepSettleCore(s: State, p: ProposalId, t: TaskId)
    requires Core(s) && Enabled(s, SweepSettle(p, t))
    ensures Core(Apply(s, SweepSettle(p, t)))
  {
    var s' := Apply(s, SweepSettle(p, t));
    assert Consistent(s.rows.proposals[p]);
    SweepSettles(s.rows.proposals[p], s.now);
    LiftTasks(s, s', p, t, t);
    SweepOwned(s, s', p, t);
  }

  lemma SweepResumeCore(s: State, p: ProposalId, t: TaskId)
    requires Core(s) && Enabled(s, SweepResume(p, t))
    ensures Core(Apply(s, SweepResume(p, t)))
  {
    var s' := Apply(s, SweepResume(p, t));
    assert InState(s.rows, p, Settled) && Consistent(s.rows.proposals[p]);
    assert s'.rows == s.rows;
    forall q | InState(s'.rows, q, Executing) ensures Owned(s', q) {
      var w :| w in s.tasks && Owns(s.tasks[w], q);
      assert SameTask(s, s', w);
    }
  }

  lemma TaskCore(s: State, e: Event)
    requires Core(s) && Enabled(s, e) && (e.Decide? || e.TaskDies? || e.CancelBegin?)
    ensures Core(Apply(s, e))
  {
    if e.Decide? { assert Consistent(s.rows.proposals[e.p]); }
    QuietCore(s, Apply(s, e));
  }

  /** Every event keeps the core invariant. */
  lemma EventCore(s: State, e: Event)
    requires Core(s) && Enabled(s, e)
    ensures Core(Apply(s, e))
  {
    hide Core;
    match e {
      case Step(t, refused, reply, armed) => StepCore(s, t, refused, reply, armed);
      case CancelStep(t, pending) => CancelCore(s, t, pending);
      case SweepSettle(p, t) => SweepSettleCore(s, p, t);
      case SweepResume(p, t) => SweepResumeCore(s, p, t);
      case Decide(p, request, t) => TaskCore(s, e);
      case TaskDies(t) => TaskCore(s, e);
      case CancelBegin(r, t) => TaskCore(s, e);
      case Park(r, p, fp) => ParkCore(s, r, p, fp);
      case OtherDecide(p, accept, key, answers, t) => OtherDecideCore(s, p, accept, key, answers, t);
      case Crash => BootCore(s, e);
      case Recover => BootCore(s, e);
      case SweepList => BootCore(s, e);
      case SweepListParked => BootCore(s, e);
      case SweepDone => BootCore(s, e);
      case _ => RunCore(s, e);
    }
  }
}
