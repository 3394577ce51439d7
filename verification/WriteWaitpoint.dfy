/** The waitpoint: a tool call the user still owes an answer to, or whose POST is still in flight,
    keeps its Run parked on exactly that call. Cancel is safe under the lifecycle slot; resume is
    safe exactly as long as no flip arrives late. */
module WriteWaitpoint {
  import opened Wrappers
  import opened TickTickStore
  import opened WriteProtocol
  import opened WriteSafety
  import opened WriteTheorems

  /** The awaited call is unresolved: undecided, or accepted with its write in flight. */
  ghost predicate Unresolved(rows: Rows, p: ProposalId) {
    p in rows.proposals && (rows.proposals[p].status == Pending || InState(rows, p, Executing))
  }

  ghost predicate Waits(rows: Rows) {
    forall p :: Unresolved(rows, p) ==> ParkedOn(rows, rows.proposals[p].run, p)
  }

  /** The Run is parked on one of its own calls that is not resolved. */
  ghost predicate AwaitsUnresolved(rows: Rows, r: RunId) {
    RunIs(rows, r, Parked) && rows.runs[r].awaiting.Some?
    && Unresolved(rows, rows.runs[r].awaiting.value) && rows.proposals[rows.runs[r].awaiting.value].run == r
  }

  // ── cancel holds the lifecycle slot ────────────────────────────────────

  /** What a cancel may rely on at each stage: nothing else flips, parks or finishes its Run. */
  ghost predicate StageOk(rows: Rows, r: RunId, stage: CancelStage) {
    match stage
    case ReadStatus => true
    case TryPending => RunIs(rows, r, Parked)
    case ReadWrite => RunIs(rows, r, Parked) && NothingPending(rows, r)
    case SettledCas => RunIs(rows, r, Parked) && WriteStateForRun(rows, r) == Some(Settled)
    case CancelLive => RunIs(rows, r, Running)
  }

  ghost predicate CancelOk(s: State, t: TaskId) {
    t in s.tasks && s.tasks[t].Cancelling? ==>
      && s.tasks[t].r in s.lifecycle && s.lifecycle[s.tasks[t].r] == t
      && StageOk(s.rows, s.tasks[t].r, s.tasks[t].stage)
  }

  ghost predicate Locks(s: State) {
    && (forall t :: t in s.tasks ==> CancelOk(s, t))
    && (!s.boot.Serving? ==> s.lifecycle == map[])
  }

  /** A Run whose slot is held keeps its status and waitpoint, and gains no pending Proposal. */
  ghost predicate HeldRunsStay(s: State, s': State) {
    && (forall r :: r in s.lifecycle && r in s.rows.runs ==> r in s'.rows.runs && s'.rows.runs[r] == s.rows.runs[r])
    && (forall r, p :: r in s.lifecycle && IsPendingOf(s'.rows, r, p) ==> IsPendingOf(s.rows, r, p))
    && (forall p :: InState(s.rows, p, Settled) ==> InState(s'.rows, p, Settled))
  }

  lemma StageStays(s: State, s': State, r: RunId, stage: CancelStage)
    requires HeldRunsStay(s, s') && r in s.lifecycle && StageOk(s.rows, r, stage)
    ensures StageOk(s'.rows, r, stage)
  {
    StageOfKept(s.rows, s'.rows, r, stage);
  }

  lemma SettledStays(s: State, e: Event, p: ProposalId)
    requires Core(s) && Enabled(s, e) && InState(s.rows, p, Settled)
    ensures InState(Apply(s, e).rows, p, Settled)
  {
    hide Apply, Enabled, Core;
    EventEvolves(s, e, p);
  }

  lemma OthersLeaveHeldRuns(s: State, e: Event)
    requires Core(s) && Locks(s) && Enabled(s, e) && !e.Step? && !e.CancelStep?
    ensures HeldRunsStay(s, Apply(s, e))
  {
    forall p | InState(s.rows, p, Settled) ensures InState(Apply(s, e).rows, p, Settled) {
      SettledStays(s, e, p);
    }
    hide Core, InState, Evolves, Consistent, ApplyStep, ApplyCancel;
  }

  /** A step touches no Run but, in a flip, its Proposal's own. */
  lemma StepRuns(s: State, t: TaskId, refused: bool, reply: WriteOutcome, armed: TaskId)
    requires Core(s) && StepEnabled(s, t, armed)
    ensures var s' := ApplyStep(s, t, refused, reply, armed);
            && s'.lifecycle == s.lifecycle && s'.boot == s.boot
            && (if s.tasks[t].at.Flipping?
                then forall r :: r in s.rows.runs && r != s.rows.proposals[s.tasks[t].p].run ==>
                       r in s'.rows.runs && s'.rows.runs[r] == s.rows.runs[r]
                else s'.rows.runs == s.rows.runs)
  {
    var p, at := s.tasks[t].p, s.tasks[t].at;
    assert TaskOk(s.rows, s.tasks[t]) && Consistent(s.rows.proposals[p]);
    AdvanceResolves(s.rows.proposals[p], at, ViewOf(s, p, RequestKey(at), refused, reply));
    AdvanceKeepsProposal(s.rows.proposals[p], at, ViewOf(s, p, RequestKey(at), refused, reply));
    hide Advance, Consistent, Fits, Core;
  }

  lemma StepsLeaveHeldRuns(s: State, t: TaskId, refused: bool, reply: WriteOutcome, armed: TaskId)
    requires Core(s) && StepEnabled(s, t, armed)
    ensures HeldRunsStay(s, ApplyStep(s, t, refused, reply, armed))
  {
    StepRuns(s, t, refused, reply, armed);
    StepTasks(s, t, refused, reply, armed);
    hide ApplyStep, MovesOnly, HeldRunsStay, Core, ProposalsOk, TasksOk;
    MoveLeavesHeldRuns(s, ApplyStep(s, t, refused, reply, armed), s.tasks[t].p);
  }

  lemma MoveLeavesHeldRuns(s: State, s': State, p: ProposalId)
    requires p in s.rows.proposals && MovesOnly(s.rows, s'.rows, p)
    requires forall r :: r in s.lifecycle && r in s.rows.runs ==> r in s'.rows.runs && s'.rows.runs[r] == s.rows.runs[r]
    ensures HeldRunsStay(s, s')
  {
    hide Consistent;
  }

  lemma OthersKeepLocks(s: State, e: Event)
    requires Core(s) && Locks(s) && Enabled(s, e) && !e.Step? && !e.CancelStep?
    ensures Locks(Apply(s, e))
  {
    var s' := Apply(s, e);
    OthersLeaveHeldRuns(s, e);
    forall t | t in s'.tasks ensures CancelOk(s', t) {
      if t in s.tasks && s.tasks[t].Cancelling? {
        assert CancelOk(s, t);
        StageStays(s, s', s.tasks[t].r, s.tasks[t].stage);
        if e.TaskDies? && e.t in s.tasks { assert CancelOk(s, e.t); }
      }
    }
  }

  lemma StepsKeepLocks(s: State, t: TaskId, refused: bool, reply: WriteOutcome, armed: TaskId)
    requires Core(s) && Locks(s) && StepEnabled(s, t, armed)
    ensures Locks(ApplyStep(s, t, refused, reply, armed))
  {
    var s' := ApplyStep(s, t, refused, reply, armed);
    StepsLeaveHeldRuns(s, t, refused, reply, armed);
    forall u | u in s'.tasks ensures CancelOk(s', u) {
      if u in s.tasks && s.tasks[u].Cancelling? {
        assert CancelOk(s, u);
        StageStays(s, s', s.tasks[u].r, s.tasks[u].stage);
      }
    }
  }

  /** What a cancel step leaves alone, and that its own next stage may rely on what it needs. */
  lemma CancelTouches(s: State, t: TaskId, pending: Option<ProposalId>)
    requires Enabled(s, CancelStep(t, pending)) && StageOk(s.rows, s.tasks[t].r, s.tasks[t].stage)
    ensures var r, s' := s.tasks[t].r, ApplyCancel(s, t, pending);
            && (forall q :: q != r && q in s.rows.runs ==> q in s'.rows.runs && s'.rows.runs[q] == s.rows.runs[q])
            && (forall q, p :: q != r && IsPendingOf(s'.rows, q, p) ==> IsPendingOf(s.rows, q, p))
            && (forall p :: InState(s.rows, p, Settled) ==> InState(s'.rows, p, Settled))
            && s'.boot == s.boot && t in s'.tasks && s'.tasks == s.tasks[t := s'.tasks[t]]
            && (if s'.tasks[t].Cancelling?
                then s'.lifecycle == s.lifecycle && s'.tasks[t].r == r && StageOk(s'.rows, r, s'.tasks[t].stage)
                else s'.lifecycle == s.lifecycle - {r})
  {
  }

  /** A stage stays right while its Run does. */
  lemma StageOfKept(rows: Rows, rows': Rows, r: RunId, stage: CancelStage)
    requires r in rows.runs ==> r in rows'.runs && rows'.runs[r] == rows.runs[r]
    requires forall p :: IsPendingOf(rows', r, p) ==> IsPendingOf(rows, r, p)
    requires forall p :: InState(rows, p, Settled) ==> InState(rows', p, Settled)
    requires StageOk(rows, r, stage)
    ensures StageOk(rows', r, stage)
  {
    if stage == SettledCas { assert InState(rows, rows.runs[r].awaiting.value, Settled); }
  }

  lemma CancelKeepsLocks(s: State, t: TaskId, pending: Option<ProposalId>)
    requires Core(s) && Locks(s) && Enabled(s, CancelStep(t, pending))
    ensures Locks(ApplyCancel(s, t, pending))
  {
    var s' := ApplyCancel(s, t, pending);
    assert CancelOk(s, t);
    CancelTouches(s, t, pending);
    hide ApplyCancel, StageOk, IsPendingOf, InState, Core;
    forall u | u in s'.tasks ensures CancelOk(s', u) {
      if u != t && s.tasks[u].Cancelling? {
        assert CancelOk(s, u);
        assert s.tasks[u].r != s.tasks[t].r;
        StageOfKept(s.rows, s'.rows, s.tasks[u].r, s.tasks[u].stage);
      }
    }
  }

  lemma EventLocks(s: State, e: Event)
    requires Core(s) && Locks(s) && Enabled(s, e)
    ensures Locks(Apply(s, e))
  {
    match e {
      case Step(t, refused, reply, armed) => StepsKeepLocks(s, t, refused, reply, armed);
      case CancelStep(t, pending) => CancelKeepsLocks(s, t, pending);
      case _ => OthersKeepLocks(s, e);
    }
  }

  /** One step of a cancel, under the slot. */
  lemma CancelStepTells(s: State, t: TaskId, pending: Option<ProposalId>)
    requires Core(s) && Locks(s) && Enabled(s, CancelStep(t, pending))
    ensures var r, s' := s.tasks[t].r, ApplyCancel(s, t, pending);
            s'.tasks[t].CancelDone? ==>
              && s'.tasks[t].r == r
              && (s'.tasks[t].reply == CancelAccepted <==> RunIs(s'.rows, r, Cancelled) && !RunIs(s.rows, r, Cancelled))
              && (s'.tasks[t].reply != CancelAccepted ==> s'.rows == s.rows)
              && (s'.tasks[t].reply == UnknownRun <==> r !in s.rows.runs)
              && (s'.tasks[t].reply == WriteInFlight <==>
                    RunIs(s.rows, r, Parked) && WriteStateForRun(s.rows, r) == Some(Executing) && NothingPending(s.rows, r))
              && (s'.tasks[t].reply == AlreadyTerminal ==>
                    || RunIs(s.rows, r, Completed) || RunIs(s.rows, r, Errored) || RunIs(s.rows, r, Cancelled)
                    || (RunIs(s.rows, r, Parked) && NothingPending(s.rows, r)
                        && WriteStateForRun(s.rows, r) != Some(Executing) && WriteStateForRun(s.rows, r) != Some(Settled)))
    ensures s.tasks[t].stage == SettledCas ==> ApplyCancel(s, t, pending).tasks[t] == CancelDone(s.tasks[t].r, CancelAccepted)
  {
    assert CancelOk(s, t);
  }

  // ── the waitpoint, event by event ──────────────────────────────────────

  /** The only step that can break the waitpoint: a flip, whose guard is the Run's status alone. */
  ghost predicate Flips(s: State, e: Event) {
    e.Step? && e.t in s.tasks && s.tasks[e.t].Work? && s.tasks[e.t].at.Flipping?
  }

  /** A flip that finds its Run parked on an unresolved call is late. */
  ghost predicate LateFlip(s: State, e: Event) {
    && Flips(s, e) && s.tasks[e.t].p in s.rows.proposals
    && AwaitsUnresolved(s.rows, s.rows.proposals[s.tasks[e.t].p].run)
  }

  lemma OthersKeepWaits(s: State, e: Event)
    requires Core(s) && Locks(s) && Waits(s.rows) && Enabled(s, e) && !e.Step? && !e.CancelStep? && !e.SweepSettle?
    ensures Waits(Apply(s, e).rows)
  {
    var rows := Apply(s, e).rows;
    forall p | Unresolved(rows, p) ensures ParkedOn(rows, rows.proposals[p].run, p) {
      if p in s.rows.proposals { assert Unresolved(s.rows, p); }
    }
  }

  lemma SweepKeepsWaits(s: State, p: ProposalId, t: TaskId)
    requires Core(s) && Waits(s.rows) && Enabled(s, SweepSettle(p, t))
    ensures Waits(Apply(s, SweepSettle(p, t)).rows)
  {
  }

  lemma CancelKeepsWaits(s: State, t: TaskId, pending: Option<ProposalId>)
    requires Core(s) && Locks(s) && Waits(s.rows) && Enabled(s, CancelStep(t, pending))
    ensures Waits(ApplyCancel(s, t, pending).rows)
  {
    var rows := ApplyCancel(s, t, pending).rows;
    assert CancelOk(s, t);
    forall p | Unresolved(rows, p) ensures ParkedOn(rows, rows.proposals[p].run, p) {
      assert Unresolved(s.rows, p);
      if s.tasks[t].stage == TryPending && pending.Some? { assert Unresolved(s.rows, pending.value); }
    }
  }

  /** A step resolves a call or leaves it as it is. */
  lemma AdvanceResolves(proposal: Proposal, at: Point, v: View)
    requires Ready(at, v.now) && (proposal.row.None? ==> at.OtherGate? || at.Flipping?)
    requires Consistent(proposal) && Fits(proposal, at)
    ensures var after := Advance(proposal, at, v).proposal;
            && (after.status == Pending ==> proposal.status == Pending)
            && (after.row.Some? && after.row.value.state == Executing ==>
                  proposal.status == Pending || (proposal.row.Some? && proposal.row.value.state == Executing))
            && (Advance(proposal, at, v).flips <==> at.Flipping?)
            && (at.Flipping? ==> after == proposal)
  {
  }

  lemma StepsKeepUnresolved(s: State, t: TaskId, refused: bool, reply: WriteOutcome, armed: TaskId, q: ProposalId)
    requires Core(s) && StepEnabled(s, t, armed)
    requires Unresolved(ApplyStep(s, t, refused, reply, armed).rows, q)
    ensures Unresolved(s.rows, q) && ApplyStep(s, t, refused, reply, armed).rows.proposals[q].run == s.rows.proposals[q].run
  {
    var p, at := s.tasks[t].p, s.tasks[t].at;
    assert TaskOk(s.rows, s.tasks[t]) && Consistent(s.rows.proposals[p]);
    AdvanceResolves(s.rows.proposals[p], at, ViewOf(s, p, RequestKey(at), refused, reply));
    AdvanceKeepsProposal(s.rows.proposals[p], at, ViewOf(s, p, RequestKey(at), refused, reply));
  }

  lemma StepsKeepWaits(s: State, t: TaskId, refused: bool, reply: WriteOutcome, armed: TaskId)
    requires Core(s) && Waits(s.rows) && StepEnabled(s, t, armed)
    ensures Waits(ApplyStep(s, t, refused, reply, armed).rows) <==> !LateFlip(s, Step(t, refused, reply, armed))
  {
    var rows := ApplyStep(s, t, refused, reply, armed).rows;
    var p, at := s.tasks[t].p, s.tasks[t].at;
    var r := s.rows.proposals[p].run;
    AdvanceResolves(s.rows.proposals[p], at, ViewOf(s, p, RequestKey(at), refused, reply));
    if LateFlip(s, Step(t, refused, reply, armed)) {
      assert Unresolved(rows, s.rows.runs[r].awaiting.value);
    } else {
      forall q | Unresolved(rows, q) ensures ParkedOn(rows, rows.proposals[q].run, q) {
        StepsKeepUnresolved(s, t, refused, reply, armed, q);
        assert ParkedOn(s.rows, s.rows.proposals[q].run, q);
      }
    }
  }

  /** An event keeps the waitpoint if and only if it is not a late flip. */
  lemma EventKeepsWaitsIff(s: State, e: Event)
    requires Core(s) && Locks(s) && Waits(s.rows) && Enabled(s, e)
    ensures Waits(Apply(s, e).rows) <==> !LateFlip(s, e)
  {
    match e {
      case Step(t, refused, reply, armed) => StepsKeepWaits(s, t, refused, reply, armed);
      case CancelStep(t, pending) => CancelKeepsWaits(s, t, pending);
      case SweepSettle(p, t) => SweepKeepsWaits(s, p, t);
      case _ => OthersKeepWaits(s, e);
    }
  }

  // ── the waitpoint, over whole runs ─────────────────────────────────────

  /** Every state along the run keeps the waitpoint. */
  ghost predicate AlwaysWaits(from: State, events: seq<Event>, s: State)
    requires Reaches(from, events, s)
    decreases |events|
  {
    Waits(from.rows) && (events != [] ==> AlwaysWaits(Apply(from, events[0]), events[1..], s))
  }

  /** No event of the run is a late flip. */
  ghost predicate NeverLate(from: State, events: seq<Event>, s: State)
    requires Reaches(from, events, s)
    decreases |events|
  {
    events != [] ==> !LateFlip(from, events[0]) && NeverLate(Apply(from, events[0]), events[1..], s)
  }

  lemma {:induction false} WaitsFrom(from: State, events: seq<Event>, s: State)
    requires Core(from) && Locks(from) && Waits(from.rows) && Reaches(from, events, s)
    ensures AlwaysWaits(from, events, s) <==> NeverLate(from, events, s)
    ensures NeverLate(from, events, s) ==> Waits(s.rows)
    ensures Locks(s)
    decreases |events|
  {
    if events != [] {
      var next := Apply(from, events[0]);
      EventCore(from, events[0]);
      EventLocks(from, events[0]);
      EventKeepsWaitsIff(from, events[0]);
      if Waits(next.rows) {
        WaitsFrom(next, events[1..], s);
      } else {
        LocksFrom(next, events[1..], s);
      }
    }
  }

  lemma {:induction false} LocksFrom(from: State, events: seq<Event>, s: State)
    requires Core(from) && Locks(from) && Reaches(from, events, s)
    ensures Locks(s)
    decreases |events|
  {
    if events != [] {
      EventCore(from, events[0]);
      EventLocks(from, events[0]);
      LocksFrom(Apply(from, events[0]), events[1..], s);
    }
  }

  /** What a cancel answers, and what it did: `accepted` means the Run is now cancelled;
      `write_in_flight` means its waitpoint's write is executing and nothing changed;
      `already_terminal` means nothing changed and the Run is either over or parked on a Proposal
      that is decided and neither executing nor settled. The settled-window CAS never loses. */
  lemma CancelTells(events: seq<Event>, s: State, t: TaskId, pending: Option<ProposalId>)
    requires Reachable(events, s) && Enabled(s, CancelStep(t, pending))
    ensures var r, s' := s.tasks[t].r, ApplyCancel(s, t, pending);
            s'.tasks[t].CancelDone? ==>
              && s'.tasks[t].r == r
              && (s'.tasks[t].reply == CancelAccepted <==> RunIs(s'.rows, r, Cancelled) && !RunIs(s.rows, r, Cancelled))
              && (s'.tasks[t].reply != CancelAccepted ==> s'.rows == s.rows)
              && (s'.tasks[t].reply == UnknownRun <==> r !in s.rows.runs)
              && (s'.tasks[t].reply == WriteInFlight <==>
                    RunIs(s.rows, r, Parked) && WriteStateForRun(s.rows, r) == Some(Executing) && NothingPending(s.rows, r))
              && (s'.tasks[t].reply == AlreadyTerminal ==>
                    || RunIs(s.rows, r, Completed) || RunIs(s.rows, r, Errored) || RunIs(s.rows, r, Cancelled)
                    || (RunIs(s.rows, r, Parked) && NothingPending(s.rows, r)
                        && WriteStateForRun(s.rows, r) != Some(Executing) && WriteStateForRun(s.rows, r) != Some(Settled)))
    ensures s.tasks[t].stage == SettledCas ==> ApplyCancel(s, t, pending).tasks[t] == CancelDone(s.tasks[t].r, CancelAccepted)
  {
    ReachableCore(events, s);
    LocksFrom(INITIAL, events, s);
    CancelStepTells(s, t, pending);
  }

  /** On every run from an empty store: each unresolved call keeps its Run parked on it in every state
      if and only if no flip was ever late. */
  lemma {:induction false} WaitpointHoldsIffNeverLate(events: seq<Event>, s: State)
    requires Reachable(events, s)
    ensures AlwaysWaits(INITIAL, events, s) <==> NeverLate(INITIAL, events, s)
  {
    WaitsFrom(INITIAL, events, s);
  }

  /** The invariant of the write family, on every run without a late flip: a write in flight means an
      accepted Proposal, an unresolved tool call, and a Run parked on exactly that call. So a Run that
      is running or cancelled has no write in flight, and nothing resumed it past one. */
  lemma {:induction false} InFlightHoldsTheRun(events: seq<Event>, s: State, p: ProposalId)
    requires Reachable(events, s) && NeverLate(INITIAL, events, s) && InState(s.rows, p, Executing)
    ensures var proposal := s.rows.proposals[p];
            && proposal.status == Accepted && proposal.result.None?
            && ParkedOn(s.rows, proposal.run, p)
            && NothingPending(s.rows, proposal.run)
            && WriteStateForRun(s.rows, proposal.run) == Some(Executing)
  {
    ReachableCore(events, s);
    WaitsFrom(INITIAL, events, s);
    assert Consistent(s.rows.proposals[p]) && Unresolved(s.rows, p);
    forall q ensures !IsPendingOf(s.rows, s.rows.proposals[p].run, q) {
      if IsPendingOf(s.rows, s.rows.proposals[p].run, q) { assert Unresolved(s.rows, q); }
    }
  }

  /** A cancel accepted on a run without late flips never ran over a live write: afterwards the Run
      has no write in flight and nothing pending. */
  lemma {:induction false} CancelLeavesNoLiveWrite(events: seq<Event>, s: State, r: RunId, p: ProposalId)
    requires Reachable(events, s) && NeverLate(INITIAL, events, s)
    requires RunIs(s.rows, r, Cancelled) && p in s.rows.proposals && s.rows.proposals[p].run == r
    ensures !Unresolved(s.rows, p)
  {
    WaitsFrom(INITIAL, events, s);
  }

  /** The guard that closes the window: with the waitpoint in the flip's own guard no flip is late,
      because every flip carries a call whose result is already in. */
  lemma FlipOnItsOwnCallIsNeverLate(events: seq<Event>, s: State, e: Event)
    requires Reachable(events, s) && Enabled(s, e) && Flips(s, e)
    requires ParkedOn(s.rows, s.rows.proposals[s.tasks[e.t].p].run, s.tasks[e.t].p)
    ensures !LateFlip(s, e)
  {
    ReachableCore(events, s);
    assert TaskOk(s.rows, s.tasks[e.t]) && Consistent(s.rows.proposals[s.tasks[e.t].p]);
  }
}
