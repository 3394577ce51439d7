/** The promises of the write family, on every run of the protocol. */
module WriteTheorems {
  import opened Wrappers
  import opened TickTickStore
  import opened WriteProtocol
  import opened WriteSafety

  lemma {:induction false} CoreOnEveryRun(from: State, events: seq<Event>, s: State)
    requires Core(from) && Reaches(from, events, s)
    ensures Core(s)
    decreases |events|
  {
    if events != [] {
      EventCore(from, events[0]);
      CoreOnEveryRun(Apply(from, events[0]), events[1..], s);
    }
  }

  ghost predicate Reachable(events: seq<Event>, s: State) {
    Reaches(INITIAL, events, s)
  }

  lemma ReachableCore(events: seq<Event>, s: State)
    requires Reachable(events, s)
    ensures Core(s)
  {
    CoreOnEveryRun(INITIAL, events, s);
  }

  // ── one POST per Proposal ──────────────────────────────────────────────

  /** This event sends a POST for `p`. */
  ghost predicate Sends(s: State, e: Event, p: ProposalId) {
    e.Step? && e.t in s.tasks && s.tasks[e.t] == Work(p, ReadyToPost)
  }

  ghost function PostsSent(from: State, events: seq<Event>, s: State, p: ProposalId): nat
    requires Reaches(from, events, s)
    decreases |events|
  {
    if events == [] then 0
    else (if Sends(from, events[0], p) then 1 else 0) + PostsSent(Apply(from, events[0]), events[1..], s, p)
  }

  function PostsRecorded(rows: Rows, p: ProposalId): nat {
    if p in rows.proposals then rows.proposals[p].posts else 0
  }

  lemma StepCounts(s: State, t: TaskId, refused: bool, reply: WriteOutcome, armed: TaskId, p: ProposalId)
    requires Core(s) && StepEnabled(s, t, armed)
    ensures PostsRecorded(ApplyStep(s, t, refused, reply, armed).rows, p)
            == PostsRecorded(s.rows, p) + (if s.tasks[t] == Work(p, ReadyToPost) then 1 else 0)
  {
  }

  lemma CancelCounts(s: State, t: TaskId, pending: Option<ProposalId>, p: ProposalId)
    requires Enabled(s, CancelStep(t, pending))
    ensures PostsRecorded(ApplyCancel(s, t, pending).rows, p) == PostsRecorded(s.rows, p)
  {
  }

  lemma OtherCounts(s: State, e: Event, p: ProposalId)
    requires Enabled(s, e) && !e.Step? && !e.CancelStep?
    ensures PostsRecorded(Apply(s, e).rows, p) == PostsRecorded(s.rows, p)
  {
  }

  lemma EventCounts(s: State, e: Event, p: ProposalId)
    requires Core(s) && Enabled(s, e)
    ensures PostsRecorded(Apply(s, e).rows, p) == PostsRecorded(s.rows, p) + (if Sends(s, e, p) then 1 else 0)
  {
    hide ApplyStep, ApplyCancel, PostsRecorded, Core;
    match e {
      case Step(t, refused, reply, armed) => StepCounts(s, t, refused, reply, armed, p);
      case CancelStep(t, pending) => CancelCounts(s, t, pending, p);
      case _ => OtherCounts(s, e, p);
    }
  }

  lemma {:induction false} CountsAgree(from: State, events: seq<Event>, s: State, p: ProposalId)
    requires Core(from) && Reaches(from, events, s)
    ensures PostsRecorded(s.rows, p) == PostsRecorded(from.rows, p) + PostsSent(from, events, s, p)
    decreases |events|
  {
    if events != [] {
      EventCore(from, events[0]);
      EventCounts(from, events[0], p);
      CountsAgree(Apply(from, events[0]), events[1..], s, p);
    }
  }

  /** Over every run, however many decides, replays, watchdogs, cancels, crashes and sweeps
      interleave, a Proposal's POST fires at most once. */
  lemma {:induction false} PostAtMostOnce(events: seq<Event>, s: State, p: ProposalId)
    requires Reachable(events, s)
    ensures PostsSent(INITIAL, events, s, p) <= 1
  {
    CountsAgree(INITIAL, events, s, p);
    ReachableCore(events, s);
    if p in s.rows.proposals { assert Consistent(s.rows.proposals[p]); }
  }

  /** When a POST fires its accept has committed: Proposal accepted, write row no longer proposed, and
      no POST was sent before. */
  lemma {:induction false} PostOnlyAfterAccept(events: seq<Event>, s: State, e: Event, p: ProposalId)
    requires Reachable(events, s) && Enabled(s, e) && Sends(s, e, p)
    ensures IsFamily(s.rows, p) && s.rows.proposals[p].status == Accepted && !InState(s.rows, p, Proposed)
    ensures PostsSent(INITIAL, events, s, p) == 0
  {
    ReachableCore(events, s);
    assert TaskOk(s.rows, s.tasks[e.t]) && Consistent(s.rows.proposals[p]);
    CountsAgree(INITIAL, events, s, p);
  }

  // ── outcomes are final, and every answer tells them ────────────────────

  lemma CancelEvolves(s: State, t: TaskId, pending: Option<ProposalId>, p: ProposalId)
    requires Enabled(s, CancelStep(t, pending)) && p in s.rows.proposals
    ensures var rows := ApplyCancel(s, t, pending).rows;
            p in rows.proposals && Evolves(s.rows.proposals[p], rows.proposals[p])
  {
  }

  lemma OtherEvolves(s: State, e: Event, p: ProposalId)
    requires Enabled(s, e) && !e.Step? && !e.CancelStep?
    requires p in s.rows.proposals && Consistent(s.rows.proposals[p])
    ensures p in Apply(s, e).rows.proposals && Evolves(s.rows.proposals[p], Apply(s, e).rows.proposals[p])
  {
    SameEvolves(s.rows.proposals[p]);
    if e.OtherDecide? { DecideEvolves(s.rows.proposals[p], KeyTaken(s.rows, p, e.key), e.key, e.accept); }
    if e.SweepSettle? && e.p == p { SettleEvolves(s.rows.proposals[p], Unknown(None)); }
    hide Evolves, Consistent, DecideAtOnce, SettleWrite;
  }

  lemma SameEvolves(proposal: Proposal)
    ensures Evolves(proposal, proposal)
  {
  }

  lemma DecideEvolves(proposal: Proposal, keyTaken: bool, key: Option<Key>, accept: bool)
    requires Consistent(proposal)
    ensures Evolves(proposal, DecideAtOnce(proposal, keyTaken, key, accept).0)
  {
  }

  lemma SettleEvolves(proposal: Proposal, outcome: WriteOutcome)
    requires Consistent(proposal) && proposal.row.Some?
    ensures Evolves(proposal, SettleWrite(proposal, outcome).0)
  {
  }

  lemma EventEvolves(s: State, e: Event, p: ProposalId)
    requires Core(s) && Enabled(s, e) && p in s.rows.proposals
    ensures p in Apply(s, e).rows.proposals && Evolves(s.rows.proposals[p], Apply(s, e).rows.proposals[p])
  {
    assert Consistent(s.rows.proposals[p]);
    hide ApplyStep, ApplyCancel, StepEnabled, Evolves, Consistent, TasksOk;
    match e {
      case Step(t, refused, reply, armed) =>
        SameEvolves(s.rows.proposals[p]);
        StepTasks(s, t, refused, reply, armed);
      case CancelStep(t, pending) => CancelEvolves(s, t, pending, p);
      case _ => OtherEvolves(s, e, p);
    }
  }

  /** Along any stretch of a run a Proposal only moves forward: a decision, a tool result and a
      settled row never change, and a write row's rank never rises. */
  lemma {:induction false} ProposalsOnlyMoveForward(from: State, events: seq<Event>, s: State, p: ProposalId)
    requires Core(from) && Reaches(from, events, s) && p in from.rows.proposals
    ensures p in s.rows.proposals && Evolves(from.rows.proposals[p], s.rows.proposals[p])
    decreases |events|
  {
    if events != [] {
      EventCore(from, events[0]);
      EventEvolves(from, events[0], p);
      ProposalsOnlyMoveForward(Apply(from, events[0]), events[1..], s, p);
    }
  }

  /** What a decide has answered is what the durable row says now, whoever settled and however long
      ago: a terminal answer is the settled row's own wire state, an `executing` answer carries the
      row's own deadline, a rejection stands. */
  lemma AnswersAreDurable(events: seq<Event>, s: State, t: TaskId, p: ProposalId, answer: Answer, now: int, conn: Option<Connection>)
    requires Reachable(events, s)
    requires t in s.tasks && s.tasks[t] == Work(p, Answered(answer)) && IsFamily(s.rows, p)
    ensures match answer
            case AnswerRejected => s.rows.proposals[p].status == Rejected
            case AnswerAccepted(write) =>
              if write.WireExecuting?
              then s.rows.proposals[p].status == Accepted && s.rows.proposals[p].row.value.requestedAt.Some?
                   && write.deadlineAt == DeadlineAt(s.rows.proposals[p].row.value.requestedAt.value)
              else InState(s.rows, p, Settled) && write == WireStateFromRow(s.rows.proposals[p].row.value, now, conn)
  {
    ReachableCore(events, s);
    assert TaskOk(s.rows, s.tasks[t]);
  }

  /** A recorded `created` or `failed` is what the one POST returned, and the model is told the same
      outcome the card shows. */
  lemma {:induction false} OutcomeIsThePosts(events: seq<Event>, s: State, p: ProposalId)
    requires Reachable(events, s) && InState(s.rows, p, Settled)
    ensures var proposal := s.rows.proposals[p];
            var row := proposal.row.value;
            && proposal.status == Accepted && row.outcome.Some? && proposal.result == Some(Relayed(row.outcome.value))
            && (row.outcome == Some(TagUnknown) ||
                  (PostsSent(INITIAL, events, s, p) == 1
                   && (row.outcome == Some(TagCreated) ==> row.remoteTaskId.Some? && proposal.reply == Some(Created(row.remoteTaskId.value)))
                   && (row.outcome == Some(TagFailed) ==> proposal.reply == Some(Failed(row.httpStatus)))))
  {
    ReachableCore(events, s);
    var proposal := s.rows.proposals[p];
    assert Consistent(proposal);
    match proposal.row.value.outcome.value {
      case TagCreated => assert proposal.reply.Some?;
      case TagFailed => assert proposal.reply.Some?;
      case TagUnknown =>
    }
    CountsAgree(INITIAL, events, s, p);
  }

  /** The two separate reads of a decide never meet the "impossible state": whatever commits between
      loading the Proposal and loading its row, an accepted Proposal's row is past `proposed`. */
  lemma ImpossibleStateUnreachable(events: seq<Event>, s: State, t: TaskId)
    requires Reachable(events, s) && t in s.tasks && s.tasks[t].Work?
    ensures !s.tasks[t].at.Impossible?
    ensures s.tasks[t].at.RowLoaded? && s.tasks[t].at.status == Accepted ==> s.tasks[t].at.row.state != Proposed
  {
    ReachableCore(events, s);
    assert TaskOk(s.rows, s.tasks[t]);
  }

  /** A phase-A transaction never finds the accept flip won but the write row already moved: it faults exactly when
      the Proposal is still pending and another one holds the key it came with. */
  lemma PhaseAOnlyFaultsOnTakenKey(events: seq<Event>, s: State, p: ProposalId, key: Option<Key>, now: int)
    requires Reachable(events, s) && IsFamily(s.rows, p)
    ensures AcceptWrite(s.rows.proposals[p], KeyTaken(s.rows, p, key), key, now).1 == Fault
            <==> s.rows.proposals[p].status == Pending && key.Some?
                 && exists q :: q in s.rows.proposals && q != p && s.rows.proposals[q].key == key
  {
    ReachableCore(events, s);
    assert Consistent(s.rows.proposals[p]);
  }

  // ── no write is left in flight for good ────────────────────────────────

  /** Events that need nobody outside Core: time, the boot sweep, the next step of a task. */
  predicate Unattended(e: Event) {
    e.Tick? || e.Recover? || e.SweepList? || e.SweepSettle? || e.Step?
  }

  /** An unattended run settles `p` without sending a POST for it. */
  ghost predicate SettlesBy(s: State, events: seq<Event>, s': State, p: ProposalId) {
    && Reaches(s, events, s') && InState(s'.rows, p, Settled)
    && (forall i :: 0 <= i < |events| ==> Unattended(events[i]))
    && PostsSent(s, events, s', p) == 0
  }

  ghost predicate CanSettle(s: State, p: ProposalId) {
    exists events, s' :: SettlesBy(s, events, s', p)
  }

  lemma CanSettleAfter(s: State, e: Event, p: ProposalId)
    requires Enabled(s, e) && Unattended(e) && !Sends(s, e, p) && CanSettle(Apply(s, e), p)
    ensures CanSettle(s, p)
  {
    var events, s' :| SettlesBy(Apply(s, e), events, s', p);
    var all := [e] + events;
    assert all[0] == e && all[1..] == events;
    assert SettlesBy(s, all, s', p);
  }

  lemma SettledCanSettle(s: State, p: ProposalId)
    requires InState(s.rows, p, Settled)
    ensures CanSettle(s, p)
  {
    assert SettlesBy(s, [], s, p);
  }

  lemma SettlingCanSettle(s: State, p: ProposalId, t: TaskId)
    requires Core(s) && InState(s.rows, p, Executing)
    requires t in s.tasks && s.tasks[t] == Work(p, Settling(Unknown(None), Watchdog))
    ensures CanSettle(s, p)
  {
    var armed := FreshId(s.tasks.Keys);
    var e := Step(t, false, Unknown(None), armed);
    assert TaskOk(s.rows, s.tasks[t]);
    SettledCanSettle(Apply(s, e), p);
    CanSettleAfter(s, e, p);
  }

  lemma WatchdogCanSettle(s: State, p: ProposalId, t: TaskId)
    requires Core(s) && InState(s.rows, p, Executing) && t in s.tasks && Owns(s.tasks[t], p)
    ensures CanSettle(s, p)
  {
    assert TaskOk(s.rows, s.tasks[t]);
    if s.tasks[t].at.Settling? {
      SettlingCanSettle(s, p, t);
    } else {
      var wait := if s.tasks[t].at.deadline > s.now then s.tasks[t].at.deadline - s.now else 0;
      var late := Apply(s, Tick(wait));
      EventCore(s, Tick(wait));
      var armed := FreshId(late.tasks.Keys);
      var e := Step(t, false, Unknown(None), armed);
      EventCore(late, e);
      SettlingCanSettle(Apply(late, e), p, t);
      CanSettleAfter(late, e, p);
      CanSettleAfter(s, Tick(wait), p);
    }
  }

  lemma SweepCanSettle(s: State, p: ProposalId)
    requires Core(s) && InState(s.rows, p, Executing) && s.boot.SweepExecuting? && p in s.boot.todo
    ensures CanSettle(s, p)
  {
    var t := FreshId(s.tasks.Keys);
    var e := SweepSettle(p, t);
    SettledCanSettle(Apply(s, e), p);
    CanSettleAfter(s, e, p);
  }

  /** From every reachable state in which a write is in flight, its watchdog or the boot sweep can
      still settle it, with no user, no reply and no POST. */
  lemma InFlightCanAlwaysSettle(events: seq<Event>, s: State, p: ProposalId)
    requires Reachable(events, s) && InState(s.rows, p, Executing)
    ensures CanSettle(s, p)
  {
    ReachableCore(events, s);
    assert Owned(s, p);
    if s.boot.Down? {
      var up := Apply(s, Recover);
      EventCore(s, Recover);
      EventCore(up, SweepList);
      SweepCanSettle(Apply(up, SweepList), p);
      CanSettleAfter(up, SweepList, p);
      CanSettleAfter(s, Recover, p);
    } else if s.boot.Recovered? {
      EventCore(s, SweepList);
      SweepCanSettle(Apply(s, SweepList), p);
      CanSettleAfter(s, SweepList, p);
    } else if s.boot.SweepExecuting? && p in s.boot.todo {
      SweepCanSettle(s, p);
    } else {
      var t :| t in s.tasks && Owns(s.tasks[t], p);
      WatchdogCanSettle(s, p, t);
    }
  }
}
