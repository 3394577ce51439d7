/** What the steps of the write protocol do to the durable columns: who decides a Proposal and how, what a settle
    writes, and how a Run's row moves. */
module WriteTransitions {
  import opened Wrappers
  import opened TickTickStore
  import opened WriteProtocol
  import opened WriteSafety
  import opened WriteTheorems

  // ── deciding ───────────────────────────────────────────────────────────

  /** The accepted columns: in flight since `now`, nothing sent yet, the tool call still pending. */
  predicate AcceptedAt(before: Proposal, after: Proposal, key: Option<Key>, now: int) {
    && before.row.Some?
    && after == Proposal(before.run, Accepted, key, None,
                         Some(WriteRow(before.row.value.credentialFp, Executing, None, None, None, Some(now))), 0, None)
  }

  /** A fresh decide of the write family, on every run. A rejection resolves the tool call at once. An accept or an
      edit, if not refused, leaves the write in flight, the deciding task about to post, and a watchdog armed for 35
      seconds later. A Proposal decided meanwhile, and a key another one holds, end the decide with nothing written. */
  lemma FreshDecides(events: seq<Event>, s: State, e: Event)
    requires Reachable(events, s) && Enabled(s, e) && e.Step? && s.tasks[e.t].at.Fresh?
    ensures var p, request, s' := s.tasks[e.t].p, s.tasks[e.t].at.request, Apply(s, e);
            var before, after := s.rows.proposals[p], s'.rows.proposals[p];
            var won := before.status == Pending && !KeyTaken(s.rows, p, request.key) && (request.decision == Reject || !e.refused);
            && s'.rows.runs == s.rows.runs
            && (!won ==> after == before && e.t !in s'.tasks && e.armed !in s'.tasks)
            && (won && request.decision == Reject ==>
                  && after == before.(status := Rejected, key := request.key, result := Some(Declined))
                  && e.t in s'.tasks && s'.tasks[e.t] == Work(p, Resuming(AnswerRejected)) && e.armed !in s'.tasks)
            && (won && request.decision != Reject ==>
                  && AcceptedAt(before, after, request.key, s.now)
                  && e.t in s'.tasks && s'.tasks[e.t] == Work(p, ReadyToPost)
                  && e.armed in s'.tasks && s'.tasks[e.armed] == Work(p, ArmedWatchdog(s.now + 35_000)))
  {
    ReachableCore(events, s);
    assert TaskOk(s.rows, s.tasks[e.t]) && Consistent(s.rows.proposals[s.tasks[e.t].p]);
    hide Core, Reachable;
  }

  /** The request a task still carries. */
  function RequestOf(task: Task): Option<Request> {
    if task.Work? && (task.at.Loaded? || task.at.RowLoaded? || task.at.Fresh?) then Some(task.at.request) else None
  }

  /** The decides of a run, by Proposal. */
  function Asked(events: seq<Event>): set<(ProposalId, Request)> {
    if events == [] then {}
    else Asked(events[1..]) + if events[0].Decide? then {(events[0].p, events[0].request)} else {}
  }

  /** A decided write Proposal was decided by one of these: its key and its side are that request's. */
  ghost predicate Follows(proposal: Proposal, p: ProposalId, asked: set<(ProposalId, Request)>) {
    proposal.row.Some? && (proposal.status == Accepted || proposal.status == Rejected) ==>
      exists request :: (p, request) in asked && proposal.key == request.key && (proposal.status == Rejected <==> request.decision == Reject)
  }

  ghost predicate TaskAsked(task: Task, asked: set<(ProposalId, Request)>) {
    RequestOf(task).Some? ==> (task.p, RequestOf(task).value) in asked
  }

  ghost predicate AllAsked(s: State, asked: set<(ProposalId, Request)>) {
    && (forall t :: t in s.tasks ==> TaskAsked(s.tasks[t], asked))
    && (forall p :: p in s.rows.proposals ==> Follows(s.rows.proposals[p], p, asked))
  }

  /** A step carries its request on, and decides its Proposal by it or not at all. */
  lemma AdvanceFollows(proposal: Proposal, p: ProposalId, at: Point, v: View, asked: set<(ProposalId, Request)>)
    requires Ready(at, v.now) && (proposal.row.None? ==> at.OtherGate? || at.Flipping?)
    requires Consistent(proposal) && Fits(proposal, at)
    requires Follows(proposal, p, asked) && TaskAsked(Work(p, at), asked)
    ensures var effect := Advance(proposal, at, v);
            && Follows(effect.proposal, p, asked)
            && (effect.next.Some? ==> TaskAsked(Work(p, effect.next.value), asked))
            && (effect.armed.Some? ==> TaskAsked(Work(p, effect.armed.value), asked))
  {
    var effect := Advance(proposal, at, v);
    if at.Fresh? && proposal.status == Pending && effect.proposal.status != Pending {
      assert (p, at.request) in asked;
    } else {
      assert effect.proposal.status == proposal.status && effect.proposal.key == proposal.key;
    }
  }

  lemma MoreAsked(proposal: Proposal, p: ProposalId, asked: set<(ProposalId, Request)>, more: set<(ProposalId, Request)>)
    requires Follows(proposal, p, asked)
    ensures Follows(proposal, p, asked + more)
  {
    if proposal.row.Some? && (proposal.status == Accepted || proposal.status == Rejected) {
      var request :| (p, request) in asked && proposal.key == request.key && (proposal.status == Rejected <==> request.decision == Reject);
      assert (p, request) in asked + more;
    }
  }

  lemma StepFollows(s: State, t: TaskId, refused: bool, reply: WriteOutcome, armed: TaskId, asked: set<(ProposalId, Request)>)
    requires Core(s) && StepEnabled(s, t, armed) && AllAsked(s, asked)
    ensures AllAsked(ApplyStep(s, t, refused, reply, armed), asked)
  {
    var p, at := s.tasks[t].p, s.tasks[t].at;
    assert TaskOk(s.rows, s.tasks[t]) && Consistent(s.rows.proposals[p]);
    assert TaskAsked(s.tasks[t], asked);
    AdvanceFollows(s.rows.proposals[p], p, at, ViewOf(s, p, RequestKey(at), refused, reply), asked);
    hide Advance, Core, Consistent, Fits, Follows, TaskAsked;
  }

  /** An event other than a step leaves every write Proposal's decision as it is, or withdraws it. */
  lemma OtherFollows(s: State, e: Event, p: ProposalId, asked: set<(ProposalId, Request)>)
    requires Core(s) && Enabled(s, e) && !e.Step? && p in Apply(s, e).rows.proposals
    requires p in s.rows.proposals ==> Follows(s.rows.proposals[p], p, asked)
    ensures Follows(Apply(s, e).rows.proposals[p], p, asked)
  {
    hide Core, KeyTaken;
  }

  lemma OtherTasks(s: State, e: Event, t: TaskId)
    requires Enabled(s, e) && !e.Step? && t in Apply(s, e).tasks && !SameTask(s, Apply(s, e), t)
    ensures RequestOf(Apply(s, e).tasks[t]).Some? ==>
              e.Decide? && Apply(s, e).tasks[t].p == e.p && RequestOf(Apply(s, e).tasks[t]) == Some(e.request)
  {
  }

  lemma EventFollows(s: State, e: Event, asked: set<(ProposalId, Request)>)
    requires Core(s) && Enabled(s, e) && AllAsked(s, asked)
    ensures AllAsked(Apply(s, e), asked + if e.Decide? then {(e.p, e.request)} else {})
  {
    var more: set<(ProposalId, Request)> := if e.Decide? then {(e.p, e.request)} else {};
    var s' := Apply(s, e);
    if e.Step? {
      StepFollows(s, e.t, e.refused, e.reply, e.armed, asked);
      assert asked + more == asked;
    } else {
      hide Core, Enabled, Follows, ApplyStep, ApplyCancel;
      forall t | t in s'.tasks ensures TaskAsked(s'.tasks[t], asked + more) {
        if SameTask(s, s', t) { assert TaskAsked(s.tasks[t], asked); } else { OtherTasks(s, e, t); }
      }
      forall p | p in s'.rows.proposals ensures Follows(s'.rows.proposals[p], p, asked + more) {
        OtherFollows(s, e, p, asked);
        MoreAsked(s'.rows.proposals[p], p, asked, more);
      }
    }
  }

  lemma {:induction false} FollowsFrom(from: State, events: seq<Event>, s: State, asked: set<(ProposalId, Request)>)
    requires Core(from) && AllAsked(from, asked) && Reaches(from, events, s)
    ensures AllAsked(s, asked + Asked(events))
    decreases |events|
  {
    if events == [] {
      assert asked + Asked(events) == asked;
    } else {
      var more := if events[0].Decide? then {(events[0].p, events[0].request)} else {};
      EventCore(from, events[0]);
      EventFollows(from, events[0], asked);
      FollowsFrom(Apply(from, events[0]), events[1..], s, asked + more);
      assert asked + more + Asked(events[1..]) == asked + Asked(events);
    }
  }

  /** On every run a decided write Proposal was decided by a caller who sent that: it is rejected only if a rejection
      came in for it, accepted only if an accept or an edit did, and holds that request's key. */
  lemma DecidedAsAsked(events: seq<Event>, s: State, p: ProposalId) returns (request: Request)
    requires Reachable(events, s) && IsFamily(s.rows, p) && (s.rows.proposals[p].status == Accepted || s.rows.proposals[p].status == Rejected)
    ensures (p, request) in Asked(events) && s.rows.proposals[p].key == request.key
    ensures s.rows.proposals[p].status == Rejected <==> request.decision == Reject
  {
    FollowsFrom(INITIAL, events, s, {});
    assert {} + Asked(events) == Asked(events);
    request :| (p, request) in Asked(events) && s.rows.proposals[p].key == request.key
               && (s.rows.proposals[p].status == Rejected <==> request.decision == Reject);
  }

  /** A plain decide, or the cancel of the parked Run that withdraws it. */
  ghost predicate DecidedElsewhere(s: State, e: Event, p: ProposalId, before: Proposal, after: Proposal) {
    || (e.OtherDecide? && e.p == p && before.row.None?
        && after == before.(status := if e.accept then Accepted else Rejected, key := e.key,
                            result := Some(if e.accept then OtherDecision else Declined)))
    || (e.CancelStep? && e.t in s.tasks && s.tasks[e.t].Cancelling? && s.tasks[e.t].r == before.run
        && s.tasks[e.t].stage == TryPending && e.pending == Some(p)
        && RunIs(s.rows, before.run, Parked) && after == before.(status := Withdrawn))
  }

  lemma CancelWithdraws(s: State, t: TaskId, pending: Option<ProposalId>, p: ProposalId)
    requires Enabled(s, CancelStep(t, pending)) && p in s.rows.proposals && s.rows.proposals[p].status == Pending
    ensures var rows := ApplyCancel(s, t, pending).rows;
            p in rows.proposals
            && (rows.proposals[p].status != Pending ==>
                  DecidedElsewhere(s, CancelStep(t, pending), p, s.rows.proposals[p], rows.proposals[p])
                  && RunIs(rows, s.rows.proposals[p].run, Cancelled))
  {
  }

  lemma OthersDecide(s: State, e: Event, p: ProposalId)
    requires Enabled(s, e) && !e.Step? && !e.CancelStep? && p in s.rows.proposals && s.rows.proposals[p].status == Pending
    ensures p in Apply(s, e).rows.proposals
    ensures Apply(s, e).rows.proposals[p].status != Pending ==>
              DecidedElsewhere(s, e, p, s.rows.proposals[p], Apply(s, e).rows.proposals[p])
  {
    hide KeyTaken;
  }

  lemma StepsDecide(s: State, e: Event, p: ProposalId)
    requires Core(s) && Enabled(s, e) && e.Step? && p in s.rows.proposals && s.rows.proposals[p].status == Pending
    ensures p in Apply(s, e).rows.proposals
    ensures Apply(s, e).rows.proposals[p].status != Pending ==> s.tasks[e.t].p == p && s.tasks[e.t].at.Fresh?
  {
    assert TaskOk(s.rows, s.tasks[e.t]);
    hide Core, Consistent;
  }

  /** Only three things take a Proposal out of pending: its own family's fresh decide, a plain decide, and the cancel
      of its parked Run, which withdraws it without a word to the model. */
  lemma OnlyTheseDecide(events: seq<Event>, s: State, e: Event, p: ProposalId)
    requires Reachable(events, s) && Enabled(s, e) && p in s.rows.proposals && s.rows.proposals[p].status == Pending
    ensures p in Apply(s, e).rows.proposals
    ensures Apply(s, e).rows.proposals[p].status != Pending ==>
              if e.Step? then s.tasks[e.t].p == p && s.tasks[e.t].at.Fresh?
              else DecidedElsewhere(s, e, p, s.rows.proposals[p], Apply(s, e).rows.proposals[p])
  {
    ReachableCore(events, s);
    hide ApplyStep, ApplyCancel, Core, DecidedElsewhere;
    match e {
      case Step(_, _, _, _) => StepsDecide(s, e, p);
      case CancelStep(t, pending) => CancelWithdraws(s, t, pending, p);
      case _ => OthersDecide(s, e, p);
    }
  }

  /** The commit of a decide outside the write family, whose parked check lies before it: a pending Proposal, under a key nobody else holds, is decided and its
      tool call resolved at once; one that was decided before is answered again, if its outcome can be read, under its
      own key or while its Run is parked; either way the plain gate follows. Otherwise nothing happens. */
  lemma PlainDecideTakes(s: State, e: Event)
    requires Enabled(s, e) && e.OtherDecide?
    ensures var before, s' := s.rows.proposals[e.p], Apply(s, e);
            var taken := e.key.Some? && exists q :: q in s.rows.proposals && q != e.p && s.rows.proposals[q].key == e.key;
            var wins := before.status == Pending && !taken;
            var replays := e.answers && (before.status == Accepted || before.status == Rejected)
                           && ((before.key.Some? && before.key == e.key) || RunIs(s.rows, before.run, Parked));
            && s'.rows.runs == s.rows.runs
            && s'.tasks == (if wins || replays then s.tasks[e.t := Work(e.p, OtherGate)] else s.tasks)
            && s'.rows.proposals == (if !wins then s.rows.proposals else s.rows.proposals[e.p :=
                 Proposal(before.run, if e.accept then Accepted else Rejected, e.key,
                          Some(if e.accept then OtherDecision else Declined), None, before.posts, before.reply)])
  {
  }

  // ── settling ───────────────────────────────────────────────────────────

  /** A settle writes the whole row and the tool call from the outcome it is given, over a write in flight; over
      anything else it writes nothing. */
  lemma SettleColumns(proposal: Proposal, outcome: WriteOutcome)
    requires proposal.row.Some?
    ensures var (after, move) := SettleWrite(proposal, outcome);
            var row := proposal.row.value;
            && (row.state != Executing ==> move == Lost && after == proposal)
            && (row.state == Executing ==>
                  && move == Won && after == proposal.(row := after.row, result := after.result)
                  && after.row.Some? && after.row.value.state == Settled
                  && after.row.value.credentialFp == row.credentialFp && after.row.value.requestedAt == row.requestedAt
                  && match outcome
                     case Created(taskId) =>
                       after.row.value.outcome == Some(TagCreated) && after.row.value.remoteTaskId == Some(taskId)
                       && after.row.value.httpStatus == None && after.result == Some(Relayed(TagCreated))
                     case Failed(http) =>
                       after.row.value.outcome == Some(TagFailed) && after.row.value.remoteTaskId == None
                       && after.row.value.httpStatus == http && after.result == Some(Relayed(TagFailed))
                     case Unknown(http) =>
                       after.row.value.outcome == Some(TagUnknown) && after.row.value.remoteTaskId == None
                       && after.row.value.httpStatus == http && after.result == Some(Relayed(TagUnknown)))
  {
  }

  /** A write that is still proposed is told stale exactly when there is no writable connection, or another one than
      it was reviewed under. */
  lemma ProposedTellsStale(row: WriteRow, now: int, conn: Option<Connection>)
    requires row.state == Proposed
    ensures WireStateFromRow(row, now, conn)
            == WireProposed(!(conn.Some? && conn.value.writable && conn.value.credentialFp == row.credentialFp))
  {
  }

  /** From the accept to the settle: the POST is sent once and awaited, its reply is recorded and settled by its own
      task, and a watchdog whose time has come settles as unknown. */
  lemma ThePostIsAwaited(s: State, e: Event)
    requires Enabled(s, e) && e.Step? && (s.tasks[e.t].at.ReadyToPost? || s.tasks[e.t].at.AwaitingReply? || s.tasks[e.t].at.ArmedWatchdog?)
    ensures var p, at := s.tasks[e.t].p, s.tasks[e.t].at;
            var before := s.rows.proposals[p];
            Apply(s, e) ==
              if at.ReadyToPost? then
                s.(rows := s.rows.(proposals := s.rows.proposals[p := before.(posts := before.posts + 1)]),
                   tasks := s.tasks[e.t := Work(p, AwaitingReply)])
              else if at.AwaitingReply? then
                s.(rows := s.rows.(proposals := s.rows.proposals[p := before.(reply := Some(e.reply))]),
                   tasks := s.tasks[e.t := Work(p, Settling(e.reply, PhaseC))])
              else s.(tasks := s.tasks[e.t := Work(p, Settling(Unknown(None), Watchdog))])
  {
    var p := s.tasks[e.t].p;
    assert s.rows.proposals[p := s.rows.proposals[p]] == s.rows.proposals;
    hide KeyTaken;
  }

  /** Every task between a settle and its answer: a won settle answers the outcome it wrote, a lost one reads the row
      that won; then the waitpoint is asked before the flip, and a plain gate asks only whether the Run is parked. */
  lemma AfterTheSettle(events: seq<Event>, s: State, e: Event)
    requires Reachable(events, s) && Enabled(s, e) && e.Step?
    ensures var p, at, s' := s.tasks[e.t].p, s.tasks[e.t].at, Apply(s, e);
            var run := s.rows.proposals[p].run;
            && (at.Settling? && InState(s.rows, p, Executing) ==>
                  e.t in s'.tasks
                  && s'.tasks[e.t] == Work(p, Resuming(AnswerAccepted(
                       match at.outcome case Created(id) => WireCreated(Some(id)) case Failed(http) => WireFailed(http) case Unknown(_) => WireUnknown)))
                  && s'.rows.proposals[p] == SettleWrite(s.rows.proposals[p], at.outcome).0)
            && (at.Settling? && !InState(s.rows, p, Executing) ==>
                  e.t in s'.tasks && s'.tasks[e.t] == Work(p, Rereading) && s'.rows.proposals[p] == s.rows.proposals[p])
            && (at.Resuming? ==>
                  e.t in s'.tasks && s'.rows.runs == s.rows.runs
                  && s'.tasks[e.t] == Work(p, if ParkedOn(s.rows, run, p) then Flipping(at.answer) else Answered(at.answer)))
            && (at.OtherGate? ==>
                  s'.rows.runs == s.rows.runs
                  && (e.t in s'.tasks <==> RunIs(s.rows, run, Parked)) && (e.t in s'.tasks ==> s'.tasks[e.t].at.Flipping?))
            && (at.Flipping? ==>
                  e.t in s'.tasks && s'.tasks[e.t] == Work(p, Answered(at.answer))
                  && s'.rows.runs == (if RunIs(s.rows, run, Parked) then s.rows.runs[run := Run(Running, None)] else s.rows.runs))
  {
    ReachableCore(events, s);
    assert TaskOk(s.rows, s.tasks[e.t]) && Consistent(s.rows.proposals[s.tasks[e.t].p]);
    hide Core, Reachable;
  }

  // ── Runs ───────────────────────────────────────────────────────────────

  function RunOf(rows: Rows, r: RunId): Option<Run> {
    if r in rows.runs then Some(rows.runs[r]) else None
  }

  /** How an event may move a Run's row: what it was, and what it becomes. */
  ghost predicate MayMove(s: State, e: Event, r: RunId, from: Option<Run>, to: Run) {
    match e
    case StartRun(q) => q == r && from == None && to == Run(Running, None)
    case Park(q, p, _) => q == r && from.Some? && from.value.status == Running && to == Run(Parked, Some(p))
    case Finish(q, end) => q == r && from.Some? && from.value.status == Running && to == Run(end, from.value.awaiting) && end in {Completed, Errored}
    case Retry(q) => q == r && from.Some? && from.value.status == Errored && to == Run(Running, from.value.awaiting)
    case Recover => from.Some? && from.value.status == Running && to == Run(Errored, from.value.awaiting)
    case Step(t, _, _, _) =>
      t in s.tasks && s.tasks[t].Work? && s.tasks[t].at.Flipping? && s.tasks[t].p in s.rows.proposals
      && s.rows.proposals[s.tasks[t].p].run == r && from.Some? && from.value.status == Parked && to == Run(Running, None)
    case CancelStep(t, _) =>
      t in s.tasks && s.tasks[t].Cancelling? && s.tasks[t].r == r && from.Some? && from.value.status in {Running, Parked}
      && to == Run(Cancelled, from.value.awaiting)
    case _ => false
  }

  ghost predicate MovedAsAllowed(s: State, e: Event, rows: Rows, r: RunId) {
    RunOf(rows, r) != RunOf(s.rows, r) ==> RunOf(rows, r).Some? && MayMove(s, e, r, RunOf(s.rows, r), RunOf(rows, r).value)
  }

  lemma StepsMove(s: State, e: Event, r: RunId)
    requires Core(s) && Enabled(s, e) && e.Step?
    ensures MovedAsAllowed(s, e, Apply(s, e).rows, r)
  {
    assert TaskOk(s.rows, s.tasks[e.t]);
    hide Core, Consistent, Fits;
  }

  lemma CancelsMove(s: State, t: TaskId, pending: Option<ProposalId>, r: RunId)
    requires Enabled(s, CancelStep(t, pending))
    ensures MovedAsAllowed(s, CancelStep(t, pending), ApplyCancel(s, t, pending).rows, r)
  {
  }

  lemma OthersMove(s: State, e: Event, r: RunId)
    requires Enabled(s, e) && !e.Step? && !e.CancelStep?
    ensures MovedAsAllowed(s, e, Apply(s, e).rows, r)
  {
    hide KeyTaken;
  }

  /** On every run a Run's row moves only as its life allows, keeps its waitpoint through an end or a cancel, and is
      never deleted; a completed or cancelled one never moves again. */
  lemma RunsMoveAsAllowed(events: seq<Event>, s: State, e: Event, r: RunId)
    requires Reachable(events, s) && Enabled(s, e)
    ensures RunOf(Apply(s, e).rows, r) != RunOf(s.rows, r) ==>
              RunOf(Apply(s, e).rows, r).Some? && MayMove(s, e, r, RunOf(s.rows, r), RunOf(Apply(s, e).rows, r).value)
    ensures RunIs(s.rows, r, Completed) || RunIs(s.rows, r, Cancelled) ==> RunOf(Apply(s, e).rows, r) == RunOf(s.rows, r)
  {
    ReachableCore(events, s);
    hide ApplyStep, ApplyCancel, Core, Enabled, Reachable;
    match e {
      case Step(_, _, _, _) => StepsMove(s, e, r);
      case CancelStep(t, pending) => CancelsMove(s, t, pending, r);
      case _ => OthersMove(s, e, r);
    }
  }

  /** And it does move when it is told to: a start inserts a running Run, an end and a retry win exactly from running
      and from errored and keep the waitpoint, and a restart errors exactly the running ones. */
  lemma RunsMoveWhenTold(s: State, e: Event, r: RunId)
    requires Enabled(s, e) && (e.StartRun? || e.Finish? || e.Retry? || e.Recover?)
    ensures var s', before := Apply(s, e), RunOf(s.rows, r);
            && s'.rows.proposals == s.rows.proposals && s'.tasks == s.tasks
            && RunOf(s'.rows, r) ==
                 match e
                 case StartRun(q) => if q == r then Some(Run(Running, None)) else before
                 case Finish(q, to) =>
                   if q == r && before.Some? && before.value.status == Running then Some(Run(to, before.value.awaiting)) else before
                 case Retry(q) =>
                   if q == r && before.Some? && before.value.status == Errored then Some(Run(Running, before.value.awaiting)) else before
                 case _ =>
                   if before.Some? && before.value.status == Running then Some(Run(Errored, before.value.awaiting)) else before
  {
  }

  /** A running Run that parks awaits its fresh pending Proposal, which has a write row, under the connection it was
      proposed with, exactly when it is of the write family; a Run that is not running parks on nothing. */
  lemma ParkWrites(s: State, r: RunId, p: ProposalId, fp: Option<string>)
    requires Enabled(s, Park(r, p, fp))
    ensures var s' := Apply(s, Park(r, p, fp));
            && s'.tasks == s.tasks
            && ParkOnProposal(s.rows, r, p, fp).1 == (if RunIs(s.rows, r, Running) then Won else Lost)
            && if RunIs(s.rows, r, Running)
               then && s'.rows.runs == s.rows.runs[r := Run(Parked, Some(p))]
                    && s'.rows.proposals ==
                         s.rows.proposals[p := Proposal(r, Pending, None, None,
                           match fp case Some(c) => Some(WriteRow(c, Proposed, None, None, None, None)) case None => None, 0, None)]
               else s'.rows == s.rows
  {
  }

  /** A guarded verb over a Run reports the race won exactly when the row was in the state it wants, and then, and only
      then, something was written; a verb over a Proposal reports lost when somebody decided before, and a fault over a
      key that is taken. */
  lemma VerbsTell(rows: Rows, r: RunId, to: RunStatus, p: ProposalId, fp: Option<string>)
    requires p !in rows.proposals
    ensures forall q :: IsPendingOf(rows, r, q) ==>
              var (after, move) := CancelParkedRun(rows, r, q); move == (if RunIs(rows, r, Parked) then Won else Lost) && (move == Lost ==> after == rows)
    ensures var (after, move) := MarkRunRunning(rows, r); move == (if RunIs(rows, r, Parked) then Won else Lost) && (move == Lost ==> after == rows)
    ensures var (after, move) := FinishRun(rows, r, to); move == (if RunIs(rows, r, Running) then Won else Lost) && (move == Lost ==> after == rows)
    ensures var (after, move) := RetryRun(rows, r); move == (if RunIs(rows, r, Errored) then Won else Lost) && (move == Lost ==> after == rows)
    ensures var (after, move) := CancelParkedRunSettledWrite(rows, r); move == (if RunIs(rows, r, Parked) then Won else Lost) && (move == Lost ==> after == rows)
    ensures var (after, move) := ParkOnProposal(rows, r, p, fp); move == (if RunIs(rows, r, Running) then Won else Lost) && (move == Lost ==> after == rows)
    ensures forall q, keyTaken, key, accept :: q in rows.proposals ==>
              var (after, move) := DecideAtOnce(rows.proposals[q], keyTaken, key, accept);
              && move == (if rows.proposals[q].status != Pending then Lost else if keyTaken then Fault else Won)
              && (move != Won ==> after == rows.proposals[q])
  {
  }

  /** The last two stages of a cancel, whatever they find: the CAS from parked or from running, told accepted when it is
      won and already terminal when it is lost, except that a settled-window cancel goes on to the live one when the Run
      is running after all. */
  lemma CancelEnds(s: State, t: TaskId, pending: Option<ProposalId>)
    requires Enabled(s, CancelStep(t, pending)) && (s.tasks[t].stage == SettledCas || s.tasks[t].stage == CancelLive)
    ensures var r, s' := s.tasks[t].r, Apply(s, CancelStep(t, pending));
            var live := s.tasks[t].stage == CancelLive;
            var won := RunIs(s.rows, r, if live then Running else Parked);
            && s'.rows == (if won then s.rows.(runs := s.rows.runs[r := Run(Cancelled, s.rows.runs[r].awaiting)]) else s.rows)
            && s'.tasks == s.tasks[t := if won then CancelDone(r, CancelAccepted)
                                        else if !live && RunIs(s.rows, r, Running) then Cancelling(r, CancelLive)
                                        else CancelDone(r, AlreadyTerminal)]
  {
  }

  // ── boot ───────────────────────────────────────────────────────────────

  /** The boot sweep takes up exactly the writes in flight, then exactly the settled ones their Run still awaits. */
  lemma SweepTakesUp(s: State, p: ProposalId)
    ensures Enabled(s, SweepList) ==>
              var s' := Apply(s, SweepList);
              s'.boot.SweepExecuting? && s'.rows == s.rows && (p in s'.boot.todo <==> InState(s.rows, p, Executing))
    ensures Enabled(s, SweepListParked) ==>
              var s' := Apply(s, SweepListParked);
              s'.boot.SweepParked? && s'.rows == s.rows
              && (p in s'.boot.todo <==> InState(s.rows, p, Settled) && ParkedOn(s.rows, s.rows.proposals[p].run, p))
  {
  }

  /** Each write taken up is worked off by a task of its own, and the server serves when both lists are done. A task
      that dies leaves nothing behind but what it wrote, a cancel not even its hold on the Run. */
  lemma SweepWorksOff(s: State, e: Event)
    requires Enabled(s, e) && (e.SweepSettle? || e.SweepResume? || e.SweepDone? || e.TaskDies?)
    ensures var s' := Apply(s, e);
            && s'.now == s.now && (!e.SweepSettle? ==> s'.rows == s.rows)
            && (e.SweepSettle? || e.SweepResume? ==> e.t in s'.tasks && s'.tasks == s.tasks[e.t := s'.tasks[e.t]] && s'.lifecycle == s.lifecycle)
            && (e.SweepSettle? ==>
                  && s'.boot == SweepExecuting(s.boot.todo - {e.p}) && s'.tasks[e.t].Work? && s'.tasks[e.t].p == e.p && s'.tasks[e.t].at.Resuming?
                  && s'.rows == s.rows.(proposals := s.rows.proposals[e.p := SettleWrite(s.rows.proposals[e.p], Unknown(None)).0]))
            && (e.SweepResume? ==>
                  s'.boot == SweepParked(s.boot.todo - {e.p}) && s'.tasks[e.t].Work? && s'.tasks[e.t].p == e.p && s'.tasks[e.t].at.Flipping?)
            && (e.SweepDone? ==> s'.boot == Serving && s'.tasks == s.tasks && s'.lifecycle == s.lifecycle)
            && (e.TaskDies? ==>
                  && s'.boot == s.boot && s'.tasks == s.tasks - {e.t}
                  && s'.lifecycle == if s.tasks[e.t].Cancelling? then s.lifecycle - {s.tasks[e.t].r} else s.lifecycle)
  {
  }

  /** Nothing holds the world back: time passes and the process may end in any state, a boot can go on from every stage
      that is through, and a Worker may end its Run either way while nobody holds the Run's lifecycle slot. */
  lemma TheWorldGoesOn(s: State, r: RunId, ms: nat)
    ensures Enabled(s, Tick(ms)) && Enabled(s, Crash)
    ensures s.boot == Down ==> Enabled(s, Recover)
    ensures s.boot == Recovered ==> Enabled(s, SweepList)
    ensures s.boot == SweepExecuting({}) ==> Enabled(s, SweepListParked)
    ensures s.boot == SweepParked({}) ==> Enabled(s, SweepDone)
    ensures s.boot == Serving && r !in s.lifecycle ==> forall end :: end in {Completed, Errored} ==> Enabled(s, Finish(r, end))
  {
  }
}
