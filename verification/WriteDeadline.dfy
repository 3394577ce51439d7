/** The deadline of a write in flight: before it only the poster settles, from it on anybody who comes by does, and
    what a repeated decide is told on either side of it. */
module WriteDeadline {
  import opened Wrappers
  import opened TickTickStore
  import opened WriteProtocol
  import opened WriteSafety
  import opened WriteTheorems

  /** The moment a write's time is up: 30 seconds for the POST and 5 of grace after it was requested. */
  predicate Overdue(proposal: Proposal, now: int) {
    proposal.row.Some? && proposal.row.value.requestedAt.Some? && now >= proposal.row.value.requestedAt.value + 35_000
  }

  /** A watchdog or a replay that is about to settle came after the deadline. */
  ghost predicate TaskInTime(s: State, t: TaskId) {
    t in s.tasks && s.tasks[t].Work? && s.tasks[t].at.Settling? && s.tasks[t].at.owner != PhaseC ==>
      s.tasks[t].p in s.rows.proposals && Overdue(s.rows.proposals[s.tasks[t].p], s.now)
  }

  ghost predicate InTime(s: State) {
    forall t :: t in s.tasks ==> TaskInTime(s, t)
  }

  lemma StaysOverdue(a: Proposal, b: Proposal, now: int, later: int)
    requires Overdue(a, now) && Evolves(a, b) && now <= later
    ensures Overdue(b, later)
  {
  }

  /** The point a step lands on is a takeover only after the deadline. */
  lemma AdvanceInTime(proposal: Proposal, at: Point, v: View)
    requires Ready(at, v.now) && (proposal.row.None? ==> at.OtherGate? || at.Flipping?)
    requires Consistent(proposal) && Fits(proposal, at)
    ensures var effect := Advance(proposal, at, v);
            && (effect.next.Some? && effect.next.value.Settling? && effect.next.value.owner != PhaseC ==> Overdue(effect.proposal, v.now))
            && (effect.armed.Some? ==> !effect.armed.value.Settling?)
  {
  }

  lemma ClockGoesOn(s: State, e: Event)
    requires Enabled(s, e)
    ensures s.now <= Apply(s, e).now
  {

  }

  lemma OthersStayInTime(s: State, s': State, t: TaskId)
    requires InTime(s) && s.now <= s'.now && SameTask(s, s', t)
    requires forall p :: p in s.rows.proposals ==> p in s'.rows.proposals && Evolves(s.rows.proposals[p], s'.rows.proposals[p])
    ensures TaskInTime(s', t)
  {
    assert TaskInTime(s, t);
    if s.tasks[t].Work? && s.tasks[t].at.Settling? && s.tasks[t].at.owner != PhaseC {
      StaysOverdue(s.rows.proposals[s.tasks[t].p], s'.rows.proposals[s.tasks[t].p], s.now, s'.now);
    }
  }

  /** Tasks an event other than a step adds or changes never stand before a takeover. */
  lemma NewTasksWait(s: State, e: Event, t: TaskId)
    requires Core(s) && Enabled(s, e) && !e.Step? && t in Apply(s, e).tasks && !SameTask(s, Apply(s, e), t)
    ensures TaskInTime(Apply(s, e), t)
  {
    hide Core;
  }

  lemma StepInTime(s: State, t: TaskId, refused: bool, reply: WriteOutcome, armed: TaskId, u: TaskId)
    requires Core(s) && StepEnabled(s, t, armed) && u in ApplyStep(s, t, refused, reply, armed).tasks && (u == t || u == armed)
    ensures TaskInTime(ApplyStep(s, t, refused, reply, armed), u)
  {
    var p, at := s.tasks[t].p, s.tasks[t].at;
    assert TaskOk(s.rows, s.tasks[t]) && Consistent(s.rows.proposals[p]);
    AdvanceInTime(s.rows.proposals[p], at, ViewOf(s, p, RequestKey(at), refused, reply));
    AdvanceKeepsProposal(s.rows.proposals[p], at, ViewOf(s, p, RequestKey(at), refused, reply));
    hide Advance, Core, Consistent, Fits, Overdue;
  }

  lemma EventInTime(s: State, e: Event)
    requires Core(s) && InTime(s) && Enabled(s, e)
    ensures InTime(Apply(s, e))
  {
    var s' := Apply(s, e);
    ClockGoesOn(s, e);
    forall p | p in s.rows.proposals ensures p in s'.rows.proposals && Evolves(s.rows.proposals[p], s'.rows.proposals[p]) {
      EventEvolves(s, e, p);
    }
    hide Evolves, Core, ApplyCancel, Enabled;
    forall t | t in s'.tasks ensures TaskInTime(s', t) {
      if SameTask(s, s', t) {
        OthersStayInTime(s, s', t);
      } else if e.Step? {
        StepInTime(s, e.t, e.refused, e.reply, e.armed, t);
      } else {
        NewTasksWait(s, e, t);
      }
    }
  }

  lemma {:induction false} InTimeFrom(from: State, events: seq<Event>, s: State)
    requires Core(from) && InTime(from) && Reaches(from, events, s)
    ensures InTime(s)
    decreases |events|
  {
    if events != [] {
      EventCore(from, events[0]);
      EventInTime(from, events[0]);
      InTimeFrom(Apply(from, events[0]), events[1..], s);
    }
  }

  // ── the promises ───────────────────────────────────────────────────────

  /** On every run a step that settles a write is the poster's, with the reply its own POST brought, or it comes 35
      seconds or more after the request: nobody takes a live write over inside its deadline. */
  lemma OnlyTheDeadlineTakesOver(events: seq<Event>, s: State, e: Event, p: ProposalId)
    requires Reachable(events, s) && Enabled(s, e) && e.Step?
    requires InState(s.rows, p, Executing) && InState(Apply(s, e).rows, p, Settled)
    ensures s.tasks[e.t].p == p && s.tasks[e.t].at.Settling?
    ensures if s.tasks[e.t].at.owner == PhaseC
            then s.rows.proposals[p].reply == Some(s.tasks[e.t].at.outcome)
            else s.tasks[e.t].at.outcome == Unknown(None) && s.rows.proposals[p].row.value.requestedAt.Some?
                 && s.now >= s.rows.proposals[p].row.value.requestedAt.value + 35_000
  {
    ReachableCore(events, s);
    InTimeFrom(INITIAL, events, s);
    assert TaskOk(s.rows, s.tasks[e.t]) && TaskInTime(s, e.t);
    hide Core, Reachable;
  }

  /** What the record answers: a rejection, the wire state of a settled row, and for a write in flight its deadline
      until then and a takeover from then on. */
  function RecordTells(status: ProposalStatus, row: WriteRow, now: int): Point {
    if status == Rejected then Resuming(AnswerRejected)
    else if row.state == Executing && row.requestedAt.Some? then
      var due := row.requestedAt.value + 35_000;
      if now < due then Answered(AnswerAccepted(WireExecuting(due))) else Settling(Unknown(None), Belt)
    else if row.outcome == Some(TagCreated) then Resuming(AnswerAccepted(WireCreated(row.remoteTaskId)))
    else if row.outcome == Some(TagFailed) then Resuming(AnswerAccepted(WireFailed(row.httpStatus)))
    else Resuming(AnswerAccepted(WireUnknown))
  }

  /** Which way a decide of the write family takes, on every run: a repeat under the recorded key is told what the
      record tells, a decided Proposal too while its Run is parked; only a pending one whose Run is parked goes on;
      every other decide ends there. The decide itself writes nothing. */
  lemma DecideTakes(events: seq<Event>, s: State, e: Event)
    requires Reachable(events, s) && Enabled(s, e) && e.Step? && s.tasks[e.t].at.RowLoaded?
    ensures var p, at, s' := s.tasks[e.t].p, s.tasks[e.t].at, Apply(s, e);
            var repeated := at.key.Some? && at.request.key == at.key;
            var decided := at.status == Accepted || at.status == Rejected;
            var parked := RunIs(s.rows, s.rows.proposals[p].run, Parked);
            && s'.rows.runs == s.rows.runs && s'.rows.proposals == s.rows.proposals && s'.lifecycle == s.lifecycle
            && (forall u :: u != e.t ==> (u in s'.tasks <==> u in s.tasks) && (u in s.tasks ==> s'.tasks[u] == s.tasks[u]))
            && (if decided && (repeated || parked) then e.t in s'.tasks && s'.tasks[e.t] == Work(p, RecordTells(at.status, at.row, s.now))
                else if at.status == Pending && !repeated && parked then e.t in s'.tasks && s'.tasks[e.t] == Work(p, Fresh(at.request))
                else e.t !in s'.tasks)
  {
    ReachableCore(events, s);
    assert TaskOk(s.rows, s.tasks[e.t]) && Consistent(s.rows.proposals[s.tasks[e.t].p]);
    hide Core, Reachable;
  }
}
