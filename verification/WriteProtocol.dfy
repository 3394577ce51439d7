/** The two-phase external write as a transition system: any number of decide tasks, deadline
    watchdogs, cancels, Worker transitions, task deaths, process crashes and boot sweeps over the
    durable rows of `TickTickStore`, one event per point between two awaits. */
module WriteProtocol {
  import opened Wrappers
  import opened TickTickStore

  type TaskId = nat

  datatype Decision = Accept | Reject | Edit

  datatype Request = Request(decision: Decision, key: Option<Key>)

  /** What a decide answers once it is done. */
  datatype Answer = AnswerRejected | AnswerAccepted(write: WireState)

  /** Who is about to settle: the deciding task, its watchdog, a past-deadline replay. */
  datatype Trigger = PhaseC | Watchdog | Belt

  datatype CancelAnswer = CancelAccepted | WriteInFlight | AlreadyTerminal | UnknownRun

  datatype CancelStage = ReadStatus | TryPending | ReadWrite | SettledCas | CancelLive

  /** Where a task working on one Proposal waits for its next atomic step. A decide carries the
      Proposal columns and the write row it has read so far. */
  datatype Point =
    | Loaded(request: Request, status: ProposalStatus, key: Option<Key>)
    | RowLoaded(request: Request, status: ProposalStatus, key: Option<Key>, row: WriteRow)
    | Fresh(request: Request)
    | ReadyToPost
    | AwaitingReply
    | Settling(outcome: WriteOutcome, owner: Trigger)
    | Rereading
    | Resuming(answer: Answer)
    | Flipping(answer: Answer)
    | Answered(answer: Answer)
    | ArmedWatchdog(deadline: int)
    | OtherGate
    | Impossible

  datatype Task =
    | Work(p: ProposalId, at: Point)
    | Cancelling(r: RunId, stage: CancelStage)
    | CancelDone(r: RunId, reply: CancelAnswer)

  /** Boot: a crash leaves Core down; recovery, then the two sweep branches, then serving. */
  datatype Boot = Down | Recovered | SweepExecuting(todo: set<ProposalId>) | SweepParked(todo: set<ProposalId>) | Serving

  /** `lifecycle` says which cancel holds a Run's lifecycle slot. */
  datatype State = State(
    rows: Rows,
    now: int,
    boot: Boot,
    tasks: map<TaskId, Task>,
    lifecycle: map<RunId, TaskId>)

  // ── one task's next step ───────────────────────────────────────────────

  /** What a step can see beside its own Proposal, and what the world decides for it: whether a
      fresh accept is refused (stale connection, invalid payload) and what the POST returns. */
  datatype View = View(now: int, parked: bool, awaited: bool, keyTaken: bool, refused: bool, reply: WriteOutcome)

  /** What a step leaves behind: the Proposal, its next point (None: it is over), a task it
      armed, and whether it flips the Run out of `parked`. */
  datatype Effect = Effect(proposal: Proposal, next: Option<Point>, armed: Option<Point>, flips: bool)

  /** `recorded_outcome`: what a replay or a recovery does with the columns it read. */
  function RecordedOutcome(at: Point, now: int): Point
    requires at.RowLoaded? && (at.status == Accepted || at.status == Rejected)
  {
    if at.status == Rejected then Resuming(AnswerRejected)
    else match at.row.state
      case Executing =>
        var deadline := DeadlineAt(if at.row.requestedAt.Some? then at.row.requestedAt.value else now);
        if now >= deadline then Settling(Unknown(None), Belt)
        else Answered(AnswerAccepted(WireExecuting(deadline)))
      case Settled => Resuming(AnswerAccepted(WireStateFromRow(at.row, now, None)))
      case Proposed => Impossible
  }

  /** The decide precedence: keyed replay, recovery of a decided Proposal, then the fresh path. */
  function Branch(at: Point, v: View): Option<Point>
    requires at.RowLoaded?
  {
    var decided := at.status == Accepted || at.status == Rejected;
    if at.key.Some? && at.request.key == at.key then
      if decided then Some(RecordedOutcome(at, v.now)) else None
    else if at.status != Pending then
      if decided && v.parked then Some(RecordedOutcome(at, v.now)) else None
    else if v.parked then Some(Fresh(at.request))
    else None
  }

  predicate Ready(at: Point, now: int) {
    !at.Answered? && !at.Impossible? && (at.ArmedWatchdog? ==> now >= at.deadline)
  }

  function Advance(proposal: Proposal, at: Point, v: View): Effect
    requires Ready(at, v.now)
    requires proposal.row.None? ==> at.OtherGate? || at.Flipping?
  {
    match at
    case Loaded(request, status, key) =>
      Effect(proposal, Some(RowLoaded(request, status, key, proposal.row.value)), None, false)
    case RowLoaded(_, _, _, _) => Effect(proposal, Branch(at, v), None, false)
    case Fresh(request) =>
      if request.decision == Reject then
        var (decided, move) := DecideAtOnce(proposal, v.keyTaken, request.key, false);
        Effect(decided, if move == Won then Some(Resuming(AnswerRejected)) else None, None, false)
      else if v.refused then Effect(proposal, None, None, false)
      else
        var (accepted, move) := AcceptWrite(proposal, v.keyTaken, request.key, v.now);
        if move == Won then Effect(accepted, Some(ReadyToPost), Some(ArmedWatchdog(DeadlineAt(v.now))), false)
        else Effect(proposal, None, None, false)
    case ReadyToPost => Effect(proposal.(posts := proposal.posts + 1), Some(AwaitingReply), None, false)
    case AwaitingReply => Effect(proposal.(reply := Some(v.reply)), Some(Settling(v.reply, PhaseC)), None, false)
    case Settling(outcome, _) =>
      var (settled, move) := SettleWrite(proposal, outcome);
      Effect(settled, Some(if move == Won then Resuming(AnswerAccepted(WireStateFromOutcome(outcome))) else Rereading), None, false)
    case Rereading =>
      Effect(proposal, Some(Resuming(AnswerAccepted(WireStateFromRow(proposal.row.value, v.now, None)))), None, false)
    case Resuming(answer) => Effect(proposal, Some(if v.awaited then Flipping(answer) else Answered(answer)), None, false)
    case Flipping(answer) => Effect(proposal, Some(Answered(answer)), None, true)
    case ArmedWatchdog(_) => Effect(proposal, Some(Settling(Unknown(None), Watchdog)), None, false)
    case OtherGate => Effect(proposal, if v.parked then Some(Flipping(AnswerRejected)) else None, None, false)
  }

  // ── events ─────────────────────────────────────────────────────────────

  datatype Event =
    // the Run's own life
    | StartRun(r: RunId)
    | Park(r: RunId, p: ProposalId, fp: Option<string>)
    | Finish(r: RunId, to: RunStatus)
    | Retry(r: RunId)
    // a Proposal of another family is decided at once, or answered again; either way its resume follows the
    // plain parked check (`answers`: the earlier outcome could be read)
    | OtherDecide(p: ProposalId, accept: bool, key: Option<Key>, answers: bool, t: TaskId)
    // a decide on the write family loads its Proposal; every task takes its next step; a task dies
    | Decide(p: ProposalId, request: Request, t: TaskId)
    | Step(t: TaskId, refused: bool, reply: WriteOutcome, armed: TaskId)
    | TaskDies(t: TaskId)
    // a cancel, holding the Run's lifecycle slot from begin to answer
    | CancelBegin(r: RunId, t: TaskId)
    | CancelStep(t: TaskId, pending: Option<ProposalId>)
    // time, crash, boot
    | Tick(ms: nat)
    | Crash
    | Recover
    | SweepList
    | SweepSettle(p: ProposalId, t: TaskId)
    | SweepListParked
    | SweepResume(p: ProposalId, t: TaskId)
    | SweepDone

  /** Workers run from the first sweep branch on; decides and cancels need the server. */
  predicate WorkersUp(s: State) {
    s.boot.SweepExecuting? || s.boot.SweepParked? || s.boot.Serving?
  }

  /** A decide task can die at any await; a watchdog is a task of its own and does not die with it. */
  predicate Mortal(task: Task) {
    task.Work? ==> !task.at.ArmedWatchdog? && !(task.at.Settling? && task.at.owner == Watchdog)
  }

  ghost function ViewOf(s: State, p: ProposalId, key: Option<Key>, refused: bool, reply: WriteOutcome): View
    requires p in s.rows.proposals
  {
    var r := s.rows.proposals[p].run;
    View(s.now, RunIs(s.rows, r, Parked), RunParkedAwaiting(s.rows, r, p), KeyTaken(s.rows, p, key), refused, reply)
  }

  function RequestKey(at: Point): Option<Key> {
    if at.Fresh? then at.request.key else None
  }

  ghost predicate StepEnabled(s: State, t: TaskId, armed: TaskId) {
    && t in s.tasks && armed !in s.tasks && s.tasks[t].Work?
    && s.tasks[t].p in s.rows.proposals
    && var proposal := s.rows.proposals[s.tasks[t].p];
       && Ready(s.tasks[t].at, s.now)
       && (proposal.row.None? ==> s.tasks[t].at.OtherGate? || s.tasks[t].at.Flipping?)
       && (s.tasks[t].at.Flipping? ==> proposal.run !in s.lifecycle)
  }

  /** The stage's read of the pending Proposal: one of them, or the fact that there is none. */
  ghost predicate PendingRead(rows: Rows, r: RunId, pending: Option<ProposalId>) {
    match pending
    case Some(p) => IsPendingOf(rows, r, p)
    case None => NothingPending(rows, r)
  }

  ghost predicate Enabled(s: State, e: Event) {
    match e
    case StartRun(r) => s.boot.Serving? && r !in s.rows.runs
    case Park(r, p, fp) => WorkersUp(s) && p !in s.rows.proposals && r !in s.lifecycle
    case Finish(r, to) => WorkersUp(s) && r !in s.lifecycle && (to == Completed || to == Errored)
    case Retry(r) => s.boot.Serving? && r !in s.lifecycle
    case OtherDecide(p, accept, key, answers, t) =>
      s.boot.Serving? && t !in s.tasks && p in s.rows.proposals && s.rows.proposals[p].row.None?
    case Decide(p, request, t) => s.boot.Serving? && t !in s.tasks && IsFamily(s.rows, p)
    case Step(t, refused, reply, armed) => StepEnabled(s, t, armed)
    case TaskDies(t) => t in s.tasks && Mortal(s.tasks[t])
    case CancelBegin(r, t) => s.boot.Serving? && t !in s.tasks && r !in s.lifecycle
    case CancelStep(t, pending) =>
      t in s.tasks && s.tasks[t].Cancelling?
      && (s.tasks[t].stage == TryPending ==> PendingRead(s.rows, s.tasks[t].r, pending))
    case Tick(ms) => true
    case Crash => true
    case Recover => s.boot.Down?
    case SweepList => s.boot.Recovered?
    case SweepSettle(p, t) => s.boot.SweepExecuting? && p in s.boot.todo && t !in s.tasks && IsFamily(s.rows, p)
    case SweepListParked => s.boot.SweepExecuting? && s.boot.todo == {}
    case SweepResume(p, t) => s.boot.SweepParked? && p in s.boot.todo && t !in s.tasks && IsFamily(s.rows, p)
    case SweepDone => s.boot.SweepParked? && s.boot.todo == {}
  }

  /** A decided Proposal answers a repeat again: under its own key always, else while its Run is parked. */
  predicate AnsweredBefore(rows: Rows, p: ProposalId, key: Option<Key>)
    requires p in rows.proposals
  {
    var proposal := rows.proposals[p];
    && (proposal.status == Accepted || proposal.status == Rejected)
    && ((proposal.key.Some? && key == proposal.key) || RunIs(rows, proposal.run, Parked))
  }

  function PutTask(s: State, t: TaskId, task: Task): State {
    s.(tasks := s.tasks[t := task])
  }

  function DropTask(s: State, t: TaskId): State {
    s.(tasks := s.tasks - {t})
  }

  ghost function ExecutingIn(rows: Rows): set<ProposalId> {
    set p | p in rows.proposals && InState(rows, p, Executing)
  }

  ghost function SettledParkedIn(rows: Rows): set<ProposalId> {
    set p | p in rows.proposals && InState(rows, p, Settled) && ParkedOn(rows, rows.proposals[p].run, p)
  }

  ghost function ApplyStep(s: State, t: TaskId, refused: bool, reply: WriteOutcome, armed: TaskId): State
    requires StepEnabled(s, t, armed)
  {
    var p, at := s.tasks[t].p, s.tasks[t].at;
    var effect := Advance(s.rows.proposals[p], at, ViewOf(s, p, RequestKey(at), refused, reply));
    var rows := PutProposal(s.rows, p, effect.proposal);
    var rows' := if effect.flips then MarkRunRunning(rows, effect.proposal.run).0 else rows;
    var tasks := if effect.next.Some? then s.tasks[t := Work(p, effect.next.value)] else s.tasks - {t};
    var tasks' := if effect.armed.Some? then tasks[armed := Work(p, effect.armed.value)] else tasks;
    s.(rows := rows', tasks := tasks')
  }

  function Release(s: State, t: TaskId, r: RunId, reply: CancelAnswer): State {
    s.(tasks := s.tasks[t := CancelDone(r, reply)], lifecycle := s.lifecycle - {r})
  }

  function Stage(s: State, t: TaskId, r: RunId, stage: CancelStage): State {
    PutTask(s, t, Cancelling(r, stage))
  }

  ghost function ApplyCancel(s: State, t: TaskId, pending: Option<ProposalId>): State
    requires Enabled(s, CancelStep(t, pending))
  {
    var r := s.tasks[t].r;
    match s.tasks[t].stage
    case ReadStatus =>
      if r !in s.rows.runs then Release(s, t, r, UnknownRun)
      else if RunIs(s.rows, r, Parked) then Stage(s, t, r, TryPending)
      else if RunIs(s.rows, r, Running) then Stage(s, t, r, CancelLive)
      else Release(s, t, r, AlreadyTerminal)
    case TryPending =>
      if pending.None? then Stage(s, t, r, ReadWrite)
      else
        var (rows, move) := CancelParkedRun(s.rows, r, pending.value);
        if move == Won then Release(s.(rows := rows), t, r, CancelAccepted) else Stage(s, t, r, ReadWrite)
    case ReadWrite =>
      (match WriteStateForRun(s.rows, r)
       case Some(Executing) => Release(s, t, r, WriteInFlight)
       case Some(Settled) => Stage(s, t, r, SettledCas)
       case _ => Release(s, t, r, AlreadyTerminal))
    case SettledCas =>
      var (rows, move) := CancelParkedRunSettledWrite(s.rows, r);
      if move == Won then Release(s.(rows := rows), t, r, CancelAccepted)
      else if RunIs(s.rows, r, Running) then Stage(s, t, r, CancelLive)
      else Release(s, t, r, AlreadyTerminal)
    case CancelLive =>
      var (rows, move) := FinishRun(s.rows, r, Cancelled);
      Release(s.(rows := rows), t, r, if move == Won then CancelAccepted else AlreadyTerminal)
  }

  ghost function Apply(s: State, e: Event): State
    requires Enabled(s, e)
  {
    match e
    case StartRun(r) => s.(rows := InsertRun(s.rows, r))
    case Park(r, p, fp) => s.(rows := ParkOnProposal(s.rows, r, p, fp).0)
    case Finish(r, to) => s.(rows := FinishRun(s.rows, r, to).0)
    case Retry(r) => s.(rows := RetryRun(s.rows, r).0)
    case OtherDecide(p, accept, key, answers, t) =>
      var (decided, move) := DecideAtOnce(s.rows.proposals[p], KeyTaken(s.rows, p, key), key, accept);
      if move == Won then PutTask(s.(rows := PutProposal(s.rows, p, decided)), t, Work(p, OtherGate))
      else if answers && AnsweredBefore(s.rows, p, key) then PutTask(s, t, Work(p, OtherGate))
      else s
    case Decide(p, request, t) =>
      PutTask(s, t, Work(p, Loaded(request, s.rows.proposals[p].status, s.rows.proposals[p].key)))
    case Step(t, refused, reply, armed) => ApplyStep(s, t, refused, reply, armed)
    case TaskDies(t) =>
      if s.tasks[t].Cancelling? then DropTask(s, t).(lifecycle := s.lifecycle - {s.tasks[t].r}) else DropTask(s, t)
    case CancelBegin(r, t) => PutTask(s, t, Cancelling(r, ReadStatus)).(lifecycle := s.lifecycle[r := t])
    case CancelStep(t, pending) => ApplyCancel(s, t, pending)
    case Tick(ms) => s.(now := s.now + ms)
    case Crash => s.(tasks := map[], lifecycle := map[], boot := Down)
    case Recover => s.(rows := RecoverRuns(s.rows), boot := Recovered)
    case SweepList => s.(boot := SweepExecuting(ExecutingIn(s.rows)))
    case SweepSettle(p, t) =>
      var settled := SettleWrite(s.rows.proposals[p], Unknown(None)).0;
      var answer := AnswerAccepted(WireStateFromRow(settled.row.value, s.now, None));
      PutTask(s.(rows := PutProposal(s.rows, p, settled), boot := SweepExecuting(s.boot.todo - {p})), t, Work(p, Resuming(answer)))
    case SweepListParked => s.(boot := SweepParked(SettledParkedIn(s.rows)))
    case SweepResume(p, t) =>
      var answer := AnswerAccepted(WireStateFromRow(s.rows.proposals[p].row.value, s.now, None));
      PutTask(s.(boot := SweepParked(s.boot.todo - {p})), t, Work(p, Flipping(answer)))
    case SweepDone => s.(boot := Serving)
  }

  // ── runs of the system ─────────────────────────────────────────────────

  const INITIAL := State(Rows(map[], map[]), 0, Serving, map[], map[])

  /** `s` is reached from `from` by exactly these events, each enabled where it happens. */
  ghost predicate Reaches(from: State, events: seq<Event>, s: State)
    decreases |events|
  {
    if events == [] then s == from
    else Enabled(from, events[0]) && Reaches(Apply(from, events[0]), events[1..], s)
  }
}
