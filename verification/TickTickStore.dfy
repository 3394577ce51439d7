/** The durable rows of the TickTick write family and the guarded verbs that move them.

    Every verb is one transaction of the database layer: a guarded UPDATE whose WHERE clause
    is both the legality check and the race choke. A verb returns the new rows together with
    what its caller observes; a lost guard leaves the rows alone. A Proposal and the tool call
    it answers are one record, because `proposals.tool_call_id` is UNIQUE. */
module TickTickStore {
  import opened Wrappers

  type RunId = nat
  type ProposalId = nat
  type Key = nat

  datatype RunStatus = Running | Parked | Completed | Errored | Cancelled

  /** `awaiting` is the waitpoint column: the Proposal whose tool call the Run is parked on. */
  datatype Run = Run(status: RunStatus, awaiting: Option<ProposalId>)

  datatype ProposalStatus = Pending | Accepted | Rejected | Withdrawn

  datatype WriteState = Proposed | Executing | Settled

  datatype OutcomeTag = TagCreated | TagFailed | TagUnknown

  /** What the remote POST reported. */
  datatype WriteOutcome =
    | Created(taskId: string)
    | Failed(http: Option<int>)
    | Unknown(http: Option<int>)

  /** One `ticktick_writes` row, column by column. */
  datatype WriteRow = WriteRow(
    credentialFp: string,
    state: WriteState,
    outcome: Option<OutcomeTag>,
    httpStatus: Option<int>,
    remoteTaskId: Option<string>,
    requestedAt: Option<int>)

  /** What the resolved tool call tells the model. */
  datatype ToolResult = Relayed(tag: OutcomeTag) | Declined | OtherDecision

  /** A Proposal with its tool call (`result` is None while the call is pending) and, for the
      write family, its write row. `posts` and `reply` are history: the POSTs ever sent for this
      Proposal and what came back. No verb reads them. */
  datatype Proposal = Proposal(
    run: RunId,
    status: ProposalStatus,
    key: Option<Key>,
    result: Option<ToolResult>,
    row: Option<WriteRow>,
    posts: nat,
    reply: Option<WriteOutcome>)

  datatype Rows = Rows(runs: map<RunId, Run>, proposals: map<ProposalId, Proposal>)

  /** The wire state every read of a write row shares. */
  datatype WireState =
    | WireProposed(staleConnection: bool)
    | WireExecuting(deadlineAt: int)
    | WireCreated(taskId: Option<string>)
    | WireFailed(httpStatus: Option<int>)
    | WireUnknown

  /** The connection Core booted with, as far as staleness needs it. */
  datatype Connection = Connection(writable: bool, credentialFp: string)

  function StaleConnection(conn: Option<Connection>, rowFp: string): bool {
    match conn
    case None => true
    case Some(c) => !c.writable || c.credentialFp != rowFp
  }

  const TIMEOUT_MS: int := 30_000
  const DEADLINE_GRACE_MS: int := 5_000

  function DeadlineAt(requestedAt: int): int {
    requestedAt + TIMEOUT_MS + DEADLINE_GRACE_MS
  }

  function WireStateFromRow(row: WriteRow, now: int, conn: Option<Connection>): WireState {
    match row.state
    case Executing => WireExecuting(DeadlineAt(if row.requestedAt.Some? then row.requestedAt.value else now))
    case Settled =>
      (match row.outcome
       case Some(TagCreated) => WireCreated(row.remoteTaskId)
       case Some(TagFailed) => WireFailed(row.httpStatus)
       case _ => WireUnknown)
    case Proposed => WireProposed(StaleConnection(conn, row.credentialFp))
  }

  // ── the verbs ──────────────────────────────────────────────────────────

  datatype Move = Won | Lost | Fault

  ghost predicate IsFamily(rows: Rows, p: ProposalId) {
    p in rows.proposals && rows.proposals[p].row.Some?
  }

  ghost predicate InState(rows: Rows, p: ProposalId, state: WriteState) {
    IsFamily(rows, p) && rows.proposals[p].row.value.state == state
  }

  ghost predicate ParkedOn(rows: Rows, r: RunId, p: ProposalId) {
    r in rows.runs && rows.runs[r] == Run(Parked, Some(p))
  }

  function RunIs(rows: Rows, r: RunId, status: RunStatus): bool {
    r in rows.runs && rows.runs[r].status == status
  }

  /** `run_parked_awaiting`: the waitpoint-identity read. */
  function RunParkedAwaiting(rows: Rows, r: RunId, p: ProposalId): (b: bool)
    ensures b <==> ParkedOn(rows, r, p)
  {
    RunIs(rows, r, Parked) && rows.runs[r].awaiting == Some(p)
  }

  function PutRun(rows: Rows, r: RunId, run: Run): Rows {
    rows.(runs := rows.runs[r := run])
  }

  function PutProposal(rows: Rows, p: ProposalId, proposal: Proposal): Rows {
    rows.(proposals := rows.proposals[p := proposal])
  }

  /** Persist a fresh Run, already running. */
  function InsertRun(rows: Rows, r: RunId): Rows
    requires r !in rows.runs
  {
    PutRun(rows, r, Run(Running, None))
  }

  /** Park a running Run on a fresh Proposal; `fp` is present for the write family only. */
  function ParkOnProposal(rows: Rows, r: RunId, p: ProposalId, fp: Option<string>): (Rows, Move)
    requires p !in rows.proposals
  {
    if !RunIs(rows, r, Running) then (rows, Lost)
    else
      var row := if fp.Some? then Some(WriteRow(fp.value, Proposed, None, None, None, None)) else None;
      (PutRun(PutProposal(rows, p, Proposal(r, Pending, None, None, row, 0, None)), r, Run(Parked, Some(p))), Won)
  }

  /** `decision_idempotency_key` is UNIQUE over all Proposals. */
  ghost predicate KeyTaken(rows: Rows, p: ProposalId, key: Option<Key>) {
    key.Some? && exists q :: q in rows.proposals && q != p && rows.proposals[q].key == key
  }

  /** Phase A on one Proposal: the accept flip and `proposed -> executing`, together or not at all.
      The tool call stays pending. A key another Proposal holds is a database fault. */
  function AcceptWrite(proposal: Proposal, keyTaken: bool, key: Option<Key>, now: int): (Proposal, Move)
    requires proposal.row.Some?
  {
    if proposal.status != Pending then (proposal, Lost)
    else if keyTaken || proposal.row.value.state != Proposed then (proposal, Fault)
    else
      var row := proposal.row.value.(state := Executing, requestedAt := Some(now));
      (proposal.(status := Accepted, key := key, row := Some(row)), Won)
  }

  /** A decide that resolves the tool call in the same transaction: every reject, and the accept of
      a Proposal outside the write family. */
  function DecideAtOnce(proposal: Proposal, keyTaken: bool, key: Option<Key>, accept: bool): (Proposal, Move) {
    if proposal.status != Pending then (proposal, Lost)
    else if keyTaken then (proposal, Fault)
    else (proposal.(status := if accept then Accepted else Rejected, key := key,
                    result := Some(if accept then OtherDecision else Declined)), Won)
  }

  function Tag(outcome: WriteOutcome): OutcomeTag {
    match outcome
    case Created(_) => TagCreated
    case Failed(_) => TagFailed
    case Unknown(_) => TagUnknown
  }

  /** The columns a settle writes for an outcome. */
  function SettledRow(row: WriteRow, outcome: WriteOutcome): WriteRow {
    match outcome
    case Created(taskId) =>
      row.(state := Settled, outcome := Some(TagCreated), httpStatus := None, remoteTaskId := Some(taskId))
    case Failed(http) =>
      row.(state := Settled, outcome := Some(TagFailed), httpStatus := http, remoteTaskId := None)
    case Unknown(http) =>
      row.(state := Settled, outcome := Some(TagUnknown), httpStatus := http, remoteTaskId := None)
  }

  /** The one guarded settle: `executing -> settled` and the tool-call resolve in one commit. */
  function SettleWrite(proposal: Proposal, outcome: WriteOutcome): (Proposal, Move)
    requires proposal.row.Some?
  {
    if proposal.row.value.state != Executing then (proposal, Lost)
    else (proposal.(row := Some(SettledRow(proposal.row.value, outcome)), result := Some(Relayed(Tag(outcome)))), Won)
  }

  /** The answer a WON settle gives without reading the row back. */
  function WireStateFromOutcome(outcome: WriteOutcome): WireState {
    match outcome
    case Created(taskId) => WireCreated(Some(taskId))
    case Failed(http) => WireFailed(http)
    case Unknown(_) => WireUnknown
  }

  /** Resume's flip. Its guard is `status = 'parked'` alone: it does not look at the waitpoint. */
  function MarkRunRunning(rows: Rows, r: RunId): (Rows, Move) {
    if RunIs(rows, r, Parked) then (PutRun(rows, r, Run(Running, None)), Won) else (rows, Lost)
  }

  /** A terminal transition of a live Run. */
  function FinishRun(rows: Rows, r: RunId, to: RunStatus): (Rows, Move) {
    if RunIs(rows, r, Running) then (PutRun(rows, r, rows.runs[r].(status := to)), Won) else (rows, Lost)
  }

  /** Re-drive an errored Run in place. */
  function RetryRun(rows: Rows, r: RunId): (Rows, Move) {
    if RunIs(rows, r, Errored) then (PutRun(rows, r, rows.runs[r].(status := Running)), Won) else (rows, Lost)
  }

  /** `parked -> cancelled` with no Proposal requirement: the settled-window arm of cancel. */
  function CancelParkedRunSettledWrite(rows: Rows, r: RunId): (Rows, Move) {
    if RunIs(rows, r, Parked) then (PutRun(rows, r, rows.runs[r].(status := Cancelled)), Won) else (rows, Lost)
  }

  /** A pending Proposal of this Run: what the parked cancel looks for. */
  ghost predicate IsPendingOf(rows: Rows, r: RunId, p: ProposalId) {
    p in rows.proposals && rows.proposals[p].run == r && rows.proposals[p].status == Pending
  }

  ghost predicate NothingPending(rows: Rows, r: RunId) {
    forall p :: !IsPendingOf(rows, r, p)
  }

  /** The parked cancel once it found the pending Proposal `p`: both flips or neither. */
  ghost function CancelParkedRun(rows: Rows, r: RunId, p: ProposalId): (Rows, Move)
    requires IsPendingOf(rows, r, p)
  {
    if RunIs(rows, r, Parked)
    then (PutRun(PutProposal(rows, p, rows.proposals[p].(status := Withdrawn)), r,
                 rows.runs[r].(status := Cancelled)), Won)
    else (rows, Lost)
  }

  /** The write state behind a Run's waitpoint, or None when it is not the write family. */
  function WriteStateForRun(rows: Rows, r: RunId): Option<WriteState> {
    if r in rows.runs && rows.runs[r].awaiting.Some?
       && rows.runs[r].awaiting.value in rows.proposals
       && rows.proposals[rows.runs[r].awaiting.value].row.Some?
    then Some(rows.proposals[rows.runs[r].awaiting.value].row.value.state)
    else None
  }

  /** Boot recovery: every Run a crash left running is errored; parked Runs are kept. */
  function RecoverRuns(rows: Rows): Rows {
    rows.(runs := map r | r in rows.runs ::
      if rows.runs[r].status == Running then rows.runs[r].(status := Errored) else rows.runs[r])
  }

  // ── what every verb keeps ──────────────────────────────────────────────

  /** The rank a write row only ever goes down. */
  function Rank(state: WriteState): nat {
    match state
    case Proposed => 2
    case Executing => 1
    case Settled => 0
  }

  /** How one Proposal may change over any number of steps: decisions, tool results, outcomes and
      what the POST returned are final. */
  ghost predicate Evolves(a: Proposal, b: Proposal) {
    && b.run == a.run
    && (a.status != Pending ==> b.status == a.status && b.key == a.key)
    && (a.result.Some? ==> b.result == a.result)
    && a.posts <= b.posts
    && (a.reply.Some? ==> b.reply == a.reply)
    && (a.row.Some? <==> b.row.Some?)
    && (a.row.Some? ==>
         && b.row.value.credentialFp == a.row.value.credentialFp
         && Rank(b.row.value.state) <= Rank(a.row.value.state)
         && (a.row.value.requestedAt.Some? ==> b.row.value.requestedAt == a.row.value.requestedAt)
         && (a.row.value.state == Settled ==> b.row == a.row))
  }

  /** The columns of one Proposal agree with each other and with its history: at most one POST, only
      after the accept, and a recorded `created` or `failed` is what that POST returned. */
  ghost predicate Consistent(proposal: Proposal) {
    && proposal.posts <= 1
    && (proposal.posts == 1 ==> proposal.row.Some? && proposal.status == Accepted)
    && (proposal.reply.Some? ==> proposal.posts == 1)
    && match proposal.row
       case None => proposal.result.Some? <==> proposal.status == Accepted || proposal.status == Rejected
       case Some(row) =>
         && (proposal.status == Accepted <==> row.state != Proposed)
         && (row.state == Settled <==> row.outcome.Some?)
         && (row.state != Settled ==> row.httpStatus.None? && row.remoteTaskId.None?)
         && (row.state == Proposed <==> row.requestedAt.None?)
         && (proposal.result.Some? <==> proposal.status == Rejected || row.state == Settled)
         && (row.state == Settled ==> proposal.result == Some(Relayed(row.outcome.value)))
         && (row.outcome == Some(TagCreated) ==> row.remoteTaskId.Some? && proposal.reply == Some(Created(row.remoteTaskId.value)))
         && (row.outcome == Some(TagFailed) ==> proposal.reply == Some(Failed(row.httpStatus)))
  }
}
