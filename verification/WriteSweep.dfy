/** The settle family as it runs: a store whose rows are updated in place, the one settle every
    trigger calls, and the boot sweep with its two counters. */
module WriteSweep {
  import opened Wrappers
  import opened TickTickStore
  import opened WriteProtocol

  /** Which rows a sweep cannot act on: run ids that do not parse, settles and resumes the database or
      the provider refuses. Each is logged and skipped; none stops the sweep. */
  datatype Faults = Faults(badIds: set<RunId>, settles: set<ProposalId>, firstResumes: set<RunId>, secondResumes: set<RunId>)

  // ── what a sweep means ─────────────────────────────────────────────────

  ghost predicate Sweepable(rows: Rows, p: ProposalId, faults: Faults) {
    InState(rows, p, Executing) && rows.proposals[p].run !in faults.badIds && p !in faults.settles
  }

  ghost function ToSettle(rows: Rows, faults: Faults): set<ProposalId> {
    set p | p in rows.proposals && Sweepable(rows, p, faults)
  }

  function SettledUnknown(proposal: Proposal): Proposal {
    if proposal.row.Some? then SettleWrite(proposal, Unknown(None)).0 else proposal
  }

  /** The rows with these writes settled `unknown`. */
  ghost function SettleAll(rows: Rows, these: set<ProposalId>): Rows {
    rows.(proposals := map p | p in rows.proposals ::
      if p in these then SettledUnknown(rows.proposals[p]) else rows.proposals[p])
  }

  /** The Runs parked on the call of one of these writes. */
  ghost predicate HeldBy(rows: Rows, r: RunId, these: set<ProposalId>) {
    exists p :: p in these && p in rows.proposals && rows.proposals[p].run == r && ParkedOn(rows, r, p)
  }

  ghost function ResumeAll(rows: Rows, these: set<ProposalId>, fails: set<RunId>): Rows {
    rows.(runs := map r | r in rows.runs ::
      if HeldBy(rows, r, these) && r !in fails then Run(Running, None) else rows.runs[r])
  }

  ghost function FirstBranch(rows: Rows, faults: Faults): Rows {
    ResumeAll(SettleAll(rows, ToSettle(rows, faults)), ToSettle(rows, faults), faults.firstResumes)
  }

  /** The settled writes whose Run still waits on them. */
  ghost function ToResume(rows: Rows, faults: Faults): set<ProposalId> {
    set p | p in SettledParkedIn(rows)
            && rows.proposals[p].run !in faults.badIds && rows.proposals[p].run !in faults.secondResumes
  }

  ghost function Swept(rows: Rows, faults: Faults): Rows {
    var first := FirstBranch(rows, faults);
    ResumeAll(first, ToResume(first, faults), {})
  }

  // ── the store ──────────────────────────────────────────────────────────

  class WriteStore {
    var runs: map<RunId, Run>
    var proposals: map<ProposalId, Proposal>

    constructor (rows: Rows)
      ensures Contents() == rows
    {
      runs, proposals := rows.runs, rows.proposals;
    }

    ghost function Contents(): Rows
      reads this
    {
      Rows(runs, proposals)
    }

    /** The guarded settle. Winner or loser, its answer is the wire state of the row now stored. */
    method Settle(p: ProposalId, outcome: WriteOutcome, now: int, conn: Option<Connection>)
      returns (state: WireState, won: bool)
      requires IsFamily(Contents(), p)
      modifies this`proposals
      ensures proposals == old(proposals)[p := SettleWrite(old(proposals[p]), outcome).0]
      ensures won <==> old(InState(Contents(), p, Executing))
      ensures IsFamily(Contents(), p) && state == WireStateFromRow(proposals[p].row.value, now, conn)
    {
      var row := proposals[p].row.value;
      won := row.state == Executing;
      if won {
        var settled := SettledRow(row, outcome);
        proposals := proposals[p := proposals[p].(row := Some(settled), result := Some(Relayed(Tag(outcome))))];
        state := WireStateFromOutcome(outcome);
      } else {
        state := WireStateFromRow(row, now, conn);
      }
    }

    /** Resume: refused by the provider, or the flip out of `parked` (a lost flip is no error). */
    method Resume(r: RunId, fails: bool) returns (ok: bool)
      modifies this`runs
      ensures ok == !fails
      ensures Contents() == if fails then old(Contents()) else MarkRunRunning(old(Contents()), r).0
    {
      ok := !fails;
      if !fails && r in runs && runs[r].status == Parked {
        runs := runs[r := Run(Running, None)];
      }
    }

    /** The waitpoint-identity guard, then resume. */
    method ResumeIfAwaiting(r: RunId, p: ProposalId, fails: bool)
      modifies this`runs
      ensures runs == if old(ParkedOn(Contents(), r, p)) && !fails then old(runs)[r := Run(Running, None)] else old(runs)
    {
      if r in runs && runs[r] == Run(Parked, Some(p)) {
        var ok := Resume(r, fails);
      }
    }

    /** One row of the sweep's first branch, after the rows in `done` went before it. */
    method SweepRow(p: ProposalId, faults: Faults, ghost before: Rows, ghost done: set<ProposalId>) returns (counted: bool)
      requires p !in done && InState(before, p, Executing) && Contents() == Partway(before, done, faults)
      modifies this
      ensures counted <==> Sweepable(before, p, faults)
      ensures Contents() == Partway(before, if counted then done + {p} else done, faults)
    {
      PartwayOne(before, done, p, faults);
      var r := proposals[p].run;
      counted := r !in faults.badIds && p !in faults.settles;
      if counted {
        var state, won := Settle(p, Unknown(None), 0, None);
        ResumeIfAwaiting(r, p, r in faults.firstResumes);
      }
    }

    /** The first branch: every `executing` row, in whatever order the query lists them. */
    method SweepExecuting(listed: set<ProposalId>, faults: Faults) returns (settled: nat)
      requires listed == ExecutingIn(Contents())
      modifies this
      ensures Contents() == FirstBranch(old(Contents()), faults)
      ensures settled == |ToSettle(old(Contents()), faults)|
    {
      ghost var before := Contents();
      ghost var done: set<ProposalId> := {};
      var todo := listed;
      settled := 0;
      NothingDone(before, faults);
      while todo != {}
        invariant todo <= listed && done <= listed - todo
        invariant forall p :: p in listed - todo ==> (p in done <==> Sweepable(before, p, faults))
        invariant Contents() == Partway(before, done, faults)
        invariant settled == |done|
      {
        var p :| p in todo;
        todo := todo - {p};
        var counted := SweepRow(p, faults, before, done);
        if counted {
          settled := settled + 1;
          done := done + {p};
        }
      }
      assert done == ToSettle(before, faults);
    }

    /** One row of the second branch, after the rows in `done` went before it. */
    method ResumeRow(p: ProposalId, faults: Faults, ghost before: Rows, ghost done: set<ProposalId>) returns (counted: bool)
      requires p !in done && p in SettledParkedIn(before) && Contents() == ResumeAll(before, done, {})
      modifies this`runs
      ensures counted <==> before.proposals[p].run !in faults.badIds && before.proposals[p].run !in faults.secondResumes
      ensures Contents() == ResumeAll(before, if counted then done + {p} else done, {})
    {
      var r := proposals[p].run;
      counted := r !in faults.badIds;
      if counted {
        ResumeOne(before, done, p);
        counted := Resume(r, r in faults.secondResumes);
      }
    }

    /** The second branch: settled writes whose Run is still parked on them. */
    method SweepParked(listed: set<ProposalId>, faults: Faults) returns (resumed: nat)
      requires listed == SettledParkedIn(Contents())
      modifies this`runs
      ensures Contents() == ResumeAll(old(Contents()), ToResume(old(Contents()), faults), {})
      ensures resumed == |ToResume(old(Contents()), faults)|
    {
      hide ResumeAll, InState, ParkedOn, HeldBy, RunIs;
      ghost var before := Contents();
      ghost var done: set<ProposalId> := {};
      var todo := listed;
      resumed := 0;
      NothingResumed(before);
      while todo != {}
        invariant todo <= listed && done <= listed - todo
        invariant forall p :: p in listed - todo ==>
                    (p in done <==> before.proposals[p].run !in faults.badIds && before.proposals[p].run !in faults.secondResumes)
        invariant Contents() == ResumeAll(before, done, {})
        invariant resumed == |done|
      {
        var p :| p in todo;
        todo := todo - {p};
        var counted := ResumeRow(p, faults, before, done);
        if counted {
          resumed := resumed + 1;
          done := done + {p};
        }
      }
      assert done == ToResume(before, faults);
    }

    /** The boot sweep. It stops for nothing, settles every `executing` row it can act on to `unknown`,
        resumes every Run that waits on a settled write, and reports what it did. */
    method Sweep(faults: Faults) returns (settled: nat, resumed: nat)
      modifies this
      ensures Contents() == Swept(old(Contents()), faults)
      ensures settled == |ToSettle(old(Contents()), faults)|
      ensures resumed == |ToResume(FirstBranch(old(Contents()), faults), faults)|
    {
      var executing := set p | p in proposals && proposals[p].row.Some? && proposals[p].row.value.state == Executing;
      assert executing == ExecutingIn(Contents());
      settled := SweepExecuting(executing, faults);
      var waiting := set p | p in proposals && proposals[p].row.Some? && proposals[p].row.value.state == Settled
                             && proposals[p].run in runs && runs[proposals[p].run] == Run(Parked, Some(p));
      assert waiting == SettledParkedIn(Contents());
      resumed := SweepParked(waiting, faults);
    }
  }

  // ── the loops, row by row ──────────────────────────────────────────────

  ghost function Partway(before: Rows, done: set<ProposalId>, faults: Faults): Rows {
    ResumeAll(SettleAll(before, done), done, faults.firstResumes)
  }

  lemma NothingDone(before: Rows, faults: Faults)
    ensures Partway(before, {}, faults) == before
  {
  }

  lemma NothingResumed(before: Rows)
    ensures ResumeAll(before, {}, {}) == before
  {
  }

  lemma PartwayOne(before: Rows, done: set<ProposalId>, p: ProposalId, faults: Faults)
    requires p !in done && InState(before, p, Executing)
    ensures var now := Partway(before, done, faults);
            var r := before.proposals[p].run;
            && p in now.proposals && now.proposals[p] == before.proposals[p]
            && (ParkedOn(now, r, p) <==> ParkedOn(before, r, p))
            && Partway(before, done + {p}, faults) ==
               Rows(if ParkedOn(before, r, p) && r !in faults.firstResumes then now.runs[r := Run(Running, None)] else now.runs,
                    now.proposals[p := SettledUnknown(before.proposals[p])])
  {
    var mid, mid' := SettleAll(before, done), SettleAll(before, done + {p});
    forall r | r in before.runs
      ensures HeldBy(mid', r, done + {p}) <==> HeldBy(mid, r, done) || (before.proposals[p].run == r && ParkedOn(before, r, p))
    {
      if before.proposals[p].run == r && ParkedOn(before, r, p) { assert p in done + {p} && ParkedOn(mid', r, p); }
      if HeldBy(mid, r, done) {
        var q :| q in done && q in mid.proposals && mid.proposals[q].run == r && ParkedOn(mid, r, q);
        assert q in done + {p} && ParkedOn(mid', r, q);
      }
      if HeldBy(mid', r, done + {p}) {
        var q :| q in done + {p} && q in mid'.proposals && mid'.proposals[q].run == r && ParkedOn(mid', r, q);
        if q != p { assert q in done && ParkedOn(mid, r, q); }
      }
    }
  }

  lemma ResumeOne(before: Rows, done: set<ProposalId>, p: ProposalId)
    requires p !in done && p in before.proposals && ParkedOn(before, before.proposals[p].run, p)
    ensures ResumeAll(before, done + {p}, {})
            == MarkRunRunning(ResumeAll(before, done, {}), before.proposals[p].run).0
  {
  }

  // ── what the sweep leaves behind ───────────────────────────────────────

  /** After a sweep a write is still `executing` exactly when it was and its own row could not be acted on;
      every other write it found executing is settled `unknown` with its tool call resolved; a row that was
      not executing, a settled outcome in particular, is untouched. */
  lemma SweepSettlesAll(rows: Rows, faults: Faults, p: ProposalId)
    requires p in rows.proposals
    ensures p in Swept(rows, faults).proposals
    ensures var after := Swept(rows, faults).proposals[p];
            if Sweepable(rows, p, faults)
            then after.row.Some? && after.row.value.state == Settled && after.row.value.outcome == Some(TagUnknown)
                 && after.result == Some(Relayed(TagUnknown)) && after.posts == rows.proposals[p].posts
            else after == rows.proposals[p]
    ensures InState(Swept(rows, faults), p, Executing) <==> InState(rows, p, Executing) && !Sweepable(rows, p, faults)
  {
  }

  /** A second sweep settles only what the first could not act on: nothing at all when nothing failed. */
  lemma SweepAgainSettlesNothing(rows: Rows, faults: Faults, again: Faults)
    ensures forall p :: p in ToSettle(Swept(rows, faults), again) ==> InState(rows, p, Executing) && !Sweepable(rows, p, faults)
    ensures faults.badIds == {} && faults.settles == {} ==> |ToSettle(Swept(rows, faults), again)| == 0
  {
  }

  /** A sweep whose second branch meets no failure leaves no Run waiting on a write that is settled; a Run
      it resumes was parked on a settled call, and a Run parked on anything else is untouched. */
  lemma SweepLeavesNoOneWaiting(rows: Rows, faults: Faults)
    ensures faults.badIds == {} && faults.secondResumes == {} ==> SettledParkedIn(Swept(rows, faults)) == {}
    ensures forall r :: r in rows.runs && Swept(rows, faults).runs[r] != rows.runs[r] ==>
              && Swept(rows, faults).runs[r] == Run(Running, None) && RunIs(rows, r, Parked)
              && rows.runs[r].awaiting.Some? && InState(Swept(rows, faults), rows.runs[r].awaiting.value, Settled)
  {
    var first := FirstBranch(rows, faults);
    forall r | r in rows.runs && Swept(rows, faults).runs[r] != rows.runs[r]
      ensures Swept(rows, faults).runs[r] == Run(Running, None) && RunIs(rows, r, Parked)
              && rows.runs[r].awaiting.Some? && InState(Swept(rows, faults), rows.runs[r].awaiting.value, Settled)
    {
      assert r in first.runs;
    }
    if faults.badIds == {} && faults.secondResumes == {} {
      forall p ensures p !in SettledParkedIn(Swept(rows, faults)) {
        if p in ToResume(first, faults) { assert HeldBy(first, first.proposals[p].run, ToResume(first, faults)); }
      }
    }
  }
}
