/** Runs on which a flip does arrive late. Two decides of one Proposal both pass the waitpoint check, the first
    flips, the Run parks on its next Proposal, and the second flips it away from there; and a repeated decide of
    an older Proposal does the same with nothing going on beside it. */
module WriteLateFlip {
  import opened Wrappers
  import opened TickTickStore
  import opened WriteProtocol
  import opened WriteSafety
  import opened WriteTheorems
  import opened WriteWaitpoint

  lemma {:induction false} ReachesOneMore(from: State, events: seq<Event>, s: State, e: Event)
    requires Reaches(from, events, s) && Enabled(s, e)
    ensures Reaches(from, events + [e], Apply(s, e))
    decreases |events|
  {
    if events == [] {
      assert Reaches(Apply(s, e), [], Apply(s, e));
      assert (events + [e])[1..] == [];
    } else {
      ReachesOneMore(Apply(from, events[0]), events[1..], s, e);
      assert (events + [e])[1..] == events[1..] + [e];
    }
  }

  /** Some run from the empty store ends here. */
  ghost predicate Occurs(s: State) {
    exists events :: Reachable(events, s)
  }

  lemma OccursNext(s: State, e: Event)
    requires Occurs(s) && Enabled(s, e)
    ensures Occurs(Apply(s, e))
  {
    var events :| Reachable(events, s);
    ReachesOneMore(INITIAL, events, s, e);
    assert Reachable(events + [e], Apply(s, e));
  }

  const NO_REPLY := Unknown(None)

  /** A step that only moves its task. */
  lemma OccursMove(s: State, t: TaskId, next: Point)
    requires Occurs(s) && StepEnabled(s, t, 9)
    requires var p, at := s.tasks[t].p, s.tasks[t].at;
             Advance(s.rows.proposals[p], at, ViewOf(s, p, RequestKey(at), false, NO_REPLY))
               == Effect(s.rows.proposals[p], Some(next), None, false)
    ensures Occurs(PutTask(s, t, Work(s.tasks[t].p, next)))
  {
    OccursNext(s, Step(t, false, NO_REPLY, 9));
    assert PutProposal(s.rows, s.tasks[t].p, s.rows.proposals[s.tasks[t].p]).proposals == s.rows.proposals;
    assert Apply(s, Step(t, false, NO_REPLY, 9)) == PutTask(s, t, Work(s.tasks[t].p, next));
  }

  const PARK_FP := "fp"
  const REJECT := Request(Reject, None)
  const OPEN := Proposal(0, Pending, None, None, Some(WriteRow(PARK_FP, Proposed, None, None, None, None)), 0, None)
  const DECLINED := OPEN.(status := Rejected, result := Some(Declined))
  const GO := Flipping(AnswerRejected)

  /** Run 0 and its Proposals, with these tasks at work. */
  function Scene(run: Run, proposals: map<ProposalId, Proposal>, tasks: map<TaskId, Task>): State {
    State(Rows(map[0 := run], proposals), 0, Serving, tasks, map[])
  }

  lemma SceneParked()
    ensures Occurs(Scene(Run(Parked, Some(0)), map[0 := OPEN], map[]))
  {
    assert Reachable([], INITIAL);
    OccursNext(INITIAL, StartRun(0));
    var s := Apply(INITIAL, StartRun(0));
    assert s == Scene(Run(Running, None), map[], map[]);
    OccursNext(s, Park(0, 0, Some(PARK_FP)));
    assert Apply(s, Park(0, 0, Some(PARK_FP))) == Scene(Run(Parked, Some(0)), map[0 := OPEN], map[]);
  }

  lemma SceneFresh()
    ensures Occurs(Scene(Run(Parked, Some(0)), map[0 := OPEN], map[1 := Work(0, Fresh(REJECT))]))
  {
    SceneParked();
    var s := Scene(Run(Parked, Some(0)), map[0 := OPEN], map[]);
    OccursNext(s, Decide(0, REJECT, 1));
    var s1 := Apply(s, Decide(0, REJECT, 1));
    OccursMove(s1, 1, RowLoaded(REJECT, Pending, None, OPEN.row.value));
    var s2 := PutTask(s1, 1, Work(0, RowLoaded(REJECT, Pending, None, OPEN.row.value)));
    OccursMove(s2, 1, Fresh(REJECT));
    assert PutTask(s2, 1, Work(0, Fresh(REJECT))) == Scene(Run(Parked, Some(0)), map[0 := OPEN], map[1 := Work(0, Fresh(REJECT))]);
  }

  lemma SceneRejected()
    ensures Occurs(Scene(Run(Parked, Some(0)), map[0 := DECLINED], map[1 := Work(0, GO)]))
  {
    SceneFresh();
    var s := Scene(Run(Parked, Some(0)), map[0 := OPEN], map[1 := Work(0, Fresh(REJECT))]);
    var e := Step(1, false, NO_REPLY, 9);
    OccursNext(s, e);
    var s1 := Apply(s, e);
    assert s1 == Scene(Run(Parked, Some(0)), map[0 := DECLINED], map[1 := Work(0, Resuming(AnswerRejected))]);
    OccursMove(s1, 1, GO);
    assert PutTask(s1, 1, Work(0, GO)) == Scene(Run(Parked, Some(0)), map[0 := DECLINED], map[1 := Work(0, GO)]);
  }

  lemma SceneDecidedAgain()
    ensures Occurs(Scene(Run(Parked, Some(0)), map[0 := DECLINED],
                         map[1 := Work(0, GO), 2 := Work(0, RowLoaded(REJECT, Rejected, None, OPEN.row.value))]))
  {
    SceneRejected();
    var s := Scene(Run(Parked, Some(0)), map[0 := DECLINED], map[1 := Work(0, GO)]);
    OccursNext(s, Decide(0, REJECT, 2));
    var s1 := Apply(s, Decide(0, REJECT, 2));
    OccursMove(s1, 2, RowLoaded(REJECT, Rejected, None, OPEN.row.value));
    assert PutTask(s1, 2, Work(0, RowLoaded(REJECT, Rejected, None, OPEN.row.value)))
        == Scene(Run(Parked, Some(0)), map[0 := DECLINED],
                 map[1 := Work(0, GO), 2 := Work(0, RowLoaded(REJECT, Rejected, None, OPEN.row.value))]);
  }

  lemma SceneTwoFlips()
    ensures Occurs(Scene(Run(Parked, Some(0)), map[0 := DECLINED], map[1 := Work(0, GO), 2 := Work(0, GO)]))
  {
    SceneDecidedAgain();
    var s := Scene(Run(Parked, Some(0)), map[0 := DECLINED],
                   map[1 := Work(0, GO), 2 := Work(0, RowLoaded(REJECT, Rejected, None, OPEN.row.value))]);
    OccursMove(s, 2, Resuming(AnswerRejected));
    var s1 := PutTask(s, 2, Work(0, Resuming(AnswerRejected)));
    OccursMove(s1, 2, GO);
    assert PutTask(s1, 2, Work(0, GO)) == Scene(Run(Parked, Some(0)), map[0 := DECLINED], map[1 := Work(0, GO), 2 := Work(0, GO)]);
  }

  lemma SceneResumed()
    ensures Occurs(Scene(Run(Running, None), map[0 := DECLINED],
                         map[1 := Work(0, Answered(AnswerRejected)), 2 := Work(0, GO)]))
  {
    SceneTwoFlips();
    var s := Scene(Run(Parked, Some(0)), map[0 := DECLINED], map[1 := Work(0, GO), 2 := Work(0, GO)]);
    var e := Step(1, false, NO_REPLY, 9);
    OccursNext(s, e);
    assert Apply(s, e)
        == Scene(Run(Running, None), map[0 := DECLINED], map[1 := Work(0, Answered(AnswerRejected)), 2 := Work(0, GO)]);
  }

  lemma SceneReparked()
    ensures Occurs(Scene(Run(Parked, Some(1)), map[0 := DECLINED, 1 := OPEN],
                         map[1 := Work(0, Answered(AnswerRejected)), 2 := Work(0, GO)]))
  {
    SceneResumed();
    var tasks := map[1 := Work(0, Answered(AnswerRejected)), 2 := Work(0, GO)];
    var s := Scene(Run(Running, None), map[0 := DECLINED], tasks);
    OccursNext(s, Park(0, 1, Some(PARK_FP)));
    assert Apply(s, Park(0, 1, Some(PARK_FP))) == Scene(Run(Parked, Some(1)), map[0 := DECLINED, 1 := OPEN], tasks);
  }

  /** The Run is parked on the pending Proposal 1, and a flip for the decided Proposal 0 is due. */
  function DueScene(decided: Proposal): State {
    Scene(Run(Parked, Some(1)), map[0 := decided, 1 := OPEN], map[1 := Work(0, Answered(AnswerRejected)), 2 := Work(0, GO)])
  }

  const FLIP := Step(2, false, NO_REPLY, 9)

  lemma DueIsLate(decided: Proposal)
    requires decided == DECLINED || decided == NOTED
    ensures var s := DueScene(decided); Waits(s.rows) && Enabled(s, FLIP) && LateFlip(s, FLIP)
  {
    assert Unresolved(DueScene(decided).rows, 1);
  }

  lemma DueTakesTheRun(decided: Proposal)
    requires (decided == DECLINED || decided == NOTED) && Enabled(DueScene(decided), FLIP)
    ensures var s' := Apply(DueScene(decided), FLIP); RunIs(s'.rows, 0, Running) && IsPendingOf(s'.rows, 0, 1) && !Waits(s'.rows)
  {
    assert Unresolved(Apply(DueScene(decided), FLIP).rows, 1);
  }

  /** The resume of an old, decided Proposal can take the Run away from a Proposal the user still has
      to answer: afterwards the Run is running while Proposal 1 is pending. */
  lemma LateFlipHappens() returns (events: seq<Event>, s: State, e: Event)
    ensures Reachable(events, s) && Waits(s.rows) && Enabled(s, e) && LateFlip(s, e)
    ensures var s' := Apply(s, e);
            RunIs(s'.rows, 0, Running) && IsPendingOf(s'.rows, 0, 1) && !Waits(s'.rows)
  {
    SceneReparked();
    s, e := DueScene(DECLINED), FLIP;
    events :| Reachable(events, s);
    DueIsLate(DECLINED);
    DueTakesTheRun(DECLINED);
    hide DueScene, Reachable, Apply, Enabled, Waits;
  }

  // ── with no race at all ────────────────────────────────────────────────

  const NOTE := Proposal(0, Pending, None, None, None, 0, None)
  const NOTED := NOTE.(status := Accepted, key := Some(7), result := Some(OtherDecision))

  lemma SceneNote()
    ensures Occurs(Scene(Run(Parked, Some(0)), map[0 := NOTE], map[]))
  {
    assert Reachable([], INITIAL);
    OccursNext(INITIAL, StartRun(0));
    var s := Apply(INITIAL, StartRun(0));
    assert s == Scene(Run(Running, None), map[], map[]);
    OccursNext(s, Park(0, 0, None));
    assert Apply(s, Park(0, 0, None)) == Scene(Run(Parked, Some(0)), map[0 := NOTE], map[]);
  }

  lemma SceneNoted()
    ensures Occurs(Scene(Run(Parked, Some(0)), map[0 := NOTED], map[1 := Work(0, OtherGate)]))
  {
    SceneNote();
    var s := Scene(Run(Parked, Some(0)), map[0 := NOTE], map[]);
    var e := OtherDecide(0, true, Some(7), true, 1);
    OccursNext(s, e);
    assert Apply(s, e) == Scene(Run(Parked, Some(0)), map[0 := NOTED], map[1 := Work(0, OtherGate)]);
  }

  lemma SceneNoteGoes()
    ensures Occurs(Scene(Run(Parked, Some(0)), map[0 := NOTED], map[1 := Work(0, GO)]))
  {
    SceneNoted();
    var s := Scene(Run(Parked, Some(0)), map[0 := NOTED], map[1 := Work(0, OtherGate)]);
    OccursMove(s, 1, GO);
    assert PutTask(s, 1, Work(0, GO)) == Scene(Run(Parked, Some(0)), map[0 := NOTED], map[1 := Work(0, GO)]);
  }

  lemma SceneNoteResumed()
    ensures Occurs(Scene(Run(Running, None), map[0 := NOTED], map[1 := Work(0, Answered(AnswerRejected))]))
  {
    SceneNoteGoes();
    var s := Scene(Run(Parked, Some(0)), map[0 := NOTED], map[1 := Work(0, GO)]);
    var e := Step(1, false, NO_REPLY, 9);
    OccursNext(s, e);
    assert Apply(s, e) == Scene(Run(Running, None), map[0 := NOTED], map[1 := Work(0, Answered(AnswerRejected))]);
  }

  /** The Run is parked on its next call, a pending write, when the old decide comes in again. */
  const REPLAYED := Scene(Run(Parked, Some(1)), map[0 := NOTED, 1 := OPEN],
                          map[1 := Work(0, Answered(AnswerRejected)), 2 := Work(0, OtherGate)])

  lemma SceneReplayed()
    ensures Occurs(REPLAYED)
  {
    SceneNoteResumed();
    var tasks := map[1 := Work(0, Answered(AnswerRejected))];
    var s := Scene(Run(Running, None), map[0 := NOTED], tasks);
    OccursNext(s, Park(0, 1, Some(PARK_FP)));
    var s1 := Apply(s, Park(0, 1, Some(PARK_FP)));
    assert s1 == Scene(Run(Parked, Some(1)), map[0 := NOTED, 1 := OPEN], tasks);
    OccursNext(s1, OtherDecide(0, true, Some(7), true, 2));
    assert Apply(s1, OtherDecide(0, true, Some(7), true, 2)) == REPLAYED;
  }

  lemma SceneReplayGoes()
    ensures Occurs(PutTask(REPLAYED, 2, Work(0, GO)))
  {
    SceneReplayed();
    OccursMove(REPLAYED, 2, GO);
  }

  /** Nor does it take two decides at once: repeating, under its key, the decide of an old Proposal outside the
      write family is enough. The replay's resume asks only whether the Run is parked, and takes it from the
      pending write. */
  lemma ReplayTakesTheRun() returns (events: seq<Event>, s: State, e: Event)
    ensures Reachable(events, s) && Waits(s.rows) && Enabled(s, e) && LateFlip(s, e)
    ensures s.tasks == map[1 := Work(0, Answered(AnswerRejected)), 2 := Work(0, GO)] && s.rows.proposals[0].row.None?
    ensures var s' := Apply(s, e);
            RunIs(s'.rows, 0, Running) && IsPendingOf(s'.rows, 0, 1) && !Waits(s'.rows)
  {
    SceneReplayGoes();
    s, e := DueScene(NOTED), FLIP;
    assert PutTask(REPLAYED, 2, Work(0, GO)) == s;
    events :| Reachable(events, s);
    DueIsLate(NOTED);
    DueTakesTheRun(NOTED);
    hide Reachable, Apply, Enabled, Waits;
  }
}
