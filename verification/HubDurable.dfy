/** What the operations of the registry leave in the durable rows, on every run: which statuses follow which, what
    each drain, cancel and restart writes, and that a parked Run can be resumed. */
module HubDurable {
  import opened Wrappers
  import opened HubRegistry
  import opened HubSafety

  // ── drains ─────────────────────────────────────────────────────────────

  /** A park that finds its Run running leaves it parked, with no hub and its producer stopped; otherwise, or when
      its write fails, it changes nothing. */
  lemma ParkWrites(events: seq<Event>, s: State, o: OpId, ok: bool)
    requires Reachable(events, s) && Enabled(s, Settle(o, ok)) && s.ops[o].job.Park?
    ensures var r, g, s' := s.ops[o].run, s.ops[o].job.gen, Apply(s, Settle(o, ok));
            && s'.ops == s.ops - {o}
            && if ok && StatusIs(s, r, Some(Running))
               then s'.status == s.status[r := Parked] && Registered(s, r, g) && s'.active == s.active - {r}
                    && s'.gens == s.gens[g := Gen(r, false, Stopped)]
               else s'.status == s.status && s'.active == s.active && s'.gens == s.gens
  {
    ReachableInv(events, s);
    assert OpOk(s, s.ops[o]) && GenOk(s, s.ops[o].pc.gate);
  }

  /** The producer's own end: a running Run gets the end it was given and loses its hub, one that was cancelled
      meanwhile keeps that; an end that cannot be written leaves rows and hub and a stuck producer. */
  lemma FinishWrites(events: seq<Event>, s: State, o: OpId, ok: bool)
    requires Reachable(events, s) && Enabled(s, Settle(o, ok)) && s.ops[o].job.Finish?
    ensures var r, g, s' := s.ops[o].run, s.ops[o].job.gen, Apply(s, Settle(o, ok));
            && s'.ops == s.ops - {o} && g in s.gens
            && s'.gens == s.gens[g := s.gens[g].(producer := if ok then Stopped else Fatal)]
            && (ok && StatusIs(s, r, Some(Running)) ==>
                  s'.status == s.status[r := s.ops[o].job.to] && Registered(s, r, g) && s'.active == s.active - {r})
            && (!(ok && StatusIs(s, r, Some(Running))) ==> s'.status == s.status && s'.active == s.active)
            && (StatusIs(s, r, Some(Running)) || StatusIs(s, r, Some(Cancelled)))
  {
    ReachableInv(events, s);
    var r, g := s.ops[o].run, s.ops[o].pc.gate;
    assert OpOk(s, s.ops[o]) && GenOk(s, g) && RunOk(s, r);
    NoneStarting(s, o);
  }

  /** Retirement stops its generation and does nothing else. */
  lemma RetireWrites(events: seq<Event>, s: State, o: OpId, ok: bool)
    requires Reachable(events, s) && Enabled(s, Settle(o, ok)) && s.ops[o].job.Retire?
    ensures var g, s' := s.ops[o].job.gen, Apply(s, Settle(o, ok));
            && s'.ops == s.ops - {o} && s'.status == s.status && s'.active == s.active
            && g in s.gens && s'.gens == s.gens[g := s.gens[g].(producer := Stopped)]
  {
    RetireIsNoOp(events, s, o, ok);
    ReachableInv(events, s);
    assert OpOk(s, s.ops[o]);
  }

  // ── cancels and readers ────────────────────────────────────────────────

  /** A cancel decides from the row it reads under the slot. A parked Run is cancelled at once; a running one waits
      for the gate of its hub; anything else, and a write that fails, is left as it is. */
  lemma CancelDecides(events: seq<Event>, s: State, o: OpId, ok: bool)
    requires Reachable(events, s) && s.booted && Enabled(s, Work(o, ok)) && s.ops[o].job.Cancel?
    ensures var r, s' := s.ops[o].run, Apply(s, Work(o, ok));
            && s'.active == s.active && s'.gens == s.gens
            && s'.status == (if ok && StatusIs(s, r, Some(Parked)) then s.status[r := Cancelled] else s.status)
            && (if StatusIs(s, r, Some(Running))
                then r in s.active && s'.ops == s.ops[o := s.ops[o].(pc := WaitGate(Some(s.ops[o].pc.slot), s.active[r]))]
                else s'.ops == s.ops - {o})
  {
    ReachableInv(events, s);
    SlotTellsTheTruth(s, o);
  }

  /** With the gate it cancels the Run, marks the producer's generation and removes its hub, all or nothing. */
  lemma CancelWrites(events: seq<Event>, s: State, o: OpId, ok: bool)
    requires Reachable(events, s) && Enabled(s, Settle(o, ok)) && s.ops[o].job.Cancel?
    ensures var r, g, s' := s.ops[o].run, s.ops[o].pc.gate, Apply(s, Settle(o, ok));
            && s'.ops == s.ops - {o} && Registered(s, r, g) && StatusIs(s, r, Some(Running))
            && if ok
               then s'.status == s.status[r := Cancelled] && s'.active == s.active - {r}
                    && s'.gens == s.gens[g := s.gens[g].(cancelled := true)]
               else s'.status == s.status && s'.active == s.active && s'.gens == s.gens
  {
    ReachableInv(events, s);
    assert OpOk(s, s.ops[o]);
  }

  /** Under the slot a subscriber takes exactly the registered hub, or ends without one. */
  lemma SubscriberReaches(s: State, o: OpId, ok: bool)
    requires o in s.ops && s.ops[o].pc.Inside? && s.ops[o].job.Subscribe?
    ensures var r, s' := s.ops[o].run, ApplyWork(s, o, ok);
            && s'.status == s.status && s'.active == s.active && s'.gens == s.gens
            && if r in s.active
               then s'.ops == s.ops[o := s.ops[o].(pc := WaitGate(Some(s.ops[o].pc.slot), s.active[r]))]
               else s'.ops == s.ops - {o}
  {
  }

  /** Under the gate a subscriber, a publisher or a recovery writes nothing. */
  lemma ReadersWriteNothing(s: State, o: OpId, ok: bool)
    requires o in s.ops && s.ops[o].pc.Held? && s.ops[o].pc.gate in s.gens && (s.ops[o].job.Subscribe? || s.ops[o].job.Tail?)
    ensures ApplySettle(s, o, ok) == s.(ops := s.ops - {o})
  {
  }

  /** A crash forgets everything in memory and no row; the restart errors exactly the Runs it left running. */
  lemma RestartErrorsTheRunning(s: State, r: RunId)
    ensures var down := Apply(s, Crash);
            && down.status == s.status && !down.booted && down.active == map[] && down.ops == map[] && down.gens == map[]
            && Enabled(down, Recover)
            && var up := Apply(down, Recover);
               && up.booted && (r in up.status <==> r in s.status) && up.active == map[]
               && (r in s.status ==> up.status[r] == if s.status[r] == Running then Errored else s.status[r])
  {
  }

  /** Nobody is kept out: at any time after boot anyone may try to start, resume or retry any Run, cancel it or
      subscribe to it, and a producer with no drain under way may park, complete or fail; one that stopped or was
      cancelled may retire. Whoever still waits may give up, unless it holds its slot. */
  lemma AnyoneMayBegin(s: State, o: OpId, r: RunId, g: GenId)
    requires s.booted && o !in s.ops
    ensures Enabled(s, Begin(o, r, Cancel)) && Enabled(s, Begin(o, r, Subscribe))
    ensures forall from :: from in {None, Some(Parked), Some(Errored)} ==> Enabled(s, Begin(o, r, Activate(from)))
    ensures g in s.gens && s.gens[g].run == r ==> Enabled(s, Begin(o, r, Tail(g)))
    ensures g in s.gens && s.gens[g].run == r && DriverFree(s.ops, g) ==>
              && (s.gens[g].producer == Producing ==>
                    Enabled(s, Begin(o, r, Park(g))) && Enabled(s, Begin(o, r, Finish(g, Completed))) && Enabled(s, Begin(o, r, Finish(g, Errored))))
              && (s.gens[g].producer == Stopped || s.gens[g].cancelled ==> Enabled(s, Begin(o, r, Retire(g))))
    ensures forall p :: p in s.ops && (s.ops[p].pc.WaitSlot? || (s.ops[p].pc.WaitGate? && s.ops[p].job.Tail? && s.ops[p].pc.under.None?)) ==>
              Enabled(s, Abandon(p))
  {
  }

  // ── the life of a Run ──────────────────────────────────────────────────

  /** Who may move a Run's row, and from where to where. */
  predicate MayMove(s: State, e: Event, r: RunId, from: Option<Status>, to: Status) {
    if e.Recover? then from == Some(Running) && to == Errored
    else
      && (e.Settle? || e.Work?) && e.o in s.ops && s.ops[e.o].run == r
      && match s.ops[e.o].job
         case Activate(wanted) => to == Running && from == wanted && (from == None || from == Some(Parked) || from == Some(Errored))
         case Park(_) => from == Some(Running) && to == Parked
         case Finish(_, end) => from == Some(Running) && to == end && (end == Completed || end == Errored)
         case Cancel => (from == Some(Running) || from == Some(Parked)) && to == Cancelled
         case _ => false
  }

  function StatusOf(s: State, r: RunId): Option<Status> {
    if r in s.status then Some(s.status[r]) else None
  }

  /** A step moved no row but perhaps that of `r`, and that one as allowed. */
  ghost predicate MovedAsAllowed(s: State, e: Event, s': State, r: RunId) {
    StatusOf(s', r) != StatusOf(s, r) ==> StatusOf(s', r).Some? && MayMove(s, e, r, StatusOf(s, r), StatusOf(s', r).value)
  }

  lemma ActivationMoves(s: State, o: OpId, ok: bool, r: RunId)
    requires Inv(s) && Enabled(s, Settle(o, ok)) && s.ops[o].job.Activate?
    ensures MovedAsAllowed(s, Settle(o, ok), ApplySettle(s, o, ok), r)
  {
    assert OpOk(s, s.ops[o]);
    hide Inv, OpOk;
  }

  lemma SettleMoves(events: seq<Event>, s: State, o: OpId, ok: bool, r: RunId)
    requires Reachable(events, s) && Enabled(s, Settle(o, ok))
    ensures MovedAsAllowed(s, Settle(o, ok), Apply(s, Settle(o, ok)), r)
  {
    ReachableInv(events, s);
    assert OpOk(s, s.ops[o]);
    hide ApplySettle, Inv, Reachable;
    match s.ops[o].job {
      case Activate(_) => ActivationMoves(s, o, ok, r);
      case Park(_) => ParkWrites(events, s, o, ok);
      case Finish(_, _) => FinishWrites(events, s, o, ok);
      case Retire(_) => RetireWrites(events, s, o, ok);
      case Cancel => CancelWrites(events, s, o, ok);
      case _ => ReadersWriteNothing(s, o, ok);
    }
  }

  lemma WorkKeepsRows(s: State, o: OpId, ok: bool)
    requires o in s.ops && s.ops[o].pc.Inside? && !s.ops[o].job.Cancel?
    ensures ApplyWork(s, o, ok).status == s.status
  {
    match s.ops[o].job {
      case Activate(_) =>
      case Park(_) =>
      case Finish(_, _) =>
      case Retire(_) =>
      case Subscribe =>
      case Tail(_) =>
    }
  }

  lemma WorkMoves(events: seq<Event>, s: State, o: OpId, ok: bool, r: RunId)
    requires Reachable(events, s) && Enabled(s, Work(o, ok))
    ensures MovedAsAllowed(s, Work(o, ok), Apply(s, Work(o, ok)), r)
  {
    ReachableInv(events, s);
    if s.ops[o].job.Cancel? {
      CancelDecides(events, s, o, ok);
      hide ApplyWork, Inv;
    } else {
      WorkKeepsRows(s, o, ok);
      hide ApplyWork, Inv;
    }
  }

  /** On every run a Run's row is never deleted, and moves only as its life allows: started, resumed or retried to
      running; from there parked, ended or cancelled; cancelled also while parked; errored by a restart. A
      completed or cancelled Run never moves again. */
  lemma RowsMoveAsAllowed(events: seq<Event>, s: State, e: Event, r: RunId)
    requires Reachable(events, s) && Enabled(s, e)
    ensures StatusOf(Apply(s, e), r) != StatusOf(s, r) ==>
              StatusOf(Apply(s, e), r).Some? && MayMove(s, e, r, StatusOf(s, r), StatusOf(Apply(s, e), r).value)
    ensures StatusIs(s, r, Some(Completed)) || StatusIs(s, r, Some(Cancelled)) ==> StatusOf(Apply(s, e), r) == StatusOf(s, r)
  {
    hide ApplySettle, ApplyWork, Reachable;
    match e {
      case Settle(o, ok) => SettleMoves(events, s, o, ok, r);
      case Work(o, ok) => WorkMoves(events, s, o, ok, r);
      case _ =>
    }
  }

  // ── park, then resume ──────────────────────────────────────────────────

  /** This event is another operation of Run `r` at work: anything inside its slot but the activation `o`. */
  predicate WorksOn(s: State, e: Event, r: RunId, o: OpId) {
    (e.Work? || e.Settle?) && e.o in s.ops && s.ops[e.o].run == r && e.o != o
  }

  ghost predicate LeftAlone(from: State, events: seq<Event>, s: State, r: RunId, o: OpId)
    requires Reaches(from, events, s)
    decreases |events|
  {
    events != [] ==>
      && !WorksOn(from, events[0], r, o) && !(events[0].Settle? && events[0].o == o)
      && LeftAlone(Apply(from, events[0]), events[1..], s, r, o)
  }

  /** While a parked Run is left alone its row stays parked, and a hub is registered for it only by the activation
      `o`, which then holds its gate. */
  ghost predicate Resumable(s: State, r: RunId, o: OpId) {
    && Inv(s) && StatusIs(s, r, Some(Parked))
    && (r in s.active ==> o in s.ops && s.ops[o].run == r && s.ops[o].job.Activate? && s.ops[o].pc.Held?)
  }

  lemma SettleEnds(s: State, o: OpId, ok: bool)
    requires o in s.ops && s.ops[o].pc.Held? && s.ops[o].pc.gate in s.gens
    ensures ApplySettle(s, o, ok).ops == s.ops - {o}
  {
    hide StatusIs;
    match s.ops[o].job {
      case Activate(_) =>
      case Park(_) =>
      case Finish(_, _) =>
      case Retire(_) =>
      case Cancel =>
      case _ =>
    }
  }

  lemma SettleOffRow(s: State, o: OpId, ok: bool, r: RunId)
    requires o in s.ops && s.ops[o].pc.Held? && s.ops[o].pc.gate in s.gens && s.ops[o].run != r
    ensures var s' := ApplySettle(s, o, ok); (r in s'.status <==> r in s.status) && (r in s.status ==> s'.status[r] == s.status[r])
  {
    hide StatusIs;
    match s.ops[o].job {
      case Activate(_) =>
      case Park(_) =>
      case Finish(_, _) =>
      case Retire(_) =>
      case Cancel =>
      case _ =>
    }
  }

  lemma SettleOffHub(s: State, o: OpId, ok: bool, r: RunId)
    requires o in s.ops && s.ops[o].pc.Held? && s.ops[o].pc.gate in s.gens && s.ops[o].run != r
    ensures var s' := ApplySettle(s, o, ok); (r in s'.active <==> r in s.active) && (r in s.active ==> s'.active[r] == s.active[r])
  {
    hide StatusIs;
    match s.ops[o].job {
      case Activate(_) =>
      case Park(_) =>
      case Finish(_, _) =>
      case Retire(_) =>
      case Cancel =>
      case _ =>
    }
  }

  lemma WorkOnlyOps(s: State, o: OpId, ok: bool, p: OpId)
    requires o in s.ops && s.ops[o].pc.Inside? && p != o
    ensures var s' := ApplyWork(s, o, ok); (p in s'.ops <==> p in s.ops) && (p in s.ops ==> s'.ops[p] == s.ops[p])
  {
    hide StatusIs;
    match s.ops[o].job {
      case Activate(_) =>
      case Park(_) =>
      case Finish(_, _) =>
      case Retire(_) =>
      case Cancel =>
      case _ =>
    }
  }

  lemma WorkOffRun(s: State, o: OpId, ok: bool, r: RunId)
    requires o in s.ops && s.ops[o].pc.Inside? && s.ops[o].run != r
    ensures SameRun(s, ApplyWork(s, o, ok), r)
  {
    hide StatusIs;
    match s.ops[o].job {
      case Activate(_) =>
      case Park(_) =>
      case Finish(_, _) =>
      case Retire(_) =>
      case Cancel =>
      case _ =>
    }
  }

  /** The activation `o` at work in its slot finds it vacant and registers its hub. */
  lemma OwnWork(s: State, r: RunId, o: OpId, ok: bool)
    requires Resumable(s, r, o) && Enabled(s, Work(o, ok)) && s.ops[o].run == r && s.ops[o].job.Activate?
    ensures var s' := ApplyWork(s, o, ok);
            && s'.status == s.status && o in s'.ops && s'.ops[o].run == r && s'.ops[o].job.Activate?
            && s'.ops[o].pc == Held(Some(s.ops[o].pc.slot), s.nextGen)
  {
    hide Inv;
  }

  lemma OthersResumable(s: State, e: Event, r: RunId, o: OpId)
    requires Resumable(s, r, o) && Enabled(s, e) && !e.Work? && !e.Settle? && Inv(Apply(s, e))
    requires o in s.ops ==> s.ops[o].run == r && s.ops[o].job.Activate?
    ensures Resumable(Apply(s, e), r, o)
  {
    hide Inv;
  }

  lemma ResumableStep(s: State, e: Event, r: RunId, o: OpId)
    requires Resumable(s, r, o) && Enabled(s, e) && !WorksOn(s, e, r, o) && !(e.Settle? && e.o == o)
    requires o in s.ops ==> s.ops[o].run == r && s.ops[o].job.Activate?
    ensures Resumable(Apply(s, e), r, o)
  {
    EventKeeps(s, e);
    hide Inv, ApplyWork, ApplySettle;
    match e {
      case Settle(p, ok) =>
        SettleEnds(s, p, ok);
        SettleOffRow(s, p, ok, r);
        SettleOffHub(s, p, ok, r);
      case Work(p, ok) =>
        if p == o {
          OwnWork(s, r, o, ok);
        } else {
          WorkOffRun(s, p, ok, r);
          WorkOnlyOps(s, p, ok, o);
        }
      case _ => OthersResumable(s, e, r, o);
    }
  }

  /** `o` is, whenever it is an operation at all, a resume of Run `r`. */
  ghost predicate Resumes(from: State, events: seq<Event>, s: State, r: RunId, o: OpId)
    requires Reaches(from, events, s)
    decreases |events|
  {
    && (o in from.ops ==> from.ops[o].run == r && from.ops[o].job == Activate(Some(Parked)))
    && (events != [] ==> Resumes(Apply(from, events[0]), events[1..], s, r, o))
  }

  lemma {:induction false} ResumableFrom(from: State, events: seq<Event>, s: State, r: RunId, o: OpId)
    requires Resumable(from, r, o) && Reaches(from, events, s) && Resumes(from, events, s, r, o) && LeftAlone(from, events, s, r, o)
    ensures Resumable(s, r, o) && (o in s.ops ==> s.ops[o].run == r && s.ops[o].job == Activate(Some(Parked)))
    decreases |events|
  {
    if events != [] {
      ResumableStep(from, events[0], r, o);
      ResumableFrom(Apply(from, events[0]), events[1..], s, r, o);
    }
  }

  /** A Run that was parked can be resumed: whatever other Runs, subscribers and restarts do between, as long as no
      other operation works on this Run, its next resume finds the slot vacant, registers a hub, and wins its CAS:
      the Run is running again with the fresh generation producing. */
  lemma {:induction false} ParkedRunResumes(events: seq<Event>, s: State, p: OpId, between: seq<Event>, s': State, o: OpId)
    requires Reachable(events, s) && Enabled(s, Settle(p, true)) && s.ops[p].job.Park? && StatusIs(s, s.ops[p].run, Some(Running))
    requires var r, parked := s.ops[p].run, Apply(s, Settle(p, true));
             o != p && Reaches(parked, between, s') && Resumes(parked, between, s', r, o) && LeftAlone(parked, between, s', r, o)
    ensures Enabled(s', Work(o, true)) ==> var up := Apply(s', Work(o, true)); o in up.ops && up.ops[o].pc.Held?
    ensures Enabled(s', Settle(o, true)) ==>
              var r, up := s.ops[p].run, Apply(s', Settle(o, true));
              var g := s'.ops[o].pc.gate;
              up.status == s'.status[r := Running] && Registered(up, r, g) && g in up.gens && up.gens[g] == Gen(r, false, Producing)
  {
    var r, parked := s.ops[p].run, Apply(s, Settle(p, true));
    ParkWrites(events, s, p, true);
    ReachableInv(events, s);
    EventKeeps(s, Settle(p, true));
    assert Resumable(parked, r, o);
    ResumableFrom(parked, between, s', r, o);
    if Enabled(s', Settle(o, true)) { assert OpOk(s', s'.ops[o]); }
    hide Inv, Reaches, Resumes, LeftAlone, Reachable;
  }
}
