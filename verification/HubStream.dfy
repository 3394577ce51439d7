/** The live stream of one Run: gated persist-then-send publishers, a lossy bounded broadcast per
    generation of the hub, and subscribers that attach, lag, recover and re-attach. One event per step
    between two awaits; any number of subscribers, any interleaving. */
module HubStream {
  import opened Wrappers

  datatype RunEvent =
    | TextDelta(delta: string)
    | ReasoningDelta(delta: string)
    | ToolCall(id: string, status: string)
    | Done
    | Cancelled
    | Error(message: string)

  type SubId = nat

  const HUB_BUFFER: nat := 256

  /** Who holds a generation's gate: a publisher with committed events still to send, or a subscriber
      with or without its snapshot read. */
  datatype Gate =
    | Free
    | Publishing(pending: seq<RunEvent>)
    | Attaching(sub: SubId, snapshot: Option<Snapshot>)

  /** What a gated read returned, and which attempt of the Run it read. */
  datatype Snapshot = Snapshot(timeline: seq<RunEvent>, attempt: nat)

  /** One generation of the hub: the log it started from, all it ever sent, and whether its sender lives. */
  datatype Generation = Generation(base: seq<RunEvent>, attempt: nat, sent: seq<RunEvent>, open: bool, gate: Gate)

  /** A tail: its generation, its position in it, what its client shows (latest snapshot plus the events
      received since) and the attempt of that snapshot. */
  datatype Tail = Tail(gen: nat, cursor: nat, view: seq<RunEvent>, attempt: nat)

  /** `log` is the persisted timeline; `attempt` counts the retries that cleared it. */
  datatype State = State(log: seq<RunEvent>, attempt: nat, gens: seq<Generation>, tails: map<SubId, Tail>)

  datatype Event =
    // generation turnover: activation inserts a hub, a drain removes it; a retry clears the log first
    | Open(retry: bool)
    | PersistOffHub(batch: seq<RunEvent>)
    // a publisher: lock, commit, send one at a time, unlock or drain
    | Lock
    | Commit(batch: seq<RunEvent>)
    | Send
    | Unlock
    | Drain
    // a subscriber, or a lagged tail: lock, read, attach at the tail and unlock
    | BeginAttach(s: SubId, gen: nat)
    | ReadSnapshot(gen: nat)
    | Attach(gen: nat)
    | Receive(s: SubId)
    | Leave(s: SubId)

  predicate NoneOpen(s: State) {
    s.gens == [] || !s.gens[|s.gens| - 1].open
  }

  function Current(s: State): Generation
    requires s.gens != []
  {
    s.gens[|s.gens| - 1]
  }

  predicate LiveGate(s: State, publishing: bool) {
    s.gens != [] && Current(s).open && (if publishing then Current(s).gate.Publishing? else Current(s).gate.Free?)
  }

  /** A tail may still be served by the buffer: it is at most its depth behind. */
  predicate Served(g: Generation, t: Tail) {
    |g.sent| <= t.cursor + HUB_BUFFER
  }

  /** A subscriber's task is inside an attach or a recovery; it neither receives nor leaves until it is done. */
  predicate Busy(s: State, sub: SubId) {
    exists i :: 0 <= i < |s.gens| && s.gens[i].gate.Attaching? && s.gens[i].gate.sub == sub
  }

  /** A tail that has received all its closed generation sent sees `Closed`. */
  predicate SeesClosed(s: State, t: Tail) {
    t.gen < |s.gens| && !s.gens[t.gen].open && t.cursor == |s.gens[t.gen].sent|
  }

  predicate Enabled(s: State, e: Event) {
    match e
    case Open(_) => NoneOpen(s)
    case PersistOffHub(_) => NoneOpen(s)
    case Lock => LiveGate(s, false)
    case Commit(_) => LiveGate(s, true) && Current(s).gate.pending == []
    case Send => LiveGate(s, true) && Current(s).gate.pending != []
    case Unlock => LiveGate(s, true) && Current(s).gate.pending == []
    case Drain => LiveGate(s, true) && Current(s).gate.pending == []
    case BeginAttach(sub, gen) =>
      // a fresh subscriber, or one that saw its generation close, attaches to the registered hub;
      // a lagged one recovers on the generation it is on
      && !Busy(s, sub) && gen < |s.gens| && s.gens[gen].gate.Free?
      && (if sub in s.tails && s.tails[sub].gen == gen then !Served(s.gens[gen], s.tails[sub])
          else gen == |s.gens| - 1 && s.gens[gen].open && (sub in s.tails ==> SeesClosed(s, s.tails[sub])))
    case ReadSnapshot(gen) => gen < |s.gens| && s.gens[gen].gate.Attaching? && s.gens[gen].gate.snapshot.None?
    case Attach(gen) => gen < |s.gens| && s.gens[gen].gate.Attaching? && s.gens[gen].gate.snapshot.Some?
    case Receive(sub) =>
      !Busy(s, sub) && sub in s.tails && s.tails[sub].gen < |s.gens| && Served(s.gens[s.tails[sub].gen], s.tails[sub])
      && s.tails[sub].cursor < |s.gens[s.tails[sub].gen].sent|
    case Leave(sub) => !Busy(s, sub) && sub in s.tails
  }

  function PutGen(s: State, i: nat, g: Generation): State
    requires i < |s.gens|
  {
    s.(gens := s.gens[i := g])
  }

  function PutCurrent(s: State, g: Generation): State
    requires s.gens != []
  {
    PutGen(s, |s.gens| - 1, g)
  }

  function Apply(s: State, e: Event): State
    requires Enabled(s, e)
  {
    match e
    case Open(retry) =>
      var log := if retry then [] else s.log;
      var attempt := if retry then s.attempt + 1 else s.attempt;
      s.(log := log, attempt := attempt, gens := s.gens + [Generation(log, attempt, [], true, Free)])
    case PersistOffHub(batch) => s.(log := s.log + batch)
    case Lock => PutCurrent(s, Current(s).(gate := Publishing([])))
    case Commit(batch) => PutCurrent(s, Current(s).(gate := Publishing(batch))).(log := s.log + batch)
    case Send =>
      var g := Current(s);
      PutCurrent(s, g.(sent := g.sent + [g.gate.pending[0]], gate := Publishing(g.gate.pending[1..])))
    case Unlock => PutCurrent(s, Current(s).(gate := Free))
    case Drain => PutCurrent(s, Current(s).(gate := Free, open := false))
    case BeginAttach(sub, gen) => PutGen(s, gen, s.gens[gen].(gate := Attaching(sub, None)))
    case ReadSnapshot(gen) =>
      var g := s.gens[gen];
      PutGen(s, gen, g.(gate := Attaching(g.gate.sub, Some(Snapshot(s.log, s.attempt)))))
    case Attach(gen) =>
      var g := s.gens[gen];
      var tail := Tail(gen, |g.sent|, g.gate.snapshot.value.timeline, g.gate.snapshot.value.attempt);
      PutGen(s, gen, g.(gate := Free)).(tails := s.tails[g.gate.sub := tail])
    case Receive(sub) =>
      var t := s.tails[sub];
      s.(tails := s.tails[sub := t.(view := t.view + [s.gens[t.gen].sent[t.cursor]], cursor := t.cursor + 1)])
    case Leave(sub) => s.(tails := s.tails - {sub})
  }

  // ── the invariant ──────────────────────────────────────────────────────

  function PendingOf(g: Generation): seq<RunEvent> {
    if g.gate.Publishing? then g.gate.pending else []
  }

  /** A generation's own log is a prefix of the persisted one, as long as no retry cleared it; the live
      generation's log is all of it, and a closed one owes nothing. */
  ghost predicate GenOk(s: State, i: nat)
    requires i < |s.gens|
  {
    var g := s.gens[i];
    && g.attempt <= s.attempt
    && (g.attempt == s.attempt ==> g.base + g.sent + PendingOf(g) <= s.log)
    && (g.open ==> i == |s.gens| - 1 && g.attempt == s.attempt && g.base + g.sent + PendingOf(g) == s.log)
    && (!g.open ==> PendingOf(g) == [])
    && (g.gate.Attaching? && g.gate.snapshot.Some? ==> SnapshotOk(s, g, g.gate.snapshot.value))
  }

  /** A snapshot read under the gate is still the live generation's log when the tail attaches. */
  ghost predicate SnapshotOk(s: State, g: Generation, snapshot: Snapshot) {
    && snapshot.attempt <= s.attempt
    && (snapshot.attempt == s.attempt ==> snapshot.timeline <= s.log)
    && (g.open ==> snapshot == Snapshot(g.base + g.sent, g.attempt))
  }

  /** A tail in step shows its generation's log up to its position. Only a recovery that outlived its
      generation is not in step, and then it has nothing left to receive there. */
  ghost predicate TailOk(s: State, t: Tail) {
    && t.gen < |s.gens|
    && t.cursor <= |s.gens[t.gen].sent|
    && t.attempt <= s.attempt
    && (t.attempt == s.attempt ==> t.view <= s.log)
    && ((t.view == s.gens[t.gen].base + s.gens[t.gen].sent[..t.cursor] && t.attempt == s.gens[t.gen].attempt)
        || (!s.gens[t.gen].open && t.cursor == |s.gens[t.gen].sent|))
  }

  /** What the tail shows is part of the snapshot, unless a retry came between. */
  predicate ShownBy(t: Tail, snapshot: Snapshot) {
    t.attempt <= snapshot.attempt && (t.attempt == snapshot.attempt ==> t.view <= snapshot.timeline)
  }

  /** While a task is busy its tail stands still, so the snapshot it read extends what it shows. */
  ghost predicate BusyOk(s: State, i: nat)
    requires i < |s.gens|
  {
    var gate := s.gens[i].gate;
    gate.Attaching? ==>
      && (forall j :: 0 <= j < |s.gens| && s.gens[j].gate.Attaching? && s.gens[j].gate.sub == gate.sub ==> j == i)
      && (gate.snapshot.Some? && gate.sub in s.tails ==> ShownBy(s.tails[gate.sub], gate.snapshot.value))
  }

  ghost predicate Inv(s: State) {
    && (forall i :: 0 <= i < |s.gens| ==> GenOk(s, i) && BusyOk(s, i))
    && (forall sub :: sub in s.tails ==> TailOk(s, s.tails[sub]))
  }

  lemma TurnoverKeeps(s: State, e: Event)
    requires Inv(s) && Enabled(s, e) && (e.Open? || e.PersistOffHub?)
    ensures Inv(Apply(s, e))
  {
    var s' := Apply(s, e);
    forall i | 0 <= i < |s'.gens| ensures GenOk(s', i) && BusyOk(s', i) {
      if i < |s.gens| { assert GenOk(s, i) && BusyOk(s, i) && s'.gens[i] == s.gens[i]; }
    }
    forall sub | sub in s'.tails ensures TailOk(s', s'.tails[sub]) {
      assert TailOk(s, s.tails[sub]) && s'.gens[s.tails[sub].gen] == s.gens[s.tails[sub].gen];
    }
  }

  lemma PublisherKeeps(s: State, e: Event)
    requires Inv(s) && Enabled(s, e) && (e.Lock? || e.Commit? || e.Send? || e.Unlock? || e.Drain?)
    ensures Inv(Apply(s, e))
  {
    var s' := Apply(s, e);
    var k := |s.gens| - 1;
    var g, g' := s.gens[k], s'.gens[k];
    assert GenOk(s, k);
    assert g'.base + g'.sent + PendingOf(g') == s'.log by {
      if e.Send? { assert g.gate.pending == [g.gate.pending[0]] + g.gate.pending[1..]; }
    }
    forall i | 0 <= i < |s'.gens| ensures GenOk(s', i) && BusyOk(s', i) {
      if i != k { assert GenOk(s, i) && BusyOk(s, i); }
    }
    forall sub | sub in s'.tails ensures TailOk(s', s'.tails[sub]) {
      var t := s.tails[sub];
      assert TailOk(s, t);
      assert s'.gens[t.gen].sent[..t.cursor] == s.gens[t.gen].sent[..t.cursor];
    }
  }

  lemma GateKeeps(s: State, e: Event)
    requires Inv(s) && Enabled(s, e) && (e.BeginAttach? || e.ReadSnapshot? || e.Attach?)
    ensures Inv(Apply(s, e))
  {
    var s' := Apply(s, e);
    assert GenOk(s, e.gen);
    forall i | 0 <= i < |s'.gens| ensures GenOk(s', i) && BusyOk(s', i) {
      assert GenOk(s, i) && BusyOk(s, i);
    }
    forall sub | sub in s'.tails ensures TailOk(s', s'.tails[sub]) {
      if sub in s.tails { assert TailOk(s, s.tails[sub]); }
      if e.Attach? { assert s.gens[e.gen].sent[..|s.gens[e.gen].sent|] == s.gens[e.gen].sent; }
    }
  }

  lemma TailKeeps(s: State, e: Event)
    requires Inv(s) && Enabled(s, e) && (e.Receive? || e.Leave?)
    ensures Inv(Apply(s, e))
  {
    var s' := Apply(s, e);
    forall i | 0 <= i < |s'.gens| ensures GenOk(s', i) && BusyOk(s', i) {
      assert GenOk(s, i) && BusyOk(s, i);
    }
    forall sub | sub in s'.tails ensures TailOk(s', s'.tails[sub]) {
      var t := s.tails[sub];
      assert TailOk(s, t);
      if e == Receive(sub) {
        var g := s.gens[t.gen];
        assert GenOk(s, t.gen);
        assert g.sent[..t.cursor + 1] == g.sent[..t.cursor] + [g.sent[t.cursor]];
        assert g.base + g.sent[..t.cursor + 1] <= g.base + g.sent + PendingOf(g);
      }
    }
  }

  lemma EventKeeps(s: State, e: Event)
    requires Inv(s) && Enabled(s, e)
    ensures Inv(Apply(s, e))
  {
    match e {
      case Open(_) => TurnoverKeeps(s, e);
      case PersistOffHub(_) => TurnoverKeeps(s, e);
      case Receive(_) => TailKeeps(s, e);
      case Leave(_) => TailKeeps(s, e);
      case BeginAttach(_, _) => GateKeeps(s, e);
      case ReadSnapshot(_) => GateKeeps(s, e);
      case Attach(_) => GateKeeps(s, e);
      case _ => PublisherKeeps(s, e);
    }
  }

  // ── every run ──────────────────────────────────────────────────────────

  ghost predicate Reaches(from: State, events: seq<Event>, s: State)
    decreases |events|
  {
    if events == [] then s == from
    else Enabled(from, events[0]) && Reaches(Apply(from, events[0]), events[1..], s)
  }

  lemma {:induction false} InvOnEveryRun(from: State, events: seq<Event>, s: State)
    requires Inv(from) && Reaches(from, events, s)
    ensures Inv(s)
    decreases |events|
  {
    if events != [] {
      EventKeeps(from, events[0]);
      InvOnEveryRun(Apply(from, events[0]), events[1..], s);
    }
  }

  const INITIAL := State([], 0, [], map[])

  /** Exactly once: in every state of every run, what a client shows is a prefix of the persisted log,
      with no gap and no duplicate (unless a retry has since cleared the attempt it shows), and on the
      live generation it is all of the log as soon as the tail is drained and the gate is free. */
  lemma {:induction false} ExactlyOnce(events: seq<Event>, s: State, sub: SubId)
    requires Reaches(INITIAL, events, s) && sub in s.tails
    ensures var t := s.tails[sub];
            && (t.attempt == s.attempt ==> t.view <= s.log)
            && t.gen < |s.gens|
            && (s.gens[t.gen].open ==> t.attempt == s.attempt)
            && (s.gens[t.gen].open && !s.gens[t.gen].gate.Publishing? && t.cursor == |s.gens[t.gen].sent| ==> t.view == s.log)
  {
    InvOnEveryRun(INITIAL, events, s);
    var t := s.tails[sub];
    assert TailOk(s, t) && GenOk(s, t.gen);
    assert s.gens[t.gen].sent[..|s.gens[t.gen].sent|] == s.gens[t.gen].sent;
    assert s.gens[t.gen].base + s.gens[t.gen].sent + [] == s.gens[t.gen].base + s.gens[t.gen].sent;
  }

  /** How far a live tail is behind is exactly what it has not received plus what is committed but not
      yet sent: nothing is lost on the way. */
  lemma {:induction false} NothingIsLost(events: seq<Event>, s: State, sub: SubId)
    requires Reaches(INITIAL, events, s) && sub in s.tails
    requires s.tails[sub].gen < |s.gens| && s.gens[s.tails[sub].gen].open
    ensures var t := s.tails[sub];
            var g := s.gens[t.gen];
            t.cursor <= |g.sent| && s.log == t.view + g.sent[t.cursor..] + PendingOf(g)
  {
    InvOnEveryRun(INITIAL, events, s);
    var t := s.tails[sub];
    var g := s.gens[t.gen];
    assert TailOk(s, t) && GenOk(s, t.gen);
    assert g.sent == g.sent[..t.cursor] + g.sent[t.cursor..];
  }

  /** What one client shows only ever grows, unless a retry cleared it: receiving, recovering from a lag
      and re-attaching to the next generation extend the view, and never take a delivered event back. A
      snapshot attached to the live generation is all of the log. */
  lemma {:induction false} ViewsGrow(events: seq<Event>, s: State, e: Event, sub: SubId)
    requires Reaches(INITIAL, events, s) && Enabled(s, e)
    requires sub in s.tails && sub in Apply(s, e).tails
    ensures s.tails[sub].attempt <= Apply(s, e).tails[sub].attempt
    ensures s.tails[sub].attempt == Apply(s, e).tails[sub].attempt ==> s.tails[sub].view <= Apply(s, e).tails[sub].view
    ensures e.Attach? && s.gens[e.gen].open && s.gens[e.gen].gate.sub == sub ==> Apply(s, e).tails[sub].view == s.log
  {
    InvOnEveryRun(INITIAL, events, s);
    EventKeeps(s, e);
    assert TailOk(s, s.tails[sub]);
    if e.Attach? { assert GenOk(s, e.gen) && BusyOk(s, e.gen); }
  }

  // ── who may do what, and what it leaves ────────────────────────────────

  /** A tail's client is never stuck, and recovers exactly when it must: an event is waiting for it and still in the
      buffer of 256, and it receives that one; or it fell further behind, receives nothing, and may take its own
      generation's gate for a new snapshot as soon as that is free; or it has received all. Then, and only then, it
      may move on, if its generation is closed and a newer one is open. */
  lemma {:induction false} TailsKeepUp(events: seq<Event>, s: State, sub: SubId, gen: nat)
    requires Reaches(INITIAL, events, s) && sub in s.tails && !Busy(s, sub) && gen < |s.gens|
    ensures var t := s.tails[sub];
            t.gen < |s.gens| && t.cursor <= |s.gens[t.gen].sent|
            && var behind := |s.gens[t.gen].sent| - t.cursor;
               && (Enabled(s, Receive(sub)) <==> 1 <= behind <= 256)
               && (Enabled(s, BeginAttach(sub, t.gen)) <==> behind > 256 && s.gens[t.gen].gate.Free?)
               && (gen != t.gen ==>
                     (Enabled(s, BeginAttach(sub, gen)) <==>
                        behind == 0 && !s.gens[t.gen].open && gen == |s.gens| - 1 && s.gens[gen].open && s.gens[gen].gate.Free?))
  {
    InvOnEveryRun(INITIAL, events, s);
    assert TailOk(s, s.tails[sub]);
    hide Inv, Reaches, TailOk;
  }

  /** A newcomer attaches to the live generation and no other, when its gate is free. */
  lemma NewcomersAttach(s: State, sub: SubId, gen: nat)
    requires sub !in s.tails && !Busy(s, sub) && gen < |s.gens|
    ensures Enabled(s, BeginAttach(sub, gen)) <==> gen == |s.gens| - 1 && s.gens[gen].open && s.gens[gen].gate.Free?
  {
  }

  /** A received event is the next one its generation sent, shown behind what was shown. */
  lemma ReceiveShows(s: State, sub: SubId)
    requires Enabled(s, Receive(sub))
    ensures var t, t' := s.tails[sub], Apply(s, Receive(sub)).tails[sub];
            t'.gen == t.gen && t'.attempt == t.attempt && t'.cursor == t.cursor + 1
            && t'.view == t.view + [s.gens[t.gen].sent[t.cursor]] && Apply(s, Receive(sub)) == s.(tails := s.tails[sub := t'])
  {
  }

  /** A publisher takes the live gate when it is free and gives it back when it owes nothing; a tail that leaves is
      gone. Neither touches the log. */
  lemma GateTurns(s: State, sub: SubId)
    ensures Enabled(s, Lock) ==>
              var n, s' := |s.gens|, Apply(s, Lock);
              n > 0 && s.gens[n - 1].gate.Free? && s' == s.(gens := s.gens[n - 1 := s.gens[n - 1].(gate := Publishing([]))])
    ensures Enabled(s, Unlock) ==>
              var n, s' := |s.gens|, Apply(s, Unlock);
              n > 0 && s.gens[n - 1].gate == Publishing([]) && s' == s.(gens := s.gens[n - 1 := s.gens[n - 1].(gate := Free)])
    ensures Enabled(s, Leave(sub)) ==>
              var s' := Apply(s, Leave(sub));
              sub !in s'.tails && s' == s.(tails := s'.tails) && forall other :: other in s.tails && other != sub ==> other in s'.tails && s'.tails[other] == s.tails[other]
  {
  }

  /** A new generation starts from the log as it is, or from an empty one when a retry cleared it; a publisher's
      commit and the rows of a Run without a hub go to the end of the log; a drain closes the live generation, which
      then owes nothing, and only then may the next one open. */
  lemma {:induction false} TurnoverWrites(events: seq<Event>, s: State, e: Event)
    requires Reaches(INITIAL, events, s) && Enabled(s, e) && (e.Open? || e.PersistOffHub? || e.Commit? || e.Drain?)
    ensures var s', n := Apply(s, e), |s.gens|;
            && s'.tails == s.tails
            && (e.Open? ==>
                  && s'.gens == s.gens + [Generation(s'.log, s'.attempt, [], true, Free)]
                  && (if e.retry then s'.log == [] && s'.attempt > s.attempt else s'.log == s.log && s'.attempt == s.attempt)
                  && (n > 0 ==> !s.gens[n - 1].open))
            && (e.PersistOffHub? ==> s' == s.(log := s.log + e.batch) && !Enabled(s, Lock))
            && (e.Commit? ==> n > 0 && s'.log == s.log + e.batch && s'.gens == s.gens[n - 1 := s.gens[n - 1].(gate := Publishing(e.batch))])
            && (e.Drain? ==>
                  && n > 0 && s'.log == s.log && s.gens[n - 1].open && s.log == s.gens[n - 1].base + s.gens[n - 1].sent
                  && s'.gens == s.gens[n - 1 := s.gens[n - 1].(gate := Free, open := false)] && Enabled(s', Open(false)))
  {
    InvOnEveryRun(INITIAL, events, s);
    if e.Drain? { assert GenOk(s, |s.gens| - 1); }
    hide Inv, Reaches;
  }

  // ── why every publish is gated ─────────────────────────────────────────

  /** A commit and its send with no gate held: not an event of the system. */
  function UngatedPublish(s: State, event: RunEvent): State
    requires s.gens != []
  {
    PutCurrent(s, Current(s).(sent := Current(s).sent + [event])).(log := s.log + [event])
  }

  /** One ungated publish between a subscriber's read and its attach is lost to it for good: the drained
      tail of the live generation does not show the log. */
  lemma UngatedPublishIsLost(event: RunEvent)
    ensures var events := [Open(false), BeginAttach(0, 0), ReadSnapshot(0)];
            exists s :: Reaches(INITIAL, events, s)
              && Enabled(UngatedPublish(s, event), Attach(0))
              && var after := Apply(UngatedPublish(s, event), Attach(0));
                 0 in after.tails && after.gens[0].open && after.gens[0].gate.Free?
                 && after.tails[0].cursor == |after.gens[0].sent| && after.tails[0].view == []
                 && after.gens[0].sent == [event] && after.log == [event]
  {
    var events := [Open(false), BeginAttach(0, 0), ReadSnapshot(0)];
    var s1 := Apply(INITIAL, events[0]);
    var s2 := Apply(s1, events[1]);
    var s3 := Apply(s2, events[2]);
    assert events[1..][1..] == [ReadSnapshot(0)] && events[1..][1..][1..] == [];
    assert Reaches(s3, [], s3);
    assert Reaches(s2, events[1..][1..], s3);
    assert Reaches(s1, events[1..], s3);
    assert Reaches(INITIAL, events, s3);
    assert Enabled(UngatedPublish(s3, event), Attach(0));
  }
}
