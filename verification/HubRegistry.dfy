/** The hub registry as a transition system: activations, drains, cancels, subscribes and plain gate
    users of any number of Runs, each taking its Run's lifecycle slot and then a generation's gate, one
    event per await. Lifecycle slots live in a weak table that every lookup prunes. */
module HubRegistry {
  import opened Wrappers

  type RunId = nat
  type GenId = nat
  type SlotId = nat
  type OpId = nat

  datatype Status = Running | Parked | Completed | Errored | Cancelled

  /** The Worker driver behind a generation: not started until its activation wins, then producing until
      it drains, is cancelled, or fails to persist its end. */
  datatype Producer = Starting | Producing | Stopped | Fatal

  datatype Gen = Gen(run: RunId, cancelled: bool, producer: Producer)

  /** `Activate(from)`: resume (parked), retry (errored) or a fresh Run (no row). `Tail` is a publish or a
      recovery: the gate alone. */
  datatype Job =
    | Activate(from: Option<Status>)
    | Park(gen: GenId)
    | Finish(gen: GenId, to: Status)
    | Retire(gen: GenId)
    | Cancel
    | Subscribe
    | Tail(gen: GenId)

  datatype Pc =
    | WaitSlot(slot: SlotId)
    | Inside(slot: SlotId)
    | WaitGate(under: Option<SlotId>, gate: GenId)
    | Held(under: Option<SlotId>, gate: GenId)

  datatype Op = Op(run: RunId, job: Job, pc: Pc)

  datatype State = State(
    booted: bool,
    status: map<RunId, Status>,
    active: map<RunId, GenId>,
    slots: map<RunId, SlotId>,
    ops: map<OpId, Op>,
    gens: map<GenId, Gen>,
    nextSlot: SlotId,
    nextGen: GenId)

  /** The slot an operation keeps alive, holding it or waiting for it. */
  function SlotOf(op: Op): Option<SlotId> {
    match op.pc
    case WaitSlot(slot) => Some(slot)
    case Inside(slot) => Some(slot)
    case WaitGate(under, _) => under
    case Held(under, _) => under
  }

  predicate HoldsSlot(op: Op) {
    !op.pc.WaitSlot? && SlotOf(op).Some?
  }

  predicate HoldsSlotOf(ops: map<OpId, Op>, o: OpId, r: RunId) {
    o in ops && ops[o].run == r && HoldsSlot(ops[o])
  }

  predicate HoldsGate(ops: map<OpId, Op>, o: OpId, g: GenId) {
    o in ops && ops[o].pc.Held? && ops[o].pc.gate == g
  }

  predicate StatusIs(s: State, r: RunId, status: Option<Status>) {
    match status
    case None => r !in s.status
    case Some(x) => r in s.status && s.status[r] == x
  }

  // ── the registry ───────────────────────────────────────────────────────

  /** A weak entry is dead once no operation holds or waits for its slot. */
  predicate Alive(ops: map<OpId, Op>, slot: SlotId) {
    exists o :: o in ops && SlotOf(ops[o]) == Some(slot)
  }

  function Pruned(s: State): map<RunId, SlotId> {
    map r | r in s.slots && Alive(s.ops, s.slots[r]) :: s.slots[r]
  }

  /** `lifecycle`'s lookup: prune, then upgrade the entry or mint a slot. */
  function Lookup(s: State, r: RunId): (State, SlotId) {
    var kept := Pruned(s);
    if r in kept then (s.(slots := kept), kept[r])
    else (s.(slots := kept[r := s.nextSlot], nextSlot := s.nextSlot + 1), s.nextSlot)
  }

  /** `remove_own`: only the registered generation itself is removed. */
  function RemoveOwn(s: State, r: RunId, own: GenId): State {
    if r in s.active && s.active[r] == own then s.(active := s.active - {r}) else s
  }

  function PutOp(s: State, o: OpId, op: Op): State {
    s.(ops := s.ops[o := op])
  }

  /** Dropping the guards ends the operation. */
  function Done(s: State, o: OpId): State {
    s.(ops := s.ops - {o})
  }

  function PutGen(s: State, g: GenId, gen: Gen): State {
    s.(gens := s.gens[g := gen])
  }

  // ── events ─────────────────────────────────────────────────────────────

  datatype Event =
    | Begin(o: OpId, r: RunId, job: Job)
    | TakeSlot(o: OpId)
    | Work(o: OpId, ok: bool)
    | TakeGate(o: OpId)
    | Settle(o: OpId, ok: bool)
    | Abandon(o: OpId)
    | Crash
    | Recover

  /** The driver's own work on its generation. It is one task: it does one such thing at a time. */
  predicate Drives(job: Job, g: GenId) {
    match job
    case Park(h) => h == g
    case Finish(h, _) => h == g
    case Retire(h) => h == g
    case _ => false
  }

  predicate DriverFree(ops: map<OpId, Op>, g: GenId) {
    forall o :: o in ops ==> !Drives(ops[o].job, g)
  }

  /** Who begins what: drains are the producer's own, retirement follows a park or a cancel. */
  predicate MayBegin(s: State, r: RunId, job: Job) {
    match job
    case Activate(from) => from == None || from == Some(Parked) || from == Some(Errored)
    case Park(g) => g in s.gens && s.gens[g].run == r && s.gens[g].producer == Producing && DriverFree(s.ops, g)
    case Finish(g, to) =>
      g in s.gens && s.gens[g].run == r && s.gens[g].producer == Producing && DriverFree(s.ops, g)
      && (to == Completed || to == Errored)
    case Retire(g) => g in s.gens && s.gens[g].run == r && DriverFree(s.ops, g)
      && (s.gens[g].producer == Stopped || s.gens[g].cancelled)
    case Tail(g) => g in s.gens && s.gens[g].run == r
    case _ => true
  }

  ghost predicate Enabled(s: State, e: Event) {
    match e
    case Begin(o, r, job) => s.booted && o !in s.ops && MayBegin(s, r, job)
    case TakeSlot(o) =>
      o in s.ops && s.ops[o].pc.WaitSlot?
      && forall p :: p in s.ops && HoldsSlot(s.ops[p]) ==> SlotOf(s.ops[p]) != SlotOf(s.ops[o])
    case Work(o, _) => o in s.ops && s.ops[o].pc.Inside?
    case TakeGate(o) => o in s.ops && s.ops[o].pc.WaitGate? && forall p :: !HoldsGate(s.ops, p, s.ops[o].pc.gate)
    case Settle(o, _) => o in s.ops && s.ops[o].pc.Held? && s.ops[o].pc.gate in s.gens
    case Abandon(o) => o in s.ops && (s.ops[o].pc.WaitSlot? || (s.ops[o].pc.WaitGate? && s.ops[o].pc.under.None?))
    case Crash => true
    case Recover => !s.booted
  }

  function ApplyBegin(s: State, o: OpId, r: RunId, job: Job): State {
    if job.Tail? then PutOp(s, o, Op(r, job, WaitGate(None, job.gen)))
    else
      var (s', slot) := Lookup(s, r);
      PutOp(s', o, Op(r, job, WaitSlot(slot)))
  }

  /** With the slot, before any gate. */
  function ApplyWork(s: State, o: OpId, ok: bool): State
    requires o in s.ops && s.ops[o].pc.Inside?
  {
    var op := s.ops[o];
    var r, slot := op.run, op.pc.slot;
    var gated := (g: GenId) => PutOp(s, o, op.(pc := WaitGate(Some(slot), g)));
    match op.job
    case Activate(_) =>
      if r in s.active then Done(s, o)
      else
        var g := s.nextGen;
        PutOp(s.(active := s.active[r := g], gens := s.gens[g := Gen(r, false, Starting)], nextGen := g + 1),
              o, op.(pc := Held(Some(slot), g)))
    case Park(g) => gated(g)
    case Finish(g, _) => gated(g)
    case Retire(g) => gated(g)
    case Tail(g) => gated(g)
    case Cancel =>
      if StatusIs(s, r, Some(Running)) && r in s.active then gated(s.active[r])
      else if ok && (StatusIs(s, r, Some(Parked)) || StatusIs(s, r, Some(Running)))
      then Done(s.(status := s.status[r := Cancelled]), o)
      else Done(s, o)
    case Subscribe => if r in s.active then gated(s.active[r]) else Done(s, o)
  }

  /** With the gate. `ok` says the database did not fail. */
  function ApplySettle(s: State, o: OpId, ok: bool): State
    requires o in s.ops && s.ops[o].pc.Held? && s.ops[o].pc.gate in s.gens
  {
    var op := s.ops[o];
    var r, g := op.run, op.pc.gate;
    var running := StatusIs(s, r, Some(Running));
    match op.job
    case Activate(from) =>
      if ok && StatusIs(s, r, from)
      then Done(PutGen(s.(status := s.status[r := Running]), g, s.gens[g].(producer := Producing)), o)
      else Done(RemoveOwn(s, r, g), o)
    case Park(_) =>
      if s.gens[g].cancelled || !ok || !running then Done(s, o)
      else Done(PutGen(RemoveOwn(s.(status := s.status[r := Parked]), r, g), g, s.gens[g].(producer := Stopped)), o)
    case Finish(_, to) =>
      if !ok then Done(PutGen(s, g, s.gens[g].(producer := Fatal)), o)
      else
        var moved := if running then s.(status := s.status[r := to]) else s;
        Done(PutGen(RemoveOwn(moved, r, g), g, s.gens[g].(producer := Stopped)), o)
    case Retire(_) => Done(PutGen(RemoveOwn(s, r, g), g, s.gens[g].(producer := Stopped)), o)
    case Cancel =>
      if ok && running
      then Done(PutGen(RemoveOwn(s.(status := s.status[r := Cancelled]), r, g), g, s.gens[g].(cancelled := true)), o)
      else Done(s, o)
    case _ => Done(s, o)
  }

  ghost function Apply(s: State, e: Event): State
    requires Enabled(s, e)
  {
    match e
    case Begin(o, r, job) => ApplyBegin(s, o, r, job)
    case TakeSlot(o) => PutOp(s, o, s.ops[o].(pc := Inside(s.ops[o].pc.slot)))
    case Work(o, ok) => ApplyWork(s, o, ok)
    case TakeGate(o) => PutOp(s, o, s.ops[o].(pc := Held(s.ops[o].pc.under, s.ops[o].pc.gate)))
    case Settle(o, ok) => ApplySettle(s, o, ok)
    case Abandon(o) => Done(s, o)
    case Crash => State(false, s.status, map[], map[], map[], map[], s.nextSlot, s.nextGen)
    case Recover =>
      s.(booted := true,
         status := map r | r in s.status :: if s.status[r] == Running then Errored else s.status[r])
  }

  const INITIAL := State(true, map[], map[], map[], map[], map[], 0, 0)

  ghost predicate Reaches(from: State, events: seq<Event>, s: State)
    decreases |events|
  {
    if events == [] then s == from
    else Enabled(from, events[0]) && Reaches(Apply(from, events[0]), events[1..], s)
  }
}
