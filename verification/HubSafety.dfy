/** What every run of the hub registry keeps: one slot per Run, one holder per slot and per gate, and a
    registered hub exactly while its Run is running. */
module HubSafety {
  import opened Wrappers
  import opened HubRegistry

  // ── the invariant ──────────────────────────────────────────────────────

  /** Every operation of a Run, holding or waiting, refers to the one slot in the weak table. */
  ghost predicate SlotsOk(s: State) {
    forall o :: o in s.ops && SlotOf(s.ops[o]).Some? ==>
      s.ops[o].run in s.slots && SlotOf(s.ops[o]) == Some(s.slots[s.ops[o].run])
  }

  ghost predicate OneHolder(ops: map<OpId, Op>) {
    forall o, p :: o in ops && HoldsSlot(ops[o]) && HoldsSlotOf(ops, p, ops[o].run) ==> o == p
  }

  ghost predicate OneGateHolder(ops: map<OpId, Op>) {
    forall o, p :: o in ops && ops[o].pc.Held? && HoldsGate(ops, p, ops[o].pc.gate) ==> o == p
  }

  ghost predicate OneDriver(ops: map<OpId, Op>) {
    forall o, p, g :: o in ops && p in ops && Drives(ops[o].job, g) && Drives(ops[p].job, g) ==> o == p
  }

  predicate Gated(pc: Pc) {
    pc.WaitGate? || pc.Held?
  }

  predicate Registered(s: State, r: RunId, g: GenId) {
    r in s.active && s.active[r] == g
  }

  /** What an operation may rely on where it stands. */
  ghost predicate OpOk(s: State, op: Op) {
    && (Gated(op.pc) ==> op.pc.gate in s.gens && s.gens[op.pc.gate].run == op.run && (op.pc.under.None? <==> op.job.Tail?))
    && (op.job.Tail? ==> Gated(op.pc))
    && match op.job
       case Activate(from) =>
         && (from == None || from == Some(Parked) || from == Some(Errored))
         && !op.pc.WaitGate?
         && (op.pc.Held? ==> Registered(s, op.run, op.pc.gate) && s.gens[op.pc.gate] == Gen(op.run, false, Starting)
                             && !StatusIs(s, op.run, Some(Running)))
       case Park(g) => g in s.gens && s.gens[g].run == op.run && s.gens[g].producer == Producing && (Gated(op.pc) ==> op.pc.gate == g)
       case Finish(g, to) =>
         g in s.gens && s.gens[g].run == op.run && s.gens[g].producer == Producing && (Gated(op.pc) ==> op.pc.gate == g)
         && (to == Completed || to == Errored)
       case Retire(g) =>
         g in s.gens && s.gens[g].run == op.run && (s.gens[g].producer == Stopped || s.gens[g].cancelled)
         && (Gated(op.pc) ==> op.pc.gate == g)
       case Cancel => Gated(op.pc) ==> Registered(s, op.run, op.pc.gate) && StatusIs(s, op.run, Some(Running))
       case Subscribe => Gated(op.pc) ==> Registered(s, op.run, op.pc.gate)
       case Tail(_) => true
  }

  /** A generation that produces is the registered one of a running Run; a cancelled one belongs to a
      cancelled Run. */
  ghost predicate GenOk(s: State, g: GenId)
    requires g in s.gens
  {
    var gen := s.gens[g];
    && g < s.nextGen
    && (gen.cancelled ==> StatusIs(s, gen.run, Some(Cancelled)))
    && ((gen.producer == Producing || gen.producer == Fatal) && !gen.cancelled ==>
          Registered(s, gen.run, g) && StatusIs(s, gen.run, Some(Running)))
  }

  /** An activation holding this generation's gate has not run its CAS yet. */
  ghost predicate Activating(s: State, r: RunId, g: GenId) {
    exists o :: o in s.ops && s.ops[o].job.Activate? && s.ops[o].run == r && HoldsGate(s.ops, o, g)
  }

  ghost predicate RunOk(s: State, r: RunId) {
    && (r in s.active ==>
          && s.active[r] in s.gens && s.gens[s.active[r]].run == r
          && (s.gens[s.active[r]].producer == Starting ==> Activating(s, r, s.active[r]))
          && (s.gens[s.active[r]].producer != Starting ==>
                !s.gens[s.active[r]].cancelled && s.gens[s.active[r]].producer != Stopped))
    && (s.booted && StatusIs(s, r, Some(Running)) ==> r in s.active)
  }

  ghost predicate Inv(s: State) {
    && SlotsOk(s) && OneHolder(s.ops) && OneGateHolder(s.ops) && OneDriver(s.ops)
    && (forall o :: o in s.ops ==> OpOk(s, s.ops[o]))
    && (forall g :: g in s.gens ==> GenOk(s, g))
    && (forall r :: RunOk(s, r))
    && (!s.booted ==> s.ops == map[] && s.gens == map[] && s.active == map[])
  }

  // ── frames ─────────────────────────────────────────────────────────────

  /** Nothing an operation relies on changed. */
  ghost predicate Stands(s: State, s': State, op: Op) {
    && (forall g :: g in s.gens ==>
          g in s'.gens && s'.gens[g].run == s.gens[g].run && (s.gens[g].cancelled ==> s'.gens[g].cancelled)
          && (Drives(op.job, g) ==> s'.gens[g].producer == s.gens[g].producer)
          && (op.job.Activate? && op.pc.Held? && op.pc.gate == g ==> s'.gens[g] == s.gens[g]))
    && (HoldsSlot(op) ==> SameRun(s, s', op.run))
  }

  ghost predicate SameRun(s: State, s': State, r: RunId) {
    && (r in s.active <==> r in s'.active) && (r in s.active ==> s'.active[r] == s.active[r])
    && (r in s.status <==> r in s'.status) && (r in s.status ==> s'.status[r] == s.status[r])
  }

  lemma OpStands(s: State, s': State, op: Op)
    requires OpOk(s, op) && Stands(s, s', op)
    ensures OpOk(s', op)
  {
  }

  /** Generations of a Run that nothing touched stay right. */
  lemma GenStands(s: State, s': State, g: GenId)
    requires g in s.gens && GenOk(s, g) && g in s'.gens && s'.gens[g] == s.gens[g] && s.nextGen <= s'.nextGen
    requires SameRun(s, s', s.gens[g].run)
    ensures GenOk(s', g)
  {
  }

  lemma RunStands(s: State, s': State, r: RunId)
    requires RunOk(s, r) && SameRun(s, s', r) && s'.booted == s.booted
    requires r in s.active ==> s.active[r] in s'.gens && s'.gens[s.active[r]] == s.gens[s.active[r]]
    requires r in s.active && Activating(s, r, s.active[r]) ==> Activating(s', r, s.active[r])
    ensures RunOk(s', r)
  {
  }

  ghost predicate OffRun(s: State, s': State, r: RunId) {
    && (forall q :: q != r ==> SameRun(s, s', q))
    && (forall g :: g in s'.gens ==> g in s.gens || s'.gens[g].run == r)
    && (forall g :: g in s.gens ==> g in s'.gens && (s.gens[g].run != r ==> s'.gens[g] == s.gens[g]))
    && s.nextGen <= s'.nextGen && s'.booted == s.booted
  }

  /** Everything about the other Runs survives a change to Run `r` by the operation `o`. */
  lemma OtherRuns(s: State, s': State, o: OpId, r: RunId)
    requires Inv(s) && o in s.ops && s.ops[o].run == r && OffRun(s, s', r)
    requires forall p :: p in s.ops && p != o ==> p in s'.ops && s'.ops[p] == s.ops[p]
    ensures forall q :: q != r ==> RunOk(s', q)
    ensures forall g :: g in s.gens && s.gens[g].run != r ==> GenOk(s', g)
  {
    forall q | q != r ensures RunOk(s', q) {
      assert RunOk(s, q);
      if q in s.active && Activating(s, q, s.active[q]) {
        var p :| p in s.ops && s.ops[p].job.Activate? && s.ops[p].run == q && HoldsGate(s.ops, p, s.active[q]);
        assert HoldsGate(s'.ops, p, s.active[q]);
      }
      RunStands(s, s', q);
    }
    forall g | g in s.gens && s.gens[g].run != r ensures GenOk(s', g) {
      GenStands(s, s', g);
    }
  }

  /** Slot and gate discipline only gets easier when an operation ends. */
  lemma EndKeepsLocks(s: State, s': State, o: OpId)
    requires SlotsOk(s) && OneHolder(s.ops) && OneGateHolder(s.ops) && OneDriver(s.ops)
    requires s'.ops == s.ops - {o} && s'.slots == s.slots
    ensures SlotsOk(s') && OneHolder(s'.ops) && OneGateHolder(s'.ops) && OneDriver(s'.ops)
  {
    forall a, b | a in s'.ops && HoldsSlot(s'.ops[a]) && HoldsSlotOf(s'.ops, b, s'.ops[a].run) ensures a == b {
      assert HoldsSlotOf(s.ops, b, s.ops[a].run);
    }
    forall a, b | a in s'.ops && s'.ops[a].pc.Held? && HoldsGate(s'.ops, b, s'.ops[a].pc.gate) ensures a == b {
      assert HoldsGate(s.ops, b, s.ops[a].pc.gate);
    }
  }

  /** The operation `o` ends having changed only its own Run and, under its gate, the generation `g`. */
  ghost predicate EndsOn(s: State, s': State, o: OpId, g: GenId)
    requires o in s.ops
  {
    && s'.ops == s.ops - {o} && s'.slots == s.slots && OffRun(s, s', s.ops[o].run) && s'.gens.Keys == s.gens.Keys
    && (forall h :: h in s.gens ==>
          s'.gens[h].run == s.gens[h].run && (s.gens[h].cancelled ==> s'.gens[h].cancelled) && (h != g ==> s'.gens[h] == s.gens[h]))
    && (g in s.gens && s'.gens[g] != s.gens[g] ==>
          && HoldsGate(s.ops, o, g)
          && (s'.gens[g].producer == s.gens[g].producer || s.gens[g] == Gen(s.ops[o].run, false, Starting) || Drives(s.ops[o].job, g)))
  }

  /** An operation that ends after changing its own Run, whose slot it holds, and the generation `g`. */
  lemma EndsRight(s: State, s': State, o: OpId, g: GenId)
    requires Inv(s) && o in s.ops && HoldsSlot(s.ops[o]) && s.booted && EndsOn(s, s', o, g)
    requires RunOk(s', s.ops[o].run)
    requires forall h :: h in s.gens && s.gens[h].run == s.ops[o].run ==> GenOk(s', h)
    ensures Inv(s')
  {
    var r := s.ops[o].run;
    EndKeepsLocks(s, s', o);
    OtherRuns(s, s', o, r);
    forall p | p in s'.ops ensures OpOk(s', s'.ops[p]) {
      var op := s.ops[p];
      assert OpOk(s, op);
      assert !HoldsSlotOf(s.ops, p, s.ops[o].run);
      assert !(Drives(op.job, g) && Drives(s.ops[o].job, g));
      assert HoldsGate(s.ops, o, g) ==> !HoldsGate(s.ops, p, s.ops[o].pc.gate);
      OpStands(s, s', op);
    }
  }

  // ── operations that end ────────────────────────────────────────────────

  /** What a drain may change: its Run's row and registration, and its own generation. */
  lemma DrainsOn(s: State, s': State, o: OpId, g: GenId)
    requires o in s.ops && g in s.gens && g in s'.gens && HoldsGate(s.ops, o, g) && Drives(s.ops[o].job, g)
    requires s'.ops == s.ops - {o} && s'.slots == s.slots && s'.nextGen == s.nextGen && s'.booted == s.booted
    requires s.gens[g].run == s.ops[o].run
    requires s'.gens[g].run == s.gens[g].run && s'.gens[g].cancelled == s.gens[g].cancelled && s'.gens == s.gens[g := s'.gens[g]]
    requires forall q :: q != s.ops[o].run ==> SameRun(s, s', q)
    ensures EndsOn(s, s', o, g)
  {
    hide SameRun;
  }

  lemma ActivationEnds(s: State, o: OpId, ok: bool)
    requires Enabled(s, Settle(o, ok)) && s.ops[o].job.Activate? && OpOk(s, s.ops[o])
    ensures EndsOn(s, ApplySettle(s, o, ok), o, s.ops[o].pc.gate)
  {
  }

  lemma SettleActivate(s: State, o: OpId, ok: bool)
    requires Inv(s) && Enabled(s, Settle(o, ok)) && s.ops[o].job.Activate?
    ensures Inv(ApplySettle(s, o, ok))
  {
    var s' := ApplySettle(s, o, ok);
    var r, g := s.ops[o].run, s.ops[o].pc.gate;
    assert OpOk(s, s.ops[o]) && GenOk(s, g) && RunOk(s, r);
    forall h | h in s.gens && s.gens[h].run == r ensures GenOk(s', h) {
      assert GenOk(s, h);
    }
    ActivationEnds(s, o, ok);
    hide EndsOn, SlotsOk, OneHolder, OneGateHolder, OneDriver;
    EndsRight(s, s', o, g);
  }

  /** Whoever holds a Run's slot, other than an activation at its CAS, finds no generation half activated. */
  lemma NoneStarting(s: State, o: OpId)
    requires Inv(s) && o in s.ops && HoldsSlot(s.ops[o]) && !(s.ops[o].job.Activate? && s.ops[o].pc.Held?)
    ensures s.ops[o].run in s.active ==>
              s.active[s.ops[o].run] in s.gens && s.gens[s.active[s.ops[o].run]].producer != Starting
  {
    var r := s.ops[o].run;
    assert RunOk(s, r);
    if r in s.active && Activating(s, r, s.active[r]) {
      var p :| p in s.ops && s.ops[p].job.Activate? && s.ops[p].run == r && HoldsGate(s.ops, p, s.active[r]);
      assert OpOk(s, s.ops[p]) && HoldsSlotOf(s.ops, p, s.ops[o].run);
      assert false;
    }
  }

  /** A drain of generation `g` leaves its Run right. */
  lemma DrainedRun(s: State, o: OpId, ok: bool)
    requires Inv(s) && Enabled(s, Settle(o, ok)) && (s.ops[o].job.Park? || s.ops[o].job.Finish? || s.ops[o].job.Retire?)
    ensures RunOk(ApplySettle(s, o, ok), s.ops[o].run)
  {
    var r, g := s.ops[o].run, s.ops[o].pc.gate;
    assert OpOk(s, s.ops[o]) && GenOk(s, g) && RunOk(s, r);
    NoneStarting(s, o);
    if r in s.active { assert GenOk(s, s.active[r]); }
  }

  lemma DrainedGens(s: State, o: OpId, ok: bool, h: GenId)
    requires Inv(s) && Enabled(s, Settle(o, ok)) && (s.ops[o].job.Park? || s.ops[o].job.Finish? || s.ops[o].job.Retire?)
    requires h in s.gens && s.gens[h].run == s.ops[o].run
    ensures GenOk(ApplySettle(s, o, ok), h)
  {
    var r, g := s.ops[o].run, s.ops[o].pc.gate;
    assert OpOk(s, s.ops[o]) && GenOk(s, g) && GenOk(s, h);
  }

  lemma SettlePark(s: State, o: OpId, ok: bool)
    requires Inv(s) && Enabled(s, Settle(o, ok)) && s.ops[o].job.Park?
    ensures Inv(ApplySettle(s, o, ok))
  {
    var s' := ApplySettle(s, o, ok);
    assert OpOk(s, s.ops[o]);
    DrainedRun(s, o, ok);
    forall h | h in s.gens && s.gens[h].run == s.ops[o].run ensures GenOk(s', h) {
      DrainedGens(s, o, ok, h);
    }
    hide GenOk, RunOk, OpOk, EndsOn;
    DrainsOn(s, s', o, s.ops[o].pc.gate);
    EndsRight(s, s', o, s.ops[o].pc.gate);
  }

  lemma SettleFinish(s: State, o: OpId)
    requires Inv(s) && Enabled(s, Settle(o, true)) && s.ops[o].job.Finish?
    ensures Inv(ApplySettle(s, o, true))
  {
    var ok := true;
    var s' := ApplySettle(s, o, ok);
    assert OpOk(s, s.ops[o]);
    DrainedRun(s, o, ok);
    forall h | h in s.gens && s.gens[h].run == s.ops[o].run ensures GenOk(s', h) {
      DrainedGens(s, o, ok, h);
    }
    hide GenOk, RunOk, OpOk, EndsOn;
    DrainsOn(s, s', o, s.ops[o].pc.gate);
    EndsRight(s, s', o, s.ops[o].pc.gate);
  }

  /** The end could not be persisted: the generation stays registered, for a restart to settle. */
  lemma SettleFatal(s: State, o: OpId)
    requires Inv(s) && Enabled(s, Settle(o, false)) && s.ops[o].job.Finish?
    ensures Inv(ApplySettle(s, o, false))
  {
    var ok := false;
    var s' := ApplySettle(s, o, ok);
    assert OpOk(s, s.ops[o]);
    DrainedRun(s, o, ok);
    forall h | h in s.gens && s.gens[h].run == s.ops[o].run ensures GenOk(s', h) {
      DrainedGens(s, o, ok, h);
    }
    hide GenOk, RunOk, OpOk, EndsOn;
    DrainsOn(s, s', o, s.ops[o].pc.gate);
    EndsRight(s, s', o, s.ops[o].pc.gate);
  }

  lemma SettleRetire(s: State, o: OpId, ok: bool)
    requires Inv(s) && Enabled(s, Settle(o, ok)) && s.ops[o].job.Retire?
    ensures Inv(ApplySettle(s, o, ok))
  {
    var s' := ApplySettle(s, o, ok);
    assert OpOk(s, s.ops[o]);
    DrainedRun(s, o, ok);
    forall h | h in s.gens && s.gens[h].run == s.ops[o].run ensures GenOk(s', h) {
      DrainedGens(s, o, ok, h);
    }
    hide GenOk, RunOk, OpOk, EndsOn;
    DrainsOn(s, s', o, s.ops[o].pc.gate);
    EndsRight(s, s', o, s.ops[o].pc.gate);
  }

  lemma SettleCancel(s: State, o: OpId, ok: bool)
    requires Inv(s) && Enabled(s, Settle(o, ok)) && s.ops[o].job.Cancel?
    ensures Inv(ApplySettle(s, o, ok))
  {
    var s' := ApplySettle(s, o, ok);
    var r, g := s.ops[o].run, s.ops[o].pc.gate;
    assert OpOk(s, s.ops[o]) && GenOk(s, g) && RunOk(s, r);
    forall h | h in s.gens && s.gens[h].run == r ensures GenOk(s', h) {
      assert GenOk(s, h);
    }
    EndsRight(s, s', o, g);
  }

  /** An operation ends, or is abandoned while it waits, and nothing else changes. */
  lemma JustEnds(s: State, o: OpId)
    requires Inv(s) && o in s.ops && !(s.ops[o].job.Activate? && s.ops[o].pc.Held?)
    ensures Inv(Done(s, o))
  {
    var s' := Done(s, o);
    EndKeepsLocks(s, s', o);
    forall p | p in s'.ops ensures OpOk(s', s'.ops[p]) {
      assert OpOk(s, s.ops[p]);
      OpStands(s, s', s.ops[p]);
    }
    forall g | g in s'.gens ensures GenOk(s', g) {
      GenStands(s, s', g);
    }
    forall r ensures RunOk(s', r) {
      assert RunOk(s, r);
      if r in s.active && Activating(s, r, s.active[r]) {
        var p :| p in s.ops && s.ops[p].job.Activate? && s.ops[p].run == r && HoldsGate(s.ops, p, s.active[r]);
        assert HoldsGate(s'.ops, p, s.active[r]);
      }
      RunStands(s, s', r);
    }
  }

  lemma SettleKeeps(s: State, o: OpId, ok: bool)
    requires Inv(s) && Enabled(s, Settle(o, ok))
    ensures Inv(ApplySettle(s, o, ok))
  {
    match s.ops[o].job {
      case Activate(_) => SettleActivate(s, o, ok);
      case Park(_) => SettlePark(s, o, ok);
      case Finish(_, _) => if ok { SettleFinish(s, o); } else { SettleFatal(s, o); }
      case Retire(_) => SettleRetire(s, o, ok);
      case Cancel => SettleCancel(s, o, ok);
      case _ => JustEnds(s, o);
    }
  }

  // ── operations that move on ────────────────────────────────────────────

  /** An operation takes its next position: the registry, the rows and the generations stay. */
  lemma MovesOn(s: State, o: OpId, pc: Pc)
    requires Inv(s) && o in s.ops && SlotOf(Op(s.ops[o].run, s.ops[o].job, pc)) == SlotOf(s.ops[o])
    requires !(s.ops[o].job.Activate? && s.ops[o].pc.Held?)
    requires HoldsSlot(s.ops[o]) || !HoldsSlot(s.ops[o].(pc := pc)) || forall p :: p in s.ops && HoldsSlot(s.ops[p]) ==> SlotOf(s.ops[p]) != SlotOf(s.ops[o])
    requires pc.Held? ==> forall p :: p != o ==> !HoldsGate(s.ops, p, pc.gate)
    requires OpOk(s, s.ops[o].(pc := pc))
    ensures Inv(PutOp(s, o, s.ops[o].(pc := pc)))
  {
    var op' := s.ops[o].(pc := pc);
    var s' := PutOp(s, o, op');
    MovedLocks(s, o, pc);
    forall p | p in s'.ops ensures OpOk(s', s'.ops[p]) {
      assert p != o ==> OpOk(s, s.ops[p]);
      OpStands(s, s', s'.ops[p]);
    }
    forall g | g in s'.gens ensures GenOk(s', g) {
      GenStands(s, s', g);
    }
    forall r ensures RunOk(s', r) {
      assert RunOk(s, r);
      if r in s.active && Activating(s, r, s.active[r]) {
        var p :| p in s.ops && s.ops[p].job.Activate? && s.ops[p].run == r && HoldsGate(s.ops, p, s.active[r]);
        assert HoldsGate(s'.ops, p, s.active[r]);
      }
      RunStands(s, s', r);
    }
  }

  lemma MovedLocks(s: State, o: OpId, pc: Pc)
    requires Inv(s) && o in s.ops && SlotOf(Op(s.ops[o].run, s.ops[o].job, pc)) == SlotOf(s.ops[o])
    requires HoldsSlot(s.ops[o]) || !HoldsSlot(s.ops[o].(pc := pc)) || forall p :: p in s.ops && HoldsSlot(s.ops[p]) ==> SlotOf(s.ops[p]) != SlotOf(s.ops[o])
    requires pc.Held? ==> forall p :: p != o ==> !HoldsGate(s.ops, p, pc.gate)
    ensures var s' := PutOp(s, o, s.ops[o].(pc := pc));
            SlotsOk(s') && OneHolder(s'.ops) && OneGateHolder(s'.ops) && OneDriver(s'.ops)
  {
    var s' := PutOp(s, o, s.ops[o].(pc := pc));
    forall a, b | a in s'.ops && HoldsSlot(s'.ops[a]) && HoldsSlotOf(s'.ops, b, s'.ops[a].run) ensures a == b {
      if a != o && b != o { assert HoldsSlotOf(s.ops, b, s.ops[a].run); }
      if a == o && b != o && HoldsSlot(s.ops[o]) { assert HoldsSlotOf(s.ops, b, s.ops[o].run); }
      if a != o && b == o && HoldsSlot(s.ops[o]) { assert HoldsSlotOf(s.ops, o, s.ops[a].run); }
    }
    if pc.Held? {
      forall c | c != o ensures !HoldsGate(s'.ops, c, pc.gate) {
        assert !HoldsGate(s.ops, c, pc.gate);
      }
    }
    forall a, b | a in s'.ops && s'.ops[a].pc.Held? && HoldsGate(s'.ops, b, s'.ops[a].pc.gate) ensures a == b {
      assert HoldsGate(s'.ops, a, s'.ops[a].pc.gate);
      if a != o && b != o { assert HoldsGate(s.ops, b, s.ops[a].pc.gate); }
    }
  }

  lemma WaitingMovesOn(s: State, o: OpId)
    requires Inv(s)
    ensures Enabled(s, TakeSlot(o)) ==> Inv(Apply(s, TakeSlot(o)))
    ensures Enabled(s, TakeGate(o)) ==> Inv(Apply(s, TakeGate(o)))
    ensures Enabled(s, Abandon(o)) ==> Inv(Apply(s, Abandon(o)))
  {
    if o in s.ops {
      assert OpOk(s, s.ops[o]);
      if Enabled(s, TakeSlot(o)) { MovesOn(s, o, Inside(s.ops[o].pc.slot)); }
      if Enabled(s, TakeGate(o)) { MovesOn(s, o, Held(s.ops[o].pc.under, s.ops[o].pc.gate)); }
      if Enabled(s, Abandon(o)) { JustEnds(s, o); }
    }
  }

  /** Operations of other Runs, and those waiting for this one, stay right when a generation is added. */
  lemma OthersStayOk(s: State, s': State, o: OpId, p: OpId)
    requires Inv(s) && o in s.ops && HoldsSlot(s.ops[o]) && p in s.ops && p != o && OffRun(s, s', s.ops[o].run)
    requires forall h :: h in s.gens ==> h in s'.gens && s'.gens[h] == s.gens[h]
    ensures OpOk(s', s.ops[p])
  {
    assert OpOk(s, s.ops[p]) && !HoldsSlotOf(s.ops, p, s.ops[o].run);
    OpStands(s, s', s.ops[p]);
  }

  /** What an activation that finds its slot vacant does: it registers a fresh generation, its gate already held. */
  lemma ActivatesOn(s: State, o: OpId, ok: bool)
    requires Enabled(s, Work(o, ok)) && s.ops[o].job.Activate? && s.ops[o].run !in s.active && s.nextGen !in s.gens
    ensures var r, g, s' := s.ops[o].run, s.nextGen, ApplyWork(s, o, ok);
            && OffRun(s, s', r)
            && s'.gens == s.gens[g := Gen(r, false, Starting)] && s'.nextGen == g + 1
            && s'.active == s.active[r := g] && s'.status == s.status
            && s'.ops == s.ops[o := s.ops[o].(pc := Held(Some(s.ops[o].pc.slot), g))]
  {
  }

  lemma ActivatedRight(s: State, o: OpId, ok: bool)
    requires Inv(s) && s.booted && Enabled(s, Work(o, ok)) && s.ops[o].job.Activate? && s.ops[o].run !in s.active
    requires s.nextGen !in s.gens
    ensures var s' := ApplyWork(s, o, ok);
            && RunOk(s', s.ops[o].run) && OpOk(s', s'.ops[o])
            && forall h :: h in s'.gens && s'.gens[h].run == s.ops[o].run ==> GenOk(s', h)
  {
    var s' := ApplyWork(s, o, ok);
    var r, g := s.ops[o].run, s.nextGen;
    assert OpOk(s, s.ops[o]) && RunOk(s, r);
    ActivatesOn(s, o, ok);
    hide ApplyWork, OffRun, SlotsOk, OneHolder, OneGateHolder, OneDriver;
    assert HoldsGate(s'.ops, o, g);
    forall h | h in s'.gens && s'.gens[h].run == r ensures GenOk(s', h) {
      if h != g { assert GenOk(s, h); }
    }
  }

  lemma WorkActivates(s: State, o: OpId, ok: bool)
    requires Inv(s) && s.booted && Enabled(s, Work(o, ok)) && s.ops[o].job.Activate? && s.ops[o].run !in s.active
    ensures Inv(ApplyWork(s, o, ok))
  {
    var s' := ApplyWork(s, o, ok);
    forall h | h in s.gens ensures h < s.nextGen { assert GenOk(s, h); }
    ActivatedLocks(s, o, ok);
    ActivatedRight(s, o, ok);
    ActivatesOn(s, o, ok);
    hide ApplyWork, OffRun, SlotsOk, OneHolder, OneGateHolder, OneDriver, OpOk, RunOk, GenOk;
    OtherRuns(s, s', o, s.ops[o].run);
    forall p | p in s'.ops ensures OpOk(s', s'.ops[p]) {
      if p != o { OthersStayOk(s, s', o, p); }
    }
  }

  lemma ActivatedLocks(s: State, o: OpId, ok: bool)
    requires Inv(s) && Enabled(s, Work(o, ok)) && s.ops[o].job.Activate? && s.ops[o].run !in s.active && s.nextGen !in s.gens
    ensures var s' := ApplyWork(s, o, ok);
            SlotsOk(s') && OneHolder(s'.ops) && OneGateHolder(s'.ops) && OneDriver(s'.ops)
  {
    forall p ensures !HoldsGate(s.ops, p, s.nextGen) {
      if p in s.ops { assert OpOk(s, s.ops[p]); }
    }
    MovedLocks(s, o, Held(Some(s.ops[o].pc.slot), s.nextGen));
  }

  /** Whoever holds the slot, other than an activation at its CAS, finds a hub exactly when its Run is
      running. */
  lemma SlotTellsTheTruth(s: State, o: OpId)
    requires Inv(s) && s.booted && o in s.ops && HoldsSlot(s.ops[o]) && !(s.ops[o].job.Activate? && s.ops[o].pc.Held?)
    ensures s.ops[o].run in s.active <==> StatusIs(s, s.ops[o].run, Some(Running))
  {
    var r := s.ops[o].run;
    assert RunOk(s, r);
    NoneStarting(s, o);
    if r in s.active { assert GenOk(s, s.active[r]); }
  }

  /** A cancel that meets no hub: a parked Run. */
  lemma WorkCancels(s: State, o: OpId)
    requires Inv(s) && s.booted && Enabled(s, Work(o, true)) && s.ops[o].job.Cancel? && StatusIs(s, s.ops[o].run, Some(Parked))
    ensures Inv(ApplyWork(s, o, true))
  {
    var s' := ApplyWork(s, o, true);
    var r := s.ops[o].run;
    NoneStarting(s, o);
    assert RunOk(s, r);
    SlotTellsTheTruth(s, o);
    forall h | h in s.gens && s.gens[h].run == r ensures GenOk(s', h) {
      assert GenOk(s, h);
    }
    EndsRight(s, s', o, s.nextGen);
  }

  lemma WorkKeeps(s: State, o: OpId, ok: bool)
    requires Inv(s) && Enabled(s, Work(o, ok))
    ensures Inv(ApplyWork(s, o, ok))
  {
    var op := s.ops[o];
    assert OpOk(s, op) && s.booted && RunOk(s, op.run);
    SlotTellsTheTruth(s, o);
    match op.job {
      case Activate(_) => if op.run in s.active { JustEnds(s, o); } else { WorkActivates(s, o, ok); }
      case Cancel =>
        if op.run in s.active { MovesOn(s, o, WaitGate(Some(op.pc.slot), s.active[op.run])); }
        else if ok && StatusIs(s, op.run, Some(Parked)) { WorkCancels(s, o); }
        else { JustEnds(s, o); }
      case Subscribe => if op.run in s.active { MovesOn(s, o, WaitGate(Some(op.pc.slot), s.active[op.run])); } else { JustEnds(s, o); }
      case Park(g) => MovesOn(s, o, WaitGate(Some(op.pc.slot), g));
      case Finish(g, _) => MovesOn(s, o, WaitGate(Some(op.pc.slot), g));
      case Retire(g) => MovesOn(s, o, WaitGate(Some(op.pc.slot), g));
      case Tail(_) => assert false;
    }
  }

  // ── beginnings ─────────────────────────────────────────────────────────

  /** A lookup never replaces the slot of a live operation, and leaves no dead entry behind. */
  lemma LookupKeepsSlots(s: State, r: RunId)
    requires SlotsOk(s)
    ensures var (s', slot) := Lookup(s, r);
            && SlotsOk(s') && r in s'.slots && s'.slots[r] == slot
            && forall q :: q in s'.slots && q != r ==> q in s.slots && Alive(s.ops, s.slots[q])
  {
  }

  /** A new operation starts by waiting; it holds nothing yet. */
  lemma JoinsLocks(s: State, s': State, o: OpId, op: Op)
    requires OneHolder(s.ops) && OneGateHolder(s.ops) && OneDriver(s.ops) && o !in s.ops && s'.ops == s.ops[o := op]
    requires !HoldsSlot(op) && !op.pc.Held? && (forall g :: Drives(op.job, g) ==> DriverFree(s.ops, g))
    ensures OneHolder(s'.ops) && OneGateHolder(s'.ops) && OneDriver(s'.ops)
  {
    forall a, b | a in s'.ops && HoldsSlot(s'.ops[a]) && HoldsSlotOf(s'.ops, b, s'.ops[a].run) ensures a == b {
      assert HoldsSlotOf(s.ops, b, s.ops[a].run);
    }
    forall a, b | a in s'.ops && s'.ops[a].pc.Held? && HoldsGate(s'.ops, b, s'.ops[a].pc.gate) ensures a == b {
      assert HoldsGate(s.ops, b, s.ops[a].pc.gate);
    }
  }

  lemma JoinsRight(s: State, s': State, o: OpId, op: Op)
    requires Inv(s) && s.booted && o !in s.ops && s'.ops == s.ops[o := op]
    requires s'.active == s.active && s'.status == s.status && s'.gens == s.gens && s'.booted && s'.nextGen == s.nextGen
    requires !HoldsSlot(op) && !op.pc.Held? && (forall g :: Drives(op.job, g) ==> DriverFree(s.ops, g))
    requires SlotsOk(s') && OpOk(s', op)
    ensures Inv(s')
  {
    JoinsLocks(s, s', o, op);
    forall p | p in s'.ops ensures OpOk(s', s'.ops[p]) {
      if p != o {
        assert OpOk(s, s.ops[p]);
        OpStands(s, s', s.ops[p]);
      }
    }
    forall g | g in s'.gens ensures GenOk(s', g) {
      GenStands(s, s', g);
    }
    forall q ensures RunOk(s', q) {
      assert RunOk(s, q);
      if q in s.active && Activating(s, q, s.active[q]) {
        var p :| p in s.ops && s.ops[p].job.Activate? && s.ops[p].run == q && HoldsGate(s.ops, p, s.active[q]);
        assert HoldsGate(s'.ops, p, s.active[q]);
      }
      RunStands(s, s', q);
    }
  }

  lemma BeginWaiting(s: State, o: OpId, r: RunId, job: Job)
    requires Inv(s) && Enabled(s, Begin(o, r, job)) && !job.Tail?
    ensures Inv(ApplyBegin(s, o, r, job))
  {
    var (s1, slot) := Lookup(s, r);
    var op := Op(r, job, WaitSlot(slot));
    LookupKeepsSlots(s, r);
    var s' := PutOp(s1, o, op);
    assert SlotsOk(s') by {
      forall p | p in s'.ops && SlotOf(s'.ops[p]).Some?
        ensures s'.ops[p].run in s'.slots && SlotOf(s'.ops[p]) == Some(s'.slots[s'.ops[p].run])
      {
        if p != o { assert p in s1.ops; }
      }
    }
    assert OpOk(s', op);
    hide OneHolder, OneGateHolder, OneDriver, GenOk, RunOk, SlotsOk, OpOk;
    JoinsRight(s, s', o, op);
  }

  lemma BeginKeeps(s: State, o: OpId, r: RunId, job: Job)
    requires Inv(s) && Enabled(s, Begin(o, r, job))
    ensures Inv(ApplyBegin(s, o, r, job))
  {
    if job.Tail? {
      JoinsRight(s, ApplyBegin(s, o, r, job), o, Op(r, job, WaitGate(None, job.gen)));
    } else {
      BeginWaiting(s, o, r, job);
    }
  }

  lemma EventKeeps(s: State, e: Event)
    requires Inv(s) && Enabled(s, e)
    ensures Inv(Apply(s, e))
  {
    match e {
      case Begin(o, r, job) => BeginKeeps(s, o, r, job);
      case TakeSlot(o) => WaitingMovesOn(s, o);
      case TakeGate(o) => WaitingMovesOn(s, o);
      case Abandon(o) => WaitingMovesOn(s, o);
      case Work(o, ok) => WorkKeeps(s, o, ok);
      case Settle(o, ok) => SettleKeeps(s, o, ok);
      case Crash =>
      case Recover =>
    }
  }

  // ── every run ──────────────────────────────────────────────────────────

  lemma {:induction false} InvOnEveryRun(from: State, events: seq<Event>, s: State)
    requires Inv(from) && Reaches(from, events, s)
    ensures Inv(s)
    decreases |events|
  {
    if events != [] {
      EventKeeps(from, events[0]);
      InvOnEveryRun(Apply(from, events[0]), events[1..], s);
    }
  }

  ghost predicate Reachable(events: seq<Event>, s: State) {
    Reaches(INITIAL, events, s)
  }

  lemma ReachableInv(events: seq<Event>, s: State)
    requires Reachable(events, s)
    ensures Inv(s)
  {
    InvOnEveryRun(INITIAL, events, s);
  }

  /** Despite pruning, all live holders and waiters of a Run share one slot, at most one of them holds it,
      and a generation's gate has at most one holder. */
  lemma MutualExclusion(events: seq<Event>, s: State, o: OpId, p: OpId)
    requires Reachable(events, s) && o in s.ops && p in s.ops
    ensures s.ops[o].run == s.ops[p].run && SlotOf(s.ops[o]).Some? && SlotOf(s.ops[p]).Some? ==> SlotOf(s.ops[o]) == SlotOf(s.ops[p])
    ensures s.ops[o].run == s.ops[p].run && HoldsSlot(s.ops[o]) && HoldsSlot(s.ops[p]) ==> o == p
    ensures s.ops[o].pc.Held? && s.ops[p].pc.Held? && s.ops[o].pc.gate == s.ops[p].pc.gate ==> o == p
  {
    ReachableInv(events, s);
    assert HoldsSlotOf(s.ops, p, s.ops[o].run) <==> s.ops[p].run == s.ops[o].run && HoldsSlot(s.ops[p]);
    if s.ops[o].pc.Held? && s.ops[p].pc.Held? && s.ops[o].pc.gate == s.ops[p].pc.gate {
      assert HoldsGate(s.ops, p, s.ops[o].pc.gate);
    }
  }

  /** While no operation is inside a Run's slot, a hub is registered for it if and only if it is running, and
      it is the hub of the producer that will end this very attempt: not cancelled, and still producing or
      stuck on a failed write. */
  lemma RegisteredIffRunning(events: seq<Event>, s: State, r: RunId)
    requires Reachable(events, s) && s.booted
    requires forall o :: !HoldsSlotOf(s.ops, o, r)
    ensures r in s.active <==> StatusIs(s, r, Some(Running))
    ensures r in s.active ==>
              && s.active[r] in s.gens && s.gens[s.active[r]].run == r && !s.gens[s.active[r]].cancelled
              && (s.gens[s.active[r]].producer == Producing || s.gens[s.active[r]].producer == Fatal)
  {
    ReachableInv(events, s);
    assert RunOk(s, r);
    if r in s.active {
      var g := s.active[r];
      if s.gens[g].producer == Starting {
        var o :| o in s.ops && s.ops[o].job.Activate? && s.ops[o].run == r && HoldsGate(s.ops, o, g);
        assert OpOk(s, s.ops[o]) && HoldsSlotOf(s.ops, o, r);
        assert false;
      }
      assert GenOk(s, g);
    }
  }

  /** Two producers never serve one Run: a generation that still produces, and was not cancelled, is the
      registered one. */
  lemma OneProducer(events: seq<Event>, s: State, g: GenId, h: GenId)
    requires Reachable(events, s) && g in s.gens && h in s.gens && s.gens[g].run == s.gens[h].run
    requires s.gens[g].producer == s.gens[h].producer == Producing && !s.gens[g].cancelled && !s.gens[h].cancelled
    ensures g == h
  {
    ReachableInv(events, s);
    assert GenOk(s, g) && GenOk(s, h);
  }

  /** An activation that backs off because a hub is registered gives the answer its CAS would have given. */
  lemma EarlyNoneIsTheCasAnswer(events: seq<Event>, s: State, o: OpId)
    requires Reachable(events, s) && s.booted && o in s.ops && s.ops[o].job.Activate? && s.ops[o].pc.Inside?
    ensures s.ops[o].run in s.active ==> !StatusIs(s, s.ops[o].run, s.ops[o].job.from)
  {
    ReachableInv(events, s);
    assert OpOk(s, s.ops[o]);
    SlotTellsTheTruth(s, o);
  }

  /** A lost or faulted activation leaves the registry as it found it, no status changed and nobody
      producing; a won one leaves its own fresh hub registered and its Run running. */
  lemma ActivationAllOrNothing(events: seq<Event>, s: State, o: OpId, ok: bool)
    requires Reachable(events, s) && Enabled(s, Settle(o, ok)) && s.ops[o].job.Activate?
    ensures var r, g, s' := s.ops[o].run, s.ops[o].pc.gate, Apply(s, Settle(o, ok));
            && o !in s'.ops
            && if ok && StatusIs(s, r, s.ops[o].job.from)
               then Registered(s', r, g) && StatusIs(s', r, Some(Running)) && s'.gens[g] == Gen(r, false, Producing)
               else r !in s'.active && s'.status == s.status && s'.gens == s.gens && s.gens[g].producer == Starting
  {
    ReachableInv(events, s);
    assert OpOk(s, s.ops[o]);
  }

  /** Retirement never removes a live hub: the generation it retires is not the registered one any more. */
  lemma RetireIsNoOp(events: seq<Event>, s: State, o: OpId, ok: bool)
    requires Reachable(events, s) && Enabled(s, Settle(o, ok)) && s.ops[o].job.Retire?
    ensures Apply(s, Settle(o, ok)).active == s.active && Apply(s, Settle(o, ok)).status == s.status
  {
    ReachableInv(events, s);
    var g := s.ops[o].pc.gate;
    assert OpOk(s, s.ops[o]) && RunOk(s, s.ops[o].run) && GenOk(s, g);
    NoneStarting(s, o);
  }

  /** A cancel that finds its Run running always finds the producer's hub, so the producer is signalled and
      its hub removed in the same section; the arm without a hub is never taken for a running Run. */
  lemma CancelReachesTheProducer(events: seq<Event>, s: State, o: OpId)
    requires Reachable(events, s) && s.booted && o in s.ops && s.ops[o].job.Cancel? && HoldsSlot(s.ops[o])
    requires StatusIs(s, s.ops[o].run, Some(Running))
    ensures s.ops[o].run in s.active
    ensures Enabled(s, Settle(o, true)) ==>
              var s' := Apply(s, Settle(o, true));
              var g := s.active[s.ops[o].run];
              StatusIs(s', s.ops[o].run, Some(Cancelled)) && s.ops[o].run !in s'.active && g in s'.gens && s'.gens[g].cancelled
  {
    ReachableInv(events, s);
    assert OpOk(s, s.ops[o]);
    SlotTellsTheTruth(s, o);
  }

  // ── no deadlock ────────────────────────────────────────────────────────

  /** The next event of an operation that is not waiting. */
  ghost function NextOf(s: State, o: OpId): Event
    requires o in s.ops
  {
    match s.ops[o].pc
    case WaitSlot(_) => TakeSlot(o)
    case Inside(_) => Work(o, true)
    case WaitGate(_, _) => TakeGate(o)
    case Held(_, _) => Settle(o, true)
  }

  lemma HolderMoves(s: State, o: OpId)
    requires Inv(s) && o in s.ops && (s.ops[o].pc.Inside? || s.ops[o].pc.Held?)
    ensures Enabled(s, NextOf(s, o))
  {
  }

  lemma GateWaiterMoves(s: State, o: OpId) returns (p: OpId)
    requires Inv(s) && o in s.ops && s.ops[o].pc.WaitGate?
    ensures p in s.ops && Enabled(s, NextOf(s, p))
  {
    if p' :| HoldsGate(s.ops, p', s.ops[o].pc.gate) {
      p := p';
      HolderMoves(s, p);
    } else {
      p := o;
    }
  }

  /** While any operation is unfinished some operation can take its next step: the slot comes before the
      gate for everyone, and whoever holds a gate waits for nothing. */
  lemma SomeoneCanMove(events: seq<Event>, s: State) returns (p: OpId)
    requires Reachable(events, s) && s.ops != map[]
    ensures p in s.ops && Enabled(s, NextOf(s, p))
  {
    ReachableInv(events, s);
    var o :| o in s.ops;
    match s.ops[o].pc {
      case WaitSlot(slot) =>
        if q :| q in s.ops && HoldsSlot(s.ops[q]) && SlotOf(s.ops[q]) == SlotOf(s.ops[o]) {
          if s.ops[q].pc.WaitGate? { p := GateWaiterMoves(s, q); } else { p := q; HolderMoves(s, q); }
        } else {
          p := o;
        }
      case WaitGate(_, _) => p := GateWaiterMoves(s, o);
      case _ => p := o; HolderMoves(s, o);
    }
  }

  /** The weak table does not grow: after a lookup each entry is the slot of a live operation. */
  lemma TableIsPruned(events: seq<Event>, s: State, o: OpId, r: RunId, job: Job)
    requires Reachable(events, s) && Enabled(s, Begin(o, r, job)) && !job.Tail?
    ensures var s' := Apply(s, Begin(o, r, job));
            forall q :: q in s'.slots ==> Alive(s'.ops, s'.slots[q])
  {
    ReachableInv(events, s);
    var s' := Apply(s, Begin(o, r, job));
    LookupKeepsSlots(s, r);
    forall q | q in s'.slots ensures Alive(s'.ops, s'.slots[q]) {
      if q == r {
        assert SlotOf(s'.ops[o]) == Some(s'.slots[q]);
      } else {
        var p :| p in s.ops && SlotOf(s.ops[p]) == Some(s.slots[q]);
        assert p in s'.ops && SlotOf(s'.ops[p]) == Some(s'.slots[q]);
      }
    }
  }
}
