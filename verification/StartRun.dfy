/** Starting a Run: gate, hub, persist, history, spawn, in that order, with nothing left behind when a
    step refuses. */
module StartRun {
  import opened Wrappers

  type RunId = nat
  type ThreadId = nat
  type HubId = nat

  datatype RunStatus = Running | Parked | Completed | Errored | Cancelled

  datatype Role = User | Assistant

  datatype MessageStatus = Streaming | Whole | Incomplete

  datatype Message = Message(thread: ThreadId, run: RunId, role: Role, status: MessageStatus, text: string)

  /** The durable rows; `messages` is in the order the history query reads them, oldest first. */
  datatype Rows = Rows(threads: set<ThreadId>, runs: map<RunId, RunStatus>, messages: seq<Message>)

  datatype PersistStep = FreshRun(run: RunId) | CreateThread(run: RunId) | RetryCas(run: RunId)

  datatype Params = Params(thread: ThreadId, prompt: string, step: PersistStep, skipHistory: bool, deferredSpawn: bool)

  datatype Gate = Connected | Disconnected | CorruptStore

  datatype Turn = Turn(role: Role, text: string)

  datatype Manifest = Manifest(run: RunId, hub: HubId, prompt: string, history: seq<Turn>)

  datatype Outcome =
    | Started(run: RunId, manifest: Manifest, deferred: Option<Manifest>)
    | ProviderNotConnected
    | PersistRaceLost
    | Internal

  /** What the sequence did, in order. */
  datatype Act = CheckGate | Register(run: RunId) | Persist(run: RunId) | Deregister(run: RunId) | ReadHistory(run: RunId) | Spawn(run: RunId)

  // ── the persist step ───────────────────────────────────────────────────

  /** The step's guard on the rows: an insert that its foreign keys and keys admit, or a won CAS. */
  predicate CanPersist(rows: Rows, thread: ThreadId, step: PersistStep) {
    match step
    case FreshRun(run) => thread in rows.threads && run !in rows.runs
    case CreateThread(run) => thread !in rows.threads && run !in rows.runs
    case RetryCas(run) => run in rows.runs && rows.runs[run] == Errored
  }

  /** A retry clears what the failed attempt wrote. */
  function ClearReply(messages: seq<Message>, run: RunId): seq<Message> {
    if messages == [] then []
    else
      var m := messages[0];
      [if m.run == run && m.role == Assistant then m.(status := Streaming, text := "") else m] + ClearReply(messages[1..], run)
  }

  function Persisted(rows: Rows, thread: ThreadId, step: PersistStep, prompt: string): Rows {
    match step
    case RetryCas(run) => rows.(runs := rows.runs[run := Running], messages := ClearReply(rows.messages, run))
    case _ =>
      Rows(rows.threads + {thread}, rows.runs[step.run := Running],
           rows.messages + [Message(thread, step.run, User, Whole, prompt), Message(thread, step.run, Assistant, Streaming, "")])
  }

  // ── prior history ──────────────────────────────────────────────────────

  predicate InHistory(m: Message, thread: ThreadId, run: RunId) {
    m.thread == thread && m.run != run && m.status == Whole
  }

  /** The completed Messages of a Thread that belong to other Runs. */
  function History(messages: seq<Message>, thread: ThreadId, run: RunId): seq<Turn> {
    if messages == [] then []
    else
      var last := messages[|messages| - 1];
      History(messages[..|messages| - 1], thread, run) + if InHistory(last, thread, run) then [Turn(last.role, last.text)] else []
  }

  lemma {:induction false} HistoryAppend(a: seq<Message>, b: seq<Message>, thread: ThreadId, run: RunId)
    ensures History(a + b, thread, run) == History(a, thread, run) + History(b, thread, run)
  {
    if b == [] {
      assert a + b == a;
    } else {
      HistoryAppend(a, b[..|b| - 1], thread, run);
      assert (a + b)[..|a + b| - 1] == a + b[..|b| - 1];
    }
  }

  lemma {:induction false} ClearReplyIsUnseen(messages: seq<Message>, thread: ThreadId, run: RunId)
    ensures History(ClearReply(messages, run), thread, run) == History(messages, thread, run)
  {
    if messages != [] {
      var first := ClearReply(messages, run)[..1];
      ClearReplyIsUnseen(messages[1..], thread, run);
      HistoryAppend(first, ClearReply(messages[1..], run), thread, run);
      HistoryAppend(messages[..1], messages[1..], thread, run);
      assert messages == messages[..1] + messages[1..] && ClearReply(messages, run) == first + ClearReply(messages[1..], run);
      assert first[..0] == [] && messages[..1][..0] == [];
    }
  }

  /** A Run's own rows never reach its own history: reading it after the persist gives what it would have
      given before, whichever step persisted. */
  lemma {:induction false} HistoryIgnoresTheRun(rows: Rows, thread: ThreadId, step: PersistStep, prompt: string)
    ensures History(Persisted(rows, thread, step, prompt).messages, thread, step.run) == History(rows.messages, thread, step.run)
  {
    match step {
      case RetryCas(run) => ClearReplyIsUnseen(rows.messages, thread, run);
      case _ =>
        var added := [Message(thread, step.run, User, Whole, prompt), Message(thread, step.run, Assistant, Streaming, "")];
        HistoryAppend(rows.messages, added, thread, step.run);
        assert added[..1] == [added[0]];
        assert History(added[..1], thread, step.run) == History(added[..1][..0], thread, step.run) == [];
        assert History(added, thread, step.run) == [];
    }
  }

  /** Only completed Messages of other Runs of this Thread are replayed. */
  lemma {:induction false} HistoryHolds(messages: seq<Message>, thread: ThreadId, run: RunId)
    ensures forall turn :: turn in History(messages, thread, run) <==>
              exists m :: m in messages && m.thread == thread && m.run != run && m.status == Whole && turn == Turn(m.role, m.text)
  {
    if messages != [] {
      var n := |messages| - 1;
      HistoryHolds(messages[..n], thread, run);
      assert messages == messages[..n] + [messages[n]];
    }
  }

  /** `picked` are places of messages, one after another, and `history` their turns. */
  ghost predicate Picks(picked: seq<nat>, messages: seq<Message>, history: seq<Turn>) {
    && |picked| == |history|
    && (forall i :: 0 <= i < |picked| ==>
          picked[i] < |messages| && history[i] == Turn(messages[picked[i]].role, messages[picked[i]].text))
    && forall i, j :: 0 <= i < j < |picked| ==> picked[i] < picked[j]
  }

  lemma PickOneMore(picked: seq<nat>, messages: seq<Message>, history: seq<Turn>)
    requires messages != [] && Picks(picked, messages[..|messages| - 1], history)
    ensures Picks(picked, messages, history)
    ensures var n := |messages| - 1; Picks(picked + [n], messages, history + [Turn(messages[n].role, messages[n].text)])
  {
  }

  /** `picked` are exactly the places of the completed Messages of other Runs of the Thread. */
  ghost predicate PicksAll(picked: seq<nat>, messages: seq<Message>, thread: ThreadId, run: RunId) {
    forall k :: k in picked <==>
      0 <= k < |messages| && messages[k].thread == thread && messages[k].run != run && messages[k].status == Whole
  }

  lemma PickTheNext(picked: seq<nat>, messages: seq<Message>, thread: ThreadId, run: RunId)
    requires messages != [] && PicksAll(picked, messages[..|messages| - 1], thread, run)
    ensures var n := |messages| - 1;
            PicksAll(if InHistory(messages[n], thread, run) then picked + [n] else picked, messages, thread, run)
  {
    var n := |messages| - 1;
    forall k ensures k in picked <==> 0 <= k < n && InHistory(messages[k], thread, run) {
      if 0 <= k < n { assert messages[..n][k] == messages[k]; }
    }
  }

  /** In their order, and each once: the turns come one after another from exactly the places of completed Messages
      of other Runs of this Thread. */
  lemma {:induction false} HistoryInOrder(messages: seq<Message>, thread: ThreadId, run: RunId) returns (picked: seq<nat>)
    ensures Picks(picked, messages, History(messages, thread, run))
    ensures forall k :: k in picked <==>
              0 <= k < |messages| && messages[k].thread == thread && messages[k].run != run && messages[k].status == Whole
  {
    picked := PickHistory(messages, thread, run);
    hide Picks, History;
  }

  lemma {:induction false} PickHistory(messages: seq<Message>, thread: ThreadId, run: RunId) returns (picked: seq<nat>)
    ensures Picks(picked, messages, History(messages, thread, run)) && PicksAll(picked, messages, thread, run)
  {
    picked := [];
    if messages != [] {
      var n := |messages| - 1;
      var before := PickHistory(messages[..n], thread, run);
      PickOneMore(before, messages, History(messages[..n], thread, run));
      PickTheNext(before, messages, thread, run);
      hide Picks, PicksAll;
      picked := if InHistory(messages[n], thread, run) then before + [n] else before;
    }
  }

  // ── what the persist writes ────────────────────────────────────────────

  /** A retry needs its Run errored; a new Run needs an unused id, and its Thread to be there or, if it makes
      one, not to be. */
  lemma WhoCanPersist(rows: Rows, thread: ThreadId, step: PersistStep)
    ensures CanPersist(rows, thread, step)
            <==> && (step.RetryCas? <==> step.run in rows.runs)
                 && (step.RetryCas? ==> rows.runs[step.run] == Errored)
                 && (!step.RetryCas? ==> (step.FreshRun? <==> thread in rows.threads))
  {
  }

  /** Whichever step persisted: its Run is running and every other as it was. A new Run adds its prompt as a
      completed user Message and an empty streaming reply, behind all others; a retry leaves every Message in its
      place and empties the failed replies of its Run. */
  lemma PersistWrites(rows: Rows, thread: ThreadId, step: PersistStep, prompt: string)
    ensures var after := Persisted(rows, thread, step, prompt);
            && after.runs == rows.runs[step.run := Running]
            && (!step.RetryCas? ==>
                  && after.threads == rows.threads + {thread}
                  && |after.messages| == |rows.messages| + 2 && after.messages[..|rows.messages|] == rows.messages
                  && after.messages[|rows.messages|] == Message(thread, step.run, User, Whole, prompt)
                  && after.messages[|rows.messages| + 1] == Message(thread, step.run, Assistant, Streaming, ""))
            && (step.RetryCas? ==>
                  && after.threads == rows.threads
                  && |after.messages| == |rows.messages|
                  && forall i :: 0 <= i < |rows.messages| ==>
                       after.messages[i] ==
                         if rows.messages[i].run == step.run && rows.messages[i].role == Assistant
                         then Message(rows.messages[i].thread, step.run, Assistant, Streaming, "") else rows.messages[i])
  {
    if step.RetryCas? { ClearedIs(rows.messages, step.run); }
  }

  lemma {:induction false} ClearedIs(messages: seq<Message>, run: RunId)
    ensures |ClearReply(messages, run)| == |messages|
    ensures forall i :: 0 <= i < |messages| ==>
              ClearReply(messages, run)[i] ==
                if messages[i].run == run && messages[i].role == Assistant
                then Message(messages[i].thread, run, Assistant, Streaming, "") else messages[i]
  {
    if messages != [] { ClearedIs(messages[1..], run); }
  }

  // ── the sequence ───────────────────────────────────────────────────────

  class Core {
    var rows: Rows
    var active: map<RunId, HubId>
    var nextHub: HubId
    var spawned: seq<Manifest>
    ghost var trace: seq<Act>

    constructor (rows: Rows)
      ensures this.rows == rows && active == map[] && nextHub == 0 && spawned == [] && trace == []
    {
      this.rows := rows;
      active, nextHub, spawned, trace := map[], 0, [], [];
    }

    /** `PersistStep::execute`: one transaction; a lost retry CAS is a race outcome, not a fault. */
    method Execute(thread: ThreadId, step: PersistStep, prompt: string, fault: bool) returns (outcome: Option<Outcome>)
      modifies this`rows, this`trace
      ensures trace == old(trace) + [Persist(step.run)]
      ensures outcome.None? <==> !fault && CanPersist(old(rows), thread, step)
      ensures outcome.None? ==> rows == Persisted(old(rows), thread, step, prompt)
      ensures outcome.Some? ==> rows == old(rows)
      ensures outcome.Some? ==> outcome.value == if step.RetryCas? && !fault then PersistRaceLost else Internal
    {
      trace := trace + [Persist(step.run)];
      if fault {
        outcome := Some(Internal);
      } else if CanPersist(rows, thread, step) {
        rows := Persisted(rows, thread, step, prompt);
        outcome := None;
      } else {
        outcome := Some(if step.RetryCas? then PersistRaceLost else Internal);
      }
    }

    /** `activate` around the persist: hub first, then the CAS; a refused CAS takes the hub back. */
    method Activate(thread: ThreadId, step: PersistStep, prompt: string, fault: bool) returns (hub: Option<HubId>, refusal: Outcome)
      modifies this`rows, this`active, this`nextHub, this`trace
      ensures hub.Some? <==> step.run !in old(active) && !fault && CanPersist(old(rows), thread, step)
      ensures hub.Some? ==> rows == Persisted(old(rows), thread, step, prompt)
                            && active == old(active)[step.run := hub.value] && hub.value == old(nextHub)
                            && trace == old(trace) + [Register(step.run), Persist(step.run)]
      ensures hub.None? ==> rows == old(rows) && active == old(active)
      ensures nextHub == old(nextHub) + if step.run in old(active) then 0 else 1
      ensures hub.None? ==> trace == old(trace) + if step.run in old(active) then []
                                                  else [Register(step.run), Persist(step.run), Deregister(step.run)]
      ensures hub.None? ==> refusal == if step.run in old(active) || (step.RetryCas? && !fault) then PersistRaceLost else Internal
    {
      hub, refusal := None, PersistRaceLost;
      if step.run in active {
        return;
      }
      var own := nextHub;
      nextHub := nextHub + 1;
      active := active[step.run := own];
      trace := trace + [Register(step.run)];
      var refused := Execute(thread, step, prompt, fault);
      if refused.None? {
        hub := Some(own);
      } else {
        active := active - {step.run};
        trace := trace + [Deregister(step.run)];
        refusal := refused.value;
      }
    }

    /** `history_for_run`: one row after another. */
    method HistoryForRun(thread: ThreadId, run: RunId) returns (history: seq<Turn>)
      ensures history == History(rows.messages, thread, run)
      ensures forall turn :: turn in history <==>
                exists m :: m in rows.messages && m.thread == thread && m.run != run && m.status == Whole && turn == Turn(m.role, m.text)
    {
      HistoryHolds(rows.messages, thread, run);
      history := [];
      var i := 0;
      while i < |rows.messages|
        invariant 0 <= i <= |rows.messages|
        invariant history == History(rows.messages[..i], thread, run)
      {
        var m := rows.messages[i];
        assert rows.messages[..i + 1][..i] == rows.messages[..i];
        if InHistory(m, thread, run) {
          history := history + [Turn(m.role, m.text)];
        }
        i := i + 1;
      }
      assert rows.messages[..i] == rows.messages;
    }

    /** Every refusal leaves rows, hubs and spawns as they were. A start that succeeds has its hub registered
        before the rows say running, its history read after the persist and before the spawn (and still free
        of its own prompt), and exactly one spawn: fired, or handed back unfired. */
    method StartRun(params: Params, gate: Gate, fault: bool, historyFault: bool) returns (outcome: Outcome)
      modifies this
      ensures !outcome.Started? ==> rows == old(rows) && active == old(active) && spawned == old(spawned)
      ensures outcome == ProviderNotConnected <==> gate == Disconnected
      ensures gate != Connected ==> trace == old(trace) + [CheckGate]
      ensures outcome == PersistRaceLost <==>
                gate == Connected && (params.step.run in old(active)
                                      || (params.step.RetryCas? && !fault && !CanPersist(old(rows), params.thread, params.step)))
      ensures outcome.Started? <==>
                gate == Connected && params.step.run !in old(active) && !fault && CanPersist(old(rows), params.thread, params.step)
      ensures outcome.Started? ==>
                && outcome.run == params.step.run
                && rows == Persisted(old(rows), params.thread, params.step, params.prompt)
                && active == old(active)[outcome.run := outcome.manifest.hub]
                && outcome.manifest == Manifest(outcome.run, old(nextHub), params.prompt,
                                                if params.skipHistory || historyFault then []
                                                else History(old(rows).messages, params.thread, outcome.run))
                && (!params.skipHistory && !historyFault ==>
                      forall turn :: turn in outcome.manifest.history <==>
                        exists m :: m in old(rows).messages && m.thread == params.thread && m.run != outcome.run && m.status == Whole
                                    && turn == Turn(m.role, m.text))
                && (if params.deferredSpawn then spawned == old(spawned) && outcome.deferred == Some(outcome.manifest)
                    else spawned == old(spawned) + [outcome.manifest] && outcome.deferred == None)
                && trace == old(trace) + [CheckGate, Register(outcome.run), Persist(outcome.run)]
                            + (if params.skipHistory then [] else [ReadHistory(outcome.run)])
                            + (if params.deferredSpawn then [] else [Spawn(outcome.run)])
    {
      trace := trace + [CheckGate];
      match gate {
        case Disconnected => return ProviderNotConnected;
        case CorruptStore => return Internal;
        case Connected =>
      }
      var run := params.step.run;
      var hub, refusal := Activate(params.thread, params.step, params.prompt, fault);
      if hub.None? {
        return refusal;
      }
      HistoryIgnoresTheRun(old(rows), params.thread, params.step, params.prompt);
      HistoryHolds(old(rows).messages, params.thread, run);
      var history := [];
      if !params.skipHistory {
        trace := trace + [ReadHistory(run)];
        if !historyFault {
          history := HistoryForRun(params.thread, run);
        }
      }
      var manifest := Manifest(run, hub.value, params.prompt, history);
      if params.deferredSpawn {
        outcome := Started(run, manifest, Some(manifest));
      } else {
        spawned := spawned + [manifest];
        trace := trace + [Spawn(run)];
        outcome := Started(run, manifest, None);
      }
    }
  }
}
