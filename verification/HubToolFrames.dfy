/** The frames of Core's own tool calls, whose rows are written outside the gate: a gated `started` frame, the row,
    its result, a gated `finished` frame. A subscriber's snapshot is of the rows, so one that attaches in the
    middle of a call does not meet its frames exactly. */
module HubToolFrames {
  import opened Wrappers

  type CallId = nat
  type SubId = nat

  datatype Frame = Started(call: CallId) | Finished(call: CallId)

  /** Where the Worker's loop is: between calls, or past one step of a call. */
  datatype Phase = Idle | Announced(call: CallId) | Written(call: CallId) | Resolved(call: CallId)

  /** A tail: the rows its snapshot had (true: with a result), the calls begun and the phase at that read, and the
      frames received since. */
  datatype Tail = Tail(snapshot: map<CallId, bool>, begun: set<CallId>, at: Phase, frames: seq<Frame>)

  /** `attaching` is the subscriber that holds the gate between its read and its attach. */
  datatype State = State(
    rows: map<CallId, bool>, begun: set<CallId>, finished: set<CallId>, phase: Phase,
    attaching: Option<(SubId, Tail)>, tails: map<SubId, Tail>)

  /** A row that cannot be written is logged and the call goes on. */
  datatype Event =
    | Announce(call: CallId)
    | Persist(ok: bool)
    | Resolve(ok: bool)
    | Finish
    | Read(sub: SubId)
    | Attach

  predicate Enabled(s: State, e: Event) {
    match e
    case Announce(call) => s.phase.Idle? && s.attaching.None? && call !in s.begun
    case Persist(_) => s.phase.Announced?
    case Resolve(_) => s.phase.Written?
    case Finish => s.phase.Resolved? && s.attaching.None?
    case Read(_) => s.attaching.None?
    case Attach => s.attaching.Some?
  }

  function SendAll(tails: map<SubId, Tail>, frame: Frame): map<SubId, Tail> {
    map sub | sub in tails :: tails[sub].(frames := tails[sub].frames + [frame])
  }

  function Apply(s: State, e: Event): State
    requires Enabled(s, e)
  {
    match e
    case Announce(call) => s.(phase := Announced(call), begun := s.begun + {call}, tails := SendAll(s.tails, Started(call)))
    case Persist(ok) => s.(phase := Written(s.phase.call), rows := if ok then s.rows[s.phase.call := false] else s.rows)
    case Resolve(ok) =>
      s.(phase := Resolved(s.phase.call), rows := if ok && s.phase.call in s.rows then s.rows[s.phase.call := true] else s.rows)
    case Finish =>
      s.(phase := Idle, finished := s.finished + {s.phase.call}, tails := SendAll(s.tails, Finished(s.phase.call)))
    case Read(sub) => s.(attaching := Some((sub, Tail(s.rows, s.begun, s.phase, []))))
    case Attach => s.(attaching := None, tails := s.tails[s.attaching.value.0 := s.attaching.value.1])
  }

  ghost predicate Reaches(from: State, events: seq<Event>, s: State)
    decreases |events|
  {
    if events == [] then s == from
    else Enabled(from, events[0]) && Reaches(Apply(from, events[0]), events[1..], s)
  }

  const INITIAL := State(map[], {}, {}, Idle, None, map[])

  /** The frames of one call, in order. */
  function FramesOf(frames: seq<Frame>, call: CallId): seq<Frame> {
    if frames == [] then []
    else
      var n := |frames| - 1;
      FramesOf(frames[..n], call) + if frames[n].call == call then [frames[n]] else []
  }

  predicate Under(phase: Phase, call: CallId) {
    !phase.Idle? && phase.call == call
  }

  /** What was sent of a call a tail has heard from the start, and of the one it attached in the middle of. */
  function Owed(s: State, t: Tail, call: CallId): seq<Frame> {
    (if call in s.begun && call !in t.begun then [Started(call)] else [])
    + if call in s.finished && (call !in t.begun || Under(t.at, call)) then [Finished(call)] else []
  }

  /** Only a call that is past its result and not yet finished has its row over before its last frame. */
  ghost predicate TailOk(s: State, t: Tail) {
    && t.begun <= s.begun
    && (forall call :: FramesOf(t.frames, call) == Owed(s, t, call))
    && (forall call :: call in t.snapshot ==> call in t.begun && !(t.at == Announced(call)))
    && (forall call :: call in t.snapshot && t.snapshot[call] && Under(t.at, call) ==> t.at.Resolved?)
    && (forall call :: call in t.begun && call !in t.snapshot && call in s.rows ==> t.at == Announced(call))
    && (forall call :: call in t.begun && !Under(t.at, call) ==> call in s.finished)
    && (!t.at.Idle? ==> t.at.call in t.begun)
    && (!s.phase.Idle? && s.phase.call in t.begun ==> Under(t.at, s.phase.call) && (s.phase.Announced? ==> t.at.Announced?))
  }

  ghost predicate Inv(s: State) {
    && s.finished <= s.begun
    && (forall call :: call in s.begun && !Under(s.phase, call) ==> call in s.finished)
    && (!s.phase.Idle? ==> s.phase.call in s.begun && s.phase.call !in s.finished)
    && (forall call :: call in s.rows ==> call in s.begun && s.phase != Announced(call))
    && (forall call :: call in s.rows && s.rows[call] && Under(s.phase, call) ==> s.phase.Resolved?)
    && (forall sub :: sub in s.tails ==> TailOk(s, s.tails[sub]))
    && (s.attaching.Some? ==> TailOk(s, s.attaching.value.1))
  }

  /** A tail that stays hears what is sent. */
  function Heard(s: State, e: Event, t: Tail): Tail
    requires Enabled(s, e)
  {
    match e
    case Announce(call) => t.(frames := t.frames + [Started(call)])
    case Finish => t.(frames := t.frames + [Finished(s.phase.call)])
    case _ => t
  }

  lemma {:induction false} FramesKeep(s: State, e: Event, t: Tail, call: CallId)
    requires Inv(s) && Enabled(s, e) && TailOk(s, t)
    ensures FramesOf(Heard(s, e, t).frames, call) == Owed(Apply(s, e), Heard(s, e, t), call)
  {
    var t' := Heard(s, e, t);
    assert FramesOf(t.frames, call) == Owed(s, t, call);
    if t'.frames != t.frames { assert t'.frames[..|t.frames|] == t.frames; }
  }

  lemma TailKeeps(s: State, e: Event, t: Tail)
    requires Inv(s) && Enabled(s, e) && TailOk(s, t)
    ensures TailOk(Apply(s, e), Heard(s, e, t))
  {
    var t' := Heard(s, e, t);
    hide FramesOf, Owed;
    forall call ensures FramesOf(t'.frames, call) == Owed(Apply(s, e), t', call) {
      FramesKeep(s, e, t, call);
    }
  }

  lemma EventKeeps(s: State, e: Event)
    requires Inv(s) && Enabled(s, e)
    ensures Inv(Apply(s, e))
  {
    var s' := Apply(s, e);
    forall sub | sub in s'.tails ensures TailOk(s', s'.tails[sub]) {
      if e.Attach? && sub == s.attaching.value.0 { TailKeeps(s, e, s.attaching.value.1); } else { TailKeeps(s, e, s.tails[sub]); }
    }
    if s'.attaching.Some? && s.attaching.Some? { TailKeeps(s, e, s.attaching.value.1); }
    hide FramesOf;
  }

  lemma {:induction false} InvOnEveryRun(from: State, events: seq<Event>, s: State)
    requires Inv(from) && Reaches(from, events, s)
    ensures Inv(s)
    decreases |events|
  {
    if events != [] {
      EventKeeps(from, events[0]);
      InvOnEveryRun(Apply(from, events[0]), events[1..], s);
    }
  }

  /** What a subscriber is sent of a call: both frames, once and in order, if the call began after its read; only
      the last if the read fell inside the call; none if the call was over by then. So what it can see twice is the
      end of the one call whose row was resolved and whose last frame was still to come at the read, and what it
      can miss is the start of the one call announced and not yet written: its row and its first frame are both
      behind it, until its last frame or the next snapshot. */
  lemma {:induction false} ToolCallsShown(events: seq<Event>, s: State, sub: SubId, call: CallId)
    requires Reaches(INITIAL, events, s) && sub in s.tails && call in s.begun
    ensures var t := s.tails[sub];
            && FramesOf(t.frames, call) ==
                 (if call !in t.begun then [Started(call)] + if call in s.finished then [Finished(call)] else []
                  else if Under(t.at, call) && call in s.finished then [Finished(call)] else [])
            && (call !in t.begun ==> call !in t.snapshot)
            && (call in t.snapshot && t.snapshot[call] && FramesOf(t.frames, call) != [] ==> t.at == Resolved(call))
            && (call in t.begun && call in s.rows && call !in t.snapshot ==> t.at == Announced(call))
  {
    InvOnEveryRun(INITIAL, events, s);
    assert TailOk(s, s.tails[sub]);
  }

  lemma {:induction false} Onwards(from: State, e: Event, rest: seq<Event>, s: State)
    requires Enabled(from, e) && Reaches(Apply(from, e), rest, s)
    ensures Reaches(from, [e] + rest, s)
  {
    assert ([e] + rest)[1..] == rest;
  }

  const WRITTEN_LATE := [Announce(0)] + ([Read(1)] + ([Persist(true)] + ([Attach] + [])))
  const SHOWN_TWICE := [Announce(0)] + ([Persist(true)] + ([Resolve(true)] + ([Read(1)] + ([Attach] + ([Finish] + [])))))

  /** Both happen: a subscriber that shows nothing of a call whose row is written. */
  lemma StartMissed() returns (s: State)
    ensures Reaches(INITIAL, WRITTEN_LATE, s) && 0 in s.rows && 1 in s.tails
    ensures 0 !in s.tails[1].snapshot && s.tails[1].frames == []
  {
    var s1 := Apply(INITIAL, Announce(0));
    var s2 := Apply(s1, Read(1));
    var s3 := Apply(s2, Persist(true));
    s := Apply(s3, Attach);
    Onwards(s3, Attach, [], s);
    Onwards(s2, Persist(true), [Attach] + [], s);
    Onwards(s1, Read(1), [Persist(true)] + ([Attach] + []), s);
    hide Reaches;
  }

  /** And one that shows its end twice. */
  lemma EndShownTwice() returns (s: State)
    ensures Reaches(INITIAL, SHOWN_TWICE, s) && 1 in s.tails
    ensures 0 in s.tails[1].snapshot && s.tails[1].snapshot[0] && s.tails[1].frames == [Finished(0)]
  {
    var s1 := Apply(INITIAL, Announce(0));
    var s2 := Apply(s1, Persist(true));
    var s3 := Apply(s2, Resolve(true));
    var s4 := Apply(s3, Read(1));
    var s5 := Apply(s4, Attach);
    s := Apply(s5, Finish);
    Onwards(s5, Finish, [], s);
    Onwards(s4, Attach, [Finish] + [], s);
    Onwards(s3, Read(1), [Attach] + ([Finish] + []), s);
    Onwards(s2, Resolve(true), [Read(1)] + ([Attach] + ([Finish] + [])), s);
    Onwards(s1, Persist(true), [Resolve(true)] + ([Read(1)] + ([Attach] + ([Finish] + []))), s);
    hide Reaches;
  }
}
