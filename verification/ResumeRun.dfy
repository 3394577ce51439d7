/** One Run between its Workers: what its timeline gains while it runs, the call it parks on, and the transcripts
    that resumes have read and not yet handed over. A resume reads the timeline in one await and flips the Run in
    another. */
module ResumeRun {
  import opened Wrappers
  import opened Json
  import opened Resume

  type TaskId = nat

  datatype Stage = Running | Parked(awaited: string) | Over

  /** What a resume read: the stage the Run was in, the awaited call's result at that moment, the transcript. */
  datatype Reading = Reading(stage: Stage, decided: Option<Payload>, blocks: seq<Block>)

  /** `ids` are the tool call ids ever used. */
  datatype State = State(steps: seq<TimelineStep>, stage: Stage, ids: set<string>, readings: map<TaskId, Reading>)

  datatype Event =
    // the Worker's run: a new segment, more text in one, a call, a call that parks the Run
    | Say(role: string, text: string)
    | Extend(i: nat, delta: string)
    | Request(id: string, name: string, request: Value)
    | Park(id: string, name: string, request: Value)
    // a tool's result, a Decision, an external settle
    | Settle(id: string, payload: Payload)
    // a terminal transition, and the retry that keeps some of the steps
    | Stop
    | Retry(kept: seq<TimelineStep>)
    // a resume: the timeline read, then the flip that hands the transcript over
    | Read(t: TaskId)
    | Resume(t: TaskId)

  predicate KnownCalls(steps: seq<TimelineStep>, ids: set<string>) {
    forall i :: 0 <= i < |steps| && steps[i].ToolCall? ==> steps[i].id in ids
  }

  predicate Enabled(s: State, e: Event) {
    match e
    case Say(_, _) => s.stage.Running?
    case Extend(i, _) => s.stage.Running? && i < |s.steps| && s.steps[i].Message?
    case Request(id, _, _) => s.stage.Running? && id !in s.ids
    case Park(id, _, _) => s.stage.Running? && id !in s.ids
    case Settle(_, _) => true
    case Stop => !s.stage.Over?
    case Retry(kept) => s.stage.Over? && KnownCalls(kept, s.ids)
    case Read(_) => true
    case Resume(t) => s.stage.Parked? && t in s.readings
  }

  /** A result is written once. */
  function Settled(step: TimelineStep, id: string, payload: Payload): TimelineStep {
    if step.ToolCall? && step.id == id && step.result.None? then step.(result := Some(payload)) else step
  }

  function SettleCall(steps: seq<TimelineStep>, id: string, payload: Payload): seq<TimelineStep> {
    seq(|steps|, i requires 0 <= i < |steps| => Settled(steps[i], id, payload))
  }

  function Last<T>(s: seq<T>): T
    requires s != []
  {
    s[|s| - 1]
  }

  function Now(s: State): Reading {
    var decided := if s.steps != [] && Last(s.steps).ToolCall? then Last(s.steps).result else None;
    Reading(s.stage, decided, Transcript(s.steps))
  }

  function Apply(s: State, e: Event): State
    requires Enabled(s, e)
  {
    match e
    case Say(role, text) => s.(steps := s.steps + [Message(role, text)])
    case Extend(i, delta) => s.(steps := s.steps[i := Message(s.steps[i].role, s.steps[i].text + delta)])
    case Request(id, name, request) => s.(steps := s.steps + [ToolCall(id, name, request, None)], ids := s.ids + {id})
    case Park(id, name, request) =>
      s.(steps := s.steps + [ToolCall(id, name, request, None)], ids := s.ids + {id}, stage := Parked(id))
    case Settle(id, payload) => s.(steps := SettleCall(s.steps, id, payload))
    case Stop => s.(stage := Over)
    case Retry(kept) => s.(steps := kept, stage := Running)
    case Read(t) => s.(readings := s.readings[t := Now(s)])
    case Resume(t) => s.(stage := Running)
  }

  /** What each writer leaves in the timeline: a segment or a call behind the others, a call that parks the Run on it,
      more text in one segment, a result in the calls of its id that had none, and what a retry keeps. */
  lemma {:induction false} WritersWrite(s: State, e: Event)
    requires Enabled(s, e)
    ensures var s', n := Apply(s, e), |s.steps|;
            && (e.Say? ==> s' == s.(steps := s.steps + [Message(e.role, e.text)]))
            && (e.Request? || e.Park? ==>
                  && s'.steps == s.steps + [ToolCall(e.id, e.name, e.request, None)] && s'.ids == s.ids + {e.id}
                  && s'.stage == (if e.Park? then Parked(e.id) else Running) && s'.readings == s.readings)
            && (e.Extend? ==>
                  && s' == s.(steps := s'.steps) && |s'.steps| == n
                  && forall i :: 0 <= i < n ==>
                       s'.steps[i] == if i == e.i then Message(s.steps[i].role, s.steps[i].text + e.delta) else s.steps[i])
            && (e.Settle? ==>
                  && s' == s.(steps := s'.steps) && |s'.steps| == n
                  && forall i :: 0 <= i < n ==>
                       s'.steps[i] == if s.steps[i].ToolCall? && s.steps[i].id == e.id && s.steps[i].result == None
                                      then ToolCall(e.id, s.steps[i].name, s.steps[i].request, Some(e.payload)) else s.steps[i])
            && (e.Stop? ==> s' == s.(stage := Over))
            && (e.Retry? ==> s' == s.(steps := e.kept, stage := Running))
  {
    hide KnownCalls;
  }

  ghost predicate Reaches(from: State, events: seq<Event>, s: State)
    decreases |events|
  {
    if events == [] then s == from
    else Enabled(from, events[0]) && Reaches(Apply(from, events[0]), events[1..], s)
  }

  const INITIAL := State([], Running, {}, map[])

  // ── what every run keeps ───────────────────────────────────────────────

  /** The transcript's last block answers this call. */
  predicate AnswersLast(blocks: seq<Block>, id: string) {
    blocks != [] && Last(blocks).Result? && Last(blocks).toolCallId == id
  }

  function AnswerIn(name: string, decided: Option<Payload>): ToolResult {
    match decided
    case Some(payload) => TranscriptResult(name, payload)
    case None => TextResult(NOT_EXECUTED, false)
  }

  /** The awaited call is the last step. */
  predicate AwaitsLast(s: State) {
    s.stage.Parked? ==> s.steps != [] && Last(s.steps).ToolCall? && Last(s.steps).id == s.stage.awaited
  }

  /** A transcript read on the present waitpoint answers the awaited call as it then stood; any other does not
      answer it at all. */
  ghost predicate ReadingOk(s: State, reading: Reading)
    requires AwaitsLast(s)
  {
    && (forall id :: AnswersLast(reading.blocks, id) ==> id in s.ids)
    && (reading.stage.Parked? ==> reading.stage.awaited in s.ids)
    && (s.stage.Parked? ==>
          if reading.stage == s.stage
          then && AnswersLast(reading.blocks, s.stage.awaited)
               && Last(reading.blocks).result == AnswerIn(Last(s.steps).name, reading.decided)
               && (reading.decided.Some? ==> Last(s.steps).result == reading.decided)
          else !AnswersLast(reading.blocks, s.stage.awaited))
  }

  ghost predicate Inv(s: State) {
    && AwaitsLast(s)
    && KnownCalls(s.steps, s.ids)
    && forall t :: t in s.readings ==> ReadingOk(s, s.readings[t])
  }

  /** A transcript answers only calls of its timeline. */
  lemma {:induction false} AnswersKnown(steps: seq<TimelineStep>, ids: set<string>, i: nat)
    requires KnownCalls(steps, ids) && i < |Transcript(steps)| && Transcript(steps)[i].Result?
    ensures Transcript(steps)[i].toolCallId in ids
  {
    var n := |steps| - 1;
    if i < |Transcript(steps[..n])| {
      AnswersKnown(steps[..n], ids, i);
    } else {
      assert Transcript(steps)[i] == BlocksOf(steps[n])[i - |Transcript(steps[..n])|];
    }
  }

  lemma NowIsOk(s: State)
    requires Inv(s)
    ensures ReadingOk(s, Now(s))
  {
    var blocks := Transcript(s.steps);
    forall id | AnswersLast(blocks, id) ensures id in s.ids {
      AnswersKnown(s.steps, s.ids, |blocks| - 1);
    }
    if s.stage.Parked? { EndsWithTheDecision(s.steps); }
  }

  lemma EventKeeps(s: State, e: Event)
    requires Inv(s) && Enabled(s, e)
    ensures Inv(Apply(s, e))
  {
    var s' := Apply(s, e);
    forall t | t in s'.readings ensures ReadingOk(s', s'.readings[t]) {
      if e == Read(t) { NowIsOk(s); } else { assert ReadingOk(s, s.readings[t]); }
    }
  }

  lemma {:induction false} InvOnEveryRun(from: State, events: seq<Event>, s: State)
    requires Inv(from) && Reaches(from, events, s)
    ensures Inv(s)
    decreases |events|
  {
    if events != [] {
      EventKeeps(from, events[0]);
      InvOnEveryRun(Apply(from, events[0]), events[1..], s);
    }
  }

  /** What the Worker of a resume is handed, on every run: the awaited call is the timeline's last step, and the
      transcript ends with its answer if and only if it was read on this very waitpoint. Then the answer is the
      persisted Decision, or the placeholder if the call had none when it was read. */
  lemma {:induction false} ResumesOnTheAwaitedCall(events: seq<Event>, s: State, t: TaskId)
    requires Reaches(INITIAL, events, s) && Enabled(s, Resume(t))
    ensures var a, reading := s.stage.awaited, s.readings[t];
            && s.steps != [] && Last(s.steps).ToolCall? && Last(s.steps).id == a
            && (AnswersLast(reading.blocks, a) <==> reading.stage == s.stage)
            && (reading.stage == s.stage ==>
                  && Last(reading.blocks) == Result(a, AnswerIn(Last(s.steps).name, reading.decided))
                  && (reading.decided.Some? ==> Last(s.steps).result == reading.decided)
                  && (reading.decided.None? ==>
                        Last(reading.blocks) == Result(a, OneText("not executed; resubmit if still needed", false))))
  {
    InvOnEveryRun(INITIAL, events, s);
    assert ReadingOk(s, s.readings[t]);
  }

  const FIRST := Payload("first", None)
  const TWO_READ := [Park("a", "propose", Null), Settle("a", FIRST), Read(0), Read(1)]
  const NEXT_CALL := [Resume(0), Park("b", "propose", Null), Settle("b", FIRST)]

  lemma {:induction false} ReachesMore(from: State, first: seq<Event>, mid: State, more: seq<Event>, s: State)
    requires Reaches(from, first, mid) && Reaches(mid, more, s)
    ensures Reaches(from, first + more, s)
    decreases |first|
  {
    if first == [] {
      assert first + more == more;
    } else {
      ReachesMore(Apply(from, first[0]), first[1..], mid, more, s);
      assert (first + more)[1..] == first[1..] + more;
    }
  }

  lemma ShortRun(from: State, e: seq<Event>) returns (s: State)
    requires 3 <= |e| <= 4 && Enabled(from, e[0]) && Enabled(Apply(from, e[0]), e[1])
    requires Enabled(Apply(Apply(from, e[0]), e[1]), e[2])
    requires |e| == 4 ==> Enabled(Apply(Apply(Apply(from, e[0]), e[1]), e[2]), e[3])
    ensures Reaches(from, e, s)
    ensures var s3 := Apply(Apply(Apply(from, e[0]), e[1]), e[2]); s == if |e| == 4 then Apply(s3, e[3]) else s3
  {
    var s1 := Apply(from, e[0]);
    var s2 := Apply(s1, e[1]);
    var s3 := Apply(s2, e[2]);
    s := if |e| == 4 then Apply(s3, e[3]) else s3;
    assert Reaches(s3, e[3..], s) by { if |e| == 4 { assert e[3..][1..] == []; } }
    assert e[2..][1..] == e[3..] && Reaches(s2, e[2..], s);
    assert e[1..][1..] == e[2..] && Reaches(s1, e[1..], s);
  }

  lemma BothRead() returns (s: State)
    ensures Reaches(INITIAL, TWO_READ, s)
    ensures s.stage == Parked("a") && s.ids == {"a"} && 0 in s.readings && 1 in s.readings
    ensures AnswersLast(s.readings[1].blocks, "a")
  {
    s := ShortRun(INITIAL, TWO_READ);
    EndsWithTheDecision(Apply(Apply(INITIAL, TWO_READ[0]), TWO_READ[1]).steps);
    hide Transcript;
  }

  /** It can be read on an older one: two resumes of the first call read its transcript, the first flips and the
      Run parks on a second call; when that is decided the other flip hands the Worker a transcript that ends with
      the first Decision and does not know the second call. */
  lemma OldTranscriptIsHanded() returns (s: State)
    ensures Reaches(INITIAL, TWO_READ + NEXT_CALL, s) && Enabled(s, Resume(1))
    ensures s.stage == Parked("b") && s.steps != [] && Last(s.steps) == ToolCall("b", "propose", Null, Some(FIRST))
    ensures AnswersLast(s.readings[1].blocks, "a")
  {
    var mid := BothRead();
    s := ShortRun(mid, NEXT_CALL);
    ReachesMore(INITIAL, TWO_READ, mid, NEXT_CALL, s);
    hide Transcript, Reaches;
  }
}
