/** The pieces of the stream that are updated in place: the bounded broadcast buffer, a subscriber's
    tail, and the forwarder's loop over it. */
module HubChannel {
  import opened Wrappers
  import opened HubStream

  /** The broadcast channel: the last `HUB_BUFFER` events and how many were ever sent. */
  class Broadcast {
    var slots: seq<RunEvent>
    var next: nat
    ghost var history: seq<RunEvent>

    ghost predicate Valid()
      reads this
    {
      && |history| == next
      && |slots| == (if next < HUB_BUFFER then next else HUB_BUFFER)
      && slots == history[next - |slots|..]
    }

    constructor ()
      ensures Valid() && history == []
    {
      slots, next, history := [], 0, [];
    }

    /** `RunHub::send`: the oldest event falls out of a full buffer. */
    method Send(event: RunEvent)
      requires Valid()
      modifies this
      ensures Valid() && history == old(history) + [event]
    {
      slots := (if |slots| < HUB_BUFFER then slots else slots[1..]) + [event];
      next := next + 1;
      history := history + [event];
    }
  }

  datatype Received = Delivered(event: RunEvent) | Lagged(missed: nat) | Empty

  /** What reaches the client: a snapshot replaces what it shows, an event extends it. */
  datatype Frame = SnapshotFrame(timeline: seq<RunEvent>) | EventFrame(event: RunEvent)

  function Show(shown: seq<RunEvent>, frame: Frame): seq<RunEvent> {
    match frame
    case SnapshotFrame(timeline) => timeline
    case EventFrame(event) => shown + [event]
  }

  function ShowAll(shown: seq<RunEvent>, frames: seq<Frame>): seq<RunEvent> {
    if frames == [] then shown else Show(ShowAll(shown, frames[..|frames| - 1]), frames[|frames| - 1])
  }

  /** A subscriber's receiver: a position in the channel's history. */
  class RunTail {
    const channel: Broadcast
    var position: nat

    ghost predicate Valid()
      reads this, channel
    {
      channel.Valid() && position <= channel.next
    }

    /** Attach at the channel's tail. */
    constructor (channel: Broadcast)
      requires channel.Valid()
      ensures this.channel == channel && Valid() && position == channel.next
    {
      this.channel := channel;
      this.position := channel.next;
    }

    /** `RunTail::recv`: the next event, or how many fell out of the buffer. */
    method Recv() returns (r: Received)
      requires Valid()
      modifies this`position
      ensures Valid()
      ensures match r
              case Delivered(event) =>
                old(position) < channel.next <= old(position) + 256
                && event == channel.history[old(position)] && position == old(position) + 1
              case Lagged(missed) =>
                channel.next > old(position) + 256
                && missed == channel.next - 256 - old(position) && position == channel.next - 256
              case Empty => old(position) == channel.next == position
    {
      if position == channel.next {
        r := Empty;
      } else if position + HUB_BUFFER < channel.next {
        r := Lagged(channel.next - HUB_BUFFER - position);
        position := channel.next - HUB_BUFFER;
      } else {
        var oldest := channel.next - |channel.slots|;
        r := Delivered(channel.slots[position - oldest]);
        position := position + 1;
      }
    }

    /** `RunTail::recover`, under the gate: the re-read timeline, and a fresh receiver at the tail. */
    method Recover(persisted: seq<RunEvent>) returns (snapshot: seq<RunEvent>)
      requires Valid()
      modifies this`position
      ensures Valid() && position == channel.next && snapshot == persisted
    {
      snapshot := persisted;
      position := channel.next;
    }

    /** One round of the forwarder: a received event is passed on, a lag is recovered from. */
    method ForwardOne(persisted: seq<RunEvent>) returns (frame: Option<Frame>)
      requires Valid()
      modifies this`position
      ensures Valid()
      ensures if old(position) == channel.next then frame.None? && position == old(position)
              else frame.Some? && FrameIs(frame.value, persisted, channel.history, old(position), position)
    {
      var r := Recv();
      match r {
        case Empty => frame := None;
        case Delivered(event) => frame := Some(EventFrame(event));
        case Lagged(_) =>
          var snapshot := Recover(persisted);
          frame := Some(SnapshotFrame(snapshot));
      }
    }

    /** The forwarder, run until it has nothing left to receive while no publisher is at work: whatever it
        had shown and however far it had fallen behind, its client then shows exactly the persisted log.
        A recovery happens only for a tail more than a buffer behind, and then it is all that is sent. */
    method Forward(persisted: seq<RunEvent>, ghost base: seq<RunEvent>, ghost shown: seq<RunEvent>) returns (frames: seq<Frame>)
      requires Valid() && persisted == base + channel.history && shown == base + channel.history[..position]
      modifies this`position
      ensures Valid() && position == channel.next
      ensures ShowAll(shown, frames) == persisted
      ensures FramesAre(frames, persisted, channel.history, old(position), position)
    {
      hide FramesAre, FrameIs, ShowAll;
      frames := [];
      ghost var start := position;
      ghost var before := position;
      NoFrames(persisted, channel.history, start);
      var frame := ForwardOne(persisted);
      while frame.Some?
        invariant Valid() && before <= channel.next
        invariant FramesAre(frames, persisted, channel.history, start, before)
        invariant if frame.None? then before == position == channel.next
                  else FrameIs(frame.value, persisted, channel.history, before, position)
        decreases channel.next - before
      {
        OneMoreFrame(frames, frame.value, persisted, channel.history, start, before, position);
        frames := frames + [frame.value];
        before := position;
        frame := ForwardOne(persisted);
      }
      FramesShow(frames, persisted, base, channel.history, start);
    }
  }

  /** One frame and how far it takes the tail: all the way on a recovery, one event otherwise. */
  ghost predicate FrameIs(frame: Frame, persisted: seq<RunEvent>, history: seq<RunEvent>, from: nat, to: nat) {
    && from < to <= |history|
    && if |history| > from + HUB_BUFFER then frame == SnapshotFrame(persisted) && to == |history|
       else frame == EventFrame(history[from]) && to == from + 1
  }

  /** What is sent between two positions: one snapshot if the tail had lagged, otherwise event by event. */
  ghost predicate FramesAre(frames: seq<Frame>, persisted: seq<RunEvent>, history: seq<RunEvent>, from: nat, to: nat) {
    && from <= to <= |history|
    && if |history| > from + HUB_BUFFER
       then if to == from then frames == [] else frames == [SnapshotFrame(persisted)] && to == |history|
       else |frames| == to - from && forall i :: 0 <= i < |frames| ==> frames[i] == EventFrame(history[from + i])
  }

  lemma NoFrames(persisted: seq<RunEvent>, history: seq<RunEvent>, from: nat)
    requires from <= |history|
    ensures FramesAre([], persisted, history, from, from)
  {
  }

  lemma OneMoreFrame(frames: seq<Frame>, frame: Frame, persisted: seq<RunEvent>, history: seq<RunEvent>, from: nat, mid: nat, to: nat)
    requires FramesAre(frames, persisted, history, from, mid) && FrameIs(frame, persisted, history, mid, to)
    ensures FramesAre(frames + [frame], persisted, history, from, to) && mid < to <= |history|
  {
  }

  lemma {:induction false} FramesShow(frames: seq<Frame>, persisted: seq<RunEvent>, base: seq<RunEvent>, history: seq<RunEvent>, from: nat)
    requires persisted == base + history && FramesAre(frames, persisted, history, from, |history|)
    ensures ShowAll(base + history[..from], frames) == persisted
  {
    assert history[..|history|] == history;
    if |history| <= from + HUB_BUFFER {
      EventsShow(frames, base, history, from);
    } else {
      assert frames[..0] == [];
    }
  }

  lemma {:induction false} EventsShow(frames: seq<Frame>, base: seq<RunEvent>, history: seq<RunEvent>, from: nat)
    requires from + |frames| <= |history| && forall i :: 0 <= i < |frames| ==> frames[i] == EventFrame(history[from + i])
    ensures ShowAll(base + history[..from], frames) == base + history[..from + |frames|]
  {
    if frames != [] {
      var n := |frames| - 1;
      EventsShow(frames[..n], base, history, from);
      assert history[..from + n + 1] == history[..from + n] + [history[from + n]];
    }
  }
}
