/** The per-stream capture of the `postPublish` handler: ffmpeg output blocks
    gathered in `audioChunks`, a ten-second timer that sends everything gathered
    so far to transcription, and the ffmpeg `exit` handler that stops the timer. */
module Collector {
  import opened Util
  import opened Transcript
  import opened Queue
  import opened Stt

  /** The blocks gathered since the last tick, oldest first, and whether the
      timer is still set. */
  datatype CollectorState = CollectorState(pending: seq<seq<byte>>, running: bool)

  /** Just after `postPublish`: nothing gathered, timer set. */
  const Started := CollectorState([], true)

  /** An ffmpeg `data` event. The listener stays attached after `exit`, so a
      block is gathered whether or not the timer still runs. */
  function DataStep(s: CollectorState, block: seq<byte>): CollectorState
  {
    s.(pending := s.pending + [block])
  }

  /** What one tick hands to transcription, and the state it leaves. */
  datatype TickResult = TickResult(dispatched: Option<seq<byte>>, next: CollectorState)

  /** A timer tick: with blocks gathered, their concatenation goes to
      transcription and the list is emptied; with none, or once the timer is
      cleared, nothing happens. */
  function TickStep(s: CollectorState): TickResult
  {
    if s.running && |s.pending| > 0 then TickResult(Some(Flatten(s.pending)), s.(pending := []))
    else TickResult(None, s)
  }

  /** The ffmpeg `exit` event: `clearInterval(chunkTimer)`. */
  function ExitStep(s: CollectorState): CollectorState
  {
    s.(running := false)
  }

  /** The state one `postPublish` handler closes over. */
  class ChunkCollector {
    var audioChunks: seq<seq<byte>>
    var running: bool

    function State(): CollectorState
      reads this
    {
      CollectorState(audioChunks, running)
    }

    constructor ()
      ensures State() == Started
    {
      audioChunks := [];
      running := true;
    }

    /** `audioChunks.push(chunk)`. */
    method OnData(block: seq<byte>)
      modifies this
      ensures State() == DataStep(old(State()), block)
    {
      audioChunks := audioChunks + [block];
    }

    /** One firing of `chunkTimer`: read the clock, concatenate the blocks,
        transcribe them (which may push a line onto `q`) and clear the list. */
    method Tick(q: TranscriptQueue, now: nat, steps: SttSteps) returns (audio: Option<seq<byte>>)
      requires running && audioChunks != [] ==> Covered(now, |Flatten(audioChunks)|)
      modifies this, q
      ensures TickResult(audio, State()) == TickStep(old(State()))
      ensures audio.None? ==> q.lines == old(q.lines)
      ensures audio.Some? ==> (Covered(now, |audio.value|) &&
        q.lines == old(q.lines) + SttResult(audio.value, now, steps).ToSeq())
    {
      if running && |audioChunks| > 0 {
        var buffer := Flatten(audioChunks);
        SendAudioToStt(q, buffer, now, steps);
        audioChunks := [];
        audio := Some(buffer);
      } else {
        audio := None;
      }
    }

    /** The ffmpeg `exit` handler. */
    method OnExit()
      modifies this
      ensures State() == ExitStep(old(State()))
    {
      running := false;
    }
  }

  // A stream's life as a sequence of atomic events.

  datatype StreamEvent = Data(block: seq<byte>) | Tick | Exit

  /** The buffers a run hands to transcription, in order, and the state it leaves. */
  datatype StreamRun = StreamRun(dispatched: seq<seq<byte>>, final: CollectorState)

  function RunStream(s: CollectorState, events: seq<StreamEvent>): StreamRun
    decreases |events|
  {
    if events == [] then StreamRun([], s)
    else match events[0]
      case Data(b) => RunStream(DataStep(s, b), events[1..])
      case Exit => RunStream(ExitStep(s), events[1..])
      case Tick =>
        var t := TickStep(s);
        var r := RunStream(t.next, events[1..]);
        if t.dispatched.Some? then StreamRun([t.dispatched.value] + r.dispatched, r.final) else r
  }

  /** The blocks ffmpeg produced during the events, in order. */
  function Blocks(events: seq<StreamEvent>): seq<seq<byte>>
  {
    if events == [] then []
    else match events[0]
      case Data(b) => [b] + Blocks(events[1..])
      case _ => Blocks(events[1..])
  }

  predicate NoTicks(events: seq<StreamEvent>)
  {
    forall i :: 0 <= i < |events| ==> !events[i].Tick?
  }

  /** Gathering a block and then ticking transcribes the old blocks followed by
      the new one. */
  lemma TickAfterData(s: CollectorState, block: seq<byte>)
    requires s.running
    ensures TickStep(DataStep(s, block)) == TickResult(Some(Flatten(s.pending) + block), s.(pending := []))
  {
    FlattenSnoc(s.pending, block);
  }

  /** A tick right after a tick finds nothing to send. */
  lemma SecondTickIdle(s: CollectorState)
    ensures TickStep(TickStep(s).next).dispatched.None?
    ensures TickStep(TickStep(s).next).next == TickStep(s).next
  {
  }

  /** In this model, where a tick takes the gathered blocks and empties the list
      in one step, no audio is lost or repeated: the buffers handed to
      transcription, put together, followed by the blocks still gathered, are
      the blocks there at the start followed by every block ffmpeg produced, in
      order. The callback as written empties the list only after the awaited
      call returns; `AsWrittenLosesBlock` and `AsWrittenRepeatsBlock` below show
      what that costs. */
  lemma {:induction false} StreamConservation(s: CollectorState, events: seq<StreamEvent>)
    ensures var r := RunStream(s, events);
      Flatten(r.dispatched) + Flatten(r.final.pending) == Flatten(s.pending) + Flatten(Blocks(events))
    decreases |events|, 1
  {
    if events != [] {
      match events[0]
      case Data(b) => ConservedByData(s, events, b);
      case Exit =>
        StreamConservation(ExitStep(s), events[1..]);
        assert RunStream(s, events) == RunStream(ExitStep(s), events[1..]);
        assert Blocks(events) == Blocks(events[1..]);
      case Tick => ConservedByTick(s, events);
    }
  }

  lemma {:induction false} ConservedByData(s: CollectorState, events: seq<StreamEvent>, b: seq<byte>)
    requires events != [] && events[0] == Data(b)
    ensures var r := RunStream(s, events);
      Flatten(r.dispatched) + Flatten(r.final.pending) == Flatten(s.pending) + Flatten(Blocks(events))
    decreases |events|, 0
  {
    var s' := DataStep(s, b);
    StreamConservation(s', events[1..]);
    assert RunStream(s, events) == RunStream(s', events[1..]);
    var later := Blocks(events[1..]);
    assert Blocks(events) == [b] + later;
    FlattenSnoc(s.pending, b);
    FlattenCons(b, later);
    assert Flatten(s.pending) + b + Flatten(later) == Flatten(s.pending) + (b + Flatten(later));
  }

  lemma {:induction false} ConservedByTick(s: CollectorState, events: seq<StreamEvent>)
    requires events != [] && events[0] == Tick
    ensures var r := RunStream(s, events);
      Flatten(r.dispatched) + Flatten(r.final.pending) == Flatten(s.pending) + Flatten(Blocks(events))
    decreases |events|, 0
  {
    var t := TickStep(s);
    StreamConservation(t.next, events[1..]);
    var r := RunStream(t.next, events[1..]);
    assert Blocks(events) == Blocks(events[1..]);
    if t.dispatched.Some? {
      var buffer := Flatten(s.pending);
      assert RunStream(s, events) == StreamRun([buffer] + r.dispatched, r.final);
      assert ([buffer] + r.dispatched)[1..] == r.dispatched;
      var later := Flatten(r.dispatched);
      assert later + Flatten(r.final.pending) == Flatten(Blocks(events[1..])) by {
        assert t.next.pending == [];
        assert [] + Flatten(Blocks(events[1..])) == Flatten(Blocks(events[1..]));
      }
      assert buffer + later + Flatten(r.final.pending) == buffer + (later + Flatten(r.final.pending));
    } else {
      assert RunStream(s, events) == r;
    }
  }

  /** Once the timer is cleared nothing more is transcribed, and it stays cleared. */
  lemma {:induction false} NothingAfterExit(s: CollectorState, events: seq<StreamEvent>)
    requires !s.running
    ensures RunStream(s, events).dispatched == []
    ensures !RunStream(s, events).final.running
    decreases |events|
  {
    if events != [] {
      match events[0]
      case Data(b) =>
        NothingAfterExit(DataStep(s, b), events[1..]);
        assert RunStream(s, events) == RunStream(DataStep(s, b), events[1..]);
      case Exit =>
        NothingAfterExit(ExitStep(s), events[1..]);
        assert RunStream(s, events) == RunStream(ExitStep(s), events[1..]);
      case Tick =>
        NothingAfterExit(s, events[1..]);
        assert RunStream(s, events) == RunStream(s, events[1..]);
    }
  }

  /** Events without a tick only gather blocks (and possibly clear the timer): they
      transcribe nothing. */
  lemma {:induction false} NoTickNoDispatch(s: CollectorState, events: seq<StreamEvent>)
    requires NoTicks(events)
    ensures RunStream(s, events).dispatched == []
    ensures RunStream(s, events).final.pending == s.pending + Blocks(events)
    decreases |events|
  {
    if events == [] {
      assert s.pending + [] == s.pending;
    } else {
      assert !events[0].Tick?;
      assert NoTicks(events[1..]) by {
        forall i | 0 <= i < |events| - 1 ensures !events[1..][i].Tick? {
          assert events[1..][i] == events[i + 1];
        }
      }
      match events[0]
      case Data(b) =>
        NoTickNoDispatch(DataStep(s, b), events[1..]);
        assert RunStream(s, events) == RunStream(DataStep(s, b), events[1..]);
        assert s.pending + [b] + Blocks(events[1..]) == s.pending + ([b] + Blocks(events[1..]));
      case Exit =>
        NoTickNoDispatch(ExitStep(s), events[1..]);
        assert RunStream(s, events) == RunStream(ExitStep(s), events[1..]);
    }
  }

  /** A stream whose ffmpeg exits before the first tick never transcribes anything,
      whatever follows, and its timer stays stopped. */
  lemma ExitBeforeFirstTick(before: seq<StreamEvent>, after: seq<StreamEvent>)
    requires NoTicks(before)
    ensures RunStream(Started, before + [Exit] + after).dispatched == []
    ensures !RunStream(Started, before + [Exit] + after).final.running
  {
    RunSplit(Started, before, [Exit] + after);
    assert before + [Exit] + after == before + ([Exit] + after);
    NoTickNoDispatch(Started, before);
    var mid := RunStream(Started, before).final;
    assert ([Exit] + after)[1..] == after;
    NothingAfterExit(ExitStep(mid), after);
    assert RunStream(mid, [Exit] + after) == RunStream(ExitStep(mid), after);
  }

  /** A run of two event sequences is the second run started where the first ended. */
  lemma {:induction false} RunSplit(s: CollectorState, a: seq<StreamEvent>, b: seq<StreamEvent>)
    ensures RunStream(s, a + b).final == RunStream(RunStream(s, a).final, b).final
    ensures RunStream(s, a + b).dispatched == RunStream(s, a).dispatched + RunStream(RunStream(s, a).final, b).dispatched
    decreases |a|
  {
    if a == [] {
      assert a + b == b;
    } else {
      assert (a + b)[0] == a[0];
      assert (a + b)[1..] == a[1..] + b;
      match a[0]
      case Data(x) =>
        RunSplit(DataStep(s, x), a[1..], b);
      case Exit =>
        RunSplit(ExitStep(s), a[1..], b);
      case Tick =>
        var t := TickStep(s);
        RunSplit(t.next, a[1..], b);
        if t.dispatched.Some? {
          var r1 := RunStream(t.next, a[1..]);
          var r2 := RunStream(r1.final, b);
          assert [t.dispatched.value] + r1.dispatched + r2.dispatched == [t.dispatched.value] + (r1.dispatched + r2.dispatched);
        }
    }
  }

  // The timer callback as app.js schedules it. The list is emptied only when
  // the awaited call returns, and `setInterval` fires again whether or not the
  // previous call has returned.

  /** The gathered blocks, whether the timer is set, and how many calls are
      still awaited. */
  datatype AsyncState = AsyncState(pending: seq<seq<byte>>, running: bool, inFlight: nat)

  const AsyncStarted := AsyncState([], true, 0)

  datatype AsyncEvent = DataArrives(block: seq<byte>) | TimerFires | CallReturns | FfmpegExits

  /** What one event hands to transcription, and the state it leaves. */
  datatype AsyncResult = AsyncResult(dispatched: Option<seq<byte>>, next: AsyncState)

  function AsyncStep(s: AsyncState, e: AsyncEvent): AsyncResult
  {
    match e
    case DataArrives(b) => AsyncResult(None, s.(pending := s.pending + [b]))
    case FfmpegExits => AsyncResult(None, s.(running := false))
    case TimerFires =>
      if s.running && |s.pending| > 0 then AsyncResult(Some(Flatten(s.pending)), s.(inFlight := s.inFlight + 1))
      else AsyncResult(None, s)
    case CallReturns =>
      if s.inFlight > 0 then AsyncResult(None, s.(pending := [], inFlight := s.inFlight - 1))
      else AsyncResult(None, s)
  }

  /** The buffers the callback as written hands to transcription, in order, and
      the state it leaves. */
  datatype AsyncRun = AsyncRun(dispatched: seq<seq<byte>>, final: AsyncState)

  function RunAsWritten(s: AsyncState, events: seq<AsyncEvent>): AsyncRun
    decreases |events|
  {
    if events == [] then AsyncRun([], s)
    else
      var t := AsyncStep(s, events[0]);
      var r := RunAsWritten(t.next, events[1..]);
      AsyncRun(t.dispatched.ToSeq() + r.dispatched, r.final)
  }

  /** A block that arrives while a call is awaited is wiped when that call
      returns: it is never transcribed and no longer gathered. */
  lemma AsWrittenLosesBlock(first: seq<byte>, late: seq<byte>)
    requires late != []
    ensures var r := RunAsWritten(AsyncStarted,
        [DataArrives(first), TimerFires, DataArrives(late), CallReturns]);
      r.dispatched == [first] && r.final.pending == [] &&
      Flatten(r.dispatched) + Flatten(r.final.pending) != first + late
  {
    var s4 := AsyncState([], true, 0);
    assert Flatten([first]) == first;
    assert AsyncStep(AsyncStarted, DataArrives(first)).next == AsyncState([first], true, 0);
    assert RunAsWritten(AsyncState([first, late], true, 1), [CallReturns]) == AsyncRun([], s4) by {
      assert [CallReturns][1..] == [];
    }
    assert RunAsWritten(AsyncState([first], true, 1), [DataArrives(late), CallReturns]) == AsyncRun([], s4) by {
      assert [DataArrives(late), CallReturns][1..] == [CallReturns];
    }
    assert RunAsWritten(AsyncState([first], true, 0), [TimerFires, DataArrives(late), CallReturns]) == AsyncRun([first], s4) by {
      assert [TimerFires, DataArrives(late), CallReturns][1..] == [DataArrives(late), CallReturns];
    }
    assert [DataArrives(first), TimerFires, DataArrives(late), CallReturns][1..] == [TimerFires, DataArrives(late), CallReturns];
    assert |first + late| > |first|;
  }

  /** A tick that fires while the previous call is still awaited sends the same
      blocks again. */
  lemma AsWrittenRepeatsBlock(block: seq<byte>)
    ensures RunAsWritten(AsyncStarted, [DataArrives(block), TimerFires, TimerFires]).dispatched == [block, block]
  {
    var s3 := AsyncState([block], true, 2);
    assert Flatten([block]) == block;
    assert AsyncStep(AsyncStarted, DataArrives(block)).next == AsyncState([block], true, 0);
    assert RunAsWritten(AsyncState([block], true, 1), [TimerFires]) == AsyncRun([block], s3) by {
      assert [TimerFires][1..] == [];
    }
    assert RunAsWritten(AsyncState([block], true, 0), [TimerFires, TimerFires]) == AsyncRun([block, block], s3) by {
      assert [TimerFires, TimerFires][1..] == [TimerFires];
    }
    assert [DataArrives(block), TimerFires, TimerFires][1..] == [TimerFires, TimerFires];
  }

  /** With the list taken and emptied when the timer fires, the same events as
      in `AsWrittenLosesBlock` transcribe the late block on the next tick. */
  lemma CorrectedKeepsBlock(first: seq<byte>, late: seq<byte>)
    ensures RunStream(Started, [Data(first), Tick, Data(late), Tick]).dispatched == [first, late]
  {
    var s2 := CollectorState([], true);
    assert Flatten([first]) == first;
    assert Flatten([late]) == late;
    assert DataStep(Started, first) == CollectorState([first], true);
    assert DataStep(s2, late) == CollectorState([late], true);
    assert RunStream(CollectorState([late], true), [Tick]) == StreamRun([late], s2) by {
      assert [Tick][1..] == [];
    }
    assert RunStream(s2, [Data(late), Tick]) == StreamRun([late], s2) by {
      assert [Data(late), Tick][1..] == [Tick];
    }
    assert RunStream(CollectorState([first], true), [Tick, Data(late), Tick]) == StreamRun([first, late], s2) by {
      assert [Tick, Data(late), Tick][1..] == [Data(late), Tick];
    }
    assert [Data(first), Tick, Data(late), Tick][1..] == [Tick, Data(late), Tick];
  }
}
