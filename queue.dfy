/** The process-wide `transcriptions` list: appended to by each successful
    transcription and drained, whole, by the once-a-second timer of every open
    WebSocket connection. */
module Queue {
  import opened Util
  import opened Transcript

  /** What one connection's timer tick does to the list: what it sends (nothing
      when the list is empty) and what it leaves behind. */
  datatype Delivery = Delivery(sent: Option<seq<TranscriptLine>>, remaining: seq<TranscriptLine>)

  function DeliverStep(lines: seq<TranscriptLine>): Delivery
  {
    if |lines| > 0 then Delivery(Some(lines), []) else Delivery(None, lines)
  }

  /** The list shared by the transcription pipeline and the connections. */
  class TranscriptQueue {
    var lines: seq<TranscriptLine>

    constructor ()
      ensures lines == []
    {
      lines := [];
    }

    /** `transcriptions.push(jsonLine)`. */
    method Append(line: TranscriptLine)
      modifies this
      ensures lines == old(lines) + [line]
    {
      lines := lines + [line];
    }

    /** One connection's tick: when the list is non-empty, send all of it as one
        message and then empty it (`transcriptions.length = 0`); otherwise do
        nothing. */
    method Drain() returns (sent: Option<seq<TranscriptLine>>)
      modifies this
      ensures Delivery(sent, lines) == DeliverStep(old(lines))
      ensures old(lines) != [] ==> sent == Some(old(lines)) && lines == []
      ensures old(lines) == [] ==> sent == None && lines == old(lines)
    {
      if |lines| > 0 {
        sent := Some(lines);
        lines := [];
      } else {
        sent := None;
      }
    }
  }

  /** Two connections ticking one after the other: the first takes everything,
      the second gets nothing. */
  method TwoConnectionTicks(q: TranscriptQueue) returns (first: Option<seq<TranscriptLine>>, second: Option<seq<TranscriptLine>>)
    modifies q
    ensures first == (if old(q.lines) == [] then None else Some(old(q.lines)))
    ensures second == None && q.lines == []
  {
    first := q.Drain();
    second := q.Drain();
  }

  // A run of the list as a sequence of atomic events, for properties of many
  // appends and ticks together.

  datatype QueueEvent = Transcribed(line: TranscriptLine) | ConnectionTick(conn: nat)

  /** A message one connection received. */
  datatype Message = Message(conn: nat, batch: seq<TranscriptLine>)

  /** The messages a run sent, in order, and the list it left. */
  datatype QueueRun = QueueRun(messages: seq<Message>, remaining: seq<TranscriptLine>)

  function RunQueue(lines: seq<TranscriptLine>, events: seq<QueueEvent>): QueueRun
    decreases |events|
  {
    if events == [] then QueueRun([], lines)
    else match events[0]
      case Transcribed(l) => RunQueue(lines + [l], events[1..])
      case ConnectionTick(c) =>
        var d := DeliverStep(lines);
        var r := RunQueue(d.remaining, events[1..]);
        if d.sent.Some? then QueueRun([Message(c, d.sent.value)] + r.messages, r.remaining) else r
  }

  function Batches(ms: seq<Message>): seq<seq<TranscriptLine>>
  {
    if ms == [] then [] else [ms[0].batch] + Batches(ms[1..])
  }

  /** The lines the events append, in order. */
  function AppendedLines(events: seq<QueueEvent>): seq<TranscriptLine>
  {
    if events == [] then []
    else match events[0]
      case Transcribed(l) => [l] + AppendedLines(events[1..])
      case ConnectionTick(_) => AppendedLines(events[1..])
  }

  /** One append event per line. */
  function Appends(ls: seq<TranscriptLine>): seq<QueueEvent>
  {
    seq(|ls|, i requires 0 <= i < |ls| => Transcribed(ls[i]))
  }

  /** Every line is sent exactly once, in append order, or is still waiting:
      the messages of a run, put together, followed by what is left, are the
      lines that were there plus the lines appended. No line reaches two
      connections and none is lost. */
  lemma {:induction false} QueueConservation(lines: seq<TranscriptLine>, events: seq<QueueEvent>)
    ensures var r := RunQueue(lines, events);
      Flatten(Batches(r.messages)) + r.remaining == lines + AppendedLines(events)
    decreases |events|, 2
  {
    if events != [] {
      match events[0]
      case Transcribed(l) => ConservedByAppend(lines, events, l);
      case ConnectionTick(c) => ConservedByTick(lines, events, c);
    }
  }

  lemma {:induction false} ConservedByAppend(lines: seq<TranscriptLine>, events: seq<QueueEvent>, l: TranscriptLine)
    requires events != [] && events[0] == Transcribed(l)
    ensures var r := RunQueue(lines, events);
      Flatten(Batches(r.messages)) + r.remaining == lines + AppendedLines(events)
    decreases |events|, 0
  {
    QueueConservation(lines + [l], events[1..]);
    assert RunQueue(lines, events) == RunQueue(lines + [l], events[1..]);
    assert AppendedLines(events) == [l] + AppendedLines(events[1..]);
    assert lines + [l] + AppendedLines(events[1..]) == lines + ([l] + AppendedLines(events[1..]));
  }

  lemma {:induction false} ConservedByTick(lines: seq<TranscriptLine>, events: seq<QueueEvent>, c: nat)
    requires events != [] && events[0] == ConnectionTick(c)
    ensures var r := RunQueue(lines, events);
      Flatten(Batches(r.messages)) + r.remaining == lines + AppendedLines(events)
    decreases |events|, 1
  {
    if lines == [] {
      QueueConservation(DeliverStep(lines).remaining, events[1..]);
      assert RunQueue(lines, events) == RunQueue(DeliverStep(lines).remaining, events[1..]);
      assert AppendedLines(events) == AppendedLines(events[1..]);
    } else {
      ConservedBySend(lines, events, c);
    }
  }

  lemma {:induction false} ConservedBySend(lines: seq<TranscriptLine>, events: seq<QueueEvent>, c: nat)
    requires events != [] && events[0] == ConnectionTick(c) && lines != []
    ensures var r := RunQueue(lines, events);
      Flatten(Batches(r.messages)) + r.remaining == lines + AppendedLines(events)
    decreases |events|, 0
  {
    var r := RunQueue([], events[1..]);
    QueueConservation([], events[1..]);
    TickSends(lines, events, c);
    assert AppendedLines(events) == AppendedLines(events[1..]);
    ConsMessageConserved(c, lines, r, AppendedLines(events[1..]));
  }

  /** A tick on a non-empty list sends it whole and goes on from the empty list. */
  lemma TickSends(lines: seq<TranscriptLine>, events: seq<QueueEvent>, c: nat)
    requires events != [] && events[0] == ConnectionTick(c) && lines != []
    ensures RunQueue(lines, events) ==
      QueueRun([Message(c, lines)] + RunQueue([], events[1..]).messages, RunQueue([], events[1..]).remaining)
  {
    assert DeliverStep(lines).remaining == [];
  }

  lemma ConsMessageConserved(c: nat, lines: seq<TranscriptLine>, r: QueueRun, later: seq<TranscriptLine>)
    requires Flatten(Batches(r.messages)) + r.remaining == [] + later
    ensures Flatten(Batches([Message(c, lines)] + r.messages)) + r.remaining == lines + later
  {
    FlattenConsMessage(c, lines, r.messages);
    assert [] + later == later;
    assert lines + Flatten(Batches(r.messages)) + r.remaining == lines + (Flatten(Batches(r.messages)) + r.remaining);
  }

  lemma FlattenConsMessage(c: nat, lines: seq<TranscriptLine>, ms: seq<Message>)
    ensures Flatten(Batches([Message(c, lines)] + ms)) == lines + Flatten(Batches(ms))
  {
    var all := [Message(c, lines)] + ms;
    assert all[1..] == ms;
    assert Batches(all) == [lines] + Batches(ms);
    assert ([lines] + Batches(ms))[1..] == Batches(ms);
  }

  predicate AllNonEmpty(ms: seq<Message>)
  {
    forall i :: 0 <= i < |ms| ==> ms[i].batch != []
  }

  /** No message is empty: a tick that finds nothing sends nothing. */
  lemma {:induction false} MessagesNonEmpty(lines: seq<TranscriptLine>, events: seq<QueueEvent>)
    ensures AllNonEmpty(RunQueue(lines, events).messages)
    decreases |events|
  {
    if events != [] {
      match events[0]
      case Transcribed(l) =>
        MessagesNonEmpty(lines + [l], events[1..]);
        assert RunQueue(lines, events) == RunQueue(lines + [l], events[1..]);
      case ConnectionTick(c) =>
        var d := DeliverStep(lines);
        MessagesNonEmpty(d.remaining, events[1..]);
        var r := RunQueue(d.remaining, events[1..]);
        if d.sent.Some? {
          var ms := [Message(c, lines)] + r.messages;
          assert RunQueue(lines, events).messages == ms;
          forall i | 0 <= i < |ms| ensures ms[i].batch != [] {
            if i > 0 {
              assert ms[i] == r.messages[i - 1];
            }
          }
          assert AllNonEmpty(ms);
        } else {
          assert RunQueue(lines, events) == r;
        }
    }
  }

  /** Appending lines one by one is appending them all at once. */
  lemma {:induction false} RunAppends(lines: seq<TranscriptLine>, ls: seq<TranscriptLine>, rest: seq<QueueEvent>)
    ensures RunQueue(lines, Appends(ls) + rest) == RunQueue(lines + ls, rest)
    decreases |ls|
  {
    if ls == [] {
      assert Appends(ls) == [];
      assert Appends(ls) + rest == rest;
      assert lines + ls == lines;
    } else {
      var evs := Appends(ls) + rest;
      assert evs[0] == Transcribed(ls[0]);
      assert evs[1..] == Appends(ls[1..]) + rest;
      RunAppends(lines + [ls[0]], ls[1..], rest);
      assert lines + [ls[0]] + ls[1..] == lines + ls;
    }
  }

  /** Lines appended to an empty list and then drained by one connection reach
      that connection as one message, in append order, and the list ends empty;
      with nothing appended, nothing is sent. */
  lemma AppendThenDrain(ls: seq<TranscriptLine>, c: nat)
    ensures RunQueue([], Appends(ls) + [ConnectionTick(c)]) == QueueRun(if ls == [] then [] else [Message(c, ls)], [])
  {
    RunAppends([], ls, [ConnectionTick(c)]);
    assert [] + ls == ls;
    TickOnce(ls, c);
  }

  /** One tick on its own. */
  lemma TickOnce(lines: seq<TranscriptLine>, c: nat)
    ensures RunQueue(lines, [ConnectionTick(c)]) == QueueRun(if lines == [] then [] else [Message(c, lines)], [])
  {
    assert [ConnectionTick(c)][1..] == [];
  }

  /** A second connection ticking right after the first receives nothing. */
  lemma SecondDrainGetsNothing(lines: seq<TranscriptLine>, a: nat, b: nat)
    ensures RunQueue(lines, [ConnectionTick(a), ConnectionTick(b)]) == QueueRun(if lines == [] then [] else [Message(a, lines)], [])
  {
    var evs := [ConnectionTick(a), ConnectionTick(b)];
    assert evs[1..] == [ConnectionTick(b)];
    TickOnce([], b);
  }
}
