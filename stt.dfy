/** `sendAudioToSTT`: wrap the PCM in a WAV file, ask the speech-to-text
    service for its text, format the timed line and push it onto the shared
    list. The whole body is guarded: whichever step throws first ends the call,
    the error is caught and logged, and nothing is pushed. */
module Stt {
  import opened Util
  import opened Transcript
  import opened Queue

  /** The largest distance from the epoch of a valid `Date`, in milliseconds
      (ECMAScript's TimeClip). A `Date` beyond it is invalid, and its
      `toISOString` throws a RangeError. */
  const MaxTimeValue: int := 8_640_000_000_000_000

  predicate TimeValue(t: int)
  {
    -MaxTimeValue <= t <= MaxTimeValue
  }

  /** The four `Date`s built for a chunk, its start and end and both shifted,
      are valid, so formatting them does not throw. */
  predicate Formattable(startTime: nat, byteLength: nat)
  {
    TimeValue(startTime) && TimeValue(EndTime(startTime, byteLength)) &&
    TimeValue(Adjust(startTime)) && TimeValue(Adjust(EndTime(startTime, byteLength)))
  }

  /** The chunks whose formatting the model describes: either both shifted
      instants render as a time of day, or formatting throws. */
  predicate Covered(startTime: nat, byteLength: nat)
  {
    LineRenderable(startTime, byteLength) || !Formattable(startTime, byteLength)
  }

  /** Every renderable instant is a valid time value. */
  lemma RenderableIsFormattable(startTime: nat, byteLength: nat)
    requires LineRenderable(startTime, byteLength)
    ensures Formattable(startTime, byteLength)
  {
    DurationFromBytes(startTime, byteLength);
  }

  /** Writing the WAV file: the writer and the temporary file stream either
      reach `finish` or emit `error`. */
  datatype WavStep = WavWritten | WavFailed

  /** The transcription request: the service's text, or a rejected request. */
  datatype Reply = Transcription(text: string) | RequestFailed

  /** What the two awaited steps of one call came to. */
  datatype SttSteps = SttSteps(wav: WavStep, reply: Reply)

  /** The step that threw: the WAV write, the request, or `toISOString`. */
  datatype SttFailure = WavWriteError | TranscriptionError | RangeError

  datatype SttOutcome = Recognised(text: string) | Failed(reason: SttFailure)

  /** The guarded steps in source order; the first that throws decides. */
  function Outcome(steps: SttSteps, startTime: nat, byteLength: nat): SttOutcome
  {
    if steps.wav.WavFailed? then Failed(WavWriteError)
    else if steps.reply.RequestFailed? then Failed(TranscriptionError)
    else if !Formattable(startTime, byteLength) then Failed(RangeError)
    else Recognised(steps.reply.text)
  }

  /** The line one call of `sendAudioToSTT` pushes, if any. */
  function SttResult(audio: seq<byte>, startTime: nat, steps: SttSteps): Option<TranscriptLine>
    requires Covered(startTime, |audio|)
  {
    match Outcome(steps, startTime, |audio|)
    case Recognised(text) => Some(LineFor(text, startTime, |audio|))
    case Failed(_) => None
  }

  /** All guarded steps of a call succeed. */
  predicate Succeeds(audio: seq<byte>, startTime: nat, steps: SttSteps)
  {
    steps.wav.WavWritten? && steps.reply.Transcription? && Formattable(startTime, |audio|)
  }

  /** A call pushes a line exactly when the WAV write, the request and the
      formatting all succeed, and that line carries the service's text and the
      chunk's timing. */
  lemma FailureIsolation(audio: seq<byte>, startTime: nat, steps: SttSteps)
    requires Covered(startTime, |audio|)
    ensures SttResult(audio, startTime, steps).Some? <==> Succeeds(audio, startTime, steps)
    ensures Succeeds(audio, startTime, steps) ==>
      SttResult(audio, startTime, steps) == Some(LineFor(steps.reply.text, startTime, |audio|))
  {
  }

  /** One call of `sendAudioToSTT(audioBuffer, startTime)`, step by step. */
  method SendAudioToStt(q: TranscriptQueue, audio: seq<byte>, startTime: nat, steps: SttSteps)
    requires Covered(startTime, |audio|)
    modifies q
    ensures q.lines == old(q.lines) + SttResult(audio, startTime, steps).ToSeq()
    ensures Outcome(steps, startTime, |audio|).Failed? ==> q.lines == old(q.lines)
  {
    if steps.wav.WavFailed? {
      return;
    }
    if steps.reply.RequestFailed? {
      return;
    }
    if !Formattable(startTime, |audio|) {
      return;
    }
    var line := FormatTranscriptionLine(steps.reply.text, Adjust(startTime), Adjust(EndTime(startTime, |audio|)));
    q.Append(line);
  }

  // Successive calls, each pushing onto the list after the one before.

  datatype SttCall = SttCall(audio: seq<byte>, startTime: nat, steps: SttSteps)

  predicate CallSucceeds(c: SttCall)
  {
    Succeeds(c.audio, c.startTime, c.steps)
  }

  predicate CallCovered(c: SttCall)
  {
    Covered(c.startTime, |c.audio|)
  }

  /** The lines a series of calls pushes, in call order. */
  function Pushed(calls: seq<SttCall>): seq<TranscriptLine>
    requires forall c | c in calls :: CallCovered(c)
  {
    if calls == [] then []
    else
      var c := calls[0];
      assert c in calls;
      assert CallCovered(c);
      assert Covered(c.startTime, |c.audio|);
      SttResult(c.audio, c.startTime, c.steps).ToSeq() + Pushed(calls[1..])
  }

  /** The calls whose steps all succeed, in call order: a call is kept exactly
      when it succeeds. */
  function Successes(calls: seq<SttCall>): (r: seq<SttCall>)
    ensures forall c | c in r :: c in calls && CallSucceeds(c)
    ensures forall c | c in calls && CallSucceeds(c) :: c in r
    ensures |r| <= |calls|
  {
    if calls == [] then []
    else
      assert forall c | c in calls :: c == calls[0] || c in calls[1..];
      if CallSucceeds(calls[0]) then [calls[0]] + Successes(calls[1..])
      else Successes(calls[1..])
  }

  /** Keeping the successful calls of two series in a row keeps those of the
      first, then those of the second: the calls stay in call order. */
  lemma {:induction false} SuccessesAppend(a: seq<SttCall>, b: seq<SttCall>)
    ensures Successes(a + b) == Successes(a) + Successes(b)
  {
    if a == [] {
      assert a + b == b;
    } else {
      assert (a + b)[0] == a[0];
      assert (a + b)[1..] == a[1..] + b;
      SuccessesAppend(a[1..], b);
      if CallSucceeds(a[0]) {
        assert [a[0]] + Successes(a[1..]) + Successes(b) == [a[0]] + (Successes(a[1..]) + Successes(b));
      }
    }
  }

  lemma RenderableFromSuccess(c: SttCall)
    requires CallSucceeds(c) && CallCovered(c)
    ensures LineRenderable(c.startTime, |c.audio|)
  {
  }

  /** The line of each call, in order, for calls that all succeed. */
  function LinesOf(cs: seq<SttCall>): seq<TranscriptLine>
    requires forall c | c in cs :: CallSucceeds(c) && CallCovered(c)
  {
    if cs == [] then []
    else
      var c := cs[0];
      assert c in cs;
      RenderableFromSuccess(c);
      [LineFor(c.steps.reply.text, c.startTime, |c.audio|)] + LinesOf(cs[1..])
  }

  /** A series of calls pushes exactly the lines of its successful calls, in
      call order: a failing call pushes nothing and does not disturb the
      others. */
  lemma {:induction false} PushedAreSuccesses(calls: seq<SttCall>)
    requires forall c | c in calls :: CallCovered(c)
    ensures Pushed(calls) == LinesOf(Successes(calls))
  {
    if calls != [] {
      var c, rest := calls[0], calls[1..];
      assert c in calls;
      PushedAreSuccesses(rest);
      FailureIsolation(c.audio, c.startTime, c.steps);
      if CallSucceeds(c) {
        var r := Successes(rest);
        assert Successes(calls) == [c] + r;
        assert ([c] + r)[1..] == r;
      } else {
        assert Successes(calls) == Successes(rest);
      }
    }
  }

  /** A series of calls in which every call fails leaves the list as it was. */
  lemma {:induction false} AllFailedPushNothing(calls: seq<SttCall>)
    requires forall c | c in calls :: CallCovered(c) && !CallSucceeds(c)
    ensures Pushed(calls) == []
  {
    if calls != [] {
      assert calls[0] in calls;
      FailureIsolation(calls[0].audio, calls[0].startTime, calls[0].steps);
      AllFailedPushNothing(calls[1..]);
    }
  }
}
