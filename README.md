# Live-stream transcription core of `app.js`, modelled in Dafny

`app.js` runs an RTMP media server. For every published stream it starts
ffmpeg to extract 16 kHz mono 16-bit PCM. It gathers ffmpeg's output blocks,
and every ten seconds it sends what it has gathered to a speech-to-text
service. Each recognised text becomes a line `{start, end, text}`. The `start`
and `end` fields are SRT-style `HH:MM:SS,mmm` times of day, shifted to UTC-5.
The line is pushed onto one process-wide list. Every WebSocket connection drains
that list once a second: it sends the whole list when it is non-empty, then
empties it.

The model covers that logic in six modules:

- `srt.dfy` (module `Srt`): renders an instant as `HH:MM:SS,mmm`. This is
  `toISOString().substr(11, 8)`, then `,`, then the instant modulo 1000 through
  `toString` and `padStart(3, '0')`. The module also has a reader, `ParseSrt`,
  which is the inverse used to say what a rendering means. Proved: the shape
  and field ranges, the round trip, dependence on the time of day only,
  wrap-around at midnight, and injectivity within one day.
- `transcript.dfy` (module `Transcript`): the timing arithmetic of
  `sendAudioToSTT` and `formatTranscriptionAsJSONLine`. The duration is the byte
  length at 32 bytes per millisecond, rounded down. There is a fixed
  −18 000 000 ms shift. The record keeps the recognised text.
- `queue.dfy` (module `Queue`): the `transcriptions` list. It is a class
  `TranscriptQueue` with `Append` and `Drain`, tied to the pure step
  `DeliverStep`. A run of appends and connection ticks is modelled as an event
  sequence. Every line is delivered exactly once, in append order, or is still
  queued.
- `stt.dfy` (module `Stt`): `sendAudioToSTT` as its three guarded steps, in
  source order: writing the WAV file, the transcription request, and formatting
  the line. Formatting throws a RangeError when a `Date` is invalid. The first
  step that fails ends the call, and nothing is pushed. Proved: a call pushes a
  line exactly when all three steps succeed. A series of calls pushes exactly
  the lines of its successful calls, in call order.
- `collector.dfy` (module `Collector`): the `postPublish` closure. It is a class
  `ChunkCollector` with fields `audioChunks` and `running`, and methods
  `OnData`, `Tick` and `OnExit` tied to pure steps. A stream's life is
  modelled as an event sequence. In the model, a tick takes the gathered blocks
  and empties the list in one atomic step. There, no audio is lost or repeated,
  and nothing is transcribed after ffmpeg exits. `app.js` as written empties the
  list only after the awaited call returns. It does lose and repeat audio: see
  "## Findings" and the timer entry under "## Left out".
- `util.dfy` (module `Util`): `Option`, `byte` and `Flatten`. `Flatten` is
  `Buffer.concat` over a list of blocks.

Instants are integer milliseconds since the epoch. `app.js` has no ring
buffer, no meeting key, no per-meeting registry and no sorting by timestamp.
The model has an unbounded list of blocks per stream and one global queue.

## Model

| member | source | states |
|---|---|---|
| `Srt.DecimalString` | app.js:155 | `n.toString()`: a non-empty string of decimal digits that denotes `n`, with no leading zero; one, two or three characters for values below 10, 100 and 1000 |
| `Srt.PadStart` | app.js:155 | `padStart`: the result has length `max(width, \|s\|)`, ends with `s` unchanged, and is filled with `fill` in front |
| `Srt.IsoTimeOfDay` | app.js:155-156 | `toISOString().substr(11, 8)`: no contract of its own; `Srt.TimestampCharacters` states that it yields the two-digit UTC hour, minute and second separated by `:` |
| `Srt.SrtTimestamp` | app.js:155-156 | the `HH:MM:SS,mmm` rendering: no contract of its own; its meaning is given by `Srt.TimestampShape`, `Srt.TimestampRoundTrip` and the lemmas below |
| `Srt.ThreeDigitField` | app.js:155-156 | the padded millisecond field is exactly three digits, hundreds, tens and units of the value |
| `Srt.TimestampCharacters` | app.js:155-156 | a timestamp is, character by character, `H H : M M : S S , m m m` of the UTC hour, minute, second and `t % 1000` |
| `Srt.TimestampShape` | app.js:155-156 | a timestamp is 12 characters, `:`, `:` and `,` in place, digits elsewhere; HH < 24, MM < 60, SS < 60, and mmm equals `t % 1000` |
| `Srt.TimestampRoundTrip` | app.js:155-156 | reading a timestamp back gives the instant's millisecond of the day, `t % 86 400 000` |
| `Srt.TimeOfDayOnly` | app.js:155-156 | the rendering of `t` equals the rendering of `t % 86 400 000` |
| `Srt.DayWrapAround` | app.js:155-156 | adding one day, 86 400 000 ms, does not change the rendering |
| `Srt.SameTimestampIffSameTimeOfDay` | app.js:155-156 | two instants render alike if and only if they fall on the same millisecond of the day, so distinct instants within a day render distinctly |
| `Srt.LaterTimestamp` | app.js:155-156 | read back, the rendering of a later instant `u` is that of `t` advanced by `u - t`, modulo a day |
| `Transcript.EndTime` | app.js:131-136 | the end instant: no contract of its own; `Transcript.DurationFromBytes` and `Transcript.TenSecondChunk` state its relation to the byte length |
| `Transcript.Adjust` | app.js:130-138 | the UTC−5 shift: no contract of its own; `Transcript.FixedOffset` states that it is −18 000 000 ms |
| `Transcript.FormatTranscriptionLine` | app.js:154-163 | `formatTranscriptionAsJSONLine`: no contract of its own; `Transcript.LineRecord` states what its fields hold |
| `Transcript.LineFor` | app.js:130-141 | the line for a chunk: no contract of its own; `Transcript.LineRecord` and `Transcript.EndFollowsStart` state its fields |
| `Transcript.DurationFromBytes` | app.js:131-132 | end − start = ⌊len / 32⌋ ms, so 32·(end − start) ≤ len < 32·(end − start) + 32 and end ≥ start |
| `Transcript.TenSecondChunk` | app.js:131-132 | a buffer of 16000·10·2 bytes ends exactly 10 000 ms after it starts |
| `Transcript.FixedOffset` | app.js:130-138 | the shift is exactly −5·60·60·1000 = −18 000 000 ms, and it leaves end − start unchanged |
| `Transcript.LineRecord` | app.js:154-163 | the record's `text` is the recognised text unchanged; `start` and `end` read back as the shifted start and end instants modulo a day |
| `Transcript.EndFollowsStart` | app.js:130-141 | read back, a line's `end` is its `start` advanced by the chunk duration ⌊len / 32⌋, modulo a day |
| `Queue.DeliverStep` | app.js:54-56 | one connection's tick on the list: no contract of its own; `Queue.TranscriptQueue.Drain`, `Queue.TickOnce` and `Queue.QueueConservation` state what it sends and keeps |
| `Queue.RunQueue` | app.js:53-58 | a run of appends and connection ticks on the list: no contract of its own; `Queue.QueueConservation`, `Queue.MessagesNonEmpty` and `Queue.AppendThenDrain` state its effect |
| `Queue.TranscriptQueue.constructor` | app.js:11 | the list starts empty |
| `Queue.TranscriptQueue.Append` | app.js:144 | the new list is the old one with the line added at the end |
| `Queue.TranscriptQueue.Drain` | app.js:53-58 | a non-empty list is sent whole and left empty; an empty list sends nothing and stays as it was |
| `Queue.TwoConnectionTicks` | app.js:53-58 | of two connections that tick one after the other, the first receives the whole list (if any) and the second nothing; the list ends empty |
| `Queue.QueueConservation` | app.js:53-58 | over any run of appends and ticks, the messages sent, concatenated, followed by what is still queued, equal the initial lines followed by the appended lines in order: no line is lost or sent twice |
| `Queue.MessagesNonEmpty` | app.js:54 | no connection is ever sent an empty message |
| `Queue.AppendThenDrain` | app.js:54-56 | lines appended to an empty list and drained by one connection reach it as one message in append order, and the list ends empty; with no lines, nothing is sent |
| `Queue.TickOnce` | app.js:54-56 | one tick sends the whole non-empty list to that connection and leaves it empty; it sends nothing for an empty list |
| `Queue.SecondDrainGetsNothing` | app.js:54-56 | a second connection ticking right after the first receives nothing |
| `Stt.Outcome` | app.js:105-150 | the guarded steps in source order, the first that throws deciding: no contract of its own; `Stt.FailureIsolation` states its meaning |
| `Stt.SttResult` | app.js:105-150 | the line one call pushes, if any: no contract of its own; `Stt.FailureIsolation` and `Stt.PushedAreSuccesses` state its meaning |
| `Stt.RenderableIsFormattable` | app.js:135-141 | every instant the model renders is a valid `Date`, so its formatting does not throw |
| `Stt.FailureIsolation` | app.js:105-150 | a call pushes a line if and only if the WAV write (119-122), the transcription request (125-128) and the formatting (135-141) all succeed; that line is `LineFor` the chunk and carries the service's text |
| `Stt.SendAudioToStt` | app.js:104-151 | the queue gains exactly the line the call yields, and nothing when any guarded step fails |
| `Stt.Pushed` | app.js:104-151 | the lines a series of calls pushes, each call after the one before: no contract of its own; `Stt.PushedAreSuccesses` and `Stt.AllFailedPushNothing` state its meaning |
| `Stt.Successes` | app.js:104-151 | the calls whose steps all succeed: a call is kept if and only if it is one of the given calls and succeeds, and there are no more of them than calls |
| `Stt.SuccessesAppend` | app.js:104-151 | the successful calls of two series in a row are those of the first followed by those of the second, so call order is kept |
| `Stt.PushedAreSuccesses` | app.js:104-151 | a series of calls pushes exactly the lines of its successful calls, in call order; a failed call neither pushes anything nor disturbs the others |
| `Stt.AllFailedPushNothing` | app.js:105-150 | a series of calls that all fail leaves the list as it was |
| `Collector.DataStep` | app.js:93-95 | one ffmpeg `data` event: no contract of its own; `Collector.ChunkCollector.OnData`, `Collector.TickAfterData` and `Collector.StreamConservation` state its effect |
| `Collector.TickStep` | app.js:85-90 | one timer tick, taking and emptying the list at once: no contract of its own; `Collector.TickAfterData`, `Collector.SecondTickIdle` and `Collector.StreamConservation` state its effect |
| `Collector.ExitStep` | app.js:97-100 | the ffmpeg `exit` event: no contract of its own; `Collector.NothingAfterExit` states its effect |
| `Collector.RunStream` | app.js:84-100 | a stream's life as atomic events: no contract of its own; `Collector.StreamConservation`, `Collector.NothingAfterExit`, `Collector.NoTickNoDispatch` and `Collector.RunSplit` state its effect |
| `Collector.ChunkCollector.constructor` | app.js:73 | a new stream starts with no blocks and a running timer |
| `Collector.ChunkCollector.OnData` | app.js:93-95 | a block is appended to the pending list, running or not |
| `Collector.ChunkCollector.Tick` | app.js:84-91 | with the timer running and blocks pending: the concatenation of the blocks is transcribed, the queue gains that call's line, and the list is emptied; otherwise nothing changes and nothing is transcribed |
| `Collector.ChunkCollector.OnExit` | app.js:97-100 | the timer is stopped; the pending blocks stay |
| `Collector.TickAfterData` | app.js:85-94 | gathering a block and then ticking transcribes the earlier blocks followed by the new one |
| `Collector.SecondTickIdle` | app.js:85-90 | a tick right after a tick transcribes nothing and changes nothing |
| `Collector.StreamConservation` | app.js:84-95 | in the model, where a tick takes and empties the list in one step: over any run, the transcribed buffers, concatenated, followed by the pending blocks, equal the initial blocks followed by all blocks ffmpeg produced, in order |
| `Collector.NothingAfterExit` | app.js:97-100 | once the timer is stopped, no later event transcribes anything, and the timer stays stopped |
| `Collector.NoTickNoDispatch` | app.js:84-95 | events without a tick transcribe nothing and only gather blocks |
| `Collector.ExitBeforeFirstTick` | app.js:97-100 | if ffmpeg exits before the first tick, the stream never transcribes anything, whatever follows |
| `Collector.RunSplit` | app.js:84-100 | a run of two event sequences is the second started where the first ended, with the transcribed buffers of both in order |
| `Collector.AsyncStep` | app.js:84-100 | one event for the callback as written: a fire sends the concatenation without clearing and counts one more call in flight, a return clears the whole list, data appends and exit stops the timer; no contract of its own; `Collector.AsWrittenLosesBlock` and `Collector.AsWrittenRepeatsBlock` state its effect |
| `Collector.RunAsWritten` | app.js:84-100 | a run of the callback as written: no contract of its own; `Collector.AsWrittenLosesBlock` and `Collector.AsWrittenRepeatsBlock` state its effect |
| `Collector.AsWrittenLosesBlock` | app.js:84-91 | with the clear after the `await`, a block that arrives while a call is awaited is never transcribed and no longer gathered |
| `Collector.AsWrittenRepeatsBlock` | app.js:84-91 | with the clear after the `await`, a tick that fires while the previous call is still awaited sends the same block again |
| `Collector.CorrectedKeepsBlock` | app.js:84-91 | with the list taken and emptied when the timer fires, the late block of `Collector.AsWrittenLosesBlock` is transcribed on the next tick |
| `Util.Flatten` | app.js:87 | `Buffer.concat`: no contract of its own; `Util.FlattenSplit` and `Util.FlattenLength` state its meaning |
| `Util.FlattenSplit` | app.js:87 | in `Buffer.concat`, each block appears unchanged between the blocks before it and the blocks after it |
| `Util.FlattenLength` | app.js:87 | the concatenation is as long as all the blocks together |

## Findings

| source | as written | input that shows it | evidently intended | confidence | as-written member | corrected member |
|---|---|---|---|---|---|---|
| app.js:84-91 | the timer callback concatenates `audioChunks`, awaits `sendAudioToSTT`, and only then empties `audioChunks` | a block arriving while the call is awaited (`DataArrives(first), TimerFires, DataArrives(late), CallReturns`) is wiped and never transcribed; a tick firing before the previous call returns (`DataArrives(b), TimerFires, TimerFires`) sends `b` twice | take the blocks and empty the list before the `await`, so each block is sent exactly once | high; not executed | `Collector.AsWrittenLosesBlock`, `Collector.AsWrittenRepeatsBlock` | `Collector.StreamConservation` over `Collector.TickStep`, and `Collector.CorrectedKeepsBlock` |

`Collector.ChunkCollector.Tick` keeps the source's order, sending the buffer
before clearing the list. It behaves like the corrected callback only because
the model runs a tick as one atomic step, so no block can arrive between the
send and the clear. `Collector.TickStep` states that atomic tick.

## Left out

- The Node Media Server configuration and its `preConnect`/`postPublish` wiring (app.js:13-43, 66-71) belong to an external server. The model starts at the body of the `postPublish` handler.
- The WebSocket server, `ws.send`, `JSON.stringify` and the `close` handler (app.js:46-64) are transport. The model keeps only the list's contents and the clearing.
- The ffmpeg spawn and its arguments (app.js:76-82) are an external process. It appears as `Data` blocks and an `Exit` event.
- The WAV writer, the temporary file `./temp_audio.wav` and the OpenAI request (app.js:106-128) are a foreign library, file I/O and a network call. Each call's outcome is the `SttSteps` argument: whether the WAV write reached `finish`, and the service's text or a failed request. Nothing ties the audio to the text. The shared file name is a hazard for concurrent calls, which is a concurrency matter.
- Console logging (app.js:42, 47, 50, 62, 67, 71, 98, 146, 149) is I/O and has no effect on state.
- Timers and the event loop are not modelled in the main model. The ten-second and one-second periods are absent, and ticks, appends and drains are atomic, sequential steps. In `app.js`, the clear at app.js:89 runs after the `await` at app.js:88. So every tick wipes the blocks ffmpeg emits while the WAV write and the request are in flight. `setInterval` does not wait for the callback either. When a call outlasts the ten-second period, the next tick sends the still-uncleared blocks again. The separate `RunAsWritten` model covers these two effects; see "## Findings". Calls and connections interleaving in other ways are not modelled.
- Collector.ChunkCollector.Tick: does not model blocks arriving while the transcription is awaited, because the model runs the tick as one atomic step. It therefore has the corrected behaviour of "## Findings", not the behaviour as written.
- `Date.now()` is the `now` parameter of `Tick`.
- The duration is a floating-point number of seconds at app.js:131. The model uses integer milliseconds, ⌊len·1000 / 32000⌋, which is what the `Date` constructor's truncation gives when the float is exact.
- Transcript.LineFor: requires both shifted instants to be `Renderable`, that is, from the epoch up to the start of the year 10000. For an instant before the epoch that is not a whole second, JavaScript's `%` is negative and `padStart` produces a malformed field; whole seconds before the epoch render correctly, but the model excludes all negative instants. From the start of the year 10000 up to 8.64e15 ms, `toISOString` uses a six-digit year, and `substr(11, 8)` no longer picks the time of day.
- Stt.SendAudioToStt: requires the call's instants to be `Covered`: either both shifted instants are `Renderable`, or some `Date` is beyond 8.64e15 ms. Beyond that bound the `Date` is invalid, `toISOString` throws a RangeError, the catch at app.js:148 swallows it, and the model pushes nothing. Between the two ranges the rendering is malformed, as the line above says, and is not modelled. `Collector.ChunkCollector.Tick` has the same precondition.
- Only the `HH:MM:SS` characters of `toISOString` are modelled. The date that `substr` drops is not.
- The data listener stays attached after `exit`, so blocks that arrive after exit are still gathered but never transcribed. The model keeps this as the source has it.
- A tick fires when the list holds one or more blocks, even if every block is empty. It then transcribes an empty buffer, as the source does.
