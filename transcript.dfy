/** The timing of one transcribed chunk and the transcript line built from it:
    the duration read off the PCM byte length, the fixed UTC-5 shift, and
    `formatTranscriptionAsJSONLine`. */
module Transcript {
  import opened Util
  import opened Srt

  // The PCM the transcoder is asked for: 16 kHz, mono, 16-bit little endian.
  const SampleRate: nat := 16000
  const BytesPerSample: nat := 2
  const Channels: nat := 1

  /** The wall-clock shift, UTC minus five hours, first in minutes as the
      source writes it and then in milliseconds. */
  const UtcOffsetMinutes: int := -5 * 60
  const UtcOffsetMs: int := UtcOffsetMinutes * 60 * 1000

  /** The record `{start, end, text}` pushed for each recognised chunk. */
  datatype TranscriptLine = TranscriptLine(start: string, end: string, text: string)

  /** The end instant of a chunk that started at `startTime`: the duration of
      `byteLength` bytes of PCM in milliseconds, added to the start and truncated
      to a whole millisecond as the `Date` constructor does. */
  function EndTime(startTime: nat, byteLength: nat): nat
  {
    startTime + byteLength * MsPerSecond / (SampleRate * BytesPerSample * Channels)
  }

  /** An instant moved to the fixed time zone. */
  function Adjust(t: int): int
  {
    t + UtcOffsetMs
  }

  /** Both shifted instants of a chunk lie where the rendering is well defined. */
  predicate LineRenderable(startTime: nat, byteLength: nat)
  {
    Renderable(Adjust(startTime)) && Renderable(Adjust(EndTime(startTime, byteLength)))
  }

  /** `formatTranscriptionAsJSONLine(text, startTime, endTime)`. */
  function FormatTranscriptionLine(text: string, startTime: int, endTime: int): TranscriptLine
    requires Renderable(startTime) && Renderable(endTime)
  {
    TranscriptLine(SrtTimestamp(startTime), SrtTimestamp(endTime), text)
  }

  /** The line that a successful transcription of `byteLength` bytes captured at
      `startTime` produces. */
  function LineFor(text: string, startTime: nat, byteLength: nat): TranscriptLine
    requires LineRenderable(startTime, byteLength)
  {
    FormatTranscriptionLine(text, Adjust(startTime), Adjust(EndTime(startTime, byteLength)))
  }

  /** The duration is the byte length over 32 bytes per millisecond, rounded
      down: never negative, and at most 31 bytes of audio go unaccounted. */
  lemma DurationFromBytes(startTime: nat, byteLength: nat)
    ensures var d := EndTime(startTime, byteLength) - startTime;
      d == byteLength / 32 && 32 * d <= byteLength < 32 * d + 32
    ensures EndTime(startTime, byteLength) >= startTime
  {
    var d := byteLength * 1000 / 32000;
    assert byteLength * 1000 == (byteLength / 32) * 32000 + (byteLength % 32) * 1000;
    assert d == byteLength / 32;
  }

  /** A ten-second chunk, 16000 samples a second for ten seconds at two bytes a
      sample, ends exactly 10 000 ms after it starts. */
  lemma TenSecondChunk(startTime: nat)
    ensures EndTime(startTime, 16000 * 10 * 2) == startTime + 10_000
  {
    DurationFromBytes(startTime, 16000 * 10 * 2);
  }

  /** The shift is exactly minus five hours, and it moves start and end alike. */
  lemma FixedOffset(startTime: nat, byteLength: nat)
    ensures Adjust(startTime) == startTime - 18_000_000
    ensures Adjust(EndTime(startTime, byteLength)) - Adjust(startTime) == EndTime(startTime, byteLength) - startTime
  {
  }

  /** The record keeps the recognised text unchanged, and its two fields are the
      renderings of the shifted start and end instants: read back (and so
      well formed, by the contract of `ParseSrt`), they give those instants'
      millisecond of the day. */
  lemma LineRecord(text: string, startTime: nat, byteLength: nat)
    requires LineRenderable(startTime, byteLength)
    ensures var r := LineFor(text, startTime, byteLength);
      r.text == text &&
      ParseSrt(r.start) == Some(Adjust(startTime) % MsPerDay) &&
      ParseSrt(r.end) == Some(Adjust(EndTime(startTime, byteLength)) % MsPerDay)
  {
    TimestampRoundTrip(Adjust(startTime));
    TimestampRoundTrip(Adjust(EndTime(startTime, byteLength)));
  }

  /** Read back, a line's end is its start advanced by the chunk's duration,
      wrapping at midnight. */
  lemma EndFollowsStart(text: string, startTime: nat, byteLength: nat)
    requires LineRenderable(startTime, byteLength)
    ensures var r := LineFor(text, startTime, byteLength);
      var a := Adjust(startTime) % MsPerDay;
      ParseSrt(r.start) == Some(a) && ParseSrt(r.end) == Some((a + byteLength / 32) % MsPerDay)
  {
    LineRecord(text, startTime, byteLength);
    EndClock(startTime, byteLength);
  }

  /** On the clock, the shifted end is the shifted start advanced by the chunk's
      duration, modulo a day. */
  lemma EndClock(startTime: nat, byteLength: nat)
    requires Adjust(startTime) >= 0
    ensures Adjust(EndTime(startTime, byteLength)) % MsPerDay == (Adjust(startTime) % MsPerDay + byteLength / 32) % MsPerDay
  {
    DurationFromBytes(startTime, byteLength);
    var s, e := Adjust(startTime), Adjust(EndTime(startTime, byteLength));
    ClockShift(s, e);
  }
}
