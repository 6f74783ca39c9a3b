/** Rendering of an instant as an SRT-style `HH:MM:SS,mmm` time of day, as
    `formatTranscriptionAsJSONLine` builds it from `Date.prototype.toISOString`,
    `%`, `Number.prototype.toString` and `String.prototype.padStart`; and a reader
    for such strings, the inverse used to state what a rendering means. */
module Srt {
  import opened Util

  const MsPerSecond: nat := 1000
  const MsPerDay: nat := 86_400_000

  /** The first instant of the year 10000 (ECMAScript time value, ms since the
      epoch). From here on `toISOString` writes an expanded six-digit year, so the
      characters 11..18 are no longer the time of day. */
  const Year10000: int := 253_402_300_800_000

  /** The instants the rendering handles as the source intends: not before the
      epoch (where, for an instant that is not a whole second, `%` is negative
      and `padStart` gives a malformed millisecond field) and within the
      four-digit years of `toISOString`. */
  predicate Renderable(t: int)
  {
    0 <= t < Year10000
  }

  predicate IsDigit(c: char)
  {
    '0' <= c <= '9'
  }

  function DigitValue(c: char): (d: nat)
    requires IsDigit(c)
    ensures d < 10
  {
    c as int - '0' as int
  }

  function DigitChar(d: nat): (c: char)
    requires d < 10
    ensures IsDigit(c) && DigitValue(c) == d
  {
    ('0' as int + d) as char
  }

  /** The number a string of decimal digits denotes. */
  function DecimalValue(s: string): nat
    requires forall i :: 0 <= i < |s| ==> IsDigit(s[i])
  {
    if s == [] then 0 else 10 * DecimalValue(s[..|s| - 1]) + DigitValue(s[|s| - 1])
  }

  /** `n.toString()` for a non-negative integer: its decimal digits without
      leading zeros. */
  function DecimalString(n: nat): (s: string)
    ensures 1 <= |s|
    ensures forall i :: 0 <= i < |s| ==> IsDigit(s[i])
    ensures DecimalValue(s) == n
    ensures s[0] == '0' ==> n == 0
    ensures n < 10 ==> |s| == 1
    ensures 10 <= n < 100 ==> |s| == 2
    ensures 100 <= n < 1000 ==> |s| == 3
  {
    if n < 10 then [DigitChar(n)]
    else
      var s := DecimalString(n / 10) + [DigitChar(n % 10)];
      assert s[..|s| - 1] == DecimalString(n / 10);
      s
  }

  /** `s.padStart(width, fill)` with a one-character `fill`. */
  function PadStart(s: string, width: nat, fill: char): (r: string)
    ensures |r| == if |s| >= width then |s| else width
    ensures forall i :: 0 <= i < |s| ==> r[|r| - |s| + i] == s[i]
    ensures forall i :: 0 <= i < |r| - |s| ==> r[i] == fill
  {
    if |s| >= width then s else seq(width - |s|, _ => fill) + s
  }

  /** A field below 100 written with exactly two digits. */
  function TwoDigits(n: nat): string
    requires n < 100
  {
    [DigitChar(n / 10), DigitChar(n % 10)]
  }

  // The UTC calendar fields of a non-negative time value (ECMAScript's
  // msFromTime, SecFromTime, MinFromTime and HourFromTime): successive
  // quotients, so that HourOf(t) is floor(t / 3 600 000) modulo 24.

  function MilliOf(t: nat): nat { t % 1000 }

  function SecondOf(t: nat): nat { t / 1000 % 60 }

  function MinuteOf(t: nat): nat { t / 1000 / 60 % 60 }

  function HourOf(t: nat): nat { t / 1000 / 60 / 60 % 24 }

  /** `new Date(t).toISOString().substr(11, 8)`: the `HH:MM:SS` part of the
      ISO-8601 rendering in UTC. The date before it is dropped by `substr`
      and is not modelled. */
  function IsoTimeOfDay(t: nat): string
  {
    TwoDigits(HourOf(t)) + ":" + TwoDigits(MinuteOf(t)) + ":" + TwoDigits(SecondOf(t))
  }

  /** One timestamp of a transcript line. */
  function SrtTimestamp(t: int): string
    requires Renderable(t)
  {
    IsoTimeOfDay(t) + "," + PadStart(DecimalString(t % 1000), 3, '0')
  }

  /** `HH:MM:SS,mmm`: twelve characters, digits everywhere but the separators. */
  predicate WellFormed(s: string)
  {
    |s| == 12 &&
    IsDigit(s[0]) && IsDigit(s[1]) && s[2] == ':' &&
    IsDigit(s[3]) && IsDigit(s[4]) && s[5] == ':' &&
    IsDigit(s[6]) && IsDigit(s[7]) && s[8] == ',' &&
    IsDigit(s[9]) && IsDigit(s[10]) && IsDigit(s[11])
  }

  function HoursField(s: string): nat requires WellFormed(s) { 10 * DigitValue(s[0]) + DigitValue(s[1]) }

  function MinutesField(s: string): nat requires WellFormed(s) { 10 * DigitValue(s[3]) + DigitValue(s[4]) }

  function SecondsField(s: string): nat requires WellFormed(s) { 10 * DigitValue(s[6]) + DigitValue(s[7]) }

  function MillisField(s: string): nat requires WellFormed(s)
  {
    100 * DigitValue(s[9]) + 10 * DigitValue(s[10]) + DigitValue(s[11])
  }

  /** The millisecond of the day a timestamp string denotes, or `None` when the
      string is not a timestamp of a valid time of day. */
  function ParseSrt(s: string): (r: Option<nat>)
    ensures r.Some? ==> WellFormed(s) && r.value < MsPerDay
  {
    if !WellFormed(s) then None
    else
      var h, m, sec := HoursField(s), MinutesField(s), SecondsField(s);
      if h < 24 && m < 60 && sec < 60
      then Some(((h * 60 + m) * 60 + sec) * 1000 + MillisField(s))
      else None
  }

  /** The millisecond field: `padStart` fills `toString`'s digits to exactly
      three, whatever the value below 1000. */
  lemma ThreeDigitField(n: nat)
    requires n < 1000
    ensures PadStart(DecimalString(n), 3, '0') == [DigitChar(n / 100), DigitChar(n / 10 % 10), DigitChar(n % 10)]
  {
    if n < 10 {
      OneDigitField(n);
    } else if n < 100 {
      TwoDigitField(n);
    } else {
      HundredsField(n);
    }
  }

  lemma OneDigitField(n: nat)
    requires n < 10
    ensures PadStart(DecimalString(n), 3, '0') == [DigitChar(n / 100), DigitChar(n / 10 % 10), DigitChar(n % 10)]
  {
    assert n / 100 == 0 && n / 10 % 10 == 0 && n % 10 == n;
    assert DecimalString(n) == [DigitChar(n)];
    assert PadStart(DecimalString(n), 3, '0') == ['0', '0'] + [DigitChar(n)];
  }

  lemma TwoDigitField(n: nat)
    requires 10 <= n < 100
    ensures PadStart(DecimalString(n), 3, '0') == [DigitChar(n / 100), DigitChar(n / 10 % 10), DigitChar(n % 10)]
  {
    DigitsOf(n);
    TwoDigitString(n);
    assert PadStart(DecimalString(n), 3, '0') == ['0'] + [DigitChar(n / 10), DigitChar(n % 10)];
  }

  lemma HundredsField(n: nat)
    requires 100 <= n < 1000
    ensures PadStart(DecimalString(n), 3, '0') == [DigitChar(n / 100), DigitChar(n / 10 % 10), DigitChar(n % 10)]
  {
    DigitsOf(n);
    var q := n / 10;
    TwoDigitString(q);
    assert DecimalString(n) == DecimalString(q) + [DigitChar(n % 10)];
  }

  /** `toString` of a two-digit value. */
  lemma TwoDigitString(n: nat)
    requires 10 <= n < 100
    ensures DecimalString(n) == [DigitChar(n / 10), DigitChar(n % 10)]
  {
    assert n / 10 < 10;
    assert DecimalString(n / 10) == [DigitChar(n / 10)];
  }

  /** The hundreds, tens and units of a value below 1000. */
  lemma DigitsOf(n: nat)
    requires n < 1000
    ensures n / 100 < 10 && n / 10 / 10 == n / 100 && n / 10 % 10 < 10
    ensures n == 100 * (n / 100) + 10 * (n / 10 % 10) + n % 10
  {
    var q := n / 10;
    assert n == 10 * q + n % 10;
    assert q == 10 * (q / 10) + q % 10;
    assert n == 100 * (q / 10) + 10 * (q % 10) + n % 10;
  }

  /** How a value is built from its fields, and that the fields are unique: if
      `t` splits as whole days plus a time of day with these field values, those
      are the calendar fields of `t`. */
  lemma FieldsOf(t: nat, days: nat, h: nat, m: nat, s: nat, ms: nat)
    requires h < 24 && m < 60 && s < 60 && ms < 1000
    requires t == days * MsPerDay + ((h * 60 + m) * 60 + s) * 1000 + ms
    ensures MilliOf(t) == ms && SecondOf(t) == s && MinuteOf(t) == m && HourOf(t) == h
    ensures t % MsPerDay == ((h * 60 + m) * 60 + s) * 1000 + ms
  {
    var secs := ((days * 24 + h) * 60 + m) * 60 + s;
    assert t == secs * 1000 + ms;
    assert t / 1000 == secs;
    var mins := (days * 24 + h) * 60 + m;
    assert secs == mins * 60 + s;
    assert secs / 60 == mins;
    var hours := days * 24 + h;
    assert mins == hours * 60 + m;
    assert mins / 60 == hours;
    assert hours % 24 == h;
    var rest := ((h * 60 + m) * 60 + s) * 1000 + ms;
    assert rest < MsPerDay;
    assert t == days * MsPerDay + rest;
  }

  /** Every non-negative value splits into whole days and a time of day. */
  lemma Decompose(t: nat)
    ensures FieldsOfDecomposition(t)
  {
    var ms, secs := t % 1000, t / 1000;
    var s, mins := secs % 60, secs / 60;
    var m, hours := mins % 60, mins / 60;
    var h, days := hours % 24, hours / 24;
    assert t == days * MsPerDay + ((h * 60 + m) * 60 + s) * 1000 + ms;
    FieldsOf(t, days, h, m, s, ms);
  }

  ghost predicate FieldsOfDecomposition(t: nat)
  {
    t == (t / MsPerDay) * MsPerDay + ((HourOf(t) * 60 + MinuteOf(t)) * 60 + SecondOf(t)) * 1000 + MilliOf(t) &&
    t % MsPerDay == ((HourOf(t) * 60 + MinuteOf(t)) * 60 + SecondOf(t)) * 1000 + MilliOf(t) &&
    HourOf(t) < 24 && MinuteOf(t) < 60 && SecondOf(t) < 60 && MilliOf(t) < 1000
  }

  /** The twelve characters of a timestamp with these field values. */
  function Characters(h: nat, m: nat, sec: nat, ms: nat): string
    requires h < 100 && m < 100 && sec < 100 && ms < 1000
  {
    [DigitChar(h / 10), DigitChar(h % 10), ':', DigitChar(m / 10), DigitChar(m % 10), ':',
     DigitChar(sec / 10), DigitChar(sec % 10), ',', DigitChar(ms / 100), DigitChar(ms / 10 % 10), DigitChar(ms % 10)]
  }

  /** A rendered timestamp, character by character. */
  lemma TimestampCharacters(t: int)
    requires Renderable(t)
    ensures SrtTimestamp(t) == Characters(HourOf(t), MinuteOf(t), SecondOf(t), t % 1000)
  {
    var n := t % 1000;
    ThreeDigitField(n);
    JoinFields(TwoDigits(HourOf(t)), TwoDigits(MinuteOf(t)), TwoDigits(SecondOf(t)), PadStart(DecimalString(n), 3, '0'));
  }

  /** Three two-character fields and a three-character field, joined by the
      separators, character by character. */
  lemma JoinFields(hh: string, mm: string, ss: string, mmm: string)
    requires |hh| == 2 && |mm| == 2 && |ss| == 2 && |mmm| == 3
    ensures hh + ":" + mm + ":" + ss + "," + mmm ==
      [hh[0], hh[1], ':', mm[0], mm[1], ':', ss[0], ss[1], ',', mmm[0], mmm[1], mmm[2]]
  {
  }

  /** The fields of such a string read back as the values written. */
  lemma CharactersFields(h: nat, m: nat, sec: nat, ms: nat)
    requires h < 100 && m < 100 && sec < 100 && ms < 1000
    ensures var r := Characters(h, m, sec, ms);
      WellFormed(r) && HoursField(r) == h && MinutesField(r) == m && SecondsField(r) == sec && MillisField(r) == ms
  {
    DigitsOf(ms);
  }

  /** The shape of a timestamp: `HH:MM:SS,mmm`, every field zero-padded to its
      width, each field in its calendar range, and `mmm` the value modulo 1000. */
  lemma TimestampShape(t: int)
    requires Renderable(t)
    ensures var r := SrtTimestamp(t);
      WellFormed(r) &&
      HoursField(r) == HourOf(t) < 24 &&
      MinutesField(r) == MinuteOf(t) < 60 &&
      SecondsField(r) == SecondOf(t) < 60 &&
      MillisField(r) == t % 1000
  {
    TimestampCharacters(t);
    CharactersFields(HourOf(t), MinuteOf(t), SecondOf(t), t % 1000);
  }

  /** Reading a rendered timestamp gives back the millisecond of the day. */
  lemma TimestampRoundTrip(t: int)
    requires Renderable(t)
    ensures ParseSrt(SrtTimestamp(t)) == Some(t % MsPerDay)
  {
    TimestampShape(t);
    Decompose(t);
  }

  /** The rendering depends on the millisecond of the day only. */
  lemma TimeOfDayOnly(t: int)
    requires Renderable(t)
    ensures SrtTimestamp(t) == SrtTimestamp(t % MsPerDay)
  {
    Decompose(t);
    var d := t % MsPerDay;
    FieldsOf(d, 0, HourOf(t), MinuteOf(t), SecondOf(t), MilliOf(t));
    assert d % 1000 == t % 1000;
  }

  /** Adding a whole day does not change the rendering. */
  lemma DayWrapAround(t: int)
    requires Renderable(t) && Renderable(t + MsPerDay)
    ensures SrtTimestamp(t + MsPerDay) == SrtTimestamp(t)
  {
    Decompose(t);
    FieldsOf(t + MsPerDay, t / MsPerDay + 1, HourOf(t), MinuteOf(t), SecondOf(t), MilliOf(t));
    assert (t + MsPerDay) % 1000 == t % 1000;
  }

  /** Two instants render alike exactly when they fall on the same millisecond of
      the day; so within one day distinct instants render distinctly. */
  lemma SameTimestampIffSameTimeOfDay(a: int, b: int)
    requires Renderable(a) && Renderable(b)
    ensures SrtTimestamp(a) == SrtTimestamp(b) <==> a % MsPerDay == b % MsPerDay
  {
    TimestampRoundTrip(a);
    TimestampRoundTrip(b);
    if a % MsPerDay == b % MsPerDay {
      TimeOfDayOnly(a);
      TimeOfDayOnly(b);
    }
  }

  /** Read back, the rendering of an instant `u` at or after `t` is the
      rendering of `t` advanced by `u - t` ms, wrapping at midnight. */
  lemma LaterTimestamp(t: int, u: int)
    requires Renderable(t) && Renderable(u) && t <= u
    ensures var a := t % MsPerDay;
      ParseSrt(SrtTimestamp(t)) == Some(a) && ParseSrt(SrtTimestamp(u)) == Some((a + (u - t)) % MsPerDay)
  {
    TimestampRoundTrip(t);
    TimestampRoundTrip(u);
    ClockShift(t, u);
  }

  /** Moving forward in time moves the millisecond of the day by the same
      amount, modulo a day. */
  lemma ClockShift(t: int, u: int)
    requires 0 <= t <= u
    ensures u % MsPerDay == (t % MsPerDay + (u - t)) % MsPerDay
  {
    var q := t / MsPerDay;
    assert t == q * MsPerDay + t % MsPerDay;
    assert u == (t % MsPerDay + (u - t)) + q * MsPerDay;
  }
}
