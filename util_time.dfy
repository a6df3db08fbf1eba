// Human-readable rendering of a duration given as whole seconds plus the
// nanoseconds below one second.

module UtilTime {
  import opened Text

  const NanosPerMilli: nat := 1_000_000
  const NanosPerMicro: nat := 1_000
  const NanosPerSecond: nat := 1_000_000_000

  /// The numbers a rendering shows, one case per branch of the format.
  datatype Shown =
    | HoursMinutes(hours: nat, minutes: nat)
    | MinutesSeconds(minutes: nat, seconds: nat)
    | SecondsMillis(seconds: nat, millis: nat)
    | Millis(millis: nat)
    | Micros(micros: nat)

  /// What is shown for a duration, stated by what the numbers mean: the
  /// coarse units are exact, the finest unit shown is rounded down.
  function ShownOf(secs: nat, nanos: nat): (s: Shown)
    requires nanos < NanosPerSecond
    ensures s.HoursMinutes? <==> secs >= 3600
    ensures s.HoursMinutes? ==>
      s.minutes < 60 && s.hours * 3600 + s.minutes * 60 <= secs < s.hours * 3600 + s.minutes * 60 + 60
    ensures s.MinutesSeconds? <==> 60 <= secs < 3600
    ensures s.MinutesSeconds? ==> s.seconds < 60 && s.minutes * 60 + s.seconds == secs
    ensures s.SecondsMillis? <==> 0 < secs < 60
    ensures s.SecondsMillis? ==>
      s.seconds == secs && s.millis < 1000 && s.millis * NanosPerMilli <= nanos < (s.millis + 1) * NanosPerMilli
    ensures s.Millis? <==> secs == 0 && nanos >= NanosPerMilli
    ensures s.Millis? ==> 0 < s.millis < 1000 && s.millis * NanosPerMilli <= nanos < (s.millis + 1) * NanosPerMilli
    ensures s.Micros? <==> secs == 0 && nanos < NanosPerMilli
    ensures s.Micros? ==> s.micros * NanosPerMicro <= nanos < (s.micros + 1) * NanosPerMicro
  {
    var millis := nanos / NanosPerMilli;
    if secs >= 3600 then
      var hours := secs / 3600;
      var minutes := (secs % 3600) / 60;
      HoursMinutes(hours, minutes)
    else if secs >= 60 then
      MinutesSeconds(secs / 60, secs % 60)
    else if secs > 0 then
      SecondsMillis(secs, millis)
    else if millis > 0 then
      Millis(millis)
    else
      Micros(nanos / NanosPerMicro)
  }

  function Render(s: Shown): string
    requires s.SecondsMillis? ==> s.millis < 1000
  {
    match s
    case HoursMinutes(h, m) => NatToString(h) + "h " + NatToString(m) + "m"
    case MinutesSeconds(m, sec) => NatToString(m) + "m " + NatToString(sec) + "s"
    case SecondsMillis(sec, ms) => NatToString(sec) + "." + Pad3(ms) + "s"
    case Millis(ms) => NatToString(ms) + "ms"
    case Micros(us) => NatToString(us) + "µs"
  }

  /// `format_duration`: hours and minutes from an hour on, minutes and
  /// seconds from a minute on, seconds with three-digit milliseconds from a
  /// second on, then whole milliseconds, then whole microseconds.
  function FormatDuration(secs: nat, nanos: nat): (r: string)
    requires nanos < NanosPerSecond
    ensures secs >= 3600 ==>
      r == NatToString(secs / 3600) + "h " + NatToString((secs % 3600) / 60) + "m"
    ensures 60 <= secs < 3600 ==>
      r == NatToString(secs / 60) + "m " + NatToString(secs % 60) + "s"
    ensures 0 < secs < 60 ==>
      r == NatToString(secs) + "." + Pad3(nanos / NanosPerMilli) + "s"
    ensures secs == 0 && nanos >= NanosPerMilli ==>
      r == NatToString(nanos / NanosPerMilli) + "ms"
    ensures secs == 0 && nanos < NanosPerMilli ==>
      r == NatToString(nanos / NanosPerMicro) + "µs"
  {
    Render(ShownOf(secs, nanos))
  }

  /// Between one second and a minute, the text is the seconds, a dot, the
  /// three-digit milliseconds and "s", and the digits read back as the
  /// seconds and the milliseconds.
  lemma SecondsFormat(secs: nat, nanos: nat)
    requires 0 < secs < 60 && nanos < NanosPerSecond
    ensures var r := FormatDuration(secs, nanos);
      var n := |NatToString(secs)|;
      && |r| == n + 5
      && r[n] == '.' && r[|r| - 1] == 's'
      && (forall i | 0 <= i < n :: IsDigit(r[i]))
      && (forall i | n + 1 <= i < n + 4 :: IsDigit(r[i]))
      && DigitsValue(r[..n]) == secs
      && DigitsValue(r[n + 1..n + 4]) * NanosPerMilli <= nanos < (DigitsValue(r[n + 1..n + 4]) + 1) * NanosPerMilli
  {
    var s := ShownOf(secs, nanos);
    var r := FormatDuration(secs, nanos);
    var n := |NatToString(secs)|;
    assert r == NatToString(secs) + "." + Pad3(s.millis) + "s";
    assert r[..n] == NatToString(secs);
    assert r[n + 1..n + 4] == Pad3(s.millis);
  }

  /// Below one second the text is a whole number of milliseconds followed
  /// by "ms", and below one millisecond a whole number of microseconds
  /// followed by "µs"; the digits read back as the duration rounded down.
  lemma SubSecondFormat(nanos: nat)
    requires nanos < NanosPerSecond
    ensures var r := FormatDuration(0, nanos);
      var n := |r| - 2;
      && 1 <= n
      && (forall i | 0 <= i < n :: IsDigit(r[i]))
      && (nanos >= NanosPerMilli ==>
            r[n..] == "ms" &&
            0 < DigitsValue(r[..n]) < 1000 &&
            DigitsValue(r[..n]) * NanosPerMilli <= nanos < (DigitsValue(r[..n]) + 1) * NanosPerMilli)
      && (nanos < NanosPerMilli ==>
            r[n..] == "µs" &&
            DigitsValue(r[..n]) * NanosPerMicro <= nanos < (DigitsValue(r[..n]) + 1) * NanosPerMicro)
  {
    var s := ShownOf(0, nanos);
    var r := FormatDuration(0, nanos);
    if nanos >= NanosPerMilli {
      var digits := NatToString(s.millis);
      assert r == digits + "ms";
      assert r[..|r| - 2] == digits;
    } else {
      var digits := NatToString(s.micros);
      assert r == digits + "µs";
      assert r[..|r| - 2] == digits;
    }
  }
}
