/**
 * The timing and resource telemetry both scripts share: `format_duration`,
 * `SystemMonitor.delta`, the line logger and the `StepTimer` context manager.
 * The two scripts carry identical copies of these; they are modelled once.
 */
module Telemetry {
  import opened Wrappers
  import opened Text

  // ---- format_duration ----

  const SecondsPerDay: int := 86400

  /** The `H:MM:SS` part of `str(timedelta)` for a time of day of `secs` seconds. */
  function Clock(secs: nat): string
    requires secs < SecondsPerDay
  {
    ClockFields(secs / 3600, secs / 60 % 60, secs % 60)
  }

  /** `"%d:%02d:%02d" % (hh, mm, ss)`. */
  function ClockFields(hh: nat, mm: nat, ss: nat): string
    requires mm < 60 && ss < 60
  {
    NatToString(hh) + ":" + Pad2(mm) + ":" + Pad2(ss)
  }

  /** The `"%d day%s, "` prefix `str(timedelta)` writes when the day count is not zero. */
  function DayPrefix(days: int): string {
    IntToString(days) + (if days == 1 || days == -1 then " day, " else " days, ")
  }

  /** `format_duration` for a whole number of seconds: `str(timedelta(seconds=n))`.
      `timedelta` keeps a floored day count and a remainder in `[0, 86400)`; the
      day count is written only when it is not zero. */
  function FormatDuration(seconds: int): string {
    var days := seconds / SecondsPerDay;
    var rest := seconds % SecondsPerDay;
    (if days == 0 then "" else DayPrefix(days)) + Clock(rest)
  }

  /** Reads back an `H:MM:SS` string: the partner of `Clock`. */
  function ParseClock(s: string): Option<nat> {
    var colon := IndexOf(s, ':');
    if colon.None? then None else ParseClockFields(s[..colon.value], s[colon.value + 1..])
  }

  /** The hours before the first `:` and the `MM:SS` after it. */
  function ParseClockFields(h: string, rest: string): Option<nat> {
    if 1 <= |h| && AllDigits(h) && |rest| == 5 && rest[2] == ':'
       && AllDigits(rest[..2]) && AllDigits(rest[3..])
       && DecimalValue(rest[..2]) < 60 && DecimalValue(rest[3..]) < 60
    then Some(Seconds(DecimalValue(h), DecimalValue(rest[..2]), DecimalValue(rest[3..])))
    else None
  }

  /** The number of seconds `hh:mm:ss` stands for. */
  function Seconds(hh: nat, mm: nat, ss: nat): nat {
    hh * 3600 + mm * 60 + ss
  }

  lemma ClockSplit(n: nat)
    requires n < SecondsPerDay
    ensures n == Seconds(n / 3600, n / 60 % 60, n % 60)
    ensures n / 3600 < 24
  {
    assert n == (n / 60) * 60 + n % 60;
    assert n / 60 == (n / 60 / 60) * 60 + n / 60 % 60;
    assert n / 60 / 60 == n / 3600;
  }

  lemma ParseClockAtFirstColon(h: string, rest: string)
    requires 1 <= |h| && AllDigits(h)
    ensures ParseClock(h + ":" + rest) == ParseClockFields(h, rest)
  {
    var r := h + ":" + rest;
    assert r[..|h|] == h && r[|h| + 1..] == rest;
    assert ':' !in h by {
      assert forall k :: 0 <= k < |h| ==> IsDigit(h[k]);
    }
    IndexOfFirstColon(h, rest);
  }

  lemma ParseClockFieldsOf(h: string, m: string, s: string)
    requires 1 <= |h| && AllDigits(h) && |m| == 2 && AllDigits(m) && |s| == 2 && AllDigits(s)
    requires DecimalValue(m) < 60 && DecimalValue(s) < 60
    ensures ParseClockFields(h, m + ":" + s) == Some(Seconds(DecimalValue(h), DecimalValue(m), DecimalValue(s)))
  {
    var rest := m + ":" + s;
    assert |rest| == 5 && rest[2] == ':';
    assert rest[..2] == m && rest[3..] == s;
    assert AllDigits(rest[..2]) && AllDigits(rest[3..]);
  }

  lemma ClockFieldsRoundTrip(hh: nat, mm: nat, ss: nat)
    requires mm < 60 && ss < 60
    ensures ParseClock(ClockFields(hh, mm, ss)) == Some(Seconds(hh, mm, ss))
  {
    var h := NatToString(hh);
    var m := Pad2(mm);
    var s := Pad2(ss);
    var rest := m + ":" + s;
    assert ClockFields(hh, mm, ss) == h + ":" + rest;
    ParseClockAtFirstColon(h, rest);
    ParseClockFieldsOf(h, m, s);
    DecimalRoundTrip(hh);
    calc {
      ParseClock(ClockFields(hh, mm, ss));
      ParseClockFields(h, rest);
      Some(Seconds(DecimalValue(h), DecimalValue(m), DecimalValue(s)));
      Some(Seconds(hh, mm, ss));
    }
  }

  /** Reading back `H:MM:SS` gives the time of day it was made from. */
  lemma ClockRoundTrip(n: nat)
    requires n < SecondsPerDay
    ensures ParseClock(Clock(n)) == Some(n)
  {
    var hh, mm, ss := n / 3600, n / 60 % 60, n % 60;
    ClockSplit(n);
    ClockFieldsRoundTrip(hh, mm, ss);
    assert Clock(n) == ClockFields(hh, mm, ss);
  }

  /** Below one day the duration is exactly `H:MM:SS`, and reading it back gives `n`:
      minutes and seconds are two digits below 60 and `H*3600 + MM*60 + SS == n`. */
  lemma FormatDurationRoundTrip(n: int)
    requires 0 <= n < SecondsPerDay
    ensures FormatDuration(n) == Clock(n)
    ensures ParseClock(FormatDuration(n)) == Some(n)
  {
    assert FormatDuration(n) == Clock(n);
    ClockRoundTrip(n);
  }

  /** From one day on, the duration is `D day, ` or `D days, ` followed by the
      duration of the remainder. */
  lemma FormatDurationWithDays(n: int)
    requires n >= SecondsPerDay
    ensures FormatDuration(n) == NatToString(n / SecondsPerDay)
      + (if n / SecondsPerDay == 1 then " day, " else " days, ") + FormatDuration(n % SecondsPerDay)
    ensures n / SecondsPerDay >= 1
  {
    var days, rest := n / SecondsPerDay, n % SecondsPerDay;
    assert n == days * SecondsPerDay + rest;
    assert days >= 1;
    assert rest / SecondsPerDay == 0 && rest % SecondsPerDay == rest;
    assert FormatDuration(rest) == Clock(rest);
  }

  lemma FormatDurationExamples()
    ensures FormatDuration(0) == "0:00:00"
    ensures FormatDuration(3661) == "1:01:01"
  {
    assert NatToString(0) == "0" && Pad2(0) == "00";
    assert Clock(0) == ClockFields(0, 0, 0);
    assert NatToString(1) == "1" && Pad2(1) == "01";
    assert 3661 / 3600 == 1 && 3661 / 60 % 60 == 1 && 3661 % 60 == 1;
    assert Clock(3661) == ClockFields(1, 1, 1);
  }

  lemma FormatDurationOneDay()
    ensures FormatDuration(86400) == "1 day, 0:00:00"
  {
    assert NatToString(0) == "0" && Pad2(0) == "00";
    assert Clock(0) == ClockFields(0, 0, 0) == "0:00:00";
    assert NatToString(1) == "1";
    assert DayPrefix(1) == "1 day, ";
  }

  lemma Clock59()
    ensures Clock(59) == "0:00:59"
  {
    assert 59 / 3600 == 0 && 59 / 60 % 60 == 0 && 59 % 60 == 59;
    assert Clock(59) == ClockFields(0, 0, 59);
    assert NatToString(0) == "0" && Pad2(0) == "00";
    assert NatToString(59) == NatToString(5) + [DigitChar(9)] == "59";
    assert Pad2(59) == "59";
  }

  lemma FormatDurationTwoDays()
    ensures FormatDuration(2 * 86400 + 59) == "2 days, 0:00:59"
  {
    var n := 2 * 86400 + 59;
    assert n / SecondsPerDay == 2 && n % SecondsPerDay == 59;
    Clock59();
    assert DayPrefix(2) == "2 days, ";
  }

  lemma ClockLastSecond()
    ensures Clock(86399) == "23:59:59"
  {
    assert 86399 / 3600 == 23 && 86399 / 60 % 60 == 59 && 86399 % 60 == 59;
    assert Clock(86399) == ClockFields(23, 59, 59);
    assert NatToString(23) == NatToString(2) + [DigitChar(3)] == "23";
    assert NatToString(59) == NatToString(5) + [DigitChar(9)];
    assert Pad2(59) == "59";
  }

  /** A negative duration is written with a negative day count and a positive clock. */
  lemma FormatDurationNegative()
    ensures FormatDuration(-1) == "-1 day, 23:59:59"
  {
    assert -1 / SecondsPerDay == -1 && -1 % SecondsPerDay == 86399;
    ClockLastSecond();
    assert DayPrefix(-1) == "-1 day, ";
  }

  // ---- SystemMonitor.snapshot / delta ----

  /** A point-in-time reading: CPU percent and memory and disk byte counts. */
  datatype Snapshot = Snapshot(cpuPercent: real, memUsed: nat, memTotal: nat, diskUsed: nat, diskTotal: nat)

  datatype ResourceDelta = ResourceDelta(rssDelta: real, diskDelta: real, cpuAfter: real)

  /** `1024**2`: deltas are reported in MiB. */
  const Mebibyte: nat := 1048576

  /** `SystemMonitor.delta(before, after)` in exact arithmetic. */
  function Delta(before: Snapshot, after: Snapshot): (d: ResourceDelta)
    ensures d.rssDelta * Mebibyte as real == after.memUsed as real - before.memUsed as real
    ensures d.diskDelta * Mebibyte as real == after.diskUsed as real - before.diskUsed as real
    ensures d.rssDelta > 0.0 <==> after.memUsed > before.memUsed
    ensures d.diskDelta > 0.0 <==> after.diskUsed > before.diskUsed
    ensures d.cpuAfter == after.cpuPercent
  {
    ResourceDelta(
      (after.memUsed as real - before.memUsed as real) / Mebibyte as real,
      (after.diskUsed as real - before.diskUsed as real) / Mebibyte as real,
      after.cpuPercent)
  }

  lemma DeltaOfSameSnapshot(s: Snapshot)
    ensures Delta(s, s).rssDelta == 0.0 && Delta(s, s).diskDelta == 0.0
  {
  }

  /** Swapping the two snapshots negates both byte deltas. */
  lemma DeltaSwapped(a: Snapshot, b: Snapshot)
    ensures Delta(b, a).rssDelta == -Delta(a, b).rssDelta
    ensures Delta(b, a).diskDelta == -Delta(a, b).diskDelta
  {
  }

  /** 100 MiB used before and 150 MiB after give a memory delta of +50. */
  lemma DeltaExample(a: Snapshot, b: Snapshot)
    requires a.memUsed == 100 * Mebibyte && b.memUsed == 150 * Mebibyte
    ensures Delta(a, b).rssDelta == 50.0
  {
  }

  // ---- Logger ----

  /** One logged line. The step timer's lines are kept structured; every other
      line of the scripts is a plain message. A closing line carries the elapsed
      seconds, which it shows as `FormatDuration(elapsed)`. */
  datatype LogLine =
    | Start(title: string)
    | Fail(title: string, elapsed: int)
    | DeltaLine(delta: ResourceDelta)
    | Done(title: string, elapsed: int)
    | Usage(snap: Snapshot)
    | Message(text: string)
  {
    predicate IsClosing() {
      Fail? || Done?
    }

    /** The duration text of a closing line. */
    function Duration(): string
      requires IsClosing()
    {
      FormatDuration(elapsed)
    }
  }

  /** `FileLogger`: appends each line to the run log. */
  class Logger {
    var lines: seq<LogLine>

    constructor ()
      ensures lines == []
    {
      lines := [];
    }

    method Log(line: LogLine)
      modifies this
      ensures lines == old(lines) + [line]
    {
      lines := lines + [line];
    }
  }

  // ---- StepTimer ----

  /** What `__exit__` appends after a step whose body ran for `elapsed` seconds. */
  function ExitLines(title: string, before: Snapshot, after: Snapshot, elapsed: int, raised: bool): seq<LogLine> {
    if raised then [Fail(title, elapsed)]
    else [DeltaLine(Delta(before, after)), Done(title, elapsed)]
  }

  function CountClosing(lines: seq<LogLine>): nat {
    if lines == [] then 0
    else CountClosing(lines[..|lines| - 1]) + (if lines[|lines| - 1].IsClosing() then 1 else 0)
  }

  /** `__exit__` closes the step exactly once and last: a failure line when the body
      raised, otherwise the delta line followed by the done line. */
  lemma ExitClosesOnce(title: string, before: Snapshot, after: Snapshot, elapsed: int, raised: bool)
    ensures var ls := ExitLines(title, before, after, elapsed, raised);
      CountClosing(ls) == 1 && ls[|ls| - 1].IsClosing()
      && (ls[|ls| - 1].Fail? <==> raised)
      && (ls[|ls| - 1].title == title)
  {
    var ls := ExitLines(title, before, after, elapsed, raised);
    if !raised {
      assert ls[..1] == [DeltaLine(Delta(before, after))];
      assert ls[..1][..0] == [];
      assert CountClosing(ls[..1]) == 0;
    } else {
      assert ls[..0] == [];
    }
  }

  /** The `StepTimer` context manager. The clock and the snapshots it reads are
      passed in; `before` is `None` until `__enter__` has run (the `{}` of the source). */
  class StepTimer {
    const title: string
    const logger: Logger
    var t0: int
    var before: Option<Snapshot>

    constructor (title: string, logger: Logger)
      ensures this.title == title && this.logger == logger
      ensures t0 == 0 && before == None
    {
      this.title := title;
      this.logger := logger;
      t0 := 0;
      before := None;
    }

    /** `__enter__`: logs the start line, then records the clock and a snapshot. */
    method Enter(now: int, snap: Snapshot)
      modifies this, logger
      ensures logger.lines == old(logger.lines) + [Start(title)]
      ensures t0 == now && before == Some(snap)
    {
      logger.Log(Start(title));
      t0 := now;
      before := Some(snap);
    }

    /** `__exit__`: returns whether to suppress the exception, which is never. */
    method Exit(now: int, after: Snapshot, raised: bool) returns (suppress: bool)
      requires before.Some?
      modifies logger
      ensures !suppress
      ensures logger.lines == old(logger.lines) + ExitLines(title, before.value, after, now - t0, raised)
    {
      var dt := now - t0;
      if raised {
        logger.Log(Fail(title, dt));
        return false;
      }
      var delta := Delta(before.value, after);
      logger.Log(DeltaLine(delta));
      logger.Log(Done(title, dt));
      suppress := false;
    }
  }
}
