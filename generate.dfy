/**
 * `generate beacon` (client/command/generate/generate-beacon.go): the
 * check-in interval and jitter of a bacon implant build, computed from the
 * command's flags in Go Durations (signed 64-bit nanosecond counts whose
 * arithmetic wraps around).
 */
module Generate {
  import opened Common
  import opened ClientState

  const Minute: int := 60 * Second
  const Hour: int := 60 * Minute
  /** minBaconInterval */
  const MinBaconInterval: int := 5 * Second

  const TwoTo63: int := 0x8000_0000_0000_0000
  const TwoTo64: int := 0x1_0000_0000_0000_0000

  predicate InInt64(x: int) {
    -TwoTo63 <= x < TwoTo63
  }

  /** The int64 result of an arithmetic step with exact value `x`: two's complement wrap-around. */
  function Wrap64(x: int): (r: int)
    ensures InInt64(r)
    ensures (r - x) % TwoTo64 == 0
    ensures InInt64(x) ==> r == x
  {
    var m := x % TwoTo64;
    if m >= TwoTo63 then m - TwoTo64 else m
  }

  /** The flags parseBaconFlags reads: durations in their units, and whether `--seconds` was given. */
  datatype BaconFlags = BaconFlags(days: int, hours: int, minutes: int, seconds: int, secondsChanged: bool, jitter: int)

  /** The interval from days, hours and minutes, step by step as Go computes it. */
  function UnitsInterval(f: BaconFlags): int {
    var interval := Wrap64(Wrap64(f.days * Hour) * 24);
    var interval := Wrap64(interval + Wrap64(f.hours * Hour));
    Wrap64(interval + Wrap64(f.minutes * Minute))
  }

  /** The seconds are added when `--seconds` was given, or when nothing else made up an interval (the 60 s default). */
  predicate SecondsCounted(f: BaconFlags) {
    (!f.secondsChanged && UnitsInterval(f) == 0) || f.secondsChanged
  }

  /** The interval parseBaconFlags computes. */
  function BaconInterval(f: BaconFlags): int {
    if SecondsCounted(f) then Wrap64(UnitsInterval(f) + Wrap64(f.seconds * Second)) else UnitsInterval(f)
  }

  /** The jitter parseBaconFlags stores. */
  function BaconJitter(f: BaconFlags): int {
    Wrap64(f.jitter * Second)
  }

  /** Flag values no user is expected to exceed: about 270 years in total, so no step wraps. */
  predicate Modest(f: BaconFlags) {
    0 <= f.days <= 100_000 && 0 <= f.hours <= 100_000 && 0 <= f.minutes <= 100_000 && 0 <= f.seconds <= 100_000
  }

  /** Without wrap-around the interval is the plain sum of the units, the seconds only when counted. */
  lemma IntervalExact(f: BaconFlags)
    requires Modest(f)
    ensures BaconInterval(f) ==
      f.days * 24 * Hour + f.hours * Hour + f.minutes * Minute + (if SecondsCounted(f) then f.seconds * Second else 0)
  {
    UnitsExact(f);
    MulBound(f.seconds, 100_000, Second);
  }

  /** Without wrap-around the days, hours and minutes add up exactly, and the total fits in an int64. */
  lemma UnitsExact(f: BaconFlags)
    requires Modest(f)
    ensures UnitsInterval(f) == f.days * 24 * Hour + f.hours * Hour + f.minutes * Minute
    ensures 0 <= UnitsInterval(f) <= 100_000 * 24 * Hour + 100_000 * Hour + 100_000 * Minute
  {
    var d := f.days * Hour;
    MulBound(f.days, 100_000, Hour);
    MulBound(d, 100_000 * Hour, 24);
    MulBound(f.hours, 100_000, Hour);
    MulBound(f.minutes, 100_000, Minute);
    assert f.days * 24 * Hour == d * 24;
  }

  lemma MulBound(a: int, b: int, c: int)
    requires 0 <= a <= b && 0 <= c
    ensures 0 <= a * c <= b * c
  {
  }

  /** With modest flags, the seconds count exactly when given or when no day, hour or minute was. */
  lemma SecondsRule(f: BaconFlags)
    requires Modest(f)
    ensures SecondsCounted(f) <==> f.secondsChanged || (f.days == 0 && f.hours == 0 && f.minutes == 0)
  {
    UnitsExact(f);
    MulBound(f.days, 100_000, 24 * Hour);
    MulBound(f.hours, 100_000, Hour);
    MulBound(f.minutes, 100_000, Minute);
  }

  /** The implant configuration fields parseBaconFlags and GenerateBaconCmd write. */
  class ImplantConfig {
    var isBacon: bool
    var baconInterval: int
    var baconJitter: int

    constructor(isBacon: bool, baconInterval: int, baconJitter: int)
      ensures this.isBacon == isBacon && this.baconInterval == baconInterval && this.baconJitter == baconJitter
    {
      this.isBacon := isBacon;
      this.baconInterval := baconInterval;
      this.baconJitter := baconJitter;
    }
  }

  /**
   * parseBaconFlags: an interval under five seconds is refused and the
   * configuration is left as it was; otherwise the interval and jitter are
   * stored.
   */
  method ParseBaconFlags(config: ImplantConfig, f: BaconFlags) returns (err: Option<ClientError>)
    modifies config
    ensures err.Some? <==> BaconInterval(f) < MinBaconInterval
    ensures err.Some? ==> err.value == BaconIntervalTooShort
    ensures err.Some? ==> config.baconInterval == old(config.baconInterval) && config.baconJitter == old(config.baconJitter)
    ensures err.None? ==> config.baconInterval == BaconInterval(f) && config.baconJitter == BaconJitter(f)
    ensures err.None? ==> MinBaconInterval <= config.baconInterval && InInt64(config.baconInterval)
    ensures config.isBacon == old(config.isBacon)
  {
    var interval := Wrap64(Wrap64(f.days * Hour) * 24);
    interval := Wrap64(interval + Wrap64(f.hours * Hour));
    interval := Wrap64(interval + Wrap64(f.minutes * Minute));
    if (!f.secondsChanged && interval == 0) || f.secondsChanged {
      interval := Wrap64(interval + Wrap64(f.seconds * Second));
    }
    if interval < MinBaconInterval {
      return Some(BaconIntervalTooShort);
    }
    var baconJitter := f.jitter;
    config.baconInterval := interval;
    config.baconJitter := Wrap64(baconJitter * Second);
    return None;
  }

  /** Which build GenerateBaconCmd starts, into which directory. */
  datatype Build = NotBuilt | Compile(save: string) | ExternalBuild(name: string, save: string)

  /**
   * GenerateBaconCmd: without a configuration (the compile flags did not
   * parse) nothing happens; otherwise the configuration is marked as a
   * bacon, a refused interval is printed and nothing is built, and
   * otherwise a local or external build starts in the save directory (the
   * working directory when none is given).
   */
  method GenerateBaconCmd(con: Console, name: string, config: ImplantConfig?, f: BaconFlags,
                          save: string, workingDir: string, external: bool) returns (build: Build)
    modifies con, config
    ensures config == null ==> build == NotBuilt && con.output == old(con.output)
    ensures config != null ==> config.isBacon
    ensures config != null && BaconInterval(f) < MinBaconInterval ==>
      build == NotBuilt && con.output == old(con.output) + [ErrorText(BaconIntervalTooShort)]
    ensures config != null && MinBaconInterval <= BaconInterval(f) ==>
      config.baconInterval == BaconInterval(f) && config.baconJitter == BaconJitter(f) &&
      con.output == old(con.output) &&
      var dir := if save == "" then workingDir else save;
      build == if external then ExternalBuild(name, dir) else Compile(dir)
    ensures con.OnlyLogged() && con.rpcs == old(con.rpcs)
  {
    if config == null {
      return NotBuilt;
    }
    config.isBacon := true;
    var err := ParseBaconFlags(config, f);
    if err.Some? {
      con.Print(ErrorText(err.value));
      return NotBuilt;
    }
    var dir := save;
    if dir == "" {
      dir := workingDir;
    }
    if !external {
      build := Compile(dir);
    } else {
      build := ExternalBuild(name, dir);
    }
  }
}
