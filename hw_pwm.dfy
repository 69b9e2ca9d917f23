/** Hardware PWM: a pwmchip line driven through its `period`, `duty_cycle`
    and `enable` attribute files.  Every write the object makes is logged in
    `writes`, in order, and applied to the registry's kernel. */
module HardwarePwm {
  import opened Errors
  import opened GpioTypes
  import opened PythonFunctions
  import opened Conversions
  import opened PinCatalog
  import opened Sysfs
  import opened SoftwarePwm
  import opened Gpio
  import opened Collections

  /** `int(1000000000.0 / frequency_hz)`: the period in nanoseconds, the
      quotient truncated toward zero (see `PeriodIsTruncatedQuotient`). */
  function PeriodNs(f: int): int
    requires f != 0
  {
    if f > 0 then 1000000000 / f else -(1000000000 / -f)
  }

  /** The period is the real quotient truncated toward zero, and for a
      positive frequency it is not negative. */
  lemma PeriodIsTruncatedQuotient(f: int)
    requires f != 0
    ensures PeriodNs(f) == Trunc(1000000000.0 / f as real)
    ensures f > 0 ==> PeriodNs(f) >= 0
  {
    if f > 0 {
      QuotientFloor(1000000000, f);
    } else {
      QuotientFloor(1000000000, -f);
      assert 1000000000.0 / f as real == -(1000000000.0 / (-f) as real);
    }
  }

  /** The floor of a real quotient of naturals is their integer quotient. */
  lemma QuotientFloor(n: nat, f: int)
    requires f > 0
    ensures (n as real / f as real).Floor == n / f
  {
    var q, m := n / f, n % f;
    var fr := f as real;
    var x := n as real / fr;
    assert n == q * f + m && 0 <= m < f;
    assert n as real == (q * f) as real + m as real;
    assert (q * f) as real == q as real * fr;
    assert x == q as real + m as real / fr;
    assert 0.0 <= m as real / fr < 1.0;
  }

  /** `int(m_period_ns * (duty_cycle_percent / 100.0))`. */
  function DutyNs(period: int, duty: real): int
  {
    Trunc(period as real * (duty / 100.0))
  }

  /** The duty cycle in nanoseconds never exceeds the period: 0 at 0 %, the
      whole period at 100 %. */
  lemma DutyWithinPeriod(period: int, duty: real)
    requires period >= 0 && 0.0 <= duty <= 100.0
    ensures 0 <= DutyNs(period, duty) <= period
    ensures duty == 0.0 ==> DutyNs(period, duty) == 0
    ensures duty == 100.0 ==> DutyNs(period, duty) == period
  {
    var p, d := period as real, duty / 100.0;
    var x := p * d;
    assert 0.0 <= d <= 1.0;
    ProductNonNegative(p, d);
    ProductNonNegative(p, 1.0 - d);
    assert p * (1.0 - d) == p - x;
    assert 0.0 <= x <= p;
    var r := Trunc(x);
    assert r == DutyNs(period, duty);
    assert r as real <= p;
    if duty == 100.0 {
      assert x == p;
    }
  }

  /** A product of two non-negative reals is not negative. */
  lemma ProductNonNegative(a: real, b: real)
    requires a >= 0.0 && b >= 0.0
    ensures a * b >= 0.0
  {
  }

  /** The text the object's `duty_cycle` stream reads for the line at
      `path` ("" when the line does not exist and the stream is not open). */
  function DutyText(k: Kernel, path: string): string
  {
    if path in k.pwmLines then k.pwmLines[path].duty else ""
  }

  /** `hw_set_pwm_duty_cycle`: a duty cycle of 0 is not written when the file
      already reads "0" once stripped; every other value is written. */
  function DutyWrites(current: string, ns: int): (ws: seq<PwmWrite>)
    ensures ws == [] <==> ns == 0 && Stripped(current) == "0"
    ensures ws != [] ==> ws == [Duty(ns)]
  {
    if ns == 0 && Stripped(current) == "0" then [] else [Duty(ns)]
  }

  /** The duty cycle file shows `ns`: it holds its numeral, or it holds 0
      (possibly with white space) and `ns` is 0. */
  predicate DutyShows(text: string, ns: int)
  {
    text == IntToString(ns) || (ns == 0 && Stripped(text) == "0")
  }

  /** After `hw_set_pwm_duty_cycle` the file shows the value asked for. */
  lemma DutyWritesShow(line: PwmLine, ns: int)
    ensures DutyShows(ApplyPwmWrites(line, DutyWrites(line.duty, ns)).duty, ns)
  {
    var ws := DutyWrites(line.duty, ns);
    if ws != [] {
      assert ws[1..] == [];
      assert ApplyPwmWrites(line, ws) == ApplyPwmWrite(line, Duty(ns));
    }
  }

  /** A frequency change is a start or a frequency other than the current
      one. */
  predicate FrequencyChange(frequency: int, f: int, start: bool)
  {
    start || f != frequency
  }

  /** The writes `_reconfigure` makes, in order: disable when a running line
      changes frequency or is restarted, the new period on a frequency
      change, enable when it was stopped or a start is asked for, and last
      the duty cycle. */
  function ReconfigureWrites(started: bool, frequency: int, periodNs: int, f: int, duty: real, start: bool,
                             dutyText: string): seq<PwmWrite>
    requires FrequencyChange(frequency, f, start) ==> f != 0
  {
    var freqChange := FrequencyChange(frequency, f, start);
    var stop := started && freqChange;
    var period := if freqChange then PeriodNs(f) else periodNs;
    (if stop then [Disable] else []) + (if freqChange then [Period(period)] else []) +
    (if stop || start then [Enable] else []) + DutyWrites(dutyText, DutyNs(period, duty))
  }

  /** What `_reconfigure` writes: disable exactly when a running line
      changes frequency or is restarted, a period exactly on a frequency
      change (and then the period of the new frequency), enable exactly when
      it was stopped or a start is asked for, and at most four writes. */
  lemma ReconfigureWritesContents(started: bool, frequency: int, periodNs: int, f: int, duty: real, start: bool,
                                  dutyText: string)
    requires FrequencyChange(frequency, f, start) ==> f != 0
    ensures var freqChange := FrequencyChange(frequency, f, start);
            var ws := ReconfigureWrites(started, frequency, periodNs, f, duty, start, dutyText);
            (Disable in ws <==> started && freqChange) &&
            (Enable in ws <==> (started && freqChange) || start) &&
            ((exists i :: 0 <= i < |ws| && ws[i].Period?) <==> freqChange) &&
            (freqChange ==> Period(PeriodNs(f)) in ws) &&
            |ws| <= 4
  {
    var freqChange := FrequencyChange(frequency, f, start);
    var period := if freqChange then PeriodNs(f) else periodNs;
    var dw := DutyWrites(dutyText, DutyNs(period, duty));
    var head := (if started && freqChange then [Disable] else []) + (if freqChange then [Period(period)] else []) +
                (if (started && freqChange) || start then [Enable] else []);
    var ws := ReconfigureWrites(started, frequency, periodNs, f, duty, start, dutyText);
    assert ws == head + dw;
    assert forall i :: 0 <= i < |dw| ==> dw[i].Duty?;
    if freqChange {
      assert ws[if started then 1 else 0] == Period(PeriodNs(f));
    } else {
      assert forall i :: 0 <= i < |ws| ==> ws[i] in head || ws[i].Duty?;
    }
  }

  /** A change of the duty cycle alone writes the duty cycle and nothing
      else, and nothing at all when it is 0 and the file reads 0. */
  lemma DutyOnlyChange(started: bool, frequency: int, periodNs: int, duty: real, dutyText: string)
    ensures var ws := ReconfigureWrites(started, frequency, periodNs, frequency, duty, false, dutyText);
            ws == DutyWrites(dutyText, DutyNs(periodNs, duty)) &&
            forall i :: 0 <= i < |ws| ==> ws[i].Duty?
  {
  }

  /** A start writes, in order: disable (only when the line runs), the
      period of the frequency, enable and then the duty cycle. */
  lemma StartOrder(started: bool, frequency: int, periodNs: int, f: int, duty: real, dutyText: string)
    requires f != 0
    ensures ReconfigureWrites(started, frequency, periodNs, f, duty, true, dutyText) ==
            (if started then [Disable] else []) + [Period(PeriodNs(f)), Enable] +
            DutyWrites(dutyText, DutyNs(PeriodNs(f), duty))
  {
  }

  /** The writes of `_reconfigure` are those of its first half (disable and
      period) followed by those of its second (enable and duty cycle). */
  lemma ReconfigureWritesSplit(started: bool, frequency: int, periodNs: int, f: int, duty: real, start: bool,
                               dutyText: string)
    requires FrequencyChange(frequency, f, start) ==> f != 0
    ensures var freqChange := FrequencyChange(frequency, f, start);
            var period := if freqChange then PeriodNs(f) else periodNs;
            ReconfigureWrites(started, frequency, periodNs, f, duty, start, dutyText) ==
            ((if started && freqChange then [Disable] else []) + (if freqChange then [Period(PeriodNs(f))] else [])) +
            ((if (started && freqChange) || start then [Enable] else []) + DutyWrites(dutyText, DutyNs(period, duty)))
  {
    var freqChange := FrequencyChange(frequency, f, start);
    var a: seq<PwmWrite> := if started && freqChange then [Disable] else [];
    var b: seq<PwmWrite> := if freqChange then [Period(PeriodNs(f))] else [];
    var c: seq<PwmWrite> := if (started && freqChange) || start then [Enable] else [];
    var period := if freqChange then PeriodNs(f) else periodNs;
    assert a + b + c + DutyWrites(dutyText, DutyNs(period, duty)) == (a + b) + (c + DutyWrites(dutyText, DutyNs(period, duty)));
  }

  /** What `_reconfigure` leaves in an exported line: the new period after a
      frequency change (the old one otherwise), the output enabled after a
      start or a restart (unchanged otherwise), and a duty cycle file that
      shows the duty cycle of the period. */
  lemma ReconfigureEffect(line: PwmLine, started: bool, frequency: int, periodNs: int, f: int, duty: real, start: bool)
    requires FrequencyChange(frequency, f, start) ==> f != 0
    ensures var freqChange := FrequencyChange(frequency, f, start);
            var period := if freqChange then PeriodNs(f) else periodNs;
            var after := ApplyPwmWrites(line, ReconfigureWrites(started, frequency, periodNs, f, duty, start, line.duty));
            after.period == (if freqChange then PeriodNs(f) else line.period) &&
            (if (started && freqChange) || start then after.enabled else after.enabled == line.enabled) &&
            DutyShows(after.duty, DutyNs(period, duty))
  {
    var freqChange := FrequencyChange(frequency, f, start);
    var stop := started && freqChange;
    var period := if freqChange then PeriodNs(f) else periodNs;
    var a: seq<PwmWrite> := if stop then [Disable] else [];
    var b: seq<PwmWrite> := if freqChange then [Period(period)] else [];
    var c: seq<PwmWrite> := if stop || start then [Enable] else [];
    var d := DutyWrites(line.duty, DutyNs(period, duty));
    assert ReconfigureWrites(started, frequency, periodNs, f, duty, start, line.duty) == a + b + c + d;
    ApplyPwmWritesConcat(line, a + b + c, d);
    ApplyPwmWritesConcat(line, a + b, c);
    ApplyPwmWritesConcat(line, a, b);
    var l1 := ApplyPwmWrites(line, a);
    var l2 := ApplyPwmWrites(l1, b);
    var l3 := ApplyPwmWrites(l2, c);
    assert a != [] ==> a[1..] == [] && l1 == line.(enabled := false);
    assert b != [] ==> b[1..] == [] && l2 == l1.(period := period);
    assert c != [] ==> c[1..] == [] && l3 == l2.(enabled := true);
    assert l3.duty == line.duty && l3.period == (if freqChange then period else line.period);
    DutyWritesShow(l3, DutyNs(period, duty));
    var after := ApplyPwmWrites(l3, d);
    assert d != [] ==> d[1..] == [] && after == l3.(duty := IntToString(DutyNs(period, duty)));
  }

  /** Two maps that agree away from `k` agree once `k` is set. */
  lemma SameUpdate<K, V>(a: map<K, V>, b: map<K, V>, k: K, v: V)
    requires a - {k} == b - {k}
    ensures a[k := v] == b[k := v]
  {
    forall x | x != k
      ensures x in a <==> x in b
      ensures x in a ==> a[x] == b[x]
    {
      assert x in a <==> x in a - {k};
      assert x in b <==> x in b - {k};
      if x in a {
        assert (a - {k})[x] == a[x];
        assert (b - {k})[x] == b[x];
      }
    }
  }

  /** `GpioPwmIfHw`: the PWM object of one channel. */
  class HardPwm {
    /** The registry whose kernel the object writes to. */
    const reg: Registry
    const info: ChannelInfo
    var frequency: int
    var dutyPercent: real
    var started: bool
    var periodNs: int
    var dutyNs: int
    /** Every write the object has made to the line's attribute files. */
    var writes: seq<PwmWrite>

    /** The duty cycle is a percentage and the duty cycle in nanoseconds is
        that share of the period. */
    predicate Valid()
      reads this
    {
      0.0 <= dutyPercent <= 100.0 && dutyNs == DutyNs(periodNs, dutyPercent)
    }

    /** The period is that of the frequency. */
    predicate Tuned()
      reads this
    {
      frequency != 0 && periodNs == PeriodNs(frequency)
    }

    /** The line's directory. */
    function Path(): string
    {
      PwmPath(info)
    }

    /** The fields as `GpioPwmIf` and `GpioPwmIfHw` initialise them. */
    constructor Init(r: Registry, ch: ChannelInfo)
      ensures reg == r && info == ch && Valid()
      ensures frequency == 0 && dutyPercent == 0.0 && !started && periodNs == 0 && dutyNs == 0 && writes == []
    {
      reg := r;
      info := ch;
      frequency := 0;
      dutyPercent := 0.0;
      started := false;
      periodNs := 0;
      dutyNs := 0;
      writes := [];
    }

    /** `GpioPwmIfHw(channel, frequency_hz)`.  The channel must have a PWM
        line and the frequency must be positive; these checks come before the
        constructor's handler, so their errors propagate to the caller and
        nothing is cleaned up.
        A channel already driven by a hardware PWM is refused, and a channel
        set up as a GPIO is cleaned up first.  The line is exported and its
        duty cycle set to 0, the period of the frequency is written, and the
        channel is recorded as `HARD_PWM`; a failure from the export on is
        passed back to the caller after every channel is cleaned up. */
    static method Create(reg: Registry, channel: int, f: int, access: nat -> bool) returns (r: Result<HardPwm>)
      modifies reg`kernel, reg`configuration, reg`eventsCleaned, reg`mode
      requires reg.Valid()
      ensures reg.Valid()
      ensures old(reg.ChannelToInfo(IntToString(channel), false, true)).Err? ==>
                r == Err(old(reg.ChannelToInfo(IntToString(channel), false, true)).error) && unchanged(reg)
      ensures old(reg.ChannelToInfo(IntToString(channel), false, true)).Ok? && f <= 0 ==>
                r == Err(InvalidFrequency) && unchanged(reg)
      ensures old(reg.ChannelToInfo(IntToString(channel), false, true)).Ok? && f > 0 &&
              old(reg.AppChannelConfiguration(reg.channelData[IntToString(channel)])) == Direction.HARD_PWM ==>
                r == Err(DuplicatePwm) &&
                reg.AllCleanedFrom(old(reg.kernel), old(reg.ConfiguredLines()), old(reg.eventsCleaned))
      ensures old(reg.ChannelToInfo(IntToString(channel), false, true)).Ok? && f > 0 &&
              old(reg.AppChannelConfiguration(reg.channelData[IntToString(channel)])) != Direction.HARD_PWM ==>
                var ch := old(reg.channelData[IntToString(channel)]);
                (r.Ok? <==> (PwmPath(ch) in old(reg.kernel).pwmLines || ch.pwmChipDir in old(reg.kernel).pwmChips) &&
                            exists i :: 0 <= i < POLL_CHECKS && access(i)) &&
                (r.Err? ==> r.error == (if PwmPath(ch) in old(reg.kernel).pwmLines || ch.pwmChipDir in old(reg.kernel).pwmChips
                                        then PermissionDenied else CannotOpen) &&
                            reg.configuration == map[] && reg.mode == None)
      ensures r.Ok? ==>
                var p := r.value;
                fresh(p) && p.reg == reg && p.info == old(reg.channelData[IntToString(channel)]) &&
                p.Valid() && p.Tuned() && p.frequency == f && p.dutyPercent == 0.0 && p.dutyNs == 0 && !p.started &&
                reg.mode == old(reg.mode) &&
                reg.configuration == old(reg.configuration)[IntToString(channel) := Direction.HARD_PWM] &&
                p.Path() in reg.kernel.pwmLines &&
                reg.kernel.pwmLines[p.Path()].period == PeriodNs(f) &&
                DutyShows(reg.kernel.pwmLines[p.Path()].duty, 0)
      ensures r.Ok? ==>
                var ch := old(reg.channelData[IntToString(channel)]);
                var cfg := old(reg.AppChannelConfiguration(ch));
                if cfg == Direction.IN || cfg == Direction.OUT then
                  reg.kernel.exported == old(reg.kernel).exported - {ch.gpio} &&
                  reg.eventsCleaned == old(reg.eventsCleaned) + {ch.gpio}
                else
                  reg.kernel.exported == old(reg.kernel).exported && reg.eventsCleaned == old(reg.eventsCleaned)
    {
      var prepared := Prepare(reg, channel, f);
      if prepared.Err? {
        return Err(prepared.error);
      }
      ghost var c1 := reg.configuration;
      r := Bring(reg, prepared.value, f, access);
      SameUpdate(c1, old(reg.configuration), IntToString(channel), Direction.HARD_PWM);
    }

    /** The checks of the constructor and the clean-up of a GPIO channel;
        the result is the channel's data. */
    static method Prepare(reg: Registry, channel: int, f: int) returns (r: Result<ChannelInfo>)
      modifies reg`kernel, reg`configuration, reg`eventsCleaned, reg`mode
      requires reg.Valid()
      ensures reg.Valid()
      ensures old(reg.ChannelToInfo(IntToString(channel), false, true)).Err? ==>
                r == Err(old(reg.ChannelToInfo(IntToString(channel), false, true)).error) && unchanged(reg)
      ensures old(reg.ChannelToInfo(IntToString(channel), false, true)).Ok? && f <= 0 ==>
                r == Err(InvalidFrequency) && unchanged(reg)
      ensures old(reg.ChannelToInfo(IntToString(channel), false, true)).Ok? && f > 0 &&
              old(reg.AppChannelConfiguration(reg.channelData[IntToString(channel)])) == Direction.HARD_PWM ==>
                r == Err(DuplicatePwm) &&
                reg.AllCleanedFrom(old(reg.kernel), old(reg.ConfiguredLines()), old(reg.eventsCleaned))
      ensures old(reg.ChannelToInfo(IntToString(channel), false, true)).Ok? && f > 0 &&
              old(reg.AppChannelConfiguration(reg.channelData[IntToString(channel)])) != Direction.HARD_PWM ==>
                r == Ok(old(reg.channelData[IntToString(channel)])) && reg.mode == old(reg.mode) &&
                reg.mode != None && IntToString(channel) in reg.channelData && r.value.channel == IntToString(channel) &&
                reg.configuration - {IntToString(channel)} == old(reg.configuration) - {IntToString(channel)} &&
                reg.kernel.pwmLines == old(reg.kernel).pwmLines && reg.kernel.pwmChips == old(reg.kernel).pwmChips
      ensures old(reg.ChannelToInfo(IntToString(channel), false, true)).Ok? && f > 0 ==>
                var ch := old(reg.channelData[IntToString(channel)]);
                var cfg := old(reg.AppChannelConfiguration(ch));
                (cfg == Direction.IN || cfg == Direction.OUT ==>
                   reg.kernel == UnexportLine(old(reg.kernel), ch.gpio) &&
                   reg.eventsCleaned == old(reg.eventsCleaned) + {ch.gpio} &&
                   reg.configuration == old(reg.configuration) - {IntToString(channel)}) &&
                (cfg != Direction.IN && cfg != Direction.OUT && cfg != Direction.HARD_PWM ==> unchanged(reg))
    {
      var name := IntToString(channel);
      var info := reg.ChannelToInfo(name, false, true);
      if info.Err? {
        return Err(info.error);
      }
      if f <= 0 {
        return Err(InvalidFrequency);
      }
      var ch := info.value;
      var cfg := reg.AppChannelConfiguration(ch);
      if cfg == Direction.HARD_PWM {
        reg.CleanupAll();
        return Err(DuplicatePwm);
      }
      if cfg == Direction.IN || cfg == Direction.OUT {
        var _ := reg.CleanupInt(channel);
      }
      return Ok(ch);
    }

    /** The constructor from the export on. */
    static method Bring(reg: Registry, ch: ChannelInfo, f: int, access: nat -> bool) returns (r: Result<HardPwm>)
      modifies reg`kernel, reg`configuration, reg`eventsCleaned, reg`mode
      requires reg.Valid() && reg.mode != None && ch.channel in reg.channelData && f > 0
      ensures reg.Valid()
      ensures r.Ok? <==> (PwmPath(ch) in old(reg.kernel).pwmLines || ch.pwmChipDir in old(reg.kernel).pwmChips) &&
                         exists i :: 0 <= i < POLL_CHECKS && access(i)
      ensures r.Err? ==> r.error == (if PwmPath(ch) in old(reg.kernel).pwmLines || ch.pwmChipDir in old(reg.kernel).pwmChips
                                     then PermissionDenied else CannotOpen) &&
                         reg.configuration == map[] && reg.mode == None
      ensures r.Ok? ==>
                var p := r.value;
                fresh(p) && p.reg == reg && p.info == ch &&
                p.Valid() && p.Tuned() && p.frequency == f && p.dutyPercent == 0.0 && p.dutyNs == 0 && !p.started &&
                reg.mode == old(reg.mode) &&
                reg.configuration == old(reg.configuration)[ch.channel := Direction.HARD_PWM] &&
                p.Path() in reg.kernel.pwmLines &&
                reg.kernel.pwmLines[p.Path()].period == PeriodNs(f) &&
                DutyShows(reg.kernel.pwmLines[p.Path()].duty, 0)
      ensures r.Ok? ==> reg.kernel.exported == old(reg.kernel).exported && reg.eventsCleaned == old(reg.eventsCleaned)
    {
      var p := new HardPwm.Init(reg, ch);
      var o := p.Export(access);
      if o.Fail? {
        reg.CleanupAll();
        return Err(o.error);
      }
      p.Tune(f);
      reg.Configure(ch.channel, Direction.HARD_PWM);
      return Ok(p);
    }

    /** The constructor's writes to an exported line: the duty cycle set to
        0, then the period of the frequency (the frequency field is first set
        to its negation so that `_reconfigure` sees a change). */
    method Tune(f: int)
      modifies this, reg`kernel
      requires reg.Valid() && Valid() && f > 0 && !started && periodNs == 0 && Path() in reg.kernel.pwmLines
      ensures reg.Valid() && Valid() && Tuned()
      ensures frequency == f && dutyPercent == 0.0 && dutyNs == 0 && !started
      ensures Path() in reg.kernel.pwmLines && reg.kernel.pwmLines[Path()].period == PeriodNs(f)
      ensures DutyShows(reg.kernel.pwmLines[Path()].duty, 0)
      ensures reg.kernel.exported == old(reg.kernel).exported
    {
      ZeroDuty();
      ghost var line1 := reg.kernel.pwmLines[Path()];
      frequency := -f;
      var o := Reconfigure(f, 0.0, false);
      PeriodIsTruncatedQuotient(f);
      DutyWithinPeriod(PeriodNs(f), 0.0);
      ReconfigureEffect(line1, false, -f, 0, f, 0.0, false);
    }

    /** The duty cycle file of an exported line set to 0. */
    method ZeroDuty()
      modifies this`writes, reg`kernel
      requires reg.Valid() && Path() in reg.kernel.pwmLines
      ensures reg.Valid() && Path() in reg.kernel.pwmLines
      ensures var line0 := old(reg.kernel).pwmLines[Path()];
              reg.kernel.pwmLines[Path()] == ApplyPwmWrites(line0, DutyWrites(line0.duty, 0))
      ensures DutyShows(reg.kernel.pwmLines[Path()].duty, 0)
      ensures reg.kernel.exported == old(reg.kernel).exported
    {
      ghost var line0 := reg.kernel.pwmLines[Path()];
      SetDuty(0);
      DutyWritesShow(line0, 0);
    }

    /** One write to an attribute file of the line. */
    method Write(w: PwmWrite)
      modifies this`writes, reg`kernel
      ensures writes == old(writes) + [w]
      ensures reg.kernel == WritePwm(old(reg.kernel), Path(), w)
    {
      writes := writes + [w];
      reg.kernel := WritePwm(reg.kernel, PwmPath(info), w);
    }

    /** The new frequency and its period, written to `period`. */
    method SetPeriod(f: int)
      modifies this`frequency, this`periodNs, this`writes, reg`kernel
      requires f != 0
      ensures frequency == f && periodNs == PeriodNs(f) && Tuned()
      ensures writes == old(writes) + [Period(PeriodNs(f))]
      ensures reg.kernel == WritePwm(old(reg.kernel), Path(), Period(PeriodNs(f)))
    {
      frequency := f;
      periodNs := PeriodNs(f);
      Write(Period(periodNs));
    }

    /** The new duty cycle and its share of the period. */
    method SetDutyPercent(duty: real)
      modifies this`dutyPercent, this`dutyNs
      requires 0.0 <= duty <= 100.0
      ensures dutyPercent == duty && dutyNs == DutyNs(periodNs, duty)
    {
      dutyPercent := duty;
      dutyNs := DutyNs(periodNs, duty);
    }

    /** `hw_set_pwm_duty_cycle`. */
    method SetDuty(ns: int)
      modifies this`writes, reg`kernel
      ensures writes == old(writes) + DutyWrites(DutyText(old(reg.kernel), Path()), ns)
      ensures reg.kernel == WritePwmAll(old(reg.kernel), Path(), DutyWrites(DutyText(old(reg.kernel), Path()), ns))
    {
      var current := DutyText(reg.kernel, PwmPath(info));
      if ns == 0 && Stripped(current) == "0" {
        assert reg.kernel == WritePwmAll(reg.kernel, Path(), []);
        return;
      }
      ghost var k0 := reg.kernel;
      assert k0 == WritePwmAll(k0, Path(), []);
      Write(Duty(ns));
      WritePwmAllAppend(k0, Path(), [], Duty(ns));
      assert [] + [Duty(ns)] == [Duty(ns)];
    }

    /** `hw_export_pwm`: the id is written to the chip's `export` file unless
        the line exists (a file that cannot be opened is an error), then the
        `enable` file is polled until it is readable and writable. */
    method Export(access: nat -> bool) returns (o: Outcome)
      modifies reg`kernel
      ensures Path() !in old(reg.kernel).pwmLines && info.pwmChipDir !in old(reg.kernel).pwmChips ==>
                o == Fail(CannotOpen) && reg.kernel == old(reg.kernel)
      ensures Path() in old(reg.kernel).pwmLines || info.pwmChipDir in old(reg.kernel).pwmChips ==>
                reg.kernel == (if Path() in old(reg.kernel).pwmLines then old(reg.kernel)
                               else ExportPwmLine(old(reg.kernel), Path())) &&
                (o.Pass? <==> exists i :: 0 <= i < POLL_CHECKS && access(i)) &&
                (o.Fail? ==> o.error == PermissionDenied)
    {
      if PwmPath(info) !in reg.kernel.pwmLines {
        if info.pwmChipDir !in reg.kernel.pwmChips {
          return Fail(CannotOpen);
        }
        reg.kernel := ExportPwmLine(reg.kernel, PwmPath(info));
      }
      var ok, _ := PollAccess(access);
      if !ok {
        return Fail(PermissionDenied);
      }
      return Pass;
    }

    /** `hw_unexport_pwm`: the id is written to the chip's `unexport` file
        and the line disappears. */
    method Unexport()
      modifies reg`kernel
      ensures reg.kernel == UnexportPwmLine(old(reg.kernel), Path())
      ensures Path() !in reg.kernel.pwmLines
    {
      reg.kernel := UnexportPwmLine(reg.kernel, PwmPath(info));
    }

    /** The first half of `_reconfigure`: a running line whose frequency
        changes is stopped and disabled, and a new frequency's period is
        written. */
    method Retime(f: int, freqChange: bool)
      modifies this`started, this`frequency, this`periodNs, this`writes, reg`kernel
      requires freqChange ==> f != 0
      ensures started == (old(started) && !freqChange)
      ensures frequency == (if freqChange then f else old(frequency))
      ensures periodNs == (if freqChange then PeriodNs(f) else old(periodNs))
      ensures var ws := (if old(started) && freqChange then [Disable] else []) +
                        (if freqChange then [Period(PeriodNs(f))] else []);
              writes == old(writes) + ws && reg.kernel == WritePwmAll(old(reg.kernel), Path(), ws)
      ensures DutyText(reg.kernel, Path()) == DutyText(old(reg.kernel), Path())
    {
      ghost var k0 := reg.kernel;
      ghost var a: seq<PwmWrite> := if started && freqChange then [Disable] else [];
      if started && freqChange {
        started := false;
        Write(Disable);
      }
      ghost var k1 := reg.kernel;
      ghost var b: seq<PwmWrite> := if freqChange then [Period(PeriodNs(f))] else [];
      if freqChange {
        SetPeriod(f);
      }
      WritePwmAllShort(k0, Path(), Disable);
      if freqChange {
        WritePwmAllShort(k1, Path(), Period(PeriodNs(f)));
      }
      assert k1 == WritePwmAll(k0, Path(), a);
      assert reg.kernel == WritePwmAll(k1, Path(), b);
      WritePwmAllConcat(k0, Path(), a, b);
    }

    /** The second half of `_reconfigure`: the new duty cycle, the output
        enabled when it is to run again, and the duty cycle written. */
    method Resume(duty: real, restart: bool)
      modifies this`started, this`dutyPercent, this`dutyNs, this`writes, reg`kernel
      requires 0.0 <= duty <= 100.0
      ensures started == (old(started) || restart)
      ensures dutyPercent == duty && dutyNs == DutyNs(periodNs, duty)
      ensures var ws := (if restart then [Enable] else []) +
                        DutyWrites(DutyText(old(reg.kernel), Path()), DutyNs(periodNs, duty));
              writes == old(writes) + ws && reg.kernel == WritePwmAll(old(reg.kernel), Path(), ws)
    {
      ghost var k0, text := reg.kernel, DutyText(reg.kernel, Path());
      SetDutyPercent(duty);
      ghost var c: seq<PwmWrite> := if restart then [Enable] else [];
      if restart {
        Write(Enable);
        started := true;
      }
      ghost var k1 := reg.kernel;
      assert DutyText(k1, Path()) == text;
      SetDuty(dutyNs);
      WritePwmAllShort(k0, Path(), Enable);
      assert k1 == WritePwmAll(k0, Path(), c);
      WritePwmAllConcat(k0, Path(), c, DutyWrites(text, dutyNs));
    }

    /** `_reconfigure`: a duty cycle outside 0..100 is refused before any
        write (and so, here, is a frequency change to 0 Hz).  Otherwise the
        line is written as `ReconfigureWrites` says and the fields follow. */
    method Reconfigure(f: int, duty: real, start: bool) returns (o: Outcome)
      modifies this, reg`kernel
      requires Valid()
      ensures Valid()
      ensures o.Fail? <==> duty < 0.0 || duty > 100.0 || (FrequencyChange(old(frequency), f, start) && f == 0)
      ensures o.Fail? ==> o.error == (if duty < 0.0 || duty > 100.0 then InvalidDutyCycle else InvalidFrequency)
      ensures o.Fail? ==> unchanged(this) && reg.kernel == old(reg.kernel)
      ensures o.Pass? ==>
                var ws := ReconfigureWrites(old(started), old(frequency), old(periodNs), f, duty, start,
                                            DutyText(old(reg.kernel), Path()));
                writes == old(writes) + ws && reg.kernel == WritePwmAll(old(reg.kernel), Path(), ws)
      ensures o.Pass? ==> frequency == f && dutyPercent == duty && started == (old(started) || start)
      ensures o.Pass? ==> periodNs == (if FrequencyChange(old(frequency), f, start) then PeriodNs(f) else old(periodNs))
      ensures o.Pass? && (FrequencyChange(old(frequency), f, start) || old(Tuned())) ==> Tuned()
    {
      if duty < 0.0 || duty > 100.0 {
        return Fail(InvalidDutyCycle);
      }
      var freqChange := start || f != frequency;
      if freqChange && f == 0 {
        return Fail(InvalidFrequency);
      }
      Rewrite(f, duty, start);
      return Pass;
    }

    /** `_reconfigure` once its checks have passed. */
    method Rewrite(f: int, duty: real, start: bool)
      modifies this`started, this`frequency, this`periodNs, this`dutyPercent, this`dutyNs, this`writes, reg`kernel
      requires Valid() && 0.0 <= duty <= 100.0 && (FrequencyChange(frequency, f, start) ==> f != 0)
      ensures Valid()
      ensures var ws := ReconfigureWrites(old(started), old(frequency), old(periodNs), f, duty, start,
                                          DutyText(old(reg.kernel), Path()));
              writes == old(writes) + ws && reg.kernel == WritePwmAll(old(reg.kernel), Path(), ws)
      ensures frequency == f && dutyPercent == duty && started == (old(started) || start)
      ensures periodNs == (if FrequencyChange(old(frequency), f, start) then PeriodNs(f) else old(periodNs))
    {
      var freqChange := start || f != frequency;
      var stop := started && freqChange;
      ghost var k0, text := reg.kernel, DutyText(reg.kernel, Path());
      ghost var w0 := writes;
      ReconfigureWritesSplit(started, frequency, periodNs, f, duty, start, text);
      ghost var ab: seq<PwmWrite> := (if stop then [Disable] else []) + (if freqChange then [Period(PeriodNs(f))] else []);
      Retime(f, freqChange);
      ghost var k1, w1 := reg.kernel, writes;
      ghost var cd: seq<PwmWrite> := (if stop || start then [Enable] else []) + DutyWrites(text, DutyNs(periodNs, duty));
      Resume(duty, stop || start);
      assert writes == w1 + cd && w1 == w0 + ab;
      ConcatAssociative(w0, ab, cd);
      assert reg.kernel == WritePwmAll(k1, Path(), cd) && k1 == WritePwmAll(k0, Path(), ab);
      WritePwmAllConcat(k0, Path(), ab, cd);
    }

    /** `start`: the line is (re)started at its frequency; a refusal of
        `_reconfigure` is passed back to the caller after every channel is
        cleaned up. */
    method Start() returns (o: Outcome)
      modifies this, reg`kernel, reg`configuration, reg`eventsCleaned, reg`mode
      requires Valid() && reg.Valid()
      ensures Valid() && reg.Valid()
      ensures o.Pass? <==> old(frequency) != 0
      ensures o.Pass? ==>
                var ws := ReconfigureWrites(old(started), old(frequency), old(periodNs), old(frequency), old(dutyPercent),
                                            true, DutyText(old(reg.kernel), Path()));
                writes == old(writes) + ws && reg.kernel == WritePwmAll(old(reg.kernel), Path(), ws) &&
                started && Tuned()
      ensures o.Fail? ==> o.error == InvalidFrequency &&
                          reg.AllCleanedFrom(old(reg.kernel), old(reg.ConfiguredLines()), old(reg.eventsCleaned))
    {
      o := Reconfigure(frequency, dutyPercent, true);
      if o.Fail? {
        reg.CleanupAll();
      }
    }

    /** `stop`: nothing when the line was never started; otherwise the
        output is disabled, and `started` stays set. */
    method Stop()
      modifies this`writes, reg`kernel
      requires Valid()
      ensures Valid()
      ensures writes == old(writes) + (if started then [Disable] else [])
      ensures reg.kernel == (if started then WritePwm(old(reg.kernel), Path(), Disable) else old(reg.kernel))
      ensures started ==> Path() in reg.kernel.pwmLines ==> !reg.kernel.pwmLines[Path()].enabled
    {
      if !started {
        return;
      }
      Write(Disable);
    }

    /** `~GpioPwmIfHw()` stops the line. */
    method Destroy()
      modifies this`writes, reg`kernel
      requires Valid()
      ensures Valid()
      ensures writes == old(writes) + (if started then [Disable] else [])
      ensures reg.kernel == (if started then WritePwm(old(reg.kernel), Path(), Disable) else old(reg.kernel))
    {
      Stop();
    }
  }
}
