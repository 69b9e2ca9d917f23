/** Software PWM: a worker thread toggles a GPIO output, HIGH for the on
    time and LOW for the off time of each period.  The worker is modelled
    sequentially: `started` is true while it runs, `Stop` waits for it to
    end, and `RunCycle` is one pass of its loop, logged in `levels`.

    The class carries both the source's `start`/`_reconfigure` and the
    corrected ones (see README, Findings); the rest of the model uses
    `Start` and `Reconfigure`. */
module SoftwarePwm {
  import opened Errors
  import opened GpioTypes
  import opened PinCatalog

  /** `static_cast<long>` of a real: truncation toward zero. */
  function Trunc(x: real): (r: int)
    ensures x >= 0.0 ==> 0 <= r && r as real <= x < r as real + 1.0
    ensures x < 0.0 ==> r <= 0 && r as real - 1.0 < x <= r as real
  {
    if x >= 0.0 then x.Floor else -((-x).Floor)
  }

  /** Length of a period in milliseconds at `f` Hz. */
  function BaseTime(f: int): real
    requires f > 0
  {
    1000.0 / f as real
  }

  /** Length of one percent of a period in milliseconds. */
  function SliceTime(f: int): real
    requires f > 0
  {
    BaseTime(f) / 100.0
  }

  /** On time in microseconds for `duty` percent of slices of `slice` ms. */
  function OnMicros(duty: real, slice: real): int
  {
    Trunc((duty * slice) * 1000.0)
  }

  /** Off time in microseconds: the remaining percent. */
  function OffMicros(duty: real, slice: real): int
  {
    Trunc(((100.0 - duty) * slice) * 1000.0)
  }

  /** With the slice time of `f`, the on and off times together are the
      period of `f` in microseconds, less at most the two truncations; a
      duty cycle of 0 has no on time and one of 100 no off time. */
  lemma CycleFitsPeriod(f: int, duty: real)
    requires f > 0
    requires 0.0 <= duty <= 100.0
    ensures var on, off := OnMicros(duty, SliceTime(f)), OffMicros(duty, SliceTime(f));
            on >= 0 && off >= 0 &&
            (on + off) as real <= 1000000.0 / f as real < (on + off) as real + 2.0
    ensures duty == 0.0 ==> OnMicros(duty, SliceTime(f)) == 0
    ensures duty == 100.0 ==> OffMicros(duty, SliceTime(f)) == 0
  {
    var s := SliceTime(f);
    assert s > 0.0;
    var a, b := (duty * s) * 1000.0, ((100.0 - duty) * s) * 1000.0;
    assert a >= 0.0 && b >= 0.0;
    assert a + b == 100000.0 * s;
    assert 100000.0 * s == 1000000.0 / f as real;
  }

  class SoftPwm {
    /** The channel the worker drives. */
    const info: ChannelInfo
    var frequency: int
    var dutyPercent: real
    var started: bool
    var stopThread: bool
    /** Period and one percent of it, in milliseconds. */
    var basetime: real
    var slicetime: real
    /** On and off times in microseconds. */
    var onTime: int
    var offTime: int
    /** Every level the worker has written to the channel, in order. */
    var levels: seq<int>

    /** A running worker has not been asked to stop, and the duty cycle is a
        percentage. */
    predicate Valid()
      reads this
    {
      (started ==> !stopThread) && 0.0 <= dutyPercent <= 100.0
    }

    /** The timing fields agree with the frequency and the duty cycle. */
    predicate Timed()
      reads this
    {
      frequency > 0 &&
      basetime == BaseTime(frequency) && slicetime == SliceTime(frequency) &&
      onTime == OnMicros(dutyPercent, slicetime) && offTime == OffMicros(dutyPercent, slicetime)
    }

    constructor Init(ch: ChannelInfo, f: int)
      requires f > 0
      ensures info == ch && frequency == f && dutyPercent == 0.0
      ensures !started && !stopThread && levels == []
      ensures Valid() && Timed()
    {
      info := ch;
      frequency := f;
      dutyPercent := 0.0;
      started := false;
      stopThread := false;
      basetime := BaseTime(f);
      slicetime := SliceTime(f);
      onTime := OnMicros(0.0, SliceTime(f));
      offTime := OffMicros(0.0, SliceTime(f));
      levels := [];
    }

    /** The constructor: a frequency that is not positive is refused. */
    static method Create(ch: ChannelInfo, f: int) returns (r: Result<SoftPwm>)
      ensures r.Err? <==> f <= 0
      ensures r.Err? ==> r.error == InvalidFrequency
      ensures r.Ok? ==> fresh(r.value) && r.value.info == ch && r.value.frequency == f
      ensures r.Ok? ==> r.value.dutyPercent == 0.0 && !r.value.started && !r.value.stopThread
      ensures r.Ok? ==> r.value.levels == [] && r.value.Valid() && r.value.Timed()
    {
      if f <= 0 {
        return Err(InvalidFrequency);
      }
      var p := new SoftPwm.Init(ch, f);
      return Ok(p);
    }

    /** `calculate_times`. */
    method CalculateTimes()
      modifies this`onTime, this`offTime
      ensures onTime == OnMicros(dutyPercent, slicetime)
      ensures offTime == OffMicros(dutyPercent, slicetime)
    {
      onTime := Trunc((dutyPercent * slicetime) * 1000.0);
      offTime := Trunc(((100.0 - dutyPercent) * slicetime) * 1000.0);
    }

    /** One pass of the worker's loop: HIGH for the on time, then LOW for the
        off time; a worker that is not running writes nothing. */
    method RunCycle()
      modifies this`levels
      ensures levels == old(levels) + (if started then [HIGH, LOW] else [])
    {
      if started {
        levels := levels + [HIGH, LOW];
      }
    }

    /** `stop`: a running worker is told to stop and waited for. */
    method Stop()
      modifies this`started, this`stopThread
      requires Valid()
      ensures Valid()
      ensures !started
      ensures stopThread == (old(stopThread) || old(started))
    {
      if started {
        stopThread := true;
        started := false;
      }
    }

    /** The destructor: the worker is stopped. */
    method Destroy()
      modifies this`started, this`stopThread
      requires Valid()
      ensures Valid()
      ensures !started
      ensures stopThread == (old(stopThread) || old(started))
    {
      Stop();
    }

    /** `start` as the source has it: a new worker is launched unless one
        runs, but the stop flag a previous `stop` set is still raised, so the
        new worker leaves its loop at once. */
    method StartAsWritten()
      modifies this`started
      requires Valid()
      ensures Valid()
      ensures started == (old(started) || !stopThread)
    {
      if started {
        return;
      }
      started := !stopThread;
    }

    /** `start` with the stop flag lowered before the worker is launched. */
    method Start()
      modifies this`started, this`stopThread
      requires Valid()
      ensures Valid()
      ensures started && !stopThread
    {
      if started {
        return;
      }
      stopThread := false;
      started := true;
    }

    /** `_reconfigure` as the source has it: the base time follows a new
        frequency, but the slice time the on and off times are computed from
        keeps the value from the constructor. */
    method ReconfigureAsWritten(f: int, duty: real, start: bool) returns (o: Outcome)
      modifies this
      requires Valid()
      ensures Valid()
      ensures levels == old(levels) && slicetime == old(slicetime)
      ensures o.Fail? <==> duty < 0.0 || duty > 100.0
      ensures o.Fail? ==> o.error == InvalidDutyCycle && unchanged(this)
      ensures o.Pass? ==> frequency == f && dutyPercent == duty
      ensures o.Pass? ==> onTime == OnMicros(duty, old(slicetime)) && offTime == OffMicros(duty, old(slicetime))
      ensures o.Pass? ==> var freqChange := start || old(frequency) != f;
                          started == (if old(started) && freqChange then false
                                      else if start then !old(stopThread) else old(started))
      ensures o.Pass? ==> stopThread == (old(stopThread) || (old(started) && (start || old(frequency) != f)))
      ensures o.Pass? && old(Timed()) && f == old(frequency) ==> Timed()
    {
      if duty < 0.0 || duty > 100.0 {
        return Fail(InvalidDutyCycle);
      }
      var freqChange := start || frequency != f;
      var stop := started && freqChange;
      if stop {
        Stop();
      }
      if freqChange {
        frequency := f;
        // 1000.0 / 0 is an IEEE infinity; the base time is never read again
        basetime := if f != 0 then 1000.0 / f as real else basetime;
      }
      dutyPercent := duty;
      CalculateTimes();
      if start || stop {
        StartAsWritten();
      }
      return Pass;
    }

    /** `_reconfigure` with the slice time recomputed for a new frequency
        (and, since the times now depend on it, a new frequency that is not
        positive refused as the constructor refuses it).  It keeps the timing
        fields in step with the frequency and the duty cycle, and a worker
        that ran, or was asked to start, runs afterwards. */
    method Reconfigure(f: int, duty: real, start: bool) returns (o: Outcome)
      modifies this
      requires Valid() && Timed()
      ensures Valid() && Timed()
      ensures levels == old(levels)
      ensures o.Fail? <==> duty < 0.0 || duty > 100.0 || ((start || old(frequency) != f) && f <= 0)
      ensures o.Fail? ==> unchanged(this)
      ensures o.Fail? ==> o.error == (if duty < 0.0 || duty > 100.0 then InvalidDutyCycle else InvalidFrequency)
      ensures o.Pass? ==> frequency == f && dutyPercent == duty
      ensures o.Pass? ==> started == (old(started) || start)
    {
      if duty < 0.0 || duty > 100.0 {
        return Fail(InvalidDutyCycle);
      }
      var freqChange := start || frequency != f;
      if freqChange && f <= 0 {
        return Fail(InvalidFrequency);
      }
      var stop := started && freqChange;
      if stop {
        Stop();
      }
      if freqChange {
        frequency := f;
        basetime := 1000.0 / f as real;
        slicetime := basetime / 100.0;
      }
      dutyPercent := duty;
      CalculateTimes();
      if start || stop {
        Start();
      }
      return Pass;
    }
  }

  /** The channel the examples below drive. */
  function ExampleChannel(): ChannelInfo
  {
    ChannelInfo("29", "/sys/class/gpio", 0, 0, "None", -1)
  }

  /** Changing the frequency of a running PWM with the source's `start`
      stops it: `start(50)` runs the worker, `ChangeFrequency(200)` stops it
      and the worker it launches again exits at once. */
  method RestartAsWrittenExample() returns (runsAfterStart: bool, runsAfterChange: bool)
    ensures runsAfterStart && !runsAfterChange
  {
    var r := SoftPwm.Create(ExampleChannel(), 100);
    var p := r.value;
    var o := p.ReconfigureAsWritten(100, 50.0, true);
    runsAfterStart := p.started;
    o := p.ReconfigureAsWritten(200, 50.0, false);
    runsAfterChange := p.started;
  }

  /** With the source's `start`, a PWM that was started and stopped does not
      run again when it is started a second time. */
  method StopStartAsWrittenExample() returns (runsAfterFirst: bool, runsAfterSecond: bool)
    ensures runsAfterFirst && !runsAfterSecond
  {
    var r := SoftPwm.Create(ExampleChannel(), 100);
    var p := r.value;
    var o := p.ReconfigureAsWritten(100, 50.0, true);
    runsAfterFirst := p.started;
    p.Stop();
    o := p.ReconfigureAsWritten(100, 50.0, true);
    runsAfterSecond := p.started;
  }

  /** The same calls with the corrected `start` leave the worker running at
      the new frequency. */
  method RestartExample() returns (runsAfterStart: bool, runsAfterChange: bool, f: int)
    ensures runsAfterStart && runsAfterChange && f == 200
  {
    var r := SoftPwm.Create(ExampleChannel(), 100);
    var p := r.value;
    var o := p.Reconfigure(100, 50.0, true);
    runsAfterStart := p.started;
    o := p.Reconfigure(200, 50.0, false);
    runsAfterChange := p.started;
    f := p.frequency;
  }

  /** With the source's `_reconfigure`, a PWM built for 100 Hz and changed to
      50 Hz still cycles every 10000 microseconds, not every 20000. */
  method SliceAsWrittenExample() returns (cycle: int, period: int)
    ensures period == 20000 && cycle == 10000
  {
    var r := SoftPwm.Create(ExampleChannel(), 100);
    var p := r.value;
    var o := p.ReconfigureAsWritten(50, 50.0, false);
    cycle := p.onTime + p.offTime;
    period := 1000000 / p.frequency;
  }

  /** With the corrected `_reconfigure` the same calls cycle every 20000
      microseconds. */
  method SliceExample() returns (cycle: int, period: int)
    ensures period == 20000 && cycle == 20000
  {
    var r := SoftPwm.Create(ExampleChannel(), 100);
    var p := r.value;
    var o := p.Reconfigure(50, 50.0, false);
    cycle := p.onTime + p.offTime;
    period := 1000000 / p.frequency;
  }
}
