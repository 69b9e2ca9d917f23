/** Call sequences of client programs and what the registry promises about
    them. */
module Scenarios {
  import opened Errors
  import opened GpioTypes
  import opened PythonFunctions
  import opened PinCatalog
  import opened Sysfs
  import opened Gpio

  /** The channel is a usable GPIO of the current mode and no PWM drives it. */
  predicate UsableGpio(reg: Registry, name: string)
    reads reg
  {
    reg.ChannelToInfo(name, true, false).Ok? && name !in reg.pwmChannels
  }

  /** `setup(channel, OUT, HIGH)` followed by `input(channel)` reads 1. */
  method SetupHighThenInput(reg: Registry, name: string, access: nat -> bool) returns (setUp: Outcome, read: Result<int>)
    modifies reg`kernel, reg`configuration, reg`eventsCleaned, reg`mode
    requires reg.Valid() && UsableGpio(reg, name)
    ensures reg.Valid()
    ensures setUp.Pass? <==> ExportSucceeds(old(reg.kernel), old(reg.channelData[name]).gpio, access)
    ensures setUp.Pass? ==> read == Ok(HIGH)
  {
    setUp := reg.Setup(name, Direction.OUT, HIGH, access);
    read := reg.Input(name);
  }

  /** After `cleanup(channel)` (of one channel, not of all of them),
      `input(channel)` fails: the channel is no longer set up. */
  method CleanupThenInput(reg: Registry, name: string) returns (cleaned: Outcome, read: Result<int>)
    modifies reg`kernel, reg`configuration, reg`eventsCleaned, reg`mode
    requires reg.Valid() && reg.ChannelToInfo(name, true, false).Ok? && name != ALL_CHANNELS
    ensures reg.Valid()
    ensures cleaned.Pass? && read == Err(NotSetUp)
  {
    cleaned := reg.Cleanup(name);
    read := reg.Input(name);
  }

  /** One pin of the all-pins input sample: with the mode set, the pin set
      up as an output and driven to `v`, then set up again as an input, the
      input reads the level written.  This rests on the kernel value keeping a
      line's last written level when the line is set up again as an input; a
      real line would read the pin. */
  method OutputThenInputAgain(reg: Registry, m: NumberingMode, name: string, v: int, access: nat -> bool)
    returns (read: Result<int>)
    modifies reg`kernel, reg`configuration, reg`eventsCleaned, reg`mode, reg`channelData
    requires reg.Valid() && m != None && m in reg.channelDataByMode && (reg.mode == None || reg.mode == m)
    requires name in reg.channelDataByMode[m] && !IsNone(reg.channelDataByMode[m][name].gpioChipDir)
    requires name !in reg.pwmChannels
    requires exists i :: 0 <= i < POLL_CHECKS && access(i)
    ensures reg.Valid()
    ensures read == Ok(OutputLevel(v))
  {
    var o := reg.SetMode(m);
    ghost var gpio := reg.channelData[name].gpio;
    assert reg.ChannelToInfo(name, true, false).Ok?;
    o := reg.Setup(name, Direction.OUT, NO_INITIAL, access);
    assert o.Pass? && gpio in reg.kernel.exported;
    o := reg.Output(name, v);
    assert o.Pass? && ReadValue(reg.kernel, gpio) == OutputLevel(v);
    o := reg.Setup(name, Direction.IN, NO_INITIAL, access);
    assert o.Pass? && ReadValue(reg.kernel, gpio) == OutputLevel(v);
    read := reg.Input(name);
  }
}
