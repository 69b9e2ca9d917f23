/** The library's global state and its public GPIO calls: numbering mode,
    channel set-up and clean-up, input and output, the edge-event calls and
    the PWM front end.  The process-wide singleton is a `Registry` object;
    a call that ends in `std::terminate` returns `Fail` (or `Err`) with the
    state the program had at that point. */
module Gpio {
  import opened Errors
  import opened GpioTypes
  import opened PythonFunctions
  import opened Conversions
  import opened BoardModel
  import opened PinCatalog
  import opened Sysfs
  import opened SoftwarePwm
  import opened Collections

  type Table = map<string, ChannelInfo>

  /** The line with `gpioN` present: exported now unless it already was. */
  function Exported(k: Kernel, gpio: int): (r: Kernel)
    ensures r.exported == k.exported + {gpio}
    ensures Coherent(k) ==> Coherent(r)
  {
    if gpio in k.exported then k else ExportLine(k, gpio)
  }

  /** A channel `setup` can act on: a mode is in effect, the name is a GPIO
      channel of the mode's table and no PWM drives it. */
  predicate Settable(m: NumberingMode, data: Table, pwm: map<string, bool>, name: string)
  {
    name !in pwm && m != None && name in data && !IsNone(data[name].gpioChipDir)
  }

  /** The export of `gpio` leaves its attribute files usable: it was already
      exported, or one of the permission checks succeeds. */
  predicate ExportSucceeds(k: Kernel, gpio: int, access: nat -> bool)
  {
    gpio in k.exported || exists i :: 0 <= i < POLL_CHECKS && access(i)
  }

  /** `int(bool(value))`: what a write of `value` puts in the value file. */
  function OutputLevel(v: int): (r: int)
    ensures r == LOW || r == HIGH
    ensures r == LOW <==> v == 0
  {
    if v != 0 then 1 else 0
  }

  /** The kernel after a line is set up as an output. */
  function SetUpOut(k: Kernel, gpio: int, initial: int): Kernel
  {
    var k1 := WriteDirection(Exported(k, gpio), gpio, "out");
    if initial != NO_INITIAL then WriteValue(k1, gpio, OutputLevel(initial)) else k1
  }

  /** The kernel after a line is set up as an input. */
  function SetUpIn(k: Kernel, gpio: int): Kernel
  {
    WriteDirection(Exported(k, gpio), gpio, "in")
  }

  /** The lines of the named channels. */
  function LinesOf(t: Table, names: set<string>): set<int>
    requires names <= t.Keys
  {
    set c | c in names :: t[c].gpio
  }

  lemma LinesOfOneMore(t: Table, names: set<string>, c: string)
    requires names <= t.Keys && c in t
    ensures LinesOf(t, names + {c}) == LinesOf(t, names) + {t[c].gpio}
  {
  }

  /** The kernel after the value writes of a batch output: the i-th line
      gets the level of the i-th value. */
  function WriteLevels(k: Kernel, gpios: seq<int>, values: seq<int>): Kernel
    requires |gpios| == |values|
  {
    if gpios == [] then k
    else WriteValue(WriteLevels(k, gpios[..|gpios| - 1], values[..|values| - 1]),
                    gpios[|gpios| - 1], OutputLevel(values[|values| - 1]))
  }

  /** Writing one more line after the others. */
  lemma WriteLevelsSnoc(k: Kernel, gpios: seq<int>, values: seq<int>, g: int, v: int)
    requires |gpios| == |values|
    ensures WriteLevels(k, gpios + [g], values + [v]) == WriteValue(WriteLevels(k, gpios, values), g, OutputLevel(v))
  {
    assert (gpios + [g])[..|gpios|] == gpios;
    assert (values + [v])[..|values|] == values;
  }

  /** The guard in front of `add_event_callback` as the source writes it: the
      call is refused when the edge event EXISTS. */
  function EdgeEventGuardAsWritten(eventExists: bool): (o: Outcome)
    ensures o.Fail? <==> eventExists
  {
    if eventExists then Fail(NoEdgeEvent) else Pass
  }

  /** The guard its message describes: the edge event must already exist. */
  function EdgeEventGuard(eventExists: bool): (o: Outcome)
    ensures o.Pass? <==> eventExists
    ensures o.Fail? ==> o.error == NoEdgeEvent
  {
    if !eventExists then Fail(NoEdgeEvent) else Pass
  }

  /** As written, a callback can be added only to a line that has no edge
      event, which is exactly the line the call cannot serve; the corrected
      guard lets through exactly the lines `add_event_detect` registered. */
  lemma EdgeEventGuardFinding()
    ensures EdgeEventGuardAsWritten(true).Fail? && EdgeEventGuardAsWritten(false).Pass?
    ensures forall e :: EdgeEventGuard(e).Pass? <==> EdgeEventGuardAsWritten(e).Fail?
  {
  }

  /** The string overloads of the edge-event calls read the channel with
      `atoi` and look up `to_string` of the number: a numeral names its
      own channel, a name that does not start with digits names "0". */
  lemma EventChannelName(n: int)
    ensures IntToString(Atoi(IntToString(n))) == IntToString(n)
    ensures Atoi("GPIO0_7") == 0 && IntToString(Atoi("GPIO0_7")) == "0"
  {
    AtoiOfIntToString(n);
    assert LeadingSpaces("GPIO0_7") == 0;
    assert "GPIO0_7"[0..] == "GPIO0_7";
    assert LeadingDigits("GPIO0_7") == 0;
    assert "GPIO0_7"[..0] == [];
  }

  class Registry {
    /** The constant board data `get_data` produced. */
    const model: Model
    const boardInfo: PinInfo
    const channelDataByMode: map<NumberingMode, Table>
    /** The channel table of the mode in effect. */
    var channelData: Table
    var warnings: bool
    var mode: NumberingMode
    /** Channels this process set up, with their direction. */
    var configuration: map<string, Direction>
    /** Channels currently driven by a PWM object. */
    var pwmChannels: map<string, bool>
    /** The sysfs files. */
    var kernel: Kernel
    /** Lines whose edge-event state `_event_cleanup` released. */
    var eventsCleaned: set<int>

    /** Every table maps a channel name to that channel's data; only a mode
        in effect has set-up channels, and those are channels of its table. */
    predicate Valid()
      reads this
    {
      (forall m :: m in channelDataByMode ==> TableWellFormed(channelDataByMode[m])) &&
      TableWellFormed(channelData) &&
      configuration.Keys <= channelData.Keys &&
      (mode == None ==> configuration == map[]) &&
      (mode != None ==> mode in channelDataByMode && channelData == channelDataByMode[mode]) &&
      Coherent(kernel)
    }

    /** The state `GlobalVariableWrapper` starts with: warnings on, no mode,
        nothing set up. */
    constructor (data: PinData, k: Kernel)
      requires forall m :: m in data.channelData ==> TableWellFormed(data.channelData[m])
      requires Coherent(k)
      ensures Valid()
      ensures model == data.model && boardInfo == data.pinInfo && channelDataByMode == data.channelData
      ensures channelData == map[] && warnings && mode == None
      ensures configuration == map[] && pwmChannels == map[] && kernel == k && eventsCleaned == {}
    {
      model := data.model;
      boardInfo := data.pinInfo;
      channelDataByMode := data.channelData;
      channelData := map[];
      warnings := true;
      mode := None;
      configuration := map[];
      pwmChannels := map[];
      kernel := k;
      eventsCleaned := {};
    }

    /** `GPIO::model`: the board's name, an error for a model without one. */
    function ModelName(): (r: Result<string>)
      ensures r.Ok? <==> IsEnumerator(model)
      ensures r.Ok? ==> r.value == ModelToString(model)
    {
      GetModel(model)
    }

    /** Lines of the channels set up now. */
    function ConfiguredLines(): set<int>
      reads this
      requires configuration.Keys <= channelData.Keys
    {
      LinesOf(channelData, configuration.Keys)
    }

    /** The state every channel clean-up leaves: nothing set up, no mode,
        the lines of `lines` unexported and their event state released. */
    predicate AllCleanedFrom(k0: Kernel, lines: set<int>, events0: set<int>)
      reads this
    {
      configuration == map[] && mode == None &&
      kernel == RemoveLines(k0, lines) && eventsCleaned == events0 + lines
    }

    // ------------------------------------------------------- resolving names

    /** `_validate_mode_set`. */
    function ValidateModeSet(): (o: Outcome)
      reads this
      ensures o.Fail? <==> mode == None
      ensures o.Fail? ==> o.error == ModeNotSet
    {
      if mode == None then Fail(ModeNotSet) else Pass
    }

    /** `_channel_to_info_lookup`: the channel's data, or the first of "not
        a channel", "not a GPIO" (when a GPIO is needed), "not a PWM" (when
        a PWM is needed) that applies. */
    function ChannelToInfoLookup(name: string, needGpio: bool, needPwm: bool): (r: Result<ChannelInfo>)
      reads this
      ensures r.Ok? <==> name in channelData &&
                         !(needGpio && IsNone(channelData[name].gpioChipDir)) &&
                         !(needPwm && IsNone(channelData[name].pwmChipDir))
      ensures r.Ok? ==> r.value == channelData[name]
      ensures Valid() && r.Ok? ==> r.value.channel == name
      ensures r.Err? ==> r.error == (if name !in channelData then InvalidChannel
                                     else if needGpio && IsNone(channelData[name].gpioChipDir) then NotGpio
                                     else NotPwm)
    {
      if name !in channelData then Err(InvalidChannel)
      else
        var info := channelData[name];
        if needGpio && IsNone(info.gpioChipDir) then Err(NotGpio)
        else if needPwm && IsNone(info.pwmChipDir) then Err(NotPwm)
        else Ok(info)
    }

    /** `_channel_to_info`: a mode must be set, then the lookup. */
    function ChannelToInfo(name: string, needGpio: bool, needPwm: bool): (r: Result<ChannelInfo>)
      reads this
      ensures mode == None ==> r == Err(ModeNotSet)
      ensures mode != None ==> r == ChannelToInfoLookup(name, needGpio, needPwm)
    {
      if ValidateModeSet().Fail? then Err(ModeNotSet)
      else ChannelToInfoLookup(name, needGpio, needPwm)
    }

    /** The lookups of a list of names: all their data, or the error of the
        first name whose lookup fails. */
    function LookupAll(names: seq<string>, needGpio: bool, needPwm: bool): (r: Result<seq<ChannelInfo>>)
      reads this
      ensures r.Ok? <==> forall i :: 0 <= i < |names| ==> ChannelToInfoLookup(names[i], needGpio, needPwm).Ok?
      ensures r.Ok? ==> |r.value| == |names| &&
                        forall i :: 0 <= i < |names| ==> r.value[i] == channelData[names[i]]
      ensures r.Err? ==> exists i :: 0 <= i < |names| &&
                           (forall j :: 0 <= j < i ==> ChannelToInfoLookup(names[j], needGpio, needPwm).Ok?) &&
                           ChannelToInfoLookup(names[i], needGpio, needPwm).Err? &&
                           r.error == ChannelToInfoLookup(names[i], needGpio, needPwm).error
      decreases |names|
    {
      if names == [] then Ok([])
      else
        var first := ChannelToInfoLookup(names[0], needGpio, needPwm);
        if first.Err? then Err(first.error)
        else
          var rest := LookupAll(names[1..], needGpio, needPwm);
          assert forall i :: 1 <= i < |names| ==> names[i] == names[1..][i - 1];
          if rest.Err? then Err(rest.error) else Ok([first.value] + rest.value)
    }

    /** The lookups of a list fail with the error of the first name whose
        lookup fails. */
    lemma {:induction false} LookupAllFirstFailure(names: seq<string>, needGpio: bool, needPwm: bool, i: nat)
      requires i < |names|
      requires forall j :: 0 <= j < i ==> ChannelToInfoLookup(names[j], needGpio, needPwm).Ok?
      requires ChannelToInfoLookup(names[i], needGpio, needPwm).Err?
      ensures LookupAll(names, needGpio, needPwm) == Err(ChannelToInfoLookup(names[i], needGpio, needPwm).error)
      decreases i
    {
      if i > 0 {
        assert forall j :: 0 <= j < i - 1 ==> names[1..][j] == names[j + 1];
        LookupAllFirstFailure(names[1..], needGpio, needPwm, i - 1);
      }
    }

    /** `_channels_to_infos`. */
    method ChannelsToInfos(names: seq<string>, needGpio: bool, needPwm: bool) returns (r: Result<seq<ChannelInfo>>)
      ensures mode == None ==> r == Err(ModeNotSet)
      ensures mode != None ==> r == LookupAll(names, needGpio, needPwm)
    {
      if ValidateModeSet().Fail? {
        return Err(ModeNotSet);
      }
      var infos: seq<ChannelInfo> := [];
      var i := 0;
      while i < |names|
        invariant 0 <= i <= |names|
        invariant forall j :: 0 <= j < i ==> ChannelToInfoLookup(names[j], needGpio, needPwm).Ok?
        invariant |infos| == i && forall j :: 0 <= j < i ==> infos[j] == channelData[names[j]]
      {
        var info := ChannelToInfoLookup(names[i], needGpio, needPwm);
        if info.Err? {
          LookupAllFirstFailure(names, needGpio, needPwm, i);
          return Err(info.error);
        }
        infos := infos + [info.value];
        i := i + 1;
      }
      var all := LookupAll(names, needGpio, needPwm);
      assert all.Ok? && |all.value| == |infos|;
      assert forall j :: 0 <= j < |infos| ==> all.value[j] == infos[j];
      assert all.value == infos;
      return Ok(infos);
    }

    // ------------------------------------------------------- configurations

    /** `_app_channel_configuration`: the direction this process set the
        channel up with, `UNKNOWN` when it did not. */
    function AppChannelConfiguration(info: ChannelInfo): (d: Direction)
      reads this
      ensures info.channel !in configuration ==> d == Direction.UNKNOWN
      ensures info.channel in configuration ==> d == configuration[info.channel]
    {
      if info.channel !in configuration then Direction.UNKNOWN else configuration[info.channel]
    }

    /** `_sysfs_channel_configuration`: `HARD_PWM` when the channel's PWM line
        is exported, otherwise what the line's direction file says (`UNKNOWN`
        for a line that is not exported). */
    function SysfsChannelConfiguration(info: ChannelInfo): (d: Direction)
      reads this
      ensures d == Direction.HARD_PWM <==> !IsNone(info.pwmChipDir) && PwmPath(info) in kernel.pwmLines
      ensures d != Direction.HARD_PWM && info.gpio !in kernel.exported ==> d == Direction.UNKNOWN
      ensures d != Direction.HARD_PWM && info.gpio in kernel.exported ==>
                d == ClassifyDirection(ReadDirection(kernel, info.gpio))
    {
      if !IsNone(info.pwmChipDir) && PwmPath(info) in kernel.pwmLines then Direction.HARD_PWM
      else if info.gpio !in kernel.exported then Direction.UNKNOWN
      else ClassifyDirection(ReadDirection(kernel, info.gpio))
    }

    // ------------------------------------------------------- sysfs writes

    /** `_export_gpio`: export the line unless it is, then wait until its
        value file is accessible; `access(i)` is the i-th check. */
    method ExportGpio(gpio: int, access: nat -> bool) returns (o: Outcome)
      modifies this`kernel
      ensures kernel == Exported(old(kernel), gpio)
      ensures o.Pass? <==> ExportSucceeds(old(kernel), gpio, access)
      ensures o.Fail? ==> o.error == PermissionDenied
    {
      if gpio in kernel.exported {
        return Pass;
      }
      kernel := ExportLine(kernel, gpio);
      var ok, _ := PollAccess(access);
      if !ok {
        return Fail(PermissionDenied);
      }
      return Pass;
    }

    /** `_unexport_gpio`. */
    method UnexportGpio(gpio: int)
      modifies this`kernel
      ensures kernel == if gpio in old(kernel).exported then UnexportLine(old(kernel), gpio) else old(kernel)
    {
      if gpio !in kernel.exported {
        return;
      }
      kernel := UnexportLine(kernel, gpio);
    }

    /** `_output_one`: the value file gets 1 for any non-zero value, else 0. */
    method OutputOne(gpio: int, value: int)
      modifies this`kernel
      ensures kernel == WriteValue(old(kernel), gpio, OutputLevel(value))
    {
      kernel := WriteValue(kernel, gpio, if value != 0 then 1 else 0);
    }

    /** `_export_pwm`: export a PWM line unless it exists (an `export` file
        that cannot be opened is an error), then wait for its `enable`
        file. */
    method ExportPwm(info: ChannelInfo, access: nat -> bool) returns (o: Outcome)
      modifies this`kernel
      ensures PwmPath(info) in old(kernel).pwmLines ==> o.Pass? && kernel == old(kernel)
      ensures PwmPath(info) !in old(kernel).pwmLines && info.pwmChipDir !in old(kernel).pwmChips ==>
                o == Fail(CannotOpen) && kernel == old(kernel)
      ensures PwmPath(info) !in old(kernel).pwmLines && info.pwmChipDir in old(kernel).pwmChips ==>
                kernel == ExportPwmLine(old(kernel), PwmPath(info)) &&
                (o.Pass? <==> exists i :: 0 <= i < POLL_CHECKS && access(i)) &&
                (o.Fail? ==> o.error == PermissionDenied)
    {
      if PwmPath(info) in kernel.pwmLines {
        return Pass;
      }
      if info.pwmChipDir !in kernel.pwmChips {
        return Fail(CannotOpen);
      }
      kernel := ExportPwmLine(kernel, PwmPath(info));
      var ok, _ := PollAccess(access);
      if !ok {
        return Fail(PermissionDenied);
      }
      return Pass;
    }

    /** `_setup_single_out`: export, direction "out", the initial level when
        one is given, and the channel is recorded as an output. */
    method SetupSingleOut(info: ChannelInfo, initial: int, access: nat -> bool) returns (o: Outcome)
      modifies this`kernel, this`configuration
      requires Valid() && mode != None && info.channel in channelData
      ensures Valid()
      ensures o.Pass? <==> ExportSucceeds(old(kernel), info.gpio, access)
      ensures o.Pass? ==> kernel == SetUpOut(old(kernel), info.gpio, initial) &&
                          configuration == old(configuration)[info.channel := Direction.OUT]
      ensures o.Fail? ==> o.error == PermissionDenied && kernel == Exported(old(kernel), info.gpio) &&
                          configuration == old(configuration)
    {
      o := ExportGpio(info.gpio, access);
      if o.Fail? {
        return;
      }
      kernel := WriteDirection(kernel, info.gpio, "out");
      if initial != NO_INITIAL {
        OutputOne(info.gpio, initial);
      }
      configuration := configuration[info.channel := Direction.OUT];
    }

    /** `_setup_single_in`: export, direction "in", recorded as an input. */
    method SetupSingleIn(info: ChannelInfo, access: nat -> bool) returns (o: Outcome)
      modifies this`kernel, this`configuration
      requires Valid() && mode != None && info.channel in channelData
      ensures Valid()
      ensures o.Pass? <==> ExportSucceeds(old(kernel), info.gpio, access)
      ensures o.Pass? ==> kernel == SetUpIn(old(kernel), info.gpio) &&
                          configuration == old(configuration)[info.channel := Direction.IN]
      ensures o.Fail? ==> o.error == PermissionDenied && kernel == Exported(old(kernel), info.gpio) &&
                          configuration == old(configuration)
    {
      o := ExportGpio(info.gpio, access);
      if o.Fail? {
        return;
      }
      kernel := WriteDirection(kernel, info.gpio, "in");
      configuration := configuration[info.channel := Direction.IN];
    }

    // ------------------------------------------------------------- clean-up

    /** `_cleanup_one`: release the line's edge event, unexport it and forget
        the channel. */
    method CleanupOne(info: ChannelInfo)
      modifies this`kernel, this`configuration, this`eventsCleaned
      requires Valid()
      ensures Valid()
      ensures kernel == UnexportLine(old(kernel), info.gpio)
      ensures configuration == old(configuration) - {info.channel}
      ensures eventsCleaned == old(eventsCleaned) + {info.gpio}
    {
      eventsCleaned := eventsCleaned + {info.gpio};
      UnexportGpio(info.gpio);
      configuration := configuration - {info.channel};
    }

    /** `_cleanup_all`: clean up every channel set up, then forget the mode. */
    method CleanupAll()
      modifies this`kernel, this`configuration, this`eventsCleaned, this`mode
      requires Valid()
      ensures Valid()
      ensures AllCleanedFrom(old(kernel), old(ConfiguredLines()), old(eventsCleaned))
      ensures old(configuration) == map[] ==> kernel == old(kernel)
    {
      var copied := configuration;
      var pending := copied.Keys;
      while pending != {}
        invariant Valid() && mode == old(mode) && kernel.pwmLines == old(kernel).pwmLines
        invariant pending <= copied.Keys && configuration.Keys == pending
        invariant kernel == RemoveLines(old(kernel), LinesOf(channelData, copied.Keys - pending))
        invariant eventsCleaned == old(eventsCleaned) + LinesOf(channelData, copied.Keys - pending)
        decreases pending
      {
        var c :| c in pending;
        var info := ChannelToInfo(c, false, false);
        assert info.Ok?;
        LinesOfOneMore(channelData, copied.Keys - pending, c);
        RemoveOneMore(old(kernel), LinesOf(channelData, copied.Keys - pending), info.value.gpio);
        CleanupOne(info.value);
        DoneOneMore(copied.Keys, pending, c);
        pending := pending - {c};
      }
      assert copied.Keys - pending == copied.Keys;
      mode := None;
    }

    // ----------------------------------------------------------- public API

    /** `setwarnings`. */
    method SetWarnings(state: bool)
      modifies this`warnings
      ensures warnings == state
    {
      warnings := state;
    }

    /** `setmode`: `None` is refused, and so is a mode other than the one in
        effect; the mode's table becomes the channel table. */
    method SetMode(m: NumberingMode) returns (o: Outcome)
      modifies this`channelData, this`mode
      requires Valid()
      ensures Valid()
      ensures o.Pass? <==> m != None && (old(mode) == None || m == old(mode)) && m in channelDataByMode
      ensures o.Fail? ==> channelData == old(channelData) && mode == old(mode)
      ensures o.Fail? ==> o.error == (if m == None then InvalidMode
                                      else if old(mode) != None && m != old(mode) then DifferentMode
                                      else UnknownMode)
      ensures o.Pass? ==> mode == m && channelData == channelDataByMode[m]
    {
      if m == None {
        return Fail(InvalidMode);
      }
      if mode != None && m != mode {
        return Fail(DifferentMode);
      }
      if m !in channelDataByMode {
        return Fail(UnknownMode);
      }
      channelData := channelDataByMode[m];
      mode := m;
      return Pass;
    }

    /** `getmode`. */
    function GetMode(): (m: NumberingMode)
      reads this
      ensures Valid() && m == None ==> configuration == map[]
      ensures Valid() && m != None ==> m in channelDataByMode && channelData == channelDataByMode[m]
    {
      mode
    }

    /** `setup(channel, direction, initial)`.  A PWM channel is refused after
        every channel is cleaned up; otherwise the channel must be a GPIO of
        the mode's table, an input takes no initial value, and the direction
        must be `IN` or `OUT`. */
    method Setup(name: string, direction: Direction, initial: int, access: nat -> bool) returns (o: Outcome)
      modifies this`kernel, this`configuration, this`eventsCleaned, this`mode
      requires Valid()
      ensures Valid()
      ensures o.Pass? ==> name in old(channelData) && configuration == old(configuration)[name := direction] &&
                          (direction == Direction.OUT || direction == Direction.IN)
      ensures name in old(pwmChannels) ==>
                o == Fail(AlreadyPwm) && AllCleanedFrom(old(kernel), old(ConfiguredLines()), old(eventsCleaned))
      ensures name !in old(pwmChannels) ==> mode == old(mode) && eventsCleaned == old(eventsCleaned)
      ensures name !in old(pwmChannels) && old(ChannelToInfo(name, true, false)).Err? ==>
                o == Fail(old(ChannelToInfo(name, true, false)).error) &&
                kernel == old(kernel) && configuration == old(configuration)
      ensures name !in old(pwmChannels) && old(ChannelToInfo(name, true, false)).Ok? ==>
                var gpio := old(channelData[name]).gpio;
                if direction == Direction.OUT then
                  (o.Pass? <==> ExportSucceeds(old(kernel), gpio, access)) &&
                  (o.Pass? ==> kernel == SetUpOut(old(kernel), gpio, initial)) &&
                  (o.Fail? ==> o.error == PermissionDenied && kernel == Exported(old(kernel), gpio) &&
                               configuration == old(configuration))
                else if direction == Direction.IN && initial == NO_INITIAL then
                  (o.Pass? <==> ExportSucceeds(old(kernel), gpio, access)) &&
                  (o.Pass? ==> kernel == SetUpIn(old(kernel), gpio)) &&
                  (o.Fail? ==> o.error == PermissionDenied && kernel == Exported(old(kernel), gpio) &&
                               configuration == old(configuration))
                else
                  o == Fail(if direction == Direction.IN then InitialForInput else InvalidDirection) &&
                  kernel == old(kernel) && configuration == old(configuration)
    {
      if name in pwmChannels {
        CleanupAll();
        return Fail(AlreadyPwm);
      }
      var r := ChannelToInfo(name, true, false);
      if r.Err? {
        return Fail(r.error);
      }
      var info := r.value;
      if direction == Direction.OUT {
        o := SetupSingleOut(info, initial, access);
      } else if direction == Direction.IN {
        if initial != NO_INITIAL {
          return Fail(InitialForInput);
        }
        o := SetupSingleIn(info, access);
      } else {
        return Fail(InvalidDirection);
      }
    }

    /** `setup(int channel, ...)`: the channel named by the number. */
    method SetupInt(channel: int, direction: Direction, initial: int, access: nat -> bool) returns (o: Outcome)
      modifies this`kernel, this`configuration, this`eventsCleaned, this`mode
      requires Valid()
      ensures Valid()
      ensures o.Pass? ==> IntToString(channel) in old(channelData) &&
                          configuration == old(configuration)[IntToString(channel) := direction] &&
                          (direction == Direction.OUT || direction == Direction.IN)
      ensures IntToString(channel) in old(pwmChannels) ==>
                o == Fail(AlreadyPwm) && AllCleanedFrom(old(kernel), old(ConfiguredLines()), old(eventsCleaned))
      ensures IntToString(channel) !in old(pwmChannels) ==> mode == old(mode) && eventsCleaned == old(eventsCleaned)
      ensures IntToString(channel) !in old(pwmChannels) && old(ChannelToInfo(IntToString(channel), true, false)).Err? ==>
                o == Fail(old(ChannelToInfo(IntToString(channel), true, false)).error) &&
                kernel == old(kernel) && configuration == old(configuration)
      ensures IntToString(channel) !in old(pwmChannels) && old(ChannelToInfo(IntToString(channel), true, false)).Ok? ==>
                var gpio := old(channelData[IntToString(channel)]).gpio;
                if direction == Direction.OUT then
                  (o.Pass? <==> ExportSucceeds(old(kernel), gpio, access)) &&
                  (o.Pass? ==> kernel == SetUpOut(old(kernel), gpio, initial)) &&
                  (o.Fail? ==> o.error == PermissionDenied && kernel == Exported(old(kernel), gpio) &&
                               configuration == old(configuration))
                else if direction == Direction.IN && initial == NO_INITIAL then
                  (o.Pass? <==> ExportSucceeds(old(kernel), gpio, access)) &&
                  (o.Pass? ==> kernel == SetUpIn(old(kernel), gpio)) &&
                  (o.Fail? ==> o.error == PermissionDenied && kernel == Exported(old(kernel), gpio) &&
                               configuration == old(configuration))
                else
                  o == Fail(if direction == Direction.IN then InitialForInput else InvalidDirection) &&
                  kernel == old(kernel) && configuration == old(configuration)
    {
      o := Setup(IntToString(channel), direction, initial, access);
    }

    /** `setup` of a list of channels: an input with an initial value is
        refused before any channel is touched; then the channels are set up
        in order, until one of them fails. */
    method SetupAll(names: seq<string>, direction: Direction, initial: int, access: nat -> nat -> bool)
      returns (o: Outcome, done: nat)
      modifies this`kernel, this`configuration, this`eventsCleaned, this`mode
      requires Valid()
      ensures Valid()
      ensures direction == Direction.IN && initial != NO_INITIAL ==>
                o == Fail(InitialForInput) && done == 0 && kernel == old(kernel) && configuration == old(configuration)
      ensures done <= |names|
      ensures o.Pass? ==> done == |names|
      ensures o.Fail? && !(direction == Direction.IN && initial != NO_INITIAL) ==> done < |names|
      ensures o.Pass? ==> forall i :: 0 <= i < |names| ==> names[i] in configuration && configuration[names[i]] == direction
      // a non-empty batch succeeds only for OUT or IN, and only on channels `setup` can act on
      ensures o.Pass? ==> (|names| == 0 || direction == Direction.OUT || direction == Direction.IN) &&
                          forall i :: 0 <= i < |names| ==> Settable(old(mode), channelData, pwmChannels, names[i])
      // and it does succeed when, in addition, every channel's access poll succeeds
      ensures (direction == Direction.OUT || (direction == Direction.IN && initial == NO_INITIAL)) &&
              (forall i :: 0 <= i < |names| ==>
                 Settable(old(mode), channelData, pwmChannels, names[i]) &&
                 exists j :: 0 <= j < POLL_CHECKS && access(i)(j))
              ==> o.Pass?
      // a failure is that of `setup` on `names[done]`; every earlier channel passed and keeps its direction
      ensures o.Fail? && !(direction == Direction.IN && initial != NO_INITIAL) ==>
                (forall i :: 0 <= i < done ==> Settable(old(mode), channelData, pwmChannels, names[i])) &&
                (names[done] in pwmChannels ==> o == Fail(AlreadyPwm) && configuration == map[] && mode == None) &&
                (names[done] !in pwmChannels ==>
                   mode == old(mode) &&
                   (forall i :: 0 <= i < done ==> names[i] in configuration && configuration[names[i]] == direction) &&
                   o.error == (if old(ChannelToInfo(names[done], true, false)).Err? then old(ChannelToInfo(names[done], true, false)).error
                               else if direction != Direction.OUT && direction != Direction.IN then InvalidDirection
                               else PermissionDenied) &&
                   (o.error == PermissionDenied && Settable(old(mode), channelData, pwmChannels, names[done]) ==>
                      !exists j :: 0 <= j < POLL_CHECKS && access(done)(j)))
    {
      if direction == Direction.IN && initial != NO_INITIAL {
        return Fail(InitialForInput), 0;
      }
      done := 0;
      while done < |names|
        invariant Valid() && done <= |names| && mode == old(mode)
        invariant done > 0 ==> direction == Direction.OUT || direction == Direction.IN
        invariant forall i :: 0 <= i < done ==> names[i] in configuration && configuration[names[i]] == direction
        invariant forall i :: 0 <= i < done ==> Settable(old(mode), channelData, pwmChannels, names[i])
      {
        assert ChannelToInfo(names[done], true, false) == old(ChannelToInfo(names[done], true, false));
        o := SetupNext(names[done], direction, initial, access(done));
        if o.Fail? {
          return;
        }
        done := done + 1;
      }
      return Pass, done;
    }

    /** One channel of a batch `setup`: what `Setup` promises about the
        outcome, the mode and the recorded directions. */
    method SetupNext(name: string, direction: Direction, initial: int, access: nat -> bool) returns (o: Outcome)
      modifies this`kernel, this`configuration, this`eventsCleaned, this`mode
      requires Valid()
      ensures Valid()
      ensures o.Pass? ==> (direction == Direction.OUT || direction == Direction.IN) &&
                          Settable(old(mode), channelData, pwmChannels, name) &&
                          mode == old(mode) && configuration == old(configuration)[name := direction]
      ensures name in pwmChannels ==> o == Fail(AlreadyPwm) && configuration == map[] && mode == None
      ensures name !in pwmChannels && o.Fail? ==>
                mode == old(mode) && configuration == old(configuration) &&
                o.error == (if old(ChannelToInfo(name, true, false)).Err? then old(ChannelToInfo(name, true, false)).error
                            else if direction != Direction.OUT && direction != Direction.IN then InvalidDirection
                            else if direction == Direction.IN && initial != NO_INITIAL then InitialForInput
                            else PermissionDenied) &&
                (o.error == PermissionDenied && Settable(old(mode), channelData, pwmChannels, name) ==>
                   !exists j :: 0 <= j < POLL_CHECKS && access(j))
      ensures (direction == Direction.OUT || (direction == Direction.IN && initial == NO_INITIAL)) &&
              Settable(old(mode), channelData, pwmChannels, name) &&
              (exists j :: 0 <= j < POLL_CHECKS && access(j))
              ==> o.Pass?
    {
      SettableResolves(name);
      o := Setup(name, direction, initial, access);
    }

    /** `Settable` is exactly "not driven by a PWM, and the lookup `setup`
        makes succeeds". */
    lemma SettableResolves(name: string)
      ensures Settable(mode, channelData, pwmChannels, name) <==>
              name !in pwmChannels && ChannelToInfo(name, true, false).Ok?
    {
    }

    /** `cleanup(channel)`: nothing with no mode while warnings are on;
        "None" cleans every channel; otherwise the channel is looked up
        (any error ends the program) and cleaned if it was set up. */
    method Cleanup(name: string) returns (o: Outcome)
      modifies this`kernel, this`configuration, this`eventsCleaned, this`mode
      requires Valid()
      ensures Valid()
      ensures old(mode) == None && old(warnings) ==>
                o.Pass? && kernel == old(kernel) && configuration == old(configuration) &&
                eventsCleaned == old(eventsCleaned) && mode == old(mode)
      ensures !(old(mode) == None && old(warnings)) && IsNone(name) ==>
                o.Pass? && AllCleanedFrom(old(kernel), old(ConfiguredLines()), old(eventsCleaned))
      ensures !(old(mode) == None && old(warnings)) && !IsNone(name) ==>
                mode == old(mode) &&
                (o.Pass? <==> old(mode) != None && name in old(channelData)) &&
                (o.Fail? ==> o.error == (if old(mode) == None then ModeNotSet else InvalidChannel) &&
                             kernel == old(kernel) && configuration == old(configuration) &&
                             eventsCleaned == old(eventsCleaned)) &&
                (o.Pass? && name !in old(configuration) ==>
                   kernel == old(kernel) && configuration == old(configuration) && eventsCleaned == old(eventsCleaned)) &&
                (o.Pass? && name in old(configuration) ==>
                   var gpio := old(channelData[name]).gpio;
                   kernel == UnexportLine(old(kernel), gpio) &&
                   configuration == old(configuration) - {name} &&
                   eventsCleaned == old(eventsCleaned) + {gpio})
    {
      if mode == None && warnings {
        return Pass;
      }
      if IsNone(name) {
        CleanupAll();
        return Pass;
      }
      var r := ChannelToInfo(name, false, false);
      if r.Err? {
        return Fail(r.error);
      }
      if r.value.channel in configuration {
        CleanupOne(r.value);
      }
      return Pass;
    }

    /** `cleanup(int channel)`. */
    method CleanupInt(channel: int) returns (o: Outcome)
      modifies this`kernel, this`configuration, this`eventsCleaned, this`mode
      requires Valid()
      ensures Valid()
      ensures old(mode) == None && old(warnings) ==>
                o.Pass? && kernel == old(kernel) && configuration == old(configuration) &&
                eventsCleaned == old(eventsCleaned) && mode == old(mode)
      ensures !(old(mode) == None && old(warnings)) ==>
                mode == old(mode) &&
                (o.Pass? <==> old(mode) != None && IntToString(channel) in old(channelData)) &&
                (o.Fail? ==> o.error == (if old(mode) == None then ModeNotSet else InvalidChannel) &&
                             kernel == old(kernel) && configuration == old(configuration) &&
                             eventsCleaned == old(eventsCleaned))
      ensures old(mode) != None && IntToString(channel) in old(channelData) ==>
                o.Pass? && mode == old(mode) && configuration == old(configuration) - {IntToString(channel)} &&
                kernel.pwmLines == old(kernel).pwmLines && kernel.pwmChips == old(kernel).pwmChips
      ensures old(mode) != None && IntToString(channel) !in old(configuration) ==>
                kernel == old(kernel) && configuration == old(configuration) && eventsCleaned == old(eventsCleaned)
      ensures old(mode) != None && IntToString(channel) in old(configuration) && IntToString(channel) in old(channelData) ==>
                var gpio := old(channelData[IntToString(channel)]).gpio;
                kernel == UnexportLine(old(kernel), gpio) && eventsCleaned == old(eventsCleaned) + {gpio}
    {
      IntToStringSign(channel);
      o := Cleanup(IntToString(channel));
    }

    /** `input(channel)`: the channel must be a GPIO set up as input or
        output; the value file's number is returned. */
    function Input(name: string): (r: Result<int>)
      reads this
      ensures r.Ok? <==> ChannelToInfo(name, true, false).Ok? &&
                         AppChannelConfiguration(channelData[name]) in {Direction.IN, Direction.OUT}
      ensures r.Ok? ==> r.value == ReadValue(kernel, channelData[name].gpio)
      ensures r.Err? && ChannelToInfo(name, true, false).Ok? ==> r.error == NotSetUp
      ensures r.Err? && ChannelToInfo(name, true, false).Err? ==> r.error == ChannelToInfo(name, true, false).error
    {
      var info :- ChannelToInfo(name, true, false);
      var cfg := AppChannelConfiguration(info);
      if cfg != Direction.IN && cfg != Direction.OUT then Err(NotSetUp)
      else Ok(ReadValue(kernel, info.gpio))
    }

    /** `input(int channel)`. */
    function InputInt(channel: int): (r: Result<int>)
      reads this
      ensures r.Ok? <==> ChannelToInfo(IntToString(channel), true, false).Ok? &&
                         AppChannelConfiguration(channelData[IntToString(channel)]) in {Direction.IN, Direction.OUT}
      ensures r.Ok? ==> r.value == ReadValue(kernel, channelData[IntToString(channel)].gpio)
      ensures r.Err? && ChannelToInfo(IntToString(channel), true, false).Ok? ==> r.error == NotSetUp
      ensures r.Err? && ChannelToInfo(IntToString(channel), true, false).Err? ==>
                r.error == ChannelToInfo(IntToString(channel), true, false).error
    {
      Input(IntToString(channel))
    }

    /** `output(channel, value)`: the channel must be a GPIO set up as an
        output; its value file gets 1 for a non-zero value, else 0. */
    method Output(name: string, value: int) returns (o: Outcome)
      modifies this`kernel
      requires Valid()
      ensures Valid()
      ensures o.Pass? <==> ChannelToInfo(name, true, false).Ok? &&
                           AppChannelConfiguration(channelData[name]) == Direction.OUT
      ensures o.Pass? ==> kernel == WriteValue(old(kernel), channelData[name].gpio, OutputLevel(value))
      ensures o.Fail? ==> kernel == old(kernel)
      ensures o.Fail? && ChannelToInfo(name, true, false).Ok? ==> o.error == NotOutput
      ensures o.Fail? && ChannelToInfo(name, true, false).Err? ==> o.error == ChannelToInfo(name, true, false).error
    {
      var r := ChannelToInfo(name, true, false);
      if r.Err? {
        return Fail(r.error);
      }
      if AppChannelConfiguration(r.value) != Direction.OUT {
        return Fail(NotOutput);
      }
      OutputOne(r.value.gpio, value);
      return Pass;
    }

    /** `output(int channel, value)`. */
    method OutputInt(channel: int, value: int) returns (o: Outcome)
      modifies this`kernel
      requires Valid()
      ensures Valid()
      ensures o.Pass? ==> IntToString(channel) in channelData &&
                          kernel == WriteValue(old(kernel), channelData[IntToString(channel)].gpio, OutputLevel(value))
    {
      o := Output(IntToString(channel), value);
    }

    /** The channels of `names` can all be written: GPIOs set up as outputs. */
    predicate Writable(names: seq<string>)
      reads this
    {
      forall i :: 0 <= i < |names| ==>
        ChannelToInfo(names[i], true, false).Ok? && AppChannelConfiguration(channelData[names[i]]) == Direction.OUT
    }

    /** The lines of channels of the table. */
    function LinesOfSeq(names: seq<string>): (gpios: seq<int>)
      reads this
      requires forall i :: 0 <= i < |names| ==> names[i] in channelData
      ensures |gpios| == |names| && forall i :: 0 <= i < |names| ==> gpios[i] == channelData[names[i]].gpio
    {
      var table := channelData;
      seq(|names|, i requires 0 <= i < |names| => table[names[i]].gpio)
    }

    /** A writable prefix extended by a writable channel, and its lines. */
    lemma WritableStep(names: seq<string>, n: nat)
      requires Valid() && n < |names| && Writable(names[..n])
      requires ChannelToInfo(names[n], true, false).Ok? && AppChannelConfiguration(channelData[names[n]]) == Direction.OUT
      ensures Writable(names[..n + 1])
      ensures LinesOfSeq(names[..n + 1]) == LinesOfSeq(names[..n]) + [channelData[names[n]].gpio]
    {
      TakeOneMore(names, n);
    }

    /** `output(channels, values)`: the lists must have the same length; then
        each channel is written in order, until one of them fails. */
    method OutputEach(names: seq<string>, values: seq<int>) returns (o: Outcome, done: nat)
      modifies this`kernel
      requires Valid()
      ensures Valid()
      ensures |names| != |values| ==> o == Fail(LengthMismatch) && done == 0 && kernel == old(kernel)
      ensures |names| == |values| ==>
                done <= |names| && Writable(names[..done]) &&
                kernel == WriteLevels(old(kernel), LinesOfSeq(names[..done]), values[..done]) &&
                (o.Pass? <==> done == |names|) &&
                (o.Fail? ==> !Writable([names[done]]))
    {
      if |names| != |values| {
        return Fail(LengthMismatch), 0;
      }
      done := 0;
      while done < |names|
        invariant Valid() && done <= |names| && Writable(names[..done])
        invariant kernel == WriteLevels(old(kernel), LinesOfSeq(names[..done]), values[..done])
      {
        o := Output(names[done], values[done]);
        if o.Fail? {
          assert [names[done]][0] == names[done];
          return;
        }
        WritableStep(names, done);
        WriteLevelsSnoc(old(kernel), LinesOfSeq(names[..done]), values[..done], channelData[names[done]].gpio, values[done]);
        TakeOneMore(values, done);
        done := done + 1;
      }
      return Pass, done;
    }

    /** `output(channels, value)`: every channel is written the same value, in
        order, until one of them fails. */
    method OutputAll(names: seq<string>, value: int) returns (o: Outcome, done: nat)
      modifies this`kernel
      requires Valid()
      ensures Valid()
      ensures done <= |names| && Writable(names[..done])
      ensures kernel == WriteLevels(old(kernel), LinesOfSeq(names[..done]), seq(done, _ => value))
      ensures o.Pass? <==> done == |names|
      ensures o.Fail? ==> !Writable([names[done]])
    {
      o, done := OutputEach(names, seq(|names|, _ => value));
      assert seq(|names|, _ => value)[..done] == seq(done, _ => value);
    }

    /** `gpio_function(channel)`: what sysfs reports for the channel. */
    function GpioFunction(name: string): (r: Result<Direction>)
      reads this
      ensures r.Ok? <==> ChannelToInfo(name, false, false).Ok?
      ensures r.Ok? ==> r.value == SysfsChannelConfiguration(channelData[name])
    {
      var info :- ChannelToInfo(name, false, false);
      Ok(SysfsChannelConfiguration(info))
    }

    /** `gpio_function(int channel)`. */
    function GpioFunctionInt(channel: int): (r: Result<Direction>)
      reads this
      ensures r.Ok? <==> ChannelToInfo(IntToString(channel), false, false).Ok?
      ensures r.Ok? ==> r.value == SysfsChannelConfiguration(channelData[IntToString(channel)])
    {
      GpioFunction(IntToString(channel))
    }

    // ----------------------------------------------------------- edge events

    /** The check every edge-event call makes: the channel is a GPIO set up
        as an input. */
    function InputChannel(name: string): (r: Result<ChannelInfo>)
      reads this
      ensures r.Ok? <==> ChannelToInfo(name, true, false).Ok? &&
                         AppChannelConfiguration(channelData[name]) == Direction.IN
      ensures r.Ok? ==> r.value == channelData[name]
      ensures Valid() && r.Ok? ==> name in configuration && configuration[name] == Direction.IN
      ensures r.Err? && ChannelToInfo(name, true, false).Ok? ==> r.error == NotInput
      ensures r.Err? && ChannelToInfo(name, true, false).Err? ==> r.error == ChannelToInfo(name, true, false).error
    {
      var info :- ChannelToInfo(name, true, false);
      if AppChannelConfiguration(info) != Direction.IN then Err(NotInput) else Ok(info)
    }

    /** `event_detected(channel)`: `detected` is what the event back end
        reports.  A failed lookup happens before the handler, so its error
        propagates to the caller and nothing is cleaned up; a channel not set
        up as input ends the program after every channel is cleaned up. */
    method EventDetected(name: string, detected: bool) returns (r: Result<bool>)
      modifies this`kernel, this`configuration, this`eventsCleaned, this`mode
      requires Valid()
      ensures Valid()
      ensures old(ChannelToInfo(name, true, false)).Err? ==>
                r == Err(old(ChannelToInfo(name, true, false)).error) && unchanged(this)
      ensures old(ChannelToInfo(name, true, false)).Ok? && old(InputChannel(name)).Err? ==>
                r == Err(NotInput) && AllCleanedFrom(old(kernel), old(ConfiguredLines()), old(eventsCleaned))
      ensures old(InputChannel(name)).Ok? ==> r == Ok(detected) && unchanged(this)
    {
      var info := ChannelToInfo(name, true, false);
      if info.Err? {
        return Err(info.error);
      }
      var input := InputChannel(name);
      if input.Err? {
        CleanupAll();
        return Err(input.error);
      }
      return Ok(detected);
    }

    /** `add_event_callback(channel, callback)`: the callback must not be
        empty, the channel must be an input, its edge event must exist (the
        corrected guard) and the back end's result `code` must be 0; every
        refusal ends the program after every channel is cleaned up. */
    method AddEventCallback(name: string, cb: Callback, eventExists: bool, code: int) returns (o: Outcome)
      modifies this`kernel, this`configuration, this`eventsCleaned, this`mode
      requires Valid()
      ensures Valid()
      ensures o.Pass? <==> !Equal(cb, GpioTypes.NullCallback()) && old(InputChannel(name)).Ok? && eventExists && code == 0
      ensures o.Pass? ==> unchanged(this)
      ensures o.Fail? ==> AllCleanedFrom(old(kernel), old(ConfiguredLines()), old(eventsCleaned))
      ensures o.Fail? ==> o.error == (if Equal(cb, GpioTypes.NullCallback()) then Errors.NullCallback
                                      else if old(InputChannel(name)).Err? then old(InputChannel(name)).error
                                      else if !eventExists then NoEdgeEvent
                                      else EventError(code))
    {
      if Equal(cb, GpioTypes.NullCallback()) {
        CleanupAll();
        return Fail(Errors.NullCallback);
      }
      var input := InputChannel(name);
      if input.Err? {
        CleanupAll();
        return Fail(input.error);
      }
      var guard := EdgeEventGuard(eventExists);
      if guard.Fail? {
        CleanupAll();
        return guard;
      }
      if code != 0 {
        CleanupAll();
        return Fail(EventError(code));
      }
      return Pass;
    }

    /** `add_event_callback` with the guard as the source has it: a channel
        whose edge event exists is refused, one without goes ahead. */
    method AddEventCallbackAsWritten(name: string, cb: Callback, eventExists: bool, code: int) returns (o: Outcome)
      modifies this`kernel, this`configuration, this`eventsCleaned, this`mode
      requires Valid()
      ensures Valid()
      ensures o.Pass? <==> !Equal(cb, GpioTypes.NullCallback()) && old(InputChannel(name)).Ok? && !eventExists && code == 0
      ensures o.Pass? ==> unchanged(this)
      ensures o.Fail? ==> AllCleanedFrom(old(kernel), old(ConfiguredLines()), old(eventsCleaned))
      ensures o.Fail? ==> o.error == (if Equal(cb, GpioTypes.NullCallback()) then Errors.NullCallback
                                      else if old(InputChannel(name)).Err? then old(InputChannel(name)).error
                                      else if eventExists then NoEdgeEvent
                                      else EventError(code))
    {
      if Equal(cb, GpioTypes.NullCallback()) {
        CleanupAll();
        return Fail(Errors.NullCallback);
      }
      var input := InputChannel(name);
      if input.Err? {
        CleanupAll();
        return Fail(input.error);
      }
      var guard := EdgeEventGuardAsWritten(eventExists);
      if guard.Fail? {
        CleanupAll();
        return Fail(NoEdgeEvent);
      }
      if code != 0 {
        CleanupAll();
        return Fail(EventError(code));
      }
      return Pass;
    }

    /** `remove_event_callback(channel, callback)`: only the lookup can fail
        (its error propagates to the caller; nothing is cleaned up); the back
        end's removal is not modelled. */
    function RemoveEventCallback(name: string, cb: Callback): (o: Outcome)
      reads this
      ensures o.Pass? <==> ChannelToInfo(name, true, false).Ok?
      ensures o.Fail? ==> o.error == ChannelToInfo(name, true, false).error
    {
      var r := ChannelToInfo(name, true, false);
      if r.Err? then Fail(r.error) else Pass
    }

    /** `add_event_detect(int channel, edge, callback, bounce_time)`: the
        channel must be an input and the edge rising, falling or both; the
        back end's result `detectCode` must be 0, and, for a non-empty
        callback, so must `callbackCode`, the result of adding it.  Every
        refusal ends the program after every channel is cleaned up. */
    method AddEventDetectInt(channel: int, edge: Edge, cb: Callback, bounceTime: nat, detectCode: int, callbackCode: int)
      returns (o: Outcome)
      modifies this`kernel, this`configuration, this`eventsCleaned, this`mode
      requires Valid()
      ensures Valid()
      ensures o.Pass? <==> old(InputChannel(IntToString(channel))).Ok? && IsEventEdge(edge) && detectCode == 0 &&
                           (cb.fn.Holds? ==> callbackCode == 0)
      ensures o.Pass? ==> unchanged(this)
      ensures o.Fail? ==> AllCleanedFrom(old(kernel), old(ConfiguredLines()), old(eventsCleaned))
      ensures o.Fail? ==> o.error == (if old(InputChannel(IntToString(channel))).Err? then old(InputChannel(IntToString(channel))).error
                                      else if !IsEventEdge(edge) then InvalidEdge
                                      else if detectCode != 0 then EventError(detectCode)
                                      else CallbackAddFailed)
    {
      var input := InputChannel(IntToString(channel));
      if input.Err? {
        CleanupAll();
        return Fail(input.error);
      }
      if edge != Edge.RISING && edge != Edge.FALLING && edge != Edge.BOTH {
        CleanupAll();
        return Fail(InvalidEdge);
      }
      if detectCode != 0 {
        CleanupAll();
        return Fail(EventError(detectCode));
      }
      EqualNull(cb);
      if !Equal(cb, GpioTypes.NullCallback()) && callbackCode != 0 {
        CleanupAll();
        return Fail(CallbackAddFailed);
      }
      return Pass;
    }

    /** `add_event_detect(string channel, ...)`: the channel is `atoi` of
        the name. */
    method AddEventDetect(name: string, edge: Edge, cb: Callback, bounceTime: nat, detectCode: int, callbackCode: int)
      returns (o: Outcome)
      modifies this`kernel, this`configuration, this`eventsCleaned, this`mode
      requires Valid()
      ensures Valid()
      ensures o.Pass? <==> old(InputChannel(IntToString(Atoi(name)))).Ok? && IsEventEdge(edge) && detectCode == 0 &&
                           (cb.fn.Holds? ==> callbackCode == 0)
      ensures o.Fail? ==> AllCleanedFrom(old(kernel), old(ConfiguredLines()), old(eventsCleaned))
    {
      o := AddEventDetectInt(Atoi(name), edge, cb, bounceTime, detectCode, callbackCode);
    }

    /** `remove_event_detect(channel)`: only the lookup can fail. */
    function RemoveEventDetect(name: string): (o: Outcome)
      reads this
      ensures o.Pass? <==> ChannelToInfo(name, true, false).Ok?
      ensures o.Fail? ==> o.error == ChannelToInfo(name, true, false).error
    {
      var r := ChannelToInfo(name, true, false);
      if r.Err? then Fail(r.error) else Pass
    }

    /** `wait_for_edge(int channel, edge, bounce_time, timeout)`: after the
        checks of `add_event_detect`, the back end's result `code` decides: 0
        (time-out) returns 0, 1 (edge seen) returns the channel, anything else
        ends the program after every channel is cleaned up. */
    method WaitForEdgeInt(channel: int, edge: Edge, bounceTime: nat, timeout: nat, code: int) returns (r: Result<int>)
      modifies this`kernel, this`configuration, this`eventsCleaned, this`mode
      requires Valid()
      ensures Valid()
      ensures r.Ok? <==> old(InputChannel(IntToString(channel))).Ok? && IsEventEdge(edge) && (code == 0 || code == 1)
      ensures r.Ok? ==> unchanged(this) && r.value == (if code == 0 then 0 else channel)
      ensures r.Err? ==> AllCleanedFrom(old(kernel), old(ConfiguredLines()), old(eventsCleaned))
      ensures r.Err? ==> r.error == (if old(InputChannel(IntToString(channel))).Err? then old(InputChannel(IntToString(channel))).error
                                     else if !IsEventEdge(edge) then InvalidEdge
                                     else EventError(code))
    {
      var input := InputChannel(IntToString(channel));
      if input.Err? {
        CleanupAll();
        return Err(input.error);
      }
      if edge != Edge.RISING && edge != Edge.FALLING && edge != Edge.BOTH {
        CleanupAll();
        return Err(InvalidEdge);
      }
      if code == 0 {
        return Ok(0);
      } else if code == 1 {
        return Ok(channel);
      }
      CleanupAll();
      return Err(EventError(code));
    }

    /** `wait_for_edge(string channel, ...)`: the channel is `atoi` of the
        name, and an edge seen on it returns that number. */
    method WaitForEdge(name: string, edge: Edge, bounceTime: nat, timeout: nat, code: int) returns (r: Result<int>)
      modifies this`kernel, this`configuration, this`eventsCleaned, this`mode
      requires Valid()
      ensures Valid()
      ensures r.Ok? <==> old(InputChannel(IntToString(Atoi(name)))).Ok? && IsEventEdge(edge) && (code == 0 || code == 1)
      ensures r.Ok? ==> r.value == (if code == 0 then 0 else Atoi(name))
    {
      r := WaitForEdgeInt(Atoi(name), edge, bounceTime, timeout, code);
    }

    // ------------------------------------------------------------------ PWM

    /** Records a channel as set up in direction `d` (the PWM objects do this
        from outside). */
    method Configure(name: string, d: Direction)
      modifies this`configuration
      requires Valid() && mode != None && name in channelData
      ensures Valid()
      ensures configuration == old(configuration)[name := d]
    {
      configuration := configuration[name := d];
    }

    /** Marks a channel as driven, or no longer driven, by a PWM object. */
    method MarkPwm(name: string, driven: bool)
      modifies this`pwmChannels
      ensures driven ==> pwmChannels == old(pwmChannels)[name := true]
      ensures !driven ==> pwmChannels == old(pwmChannels) - {name}
    {
      if driven {
        pwmChannels := pwmChannels[name := true];
      } else {
        pwmChannels := pwmChannels - {name};
      }
    }

    /** Forgets a channel the PWM object set up. */
    method Unconfigure(name: string)
      modifies this`configuration
      requires Valid()
      ensures Valid()
      ensures configuration == old(configuration) - {name}
    {
      configuration := configuration - {name};
    }
  }

  /** `GPIO::PWM`: the library's PWM object, a software PWM on a GPIO
      channel, registered in the registry as an output driven by PWM. */
  class Pwm {
    const reg: Registry
    const impl: SoftPwm
    /** The channel's name, `to_string` of the number it was built for. */
    const name: string

    predicate Valid()
      reads this, reg, impl
    {
      reg.Valid() && impl.Valid() && impl.Timed() && impl.info.channel == name
    }

    constructor Init(r: Registry, p: SoftPwm, n: string)
      ensures reg == r && impl == p && name == n
    {
      reg := r;
      impl := p;
      name := n;
    }

    /** `PWM(channel, frequency_hz)`.  A channel already driven by a PWM is
        refused after every channel is cleaned up.  The lookup (which needs a
        GPIO) and the frequency check happen outside the constructor's
        handlers, so their errors propagate to the caller and nothing is
        cleaned up.  Otherwise the
        worker is configured at duty cycle 0 and the channel recorded as an
        output driven by PWM. */
    static method Create(reg: Registry, channel: int, f: int) returns (r: Result<Pwm>)
      modifies reg`kernel, reg`configuration, reg`eventsCleaned, reg`mode, reg`pwmChannels
      requires reg.Valid()
      ensures reg.Valid()
      ensures IntToString(channel) in old(reg.pwmChannels) ==>
                r == Err(AlreadyPwm) &&
                reg.AllCleanedFrom(old(reg.kernel), old(reg.ConfiguredLines()), old(reg.eventsCleaned))
      ensures IntToString(channel) !in old(reg.pwmChannels) ==> reg.kernel == old(reg.kernel) && reg.mode == old(reg.mode)
      ensures IntToString(channel) !in old(reg.pwmChannels) && old(reg.ChannelToInfo(IntToString(channel), true, false)).Err? ==>
                r == Err(old(reg.ChannelToInfo(IntToString(channel), true, false)).error) &&
                reg.configuration == old(reg.configuration) && reg.pwmChannels == old(reg.pwmChannels)
      ensures IntToString(channel) !in old(reg.pwmChannels) && old(reg.ChannelToInfo(IntToString(channel), true, false)).Ok? ==>
                (r.Err? <==> f <= 0) && (r.Err? ==> r.error == InvalidFrequency)
      ensures r.Ok? ==> fresh(r.value) && fresh(r.value.impl) && r.value.reg == reg && r.value.Valid() &&
                        r.value.name == IntToString(channel) &&
                        r.value.impl.info == old(reg.channelData[IntToString(channel)]) &&
                        r.value.impl.frequency == f && r.value.impl.dutyPercent == 0.0 && !r.value.impl.started &&
                        reg.configuration == old(reg.configuration)[IntToString(channel) := Direction.OUT] &&
                        reg.pwmChannels == old(reg.pwmChannels)[IntToString(channel) := true]
    {
      var n := IntToString(channel);
      if n in reg.pwmChannels {
        reg.CleanupAll();
        return Err(AlreadyPwm);
      }
      var info := reg.ChannelToInfo(n, true, false);
      if info.Err? {
        return Err(info.error);
      }
      var made := SoftPwm.Create(info.value, f);
      if made.Err? {
        return Err(made.error);
      }
      var p := made.value;
      var o := p.Reconfigure(f, 0.0, false);
      reg.Configure(n, Direction.OUT);
      reg.MarkPwm(n, true);
      var pwm := new Pwm.Init(reg, p, n);
      return Ok(pwm);
    }

    /** `~PWM()`: nothing when the channel was cleaned up already; otherwise
        the worker is stopped and the channel forgotten. */
    method Destroy()
      modifies reg`configuration, reg`pwmChannels, impl`started, impl`stopThread
      requires Valid()
      ensures Valid()
      ensures name !in old(reg.configuration) ==> unchanged(reg) && unchanged(impl)
      ensures name in old(reg.configuration) ==>
                !impl.started && reg.configuration == old(reg.configuration) - {name} &&
                reg.pwmChannels == old(reg.pwmChannels) - {name}
    {
      if name !in reg.configuration {
        return;
      }
      impl.Stop();
      reg.Unconfigure(name);
      reg.MarkPwm(name, false);
    }

    /** `start(duty_cycle_percent)`: the worker is (re)started at its
        frequency; a duty cycle outside 0..100 ends the program after every
        channel is cleaned up. */
    method Start(duty: real) returns (o: Outcome)
      modifies reg`kernel, reg`configuration, reg`eventsCleaned, reg`mode, impl
      requires Valid()
      ensures Valid()
      ensures o.Pass? <==> 0.0 <= duty <= 100.0
      ensures o.Pass? ==> impl.started && impl.dutyPercent == duty && impl.frequency == old(impl.frequency) &&
                          unchanged(reg)
      ensures o.Fail? ==> o.error == InvalidDutyCycle && unchanged(impl) &&
                          reg.AllCleanedFrom(old(reg.kernel), old(reg.ConfiguredLines()), old(reg.eventsCleaned))
    {
      o := impl.Reconfigure(impl.frequency, duty, true);
      if o.Fail? {
        reg.CleanupAll();
      }
    }

    /** `start(duty_cycle_percent)` over the source's worker `start`: a
        worker that runs is stopped and not launched again, and one stopped
        earlier is launched with its stop flag still raised, so it runs only
        when it never ran before. */
    method StartAsWritten(duty: real) returns (o: Outcome)
      modifies reg`kernel, reg`configuration, reg`eventsCleaned, reg`mode, impl
      requires Valid()
      ensures Valid()
      ensures o.Pass? <==> 0.0 <= duty <= 100.0
      ensures o.Pass? ==> impl.started == (!old(impl.started) && !old(impl.stopThread)) &&
                          impl.dutyPercent == duty && impl.frequency == old(impl.frequency) && unchanged(reg)
      ensures o.Fail? ==> o.error == InvalidDutyCycle && unchanged(impl) &&
                          reg.AllCleanedFrom(old(reg.kernel), old(reg.ConfiguredLines()), old(reg.eventsCleaned))
    {
      o := impl.ReconfigureAsWritten(impl.frequency, duty, true);
      if o.Fail? {
        reg.CleanupAll();
      }
    }

    /** `ChangeFrequency(frequency_hz)`: at the current duty cycle; a running
        worker is restarted at the new frequency. */
    method ChangeFrequency(f: int) returns (o: Outcome)
      modifies impl
      requires Valid()
      ensures Valid()
      ensures o.Pass? <==> f > 0 || f == old(impl.frequency)
      ensures o.Pass? ==> impl.frequency == f && impl.dutyPercent == old(impl.dutyPercent) &&
                          impl.started == old(impl.started)
      ensures o.Fail? ==> o.error == InvalidFrequency && unchanged(impl)
    {
      o := impl.Reconfigure(f, impl.dutyPercent, false);
    }

    /** `ChangeDutyCycle(duty_cycle_percent)`: at the current frequency; the
        worker keeps running, or not running. */
    method ChangeDutyCycle(duty: real) returns (o: Outcome)
      modifies impl
      requires Valid()
      ensures Valid()
      ensures o.Pass? <==> 0.0 <= duty <= 100.0
      ensures o.Pass? ==> impl.dutyPercent == duty && impl.frequency == old(impl.frequency) &&
                          impl.started == old(impl.started)
      ensures o.Fail? ==> o.error == InvalidDutyCycle && unchanged(impl)
    {
      o := impl.Reconfigure(impl.frequency, duty, false);
    }

    /** `stop()`. */
    method Stop()
      modifies impl`started, impl`stopThread
      requires Valid()
      ensures Valid()
      ensures !impl.started
    {
      impl.Stop();
    }
  }
}
