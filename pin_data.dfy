/** The pin catalog: the literal pin tables of the two supported boards, and
    `get_data`, which picks the board from the device-tree compatible
    strings, locates the GPIO and PWM chips under the sysfs device prefixes
    and builds one name -> `ChannelInfo` table per numbering mode.

    The filesystem is a `Platform` value: the compatible text, the paths that
    are directories, the paths that exist, the directory listings, and the
    number each readable gpiochip `base` file holds. */
module PinCatalog {
  import opened Errors
  import opened GpioTypes
  import opened BoardModel
  import opened PythonFunctions

  // ------------------------------------------------------------- definitions

  /** One row of a pin table. */
  datatype PinDefinition = PinDefinition(
    linuxPin: int,        // line offset within the GPIO chip
    sysfsDir: string,     // GPIO chip device name
    boardPin: string,     // name in BOARD mode
    bcmPin: string,       // name in BCM mode
    socPin: string,       // name in SOC mode
    pwmSysfsDir: string,  // PWM chip device name, or "None"
    pwmId: int)           // PWM line within the PWM chip, or -1

  /** `PinDefinition::PinName`: the row's name under a numbering mode; every
      mode other than BOARD and BCM (SOC, and None) selects the SOC name. */
  function PinName(d: PinDefinition, key: NumberingMode): (r: string)
    ensures key == BOARD ==> r == d.boardPin
    ensures key == BCM ==> r == d.bcmPin
    ensures key != BOARD && key != BCM ==> r == d.socPin
  {
    if key == BOARD then d.boardPin else if key == BCM then d.bcmPin else d.socPin
  }

  /** `PinInfo`: the board description. */
  datatype PinInfo = PinInfo(p1Revision: int, ram: string, revision: string,
                             boardType: string, manufacturer: string, processor: string)

  /** `ChannelInfo`: what the library knows about one channel.  Its six fields
      are exactly the constructor's arguments and never change. */
  datatype ChannelInfo = ChannelInfo(
    channel: string,      // the channel's name in the active numbering mode
    gpioChipDir: string,  // sysfs directory of the GPIO chip, or "None"
    chipGpio: int,        // line offset within the chip
    gpio: int,            // global (sysfs) GPIO number, or -1
    pwmChipDir: string,   // sysfs directory of the pwmchip, or "None"
    pwmId: int)           // PWM line within the pwmchip

  /** `PinData`: the board, its description and the tables per mode. */
  datatype PinData = PinData(model: Model, pinInfo: PinInfo,
                             channelData: map<NumberingMode, map<string, ChannelInfo>>)

  /** Every entry of a table is filed under its own channel name. */
  predicate TableWellFormed(t: map<string, ChannelInfo>)
  {
    forall k :: k in t ==> t[k].channel == k
  }

  // ------------------------------------------------------------ the tables

  const J721E_SK_PIN_DEFS: seq<PinDefinition> := [
    PinDefinition( 84, "600000.gpio",  "3",  "2", "GPIO0_84",  "None",        -1),
    PinDefinition( 83, "600000.gpio",  "5",  "3", "GPIO0_83",  "None",        -1),
    PinDefinition(  7, "600000.gpio",  "7",  "4", "GPIO0_7",   "None",        -1),
    PinDefinition( 70, "600000.gpio",  "8", "14", "GPIO0_70",  "None",        -1),
    PinDefinition( 81, "600000.gpio", "10", "15", "GPIO0_81",  "None",        -1),
    PinDefinition( 71, "600000.gpio", "11", "17", "GPIO0_71",  "None",        -1),
    PinDefinition(  1, "600000.gpio", "12", "18", "GPIO0_1",   "None",        -1),
    PinDefinition( 82, "600000.gpio", "13", "27", "GPIO0_82",  "None",        -1),
    PinDefinition( 11, "600000.gpio", "15", "22", "GPIO0_11",  "None",        -1),
    PinDefinition(  5, "600000.gpio", "16", "23", "GPIO0_5",   "None",        -1),
    PinDefinition( 12, "601000.gpio", "18", "24", "GPIO0_12",  "None",        -1),
    PinDefinition(101, "600000.gpio", "19", "10", "GPIO0_101", "None",        -1),
    PinDefinition(107, "600000.gpio", "21",  "9", "GPIO0_107", "None",        -1),
    PinDefinition(  8, "600000.gpio", "22", "25", "GPIO0_8",   "None",        -1),
    PinDefinition(103, "600000.gpio", "23", "11", "GPIO0_103", "None",        -1),
    PinDefinition(102, "600000.gpio", "24",  "8", "GPIO0_102", "None",        -1),
    PinDefinition(108, "600000.gpio", "26",  "7", "GPIO0_108", "None",        -1),
    PinDefinition( 93, "600000.gpio", "29",  "5", "GPIO0_93",  "3020000.pwm",  0),
    PinDefinition( 94, "600000.gpio", "31",  "6", "GPIO0_94",  "3020000.pwm",  1),
    PinDefinition( 98, "600000.gpio", "32", "12", "GPIO0_98",  "3030000.pwm",  0),
    PinDefinition( 99, "600000.gpio", "33", "13", "GPIO0_99",  "3030000.pwm",  1),
    PinDefinition(  2, "600000.gpio", "35", "19", "GPIO0_2",   "None",        -1),
    PinDefinition( 97, "600000.gpio", "36", "16", "GPIO0_97",  "None",        -1),
    PinDefinition(115, "600000.gpio", "37", "26", "GPIO0_115", "None",        -1),
    PinDefinition(  3, "600000.gpio", "38", "20", "GPIO0_3",   "None",        -1),
    PinDefinition(  4, "600000.gpio", "40", "21", "GPIO0_4",   "None",        -1)
  ]

  const COMPATS_J721E: seq<string> := ["ti,j721e-eaikti", "ti,j721e"]

  const AM68_SK_PIN_DEFS: seq<PinDefinition> := [
    PinDefinition( 84, "600000.gpio",  "3",  "2", "GPIO0_84",  "None",        -1),
    PinDefinition( 83, "600000.gpio",  "5",  "3", "GPIO0_83",  "None",        -1),
    PinDefinition(  7, "600000.gpio",  "7",  "4", "GPIO0_7",   "None",        -1),
    PinDefinition( 70, "600000.gpio",  "8", "14", "GPIO0_70",  "None",        -1),
    PinDefinition( 81, "600000.gpio", "10", "15", "GPIO0_81",  "None",        -1),
    PinDefinition( 71, "600000.gpio", "11", "17", "GPIO0_71",  "None",        -1),
    PinDefinition(  1, "600000.gpio", "12", "18", "GPIO0_1",   "None",        -1),
    PinDefinition( 82, "600000.gpio", "13", "27", "GPIO0_82",  "None",        -1),
    PinDefinition( 11, "600000.gpio", "15", "22", "GPIO0_11",  "None",        -1),
    PinDefinition(  5, "600000.gpio", "16", "23", "GPIO0_5",   "None",        -1),
    PinDefinition( 12, "601000.gpio", "18", "24", "GPIO0_12",  "None",        -1),
    PinDefinition(101, "600000.gpio", "19", "10", "GPIO0_101", "None",        -1),
    PinDefinition(107, "600000.gpio", "21",  "9", "GPIO0_107", "None",        -1),
    PinDefinition(  8, "600000.gpio", "22", "25", "GPIO0_8",   "None",        -1),
    PinDefinition(103, "600000.gpio", "23", "11", "GPIO0_103", "None",        -1),
    PinDefinition(102, "600000.gpio", "24",  "8", "GPIO0_102", "None",        -1),
    PinDefinition(108, "600000.gpio", "26",  "7", "GPIO0_108", "None",        -1),
    PinDefinition( 93, "600000.gpio", "29",  "5", "GPIO0_93",  "3020000.pwm",  0),
    PinDefinition( 94, "600000.gpio", "31",  "6", "GPIO0_94",  "3020000.pwm",  1),
    PinDefinition( 98, "600000.gpio", "32", "12", "GPIO0_98",  "3030000.pwm",  0),
    PinDefinition( 99, "600000.gpio", "33", "13", "GPIO0_99",  "3030000.pwm",  1),
    PinDefinition(  2, "600000.gpio", "35", "19", "GPIO0_2",   "None",        -1),
    PinDefinition( 97, "600000.gpio", "36", "16", "GPIO0_97",  "None",        -1),
    PinDefinition(115, "600000.gpio", "37", "26", "GPIO0_115", "None",        -1),
    PinDefinition(  3, "600000.gpio", "38", "20", "GPIO0_3",   "None",        -1),
    PinDefinition(  4, "600000.gpio", "40", "21", "GPIO0_4",   "None",        -1)
  ]

  const COMPATS_AM68SK: seq<string> := ["ti,am68-sk", "ti,j721s2"]

  /** The boards `get_data` can select. */
  predicate Supported(m: Model)
  {
    m == J721E_SK || m == AM68_SK
  }

  /** `PIN_DEFS_MAP.at(model)`. */
  function PinDefsOf(m: Model): seq<PinDefinition>
    requires Supported(m)
  {
    if m == J721E_SK then J721E_SK_PIN_DEFS else AM68_SK_PIN_DEFS
  }

  /** `DEVICE_INFO_MAP.at(model)`. */
  function DeviceInfoOf(m: Model): PinInfo
    requires Supported(m)
  {
    if m == J721E_SK then PinInfo(1, "8192M", "Unknown", "J721e SK", "TI", "ARM A72")
    else PinInfo(1, "8192M", "Unknown", "AM68 SK", "TI", "ARM A72")
  }

  const SYSFS_PREFIXES: seq<string> := [
    "/sys/devices/",
    "/sys/devices/platform/",
    "/sys/devices/platform/bus@100000/",
    "/sys/devices/platform/bus@100000/bus@100000:bus@28380000/"
  ]

  // ------------------------------------------------------ board selection

  /** The set of NUL-separated strings of the device-tree compatible text. */
  function Compatibles(text: string): set<string>
  {
    set i | 0 <= i < |Fields(text, '\0')| :: Fields(text, '\0')[i]
  }

  /** `matches(vals)`: some value is one of the compatible strings. */
  function Matches(vals: seq<string>, compatibles: set<string>): (r: bool)
    ensures r <==> exists i :: 0 <= i < |vals| && vals[i] in compatibles
  {
    if vals == [] then false
    else if vals[0] in compatibles then true
    else
      var r := Matches(vals[1..], compatibles);
      assert forall i :: 1 <= i < |vals| ==> vals[i] == vals[1..][i - 1];
      r
  }

  /** The board: J721E SK when one of its compatibles is present, else AM68 SK
      when one of its compatibles is present, else an error. */
  function SelectModel(compatibles: set<string>): (r: Result<Model>)
    ensures r.Ok? ==> Supported(r.value)
    ensures r == Ok(J721E_SK) <==> Matches(COMPATS_J721E, compatibles)
    ensures r == Ok(AM68_SK) <==>
              !Matches(COMPATS_J721E, compatibles) && Matches(COMPATS_AM68SK, compatibles)
    ensures r.Err? ==> r.error == UnknownSocModel
  {
    if Matches(COMPATS_J721E, compatibles) then Ok(J721E_SK)
    else if Matches(COMPATS_AM68SK, compatibles) then Ok(AM68_SK)
    else Err(UnknownSocModel)
  }

  /** A compatible text naming "ti,j721e" selects J721E SK whatever else it
      names; one naming only AM68 SK compatibles selects AM68 SK. */
  lemma SelectModelExamples(text: string)
    ensures "ti,j721e" in Compatibles(text) ==> SelectModel(Compatibles(text)) == Ok(J721E_SK)
    ensures "ti,am68-sk" in Compatibles(text) && "ti,j721e" !in Compatibles(text) &&
            "ti,j721e-eaikti" !in Compatibles(text)
            ==> SelectModel(Compatibles(text)) == Ok(AM68_SK)
  {
    assert COMPATS_J721E[1] == "ti,j721e";
    assert COMPATS_AM68SK[0] == "ti,am68-sk";
  }

  // ---------------------------------------------------------- chip search

  /** Index of the first prefix under which `name` is a directory, or
      |prefixes| when there is none. */
  function FirstDirIndex(prefixes: seq<string>, name: string, isDir: set<string>): (k: nat)
    ensures k <= |prefixes|
    ensures forall j :: 0 <= j < k ==> prefixes[j] + name !in isDir
    ensures k < |prefixes| ==> prefixes[k] + name in isDir
  {
    if prefixes == [] then 0
    else if prefixes[0] + name in isDir then 0
    else 1 + FirstDirIndex(prefixes[1..], name, isDir)
  }

  /** The chip directory: the first `prefix + name` that is a directory,
      or "None". */
  function DirOf(prefixes: seq<string>, name: string, isDir: set<string>): string
  {
    var k := FirstDirIndex(prefixes, name, isDir);
    if k < |prefixes| then prefixes[k] + name else "None"
  }

  /** The search loop over the prefixes, stopping at the first directory. */
  method FindDir(prefixes: seq<string>, name: string, isDir: set<string>) returns (dir: string)
    ensures dir == DirOf(prefixes, name, isDir)
  {
    var i := 0;
    while i < |prefixes|
      invariant 0 <= i <= |prefixes|
      invariant forall j :: 0 <= j < i ==> prefixes[j] + name !in isDir
    {
      var d := prefixes[i] + name;
      if d in isDir {
        assert FirstDirIndex(prefixes, name, isDir) == i;
        return d;
      }
      i := i + 1;
    }
    assert FirstDirIndex(prefixes, name, isDir) == i;
    dir := "None";
  }

  /** The chip directory of `name` is the directory under the earliest
      listed prefix; it is "None" only when no prefix gives a directory. */
  lemma DirOfIsFirst(prefixes: seq<string>, name: string, isDir: set<string>)
    requires forall j :: 0 <= j < |prefixes| ==> prefixes[j] + name != "None"
    ensures DirOf(prefixes, name, isDir) == "None" <==>
            forall j :: 0 <= j < |prefixes| ==> prefixes[j] + name !in isDir
    ensures DirOf(prefixes, name, isDir) != "None" ==>
            exists k :: 0 <= k < |prefixes| && DirOf(prefixes, name, isDir) == prefixes[k] + name &&
                        prefixes[k] + name in isDir &&
                        forall j :: 0 <= j < k ==> prefixes[j] + name !in isDir
  {
  }

  /** Index of the first entry starting with `prefix`, or |entries|. */
  function FirstWithPrefixIndex(entries: seq<string>, prefix: string): (k: nat)
    ensures k <= |entries|
    ensures forall j :: 0 <= j < k ==> !StartsWith(entries[j], prefix)
    ensures k < |entries| ==> StartsWith(entries[k], prefix)
  {
    if entries == [] then 0
    else if StartsWith(entries[0], prefix) then 0
    else 1 + FirstWithPrefixIndex(entries[1..], prefix)
  }

  /** The first directory entry starting with `prefix`, if any. */
  function FirstWithPrefix(entries: seq<string>, prefix: string): Maybe<string>
  {
    var k := FirstWithPrefixIndex(entries, prefix);
    if k < |entries| then Just(entries[k]) else Nothing
  }

  /** The loop over a listing that stops at the first matching entry. */
  method FindEntry(entries: seq<string>, prefix: string) returns (found: Maybe<string>)
    ensures found == FirstWithPrefix(entries, prefix)
  {
    var i := 0;
    while i < |entries|
      invariant 0 <= i <= |entries|
      invariant forall j :: 0 <= j < i ==> !StartsWith(entries[j], prefix)
    {
      if StartsWith(entries[i], prefix) {
        assert FirstWithPrefixIndex(entries, prefix) == i;
        return Just(entries[i]);
      }
      i := i + 1;
    }
    assert FirstWithPrefixIndex(entries, prefix) == i;
    found := Nothing;
  }

  // -------------------------------------------------------------- platform

  /** What `get_data` reads from the filesystem. */
  datatype Platform = Platform(
    compatible: string,                // contents of /proc/device-tree/compatible
    isDir: set<string>,                // paths that are directories
    paths: set<string>,                // paths that exist
    listing: map<string, seq<string>>, // directories that can be listed, and their entries
    base: map<string, int>)            // gpiochip base files holding a number, and that number

  /** The names of the GPIO chips the table uses. */
  function GpioChipNames(defs: seq<PinDefinition>): set<string>
  {
    set i | 0 <= i < |defs| && !IsNone(defs[i].sysfsDir) :: defs[i].sysfsDir
  }

  /** The names of the PWM chips the table uses. */
  function PwmChipNames(defs: seq<PinDefinition>): set<string>
  {
    set i | 0 <= i < |defs| && !IsNone(defs[i].pwmSysfsDir) :: defs[i].pwmSysfsDir
  }

  function ChipDirOf(name: string, p: Platform): string
  {
    DirOf(SYSFS_PREFIXES, name, p.isDir)
  }

  /** The base of the chip found in `dir`: the number in the `base` file of
      its first `gpiochip*` entry; nothing when it has no such entry; an
      error when `dir/gpio` cannot be listed or the base file holds no
      number. */
  function ChipBaseOf(dir: string, p: Platform): Result<Maybe<int>>
  {
    var gdir := dir + "/gpio";
    if gdir !in p.listing then Err(CannotListDirectory)
    else
      match FirstWithPrefix(p.listing[gdir], "gpiochip")
      case Nothing => Ok(Nothing)
      case Just(fn) =>
        var path := gdir + "/" + fn + "/base";
        if path in p.base then Ok(Just(p.base[path])) else Err(InvalidChipBase)
  }

  /** A GPIO chip whose directory or base cannot be determined: fatal. */
  predicate GpioChipProblem(name: string, p: Platform)
  {
    IsNone(ChipDirOf(name, p)) || ChipBaseOf(ChipDirOf(name, p), p).Err?
  }

  predicate HasBase(name: string, p: Platform)
  {
    var b := ChipBaseOf(ChipDirOf(name, p), p);
    b.Ok? && b.value.Just?
  }

  /** `gpio_chip_dirs` once the chips in `names` are processed. */
  function GpioChipDirs(names: set<string>, p: Platform): map<string, string>
  {
    map n | n in names :: ChipDirOf(n, p)
  }

  /** `gpio_chip_base` once the chips in `names` are processed. */
  function GpioChipBases(names: set<string>, p: Platform): map<string, int>
  {
    map n | n in names && HasBase(n, p) :: ChipBaseOf(ChipDirOf(n, p), p).value.value
  }

  /** The `pwmchip*` directory of the PWM chip `name`: nothing when the chip
      has no directory, no `pwm` subdirectory or no `pwmchip*` entry (PWM
      capability is then dropped); an error only when the existing `pwm`
      subdirectory cannot be listed. */
  function PwmDirOf(name: string, p: Platform): Result<Maybe<string>>
  {
    var dir := ChipDirOf(name, p);
    if IsNone(dir) then Ok(Nothing)
    else
      var chipPwmDir := dir + "/pwm";
      if chipPwmDir !in p.paths then Ok(Nothing)
      else if chipPwmDir !in p.listing then Err(CannotListDirectory)
      else
        match FirstWithPrefix(p.listing[chipPwmDir], "pwmchip")
        case Nothing => Ok(Nothing)
        case Just(fn) => Ok(Just(chipPwmDir + "/" + fn))
  }

  predicate HasPwmDir(name: string, p: Platform)
  {
    var d := PwmDirOf(name, p);
    d.Ok? && d.value.Just?
  }

  /** `pwm_dirs` once the chips in `names` are processed. */
  function PwmDirs(names: set<string>, p: Platform): map<string, string>
  {
    map n | n in names && HasPwmDir(n, p) :: PwmDirOf(n, p).value.value
  }

  /** One GPIO chip: its directory, then the base of its first `gpiochip*`
      entry. */
  method LocateGpioChip(n: string, p: Platform) returns (r: Result<(string, Maybe<int>)>)
    ensures r.Err? <==> GpioChipProblem(n, p)
    ensures r.Ok? ==> r.value.0 == ChipDirOf(n, p) && Ok(r.value.1) == ChipBaseOf(ChipDirOf(n, p), p)
  {
    var dir := FindDir(SYSFS_PREFIXES, n, p.isDir);
    if IsNone(dir) {
      return Err(MissingGpioChip);
    }
    var gdir := dir + "/gpio";
    if gdir !in p.listing {
      return Err(CannotListDirectory);
    }
    var entry := FindEntry(p.listing[gdir], "gpiochip");
    if entry.Nothing? {
      return Ok((dir, Nothing));
    }
    var path := gdir + "/" + entry.value + "/base";
    if path !in p.base {
      return Err(InvalidChipBase);
    }
    r := Ok((dir, Just(p.base[path])));
  }

  lemma GpioChipMapsAdd(done: set<string>, n: string, p: Platform)
    ensures GpioChipDirs(done + {n}, p) == GpioChipDirs(done, p)[n := ChipDirOf(n, p)]
    ensures HasBase(n, p) ==>
            GpioChipBases(done + {n}, p) ==
            GpioChipBases(done, p)[n := ChipBaseOf(ChipDirOf(n, p), p).value.value]
    ensures !HasBase(n, p) && n !in done ==> GpioChipBases(done + {n}, p) == GpioChipBases(done, p)
  {
  }

  /** The loop over the GPIO chip names: locate each chip and read its base. */
  method FindGpioChips(names: set<string>, p: Platform)
    returns (r: Result<(map<string, string>, map<string, int>)>)
    ensures r.Err? <==> exists n :: n in names && GpioChipProblem(n, p)
    ensures r.Ok? ==> r.value.0 == GpioChipDirs(names, p) && r.value.1 == GpioChipBases(names, p)
  {
    var remaining := names;
    var dirs: map<string, string> := map[];
    var bases: map<string, int> := map[];
    while remaining != {}
      invariant remaining <= names
      invariant forall n :: n in names - remaining ==> !GpioChipProblem(n, p)
      invariant dirs == GpioChipDirs(names - remaining, p)
      invariant bases == GpioChipBases(names - remaining, p)
      decreases |remaining|
    {
      var n :| n in remaining;
      var done := names - remaining;
      var chip :- LocateGpioChip(n, p);
      GpioChipMapsAdd(done, n, p);
      if chip.1.Just? {
        bases := bases[n := chip.1.value];
      }
      dirs := dirs[n := chip.0];
      assert names - (remaining - {n}) == done + {n};
      remaining := remaining - {n};
    }
    assert names - remaining == names;
    r := Ok((dirs, bases));
  }

  /** One PWM chip: its directory, its `pwm` subdirectory, and the first
      `pwmchip*` entry there. */
  method LocatePwmDir(n: string, p: Platform) returns (r: Result<Maybe<string>>)
    ensures r == PwmDirOf(n, p)
  {
    var dir := FindDir(SYSFS_PREFIXES, n, p.isDir);
    if IsNone(dir) {
      return Ok(Nothing);
    }
    var chipPwmDir := dir + "/pwm";
    if chipPwmDir !in p.paths {
      return Ok(Nothing);
    }
    if chipPwmDir !in p.listing {
      return Err(CannotListDirectory);
    }
    var entry := FindEntry(p.listing[chipPwmDir], "pwmchip");
    if entry.Nothing? {
      return Ok(Nothing);
    }
    r := Ok(Just(chipPwmDir + "/" + entry.value));
  }

  lemma PwmDirsAdd(done: set<string>, n: string, p: Platform)
    ensures HasPwmDir(n, p) ==> PwmDirs(done + {n}, p) == PwmDirs(done, p)[n := PwmDirOf(n, p).value.value]
    ensures !HasPwmDir(n, p) && n !in done ==> PwmDirs(done + {n}, p) == PwmDirs(done, p)
  {
  }

  /** The loop over the PWM chip names: find each chip's `pwmchip*` directory. */
  method FindPwmDirs(names: set<string>, p: Platform) returns (r: Result<map<string, string>>)
    ensures r.Err? <==> exists n :: n in names && PwmDirOf(n, p).Err?
    ensures r.Ok? ==> r.value == PwmDirs(names, p)
  {
    var remaining := names;
    var dirs: map<string, string> := map[];
    while remaining != {}
      invariant remaining <= names
      invariant forall n :: n in names - remaining ==> PwmDirOf(n, p).Ok?
      invariant dirs == PwmDirs(names - remaining, p)
      decreases |remaining|
    {
      var n :| n in remaining;
      var done := names - remaining;
      var found :- LocatePwmDir(n, p);
      PwmDirsAdd(done, n, p);
      if found.Just? {
        dirs := dirs[n := found.value];
      }
      assert names - (remaining - {n}) == done + {n};
      remaining := remaining - {n};
    }
    assert names - remaining == names;
    r := Ok(dirs);
  }

  // ------------------------------------------------------------ model data

  /** `global_gpio_id`: the chip's base plus the offset, or -1 when the chip
      is "None", its base is unknown, or the offset is -1. */
  function GlobalGpioId(chipBase: map<string, int>, name: string, offset: int): (r: int)
    ensures IsNone(name) || name !in chipBase || offset == -1 ==> r == -1
    ensures !IsNone(name) && name in chipBase && offset != -1 ==> r - chipBase[name] == offset
  {
    if IsNone(name) || name !in chipBase || offset == -1 then -1 else chipBase[name] + offset
  }

  /** Two lines of one chip get the same global number only when they have
      the same offset. */
  lemma GlobalGpioIdInjective(chipBase: map<string, int>, name: string, a: int, b: int)
    requires GlobalGpioId(chipBase, name, a) != -1 && GlobalGpioId(chipBase, name, b) != -1
    ensures GlobalGpioId(chipBase, name, a) == GlobalGpioId(chipBase, name, b) ==> a == b
  {
  }

  /** `get_or(dictionary, x, default)`. */
  function GetOr(dictionary: map<string, string>, x: string, default: string): (r: string)
    ensures x in dictionary ==> r == dictionary[x]
    ensures x !in dictionary ==> r == default
  {
    if x in dictionary then dictionary[x] else default
  }

  /** `map::insert`: an existing key keeps its value. */
  function Insert<K, V>(m: map<K, V>, k: K, v: V): (r: map<K, V>)
    ensures r.Keys == m.Keys + {k}
    ensures k in m ==> r == m
    ensures k !in m ==> r[k] == v
    ensures forall j :: j in m ==> r[j] == m[j]
  {
    if k in m then m else m[k := v]
  }

  /** The `ChannelInfo` that `model_data` builds for a row. */
  function Info(x: PinDefinition, key: NumberingMode, chipDirs: map<string, string>,
                chipBase: map<string, int>, pwmDirs: map<string, string>): ChannelInfo
    requires x.sysfsDir in chipDirs
  {
    ChannelInfo(PinName(x, key), chipDirs[x.sysfsDir], x.linuxPin,
                GlobalGpioId(chipBase, x.sysfsDir, x.linuxPin),
                GetOr(pwmDirs, x.pwmSysfsDir, "None"), x.pwmId)
  }

  /** What `model_data(key, defs)` returns: the rows inserted in order. */
  function ModelDataSpec(key: NumberingMode, defs: seq<PinDefinition>, chipDirs: map<string, string>,
                         chipBase: map<string, int>, pwmDirs: map<string, string>)
    : Result<map<string, ChannelInfo>>
    decreases |defs|
  {
    if defs == [] then Ok(map[])
    else
      var prev := ModelDataSpec(key, defs[..|defs| - 1], chipDirs, chipBase, pwmDirs);
      var x := defs[|defs| - 1];
      if prev.Err? then prev
      else if x.sysfsDir !in chipDirs then Err(NotInGpioChipDirs)
      else Ok(Insert(prev.value, PinName(x, key), Info(x, key, chipDirs, chipBase, pwmDirs)))
  }

  /** The `model_data` loop. */
  method ModelData(key: NumberingMode, defs: seq<PinDefinition>, chipDirs: map<string, string>,
                   chipBase: map<string, int>, pwmDirs: map<string, string>)
    returns (r: Result<map<string, ChannelInfo>>)
    ensures r == ModelDataSpec(key, defs, chipDirs, chipBase, pwmDirs)
  {
    var ret: map<string, ChannelInfo> := map[];
    var i := 0;
    assert defs[..0] == [];
    while i < |defs|
      invariant 0 <= i <= |defs|
      invariant ModelDataSpec(key, defs[..i], chipDirs, chipBase, pwmDirs) == Ok(ret)
    {
      var x := defs[i];
      ModelDataStep(key, defs, i, chipDirs, chipBase, pwmDirs);
      if x.sysfsDir !in chipDirs {
        ModelDataErrStays(key, defs, i + 1, chipDirs, chipBase, pwmDirs);
        return Err(NotInGpioChipDirs);
      }
      ret := Insert(ret, PinName(x, key), Info(x, key, chipDirs, chipBase, pwmDirs));
      i := i + 1;
    }
    assert defs[..i] == defs;
    r := Ok(ret);
  }

  /** One more row: it fails when its chip was not located, and otherwise
      it is inserted into the table of the rows before it. */
  lemma ModelDataStep(key: NumberingMode, defs: seq<PinDefinition>, i: nat, chipDirs: map<string, string>,
                      chipBase: map<string, int>, pwmDirs: map<string, string>)
    requires i < |defs| && ModelDataSpec(key, defs[..i], chipDirs, chipBase, pwmDirs).Ok?
    ensures var x := defs[i];
            ModelDataSpec(key, defs[..i + 1], chipDirs, chipBase, pwmDirs) ==
            if x.sysfsDir !in chipDirs then Err(NotInGpioChipDirs)
            else Ok(Insert(ModelDataSpec(key, defs[..i], chipDirs, chipBase, pwmDirs).value, PinName(x, key),
                           Info(x, key, chipDirs, chipBase, pwmDirs)))
  {
    assert defs[..i + 1][..i] == defs[..i];
  }

  /** Once a prefix of the rows fails, the whole table fails the same way. */
  lemma {:induction false} ModelDataErrStays(key: NumberingMode, defs: seq<PinDefinition>, n: nat,
                                             chipDirs: map<string, string>,
                                             chipBase: map<string, int>, pwmDirs: map<string, string>)
    requires n <= |defs|
    requires ModelDataSpec(key, defs[..n], chipDirs, chipBase, pwmDirs).Err?
    ensures ModelDataSpec(key, defs, chipDirs, chipBase, pwmDirs) ==
            ModelDataSpec(key, defs[..n], chipDirs, chipBase, pwmDirs)
    decreases |defs| - n
  {
    if n < |defs| {
      assert defs[..n + 1][..n] == defs[..n];
      ModelDataErrStays(key, defs, n + 1, chipDirs, chipBase, pwmDirs);
    } else {
      assert defs[..n] == defs;
    }
  }

  /** `model_data` fails exactly when some row's chip is not among the
      located GPIO chips. */
  lemma {:induction false} ModelDataFails(key: NumberingMode, defs: seq<PinDefinition>,
                                          chipDirs: map<string, string>,
                                          chipBase: map<string, int>, pwmDirs: map<string, string>)
    ensures ModelDataSpec(key, defs, chipDirs, chipBase, pwmDirs).Err? <==>
            exists i :: 0 <= i < |defs| && defs[i].sysfsDir !in chipDirs
    decreases |defs|
  {
    if defs != [] {
      var init := defs[..|defs| - 1];
      ModelDataFails(key, init, chipDirs, chipBase, pwmDirs);
      assert forall i :: 0 <= i < |init| ==> init[i] == defs[i];
    }
  }

  /** The names of the rows are those of all rows but the last, and the
      last one's. */
  lemma RowNamesSnoc(defs: seq<PinDefinition>, init: seq<PinDefinition>, key: NumberingMode)
    requires defs != [] && init == defs[..|defs| - 1]
    ensures (set i | 0 <= i < |defs| :: PinName(defs[i], key)) ==
            (set i | 0 <= i < |init| :: PinName(init[i], key)) + {PinName(defs[|defs| - 1], key)}
  {
    var keys := set i | 0 <= i < |defs| :: PinName(defs[i], key);
    var prevKeys := set i | 0 <= i < |init| :: PinName(init[i], key);
    forall k | k in keys ensures k in prevKeys + {PinName(defs[|defs| - 1], key)} {
      var i :| 0 <= i < |defs| && k == PinName(defs[i], key);
      if i < |init| {
        assert k == PinName(init[i], key);
      }
    }
    forall i | 0 <= i < |init| ensures PinName(init[i], key) in keys {
      assert init[i] == defs[i];
    }
  }

  /** A table `model_data` builds has one key per row name. */
  lemma {:induction false} ModelDataKeys(key: NumberingMode, defs: seq<PinDefinition>,
                                         chipDirs: map<string, string>,
                                         chipBase: map<string, int>, pwmDirs: map<string, string>)
    requires ModelDataSpec(key, defs, chipDirs, chipBase, pwmDirs).Ok?
    ensures ModelDataSpec(key, defs, chipDirs, chipBase, pwmDirs).value.Keys ==
            set i | 0 <= i < |defs| :: PinName(defs[i], key)
    decreases |defs|
  {
    if defs != [] {
      var init := defs[..|defs| - 1];
      ModelDataKeys(key, init, chipDirs, chipBase, pwmDirs);
      RowNamesSnoc(defs, init, key);
    }
  }

  /** A table `model_data` builds files every entry under its own name. */
  lemma {:induction false} ModelDataWellFormed(key: NumberingMode, defs: seq<PinDefinition>,
                                               chipDirs: map<string, string>,
                                               chipBase: map<string, int>, pwmDirs: map<string, string>)
    requires ModelDataSpec(key, defs, chipDirs, chipBase, pwmDirs).Ok?
    ensures TableWellFormed(ModelDataSpec(key, defs, chipDirs, chipBase, pwmDirs).value)
    decreases |defs|
  {
    if defs != [] {
      ModelDataWellFormed(key, defs[..|defs| - 1], chipDirs, chipBase, pwmDirs);
    }
  }

  /** For each name, the table keeps the entry built from the first row
      carrying that name: later rows with the same name do not overwrite it. */
  lemma {:induction false} ModelDataFirstWins(key: NumberingMode, defs: seq<PinDefinition>,
                                              chipDirs: map<string, string>,
                                              chipBase: map<string, int>, pwmDirs: map<string, string>,
                                              i: nat)
    requires ModelDataSpec(key, defs, chipDirs, chipBase, pwmDirs).Ok?
    requires i < |defs| && defs[i].sysfsDir in chipDirs
    requires forall j :: 0 <= j < i ==> PinName(defs[j], key) != PinName(defs[i], key)
    ensures PinName(defs[i], key) in ModelDataSpec(key, defs, chipDirs, chipBase, pwmDirs).value
    ensures ModelDataSpec(key, defs, chipDirs, chipBase, pwmDirs).value[PinName(defs[i], key)] ==
            Info(defs[i], key, chipDirs, chipBase, pwmDirs)
    decreases |defs|
  {
    var init := defs[..|defs| - 1];
    if i < |init| {
      assert init[i] == defs[i];
      assert forall j :: 0 <= j < i ==> init[j] == defs[j];
      ModelDataFirstWins(key, init, chipDirs, chipBase, pwmDirs, i);
    } else {
      ModelDataKeys(key, init, chipDirs, chipBase, pwmDirs);
      var name := PinName(defs[i], key);
      assert name !in ModelDataSpec(key, init, chipDirs, chipBase, pwmDirs).value by {
        forall j | 0 <= j < |init| ensures PinName(init[j], key) != name {
          assert init[j] == defs[j];
        }
      }
    }
  }

  // ---------------------------------------------------------------- get_data

  /** Every row names a GPIO chip that was located. */
  predicate AllChipsLocated(defs: seq<PinDefinition>, chipDirs: map<string, string>)
  {
    forall i :: 0 <= i < |defs| ==> defs[i].sysfsDir in chipDirs
  }

  /** Building the tables from the rows `defs` fails: a GPIO chip that cannot
      be located or whose base cannot be read, a PWM directory that cannot be
      listed, or a row whose chip was not located. */
  predicate TablesFail(p: Platform, defs: seq<PinDefinition>)
  {
    (exists n :: n in GpioChipNames(defs) && GpioChipProblem(n, p)) ||
    (exists n :: n in PwmChipNames(defs) && PwmDirOf(n, p).Err?) ||
    (exists i :: 0 <= i < |defs| && IsNone(defs[i].sysfsDir))
  }

  /** The located chips are those of the rows whose chip is not "None". */
  lemma ChipsLocated(p: Platform, defs: seq<PinDefinition>)
    ensures AllChipsLocated(defs, GpioChipDirs(GpioChipNames(defs), p)) <==>
            forall i :: 0 <= i < |defs| ==> !IsNone(defs[i].sysfsDir)
  {
    var names := GpioChipNames(defs);
    assert GpioChipDirs(names, p).Keys == names;
    forall i | 0 <= i < |defs| && !IsNone(defs[i].sysfsDir)
      ensures defs[i].sysfsDir in names
    {
    }
  }

  /** One mode's table built from `defs` once nothing failed. */
  function TableFor(p: Platform, defs: seq<PinDefinition>, key: NumberingMode): map<string, ChannelInfo>
    requires !TablesFail(p, defs)
  {
    var chipDirs := GpioChipDirs(GpioChipNames(defs), p);
    var chipBase := GpioChipBases(GpioChipNames(defs), p);
    var pwmDirs := PwmDirs(PwmChipNames(defs), p);
    ChipsLocated(p, defs);
    ModelDataFails(key, defs, chipDirs, chipBase, pwmDirs);
    ModelDataSpec(key, defs, chipDirs, chipBase, pwmDirs).value
  }

  /** The three tables, keyed by numbering mode. */
  function TablesFor(p: Platform, defs: seq<PinDefinition>): map<NumberingMode, map<string, ChannelInfo>>
    requires !TablesFail(p, defs)
  {
    map[BOARD := TableFor(p, defs, BOARD), BCM := TableFor(p, defs, BCM), SOC := TableFor(p, defs, SOC)]
  }

  /** The part of `get_data` after the board is known. */
  method BuildTables(p: Platform, defs: seq<PinDefinition>)
    returns (r: Result<map<NumberingMode, map<string, ChannelInfo>>>)
    ensures r.Err? <==> TablesFail(p, defs)
    ensures r.Ok? ==> r.value == TablesFor(p, defs)
  {
    var chips := FindGpioChips(GpioChipNames(defs), p);
    if chips.Err? {
      return Err(chips.error);
    }
    var found := FindPwmDirs(PwmChipNames(defs), p);
    if found.Err? {
      return Err(found.error);
    }
    var (chipDirs, chipBase) := chips.value;
    var pwmDirs := found.value;
    ChipsLocated(p, defs);
    ModelDataFails(BOARD, defs, chipDirs, chipBase, pwmDirs);
    ModelDataFails(BCM, defs, chipDirs, chipBase, pwmDirs);
    ModelDataFails(SOC, defs, chipDirs, chipBase, pwmDirs);
    var board := ModelData(BOARD, defs, chipDirs, chipBase, pwmDirs);
    if board.Err? {
      return Err(board.error);
    }
    var bcm := ModelData(BCM, defs, chipDirs, chipBase, pwmDirs);
    var soc := ModelData(SOC, defs, chipDirs, chipBase, pwmDirs);
    assert board.value == TableFor(p, defs, BOARD);
    assert bcm.value == TableFor(p, defs, BCM);
    assert soc.value == TableFor(p, defs, SOC);
    r := Ok(map[BOARD := board.value, BCM := bcm.value, SOC := soc.value]);
  }

  /** `channel_data` has exactly the keys BOARD, BCM and SOC, and every table
      files each entry under its own name. */
  lemma TablesShape(p: Platform, defs: seq<PinDefinition>)
    requires !TablesFail(p, defs)
    ensures TablesFor(p, defs).Keys == {BOARD, BCM, SOC}
    ensures forall key :: key in TablesFor(p, defs) ==> TableWellFormed(TablesFor(p, defs)[key])
  {
    forall key | key in TablesFor(p, defs)
      ensures TableWellFormed(TablesFor(p, defs)[key])
    {
      TableForWellFormed(p, defs, key);
    }
  }

  /** Each mode's table files every entry under its own name. */
  lemma TableForWellFormed(p: Platform, defs: seq<PinDefinition>, key: NumberingMode)
    requires !TablesFail(p, defs)
    ensures TableWellFormed(TableFor(p, defs, key))
  {
    var chipDirs := GpioChipDirs(GpioChipNames(defs), p);
    var chipBase := GpioChipBases(GpioChipNames(defs), p);
    var pwmDirs := PwmDirs(PwmChipNames(defs), p);
    ChipsLocated(p, defs);
    ModelDataFails(key, defs, chipDirs, chipBase, pwmDirs);
    ModelDataWellFormed(key, defs, chipDirs, chipBase, pwmDirs);
  }

  /** `get_data` fails: no known board, or the tables cannot be built. */
  predicate CatalogFails(p: Platform)
  {
    var m := SelectModel(Compatibles(p.compatible));
    m.Err? || TablesFail(p, PinDefsOf(m.value))
  }

  /** What `get_data` returns once nothing failed. */
  function Catalog(p: Platform): PinData
    requires !CatalogFails(p)
  {
    var m := SelectModel(Compatibles(p.compatible)).value;
    PinData(m, DeviceInfoOf(m), TablesFor(p, PinDefsOf(m)))
  }

  /** `get_data()`. */
  method GetData(p: Platform) returns (r: Result<PinData>)
    ensures r.Err? <==> CatalogFails(p)
    ensures r.Ok? ==> r.value == Catalog(p)
    ensures SelectModel(Compatibles(p.compatible)).Err? ==> r == Err(UnknownSocModel)
  {
    var pieces := Split(p.compatible, '\0');
    var compatibles := set i | 0 <= i < |pieces| :: pieces[i];
    assert compatibles == Compatibles(p.compatible);
    var m :- SelectModel(compatibles);
    var tables :- BuildTables(p, PinDefsOf(m));
    r := Ok(PinData(m, DeviceInfoOf(m), tables));
  }

  // ------------------------------------------------------- facts of the tables

  /** The J721E SK table has 26 rows and its BOARD names are pairwise distinct. */
  lemma J721eBoardNamesDistinct()
    ensures |J721E_SK_PIN_DEFS| == 26
    ensures forall i, j :: 0 <= i < j < |J721E_SK_PIN_DEFS| ==>
              J721E_SK_PIN_DEFS[i].boardPin != J721E_SK_PIN_DEFS[j].boardPin
  {
  }

  /** Its BCM names are pairwise distinct. */
  lemma J721eBcmNamesDistinct()
    ensures forall i, j :: 0 <= i < j < |J721E_SK_PIN_DEFS| ==>
              J721E_SK_PIN_DEFS[i].bcmPin != J721E_SK_PIN_DEFS[j].bcmPin
  {
  }

  /** Its SOC names are pairwise distinct. */
  lemma J721eSocNamesDistinct()
    ensures forall i, j :: 0 <= i < j < |J721E_SK_PIN_DEFS| ==>
              J721E_SK_PIN_DEFS[i].socPin != J721E_SK_PIN_DEFS[j].socPin
  {
  }

  /** Under every numbering mode the names of the J721E SK rows are pairwise
      distinct. */
  lemma J721eNamesDistinct(key: NumberingMode)
    ensures forall i, j :: 0 <= i < j < |J721E_SK_PIN_DEFS| ==>
              PinName(J721E_SK_PIN_DEFS[i], key) != PinName(J721E_SK_PIN_DEFS[j], key)
  {
    J721eBoardNamesDistinct();
    J721eBcmNamesDistinct();
    J721eSocNamesDistinct();
  }

  /** Only BOARD pins 29, 31, 32 and 33 are wired to a PWM chip, and every row
      names a GPIO chip. */
  lemma J721ePwmPins()
    ensures forall i :: 0 <= i < |J721E_SK_PIN_DEFS| ==>
              (!IsNone(J721E_SK_PIN_DEFS[i].pwmSysfsDir) <==>
               J721E_SK_PIN_DEFS[i].boardPin in {"29", "31", "32", "33"})
    ensures forall i :: 0 <= i < |J721E_SK_PIN_DEFS| ==> !IsNone(J721E_SK_PIN_DEFS[i].sysfsDir)
  {
  }

  /** The AM68 SK table is row for row the J721E SK table. */
  lemma Am68SameAsJ721e()
    ensures AM68_SK_PIN_DEFS == J721E_SK_PIN_DEFS
  {
  }

  /** For either supported board, the table of a numbering mode holds every
      row of the board's pin table, each filed under its name in that mode. */
  lemma SupportedTableHoldsEveryRow(m: Model, key: NumberingMode, chipDirs: map<string, string>,
                                    chipBase: map<string, int>, pwmDirs: map<string, string>)
    requires Supported(m)
    requires ModelDataSpec(key, PinDefsOf(m), chipDirs, chipBase, pwmDirs).Ok?
    ensures var defs := PinDefsOf(m);
            var t := ModelDataSpec(key, defs, chipDirs, chipBase, pwmDirs).value;
            forall i :: 0 <= i < |defs| ==>
              PinName(defs[i], key) in t &&
              defs[i].sysfsDir in chipDirs &&
              t[PinName(defs[i], key)] == Info(defs[i], key, chipDirs, chipBase, pwmDirs)
  {
    Am68SameAsJ721e();
    J721eNamesDistinct(key);
    var defs := PinDefsOf(m);
    ModelDataFails(key, defs, chipDirs, chipBase, pwmDirs);
    forall i | 0 <= i < |defs|
      ensures PinName(defs[i], key) in ModelDataSpec(key, defs, chipDirs, chipBase, pwmDirs).value
      ensures defs[i].sysfsDir in chipDirs
      ensures ModelDataSpec(key, defs, chipDirs, chipBase, pwmDirs).value[PinName(defs[i], key)] ==
              Info(defs[i], key, chipDirs, chipBase, pwmDirs)
    {
      ModelDataFirstWins(key, defs, chipDirs, chipBase, pwmDirs, i);
    }
  }
}
