# TI GPIO for C++: a verified model of the channel registry, PWM and pin catalog

This project models the core of Texas Instruments' C++ GPIO library for its
SK boards (the port of RPi.GPIO/Jetson.GPIO). A client program picks a pin
numbering mode (BOARD, BCM or SOC). It sets channels up as inputs or outputs
through the kernel's sysfs GPIO interface, reads and writes them, registers
edge events and drives PWM on them. Two PWM kinds exist:

- a software PWM, in which a worker thread toggles a GPIO output;
- a hardware PWM, which writes period, duty cycle and enable to a PWM chip's
  sysfs files.

The library keeps process-wide bookkeeping:

- the active numbering mode;
- the name-to-channel table of that mode;
- the direction each channel was set up with;
- the channels driven by PWM.

The model is in Dafny, one module per part:

- `Errors`: the error conditions and the `Result`/`Outcome` wrappers. Where
  the library calls `terminate()`, the model returns an error. Where the
  library cleans up every channel first, the model does that too.
- `PythonFunctions`: `startswith`, `lower`, `split`, `strip`, `is_None`.
  `split` and `strip` keep their loops; each loop is proved against a
  specification function.
- `Conversions`: `std::to_string` and `std::atoi` on the channel numbers
  passed to the integer and string overloads.
- `GpioTypes`: the numbering modes, directions, edges, `HIGH`/`LOW`, the
  default-argument sentinels and the `Callback` class with its equality.
- `BoardModel`: the `Model` enumeration and `ModelToString`.
- `PinCatalog`: the J721E/AM68 pin tables, board selection from the device
  tree's compatible strings, and chip directory search and chip bases, all
  over an abstract `Platform` (the compatible text, the directories that
  exist, the `base` files). It also covers global GPIO ids and the per-mode
  channel tables built by `model_data` and `get_data`.
- `Sysfs`: the kernel as a value. It holds the exported GPIO lines, their
  direction and value files, the PWM chips that can export, and per PWM line
  its period, duty text and enable flag. It also has the PWM path builders
  and the 102-check `access` poll.
- `SoftwarePwm`: `GpioPwmIfSw` as a class. The worker thread is abstracted
  sequentially: `started` is true while it runs, `stop` waits for it, and one
  loop pass writes HIGH then LOW.
- `Gpio`: the registry (`GlobalVariableWrapper` plus the free functions of
  `gpio.cpp`) as a class over maps. The hardware PWM reaches its registry
  through `gpio_common.h`; the model takes that to be the same object as
  `gpio.cpp`'s. The registry has `setmode`, channel resolution, `setup`,
  `cleanup`, `input`, `output`, their batch forms, `gpio_function`, the
  event API's checks and the `GPIO::PWM` front end.
- `HardwarePwm`: `GpioPwmIfHw` as a class. Every sysfs write it makes is
  logged in order, and the kernel value is updated by exactly those writes.
- `Scenarios`: call sequences of client programs, among them one pin of the
  all-pins input sample.

The registry's invariant `Registry.Valid()` holds throughout:

- mode None means no channel is configured;
- every configured name is in the active table;
- the active table is the table of the active mode;
- every table is well formed (each entry is named by its key);
- every kernel value file belongs to an exported line.

Every state-changing operation keeps it.

## Model

| member | source | states |
|---|---|---|
| PythonFunctions.StartsWith | src/python_functions.cpp:40-49 | true exactly when `s` is the prefix followed by some rest; a longer prefix never matches |
| PythonFunctions.StartsWithConcatenation | src/python_functions.cpp:40-49 | every string starts with itself followed by anything, and with the empty prefix |
| PythonFunctions.Lower | src/python_functions.cpp:51-57 | same length, and each position is the lowercase of the input's character |
| PythonFunctions.LowerIdempotent | src/python_functions.cpp:51-57 | lowering twice equals lowering once; no upper-case ASCII letter remains |
| PythonFunctions.FirstIndex | src/python_functions.cpp:59-72 | at most the length; below the length, the character there is the delimiter |
| PythonFunctions.FirstIndexIsFirst | src/python_functions.cpp:59-72 | no delimiter comes before it, so it is the first delimiter or the length when there is none |
| PythonFunctions.FirstIndexAt | src/python_functions.cpp:59-72 | an index with no delimiter before it and a delimiter (or the end) at it is the first index |
| PythonFunctions.CountAtFirst | src/python_functions.cpp:59-72 | the delimiter count is one for the first delimiter plus the count after it |
| PythonFunctions.CountAppend | src/python_functions.cpp:59-72 | delimiter counts add over concatenation |
| PythonFunctions.CountNone | src/python_functions.cpp:59-72 | a string without the delimiter has count 0 |
| PythonFunctions.FieldsUnfold | src/python_functions.cpp:59-72 | a non-empty string splits into the text before its first delimiter, then the pieces of the rest |
| PythonFunctions.FieldsHaveNoDelimiter | src/python_functions.cpp:59-72 | no piece of `split` holds the delimiter |
| PythonFunctions.FieldsJoin | src/python_functions.cpp:59-72 | joining the pieces with the delimiter gives back the input minus at most one trailing delimiter |
| PythonFunctions.FieldsCount | src/python_functions.cpp:59-72 | the number of pieces is the number of delimiters, plus one when the input does not end in one (so `""` gives no piece) |
| PythonFunctions.Split | src/python_functions.cpp:59-72 | the getline loop returns exactly the pieces of the specification |
| PythonFunctions.LeadingSpaces | src/python_functions.cpp:119-143 | at most the length, and followed by a non-space or the end |
| PythonFunctions.LeadingSpacesAreSpaces | src/python_functions.cpp:119-143 | every character before it is white space, so it is the length of the leading whitespace run |
| PythonFunctions.LeadingSpacesAt | src/python_functions.cpp:119-143 | an index with only white space before it and a non-space (or the end) at it is the leading run's length |
| PythonFunctions.TrimTrailing | src/python_functions.cpp:119-143 | a prefix of the input that is empty or ends in a non-space |
| PythonFunctions.TrimmedTailIsSpace | src/python_functions.cpp:119-143 | everything it cuts is white space |
| PythonFunctions.StrippedBounds | src/python_functions.cpp:119-143 | the strip is the substring between the leading run and the trailing white space, with only white space outside it |
| PythonFunctions.StrippedCharacterization | src/python_functions.cpp:119-143 | `strip` is a contiguous substring with whitespace only outside it, starts and ends in non-space, and is empty exactly for all-whitespace input |
| PythonFunctions.StrippedOfTrimmed | src/python_functions.cpp:119-143 | a string with no leading or trailing whitespace is its own strip |
| PythonFunctions.StripIdempotent | src/python_functions.cpp:119-143 | stripping twice equals stripping once |
| PythonFunctions.TrimTrailingAt | src/python_functions.cpp:119-143 | the trimmed string ends at the last non-space |
| PythonFunctions.Strip | src/python_functions.cpp:119-143 | the two index loops return exactly the stripped substring |
| PythonFunctions.IsNone | src/python_functions.cpp:145-148 | true exactly for the text "None" |
| Conversions.DigitChar | src/gpio.cpp:436 | a decimal digit character whose value is `d` |
| Conversions.NatToString | src/gpio.cpp:436 | a non-empty run of digits with no leading zero |
| Conversions.IntToString | src/gpio.cpp:436 | never empty |
| Conversions.LeadingDigits | src/gpio.cpp:646-649 | the length of the leading run of digits that `atoi` reads |
| Conversions.Atoi | src/gpio.cpp:646-649 | a text without digits converts to 0 |
| Conversions.NumeralValueOfNatToString | src/gpio.cpp:436 | reading back the digits of `n` gives `n` |
| Conversions.AllDigitsLeading | src/gpio.cpp:646-649 | an all-digit text is read to its end |
| Conversions.AtoiOfIntToString | src/gpio.cpp:698-701 | `atoi(to_string(n)) == n`, so the string overloads of the event API reach the integer channel that produced the name |
| Conversions.IntToStringInjective | src/gpio.cpp:436 | distinct channel numbers have distinct names |
| Conversions.IntToStringSign | src/gpio.cpp:436 | the name starts with `-` exactly for a negative number |
| GpioTypes.MakeCallback | include/GPIO.h:169-175 | the callback holds the function and compares by the function's own type |
| GpioTypes.NullCallback | include/GPIO.h:214-216 | the `nullptr` default callback has an empty function |
| GpioTypes.Invoke | src/gpio.cpp:982-986 | calling an empty callback makes no call; otherwise exactly one call of the target with the input |
| GpioTypes.EqualEmpty | include/GPIO.h:153-165 | two empty callbacks are equal; an empty and a non-empty one are not, in either order |
| GpioTypes.EqualMadeCallbacks | include/GPIO.h:153-165 | callbacks built from functions are equal exactly when the types agree and the targets are equal |
| GpioTypes.EqualIsEquivalence | src/gpio.cpp:989-998 | on well-formed callbacks `==` is reflexive, symmetric and transitive |
| GpioTypes.EqualNull | src/gpio.cpp:595-597 | a callback equals `nullptr` exactly when its function is empty |
| GpioTypes.NotEqualProperties | src/gpio.cpp:995-998 | on well-formed callbacks `!=` is irreflexive and symmetric, and true against `nullptr` exactly for a callback holding a function |
| BoardModel.ModelToString | src/model.h:51-80 | "None" exactly for a value that is not one of the six enumerators |
| BoardModel.GetModel | src/gpio.cpp:97-104 | succeeds exactly for an enumerator, with its name, which is never "None"; otherwise the `get_model` error |
| BoardModel.ModelToStringInjective | src/model.h:51-80 | distinct enumerators have distinct names |
| PinCatalog.PinName | src/gpio_pin_data.h:54-62 | BOARD gives the board pin, BCM the BCM pin, every other mode the SOC pin |
| PinCatalog.Matches | src/gpio_pin_data.cpp:218-226 | true exactly when some listed compatible string is in the device tree's set |
| PinCatalog.SelectModel | src/gpio_pin_data.cpp:274-285 | J721E_SK exactly when its compatibles match, else AM68_SK exactly when its match, else "Could not determine SOC model" |
| PinCatalog.SelectModelExamples | src/gpio_pin_data.cpp:202-215 | a NUL-separated compatible text holding "ti,j721e" selects J721E_SK; one holding "ti,am68-sk" and neither "ti,j721e" nor "ti,j721e-eaikti" selects AM68_SK |
| PinCatalog.FirstDirIndex | src/gpio_pin_data.cpp:307-318 | the index of the first prefix under which the chip is a directory |
| PinCatalog.FindDir | src/gpio_pin_data.cpp:307-318 | the prefix loop returns the directory of the specification |
| PinCatalog.DirOfIsFirst | src/gpio_pin_data.cpp:307-318 | "None" exactly when no prefix names a directory; otherwise the first one that does |
| PinCatalog.FirstWithPrefixIndex | src/gpio_pin_data.cpp:326-338 | the index of the first directory entry with the prefix |
| PinCatalog.FindEntry | src/gpio_pin_data.cpp:326-338 | the listing loop stops at the first entry with the prefix |
| PinCatalog.LocateGpioChip | src/gpio_pin_data.cpp:307-339 | fails exactly when the chip is not found or its base does not parse; otherwise its directory and base |
| PinCatalog.GpioChipMapsAdd | src/gpio_pin_data.cpp:306-339 | one more chip adds its directory, and its base when the chip has one |
| PinCatalog.FindGpioChips | src/gpio_pin_data.cpp:300-339 | fails exactly when some chip is missing; otherwise the directory and base maps of all chips |
| PinCatalog.LocatePwmDir | src/gpio_pin_data.cpp:358-389 | the first `pwmchip` entry of the first chip directory, or nothing when the chip or its `pwm` directory is absent |
| PinCatalog.PwmDirsAdd | src/gpio_pin_data.cpp:358-389 | one more PWM chip adds its directory exactly when it has one |
| PinCatalog.FindPwmDirs | src/gpio_pin_data.cpp:351-390 | the PWM map holds exactly the chips that have a directory; a missing one only drops the PWM function |
| PinCatalog.GlobalGpioId | src/gpio_pin_data.cpp:342-349 | −1 when the chip is "None", has no base, or the offset is −1; otherwise base plus offset |
| PinCatalog.GlobalGpioIdInjective | src/gpio_pin_data.cpp:342-349 | on one chip, distinct offsets give distinct global ids |
| PinCatalog.GetOr | src/gpio_pin_data.cpp:395-398 | the stored value when the key is present, else the default |
| PinCatalog.Insert | src/gpio_pin_data.cpp:409-422 | `map::insert`: the key is added, and an existing entry is never overwritten |
| PinCatalog.ModelData | src/gpio_pin_data.cpp:392-425 | the insert loop returns the table of the specification, or its error |
| PinCatalog.ModelDataStep | src/gpio_pin_data.cpp:406-422 | one more row fails when its chip was not located, and is otherwise inserted into the table of the rows before it |
| PinCatalog.ModelDataErrStays | src/gpio_pin_data.cpp:406-407 | once a row fails, the whole table fails with that row's error |
| PinCatalog.ModelDataFails | src/gpio_pin_data.cpp:406-407 | the table fails exactly when some row's GPIO chip is not in the chip directory map |
| PinCatalog.ModelDataKeys | src/gpio_pin_data.cpp:402-404 | the keys are exactly the pin names of the rows under the mode |
| PinCatalog.ModelDataWellFormed | src/gpio_pin_data.cpp:409-422 | every entry records its own key as its channel name |
| PinCatalog.ModelDataFirstWins | src/gpio_pin_data.cpp:409-422 | the first row with a name defines its entry: that name, the chip directory, offset, global id, PWM directory or "None", and PWM id |
| PinCatalog.ChipsLocated | src/gpio_pin_data.cpp:300-323 | every row's chip is found exactly when no chip is missing |
| PinCatalog.BuildTables | src/gpio_pin_data.cpp:427-432 | the three tables of the specification, or the chip error |
| PinCatalog.TablesShape | src/gpio_pin_data.cpp:427-432 | the channel data has exactly the keys BOARD, BCM and SOC, each a well-formed table |
| PinCatalog.TableForWellFormed | src/gpio_pin_data.cpp:427-432 | the table of each numbering mode files every entry under its own name |
| PinCatalog.GetData | src/gpio_pin_data.cpp:196-441 | `get_data` fails exactly when the model, a chip or a base fails; an unknown board gives the model error; otherwise the catalog |
| PinCatalog.J721eBoardNamesDistinct | src/gpio_pin_data.cpp:112-145 | the J721E table has 26 rows with pairwise distinct BOARD names |
| PinCatalog.J721eBcmNamesDistinct | src/gpio_pin_data.cpp:112-145 | the BCM names are pairwise distinct |
| PinCatalog.J721eSocNamesDistinct | src/gpio_pin_data.cpp:112-145 | the SOC names are pairwise distinct |
| PinCatalog.J721eNamesDistinct | src/gpio_pin_data.cpp:112-145 | under every mode the pin names are pairwise distinct |
| PinCatalog.J721ePwmPins | src/gpio_pin_data.cpp:112-145 | only BOARD pins 29, 31, 32 and 33 carry a PWM chip, and every row has a GPIO chip |
| PinCatalog.Am68SameAsJ721e | src/gpio_pin_data.cpp:147-176 | the AM68 table is row for row the J721E table |
| PinCatalog.SupportedTableHoldsEveryRow | src/gpio_pin_data.cpp:392-432 | for a supported board every row appears in the built table under its own name |
| Sysfs.ExportLine | src/gpio.cpp:231-249 | writing `export` adds the line and changes nothing else |
| Sysfs.UnexportLine | src/gpio.cpp:251-258 | writing `unexport` removes the line with its direction and value files; other lines read the same |
| Sysfs.WriteDirection | src/gpio.cpp:268-294 | an exported line reads back the direction written; an unexported line makes no change; other lines read the same |
| Sysfs.WriteValue | src/gpio.cpp:260-266 | an exported line reads back the value written; an unexported line makes no change; other lines read the same |
| Sysfs.RemoveLines | src/gpio.cpp:343-352 | unexporting a set of lines removes exactly them and keeps the kernel coherent |
| Sysfs.RemoveOneMore | src/gpio.cpp:343-352 | unexporting one more line is removing the larger set |
| Sysfs.ClassifyDirection | src/gpio.cpp:204-219 | IN exactly for a file reading "in" and OUT exactly for "out", ignoring case and surrounding whitespace; never HARD_PWM |
| Sysfs.ClassifyWrittenDirection | src/gpio.cpp:204-219 | the texts the library writes, and a newline-ended or upper-case one, are classified as written |
| Sysfs.PwmPathNamesId | src/gpio_hw_pwm.cpp:47 | the PWM path is the chip directory, `/pwm`, then the decimal PWM id |
| Sysfs.PwmAttributePaths | src/gpio_hw_pwm.cpp:47-57 | period, duty_cycle and enable lie under the PWM path and are three distinct files; export and unexport differ |
| Sysfs.ExportPwmLine | src/gpio_hw_pwm.cpp:59-70 | exporting creates the line with period 0, duty "0", disabled; other lines and the GPIO side are unchanged |
| Sysfs.UnexportPwmLine | src/gpio_hw_pwm.cpp:85-91 | the line is gone; every other line is still there |
| Sysfs.UpdatePwmLine | src/gpio_hw_pwm.cpp:93-135 | replaces an existing line only; nothing else changes |
| Sysfs.ApplyPwmWrite | src/gpio_hw_pwm.cpp:93-135 | disable and enable set the flag, a period write the period, a duty write the decimal text |
| Sysfs.ApplyPwmWritesAppend | src/gpio_hw_pwm.cpp:222-253 | applying a log then one write is applying the longer log |
| Sysfs.ApplyPwmWritesConcat | src/gpio_hw_pwm.cpp:222-253 | applying two logs in turn is applying their concatenation |
| Sysfs.WritePwm | src/gpio_hw_pwm.cpp:93-135 | one write changes only that line, as `ApplyPwmWrite` says; a missing line is not created |
| Sysfs.WritePwmAll | src/gpio_hw_pwm.cpp:222-253 | a log of writes changes only that line, by the writes in order |
| Sysfs.WritePwmAllAppend | src/gpio_hw_pwm.cpp:222-253 | the kernel after a log and one more write is the kernel after the longer log |
| Sysfs.WritePwmAllShort | src/gpio_hw_pwm.cpp:222-253 | the empty log changes nothing; a one-write log is that write |
| Sysfs.WritePwmAllConcat | src/gpio_hw_pwm.cpp:222-253 | two logs in turn are their concatenation |
| Sysfs.PollAccess | src/gpio_hw_pwm.cpp:72-82 | succeeds exactly when one of the first 102 checks succeeds, at the first such check; otherwise after 102 failed checks |
| SoftwarePwm.Trunc | src/gpio_sw_pwm.cpp:52-58 | `static_cast<long>` truncates toward zero |
| SoftwarePwm.CycleFitsPeriod | src/gpio_sw_pwm.cpp:46-58 | on and off times are non-negative and together are the period in µs less under 2 µs of truncation; 0% has no on time, 100% no off time |
| SoftwarePwm.SoftPwm.Init | src/gpio_sw_pwm.cpp:38-50 | the channel, the frequency, duty 0, not running, times computed from the frequency |
| SoftwarePwm.SoftPwm.Create | src/gpio_sw_pwm.cpp:38-50 | a frequency ≤ 0 is refused; otherwise a fresh, well-timed, stopped worker at duty 0 |
| SoftwarePwm.SoftPwm.CalculateTimes | src/gpio_sw_pwm.cpp:52-58 | on and off times from the duty cycle and the slice time |
| SoftwarePwm.SoftPwm.RunCycle | src/gpio_sw_pwm.cpp:84-98 | a running worker writes HIGH then LOW; one that is not running writes nothing |
| SoftwarePwm.SoftPwm.Stop | src/gpio_sw_pwm.cpp:73-82 | afterwards not running; the stop flag is raised when it ran and never lowered |
| SoftwarePwm.SoftPwm.StartAsWritten | src/gpio_sw_pwm.cpp:61-71 | as written: no change when running; otherwise the worker runs only if the stop flag is down |
| SoftwarePwm.SoftPwm.Start | src/gpio_sw_pwm.cpp:61-71 | corrected: afterwards running, with the stop flag down |
| SoftwarePwm.SoftPwm.ReconfigureAsWritten | src/gpio_sw_pwm.cpp:100-128 | as written: a bad duty changes nothing; otherwise frequency and duty are set, times use the old slice time, and the worker stops iff it ran and the frequency changed or a start was asked |
| SoftwarePwm.SoftPwm.Reconfigure | src/gpio_sw_pwm.cpp:100-128 | corrected: refuses a bad duty, or a non-positive new frequency, changing nothing; otherwise times follow the new frequency and duty, and a worker that ran or was asked to start runs |
| SoftwarePwm.SoftPwm.Destroy | src/gpio_sw_pwm.cpp:131-134 | the destructor is `stop`: afterwards not running, the stop flag raised when it ran |
| SoftwarePwm.StopStartAsWrittenExample | src/gpio_sw_pwm.cpp:61-82 | as written: `start(50)`, `stop()`, `start(50)` leaves the worker not running |
| SoftwarePwm.RestartAsWrittenExample | src/gpio_sw_pwm.cpp:61-128 | `start(50)` then `ChangeFrequency(200)` leaves the worker stopped |
| SoftwarePwm.RestartExample | src/gpio_sw_pwm.cpp:61-128 | with the corrected start the worker runs at 200 Hz |
| SoftwarePwm.SliceAsWrittenExample | src/gpio_sw_pwm.cpp:116-123 | built for 100 Hz, changed to 50 Hz: a 10000 µs cycle where the period is 20000 µs |
| SoftwarePwm.SliceExample | src/gpio_sw_pwm.cpp:116-123 | with the corrected reconfiguration the cycle is 20000 µs |
| Gpio.Exported | src/gpio.cpp:231-249 | the kernel after an export: the line added, coherence kept |
| Gpio.OutputLevel | src/gpio.cpp:260-266 | `int(bool(v))`: LOW exactly for 0, HIGH for everything else |
| Gpio.LinesOfOneMore | src/gpio.cpp:343-352 | the lines of one more channel are the lines so far plus its line |
| Gpio.EdgeEventGuardAsWritten | src/gpio.cpp:607-610 | as written: refuses exactly when the edge event exists |
| Gpio.EdgeEventGuard | src/gpio.cpp:607-610 | corrected: passes exactly when the edge event exists, otherwise "must have been set via add_event_detect" |
| Gpio.EdgeEventGuardFinding | src/gpio.cpp:607-610 | the guard as written refuses a registered event and lets an unregistered one through; it is the negation of the corrected one |
| Gpio.EventChannelName | src/gpio.cpp:646-649 | a numeric name reaches its own channel through `atoi`; a name such as "GPIO0_7" reaches channel "0" |
| Gpio.Registry.constructor | src/gpio.cpp:123-130 | mode None, warnings on, nothing configured, no PWM channel, the catalog's tables; the invariant holds |
| Gpio.Registry.ModelName | src/gpio.cpp:97-104 | `GPIO::model` is the board's name, or the `get_model` error |
| Gpio.Registry.ValidateModeSet | src/gpio.cpp:152-158 | fails exactly when the mode is None |
| Gpio.Registry.ChannelToInfoLookup | src/gpio.cpp:160-170 | succeeds exactly when the name is in the active table and has a GPIO chip if one is needed and a PWM chip if one is needed; otherwise the first of these errors |
| Gpio.Registry.ChannelToInfo | src/gpio.cpp:172-176 | with mode None "mode not set", otherwise the lookup |
| Gpio.Registry.LookupAll | src/gpio.cpp:178-186 | succeeds exactly when every name resolves, giving their data in order; otherwise the error of some name |
| Gpio.Registry.LookupAllFirstFailure | src/gpio.cpp:178-186 | the error is the first failing name's |
| Gpio.Registry.ChannelsToInfos | src/gpio.cpp:178-186 | the batch loop checks the mode once, then returns the lookup of all names |
| Gpio.Registry.AppChannelConfiguration | src/gpio.cpp:224-229 | the recorded direction, or UNKNOWN for a channel not set up |
| Gpio.Registry.SysfsChannelConfiguration | src/gpio.cpp:190-220 | HARD_PWM exactly when the PWM line is exported; else UNKNOWN for an unexported GPIO line; else the direction file classified |
| Gpio.Registry.ExportGpio | src/gpio.cpp:231-249 | the line is exported; succeeds exactly when one of the 102 access checks succeeds, otherwise permission denied |
| Gpio.Registry.UnexportGpio | src/gpio.cpp:251-258 | unexports an exported line; otherwise no change |
| Gpio.Registry.OutputOne | src/gpio.cpp:260-266 | writes `int(bool(value))` to the line |
| Gpio.Registry.ExportPwm | src/gpio.cpp:309-333 | nothing to do for an exported PWM line; cannot open the export file of an absent chip; otherwise the line is exported and the poll decides |
| Gpio.Registry.SetupSingleOut | src/gpio.cpp:268-282 | succeeds exactly when the export does; then direction "out", the initial value written only when it is not −1, and the channel recorded OUT |
| Gpio.Registry.SetupSingleIn | src/gpio.cpp:284-295 | succeeds exactly when the export does; then direction "in" and the channel recorded IN |
| Gpio.Registry.CleanupOne | src/gpio.cpp:335-341 | unexports the line, releases its events and erases exactly that channel's entry |
| Gpio.Registry.CleanupAll | src/gpio.cpp:343-352 | every configured line unexported and its events released, nothing configured, mode None; with nothing configured the kernel is unchanged |
| Gpio.Registry.SetWarnings | src/gpio.cpp:366 | the warnings flag is the given state |
| Gpio.Registry.SetMode | src/gpio.cpp:370-386 | succeeds exactly for a mode other than None that equals the active one or is the first; then that mode's table is installed; a failure changes nothing |
| Gpio.Registry.Setup | src/gpio.cpp:394-434 | a PWM channel is refused after every channel is cleaned up; a bad name changes nothing; IN with an initial value and any other direction are refused; otherwise the export decides and only that channel's entry changes |
| Gpio.Registry.SetupInt | src/gpio.cpp:436 | every case of `setup` at the name `to_string(channel)`: PWM refusal with clean-up, lookup error unchanged, export success or permission failure per direction, bad initial or direction unchanged |
| Gpio.Registry.SetupAll | src/gpio.cpp:438-452 | IN with an initial value fails before any channel; a non-empty batch succeeds only for IN or OUT on channels that resolve and are not PWM, and does succeed when every channel's access poll also succeeds; on success every channel has the direction; a failure is `setup`'s error at `names[done]`, every earlier channel having passed and (unless a PWM refusal cleaned everything up) keeping its direction, since `setup` terminates without a clean-up |
| Gpio.Registry.SetupNext | src/gpio.cpp:394-434 | one channel of a batch: success only for IN or OUT on a settable channel, recording its direction; a PWM refusal leaves nothing configured; any other failure keeps the mode and the configuration and gives `setup`'s error; success when the channel is settable and its access poll succeeds |
| Gpio.Registry.SettableResolves | src/gpio.cpp:396-409 | a channel `setup` can act on is exactly one not driven by PWM whose GPIO lookup succeeds |
| Gpio.Registry.Cleanup | src/gpio.cpp:454-478 | mode None with warnings on is a no-op; "None" cleans up everything; a bad name fails unchanged; a channel not set up is left alone; otherwise exactly that channel is cleaned up |
| Gpio.Registry.CleanupInt | src/gpio.cpp:480-486 | every case of `cleanup` at `to_string(channel)`, which is never "None": no-op with no mode and warnings on; otherwise it fails unchanged exactly for no mode or a name outside the table; a channel not set up is left alone; a set-up one has its line unexported, its events released and its entry erased, the mode and the PWM side kept |
| Gpio.Registry.GetMode | src/gpio.cpp:389 | the mode in effect: None means nothing is set up; otherwise the active table is that mode's table |
| Gpio.Registry.Input | src/gpio.cpp:488-508 | succeeds exactly for a resolvable GPIO channel set up as IN or OUT, with the value read; otherwise "not set up" or the lookup error |
| Gpio.Registry.InputInt | src/gpio.cpp:510 | every case of `input` at `to_string(channel)`: the value read for a channel set up IN or OUT, otherwise "not set up" or the lookup error |
| Gpio.Registry.Output | src/gpio.cpp:514-526 | succeeds exactly for a channel set up as OUT, writing `int(bool(value))`; otherwise the kernel is unchanged and the error says why |
| Gpio.Registry.OutputInt | src/gpio.cpp:528 | on success the channel named `to_string(channel)` is written |
| Gpio.Registry.LinesOfSeq | src/gpio.cpp:530-554 | the line of each name, in order |
| Gpio.Registry.OutputEach | src/gpio.cpp:539-554 | mismatched lengths fail before any write; otherwise the writable prefix is written in order, and a failure is at the first channel that is not an output |
| Gpio.Registry.OutputAll | src/gpio.cpp:530-537 | the same value written to each channel in order up to the first that is not an output |
| Gpio.Registry.GpioFunction | src/gpio.cpp:558-567 | succeeds exactly when the name resolves, with the kernel's state of the channel |
| Gpio.Registry.GpioFunctionInt | src/gpio.cpp:569 | `gpio_function` at `to_string(channel)`: succeeds exactly when that name resolves, with the kernel's state of the channel |
| Gpio.Registry.InputChannel | src/gpio.cpp:574-580 | succeeds exactly for a resolvable GPIO channel set up as IN; otherwise "not an input" or the lookup error |
| Gpio.Registry.EventDetected | src/gpio.cpp:573-588 | a bad name's error propagates to the caller with nothing cleaned up; a channel not set up as input is refused after every channel is cleaned up; otherwise the backend's answer |
| Gpio.Registry.AddEventCallback | src/gpio.cpp:592-627 | succeeds exactly for a non-null callback on an input channel whose edge event exists and a backend success; each refusal, in the source's order, cleans up every channel |
| Gpio.Registry.AddEventCallbackAsWritten | src/gpio.cpp:592-627 | as written: succeeds exactly for a non-null callback on an input channel whose edge event does NOT exist and a backend success; each refusal cleans up every channel |
| Gpio.Registry.RemoveEventCallback | src/gpio.cpp:634-639 | only the lookup can fail |
| Gpio.Registry.AddEventDetectInt | src/gpio.cpp:651-687 | succeeds exactly for an input channel, an edge among RISING/FALLING/BOTH and backend successes (the callback's only when it is not null); each refusal cleans up every channel |
| Gpio.Registry.AddEventDetect | src/gpio.cpp:646-649 | the string overload is the integer one at `atoi(name)` |
| Gpio.Registry.RemoveEventDetect | src/gpio.cpp:689-694 | only the lookup can fail |
| Gpio.Registry.WaitForEdgeInt | src/gpio.cpp:703-738 | for an input channel and a valid edge: timeout gives 0, a detected edge gives the channel, any other code is refused; each refusal cleans up every channel |
| Gpio.Registry.WaitForEdge | src/gpio.cpp:698-701 | the string overload waits on `atoi(name)` and returns 0 or that number |
| Gpio.Registry.Configure | src/gpio.cpp:898 | the channel's recorded direction is set, nothing else |
| Gpio.Registry.MarkPwm | src/gpio.cpp:899 | adds or erases the channel in the PWM set |
| Gpio.Registry.Unconfigure | src/gpio.cpp:912 | erases exactly the channel's recorded direction |
| Gpio.Pwm.Init | src/gpio.cpp:873 | the front end holds the registry, the worker and the channel name |
| Gpio.Pwm.Create | src/gpio.cpp:857-901 | a channel already driven by PWM is refused after every channel is cleaned up; a bad name or a frequency ≤ 0 is refused unchanged; otherwise a stopped worker at duty 0, the channel recorded OUT and added to the PWM set |
| Gpio.Pwm.Destroy | src/gpio.cpp:903-922 | nothing when the channel is no longer configured; otherwise the worker stopped and both entries erased |
| Gpio.Pwm.Start | src/gpio.cpp:937-946 | a duty in 0..100 starts the worker at its frequency; otherwise refused after every channel is cleaned up |
| Gpio.Pwm.StartAsWritten | src/gpio.cpp:937-946 | over the source's worker `start`: a duty in 0..100 leaves the worker running exactly when it was neither running nor stopped before; otherwise refused after every channel is cleaned up |
| Gpio.Pwm.ChangeFrequency | src/gpio.cpp:948-956 | the frequency changes at the same duty, running as before; a frequency ≤ 0 is refused |
| Gpio.Pwm.ChangeDutyCycle | src/gpio.cpp:958-966 | the duty changes at the same frequency, running as before; a bad duty is refused |
| Gpio.Pwm.Stop | src/gpio.cpp:968-977 | afterwards the worker is not running |
| HardwarePwm.PeriodIsTruncatedQuotient | src/gpio_hw_pwm.cpp:236-237 | the period is `int(1e9 / f)`, non-negative for a positive frequency |
| HardwarePwm.QuotientFloor | src/gpio_hw_pwm.cpp:236-237 | for positive `f` the real quotient's floor is integer division |
| HardwarePwm.DutyWithinPeriod | src/gpio_hw_pwm.cpp:241-242 | `0 ≤ duty_ns ≤ period_ns`, 0 at 0% and the period at 100% |
| HardwarePwm.DutyWrites | src/gpio_hw_pwm.cpp:99-123 | no write exactly when writing 0 over a file that reads "0" after stripping; otherwise one duty write |
| HardwarePwm.DutyWritesShow | src/gpio_hw_pwm.cpp:99-123 | afterwards the duty file shows the value |
| HardwarePwm.ReconfigureWritesContents | src/gpio_hw_pwm.cpp:227-252 | disable is written exactly when a running line changes frequency or restarts, a period exactly on a frequency change (the new frequency's), enable exactly on that stop or a start; at most four writes |
| HardwarePwm.DutyOnlyChange | src/gpio_hw_pwm.cpp:222-253 | a duty-only change writes only the duty, if anything |
| HardwarePwm.StartOrder | src/gpio_hw_pwm.cpp:222-253 | a start writes disable when running, then period, enable, duty, in that order |
| HardwarePwm.ReconfigureEffect | src/gpio_hw_pwm.cpp:222-253 | after the writes the line has the new period on a frequency change, is enabled when it was restarted or started, and shows the duty |
| HardwarePwm.SameUpdate | src/gpio_hw_pwm.cpp:180 | two maps that agree off the key agree after setting it |
| HardwarePwm.HardPwm.Init | src/gpio_pwm_if.h:53-56 | frequency 0, duty 0, not started, period and duty 0 ns, no writes |
| HardwarePwm.HardPwm.Create | src/gpio_hw_pwm.cpp:137-188 | a bad name or a frequency ≤ 0 is refused unchanged; a duplicate is refused after every channel is cleaned up; otherwise it succeeds exactly when the line exports, with period `1e9/f`, duty 0, not started, and the channel recorded HARD_PWM; on success a channel that was set up IN or OUT has its GPIO line unexported and its events released, and otherwise the GPIO lines and events are as before |
| HardwarePwm.HardPwm.Prepare | src/gpio_hw_pwm.cpp:140-158 | the frequency and duplicate checks; a channel set up as IN or OUT is cleaned up (its GPIO line unexported, its events released, its entry erased), any other channel leaves the registry unchanged |
| HardwarePwm.HardPwm.Bring | src/gpio_hw_pwm.cpp:174-187 | export, duty 0, reconfiguration at duty 0 and HARD_PWM recorded; an export failure cleans up every channel |
| HardwarePwm.HardPwm.Tune | src/gpio_hw_pwm.cpp:176-179 | on an exported line: the period of the frequency is in the file, the duty cycle file shows 0, and the object is tuned, not started, at 0 % |
| HardwarePwm.HardPwm.ZeroDuty | src/gpio_hw_pwm.cpp:176 | the line's duty cycle is written 0 unless its file already reads 0, so the file then shows 0; the registry stays valid |
| HardwarePwm.HardPwm.Write | src/gpio_hw_pwm.cpp:93-135 | the write is logged and applied to the line |
| HardwarePwm.HardPwm.SetPeriod | src/gpio_hw_pwm.cpp:234-238 | frequency and period set and the period written |
| HardwarePwm.HardPwm.SetDutyPercent | src/gpio_hw_pwm.cpp:241-242 | duty percentage and duty in ns set from the period |
| HardwarePwm.HardPwm.SetDuty | src/gpio_hw_pwm.cpp:99-123 | writes exactly the duty writes of the skip rule |
| HardwarePwm.HardPwm.Export | src/gpio_hw_pwm.cpp:59-83 | an absent chip cannot be opened; otherwise the line is exported (if needed) and the poll decides |
| HardwarePwm.HardPwm.Unexport | src/gpio_hw_pwm.cpp:85-91 | the line is gone |
| HardwarePwm.HardPwm.Retime | src/gpio_hw_pwm.cpp:227-238 | disable when running and changing, then the period on a change; the duty file is untouched |
| HardwarePwm.HardPwm.Resume | src/gpio_hw_pwm.cpp:240-252 | enable on a restart, then the duty writes |
| HardwarePwm.HardPwm.Reconfigure | src/gpio_hw_pwm.cpp:222-253 | a bad duty (or a zero new frequency) changes nothing and writes nothing; otherwise exactly the ordered writes, frequency and duty set, started when it ran or was asked to start |
| HardwarePwm.HardPwm.Rewrite | src/gpio_hw_pwm.cpp:227-252 | once the checks pass: exactly the ordered writes of `ReconfigureWrites`, the new frequency (and its period on a change) and duty cycle, started when it ran or was asked to start |
| HardwarePwm.HardPwm.Start | src/gpio_hw_pwm.cpp:190-202 | succeeds exactly for a configured frequency, enabling the line; otherwise refused after every channel is cleaned up |
| HardwarePwm.HardPwm.Stop | src/gpio_hw_pwm.cpp:204-220 | no write when not started; otherwise one disable write, the line disabled, `started` left true |
| HardwarePwm.HardPwm.Destroy | src/gpio_hw_pwm.cpp:255-258 | the destructor is `Stop` |
| Scenarios.SetupHighThenInput | src/gpio.cpp:394-508 | `setup(C, OUT, HIGH)` succeeds exactly when the export does, and then `input(C)` reads 1 |
| Scenarios.CleanupThenInput | src/gpio.cpp:454-508 | after `cleanup(C)` of one channel, `input(C)` fails with "not set up" |
| Scenarios.OutputThenInputAgain | samples/test_all_pins_input.cpp:66-94 | setmode, setup as output, output `v`, setup as input: the input reads `int(bool(v))` |

## Left out

- Gpio.Registry.constructor: the registry's `_CheckPermission` (src/gpio.cpp:129, 134-144), which throws "Permission Denied." when the sysfs `export` or `unexport` file is not writable, is not modelled; neither is `get_data`'s `throw false` (src/gpio_pin_data.cpp:436-440) during static initialisation. The constructor takes an already-built catalog, and a permission or catalog failure before the registry exists is outside the model.
- Kernel and filesystem I/O: the sysfs files, `os_access`, `os_listdir`, `os_path_isdir`, `os_path_exists` and the device-tree reads are a `Kernel` value and a `Platform` value. The `access` poll is an oracle over check numbers.
- `GpioPwmIf`'s own constructor is not part of this model (only its header is). The model assumes it resolves the channel the way each subclass needs: with a GPIO chip for the software PWM (as `GPIO::PWM::Impl` does) and with a PWM chip for the hardware PWM. A lookup failure there happens outside every handler, so the error propagates to the caller and nothing is cleaned up.
- Threads and timing: `std::thread`, the mutex, `join`, `sleep_for` and the race between `ChangeDutyCycle` and a running worker. The worker is sequential: `started` and the stop flag, and one loop pass (`RunCycle`) writes HIGH then LOW to a log rather than calling `GPIO::output`.
- Floating point: duty percentages and times are reals, with truncation toward zero written out. IEEE rounding is not modelled.
- SoftwarePwm.SoftPwm.ReconfigureAsWritten: division by a zero new frequency (an IEEE infinity in the source) keeps the old base time, which nothing reads again.
- HardwarePwm.HardPwm.Reconfigure: a zero new frequency is refused with "invalid frequency" before any write. The source divides by zero and truncates an infinity to `int`, which is undefined behaviour.
- The event backend (`_edge_event_detected`, `_edge_event_exists`, `_add_edge_callback`, `_add_edge_detect`, `_blocking_wait_for_edge`, `_remove_edge_*`) is not part of this model. Its results are parameters of the operations that call it. Clean-ups release a line's events through the `eventsCleaned` set.
- The hardware PWM constructor's warning block (src/gpio_hw_pwm.cpp:160-170) reads the channel's sysfs state, which the model takes to be `_sysfs_channel_configuration`; it only warns, so it changes nothing.
- `cerr`/`cout` warnings and messages are no-ops. `terminate()` is an error result. The static `_cleaner` at program exit is not modelled.
- src/gpio_common.cpp and its header duplicate the registry singleton and add permission I/O and board-info formatting; they are not part of this model.
- `GPIO::PWM::Impl` duplicates `GpioPwmIfSw`. It is modelled once, as `SoftwarePwm.SoftPwm`.
- Memory management: the pImpl `new`/`delete` and the move constructor and assignment are not modelled.
- `_export_pwm` in gpio.cpp is unused by the library; it is modelled (`Gpio.Registry.ExportPwm`) but nothing calls it. `hw_unexport_pwm` is modelled as `HardwarePwm.HardPwm.Unexport`; the library never calls it.
- The duty file is written without truncation, so a shorter value could leave old digits behind. The model's duty text is the decimal value written.
- `atoi` is modelled for digit strings and a leading sign and whitespace. Overflow of `int` is not modelled.
- `wait_for_edge` returns 0 on a timeout, which cannot be told apart from an edge on channel 0. The model keeps this as written.
- Re-setting a pin up as an input keeps the value file's last level in the model's kernel; a real line would read the pin.
- Gpio.Registry.SetupAll: after a mid-batch failure it states the outcome, the mode and the recorded directions, not the kernel's state line by line; success is stated as necessary and sufficient conditions rather than one if-and-only-if, because whether a later export needs the access poll depends on the kernel the earlier channels left.
- Gpio.Registry.OutputInt: states the success case only; failures are those of `Output`.
- Gpio.Registry.WaitForEdge: states success and its value; failures are those of `WaitForEdgeInt` at `atoi(name)`.
- Gpio.Registry.AddEventDetect: states when it succeeds and that refusals clean up; the errors are those of `AddEventDetectInt` at `atoi(name)`.
- Gpio.Pwm.Stop: states only that the worker is no longer running.
- Gpio.Pwm.Start: uses the corrected worker `start` (`SoftwarePwm.SoftPwm.Reconfigure` and `SoftPwm.Start`). In the source the stop flag is never lowered, so `start(50); stop(); start(50)`, or `start` on a running worker, leaves the worker stopped; `Gpio.Pwm.StartAsWritten` models that.
- Gpio.Registry.AddEventCallback: uses the corrected guard `Gpio.EdgeEventGuard`. In the source (src/gpio.cpp:609-610) `add_event_detect` followed by `add_event_callback` throws, cleans up every channel and terminates; `Gpio.Registry.AddEventCallbackAsWritten` models that.
- Gpio.Pwm.ChangeFrequency: uses the corrected reconfiguration (`SoftwarePwm.SoftPwm.Reconfigure`), so a non-positive new frequency is refused rather than giving an infinite or negative base time. In the source a running worker is left stopped by a frequency change, and the on and off times keep the constructor's slice time (`SoftwarePwm.SoftPwm.ReconfigureAsWritten`); no front-end method models that, because the front end's invariant requires the times to follow the frequency.
- HardwarePwm.HardPwm.Create: after the channel was exported, a failure states only that nothing is configured and the mode is None, not the exact kernel state.

## Findings

| source | as written | input that shows it | evidently intended | confidence | as-written member | corrected member |
|---|---|---|---|---|---|---|
| src/gpio_sw_pwm.cpp:61-82 | `stop` raises `m_stop_thread` and nothing lowers it, so a worker started after a stop leaves its loop at once | create at 100 Hz, `start(50)`, then `ChangeFrequency(200)`: the worker is stopped and the restarted one exits at once, so the output stops | a start after a stop runs the worker again | high, not executed | SoftwarePwm.SoftPwm.StartAsWritten, SoftwarePwm.RestartAsWrittenExample, SoftwarePwm.StopStartAsWrittenExample, Gpio.Pwm.StartAsWritten | SoftwarePwm.SoftPwm.Start, SoftwarePwm.RestartExample, Gpio.Pwm.Start |
| src/gpio_sw_pwm.cpp:116-123 | a frequency change recomputes `m_basetime` but not `m_slicetime`, so on and off times keep the constructor's frequency | create at 100 Hz, `ChangeFrequency(50)`: on plus off is 10000 µs while the period is 20000 µs | the slice time follows the new frequency | high, not executed | SoftwarePwm.SoftPwm.ReconfigureAsWritten, SoftwarePwm.SliceAsWrittenExample | SoftwarePwm.SoftPwm.Reconfigure, SoftwarePwm.SliceExample |
| src/gpio.cpp:607-610 | `add_event_callback` refuses when `_edge_event_exists` is true, while its message says the event must already exist | `add_event_detect(C, RISING)` then `add_event_callback(C, f)`: refused; without `add_event_detect` it goes ahead | refuse when no edge event exists | high, not executed | Gpio.EdgeEventGuardAsWritten, Gpio.EdgeEventGuardFinding, Gpio.Registry.AddEventCallbackAsWritten | Gpio.EdgeEventGuard, Gpio.Registry.AddEventCallback |
