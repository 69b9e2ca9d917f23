/** The kernel side of the library: the sysfs GPIO and PWM attribute files,
    abstracted as a `Kernel` value, the PWM path builders, and the
    permission poll that follows every export. */
module Sysfs {
  import opened Conversions
  import opened PythonFunctions
  import opened PinCatalog

  // ------------------------------------------------------------ GPIO lines

  /** The state of one PWM line of a pwmchip: the `period` and `enable`
      attributes as numbers, `duty_cycle` as the text the file holds. */
  datatype PwmLine = PwmLine(period: int, duty: string, enabled: bool)

  /** What the library reads and writes under /sys/class/gpio and the
      pwmchip directories.  `exported` holds the lines that have a
      `gpioN` directory; `direction` and `value` are the contents of their
      attribute files; `pwmChips` are the pwmchip directories whose `export`
      file can be opened; `pwmLines` are the exported PWM lines, by path. */
  datatype Kernel = Kernel(
    exported: set<int>,
    direction: map<int, string>,
    value: map<int, int>,
    pwmChips: set<string>,
    pwmLines: map<string, PwmLine>)

  /** Contents of `gpioN/direction` ("" when the file cannot be read). */
  function ReadDirection(k: Kernel, gpio: int): string
  {
    if gpio in k.direction then k.direction[gpio] else ""
  }

  /** The number `gpioN/value` holds (0 when it cannot be read). */
  function ReadValue(k: Kernel, gpio: int): int
  {
    if gpio in k.value then k.value[gpio] else 0
  }

  /** Writing the line number to /sys/class/gpio/export creates `gpioN`. */
  function ExportLine(k: Kernel, gpio: int): (r: Kernel)
    ensures r.exported == k.exported + {gpio}
    ensures r.direction == k.direction && r.value == k.value
    ensures r.pwmChips == k.pwmChips && r.pwmLines == k.pwmLines
  {
    k.(exported := k.exported + {gpio})
  }

  /** Writing the line number to /sys/class/gpio/unexport removes `gpioN`
      with its attribute files. */
  function UnexportLine(k: Kernel, gpio: int): (r: Kernel)
    ensures r.exported == k.exported - {gpio}
    ensures gpio !in r.direction && gpio !in r.value
    ensures forall g :: g != gpio ==> ReadDirection(r, g) == ReadDirection(k, g)
    ensures forall g :: g != gpio ==> ReadValue(r, g) == ReadValue(k, g)
    ensures r.pwmChips == k.pwmChips && r.pwmLines == k.pwmLines
  {
    k.(exported := k.exported - {gpio}, direction := k.direction - {gpio}, value := k.value - {gpio})
  }

  /** A write to `gpioN/direction`; the write is lost when the line is not
      exported (the file cannot be opened). */
  function WriteDirection(k: Kernel, gpio: int, text: string): (r: Kernel)
    ensures gpio in k.exported ==> ReadDirection(r, gpio) == text
    ensures gpio !in k.exported ==> r == k
    ensures forall g :: g != gpio ==> ReadDirection(r, g) == ReadDirection(k, g)
    ensures r.exported == k.exported && r.value == k.value
    ensures r.pwmChips == k.pwmChips && r.pwmLines == k.pwmLines
  {
    if gpio in k.exported then k.(direction := k.direction[gpio := text]) else k
  }

  /** A write to `gpioN/value`, lost as above when the line is not exported. */
  function WriteValue(k: Kernel, gpio: int, v: int): (r: Kernel)
    ensures gpio in k.exported ==> ReadValue(r, gpio) == v
    ensures gpio !in k.exported ==> r == k
    ensures forall g :: g != gpio ==> ReadValue(r, g) == ReadValue(k, g)
    ensures r.exported == k.exported && r.direction == k.direction
    ensures r.pwmChips == k.pwmChips && r.pwmLines == k.pwmLines
  {
    if gpio in k.exported then k.(value := k.value[gpio := v]) else k
  }

  /** Only exported lines have attribute files. */
  predicate Coherent(k: Kernel)
  {
    k.direction.Keys <= k.exported && k.value.Keys <= k.exported
  }

  /** The kernel after every line of `lines` is unexported. */
  function RemoveLines(k: Kernel, lines: set<int>): (r: Kernel)
    ensures r.exported == k.exported - lines
    ensures Coherent(k) ==> Coherent(r)
  {
    k.(exported := k.exported - lines, direction := k.direction - lines, value := k.value - lines)
  }

  /** On a coherent kernel, unexporting one line more is removing one line
      more. */
  lemma RemoveOneMore(k: Kernel, lines: set<int>, gpio: int)
    ensures UnexportLine(RemoveLines(k, lines), gpio) == RemoveLines(k, lines + {gpio})
  {
  }

  /** The direction the kernel reports for a line: `IN` for "in" and `OUT`
      for "out" after white space is stripped and letters are lower-cased. */
  function ClassifyDirection(text: string): (r: GpioTypes.Direction)
    ensures r == GpioTypes.Direction.IN <==> Lower(Stripped(text)) == "in"
    ensures r == GpioTypes.Direction.OUT <==> Lower(Stripped(text)) == "out"
    ensures r != GpioTypes.Direction.HARD_PWM
  {
    var d := Lower(Stripped(text));
    if d == "in" then GpioTypes.Direction.IN
    else if d == "out" then GpioTypes.Direction.OUT
    else GpioTypes.Direction.UNKNOWN
  }

  /** What the library writes to `direction` reads back as that direction,
      and so does the kernel's own spelling with a trailing newline or in
      capitals. */
  lemma ClassifyWrittenDirection()
    ensures ClassifyDirection("in") == GpioTypes.Direction.IN
    ensures ClassifyDirection("out") == GpioTypes.Direction.OUT
    ensures ClassifyDirection("out\n") == GpioTypes.Direction.OUT
    ensures ClassifyDirection(" IN ") == GpioTypes.Direction.IN
  {
    StrippedOfTrimmed("in");
    StrippedOfTrimmed("out");
    TrimTrailingAt("out\n", 3);
    assert "out\n"[..3] == "out";
    assert LeadingSpaces(" IN ") == 1;
    assert " IN "[1..] == "IN ";
    TrimTrailingAt("IN ", 2);
    assert "IN "[..2] == "IN";
  }

  // ------------------------------------------------------------- PWM paths

  /** `<pwm chip dir>/pwm<id>`: the directory of an exported PWM line. */
  function PwmPath(ch: ChannelInfo): string
  {
    ch.pwmChipDir + "/pwm" + IntToString(ch.pwmId)
  }

  function PwmExportPath(ch: ChannelInfo): string
  {
    ch.pwmChipDir + "/export"
  }

  function PwmUnexportPath(ch: ChannelInfo): string
  {
    ch.pwmChipDir + "/unexport"
  }

  function PwmPeriodPath(ch: ChannelInfo): string
  {
    PwmPath(ch) + "/period"
  }

  function PwmDutyCyclePath(ch: ChannelInfo): string
  {
    PwmPath(ch) + "/duty_cycle"
  }

  function PwmEnablePath(ch: ChannelInfo): string
  {
    PwmPath(ch) + "/enable"
  }

  /** The PWM id can be read back from the line's directory name: what
      follows `<chip dir>/pwm` is the id's numeral. */
  lemma PwmPathNamesId(ch: ChannelInfo)
    ensures StartsWith(PwmPath(ch), ch.pwmChipDir + "/pwm")
    ensures Atoi(PwmPath(ch)[|ch.pwmChipDir| + 4..]) == ch.pwmId
  {
    var prefix := ch.pwmChipDir + "/pwm";
    StartsWithConcatenation(prefix, IntToString(ch.pwmId));
    assert PwmPath(ch)[|ch.pwmChipDir| + 4..] == IntToString(ch.pwmId);
    AtoiOfIntToString(ch.pwmId);
  }

  /** The attribute files are three distinct files inside the line's
      directory, and the chip's export and unexport files are distinct. */
  lemma PwmAttributePaths(ch: ChannelInfo)
    ensures StartsWith(PwmPeriodPath(ch), PwmPath(ch) + "/")
    ensures StartsWith(PwmDutyCyclePath(ch), PwmPath(ch) + "/")
    ensures StartsWith(PwmEnablePath(ch), PwmPath(ch) + "/")
    ensures PwmPeriodPath(ch) != PwmDutyCyclePath(ch)
    ensures PwmPeriodPath(ch) != PwmEnablePath(ch)
    ensures PwmDutyCyclePath(ch) != PwmEnablePath(ch)
    ensures PwmExportPath(ch) != PwmUnexportPath(ch)
    ensures StartsWith(PwmExportPath(ch), ch.pwmChipDir + "/")
    ensures StartsWith(PwmUnexportPath(ch), ch.pwmChipDir + "/")
  {
    var base := PwmPath(ch);
    assert PwmPeriodPath(ch) == (base + "/") + "period";
    assert PwmDutyCyclePath(ch) == (base + "/") + "duty_cycle";
    assert PwmEnablePath(ch) == (base + "/") + "enable";
    StartsWithConcatenation(base + "/", "period");
    StartsWithConcatenation(base + "/", "duty_cycle");
    StartsWithConcatenation(base + "/", "enable");
    assert |PwmPeriodPath(ch)| == |base| + 7;
    assert |PwmEnablePath(ch)| == |base| + 7;
    assert PwmPeriodPath(ch)[|base| + 1] == 'p';
    assert PwmEnablePath(ch)[|base| + 1] == 'e';
    assert |PwmDutyCyclePath(ch)| == |base| + 11;
    assert |PwmExportPath(ch)| != |PwmUnexportPath(ch)|;
    assert PwmExportPath(ch) == (ch.pwmChipDir + "/") + "export";
    assert PwmUnexportPath(ch) == (ch.pwmChipDir + "/") + "unexport";
    StartsWithConcatenation(ch.pwmChipDir + "/", "export");
    StartsWithConcatenation(ch.pwmChipDir + "/", "unexport");
  }

  // ---------------------------------------------------------- PWM lines

  /** Writing the id to the chip's `export` file creates the line with the
      kernel's initial period 0, duty cycle "0" and output disabled. */
  function ExportPwmLine(k: Kernel, path: string): (r: Kernel)
    ensures path in r.pwmLines && r.pwmLines[path] == PwmLine(0, "0", false)
    ensures forall q :: q != path ==> (q in r.pwmLines <==> q in k.pwmLines)
    ensures forall q :: q != path && q in k.pwmLines ==> r.pwmLines[q] == k.pwmLines[q]
    ensures r.exported == k.exported && r.direction == k.direction && r.value == k.value
    ensures r.pwmChips == k.pwmChips
  {
    k.(pwmLines := k.pwmLines[path := PwmLine(0, "0", false)])
  }

  /** Writing the id to the chip's `unexport` file removes the line. */
  function UnexportPwmLine(k: Kernel, path: string): (r: Kernel)
    ensures path !in r.pwmLines
    ensures forall q :: q != path ==> (q in r.pwmLines <==> q in k.pwmLines)
    ensures r.exported == k.exported && r.direction == k.direction && r.value == k.value
  {
    k.(pwmLines := k.pwmLines - {path})
  }

  /** The attributes of an existing line after a write to one of them; a write
      to a line that does not exist changes nothing. */
  function UpdatePwmLine(k: Kernel, path: string, line: PwmLine): (r: Kernel)
    ensures path in k.pwmLines ==> path in r.pwmLines && r.pwmLines[path] == line
    ensures path !in k.pwmLines ==> r == k
    ensures r.pwmLines.Keys == k.pwmLines.Keys
    ensures forall q :: q != path && q in k.pwmLines ==> r.pwmLines[q] == k.pwmLines[q]
    ensures r.exported == k.exported && r.direction == k.direction && r.value == k.value
  {
    if path in k.pwmLines then k.(pwmLines := k.pwmLines[path := line]) else k
  }

  /** The writes the hardware PWM makes to a line's attribute files. */
  datatype PwmWrite = Disable | Period(ns: int) | Enable | Duty(ns: int)

  /** The line after one write: `enable` gets 0 or 1, `period` and
      `duty_cycle` get the numeral of the value. */
  function ApplyPwmWrite(line: PwmLine, w: PwmWrite): (r: PwmLine)
    ensures w.Disable? ==> r == line.(enabled := false)
    ensures w.Enable? ==> r == line.(enabled := true)
    ensures w.Period? ==> r == line.(period := w.ns)
    ensures w.Duty? ==> r == line.(duty := IntToString(w.ns))
  {
    match w
    case Disable => line.(enabled := false)
    case Enable => line.(enabled := true)
    case Period(ns) => line.(period := ns)
    case Duty(ns) => line.(duty := IntToString(ns))
  }

  /** The line after a sequence of writes, in order. */
  function ApplyPwmWrites(line: PwmLine, ws: seq<PwmWrite>): PwmLine
    decreases |ws|
  {
    if ws == [] then line else ApplyPwmWrites(ApplyPwmWrite(line, ws[0]), ws[1..])
  }

  lemma {:induction false} ApplyPwmWritesAppend(line: PwmLine, ws: seq<PwmWrite>, w: PwmWrite)
    ensures ApplyPwmWrites(line, ws + [w]) == ApplyPwmWrite(ApplyPwmWrites(line, ws), w)
    decreases |ws|
  {
    if ws == [] {
      assert ws + [w] == [w];
      assert [w][1..] == [];
    } else {
      assert (ws + [w])[0] == ws[0];
      assert (ws + [w])[1..] == ws[1..] + [w];
      ApplyPwmWritesAppend(ApplyPwmWrite(line, ws[0]), ws[1..], w);
    }
  }

  /** Writes split anywhere: the second part applies to the line the first
      part leaves. */
  lemma {:induction false} ApplyPwmWritesConcat(line: PwmLine, a: seq<PwmWrite>, b: seq<PwmWrite>)
    ensures ApplyPwmWrites(line, a + b) == ApplyPwmWrites(ApplyPwmWrites(line, a), b)
    decreases |a|
  {
    if a == [] {
      assert a + b == b;
    } else {
      assert (a + b)[0] == a[0];
      assert (a + b)[1..] == a[1..] + b;
      ApplyPwmWritesConcat(ApplyPwmWrite(line, a[0]), a[1..], b);
    }
  }

  /** The kernel after one write to the line at `path`; writes to a line
      that is not exported are lost. */
  function WritePwm(k: Kernel, path: string, w: PwmWrite): (r: Kernel)
    ensures path in k.pwmLines ==> path in r.pwmLines && r.pwmLines[path] == ApplyPwmWrite(k.pwmLines[path], w)
    ensures path !in k.pwmLines ==> r == k
    ensures r.pwmLines.Keys == k.pwmLines.Keys
    ensures r.exported == k.exported && r.direction == k.direction && r.value == k.value
  {
    if path in k.pwmLines then UpdatePwmLine(k, path, ApplyPwmWrite(k.pwmLines[path], w)) else k
  }

  /** The kernel after a sequence of writes to the line at `path`. */
  function WritePwmAll(k: Kernel, path: string, ws: seq<PwmWrite>): (r: Kernel)
    ensures path in k.pwmLines ==> path in r.pwmLines && r.pwmLines[path] == ApplyPwmWrites(k.pwmLines[path], ws)
    ensures path !in k.pwmLines ==> r == k
    ensures r.pwmLines.Keys == k.pwmLines.Keys
    ensures forall q :: q != path && q in k.pwmLines ==> r.pwmLines[q] == k.pwmLines[q]
    ensures r.exported == k.exported && r.direction == k.direction && r.value == k.value
  {
    if path in k.pwmLines then UpdatePwmLine(k, path, ApplyPwmWrites(k.pwmLines[path], ws)) else k
  }

  lemma WritePwmAllAppend(k: Kernel, path: string, ws: seq<PwmWrite>, w: PwmWrite)
    ensures WritePwmAll(k, path, ws + [w]) == WritePwm(WritePwmAll(k, path, ws), path, w)
  {
    if path in k.pwmLines {
      ApplyPwmWritesAppend(k.pwmLines[path], ws, w);
    }
  }

  /** No writes leave the kernel as it is, and one write is `WritePwm`. */
  lemma WritePwmAllShort(k: Kernel, path: string, w: PwmWrite)
    ensures WritePwmAll(k, path, []) == k
    ensures WritePwmAll(k, path, [w]) == WritePwm(k, path, w)
  {
    if path in k.pwmLines {
      assert k.pwmLines[path := k.pwmLines[path]] == k.pwmLines;
      assert [w][1..] == [];
      assert ApplyPwmWrites(k.pwmLines[path], [w]) == ApplyPwmWrite(k.pwmLines[path], w);
    }
  }

  /** Writes to a line split anywhere, at the level of the kernel. */
  lemma WritePwmAllConcat(k: Kernel, path: string, a: seq<PwmWrite>, b: seq<PwmWrite>)
    ensures WritePwmAll(k, path, a + b) == WritePwmAll(WritePwmAll(k, path, a), path, b)
  {
    if path in k.pwmLines {
      ApplyPwmWritesConcat(k.pwmLines[path], a, b);
    }
  }

  // ------------------------------------------------------------------ poll

  /** The number of failed access checks after which an export gives up:
      the counter is compared with 100 before it is incremented, so the
      102nd failed check throws. */
  const POLL_CHECKS: nat := 102

  /** The wait after an export until the new attribute file is readable and
      writable: `access(i)` is the outcome of the i-th check. */
  method PollAccess(access: nat -> bool) returns (ok: bool, failedChecks: nat)
    ensures ok <==> exists i :: 0 <= i < POLL_CHECKS && access(i)
    ensures ok ==> failedChecks < POLL_CHECKS && access(failedChecks) &&
                   forall i :: 0 <= i < failedChecks ==> !access(i)
    ensures !ok ==> failedChecks == POLL_CHECKS
  {
    var timeCount := 0;
    while !access(timeCount)
      invariant 0 <= timeCount < POLL_CHECKS
      invariant forall i :: 0 <= i < timeCount ==> !access(i)
      decreases POLL_CHECKS - timeCount
    {
      if timeCount > 100 {
        return false, POLL_CHECKS;
      }
      timeCount := timeCount + 1;
    }
    return true, timeCount;
  }
}
