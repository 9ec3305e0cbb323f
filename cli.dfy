/** Command-line handling shared by both tools: `tool [gpu_index] [slice_mebibytes]`,
    the decimal parser behind it, and the device-index check made once the
    driver has reported how many devices there are. */
module Cli {
  import opened Common

  const MIB: int := 1024 * 1024
  const DEFAULT_GPU_INDEX: U32 := 0
  const DEFAULT_SLICE_MIB: U32 := 512

  /** Exit code for a usage or configuration error. */
  const EXIT_USAGE: int := 2
  /** Exit code for a fatal driver or internal error. */
  const EXIT_FATAL: int := 1

  predicate IsDigit(c: char) { '0' <= c <= '9' }

  predicate AllDigits(s: string) { forall i :: 0 <= i < |s| ==> IsDigit(s[i]) }

  function DigitValue(c: char): (d: nat)
    requires IsDigit(c)
    ensures d < 10
  {
    c as int - '0' as int
  }

  function DigitChar(d: nat): (c: char)
    requires d < 10
    ensures IsDigit(c) && DigitValue(c) == d
  {
    ('0' as int + d) as char
  }

  /** The base-10 value of a string of digits, most significant digit first. */
  function DecimalValue(s: string): nat
    requires AllDigits(s)
  {
    if s == [] then 0 else DecimalValue(s[..|s| - 1]) * 10 + DigitValue(s[|s| - 1])
  }

  /** The decimal rendering of `n` (no sign, no leading zeros), as `%u` prints it. */
  function ToDecimal(n: nat): (s: string)
    ensures s != [] && AllDigits(s)
  {
    if n < 10 then [DigitChar(n)] else ToDecimal(n / 10) + [DigitChar(n % 10)]
  }

  /** Result of `parse_u32`: whether it succeeded, and the value left in `*out`. */
  datatype Parsed = Parsed(ok: bool, value: U32)

  /** `parse_u32(s, out)`: accepts a non-empty string consumed entirely as a
      base-10 number no larger than 0xFFFFFFFF. On rejection the caller's
      variable keeps the value it had (`current`). */
  function ParseU32(s: string, current: U32): (r: Parsed)
    ensures r.ok <==> s != [] && AllDigits(s) && DecimalValue(s) <= U32_MAX
    ensures r.ok ==> r.value == DecimalValue(s)
    ensures !r.ok ==> r.value == current
  {
    if s == [] || !AllDigits(s) then Parsed(false, current)
    else
      var v := DecimalValue(s);
      if v > U32_MAX then Parsed(false, current) else Parsed(true, v)
  }

  lemma {:induction false} DecimalRoundTrip(n: nat)
    ensures DecimalValue(ToDecimal(n)) == n
  {
    if n >= 10 {
      var s := ToDecimal(n / 10) + [DigitChar(n % 10)];
      assert s[..|s| - 1] == ToDecimal(n / 10);
      DecimalRoundTrip(n / 10);
    }
  }

  /** Every 32-bit value printed in decimal is parsed back to itself. */
  lemma ParseU32RoundTrip(n: U32, current: U32)
    ensures ParseU32(ToDecimal(n), current) == Parsed(true, n)
  {
    DecimalRoundTrip(n);
  }

  /** What the argument checks at the top of `main` decide. */
  datatype Cli =
    | Help
    | BadGpuIndex
    | BadSliceSize
    | TooManyArguments
    | Start(gpuIndex: U32, sliceMib: U32, sliceBytes: nat)

  function ExitCode(c: Cli): (code: int)
    requires !c.Start?
    ensures code == 0 <==> c.Help?
    ensures code == 0 || code == EXIT_USAGE
  {
    if c.Help? then 0 else EXIT_USAGE
  }

  predicate IsHelpFlag(a: string) { a == "-h" || a == "--help" }

  /** The checks of `main` on `argv[1..]`, in the source's order: help flag,
      gpu index, slice size (zero is rejected), then the argument count. */
  function ParseCli(args: seq<string>): (r: Cli)
    ensures r.Help? <==> |args| >= 1 && IsHelpFlag(args[0])
    ensures r.BadGpuIndex? <==> |args| >= 1 && !IsHelpFlag(args[0]) && !ParseU32(args[0], 0).ok
    ensures r.BadSliceSize? <==>
      && |args| >= 2 && !IsHelpFlag(args[0]) && ParseU32(args[0], 0).ok
      && (!ParseU32(args[1], 0).ok || DecimalValue(args[1]) == 0)
    ensures r.TooManyArguments? <==>
      && |args| >= 3 && !IsHelpFlag(args[0]) && ParseU32(args[0], 0).ok
      && ParseU32(args[1], 0).ok && DecimalValue(args[1]) != 0
    ensures r.Start? <==>
      && |args| <= 2
      && (|args| >= 1 ==> !IsHelpFlag(args[0]) && ParseU32(args[0], 0).ok)
      && (|args| == 2 ==> ParseU32(args[1], 0).ok && DecimalValue(args[1]) != 0)
    ensures r.Start? ==>
      && |args| <= 2
      && (|args| >= 1 ==> ParseU32(args[0], 0).ok && r.gpuIndex == DecimalValue(args[0]))
      && (|args| == 0 ==> r.gpuIndex == 0)
      && (|args| >= 2 ==> ParseU32(args[1], 0).ok && r.sliceMib == DecimalValue(args[1]))
      && (|args| <= 1 ==> r.sliceMib == 512)
      && r.sliceMib != 0
      && r.sliceBytes == r.sliceMib * 1048576
      && r.sliceBytes < 0x1_0000_0000_0000_0000
  {
    if |args| >= 1 && IsHelpFlag(args[0]) then Help
    else
      var gpu := if |args| >= 1 then ParseU32(args[0], DEFAULT_GPU_INDEX) else Parsed(true, DEFAULT_GPU_INDEX);
      if !gpu.ok then BadGpuIndex
      else
        var mib := if |args| >= 2 then ParseU32(args[1], DEFAULT_SLICE_MIB) else Parsed(true, DEFAULT_SLICE_MIB);
        if !mib.ok || mib.value == 0 then BadSliceSize
        else if |args| >= 3 then TooManyArguments
        else Start(gpu.value, mib.value, mib.value * MIB)
  }

  /** Any index and any non-zero size, written in decimal, start a run with
      exactly those values; with no arguments the defaults are used. */
  lemma ParseCliRoundTrip(gpuIndex: U32, sliceMib: U32)
    requires sliceMib != 0
    ensures ParseCli([ToDecimal(gpuIndex), ToDecimal(sliceMib)]) == Start(gpuIndex, sliceMib, sliceMib * MIB)
    ensures ParseCli([ToDecimal(gpuIndex)]) == Start(gpuIndex, DEFAULT_SLICE_MIB, DEFAULT_SLICE_MIB * MIB)
    ensures ParseCli([]) == Start(DEFAULT_GPU_INDEX, DEFAULT_SLICE_MIB, DEFAULT_SLICE_MIB * MIB)
  {
    ParseU32RoundTrip(gpuIndex, DEFAULT_GPU_INDEX);
    ParseU32RoundTrip(sliceMib, DEFAULT_SLICE_MIB);
    assert !IsHelpFlag(ToDecimal(gpuIndex)) by {
      assert IsDigit(ToDecimal(gpuIndex)[0]);
    }
  }

  /** A zero or unparsable slice size is a usage error whatever follows it,
      once the gpu index parsed. */
  lemma BadSliceSizeRejected(args: seq<string>)
    requires |args| >= 2 && !IsHelpFlag(args[0]) && ParseU32(args[0], 0).ok
    requires !ParseU32(args[1], 0).ok || DecimalValue(args[1]) == 0
    ensures ParseCli(args) == BadSliceSize && ExitCode(ParseCli(args)) == EXIT_USAGE
  {
  }

  /** The device-count checks made after enumeration: no device is fatal (1),
      an index past the last device is a configuration error (2). */
  function CheckDeviceIndex(gpuIndex: U32, deviceCount: int): (r: Option<int>)
    ensures r == Some(EXIT_FATAL) <==> deviceCount <= 0
    ensures r == Some(EXIT_USAGE) <==> 0 < deviceCount <= gpuIndex
    ensures r == None <==> gpuIndex < deviceCount
  {
    if deviceCount <= 0 then Some(EXIT_FATAL)
    else if gpuIndex >= deviceCount then Some(EXIT_USAGE)
    else None
  }
}
