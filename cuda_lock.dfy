/** The CUDA tool's controller (`main` of vram_lock.cpp): allocate a slice,
    fill it with 0xA5, copy it to the host twice and compare the MD5 hex
    strings of the copies. A match keeps the slice and goes on; the first
    mismatch frees every earlier slice, keeps the broken one and parks;
    allocation failure frees everything and exits 0. Driver calls are
    replaced by the answers they gave, and MD5 by a function parameter. */
module CudaLock {
  import opened Common
  import opened HexDigest
  import Cli

  const CUDA_SUCCESS: int := 0

  /** `CUdeviceptr`. */
  type DevPtr = nat

  /** What `cuMemAlloc` answered. */
  datatype Alloc = Allocated(dptr: DevPtr) | AllocFailed(code: int)

  /** The driver's answers during one round: `cuMemAlloc`, `cuMemsetD8`, the
      two `cuMemcpyDtoH` calls and the bytes each copy delivered. */
  datatype Round = Round(alloc: Alloc, memset: int, copy1: int, host1: seq<Byte>, copy2: int, host2: seq<Byte>)

  /** Both host buffers are `slice_bytes` long. */
  predicate WellFormedRound(round: Round, sliceBytes: nat)
  {
    |round.host1| == sliceBytes && |round.host2| == sliceBytes
  }

  /** The memset and both copies reported CUDA_SUCCESS. */
  predicate TransfersOk(round: Round)
  {
    round.memset == CUDA_SUCCESS && round.copy1 == CUDA_SUCCESS && round.copy2 == CUDA_SUCCESS
  }

  /** How the fill, the two copies and the hash comparison of one round end. */
  datatype Verdict = DriverError | Match | Mismatch

  /** The verdict the driver's answers call for: any failed transfer is a
      driver error, whatever the bytes; otherwise the hex strings decide. */
  function Judge(md5: seq<Byte> -> Digest, round: Round): Verdict
  {
    if !TransfersOk(round) then DriverError
    else if HashMismatch(md5, round) then Mismatch
    else Match
  }

  /** `h1 != h2`: the hex strings of the two copies' digests differ. */
  predicate HashMismatch(md5: seq<Byte> -> Digest, round: Round)
  {
    HexEncode(md5(round.host1)) != HexEncode(md5(round.host2))
  }

  /** A round after which the loop goes on: allocated, filled, copied twice,
      and the two hex strings agree. */
  predicate CleanMatch(md5: seq<Byte> -> Digest, round: Round)
  {
    round.alloc.Allocated? && Judge(md5, round) == Match
  }

  function PtrOf(a: Alloc): DevPtr
  {
    if a.Allocated? then a.dptr else 0
  }

  /** The device pointers the first `n` rounds obtained, in order. */
  function Kept(script: seq<Round>, n: nat): seq<DevPtr>
    requires n <= |script|
  {
    seq(n, k requires 0 <= k < n => PtrOf(script[k].alloc))
  }

  lemma KeptStep(script: seq<Round>, n: nat)
    requires n < |script|
    ensures Kept(script, n + 1) == Kept(script, n) + [PtrOf(script[n].alloc)]
  {
  }

  class CudaLockState {
    const sliceBytes: nat
    /** `allocations`. */
    var allocations: seq<DevPtr>
    /** Every pointer handed to `cuMemFree`, in order. */
    var freed: seq<DevPtr>
    /** `cuCtxDestroy` has been called. */
    var contextDestroyed: bool

    constructor (sliceBytes: nat)
      ensures this.sliceBytes == sliceBytes
      ensures allocations == [] && freed == [] && !contextDestroyed
    {
      this.sliceBytes := sliceBytes;
      allocations, freed := [], [];
      contextDestroyed := false;
    }

    /** `for (p : allocations) cuMemFree(p); allocations.clear();`: every
        held pointer is freed, in order, and the list is emptied. */
    method FreeAllocations()
      modifies this`allocations, this`freed
      ensures freed == old(freed) + old(allocations)
      ensures allocations == []
    {
      var i := 0;
      while i < |allocations|
        invariant i <= |allocations|
        invariant freed == old(freed) + allocations[..i]
        modifies this`freed
      {
        freed := freed + [allocations[i]];
        i := i + 1;
      }
      assert allocations[..i] == allocations;
      allocations := [];
    }

    /** The `cleanup` lambda: free everything held, then destroy the context. */
    method Cleanup()
      modifies this`allocations, this`freed, this`contextDestroyed
      ensures freed == old(freed) + old(allocations)
      ensures allocations == [] && contextDestroyed
    {
      FreeAllocations();
      contextDestroyed := true;
    }
  }


  /** The middle of a round of `main`'s loop: `cuMemsetD8`, the first copy and
      its hex digest, the second copy and its digest, and `h1 != h2`. A failing
      call goes to `die_cuda`, which exits 1 before any comparison. */
  method CheckRound(md5: seq<Byte> -> Digest, round: Round) returns (v: Verdict)
    ensures v == Judge(md5, round)
  {
    if round.memset != CUDA_SUCCESS {
      return DriverError;
    }
    if round.copy1 != CUDA_SUCCESS {
      return DriverError;
    }
    var h1 := Md5Hex(md5, round.host1);
    if round.copy2 != CUDA_SUCCESS {
      return DriverError;
    }
    var h2 := Md5Hex(md5, round.host2);
    v := if h1 != h2 then Mismatch else Match;
  }

  /** How the run ends after the round `last`, with `earlier` the pointers of
      the rounds before it: an allocation failure frees them all, destroys the
      context and exits 0; a failed transfer exits 1 holding them; a mismatch
      frees them and parks holding only the broken slice. */
  ghost predicate Ended(state: CudaLockState, md5: seq<Byte> -> Digest, last: Round, earlier: seq<DevPtr>, outcome: Outcome)
    reads state
  {
    && !CleanMatch(md5, last)
    && (last.alloc.AllocFailed? ==>
          && outcome == Exited(0)
          && state.allocations == [] && state.freed == earlier && state.contextDestroyed)
    && (last.alloc.Allocated? && Judge(md5, last) == DriverError ==>
          && outcome == Exited(Cli.EXIT_FATAL)
          && state.allocations == earlier && state.freed == [] && !state.contextDestroyed)
    && (last.alloc.Allocated? && Judge(md5, last) == Mismatch ==>
          && outcome == Parked
          && state.allocations == [last.alloc.dptr] && state.freed == earlier && !state.contextDestroyed)
  }

  /** `main`'s loop and what follows it, from the first `cuMemAlloc` to the
      end of the run. The allocator is assumed to fail at some round unless
      a mismatch or a driver error ends the run first. `attempts` counts the
      calls of `cuMemAlloc`. */
  method LockLoop(state: CudaLockState, md5: seq<Byte> -> Digest, script: seq<Round>)
    returns (outcome: Outcome, attempts: nat)
    requires state.allocations == [] && state.freed == [] && !state.contextDestroyed
    requires forall k :: 0 <= k < |script| ==> WellFormedRound(script[k], state.sliceBytes)
    requires exists k :: 0 <= k < |script| && !CleanMatch(md5, script[k])
    modifies state`allocations, state`freed, state`contextDestroyed
    ensures 1 <= attempts <= |script|
    ensures forall k :: 0 <= k < attempts - 1 ==> CleanMatch(md5, script[k])
    ensures Ended(state, md5, script[attempts - 1], Kept(script, attempts - 1), outcome)
  {
    ghost var stop :| 0 <= stop < |script| && !CleanMatch(md5, script[stop]);
    var idx := 0;
    while true
      invariant idx <= stop
      invariant forall k :: 0 <= k < idx ==> CleanMatch(md5, script[k])
      invariant state.allocations == Kept(script, idx)
      invariant state.freed == [] && !state.contextDestroyed
      decreases stop - idx
    {
      var round := script[idx];
      ghost var earlier := state.allocations;
      attempts := idx + 1;
      if round.alloc.AllocFailed? {
        // `break`, then `cleanup(); return 0;`
        state.Cleanup();
        outcome := Exited(0);
        assert Ended(state, md5, round, earlier, outcome);
        return;
      }
      var dptr := round.alloc.dptr;
      var verdict := CheckRound(md5, round);
      if verdict == DriverError {
        outcome := Exited(Cli.EXIT_FATAL);
        assert Ended(state, md5, round, earlier, outcome);
        return;
      }
      if verdict == Mismatch {
        // Free every earlier allocation; keep the broken one held.
        state.FreeAllocations();
        state.allocations := state.allocations + [dptr];
        outcome := Parked;
        assert Ended(state, md5, round, earlier, outcome);
        return;
      }
      state.allocations := state.allocations + [dptr];
      KeptStep(script, idx);
      idx := idx + 1;
    }
  }

  /** What happened before the loop: the driver's answers to `cuInit`,
      `cuDeviceGetCount` and the count it reported, `cuDeviceGet` and
      `cuCtxCreate`, and whether the two host buffers of `slice_bytes` could
      be allocated (they are built outside the `try`, so a `std::bad_alloc`
      there terminates the process). */
  datatype Setup = Setup(init: int, getCount: int, deviceCount: int, deviceGet: int, ctxCreate: int, hostBuffers: bool)

  /** Every driver call before the loop succeeded and the index names a device. */
  predicate DriverReady(setup: Setup, gpuIndex: U32)
  {
    && setup.init == CUDA_SUCCESS && setup.getCount == CUDA_SUCCESS
    && Cli.CheckDeviceIndex(gpuIndex, setup.deviceCount).None?
    && setup.deviceGet == CUDA_SUCCESS && setup.ctxCreate == CUDA_SUCCESS
  }

  /** `main` of the CUDA tool: the argument checks, the driver set-up with the
      device-index check between `cuDeviceGetCount` and `cuDeviceGet`, the
      host buffers, and then the lock loop on a fresh, empty allocation list. */
  method Run(args: seq<string>, setup: Setup, md5: seq<Byte> -> Digest, script: seq<Round>)
    returns (outcome: Outcome, state: CudaLockState?, attempts: nat)
    requires Cli.ParseCli(args).Start? ==>
      && (forall k :: 0 <= k < |script| ==> WellFormedRound(script[k], Cli.ParseCli(args).sliceBytes))
      && exists k :: 0 <= k < |script| && !CleanMatch(md5, script[k])
    ensures !Cli.ParseCli(args).Start? ==> outcome == Exited(Cli.ExitCode(Cli.ParseCli(args))) && state == null
    ensures Cli.ParseCli(args).Start? && (setup.init != CUDA_SUCCESS || setup.getCount != CUDA_SUCCESS) ==>
      outcome == Exited(Cli.EXIT_FATAL) && state == null
    ensures (&& Cli.ParseCli(args).Start? && setup.init == CUDA_SUCCESS && setup.getCount == CUDA_SUCCESS
             && Cli.CheckDeviceIndex(Cli.ParseCli(args).gpuIndex, setup.deviceCount).Some?) ==>
      outcome == Exited(Cli.CheckDeviceIndex(Cli.ParseCli(args).gpuIndex, setup.deviceCount).value) && state == null
    ensures (&& Cli.ParseCli(args).Start? && setup.init == CUDA_SUCCESS && setup.getCount == CUDA_SUCCESS
             && Cli.CheckDeviceIndex(Cli.ParseCli(args).gpuIndex, setup.deviceCount).None?
             && (setup.deviceGet != CUDA_SUCCESS || setup.ctxCreate != CUDA_SUCCESS)) ==>
      outcome == Exited(Cli.EXIT_FATAL) && state == null
    ensures Cli.ParseCli(args).Start? && DriverReady(setup, Cli.ParseCli(args).gpuIndex) && !setup.hostBuffers ==>
      outcome == Aborted && state == null
    ensures Cli.ParseCli(args).Start? && DriverReady(setup, Cli.ParseCli(args).gpuIndex) && setup.hostBuffers ==>
      && state != null && fresh(state)
      && state.sliceBytes == Cli.ParseCli(args).sliceBytes
      && 1 <= attempts <= |script|
      && (forall k :: 0 <= k < attempts - 1 ==> CleanMatch(md5, script[k]))
      && Ended(state, md5, script[attempts - 1], Kept(script, attempts - 1), outcome)
  {
    state, attempts := null, 0;
    var cli := Cli.ParseCli(args);
    if !cli.Start? {
      return Exited(Cli.ExitCode(cli)), state, attempts;
    }
    if setup.init != CUDA_SUCCESS || setup.getCount != CUDA_SUCCESS {
      return Exited(Cli.EXIT_FATAL), state, attempts;
    }
    var check := Cli.CheckDeviceIndex(cli.gpuIndex, setup.deviceCount);
    if check.Some? {
      return Exited(check.value), state, attempts;
    }
    if setup.deviceGet != CUDA_SUCCESS || setup.ctxCreate != CUDA_SUCCESS {
      return Exited(Cli.EXIT_FATAL), state, attempts;
    }
    if !setup.hostBuffers {
      return Aborted, state, attempts;
    }
    var s := new CudaLockState(cli.sliceBytes);
    outcome, attempts := LockLoop(s, md5, script);
    state := s;
  }

  /** A mismatch is only reported for copies whose digests differ, and so
      only for copies that differ: the lock never parks on identical
      read-backs. (Identical digests of differing copies go unnoticed.) */
  lemma MismatchMeansCopiesDiffer(md5: seq<Byte> -> Digest, round: Round)
    requires HashMismatch(md5, round)
    ensures md5(round.host1) != md5(round.host2)
    ensures round.host1 != round.host2
  {
  }

  /** A failed transfer ends the run with exit code 1 and is never counted as
      a mismatch: the run parks only after all three transfers succeeded. */
  lemma TransferFailureIsNotMismatch(md5: seq<Byte> -> Digest, round: Round)
    requires !TransfersOk(round)
    ensures Judge(md5, round) == DriverError && !CleanMatch(md5, round)
  {
  }

  /** Comparing the two hex strings is the same as comparing the two
      digests: the hex rendering loses nothing. */
  lemma HashMismatchIffDigestsDiffer(md5: seq<Byte> -> Digest, round: Round)
    ensures HashMismatch(md5, round) <==> md5(round.host1) != md5(round.host2)
  {
    HexInjective(md5(round.host1), md5(round.host2));
  }

  /** A verdict of Mismatch is exactly the case the source parks on: every
      transfer succeeded and the digests of the two copies differ. */
  lemma MismatchVerdict(md5: seq<Byte> -> Digest, round: Round)
    ensures Judge(md5, round) == Mismatch <==> TransfersOk(round) && md5(round.host1) != md5(round.host2)
  {
    HashMismatchIffDigestsDiffer(md5, round);
  }
}
