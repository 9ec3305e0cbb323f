/** The Vulkan tool's slice registry (`VramLockState`) and its controller
    (`main`): allocate a slice, fill it with 0xA5, read it back twice, mark it
    OK or faulty, and keep going after a fault; when allocation fails, release
    every slice that is not faulty, rewrite the map and park holding the
    faulty ones. */
module VulkanLock {
  import opened Common
  import opened SliceMap
  import opened VulkanSelect
  import Cli

  /** A device-local buffer and the memory bound to it. */
  datatype Slice = Slice(buffer: Handle, memory: Handle, size: nat)

  /** What `fill_pattern` and the two `readback_to_host` calls delivered:
      either a transfer call failed (the process dies), or the two host copies. */
  datatype Readback = TransferFailed | Copies(host1: seq<Byte>, host2: seq<Byte>)

  datatype Verdict = Match | Mismatch

  /** The `memcmp` of the two host copies: a single differing byte anywhere
      is a mismatch. */
  function CompareCopies(host1: seq<Byte>, host2: seq<Byte>): (v: Verdict)
    requires |host1| == |host2|
    ensures v == Mismatch <==> exists i :: 0 <= i < |host1| && host1[i] != host2[i]
  {
    if host1 == host2 then Match
    else
      assert exists i :: 0 <= i < |host1| && host1[i] != host2[i];
      Mismatch
  }

  /** The handles `destroy_slice` gives back: the buffer, then the memory,
      each only when not null. */
  function SliceHandles(s: Slice): seq<Handle>
  {
    (if s.buffer != NULL_HANDLE then [s.buffer] else []) + (if s.memory != NULL_HANDLE then [s.memory] else [])
  }

  function Handles(ss: seq<Slice>): seq<Handle>
  {
    if ss == [] then [] else Handles(ss[..|ss| - 1]) + SliceHandles(ss[|ss| - 1])
  }

  /** A slice the registry holds: both handles live, full slice size. */
  predicate Live(s: Slice, sliceBytes: nat)
  {
    s.buffer != NULL_HANDLE && s.memory != NULL_HANDLE && s.size == sliceBytes
  }

  ghost predicate AllLive(ss: seq<Slice>, sliceBytes: nat)
  {
    forall k :: 0 <= k < |ss| ==> Live(ss[k], sliceBytes)
  }

  lemma HandlesAppend(ss: seq<Slice>, s: Slice)
    ensures Handles(ss + [s]) == Handles(ss) + SliceHandles(s)
  {
    assert (ss + [s])[..|ss|] == ss;
  }

  class VramLockState {
    const sliceBytes: nat
    /** `vk.mem_props`: the property flags of each memory type. */
    const memTypes: seq<bv32>

    var slices: seq<Slice>
    var vramMap: seq<char>
    var okCount: nat
    var badCount: nat
    var finalizedAfterOom: bool
    /** Every handle this state has handed back to the driver, in order. */
    var released: seq<Handle>

    ghost predicate Valid()
      reads this
    {
      && |memTypes| <= MAX_MEMORY_TYPES
      && AllLive(slices, sliceBytes)
    }

    constructor (sliceBytes: nat, memTypes: seq<bv32>)
      requires |memTypes| <= MAX_MEMORY_TYPES
      ensures Valid()
      ensures this.sliceBytes == sliceBytes && this.memTypes == memTypes
      ensures slices == [] && vramMap == [] && okCount == 0 && badCount == 0
      ensures !finalizedAfterOom && released == []
    {
      this.sliceBytes := sliceBytes;
      this.memTypes := memTypes;
      slices, vramMap := [], [];
      okCount, badCount := 0, 0;
      finalizedAfterOom := false;
      released := [];
    }

    /** `make_allocation`: on success exactly one slice and one in-progress
        mark are appended; on failure the registry is unchanged and nothing
        the driver handed out is left behind. */
    method MakeAllocation(d: CreateReplies) returns (r: int)
      requires Valid()
      modifies this`slices, this`vramMap, this`released
      ensures Valid()
      ensures r == VK_SUCCESS <==> CreationSucceeds(memTypes, MEMORY_PROPERTY_DEVICE_LOCAL, d)
      ensures r == VK_SUCCESS ==>
        && slices == old(slices) + [Slice(d.buffer.handle, d.memory.handle, sliceBytes)]
        && vramMap == old(vramMap) + [IN_PROGRESS]
        && released == old(released)
      ensures r != VK_SUCCESS ==>
        && slices == old(slices)
        && vramMap == old(vramMap)
        && released == old(released) + Acquired(memTypes, MEMORY_PROPERTY_DEVICE_LOCAL, d)
    {
      var s := Slice(NULL_HANDLE, NULL_HANDLE, sliceBytes);
      var rel;
      r, s, rel := CreateAndBind(d, s);
      released := released + rel;
      if r != VK_SUCCESS {
        // The source then destroys whichever of the two handles is not null;
        // creation has already nulled both, so that cleanup gives back nothing.
        assert s.buffer == NULL_HANDLE && s.memory == NULL_HANDLE;
        return r;
      }
      slices := slices + [s];
      vramMap := vramMap + [IN_PROGRESS];
    }

    /** The `create_buffer_and_memory` call of `make_allocation`, writing the
        out handles into the slice record. */
    method CreateAndBind(d: CreateReplies, s: Slice) returns (r: int, s': Slice, rel: seq<Handle>)
      requires Valid()
      ensures r == VK_SUCCESS <==> CreationSucceeds(memTypes, MEMORY_PROPERTY_DEVICE_LOCAL, d)
      ensures s'.size == s.size
      ensures r == VK_SUCCESS ==>
        s'.buffer == d.buffer.handle && s'.memory == d.memory.handle && rel == []
      ensures r != VK_SUCCESS ==>
        s'.buffer == NULL_HANDLE && s'.memory == NULL_HANDLE
        && rel == Acquired(memTypes, MEMORY_PROPERTY_DEVICE_LOCAL, d)
    {
      var buf, mem;
      r, buf, mem, rel := CreateBufferAndMemory(memTypes, MEMORY_PROPERTY_DEVICE_LOCAL, d);
      s' := s.(buffer := buf, memory := mem);
    }

    /** `test_slice`: an index past either vector is fatal, and so is a failed
        transfer; otherwise only `map[idx]` and one counter change. */
    method TestSlice(idx: nat, rb: Readback) returns (fatal: bool)
      requires rb.Copies? ==> |rb.host1| == sliceBytes && |rb.host2| == sliceBytes
      modifies this`vramMap, this`okCount, this`badCount
      ensures fatal <==> idx >= |slices| || idx >= |old(vramMap)| || rb.TransferFailed?
      ensures fatal ==> vramMap == old(vramMap) && okCount == old(okCount) && badCount == old(badCount)
      ensures !fatal && CompareCopies(rb.host1, rb.host2) == Mismatch ==>
        vramMap == old(vramMap)[idx := FAULTY] && badCount == old(badCount) + 1 && okCount == old(okCount)
      ensures !fatal && CompareCopies(rb.host1, rb.host2) == Match ==>
        vramMap == old(vramMap)[idx := OK] && okCount == old(okCount) + 1 && badCount == old(badCount)
    {
      if idx >= |slices| || idx >= |vramMap| {
        return true;
      }
      if rb.TransferFailed? {
        return true;
      }
      if CompareCopies(rb.host1, rb.host2) == Mismatch {
        vramMap := vramMap[idx := FAULTY];
        badCount := badCount + 1;
        return false;
      }
      vramMap := vramMap[idx := OK];
      okCount := okCount + 1;
      return false;
    }

    /** `destroy_slice`. */
    method DestroySlice(s: Slice)
      modifies this`released
      ensures released == old(released) + SliceHandles(s)
    {
      if s.buffer != NULL_HANDLE {
        released := released + [s.buffer];
      }
      if s.memory != NULL_HANDLE {
        released := released + [s.memory];
      }
    }

    /** The loop of `free_all_except_faulty`: walk the slices, collecting
        the faulty ones in order and destroying every other one. */
    method DestroyAllButFaulty(all: seq<Slice>, marks: seq<char>) returns (kept: seq<Slice>)
      requires |all| == |marks| && AllLive(all, sliceBytes)
      modifies this`released
      ensures kept == KeepFaulty(all, marks) && AllLive(kept, sliceBytes)
      ensures released == old(released) + Handles(DropFaulty(all, marks))
    {
      kept := [];
      var i := 0;
      while i < |all|
        invariant i <= |all|
        invariant kept == KeptAmong(all, marks, i)
        invariant released == old(released) + Handles(DroppedAmong(all, marks, i))
        invariant AllLive(kept, sliceBytes)
      {
        AmongStep(all, marks, i);
        if marks[i] == FAULTY {
          assert Live(all[i], sliceBytes);
          kept := kept + [all[i]];
        } else {
          HandlesAppend(DroppedAmong(all, marks, i), all[i]);
          DestroySlice(all[i]);
        }
        i := i + 1;
      }
    }

    /** `free_all_except_faulty`: fatal unless the two vectors have the same
        length; otherwise the slices at faulty positions are kept in order and
        every other slice is destroyed. */
    method FreeAllExceptFaulty() returns (fatal: bool)
      requires Valid()
      modifies this`slices, this`released
      ensures Valid()
      ensures fatal <==> |old(slices)| != |vramMap|
      ensures fatal ==> slices == old(slices) && released == old(released)
      ensures !fatal ==>
        && slices == KeepFaulty(old(slices), vramMap)
        && released == old(released) + Handles(DropFaulty(old(slices), vramMap))
      // so a second call passes the size check only if every slice was faulty
      ensures !fatal ==> (|slices| == |vramMap| <==> forall i :: 0 <= i < |vramMap| ==> vramMap[i] == FAULTY)
    {
      if |slices| != |vramMap| {
        return true;
      }
      var all, marks := slices, vramMap;
      var kept := DestroyAllButFaulty(all, marks);
      slices := kept;
      KeepFaultyLength(all, marks);
      CountAll(marks, FAULTY);
      return false;
    }
  }

  /** One round of the controller, as the driver answered it: the replies to
      the slice's creation, then what the fill and two read-backs produced. */
  datatype Step = Step(create: CreateReplies, readback: Readback)

  predicate WellFormedStep(step: Step, sliceBytes: nat)
  {
    step.readback.Copies? ==> |step.readback.host1| == sliceBytes && |step.readback.host2| == sliceBytes
  }

  /** The mark a round leaves once tested. */
  function Mark(rb: Readback): char
  {
    match rb
    case TransferFailed => IN_PROGRESS
    case Copies(h1, h2) => if h1 == h2 then OK else FAULTY
  }

  function Made(script: seq<Step>, n: nat, sliceBytes: nat): seq<Slice>
    requires n <= |script|
  {
    seq(n, k requires 0 <= k < n => Slice(HandleOf(script[k].create.buffer), HandleOf(script[k].create.memory), sliceBytes))
  }

  function Marks(script: seq<Step>, n: nat): seq<char>
    requires n <= |script|
  {
    seq(n, k requires 0 <= k < n => Mark(script[k].readback))
  }

  function HandleOf(r: Reply): Handle
  {
    if r.Created? then r.handle else NULL_HANDLE
  }

  /** Rounds before `n` all allocated and were read back. */
  ghost predicate ProbedThrough(memTypes: seq<bv32>, script: seq<Step>, n: nat)
    requires |memTypes| <= MAX_MEMORY_TYPES && n <= |script|
  {
    forall k :: 0 <= k < n ==>
      CreationSucceeds(memTypes, MEMORY_PROPERTY_DEVICE_LOCAL, script[k].create) && script[k].readback.Copies?
  }

  /** The Probing invariant of `main`'s loop head: one map entry per slice,
      nothing in progress, and each counter equal to the count of its mark. */
  ghost predicate Probing(state: VramLockState)
    reads state
  {
    && state.Valid()
    && |state.slices| == |state.vramMap|
    && Tested(state.vramMap, state.okCount, state.badCount)
    && !state.finalizedAfterOom
  }

  /** Every entry of the map is a verdict and the counters count them. */
  ghost predicate Tested(m: seq<char>, okCount: nat, badCount: nat)
  {
    && (forall i :: 0 <= i < |m| ==> m[i] == OK || m[i] == FAULTY)
    && Count(m, IN_PROGRESS) == 0
    && okCount == Count(m, OK)
    && badCount == Count(m, FAULTY)
  }

  /** The parked state after the reclaim of the slices `made`, tested with
      verdicts `marks`: exactly the faulty slices are held, in order; every
      other slice was given back after the handles in `before`; the map shows
      only faulty and released entries; the OK counter still says how many
      slices tested OK. */
  ghost predicate Reclaimed(state: VramLockState, made: seq<Slice>, marks: seq<char>, before: seq<Handle>)
    requires |made| == |marks|
    reads state
  {
    && state.Valid()
    && state.finalizedAfterOom
    && state.slices == KeepFaulty(made, marks)
    && state.released == before + Handles(DropFaulty(made, marks))
    && IsFinalized(marks, state.vramMap)
    && |state.slices| == state.badCount == Count(state.vramMap, FAULTY)
    && state.okCount == |DropFaulty(made, marks)|
    && Count(state.vramMap, OK) == 0 && Count(state.vramMap, IN_PROGRESS) == 0
  }

  /** The terminal reclaim of `main` after allocation failed: release every
      slice that is not faulty, rewrite the map, set the finalized flag. */
  method FinalizeAfterOom(state: VramLockState, ghost made: seq<Slice>, ghost marks: seq<char>, ghost before: seq<Handle>)
    requires Probing(state)
    requires state.slices == made && state.vramMap == marks && state.released == before
    modifies state`slices, state`released, state`vramMap, state`finalizedAfterOom
    ensures Reclaimed(state, made, marks, before)
  {
    var fatal := state.FreeAllExceptFaulty();
    assert !fatal;
    state.vramMap := FinalizeMapAfterOom(state.vramMap);
    state.finalizedAfterOom := true;
    KeepFaultyLength(made, marks);
    FinalizedCounts(marks, state.vramMap);
    OkOrFaultyCounts(marks);
  }

  /** In a map of tested slices the OK and faulty counts add up to its length. */
  lemma {:induction false} OkOrFaultyCounts(m: seq<char>)
    requires forall i :: 0 <= i < |m| ==> m[i] == OK || m[i] == FAULTY
    ensures Count(m, OK) + Count(m, FAULTY) == |m|
  {
    if m != [] {
      var n := |m| - 1;
      assert m[..n] + [m[n]] == m;
      OkOrFaultyCounts(m[..n]);
    }
  }

  /** The state at the head of `main`'s loop after `n` rounds: every round so
      far allocated and was read back, the registry holds exactly the slices
      they made with their verdicts, and nothing has been given back. */
  ghost predicate LoopHead(state: VramLockState, script: seq<Step>, n: nat)
    reads state
  {
    && n <= |script|
    && Probing(state)
    && ProbedThrough(state.memTypes, script, n)
    && state.slices == Made(script, n, state.sliceBytes)
    && state.vramMap == Marks(script, n)
    && state.released == []
  }

  /** `main`'s loop, from the first allocation to the terminal state. The
      allocator is assumed to fail at some round (device memory is finite).
      `attempts` counts the calls of `make_allocation`. */
  method LockLoop(state: VramLockState, script: seq<Step>) returns (outcome: Outcome, attempts: nat)
    requires state.Valid()
    requires state.slices == [] && state.vramMap == [] && state.okCount == 0 && state.badCount == 0
    requires !state.finalizedAfterOom && state.released == []
    requires forall k :: 0 <= k < |script| ==> WellFormedStep(script[k], state.sliceBytes)
    requires exists k :: 0 <= k < |script| && !CreationSucceeds(state.memTypes, MEMORY_PROPERTY_DEVICE_LOCAL, script[k].create)
    modifies state`slices, state`vramMap, state`released, state`okCount, state`badCount, state`finalizedAfterOom
    ensures 1 <= attempts <= |script|
    ensures ProbedThrough(state.memTypes, script, attempts - 1)
    ensures outcome == Parked || outcome == Exited(Cli.EXIT_FATAL)
    ensures outcome.Exited? <==>
      CreationSucceeds(state.memTypes, MEMORY_PROPERTY_DEVICE_LOCAL, script[attempts - 1].create)
    ensures outcome.Exited? ==>
      && script[attempts - 1].readback.TransferFailed?
      && state.slices == Made(script, attempts, state.sliceBytes)
      && state.vramMap == Marks(script, attempts - 1) + [IN_PROGRESS]
      && !state.finalizedAfterOom
    ensures outcome == Parked ==>
      Reclaimed(state, Made(script, attempts - 1, state.sliceBytes), Marks(script, attempts - 1),
                Acquired(state.memTypes, MEMORY_PROPERTY_DEVICE_LOCAL, script[attempts - 1].create))
  {
    ghost var stop :| 0 <= stop < |script| && !CreationSucceeds(state.memTypes, MEMORY_PROPERTY_DEVICE_LOCAL, script[stop].create);
    var idx := 0;
    while true
      invariant idx <= stop
      invariant LoopHead(state, script, idx)
      decreases stop - idx
    {
      var r, fatal := ProbeRound(state, script[idx]);
      if r != VK_SUCCESS {
        FinalizeAfterOom(state, Made(script, idx, state.sliceBytes), Marks(script, idx),
                         Acquired(state.memTypes, MEMORY_PROPERTY_DEVICE_LOCAL, script[idx].create));
        return Parked, idx + 1;
      }
      RoundStep(state.memTypes, script, idx, state.sliceBytes);
      if fatal {
        return Exited(Cli.EXIT_FATAL), idx + 1;
      }
      idx := idx + 1;
    }
  }

  /** Some queue family can transfer, draw or compute. */
  predicate HasUsableFamily(families: seq<bv32>)
  {
    exists i :: 0 <= i < |families| && (CanTransfer(families[i]) || CanGraphicsOrCompute(families[i]))
  }

  /** `main` of the Vulkan tool, in the source's order:
      - the argument checks;
      - the `VramLockState` constructor, whose two host buffers of
        `slice_bytes` may fail to allocate (`hostBuffers`; an uncaught
        `std::bad_alloc` terminates the process);
      - `vkCreateInstance` and both `vkEnumeratePhysicalDevices` calls
        (`enumOk`; a failure dies with 1);
      - the device and queue choice of `init_vulkan`;
      - the rest of the set-up (`initOk`: device, command pool and buffer,
        fence, staging buffer and its mapping; a failure dies with 1);
      - then the lock loop on an empty registry. */
  method Run(args: seq<string>, hostBuffers: bool, enumOk: bool, physCount: U32, families: seq<bv32>,
             initOk: bool, memTypes: seq<bv32>, script: seq<Step>)
    returns (outcome: Outcome, state: VramLockState?, attempts: nat)
    requires |memTypes| <= MAX_MEMORY_TYPES
    requires Cli.ParseCli(args).Start? ==>
      && (forall k :: 0 <= k < |script| ==> WellFormedStep(script[k], Cli.ParseCli(args).sliceBytes))
      && exists k :: 0 <= k < |script| && !CreationSucceeds(memTypes, MEMORY_PROPERTY_DEVICE_LOCAL, script[k].create)
    ensures !Cli.ParseCli(args).Start? ==> outcome == Exited(Cli.ExitCode(Cli.ParseCli(args))) && state == null
    ensures Cli.ParseCli(args).Start? && !hostBuffers ==> outcome == Aborted && state == null
    ensures Cli.ParseCli(args).Start? && hostBuffers && !enumOk ==> outcome == Exited(Cli.EXIT_FATAL) && state == null
    ensures Cli.ParseCli(args).Start? && hostBuffers && enumOk && physCount == 0 ==>
      outcome == Exited(Cli.EXIT_FATAL) && state == null
    ensures Cli.ParseCli(args).Start? && hostBuffers && enumOk && 0 < physCount <= Cli.ParseCli(args).gpuIndex ==>
      outcome == Exited(Cli.EXIT_USAGE) && state == null
    ensures (&& Cli.ParseCli(args).Start? && hostBuffers && enumOk && Cli.ParseCli(args).gpuIndex < physCount
             && !HasUsableFamily(families)) ==>
      outcome == Exited(Cli.EXIT_FATAL) && state == null
    ensures (&& Cli.ParseCli(args).Start? && hostBuffers && enumOk && Cli.ParseCli(args).gpuIndex < physCount
             && HasUsableFamily(families) && !initOk) ==>
      outcome == Exited(Cli.EXIT_FATAL) && state == null
    ensures (&& Cli.ParseCli(args).Start? && hostBuffers && enumOk && Cli.ParseCli(args).gpuIndex < physCount
             && HasUsableFamily(families) && initOk) ==>
      state != null
    ensures state != null ==>
      && fresh(state)
      && state.sliceBytes == Cli.ParseCli(args).sliceBytes && state.memTypes == memTypes
      && 1 <= attempts <= |script|
      && ProbedThrough(memTypes, script, attempts - 1)
      && (outcome == Parked || outcome == Exited(Cli.EXIT_FATAL))
      && (outcome == Parked <==> !CreationSucceeds(memTypes, MEMORY_PROPERTY_DEVICE_LOCAL, script[attempts - 1].create))
      && (outcome == Parked ==>
            Reclaimed(state, Made(script, attempts - 1, state.sliceBytes), Marks(script, attempts - 1),
                      Acquired(memTypes, MEMORY_PROPERTY_DEVICE_LOCAL, script[attempts - 1].create)))
      && (outcome.Exited? ==>
            && script[attempts - 1].readback.TransferFailed?
            && state.slices == Made(script, attempts, state.sliceBytes)
            && state.vramMap == Marks(script, attempts - 1) + [IN_PROGRESS]
            && !state.finalizedAfterOom)
  {
    state, attempts := null, 0;
    var cli := Cli.ParseCli(args);
    if !cli.Start? {
      return Exited(Cli.ExitCode(cli)), state, attempts;
    }
    if !hostBuffers {
      return Aborted, state, attempts;
    }
    if !enumOk {
      return Exited(Cli.EXIT_FATAL), state, attempts;
    }
    var selection := SelectDeviceAndQueue(cli.gpuIndex, physCount, families);
    if selection.Fatal? {
      return Exited(selection.code), state, attempts;
    }
    if !initOk {
      return Exited(Cli.EXIT_FATAL), state, attempts;
    }
    var s := new VramLockState(cli.sliceBytes, memTypes);
    outcome, attempts := LockLoop(s, script);
    state := s;
  }

  /** One pass of `main`'s loop body up to the out-of-memory branch:
      `make_allocation`, then (when it succeeded) `test_slice` on the new
      slice. A failed transfer is fatal and leaves the new slice in progress;
      otherwise the slice carries its verdict and the Probing invariant holds
      again. */
  method ProbeRound(state: VramLockState, step: Step) returns (r: int, fatal: bool)
    requires Probing(state) && WellFormedStep(step, state.sliceBytes)
    modifies state`slices, state`vramMap, state`released, state`okCount, state`badCount
    ensures r == VK_SUCCESS <==> CreationSucceeds(state.memTypes, MEMORY_PROPERTY_DEVICE_LOCAL, step.create)
    ensures r != VK_SUCCESS ==>
      && !fatal && Probing(state)
      && state.slices == old(state.slices) && state.vramMap == old(state.vramMap)
      && state.released == old(state.released) + Acquired(state.memTypes, MEMORY_PROPERTY_DEVICE_LOCAL, step.create)
    ensures r == VK_SUCCESS ==>
      && state.slices == old(state.slices) + [Slice(step.create.buffer.handle, step.create.memory.handle, state.sliceBytes)]
      && state.released == old(state.released)
      && (fatal <==> step.readback.TransferFailed?)
    ensures r == VK_SUCCESS && fatal ==> state.vramMap == old(state.vramMap) + [IN_PROGRESS]
    ensures r == VK_SUCCESS && !fatal ==>
      && state.vramMap == old(state.vramMap) + [Mark(step.readback)]
      && Probing(state)
  {
    fatal := false;
    r := state.MakeAllocation(step.create);
    if r != VK_SUCCESS {
      return;
    }
    ghost var m0, ok0, bad0 := old(state.vramMap), state.okCount, state.badCount;
    fatal := state.TestSlice(|state.slices| - 1, step.readback);
    if !fatal {
      var c := Mark(step.readback);
      assert state.vramMap == m0 + [c] by {
        assert (m0 + [IN_PROGRESS])[|m0| := c] == m0 + [c];
      }
      CountAppend(m0, c, OK);
      CountAppend(m0, c, FAULTY);
      CountAppend(m0, c, IN_PROGRESS);
      assert Live(state.slices[|state.slices| - 1], state.sliceBytes);
    }
  }

  /** A round that allocated extends the slices made so far by its slice;
      one that was also read back extends the verdicts and the probed prefix. */
  lemma RoundStep(memTypes: seq<bv32>, script: seq<Step>, n: nat, sliceBytes: nat)
    requires |memTypes| <= MAX_MEMORY_TYPES && n < |script|
    requires ProbedThrough(memTypes, script, n)
    requires CreationSucceeds(memTypes, MEMORY_PROPERTY_DEVICE_LOCAL, script[n].create)
    ensures Made(script, n + 1, sliceBytes)
      == Made(script, n, sliceBytes) + [Slice(script[n].create.buffer.handle, script[n].create.memory.handle, sliceBytes)]
    ensures script[n].readback.Copies? ==>
      && Marks(script, n + 1) == Marks(script, n) + [Mark(script[n].readback)]
      && ProbedThrough(memTypes, script, n + 1)
  {
    MadeStep(script, n, sliceBytes);
    MarksStep(script, n);
  }

  lemma MadeStep(script: seq<Step>, n: nat, sliceBytes: nat)
    requires n < |script|
    requires script[n].create.buffer.Created? && script[n].create.memory.Created?
    ensures Made(script, n + 1, sliceBytes)
      == Made(script, n, sliceBytes) + [Slice(script[n].create.buffer.handle, script[n].create.memory.handle, sliceBytes)]
  {
  }

  /** Round `n` adds its verdict to the marks of the rounds before it. */
  lemma MarksStep(script: seq<Step>, n: nat)
    requires n < |script|
    ensures Marks(script, n + 1) == Marks(script, n) + [Mark(script[n].readback)]
  {
  }

}
