/** The Vulkan tool's selection helpers and its buffer-plus-memory creation:
    which memory type a buffer may live in, which queue family the copies run
    on, and how a half-built buffer is torn down when a later step fails.
    Driver calls are replaced by the replies they gave. */
module VulkanSelect {
  import opened Common
  import Cli

  const VK_SUCCESS: int := 0
  const VK_ERROR_OUT_OF_DEVICE_MEMORY: int := -2
  const VK_ERROR_FEATURE_NOT_PRESENT: int := -8

  /** VK_MAX_MEMORY_TYPES: capacity of `VkPhysicalDeviceMemoryProperties::memoryTypes`. */
  const MAX_MEMORY_TYPES: int := 32

  const MEMORY_PROPERTY_DEVICE_LOCAL: bv32 := 0x1

  const QUEUE_GRAPHICS: bv32 := 0x1
  const QUEUE_COMPUTE: bv32 := 0x2
  const QUEUE_TRANSFER: bv32 := 0x4

  /** A driver object handle; 0 is VK_NULL_HANDLE. */
  type Handle = nat
  const NULL_HANDLE: Handle := 0
  type LiveHandle = h: Handle | h != NULL_HANDLE witness 1
  type VkError = r: int | r != VK_SUCCESS witness VK_ERROR_OUT_OF_DEVICE_MEMORY

  // ---------------------------------------------------------------- memory types

  /** Memory type `i` is allowed by the buffer's `memoryTypeBits` and has every
      required property flag. */
  predicate Fits(typeBits: bv32, required: bv32, memTypes: seq<bv32>, i: int)
    requires 0 <= i < |memTypes| <= MAX_MEMORY_TYPES
  {
    typeBits & (1 << i) != 0 && memTypes[i] & required == required
  }

  predicate NoMemoryType(typeBits: bv32, required: bv32, memTypes: seq<bv32>)
    requires |memTypes| <= MAX_MEMORY_TYPES
  {
    forall i :: 0 <= i < |memTypes| ==> !Fits(typeBits, required, memTypes, i)
  }

  /** `find_memory_type`: the smallest fitting memory type index, or
      UINT32_MAX when none fits. `memTypes` holds the `propertyFlags` of the
      first `memoryTypeCount` entries. */
  method FindMemoryType(typeBits: bv32, required: bv32, memTypes: seq<bv32>) returns (r: U32)
    requires |memTypes| <= MAX_MEMORY_TYPES
    ensures r == U32_MAX <==> NoMemoryType(typeBits, required, memTypes)
    ensures r != U32_MAX ==>
      && r < |memTypes|
      && Fits(typeBits, required, memTypes, r)
      && forall j :: 0 <= j < r ==> !Fits(typeBits, required, memTypes, j)
  {
    var i := 0;
    while i < |memTypes|
      invariant i <= |memTypes|
      invariant forall j :: 0 <= j < i ==> !Fits(typeBits, required, memTypes, j)
    {
      if typeBits & (1 << i) == 0 {
        i := i + 1;
        continue;
      }
      if memTypes[i] & required == required {
        assert Fits(typeBits, required, memTypes, i);
        return i;
      }
      i := i + 1;
    }
    return U32_MAX;
  }

  // ---------------------------------------------------------------- queue family

  predicate CanTransfer(f: bv32) { f & QUEUE_TRANSFER != 0 }

  predicate CanGraphicsOrCompute(f: bv32) { f & (QUEUE_GRAPHICS | QUEUE_COMPUTE) != 0 }

  /** The queue-family choice of `init_vulkan`: the first family with the
      TRANSFER bit; failing that the first with GRAPHICS or COMPUTE; None when
      neither exists (the caller then dies, as it does for an empty list). */
  method ChooseQueueFamily(families: seq<bv32>) returns (chosen: Option<nat>)
    ensures chosen.Some? ==> chosen.value < |families|
    ensures (exists i :: 0 <= i < |families| && CanTransfer(families[i])) ==>
      && chosen.Some?
      && CanTransfer(families[chosen.value])
      && forall j :: 0 <= j < chosen.value ==> !CanTransfer(families[j])
    ensures (forall i :: 0 <= i < |families| ==> !CanTransfer(families[i])) && chosen.Some? ==>
      && CanGraphicsOrCompute(families[chosen.value])
      && forall j :: 0 <= j < chosen.value ==> !CanGraphicsOrCompute(families[j])
    ensures chosen.None? <==>
      forall i :: 0 <= i < |families| ==> !CanTransfer(families[i]) && !CanGraphicsOrCompute(families[i])
  {
    chosen := None;
    var i := 0;
    while i < |families|
      invariant i <= |families|
      invariant forall j :: 0 <= j < i ==> !CanTransfer(families[j])
    {
      if CanTransfer(families[i]) {
        chosen := Some(i);
        break;
      }
      i := i + 1;
    }
    if chosen.None? {
      i := 0;
      while i < |families|
        invariant i <= |families|
        invariant forall j :: 0 <= j < i ==> !CanGraphicsOrCompute(families[j])
      {
        if CanGraphicsOrCompute(families[i]) {
          chosen := Some(i);
          break;
        }
        i := i + 1;
      }
    }
  }

  /** How `init_vulkan` ends its device and queue choice: a fatal `die` or
      `exit(2)`, or the queue family the copies will use. */
  datatype Selection = Fatal(code: int) | Selected(family: nat)

  /** The checks of `init_vulkan` after enumeration: no physical device is
      fatal, an index past the last device exits 2, an empty queue-family
      list or one without a usable family is fatal. */
  method SelectDeviceAndQueue(gpuIndex: U32, physCount: U32, families: seq<bv32>) returns (s: Selection)
    ensures physCount == 0 ==> s == Fatal(Cli.EXIT_FATAL)
    ensures 0 < physCount <= gpuIndex ==> s == Fatal(Cli.EXIT_USAGE)
    ensures gpuIndex < physCount ==>
      (s.Selected? <==> exists i :: 0 <= i < |families| && (CanTransfer(families[i]) || CanGraphicsOrCompute(families[i])))
    ensures gpuIndex < physCount && s.Fatal? ==> s.code == Cli.EXIT_FATAL
    ensures s.Selected? ==>
      && s.family < |families|
      && (CanTransfer(families[s.family]) || CanGraphicsOrCompute(families[s.family]))
    ensures s.Selected? && (exists i :: 0 <= i < |families| && CanTransfer(families[i])) ==>
      && CanTransfer(families[s.family])
      && forall j :: 0 <= j < s.family ==> !CanTransfer(families[j])
    ensures s.Selected? && (forall i :: 0 <= i < |families| ==> !CanTransfer(families[i])) ==>
      && CanGraphicsOrCompute(families[s.family])
      && forall j :: 0 <= j < s.family ==> !CanGraphicsOrCompute(families[j])
  {
    var check := Cli.CheckDeviceIndex(gpuIndex, physCount);
    if check.Some? {
      return Fatal(check.value);
    }
    if |families| == 0 {
      return Fatal(Cli.EXIT_FATAL);
    }
    var chosen := ChooseQueueFamily(families);
    if chosen.None? {
      return Fatal(Cli.EXIT_FATAL);
    }
    s := Selected(chosen.value);
  }

  // ---------------------------------------------------------------- buffer + memory

  /** What the driver answered to one object-creating call. */
  datatype Reply = Created(handle: LiveHandle) | Refused(code: VkError)

  /** The driver's answers during one `create_buffer_and_memory`:
      `vkCreateBuffer`, the `memoryTypeBits` of `vkGetBufferMemoryRequirements`,
      `vkAllocateMemory` and `vkBindBufferMemory`. */
  datatype CreateReplies = CreateReplies(buffer: Reply, memoryTypeBits: bv32, memory: Reply, bind: int)

  /** Every step succeeds: buffer created, a memory type fits, memory
      allocated and bound. */
  predicate CreationSucceeds(memTypes: seq<bv32>, required: bv32, d: CreateReplies)
    requires |memTypes| <= MAX_MEMORY_TYPES
  {
    && d.buffer.Created?
    && !NoMemoryType(d.memoryTypeBits, required, memTypes)
    && d.memory.Created?
    && d.bind == VK_SUCCESS
  }

  /** The objects a failed creation had obtained before the failing step, in
      the order it gives them back (memory before buffer). */
  function Acquired(memTypes: seq<bv32>, required: bv32, d: CreateReplies): seq<Handle>
    requires |memTypes| <= MAX_MEMORY_TYPES
  {
    if !d.buffer.Created? then []
    else if NoMemoryType(d.memoryTypeBits, required, memTypes) || !d.memory.Created? then [d.buffer.handle]
    else [d.memory.handle, d.buffer.handle]
  }

  /** Some driver call itself answered FEATURE_NOT_PRESENT. */
  predicate DriverSaidFeatureNotPresent(d: CreateReplies)
  {
    (d.buffer.Refused? && d.buffer.code == VK_ERROR_FEATURE_NOT_PRESENT)
    || (d.memory.Refused? && d.memory.code == VK_ERROR_FEATURE_NOT_PRESENT)
    || d.bind == VK_ERROR_FEATURE_NOT_PRESENT
  }

  /** `create_buffer_and_memory`. Returns the VkResult, the two out handles and
      the handles it destroyed or freed on the way out. */
  method CreateBufferAndMemory(memTypes: seq<bv32>, required: bv32, d: CreateReplies)
    returns (r: int, outBuf: Handle, outMem: Handle, released: seq<Handle>)
    requires |memTypes| <= MAX_MEMORY_TYPES
    ensures r == VK_SUCCESS <==> CreationSucceeds(memTypes, required, d)
    ensures r == VK_SUCCESS ==>
      outBuf == d.buffer.handle && outMem == d.memory.handle && released == []
    ensures r != VK_SUCCESS ==>
      outBuf == NULL_HANDLE && outMem == NULL_HANDLE && released == Acquired(memTypes, required, d)
    ensures d.buffer.Created? && NoMemoryType(d.memoryTypeBits, required, memTypes) ==>
      r == VK_ERROR_FEATURE_NOT_PRESENT
    ensures r == VK_ERROR_FEATURE_NOT_PRESENT ==>
      (d.buffer.Created? && NoMemoryType(d.memoryTypeBits, required, memTypes))
      || DriverSaidFeatureNotPresent(d)
  {
    outBuf, outMem, released := NULL_HANDLE, NULL_HANDLE, [];
    if d.buffer.Refused? {
      return d.buffer.code, outBuf, outMem, released;
    }
    outBuf := d.buffer.handle;

    var mt := FindMemoryType(d.memoryTypeBits, required, memTypes);
    if mt == U32_MAX {
      released := released + [outBuf];
      outBuf := NULL_HANDLE;
      return VK_ERROR_FEATURE_NOT_PRESENT, outBuf, outMem, released;
    }

    if d.memory.Refused? {
      released := released + [outBuf];
      outBuf, outMem := NULL_HANDLE, NULL_HANDLE;
      return d.memory.code, outBuf, outMem, released;
    }
    outMem := d.memory.handle;

    if d.bind != VK_SUCCESS {
      released := released + [outMem, outBuf];
      outBuf, outMem := NULL_HANDLE, NULL_HANDLE;
      return d.bind, outBuf, outMem, released;
    }
    r := VK_SUCCESS;
  }
}
