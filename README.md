# vram-lock in Dafny

vram-lock has two tools that fence off faulty video memory. Each tool
repeatedly allocates a fixed-size slice of device memory and fills it with
`0xA5`. It then reads the slice back to the host twice and compares the two
copies.

- **Vulkan tool** (`vram_lock_vulcan.cpp`). It records every slice in a
  registry: a vector of slices plus a parallel "VRAM map" with one character
  per slice.
  - The marks are `?` (in progress), `#` (OK), `X` (faulty) and `.` (freed).
  - It keeps testing after a mismatch, so faulty slices can accumulate.
  - When allocation finally fails, it frees every slice that is not faulty,
    rewrites the map, and parks holding only the faulty slices.
- **CUDA tool** (`vram_lock.cpp`). It compares the MD5 hex strings of the two
  copies.
  - At the first mismatch it frees every earlier allocation and parks holding
    only the broken slice.
  - When allocation fails, it frees everything and exits 0.

Both tools take the same command line, `tool [gpu_index] [slice_mebibytes]`.

## How the model is built

The model is split into eight modules, one file each:

- `Common`: shared types and the run outcome (`Exited(code)`, `Parked`, or
  `Aborted` for an uncaught `std::bad_alloc`).
- `Cli`: `parse_u32`, the argument checks at the top of `main`, and the
  device-index check.
- `SliceMap`: the VRAM map.
  - `count_char` and `finalize_map_after_oom`.
  - The split of the slice list into the kept (faulty) slices and the
    destroyed slices.
- `VulkanSelect`:
  - `find_memory_type`;
  - the device and queue-family choice of `init_vulkan`;
  - `create_buffer_and_memory` with its failure cleanup.
- `VulkanLock`: the class `VramLockState` and the Vulkan `main` loop.
  - The class has the fields `slices`, `vramMap`, `okCount`, `badCount`,
    `finalizedAfterOom` and `released`.
  - Its methods are `make_allocation`, `test_slice`, `destroy_slice` and
    `free_all_except_faulty`.
  - The `main` loop runs Probing → Finalizing → Parked.
- `HexDigest`: the hex encoding in `md5_hex`, with its round trips.
- `CudaLock`: the class `CudaLockState`, with fields `allocations`, `freed`
  and `contextDestroyed`.
  - Its methods are the `cleanup` lambda and the release of every held
    pointer. The allocate/compare/lock loop of `main` is the module-level
    method `LockLoop`, over a `CudaLockState`.
- `Policies`: lemmas that compare the two tools' lock policies.

### Driver calls and effects

Driver calls are not executed. Each call is replaced by the answer it gave:

- Vulkan:
  - `CreateReplies` holds the answers to `vkCreateBuffer`, the
    `memoryTypeBits` of the memory requirements, `vkAllocateMemory` and
    `vkBindBufferMemory`.
  - `Readback` is either the two host copies or a failed transfer.
- CUDA:
  - `Round` holds the answers to `cuMemAlloc`, `cuMemsetD8` and the two
    `cuMemcpyDtoH` calls, plus the bytes each copy delivered.
  - `Setup` holds the answers of the driver calls made before the loop, and
    whether the two host buffers could be allocated.

Driver effects are recorded in log fields:

- `released` lists the handles the Vulkan tool gave back, in order.
- `freed` lists the pointers the CUDA tool gave back, and `contextDestroyed`
  records the call to `cuCtxDestroy`.

### MD5, parking and exits

- MD5 is a function parameter `md5: seq<Byte> -> Digest`.
- Parking (`sleep_forever`) is the terminal outcome `Parked`.
- `die`, `die_vk`, `die_cuda` and `std::exit` become `Exited(code)`.

### The lock loops

Each loop runs over a finite list of answers. It requires that some answer
ends it; for the Vulkan tool, that is an allocation failure. The loop
returns how many allocations it attempted.

## Model

| member | source | states |
|---|---|---|
| Cli.ParseU32 | vram_lock.cpp:84-92 | accepted exactly when the string is non-empty, all digits and at most 0xFFFFFFFF; then the value is its decimal value; on rejection the caller's variable keeps its old value |
| Cli.ParseU32RoundTrip | vram_lock.cpp:84-92 | every 32-bit value written in decimal parses back to itself |
| Cli.ParseCli | vram_lock.cpp:94-124 | help flag first ⇔ Help; bad first argument ⇔ BadGpuIndex; unparsable or zero second argument after a good first ⇔ BadSliceSize; a third argument after two good ones ⇔ TooManyArguments; Start ⇔ at most two arguments, each present one good and the size non-zero; a start has the parsed or default (0, 512) values, a non-zero size, and slice bytes = MiB × 1048576 |
| Cli.ParseCliRoundTrip | vram_lock.cpp:94-124 | the decimal strings of any index and non-zero size start with exactly those values; one argument gets the default size 512; no argument gets index 0 and size 512 |
| Cli.BadSliceSizeRejected | vram_lock.cpp:110-116 | an unparsable or zero slice size exits with 2, whatever follows it |
| Cli.ExitCode | vram_lock.cpp:98-122 | help exits 0 and every other argument error exits 2 |
| Cli.CheckDeviceIndex | vram_lock.cpp:129-138 | device count ≤ 0 ⇔ exit 1; 0 < count ≤ index ⇔ exit 2; continue ⇔ index < count |
| CudaLock.Run | vram_lock.cpp:94-226 | argument errors exit before any driver call; a failed `cuInit` or `cuDeviceGetCount` exits 1; the device-index check decides next; a failed `cuDeviceGet` or `cuCtxCreate` exits 1; once the driver is ready, a failed host-buffer allocation aborts the process holding nothing; otherwise a fresh state runs the lock loop and ends as `LockLoop` says |
| HexDigest.HexChar | vram_lock.cpp:58-64 | the table digit of a nibble is a lowercase hex digit whose value is that nibble |
| HexDigest.HexEncodeNibbles | vram_lock.cpp:61-64 | characters 2i and 2i+1 of the encoding are the high and the low nibble of byte i |
| HexDigest.HexRoundTrip | vram_lock.cpp:55-67 | decoding the hex string gives back the digest |
| HexDigest.HexEncodeDecode | vram_lock.cpp:55-67 | every even-length lowercase hex string is the encoding of exactly the bytes it decodes to |
| HexDigest.HexInjective | vram_lock.cpp:55-67 | two digests have the same hex string exactly when they are equal |
| HexDigest.Md5Hex | vram_lock.cpp:55-67 | the result is the hex encoding of the digest of the data: 32 lowercase hex characters |
| CudaLock.CudaLockState.FreeAllocations | vram_lock.cpp:204-208 | every held pointer is freed, in order, and the list is left empty |
| CudaLock.CudaLockState.Cleanup | vram_lock.cpp:162-170 | frees every held pointer in order, empties the list and destroys the context |
| CudaLock.CheckRound | vram_lock.cpp:186-196 | a failed memset or copy is a driver error (exit 1) whatever the bytes; otherwise Mismatch exactly when the two hex strings differ |
| CudaLock.LockLoop | vram_lock.cpp:172-226 | every round before the last allocated and matched, and the list holds exactly their pointers; an allocation failure frees them all, destroys the context and exits 0; a transfer failure exits 1 holding them; a mismatch frees them, holds exactly the broken pointer and parks |
| CudaLock.MismatchMeansCopiesDiffer | vram_lock.cpp:196 | a hex mismatch implies that the digests and the two copies differ |
| CudaLock.TransferFailureIsNotMismatch | vram_lock.cpp:187-194 | a failed memset or copy is a driver error and never a mismatch or a match |
| CudaLock.HashMismatchIffDigestsDiffer | vram_lock.cpp:196 | the two hex strings differ ⇔ the two MD5 digests differ |
| CudaLock.MismatchVerdict | vram_lock.cpp:187-196 | Mismatch ⇔ all three transfers succeeded and the MD5 digests of the two copies differ |
| SliceMap.CountChar | vram_lock_vulcan.cpp:107-113 | returns the number of occurrences of the character |
| SliceMap.CountUpdate | vram_lock_vulcan.cpp:107-113 | overwriting one entry moves exactly that entry between the counts |
| SliceMap.CountAll | vram_lock_vulcan.cpp:107-113 | the count equals the length ⇔ every entry is that character |
| SliceMap.FinalizeMapAfterOom | vram_lock_vulcan.cpp:115-119 | the length is kept; `#` and `?` become `.`; every other entry is unchanged |
| SliceMap.FinalizedCounts | vram_lock_vulcan.cpp:115-119 | after the rewrite no `#` or `?` is left, the `X` count is unchanged, and the `.` count grows by the old `#` and `?` counts |
| SliceMap.KeepFaultyLength | vram_lock_vulcan.cpp:661-676 | as many slices are kept as the map has `X` entries; the rest are destroyed |
| SliceMap.KeepDropPartition | vram_lock_vulcan.cpp:661-676 | kept and destroyed slices together are exactly the original slices (as multisets) |
| SliceMap.Positions | vram_lock_vulcan.cpp:667-673 | the faulty (or non-faulty) positions, strictly increasing and complete |
| SliceMap.KeptAtPositions | vram_lock_vulcan.cpp:667-673 | the kept slices are the slices at the `X` positions, in their original order |
| SliceMap.DroppedAtPositions | vram_lock_vulcan.cpp:667-673 | the destroyed slices are the slices at the other positions, in their original order |
| SliceMap.KeepAllFaulty | vram_lock_vulcan.cpp:661-676 | when every entry is `X`, every slice is kept and none is destroyed |
| VulkanSelect.FindMemoryType | vram_lock_vulcan.cpp:184-193 | the smallest index allowed by the type bits and having every required flag; UINT32_MAX exactly when none fits |
| VulkanSelect.ChooseQueueFamily | vram_lock_vulcan.cpp:376-395 | the first family with TRANSFER; failing that, the first with GRAPHICS or COMPUTE; none exactly when no family has any of them |
| VulkanSelect.SelectDeviceAndQueue | vram_lock_vulcan.cpp:352-395 | no physical device exits 1; an index past the last device exits 2; otherwise a family is selected exactly when one can transfer, draw or compute, else exit 1; the selected family is the first with TRANSFER, or, when none has it, the first with GRAPHICS or COMPUTE |
| VulkanSelect.CreateBufferAndMemory | vram_lock_vulcan.cpp:288-337 | success ⇔ every step succeeds; on any failure both out handles are null and exactly the objects obtained so far are given back (memory before buffer); FEATURE_NOT_PRESENT when no memory type fits, and only then or when the driver said so |
| VulkanLock.CompareCopies | vram_lock_vulcan.cpp:644-646 | Mismatch ⇔ some byte of the two copies differs |
| VulkanLock.VramLockState.MakeAllocation | vram_lock_vulcan.cpp:507-529 | success ⇔ creation succeeds; then exactly one slice and one `?` are appended; otherwise slices and map are unchanged and every partial object is given back |
| VulkanLock.VramLockState.TestSlice | vram_lock_vulcan.cpp:623-659 | an index out of range of either vector, or a failed transfer, is fatal and changes nothing; otherwise only map[idx] changes, to `X` with bad + 1 or to `#` with ok + 1 |
| VulkanLock.VramLockState.DestroySlice | vram_lock_vulcan.cpp:267-273 | gives back the buffer and then the memory, each only when not null |
| VulkanLock.VramLockState.DestroyAllButFaulty | vram_lock_vulcan.cpp:667-673 | collects the faulty slices in order and destroys all the others, in order |
| VulkanLock.VramLockState.FreeAllExceptFaulty | vram_lock_vulcan.cpp:661-676 | fatal ⇔ the sizes differ, and then nothing changes; otherwise the slices become the faulty ones in order and the others are destroyed; a second call passes the size check only when every entry was `X` |
| VulkanLock.FinalizeAfterOom | vram_lock_vulcan.cpp:733-752 | after the reclaim exactly the faulty slices are held, in order, and the others are given back; the map has no `#` or `?`; held slices = bad count = `X` count; the flag is set |
| VulkanLock.OkOrFaultyCounts | vram_lock_vulcan.cpp:646-658 | in a map of tested slices, the OK and faulty counts add up to its length |
| VulkanLock.ProbeRound | vram_lock_vulcan.cpp:731-771 | a failed allocation changes only the release log; after a successful one the new slice is appended and either carries its verdict with the Probing invariant restored, or the round is fatal with the slice still `?` |
| VulkanLock.RoundStep | vram_lock_vulcan.cpp:724-774 | a round that allocated and was read back extends the slices made and the verdicts by exactly its own |
| VulkanLock.LockLoop | vram_lock_vulcan.cpp:724-774 | every round before the last allocated and was read back; a failed transfer exits 1; an allocation failure parks in the reclaimed state: only the faulty slices, in order, are held, and no further allocation is attempted |
| VulkanLock.Run | vram_lock_vulcan.cpp:686-774 | argument errors exit as `ParseCli` says; a failed host-buffer allocation aborts; a failed instance creation or enumeration exits 1; then no device exits 1, an index past the last device exits 2, no usable queue family exits 1, and a failed rest of the set-up exits 1, all holding nothing; otherwise a fresh registry runs the lock loop and either parks reclaimed after an allocation failure, or exits 1 after a failed transfer with every slice made still held and the last one `?` |
| Policies.NoFaultKeepsNothing | vram_lock_vulcan.cpp:661-676 | with no `X` in the map the Vulkan reclaim destroys every slice and keeps none |
| Policies.FirstFaultKeptFirst | vram_lock_vulcan.cpp:661-676 | the first slice the Vulkan reclaim keeps is the slice of the first faulty map entry |
| Policies.FirstFaultSameSlice | vram_lock.cpp:196-214 | when both tools see the same rounds and the CUDA tool parks at its first mismatch, the one pointer it holds is the first slice the Vulkan tool holds after its reclaim |
| Policies.NoFaultBothHoldNothing | vram_lock.cpp:172-226 | when both tools see the same rounds and every round matches until the allocator fails, the CUDA tool frees every pointer and exits 0, and the Vulkan tool gives back every slice and holds none |

## Left out

- Vulkan set-up and submission plumbing are left out. These are instance,
  device, command-pool and fence creation, `begin_one_time`,
  `end_submit_wait`, and the fill, barrier and copy commands of
  `fill_pattern` and `readback_to_host`. They are foreign driver calls: the
  fill and the two read-backs are one `Readback` answer, and a failed
  transfer is an exit with 1. In `VulkanLock.Run`, `vkCreateInstance` and the
  two `vkEnumeratePhysicalDevices` calls are one flag, `enumOk`, checked before
  the device-index check; the set-up after the queue-family choice is one flag,
  `initOk`.
- The staging-buffer creation in `init` is left out. It tries coherent host
  memory first, then plain host memory. Only its outcome is modelled, as part
  of `initOk`.
- The CUDA driver calls are answers in `Round` and `Setup`, not calls.
  `cuDeviceGetName`, `cuGetErrorName` and `cuGetErrorString` only produce
  text and are left out.
- MD5 itself is a function parameter. Two different copies with equal digests
  are not reported as a mismatch, which is what the source does too.
- `render_ui`, the ANSI helpers, `usage` and every `printf`, along with the
  `last_status` and `last_md5_*` strings, are presentation only.
- `sleep_forever` and the clocks are left out. Parking is the terminal
  outcome `Parked`.
- `shutdown`, `VulkanCtx::destroy` and `destroy_staging` are left out. They
  are never reached on a run that parks or exits.
- `Cli.ParseU32`: `strtoul` also accepts leading whitespace and a sign
  (`" 5"`, `"+5"`). The model accepts only plain digit strings, so it is
  stricter than the source on those inputs. The model also assumes a 64-bit
  `unsigned long`. With MSVC, a build target the source names, `unsigned long`
  is 32 bits and `strtoul` clamps an overflow to 0xFFFFFFFF, so there
  `"99999999999"` is accepted as 4294967295; the model rejects it.
- The host buffers `host1` and `host2` are one flag in each `Run`
  (`hostBuffers`, and `Setup.hostBuffers` for the CUDA tool). Their failure is
  an uncaught `std::bad_alloc`, the outcome `Aborted`. The `reserve` calls of
  the Vulkan constructor and the CUDA `allocations.reserve(64)` are folded into
  that flag.
- `Cli.ParseCli` models the argument checks of `vram_lock.cpp`. Those of
  `vram_lock_vulcan.cpp` (lines 85-93 and 686-716) are the same text.
- The state a tool leaves behind when it exits through `die`, `die_vk` or
  `die_cuda` is described only for the lock loops. The process ends, so
  nothing else observes it.
- Host allocation inside the lock loops is assumed to succeed. It can fail:
  `allocations.push_back` reallocates once the 64 reserved slots are full,
  and the 32-character string of `md5_hex` is allocated on the heap; in the
  Vulkan tool, `slices.push_back` and `map.push_back` after a slice is
  created, and `kept.reserve` and `kept.push_back` during the reclaim, can
  fail too.
- `CudaLock.LockLoop`: a `std::bad_alloc` inside the loop would be caught by
  the `catch (...)` handler, which runs `cleanup` and returns 0. This ending
  is not modelled.
- `VulkanLock.LockLoop`: a `std::bad_alloc` inside the loop or the reclaim is
  not caught and aborts the process. This ending (`Aborted`) is not modelled;
  the loop ends only `Parked` or `Exited(1)`.
- Integer widths are not modelled. The slice size of at most
  0xFFFFFFFF × 1048576 bytes fits the 64-bit `size_t` the source uses; the
  model checks that bound. The counters and indices are unbounded, since a
  run cannot allocate 2^64 slices.
- The Vulkan and CUDA loops take a finite list of driver answers in which the
  allocator eventually fails, or a round ends the run. The model says nothing
  about a device that never runs out.
- A slice cannot be classified twice in the source: `test_slice` does not
  check whether the entry was already classified, and `main` calls it once
  per slice. The model follows the code, and `TestSlice` overwrites the
  entry.
- Reclaim runs at most once, but the source has no guard flag for this.
  `main` parks right after it. A second `free_all_except_faulty` would stop
  at the size check unless every slice was faulty; this is stated in
  `FreeAllExceptFaulty`.
