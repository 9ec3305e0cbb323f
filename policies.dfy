/** The two tools' lock policies side by side. The Vulkan tool tests every
    slice until allocation fails and then holds all faulty slices; the CUDA
    tool stops at the first mismatch and holds that one slice. Over the same
    rounds, what the CUDA tool holds is the first slice the Vulkan tool
    holds, and on a run without faults neither holds anything at the end. */
module Policies {
  import opened Common
  import opened SliceMap
  import V = VulkanLock
  import C = CudaLock
  import HexDigest

  lemma {:induction false} NoFaultKeptAmong<T>(s: seq<T>, m: seq<char>, n: nat)
    requires n <= |s| == |m|
    requires forall i :: 0 <= i < n ==> m[i] != FAULTY
    ensures KeptAmong(s, m, n) == []
    ensures DroppedAmong(s, m, n) == s[..n]
  {
    if n > 0 {
      NoFaultKeptAmong(s, m, n - 1);
      assert s[..n] == s[..n - 1] + [s[n - 1]];
    }
  }

  /** With no faulty mark the Vulkan tool gives every slice back.
      `NoFaultBothHoldNothing` compares this with the CUDA tool's cleanup. */
  lemma NoFaultKeepsNothing<T>(s: seq<T>, m: seq<char>)
    requires |s| == |m|
    requires forall i :: 0 <= i < |m| ==> m[i] != FAULTY
    ensures KeepFaulty(s, m) == [] && DropFaulty(s, m) == s
  {
    NoFaultKeptAmong(s, m, |s|);
    assert s[..|s|] == s;
  }

  /** What is kept among a prefix stays at the front of what is kept overall. */
  lemma {:induction false} KeptAmongPrefix<T>(s: seq<T>, m: seq<char>, a: nat, b: nat)
    requires a <= b <= |s| == |m|
    ensures |KeptAmong(s, m, a)| <= |KeptAmong(s, m, b)|
    ensures KeptAmong(s, m, b)[..|KeptAmong(s, m, a)|] == KeptAmong(s, m, a)
  {
    if a < b {
      KeptAmongPrefix(s, m, a, b - 1);
      var k := KeptAmong(s, m, b - 1);
      assert KeptAmong(s, m, b)[..|k|] == k;
    }
  }

  /** If round `k` is the first faulty one, the first slice the Vulkan tool
      keeps is the slice of round `k`. `FirstFaultSameSlice` relates it to
      the one pointer the CUDA tool keeps when it parks at that round. */
  lemma FirstFaultKeptFirst<T>(s: seq<T>, m: seq<char>, k: nat)
    requires k < |s| == |m|
    requires m[k] == FAULTY
    requires forall i :: 0 <= i < k ==> m[i] != FAULTY
    ensures |KeepFaulty(s, m)| >= 1 && KeepFaulty(s, m)[0] == s[k]
  {
    NoFaultKeptAmong(s, m, k);
    assert KeptAmong(s, m, k + 1) == [s[k]];
    KeptAmongPrefix(s, m, k + 1, |s|);
  }

  /** The first `n` rounds went the same way under both tools: each allocated
      the same device memory (the CUDA pointer is the Vulkan buffer), every
      transfer succeeded, and the Vulkan tool marks a round faulty exactly
      when the CUDA tool's hex strings differ. */
  ghost predicate SameRounds(md5: seq<Byte> -> HexDigest.Digest, cuda: seq<C.Round>, vk: seq<V.Step>, n: nat)
    requires n <= |cuda| && n <= |vk|
  {
    forall k :: 0 <= k < n ==>
      && cuda[k].alloc.Allocated? && C.TransfersOk(cuda[k])
      && vk[k].readback.Copies?
      && V.HandleOf(vk[k].create.buffer) == cuda[k].alloc.dptr
      && (V.Mark(vk[k].readback) == FAULTY <==> C.HashMismatch(md5, cuda[k]))
  }

  /** Over the same rounds, when the CUDA tool parks at round `k`, the one
      pointer it holds is the first slice the Vulkan tool still holds after
      its reclaim: the Vulkan tool's first locked slice is the CUDA tool's
      only one. */
  lemma FirstFaultSameSlice(md5: seq<Byte> -> HexDigest.Digest, cuda: seq<C.Round>, vk: seq<V.Step>, n: nat, k: nat,
                            cs: C.CudaLockState, vs: V.VramLockState, before: seq<nat>)
    requires k < n <= |cuda| && n <= |vk|
    requires SameRounds(md5, cuda, vk, n)
    requires forall j :: 0 <= j < k ==> C.CleanMatch(md5, cuda[j])
    requires C.Ended(cs, md5, cuda[k], C.Kept(cuda, k), Parked)
    requires V.Reclaimed(vs, V.Made(vk, n, vs.sliceBytes), V.Marks(vk, n), before)
    ensures |vs.slices| >= 1 && cs.allocations == [vs.slices[0].buffer]
  {
    var made, marks := V.Made(vk, n, vs.sliceBytes), V.Marks(vk, n);
    forall j | 0 <= j < k
      ensures marks[j] != FAULTY
    {
      assert C.Judge(md5, cuda[j]) == C.Match;
    }
    assert C.Judge(md5, cuda[k]) == C.Mismatch;
    assert marks[k] == FAULTY;
    FirstFaultKeptFirst(made, marks, k);
  }

  /** Over rounds without a fault that end when allocation fails, both tools
      end holding nothing: the CUDA tool frees every pointer and exits 0, the
      Vulkan tool gives back every slice and parks with an empty registry. */
  lemma NoFaultBothHoldNothing(md5: seq<Byte> -> HexDigest.Digest, cuda: seq<C.Round>, vk: seq<V.Step>, n: nat,
                               outcome: Outcome, cs: C.CudaLockState, vs: V.VramLockState, before: seq<nat>)
    requires n < |cuda| && n <= |vk|
    requires SameRounds(md5, cuda, vk, n)
    requires forall j :: 0 <= j < n ==> C.CleanMatch(md5, cuda[j])
    requires cuda[n].alloc.AllocFailed?
    requires C.Ended(cs, md5, cuda[n], C.Kept(cuda, n), outcome)
    requires V.Reclaimed(vs, V.Made(vk, n, vs.sliceBytes), V.Marks(vk, n), before)
    ensures outcome == Exited(0) && cs.allocations == [] && cs.freed == C.Kept(cuda, n)
    ensures vs.slices == [] && vs.released == before + V.Handles(V.Made(vk, n, vs.sliceBytes))
  {
    var made, marks := V.Made(vk, n, vs.sliceBytes), V.Marks(vk, n);
    forall j | 0 <= j < n
      ensures marks[j] != FAULTY
    {
      assert C.Judge(md5, cuda[j]) == C.Match;
    }
    NoFaultKeepsNothing(made, marks);
  }
}
