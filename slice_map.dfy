/** The Vulkan tool's "VRAM map": one character per slice index, and the
    operations on it that do not touch the device: counting a mark, the
    rewrite made after allocation fails, and the split of the slice list
    into the faulty slices that stay locked and the rest. */
module SliceMap {

  /** Allocated and being tested. */
  const IN_PROGRESS: char := '?'
  /** Allocated, both read-backs matched, still held. */
  const OK: char := '#'
  /** Read-backs differed; the slice is locked for good. */
  const FAULTY: char := 'X'
  /** Released after the allocator ran out. */
  const FREED: char := '.'

  /** Number of occurrences of `c` in `s`. */
  function Count(s: seq<char>, c: char): (n: nat)
    ensures n <= |s|
  {
    if s == [] then 0 else Count(s[..|s| - 1], c) + (if s[|s| - 1] == c then 1 else 0)
  }

  lemma {:induction false} CountAppend(s: seq<char>, x: char, c: char)
    ensures Count(s + [x], c) == Count(s, c) + (if x == c then 1 else 0)
  {
    assert (s + [x])[..|s|] == s;
  }

  /** Overwriting one entry moves exactly that entry between the counts. */
  lemma {:induction false} CountUpdate(s: seq<char>, i: nat, y: char, c: char)
    requires i < |s|
    ensures Count(s[i := y], c) == Count(s, c) - (if s[i] == c then 1 else 0) + (if y == c then 1 else 0)
  {
    var t := s[i := y];
    if i == |s| - 1 {
      assert t[..|t| - 1] == s[..|s| - 1];
    } else {
      assert t[..|t| - 1] == s[..|s| - 1][i := y];
      CountUpdate(s[..|s| - 1], i, y, c);
    }
  }

  /** Every entry equals `c` exactly when `c` is counted |s| times. */
  lemma {:induction false} CountAll(s: seq<char>, c: char)
    ensures Count(s, c) == |s| <==> forall i :: 0 <= i < |s| ==> s[i] == c
  {
    if s != [] {
      CountAll(s[..|s| - 1], c);
      assert forall i :: 0 <= i < |s| - 1 ==> s[..|s| - 1][i] == s[i];
    }
  }

  /** `count_char`. */
  method CountChar(v: seq<char>, c: char) returns (n: nat)
    ensures n == Count(v, c)
  {
    n := 0;
    var i := 0;
    while i < |v|
      invariant i <= |v|
      invariant n == Count(v[..i], c)
    {
      assert v[..i + 1] == v[..i] + [v[i]];
      CountAppend(v[..i], v[i], c);
      if v[i] == c {
        n := n + 1;
      }
      i := i + 1;
    }
    assert v[..i] == v;
  }

  /** What one entry becomes after allocation failed: held OK and in-progress
      slices are released, faulty and already released ones stay as they are. */
  function Freed(c: char): char
  {
    if c == OK || c == IN_PROGRESS then FREED else c
  }

  ghost predicate IsFinalized(m: seq<char>, r: seq<char>)
  {
    |r| == |m| && forall i :: 0 <= i < |m| ==> r[i] == Freed(m[i])
  }

  /** `finalize_map_after_oom`: rewrites the map entry by entry. The vector is
      passed by reference in the source; here it goes in and comes back. */
  method FinalizeMapAfterOom(m: seq<char>) returns (r: seq<char>)
    ensures |r| == |m|
    ensures forall i :: 0 <= i < |m| ==> (m[i] == OK || m[i] == IN_PROGRESS ==> r[i] == FREED)
    ensures forall i :: 0 <= i < |m| ==> (m[i] != OK && m[i] != IN_PROGRESS ==> r[i] == m[i])
  {
    r := m;
    var i := 0;
    while i < |r|
      invariant i <= |r| == |m|
      invariant forall k :: 0 <= k < i ==> r[k] == Freed(m[k])
      invariant forall k :: i <= k < |r| ==> r[k] == m[k]
    {
      if r[i] == OK || r[i] == IN_PROGRESS {
        r := r[i := FREED];
      }
      i := i + 1;
    }
  }

  /** After the rewrite no entry is OK or in progress, and the faulty count
      is the one from before. */
  lemma {:induction false} FinalizedCounts(m: seq<char>, r: seq<char>)
    requires IsFinalized(m, r)
    ensures Count(r, OK) == 0 && Count(r, IN_PROGRESS) == 0
    ensures Count(r, FAULTY) == Count(m, FAULTY)
    ensures Count(r, FREED) == Count(m, FREED) + Count(m, OK) + Count(m, IN_PROGRESS)
  {
    if m != [] {
      var n := |m| - 1;
      assert IsFinalized(m[..n], r[..n]);
      FinalizedCounts(m[..n], r[..n]);
      assert m[..n] + [m[n]] == m;
      assert r[..n] + [r[n]] == r;
    }
  }

  /** The slices at faulty positions among the first `n`, in their original order. */
  function KeptAmong<T>(s: seq<T>, m: seq<char>, n: nat): seq<T>
    requires n <= |s| == |m|
  {
    if n == 0 then [] else KeptAmong(s, m, n - 1) + (if m[n - 1] == FAULTY then [s[n - 1]] else [])
  }

  /** The slices at every other position among the first `n`, in their original order. */
  function DroppedAmong<T>(s: seq<T>, m: seq<char>, n: nat): seq<T>
    requires n <= |s| == |m|
  {
    if n == 0 then [] else DroppedAmong(s, m, n - 1) + (if m[n - 1] == FAULTY then [] else [s[n - 1]])
  }

  /** What `free_all_except_faulty` keeps. */
  function KeepFaulty<T>(s: seq<T>, m: seq<char>): seq<T>
    requires |s| == |m|
  {
    KeptAmong(s, m, |s|)
  }

  /** What `free_all_except_faulty` destroys. */
  function DropFaulty<T>(s: seq<T>, m: seq<char>): seq<T>
    requires |s| == |m|
  {
    DroppedAmong(s, m, |s|)
  }

  /** Position `i` goes to exactly one side. */
  lemma AmongStep<T>(s: seq<T>, m: seq<char>, i: nat)
    requires i < |s| == |m|
    ensures m[i] == FAULTY ==>
      KeptAmong(s, m, i + 1) == KeptAmong(s, m, i) + [s[i]] && DroppedAmong(s, m, i + 1) == DroppedAmong(s, m, i)
    ensures m[i] != FAULTY ==>
      KeptAmong(s, m, i + 1) == KeptAmong(s, m, i) && DroppedAmong(s, m, i + 1) == DroppedAmong(s, m, i) + [s[i]]
  {
  }

  lemma {:induction false} KeptAmongLength<T>(s: seq<T>, m: seq<char>, n: nat)
    requires n <= |s| == |m|
    ensures |KeptAmong(s, m, n)| == Count(m[..n], FAULTY)
    ensures |DroppedAmong(s, m, n)| == n - Count(m[..n], FAULTY)
  {
    if n > 0 {
      KeptAmongLength(s, m, n - 1);
      assert m[..n][..n - 1] == m[..n - 1];
    }
  }

  /** As many slices are kept as there are faulty marks; the rest are destroyed. */
  lemma KeepFaultyLength<T>(s: seq<T>, m: seq<char>)
    requires |s| == |m|
    ensures |KeepFaulty(s, m)| == Count(m, FAULTY)
    ensures |DropFaulty(s, m)| == |m| - Count(m, FAULTY)
  {
    KeptAmongLength(s, m, |s|);
    assert m[..|m|] == m;
  }

  lemma {:induction false} KeptDroppedPartition<T>(s: seq<T>, m: seq<char>, n: nat)
    requires n <= |s| == |m|
    ensures multiset(KeptAmong(s, m, n)) + multiset(DroppedAmong(s, m, n)) == multiset(s[..n])
  {
    if n > 0 {
      KeptDroppedPartition(s, m, n - 1);
      TakeOneMore(s, n);
      var k, d := KeptAmong(s, m, n - 1), DroppedAmong(s, m, n - 1);
      if m[n - 1] == FAULTY {
        MultisetStep(k, d, s[..n - 1], s[n - 1], k + [s[n - 1]], d, s[..n]);
      } else {
        MultisetStep(k, d, s[..n - 1], s[n - 1], k, d + [s[n - 1]], s[..n]);
      }
    }
  }

  lemma TakeOneMore<T>(s: seq<T>, n: nat)
    requires 0 < n <= |s|
    ensures s[..n] == s[..n - 1] + [s[n - 1]]
  {
  }

  lemma MultisetStep<T>(k: seq<T>, d: seq<T>, p: seq<T>, x: T, k': seq<T>, d': seq<T>, p': seq<T>)
    requires multiset(k) + multiset(d) == multiset(p) && p' == p + [x]
    requires (k' == k + [x] && d' == d) || (k' == k && d' == d + [x])
    ensures multiset(k') + multiset(d') == multiset(p')
  {
  }

  /** Every slice ends up either kept or destroyed, none in both and none lost. */
  lemma KeepDropPartition<T>(s: seq<T>, m: seq<char>)
    requires |s| == |m|
    ensures multiset(KeepFaulty(s, m)) + multiset(DropFaulty(s, m)) == multiset(s)
  {
    KeptDroppedPartition(s, m, |s|);
    assert s[..|s|] == s;
  }

  /** The positions among the first `n` whose mark is faulty (`faulty`) or
      not faulty (`!faulty`), in increasing order. */
  function Positions(m: seq<char>, n: nat, faulty: bool): (p: seq<nat>)
    requires n <= |m|
    ensures forall j :: 0 <= j < |p| ==> p[j] < n && (m[p[j]] == FAULTY) == faulty
    ensures forall j, k :: 0 <= j < k < |p| ==> p[j] < p[k]
    ensures forall i :: 0 <= i < n && (m[i] == FAULTY) == faulty ==> i in p
  {
    if n == 0 then [] else Positions(m, n - 1, faulty) + (if (m[n - 1] == FAULTY) == faulty then [n - 1] else [])
  }

  /** The kept slices are exactly the slices at the faulty positions, in order. */
  lemma {:induction false} KeptAtPositions<T>(s: seq<T>, m: seq<char>, n: nat)
    requires n <= |s| == |m|
    ensures |KeptAmong(s, m, n)| == |Positions(m, n, true)|
    ensures forall j :: 0 <= j < |KeptAmong(s, m, n)| ==> KeptAmong(s, m, n)[j] == s[Positions(m, n, true)[j]]
  {
    if n > 0 {
      KeptAtPositions(s, m, n - 1);
      var k, p := KeptAmong(s, m, n - 1), Positions(m, n - 1, true);
      if m[n - 1] == FAULTY {
        assert KeptAmong(s, m, n) == k + [s[n - 1]] && Positions(m, n, true) == p + [n - 1];
      } else {
        assert KeptAmong(s, m, n) == k && Positions(m, n, true) == p;
      }
    }
  }

  /** The destroyed slices are exactly the slices at the other positions, in order. */
  lemma {:induction false} DroppedAtPositions<T>(s: seq<T>, m: seq<char>, n: nat)
    requires n <= |s| == |m|
    ensures |DroppedAmong(s, m, n)| == |Positions(m, n, false)|
    ensures forall j :: 0 <= j < |DroppedAmong(s, m, n)| ==> DroppedAmong(s, m, n)[j] == s[Positions(m, n, false)[j]]
  {
    if n > 0 {
      DroppedAtPositions(s, m, n - 1);
      var d, p := DroppedAmong(s, m, n - 1), Positions(m, n - 1, false);
      if m[n - 1] == FAULTY {
        assert DroppedAmong(s, m, n) == d && Positions(m, n, false) == p;
      } else {
        assert DroppedAmong(s, m, n) == d + [s[n - 1]] && Positions(m, n, false) == p + [n - 1];
      }
    }
  }

  lemma {:induction false} KeptAmongAllFaulty<T>(s: seq<T>, m: seq<char>, n: nat)
    requires n <= |s| == |m|
    requires forall i :: 0 <= i < |m| ==> m[i] == FAULTY
    ensures KeptAmong(s, m, n) == s[..n] && DroppedAmong(s, m, n) == []
  {
    if n > 0 {
      KeptAmongAllFaulty(s, m, n - 1);
      assert s[..n] == s[..n - 1] + [s[n - 1]];
    }
  }

  /** When every entry is faulty, nothing is destroyed and all are kept. */
  lemma KeepAllFaulty<T>(s: seq<T>, m: seq<char>)
    requires |s| == |m|
    requires forall i :: 0 <= i < |m| ==> m[i] == FAULTY
    ensures KeepFaulty(s, m) == s && DropFaulty(s, m) == []
  {
    KeptAmongAllFaulty(s, m, |s|);
    assert s[..|s|] == s;
  }
}
