/** The pool allocator: a free list threaded through an index array behind the blocks. */
module PoolAllocators {
  import opened Sequences

  const NULL_IDX := -1
  const DETACHED_IDX := -2
  const SIZEOF_INT := 4

  datatype PoolResult = Success | NotEnoughMemory | UnalignedFree | OutOfRange | DoubleFree

  /** C's `/` and `%`: the quotient is truncated toward zero. */
  function CDiv(a: int, b: int): int
    requires b > 0
  {
    if a >= 0 then a / b else -(-a / b)
  }

  function CMod(a: int, b: int): int
    requires b > 0
  {
    a - b * CDiv(a, b)
  }

  // ----- the free list as a chain of indices -----

  /** Following `fl` from `first` gives exactly `chain`, and the entries off the chain are marked detached. */
  ghost predicate IsChain(fl: seq<int>, first: int, chain: seq<int>) {
    && first == (if |chain| == 0 then NULL_IDX else chain[0])
    && (forall i :: 0 <= i < |chain| ==> 0 <= chain[i] < |fl|)
    && (forall i {:trigger fl[chain[i]]} :: 0 <= i < |chain| ==> fl[chain[i]] == if i == |chain| - 1 then NULL_IDX else chain[i + 1])
    && Distinct(chain)
    && (forall idx :: 0 <= idx < |fl| ==> (fl[idx] == DETACHED_IDX <==> idx !in chain))
  }

  /** The indices met when following the list for at most `fuel` steps. */
  function Follow(fl: seq<int>, first: int, fuel: nat): seq<int>
    decreases fuel
  {
    if fuel == 0 || first < 0 || first >= |fl| then [] else [first] + Follow(fl, fl[first], fuel - 1)
  }

  /** Where following the list for at most `fuel` steps ends. */
  function FollowEnd(fl: seq<int>, first: int, fuel: nat): int
    decreases fuel
  {
    if fuel == 0 || first < 0 || first >= |fl| then first else FollowEnd(fl, fl[first], fuel - 1)
  }

  /** From the `k`-th index on, the list runs through the rest of the chain and ends on -1. */
  lemma {:induction false} FollowsChain(fl: seq<int>, first: int, chain: seq<int>, k: nat, fuel: nat)
    requires IsChain(fl, first, chain) && k <= |chain| && fuel >= |chain| - k
    ensures Follow(fl, if k == |chain| then NULL_IDX else chain[k], fuel) == chain[k..]
    ensures FollowEnd(fl, if k == |chain| then NULL_IDX else chain[k], fuel) == NULL_IDX
    decreases |chain| - k
  {
    if k < |chain| {
      FollowsChain(fl, first, chain, k + 1, fuel - 1);
    }
  }

  /** Both directions: an index array is threaded by the chain of indices met from `first` exactly when these are
      distinct, end on -1, and are the ones not marked detached. */
  lemma {:induction false} ChainIff(fl: seq<int>, first: int)
    ensures (exists chain :: IsChain(fl, first, chain)) <==>
              var met := Follow(fl, first, |fl|);
              && Distinct(met) && FollowEnd(fl, first, |fl|) == NULL_IDX
              && (forall idx :: 0 <= idx < |fl| ==> (fl[idx] == DETACHED_IDX <==> idx !in met))
  {
    var met := Follow(fl, first, |fl|);
    if chain :| IsChain(fl, first, chain) {
      ChainFits(fl, first, chain);
      FollowsChain(fl, first, chain, 0, |fl|);
    }
    if Distinct(met) && FollowEnd(fl, first, |fl|) == NULL_IDX
       && forall idx :: 0 <= idx < |fl| ==> (fl[idx] == DETACHED_IDX <==> idx !in met) {
      FollowLinks(fl, first, |fl|);
      assert IsChain(fl, first, met);
    }
  }

  lemma {:induction false} ChainFits(fl: seq<int>, first: int, chain: seq<int>)
    requires IsChain(fl, first, chain)
    ensures |chain| <= |fl|
  {
    LivePlusFree(chain, |fl|);
  }

  /** What is met lies in the array, and each index links to the next. */
  lemma {:induction false} FollowLinks(fl: seq<int>, first: int, fuel: nat)
    ensures var met := Follow(fl, first, fuel);
      && first == (if met == [] then FollowEnd(fl, first, fuel) else met[0])
      && (forall i :: 0 <= i < |met| ==> 0 <= met[i] < |fl|)
      && (forall i {:trigger fl[met[i]]} :: 0 <= i < |met| ==>
            fl[met[i]] == if i == |met| - 1 then FollowEnd(fl, first, fuel) else met[i + 1])
    decreases fuel
  {
    var met := Follow(fl, first, fuel);
    if met != [] {
      var rest := Follow(fl, fl[first], fuel - 1);
      FollowLinks(fl, fl[first], fuel - 1);
      assert met == [first] + rest;
      forall i | 0 <= i < |met|
        ensures 0 <= met[i] < |fl| && fl[met[i]] == if i == |met| - 1 then FollowEnd(fl, first, fuel) else met[i + 1]
      {
        if i > 0 {
          assert met[i] == rest[i - 1];
          assert fl[rest[i - 1]] == if i - 1 == |rest| - 1 then FollowEnd(fl, fl[first], fuel - 1) else rest[i];
        }
      }
    }
  }

  /** The blocks that are handed out. */
  ghost function Live(chain: seq<int>, n: nat): set<int> {
    set i | 0 <= i < n && i !in chain
  }

  lemma {:induction false} DistinctCard(s: seq<int>)
    requires Distinct(s)
    ensures |set x | x in s| == |s|
  {
    if s != [] {
      var r := s[..|s| - 1];
      DistinctCard(r);
      assert (set x | x in s) == (set x | x in r) + {s[|s| - 1]};
    }
  }

  lemma {:induction false} RangeCard(n: nat)
    ensures |Live([], n)| == n
  {
    if n > 0 {
      RangeCard(n - 1);
      assert Live([], n) == Live([], n - 1) + {n - 1};
    }
  }

  /** Free blocks and handed-out blocks together are all blocks. */
  lemma {:induction false} LivePlusFree(chain: seq<int>, n: nat)
    requires Distinct(chain) && forall i :: 0 <= i < |chain| ==> 0 <= chain[i] < n
    ensures |chain| + |Live(chain, n)| == n
  {
    DistinctCard(chain);
    RangeCard(n);
    var free := set x | x in chain;
    assert free <= Live([], n);
    assert Live(chain, n) == Live([], n) - free;
  }

  // ----- what the three operations do to the chain -----

  lemma {:induction false} InitChain(fl: seq<int>, n: nat)
    requires |fl| == n >= 1 && (forall j :: 0 <= j < n - 1 ==> fl[j] == j + 1) && fl[n - 1] == NULL_IDX
    ensures IsChain(fl, 0, seq(n, i => i))
  {
    var c := seq(n, i => i);
    forall idx | 0 <= idx < |fl| ensures fl[idx] == DETACHED_IDX <==> idx !in c {
      assert c[idx] == idx;
    }
  }

  lemma {:induction false} PopChain(fl: seq<int>, first: int, chain: seq<int>)
    requires IsChain(fl, first, chain) && chain != []
    ensures IsChain(fl[first := DETACHED_IDX], fl[first], chain[1..])
  {
    var c := chain[1..];
    assert fl[chain[0]] == if |chain| == 1 then NULL_IDX else chain[1];
    forall i | 0 <= i < |c|
      ensures 0 <= c[i] < |fl| && fl[first := DETACHED_IDX][c[i]] == if i == |c| - 1 then NULL_IDX else c[i + 1]
    {
      assert c[i] == chain[i + 1] && chain[0] != chain[i + 1];
      assert fl[chain[i + 1]] == if i + 1 == |chain| - 1 then NULL_IDX else chain[i + 2];
    }
    forall idx | 0 <= idx < |fl| ensures fl[first := DETACHED_IDX][idx] == DETACHED_IDX <==> idx !in c {
      assert idx in chain <==> idx == first || idx in c;
    }
  }

  lemma {:induction false} PushChain(fl: seq<int>, first: int, chain: seq<int>, idx: int)
    requires IsChain(fl, first, chain) && 0 <= idx < |fl| && fl[idx] == DETACHED_IDX
    ensures IsChain(fl[idx := first], idx, [idx] + chain)
  {
    var c := [idx] + chain;
    assert idx !in chain;
    forall i | 0 <= i < |c|
      ensures 0 <= c[i] < |fl| && fl[idx := first][c[i]] == if i == |c| - 1 then NULL_IDX else c[i + 1]
    {
      if i > 0 {
        assert c[i] == chain[i - 1] && chain[i - 1] in chain;
      }
    }
    forall i | 0 <= i < |fl| ensures fl[idx := first][i] == DETACHED_IDX <==> i !in c {
      assert i in c <==> i == idx || i in chain;
    }
  }

  // ----- geometry -----

  function BlockStart(buffer: int, itemSize: int, idx: int): int {
    buffer + idx * itemSize
  }

  lemma {:induction false} Multiple(a: int, i: int, b: int)
    requires b > 0 && a == i * b
    ensures CMod(a, b) == 0 && CDiv(a, b) == i
  {
    if a >= 0 {
      DivExact(i, b);
    } else {
      assert -a == (-i) * b;
      DivExact(-i, b);
    }
  }

  lemma {:induction false} DivExact(i: int, b: int)
    requires b > 0 && i * b >= 0
    ensures i * b / b == i
  {
    var q, r := i * b / b, i * b % b;
    assert i * b == b * q + r;
    assert (i - q) * b == r;
    assert i > q ==> (i - q) * b >= b;
    assert i < q ==> (q - i) * b >= b;
  }

  /** The alignment test passes exactly for multiples of the block size. */
  lemma {:induction false} AlignedIff(a: int, b: int)
    requires b > 0
    ensures CMod(a, b) == 0 <==> a == CDiv(a, b) * b
    ensures forall i :: a == i * b ==> CDiv(a, b) == i && CMod(a, b) == 0
  {
    forall i | a == i * b ensures CDiv(a, b) == i && CMod(a, b) == 0 {
      Multiple(a, i, b);
    }
  }

  /** Blocks with different indices do not overlap, lie in the buffer, and stay clear of the index array. */
  lemma {:induction false} Geometry(buffer: int, itemSize: int, n: nat, memorySize: int, i: int, j: int)
    requires itemSize > 0 && n * (itemSize + SIZEOF_INT) <= memorySize && 0 <= i < n && 0 <= j < n
    ensures buffer <= BlockStart(buffer, itemSize, i)
    ensures BlockStart(buffer, itemSize, i) + itemSize <= buffer + itemSize * n
    ensures buffer + itemSize * n + SIZEOF_INT * n <= buffer + memorySize
    ensures i < j ==> BlockStart(buffer, itemSize, i) + itemSize <= BlockStart(buffer, itemSize, j)
  {
    assert i * itemSize >= 0;
    assert (i + 1) * itemSize <= n * itemSize;
    assert n * (itemSize + SIZEOF_INT) == n * itemSize + n * SIZEOF_INT;
    if i < j {
      assert (i + 1) * itemSize <= j * itemSize;
    }
  }

  /** The loop of `PoolAllocator_init` and its end mark. */
  method Thread(freeList: array<int>)
    requires freeList.Length >= 1
    modifies freeList
    ensures IsChain(freeList[..], 0, seq(freeList.Length, i => i))
  {
    var i := 0;
    while i < freeList.Length - 1
      invariant 0 <= i <= freeList.Length - 1
      invariant forall j :: 0 <= j < i ==> freeList[j] == j + 1
    {
      freeList[i] := i + 1;
      i := i + 1;
    }
    freeList[freeList.Length - 1] := NULL_IDX;
    InitChain(freeList[..], freeList.Length);
  }

  class PoolAllocator {
    var buffer: int
    var freeList: array<int>
    var bufferSize: int
    var size: int
    var sizeMax: int
    var itemSize: int
    var firstIdx: int
    ghost var chain: seq<int>

    ghost predicate Valid()
      reads this, freeList
    {
      && sizeMax >= 1 && itemSize >= 1 && freeList.Length == sizeMax && bufferSize == itemSize * sizeMax
      && IsChain(freeList[..], firstIdx, chain) && size == |chain|
    }

    /** Not yet initialised. */
    constructor ()
    {
      freeList := new int[0];
    }

    /** `PoolAllocator_init`. Without items the end mark is written in front of the index array: then
        `stray` is set, and the write left out. */
    method Init(itemSize: int, numItems: int, memoryBlock: int, memorySize: int) returns (r: PoolResult, stray: bool)
      modifies this
      ensures r == if memorySize < numItems * (itemSize + SIZEOF_INT) then NotEnoughMemory else Success
      ensures stray <==> r == Success && numItems <= 0
      ensures r == NotEnoughMemory ==> unchanged(this)
      ensures r == Success ==>
        && buffer == memoryBlock && this.itemSize == itemSize && size == sizeMax == numItems && firstIdx == 0
      ensures r == Success && numItems >= 1 ==>
        fresh(freeList) && chain == seq(numItems, i => i) && IsChain(freeList[..], firstIdx, chain) && (Valid() <==> itemSize >= 1)
    {
      var requestedSize := numItems * (itemSize + SIZEOF_INT);
      if memorySize < requestedSize {
        return NotEnoughMemory, false;
      }
      this.itemSize := itemSize;
      size := numItems;
      bufferSize := itemSize * numItems;
      sizeMax := numItems;
      buffer := memoryBlock;
      freeList := new int[if numItems > 0 then numItems else 0];
      stray := size <= 0;
      if !stray {
        Thread(freeList);
        chain := seq(numItems, i => i);
      }
      firstIdx := 0;
      return Success, stray;
    }

    /** `PoolAllocator_getBlock`: the address of the first free block, or null. */
    method GetBlock() returns (address: Option<int>)
      requires Valid()
      modifies `size, `firstIdx, `chain, freeList
      ensures Valid()
      ensures old(chain) == [] ==> address == None && chain == [] && freeList[..] == old(freeList[..])
      ensures old(chain) != [] ==> address == Some(BlockStart(buffer, itemSize, old(chain[0])))
      ensures chain == PoolStep(old(chain), sizeMax, Get)
    {
      if firstIdx == NULL_IDX {
        return None;
      }
      PopChain(freeList[..], firstIdx, chain);
      ghost var fl := freeList[..];
      var detachedIdx := firstIdx;
      firstIdx := freeList[firstIdx];
      size := size - 1;
      freeList[detachedIdx] := DETACHED_IDX;
      assert freeList[..] == fl[detachedIdx := DETACHED_IDX];
      chain := chain[1..];
      return Some(buffer + detachedIdx * itemSize);
    }

    /** `PoolAllocator_releaseBlock`: a live block is put in front of the free list, anything else is refused. */
    method ReleaseBlock(block: int) returns (r: PoolResult)
      requires Valid()
      modifies `size, `firstIdx, `chain, freeList
      ensures Valid() && r != NotEnoughMemory
      ensures r == Success <==> exists idx :: idx in Live(old(chain), sizeMax) && block == BlockStart(buffer, itemSize, idx)
      ensures r == DoubleFree <==> exists idx :: idx in old(chain) && block == BlockStart(buffer, itemSize, idx)
      ensures r == UnalignedFree <==> forall idx :: block != BlockStart(buffer, itemSize, idx)
      ensures r == Success ==> exists idx :: block == BlockStart(buffer, itemSize, idx) && chain == [idx] + old(chain)
      ensures forall idx :: block == BlockStart(buffer, itemSize, idx) ==> chain == PoolStep(old(chain), sizeMax, Release(idx))
      ensures r != Success ==> chain == old(chain) && firstIdx == old(firstIdx) && size == old(size) && freeList[..] == old(freeList[..])
    {
      var offset := block - buffer;
      AlignedIff(offset, itemSize);
      assert forall idx :: block == BlockStart(buffer, itemSize, idx) <==> offset == idx * itemSize;
      if CMod(offset, itemSize) != 0 {
        return UnalignedFree;
      }
      var idx := CDiv(offset, itemSize);
      assert block == BlockStart(buffer, itemSize, idx);
      if idx < 0 || idx >= sizeMax {
        return OutOfRange;
      }
      if freeList[idx] != DETACHED_IDX {
        return DoubleFree;
      }
      assert idx in Live(chain, sizeMax);
      PushChain(freeList[..], firstIdx, chain, idx);
      ghost var fl := freeList[..];
      freeList[idx] := firstIdx;
      assert freeList[..] == fl[idx := firstIdx];
      firstIdx := idx;
      size := size + 1;
      chain := [idx] + chain;
      return Success;
    }
  }

  // ----- sequences of calls -----

  /** The index array is a function of the chain. */
  lemma {:induction false} ChainDetermines(f: seq<int>, g: seq<int>, a: int, b: int, chain: seq<int>)
    requires IsChain(f, a, chain) && IsChain(g, b, chain) && |f| == |g|
    ensures f == g && a == b
  {
    forall idx | 0 <= idx < |f| ensures f[idx] == g[idx] {
      if idx in chain {
        var i :| 0 <= i < |chain| && chain[i] == idx;
        assert f[chain[i]] == g[chain[i]];
      }
    }
  }

  /** A release right after a successful get restores the allocator exactly. */
  method GetThenRelease(a: PoolAllocator)
    requires a.Valid() && a.chain != []
    modifies a`size, a`firstIdx, a`chain, a.freeList
    ensures a.Valid() && a.freeList[..] == old(a.freeList[..]) && a.firstIdx == old(a.firstIdx) && a.size == old(a.size)
  {
    ghost var chain := a.chain;
    ghost var first := chain[0];
    var address := a.GetBlock();
    assert first in Live(a.chain, a.sizeMax);
    var r := a.ReleaseBlock(address.value);
    ghost var idx :| address.value == BlockStart(a.buffer, a.itemSize, idx) && a.chain == [idx] + chain[1..];
    SameStart(a.buffer, a.itemSize, idx, first);
    assert a.chain == chain;
    ChainDetermines(a.freeList[..], old(a.freeList[..]), a.firstIdx, old(a.firstIdx), chain);
  }

  lemma {:induction false} SameStart(buffer: int, itemSize: int, i: int, j: int)
    requires itemSize >= 1 && BlockStart(buffer, itemSize, i) == BlockStart(buffer, itemSize, j)
    ensures i == j
  {
    Multiple(i * itemSize, i, itemSize);
    Multiple(j * itemSize, j, itemSize);
  }

  /** A call on a pool of `n` blocks, by block index. */
  datatype PoolCall = Get | Release(idx: int)

  function PoolStep(chain: seq<int>, n: nat, c: PoolCall): seq<int> {
    match c
    case Get => if chain == [] then [] else chain[1..]
    case Release(idx) => if 0 <= idx < n && idx !in chain then [idx] + chain else chain
  }

  function PoolRun(chain: seq<int>, n: nat, cs: seq<PoolCall>): seq<int>
    decreases |cs|
  {
    if cs == [] then chain else PoolRun(PoolStep(chain, n, cs[0]), n, cs[1..])
  }

  /** Some get of the run hands out `idx`. */
  predicate Grants(chain: seq<int>, n: nat, cs: seq<PoolCall>, idx: int)
    decreases |cs|
  {
    cs != [] && ((cs[0].Get? && chain != [] && chain[0] == idx) || Grants(PoolStep(chain, n, cs[0]), n, cs[1..], idx))
  }

  ghost predicate FreeChain(chain: seq<int>, n: nat) {
    Distinct(chain) && forall i :: 0 <= i < |chain| ==> 0 <= chain[i] < n
  }

  /** Over any sequence of calls the free chain stays a chain of distinct blocks, and live + free = all. */
  lemma {:induction false} PoolRunKeeps(chain: seq<int>, n: nat, cs: seq<PoolCall>)
    requires FreeChain(chain, n)
    ensures FreeChain(PoolRun(chain, n, cs), n)
    ensures |PoolRun(chain, n, cs)| + |Live(PoolRun(chain, n, cs), n)| == n
    decreases |cs|
  {
    if cs == [] {
      LivePlusFree(chain, n);
    } else {
      var next := PoolStep(chain, n, cs[0]);
      PoolRunKeeps(next, n, cs[1..]);
    }
  }

  /** A block that is handed out is not handed out again before it is released. */
  lemma {:induction false} NoDoubleGrant(chain: seq<int>, n: nat, cs: seq<PoolCall>, idx: int)
    requires FreeChain(chain, n) && idx in Live(chain, n) && Release(idx) !in cs
    ensures !Grants(chain, n, cs, idx) && idx in Live(PoolRun(chain, n, cs), n)
    decreases |cs|
  {
    if cs != [] {
      var next := PoolStep(chain, n, cs[0]);
      PoolRunKeeps(chain, n, [cs[0]]);
      assert [cs[0]][1..] == [];
      assert PoolRun(chain, n, [cs[0]]) == PoolRun(next, n, []) == next;
      assert idx !in next;
      NoDoubleGrant(next, n, cs[1..], idx);
    }
  }
}
