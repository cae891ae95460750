/** Concrete runs of open, close, wait and exit after which the descriptor tables are not what they should be. */
module TableCounterexamples {
  import opened Sequences
  import R = Resources
  import S = Semaphores

  // ----- semaphores -----

  const CREATE := 1

  lemma {:induction false} StartHeads()
    ensures S.Start().semFree[0] == S.Start().descFree[0] == S.Start().ptrFree[0] == 0
    ensures S.Start().ptrFree[1..][0] == 1
    ensures |S.Start().semFree| == |S.Start().descFree| == |S.Start().ptrFree| == S.POOL_SIZE
  {
  }

  /** The table after process `me` created semaphore 5 with that count. */
  lemma {:induction false} Created(me: S.Slot, count: int) returns (t: S.Table)
    ensures S.Step(S.Start(), S.Open(me, 5, CREATE, count)) == S.Done(t, 0) && S.Inv(t)
    ensures t.list == [0] && t.sem[0] == S.Semaphore(5, count, [0], [], count, 0, 0, [], [])
    ensures t.fds[me] == [0] && t.desc[0] == S.Descriptor(me, 0, 0, 0) && t.blocked == 0 && t.ptr[0] == 0
    ensures t.descFree == S.Start().descFree[1..] && t.ptrFree == S.Start().ptrFree[1..] && t.semFree == S.Start().semFree[1..]
  {
    StartHeads();
    t := S.AddDescriptor(S.AddSemaphore(S.Start(), 5, count), me, 0);
    S.StartInv();
    S.OpenKeeps(S.Start(), me, 5, CREATE, count);
  }

  /** Waiting on a semaphore and closing it: the queue is left with an entry whose descriptor is freed,
      and the semaphore that it is in the queue of is off the list. */
  lemma {:induction false} ClosedWhileQueued() returns (t: S.Table)
    ensures S.Run(S.Start(), [S.Open(0, 5, CREATE, 0), S.Wait(0, 0), S.Close(0, 0)]) == S.Done(t, 0)
    ensures !S.QueueOpen(t) && t.sem[0].waiting != [] && 0 !in t.list
  {
    var a := Created(0, 0);
    StartHeads();
    assert S.ByFd(a.desc, a.fds[0], 0) == Some(0);
    var b := S.WaitOn(a, 0).table;
    assert S.Step(a, S.Wait(0, 0)) == S.Done(b, 0);
    assert b.sem[0].waiting == [1] && b.ptr[1] == 0;
    assert S.ByFd(b.desc, b.fds[0], 0) == Some(0);
    t := S.DropDescriptor(b, 0, 0);
    assert Without<S.Slot>([0], 0) == [];
    assert S.Step(b, S.Close(0, 0)) == S.Done(t, 0);
    ThreeCalls(S.Start(), S.Open(0, 5, CREATE, 0), S.Wait(0, 0), S.Close(0, 0), a, b, t);
    assert S.InQueue(t, 0, 1) && !S.EntryOpen(t, 0, 1);
  }

  lemma {:induction false} ThreeCalls(s: S.Table, c: S.Call, d: S.Call, e: S.Call, a: S.Table, b: S.Table, t: S.Table)
    requires S.Step(s, c).Done? && S.Step(s, c).table == a
    requires S.Step(a, d).Done? && S.Step(a, d).table == b
    requires S.Step(b, e).Done? && S.Step(b, e).table == t
    ensures S.Run(s, [c, d, e]) == S.Done(t, 0)
  {
    assert S.Run(b, [e]) == S.Run(t, []) by {
      assert [e][1..] == [];
    }
    assert S.Run(a, [d, e]) == S.Run(b, [e]) by {
      assert [d, e][1..] == [e];
    }
    assert [c, d, e][1..] == [d, e];
  }

  // ----- a creation with the descriptor pool used up -----

  function PlainOpens(n: nat): seq<S.Call> {
    seq(n, _ => S.Open(0, 5, 0, 0))
  }

  /** Semaphore 5 is the only one listed, open and alive. */
  ghost predicate OnlyFive(t: S.Table) {
    && t.list == [0] && t.sem[0].id == 5 && t.sem[0].descriptors != []
    && |t.ptrFree| == |t.descFree| && |t.semFree| == S.POOL_SIZE - 1 && 0 !in t.semFree
  }

  lemma {:induction false} OpenTakesOne(t: S.Table)
    requires OnlyFive(t) && t.descFree != []
    ensures S.Step(t, S.Open(0, 5, 0, 0)).Done?
    ensures var u := S.Step(t, S.Open(0, 5, 0, 0)).table; OnlyFive(u) && |u.descFree| == |t.descFree| - 1
  {
    assert S.ById(t.sem, t.list, 5) == Some(0);
  }

  lemma {:induction false} OpensTakeAll(t: S.Table, n: nat)
    requires OnlyFive(t) && |t.descFree| == n
    ensures S.Run(t, PlainOpens(n)).Done?
    ensures var u := S.Run(t, PlainOpens(n)).table; OnlyFive(u) && u.descFree == []
    decreases n
  {
    if n > 0 {
      assert PlainOpens(n)[1..] == PlainOpens(n - 1);
      OpenTakesOne(t);
      OpensTakeAll(S.Step(t, S.Open(0, 5, 0, 0)).table, n - 1);
    }
  }

  /** A creation without descriptor leaves a semaphore on the list that nobody has open. */
  lemma {:induction false} CreationWithoutDescriptor(t: S.Table)
    requires OnlyFive(t) && t.descFree == []
    ensures S.Step(t, S.Open(0, 6, CREATE, 0)).Done?
    ensures !S.Lifetime(S.Step(t, S.Open(0, 6, CREATE, 0)).table)
  {
    assert S.ById(t.sem, t.list, 6) == None by {
      assert t.list[1..] == [];
    }
    var u := S.AddSemaphore(t, 6, 0);
    var n := t.semFree[0];
    assert S.Step(t, S.Open(0, 6, CREATE, 0)).table == u;
    assert u.list[1] == n && u.sem[n].descriptors == [];
    assert n in u.list;
  }

  lemma {:induction false} RunThen(s: S.Table, cs: seq<S.Call>, c: S.Call)
    requires S.Run(s, cs).Done? && S.Step(S.Run(s, cs).table, c).Done?
    ensures S.Run(s, cs + [c]) == S.Done(S.Step(S.Run(s, cs).table, c).table, 0)
    decreases |cs|
  {
    if cs == [] {
      assert cs + [c] == [c] && [c][1..] == [];
    } else {
      assert (cs + [c])[1..] == cs[1..] + [c];
      RunThen(S.Step(s, cs[0]).table, cs[1..], c);
    }
  }

  /** One creating open, 1023 plain ones, and a creation: it fails, and leaves its semaphore behind. */
  lemma {:induction false} PoolUsedUp() returns (t: S.Table)
    ensures S.Run(S.Start(), [S.Open(0, 5, CREATE, 0)] + PlainOpens(S.POOL_SIZE - 1) + [S.Open(0, 6, CREATE, 0)]) == S.Done(t, 0)
    ensures !S.Lifetime(t)
  {
    var a := Created(0, 0);
    var first := [S.Open(0, 5, CREATE, 0)];
    var opens := PlainOpens(S.POOL_SIZE - 1);
    StartHeads();
    HeadOfDistinct<S.Slot>(S.Start().semFree, 0);
    OpensTakeAll(a, S.POOL_SIZE - 1);
    assert (first + opens)[1..] == opens;
    assert S.Run(S.Start(), first + opens) == S.Run(a, opens);
    var u := S.Run(a, opens).table;
    CreationWithoutDescriptor(u);
    RunThen(S.Start(), first + opens, S.Open(0, 6, CREATE, 0));
    t := S.Step(u, S.Open(0, 6, CREATE, 0)).table;
  }

  // ----- resources -----

  /** The table after process `me` created resource 7. */
  lemma {:induction false} Opened(me: R.Slot) returns (t: R.Table)
    ensures R.Step(R.Start(), R.Open(me, 7, 0, CREATE)) == R.Done(t, 0) && R.Inv(t)
    ensures t.fds[me] == [0] && t.res[0].descriptors == [0]
  {
    var s := R.Start();
    assert s.resFree[0] == s.descFree[0] == s.ptrFree[0] == 0;
    t := R.AddDescriptor(R.AddResource(s, 7, 0), me, 0);
    R.StartInv();
    R.OpenKeeps(s, me, 7, 0, CREATE);
  }

  /** A process opens a resource, and its block is given to a new one: the descriptor hangs in no fd list any more. */
  lemma {:induction false} ReusedWhileOpen() returns (t: R.Table)
    ensures t == R.Final(R.Start(), [R.Open(1, 7, 0, CREATE), R.Reuse(1)])
    ensures !R.Inv(t) && t.res[0].descriptors == [0] && t.fds[1] == []
  {
    var a := Opened(1);
    t := R.Recycle(a, 1);
    assert R.Final(a, [R.Reuse(1)]) == R.Final(t, []) by {
      assert [R.Reuse(1)][1..] == [];
    }
    assert [R.Open(1, 7, 0, CREATE), R.Reuse(1)][1..] == [R.Reuse(1)];
    R.RecycleIff(a, 1);
  }
}
