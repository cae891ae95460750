/** Concrete runs of the whole kernel after which it is not in order. */
module MachineCounterexamples {
  import opened Sequences
  import opened Processes
  import opened Syscalls
  import opened Machines
  import Invariants
  import C = Counterexamples
  import R = Resources
  import S = Semaphores
  import T = TableCounterexamples

  // ----- a semaphore wait that blocks does not give up the CPU -----

  /** Init creates a semaphore at 0 and waits on it: then it is running and in the waiting list. */
  lemma {:induction false} RunningAndWaiting() returns (qs: seq<Request>, n: Machine)
    ensures qs == [SemOpen(5, T.CREATE, 0), SemWait(0)] && Serves(Start(), qs) == Goes(n)
    ensures n.sched.running == Some(0) && n.sched.waiting == [0] && !Invariants.Partition(n.sched)
  {
    var t := T.Created(0, 0);
    var m := Start().(sched := Called(Boot(), 0, 11, [5, T.CREATE, 0], 0), sem := t);
    assert Serve(Start(), SemOpen(5, T.CREATE, 0)) == Goes(m);
    T.StartHeads();
    assert S.ByFd(t.desc, t.fds[0], 0) == Some(0);
    n := SemWaitStep(m, 0, 0).machine;
    qs := TwoRequests(Start(), SemOpen(5, T.CREATE, 0), m, SemWait(0), n);
    assert n.sched.waiting == [0];
    assert Invariants.Places(n.sched, 0) == 2;
  }

  lemma {:induction false} TwoRequests(m: Machine, q: Request, n: Machine, r: Request, k: Machine) returns (qs: seq<Request>)
    requires Serve(m, q) == Goes(n) && Serve(n, r) == Goes(k)
    ensures qs == [q, r] && Serves(m, qs) == Goes(k)
  {
    qs := [q, r];
    assert Serves(n, [r]) == Serves(k, []) by {
      assert [r][1..] == [];
    }
    assert [q, r][1..] == [r];
  }

  // ----- a process that dies unawaited leaves its descriptors to the next one in its block -----

  /** Init and its only child, in block 1; nobody sleeps or waits. */
  ghost predicate Pair(s: State, running: Block, ready: seq<Block>, zombie: seq<Block>) {
    && s.init == 0 && s.timers == [] && s.waiting == [] && s.ptrFree > 0
    && s.running == Some(running) && s.ready == ready && s.zombie == zombie
    && s.pcb[0].children == [1] && s.pcb[0].parent == None
    && s.pcb[1].parent == Some(0) && s.pcb[1].children == []
  }

  /** The child is running, init is ready. */
  ghost predicate ChildRuns(s: State) {
    Pair(s, 1, [0], []) && s.pcb[0].status == Ready && s.pcb[1].status == Running
  }

  /** The child is dead, init is running. */
  ghost predicate ChildDied(s: State) {
    Pair(s, 0, [], [1]) && s.pcb[0].status == Running && s.pcb[1].status == Zombie
  }

  lemma {:induction false} ChildStarts() returns (a: State, s: State)
    ensures Step(Boot(), Fork) == Next(a) && a.running == Some(0)
    ensures Step(a, Preempt) == Next(s) && ChildRuns(s)
  {
    a := Step(Boot(), Fork).state;
    assert Boot().free[0] == 1;
    assert a.ready == [1] && a.pcb[0].children == [1];
    s := Rotate(Record(a, 0, Preempt), 0);
    C.PreemptRotates(a, 0);
    C.Rotated(a, 0, s);
    assert C.Is(s.pcb[0], a.pcb[0].pid, a.pcb[0].parent, a.pcb[0].children);
    assert C.Is(s.pcb[1], a.pcb[1].pid, a.pcb[1].parent, a.pcb[1].children);
  }

  lemma {:induction false} ChildExits(s: State) returns (t: State)
    requires ChildRuns(s)
    ensures Step(s, Exit(0)) == Next(t) && ChildDied(t) && t.free == s.free
    ensures !HandsOver(Record(s, 1, Exit(0)), 1)
  {
    t := Step(s, Exit(0)).state;
  }

  lemma {:induction false} ChildCollected(s: State) returns (t: State)
    requires ChildDied(s)
    ensures Step(s, Wait(0, 0)) == Next(t) && t.free == [1] + s.free && t.ptrFree > 0 && t.running == Some(0)
  {
    var r := Record(s, 0, Wait(0, 0));
    assert Scan(r.pcb, r.pcb[0].children, 0) == 1;
    t := ReapStep(r, 0, 1);
  }

  /** The child runs, and all tables are empty still. */
  lemma {:induction false} ChildServed() returns (qs: seq<Request>, m: Machine)
    ensures qs == [Sched(Fork), Sched(Preempt)] && Serves(Start(), qs) == Goes(m)
    ensures ChildRuns(m.sched) && m.res == R.Start() && m.sem == S.Start()
  {
    var s, t := ChildStarts();
    assert Boot().free[0] == 1;
    assert R.Recycle(R.Start(), 1) == R.Start() && S.Recycle(S.Start(), 1) == S.Start();
    var a := Machine(s, R.Start(), S.Start());
    m := Machine(t, R.Start(), S.Start());
    qs := TwoRequests(Start(), Sched(Fork), a, Sched(Preempt), m);
  }

  lemma {:induction false} ChildOpensResource(m: Machine) returns (k: Machine)
    requires ChildRuns(m.sched) && m.res == R.Start()
    ensures Serve(m, OpenResource(7, 0, T.CREATE)) == Goes(k) && k.sem == m.sem
    ensures ChildRuns(k.sched) && R.Inv(k.res) && k.res.fds[1] == [0] && k.res.res[0].descriptors == [0]
  {
    var r := T.Opened(1);
    k := m.(sched := Called(m.sched, 1, 7, [7, 0, T.CREATE], 0), res := r);
  }

  lemma {:induction false} ChildCreatesSemaphore(k: Machine) returns (n: Machine)
    requires ChildRuns(k.sched) && k.sem == S.Start()
    ensures Serve(k, SemOpen(5, T.CREATE, 0)) == Goes(n) && n.res == k.res
    ensures ChildRuns(n.sched) && S.Inv(n.sem) && n.sem.fds[1] == [0]
  {
    var t := T.Created(1, 0);
    n := k.(sched := Called(k.sched, 1, 11, [5, T.CREATE, 0], 0), sem := t);
  }

  lemma {:induction false} ChildOpens(m: Machine) returns (qs: seq<Request>, n: Machine)
    requires ChildRuns(m.sched) && m.res == R.Start() && m.sem == S.Start()
    ensures qs == [OpenResource(7, 0, T.CREATE), SemOpen(5, T.CREATE, 0)] && Serves(m, qs) == Goes(n)
    ensures ChildRuns(n.sched) && R.Inv(n.res) && S.Inv(n.sem)
    ensures n.res.fds[1] == [0] && n.res.res[0].descriptors == [0] && n.sem.fds[1] == [0]
  {
    var k := ChildOpensResource(m);
    n := ChildCreatesSemaphore(k);
    qs := TwoRequests(m, OpenResource(7, 0, T.CREATE), k, SemOpen(5, T.CREATE, 0), n);
  }

  lemma {:induction false} ChildGoes(m: Machine) returns (qs: seq<Request>, c: Machine)
    requires ChildRuns(m.sched)
    ensures qs == [Sched(Exit(0)), Sched(Wait(0, 0))] && Serves(m, qs) == Goes(c)
    ensures c.res == m.res && c.sem == m.sem && c.sched.running == Some(0) && c.sched.free != [] && c.sched.free[0] == 1 && c.sched.ptrFree > 0
  {
    var s := ChildExits(m.sched);
    var t := ChildCollected(s);
    var b := Machine(s, m.res, m.sem);
    c := Machine(t, m.res, m.sem);
    qs := TwoRequests(m, Sched(Exit(0)), b, Sched(Wait(0, 0)), c);
  }

  lemma {:induction false} BlockReused(c: Machine) returns (qs: seq<Request>, n: Machine)
    requires c.sched.running == Some(0) && c.sched.free != [] && c.sched.free[0] == 1 && c.sched.ptrFree > 0
    ensures qs == [Sched(Fork)] && Serves(c, qs) == Goes(n) && n.res == R.Recycle(c.res, 1) && n.sem == S.Recycle(c.sem, 1)
  {
    n := Machine(SpawnStep(Record(c.sched, 0, Fork), 0).state, R.Recycle(c.res, 1), S.Recycle(c.sem, 1));
    qs := [Sched(Fork)];
    assert Serve(c, Sched(Fork)) == Goes(n) && qs[1..] == [];
  }

  lemma {:induction false} InFour(m: Machine, a: seq<Request>, b: seq<Request>, c: seq<Request>, d: seq<Request>,
                                  k: Machine, l: Machine, n: Machine, o: Machine)
    requires Serves(m, a) == Goes(k) && Serves(k, b) == Goes(l) && Serves(l, c) == Goes(n) && Serves(n, d) == Goes(o)
    ensures Serves(m, a + b + c + d) == Goes(o)
  {
    ServesSplit(m, a, b, k);
    ServesSplit(m, a + b, c, l);
    ServesSplit(m, a + b + c, d, n);
  }

  /** The child opens a resource and creates a semaphore, dies, and is collected. The next process in its block
      starts with its semaphore descriptor, and its resource descriptor hangs in no fd list. */
  lemma {:induction false} LeftOpen() returns (qs: seq<Request>, n: Machine)
    ensures qs == [Sched(Fork), Sched(Preempt)] + [OpenResource(7, 0, T.CREATE), SemOpen(5, T.CREATE, 0)]
                + [Sched(Exit(0)), Sched(Wait(0, 0))] + [Sched(Fork)]
    ensures Serves(Start(), qs) == Goes(n)
    ensures n.sem.fds[1] == [0] && n.sem.lastFd[1] == 0 && !S.Inv(n.sem)
    ensures n.res.fds[1] == [] && n.res.res[0].descriptors == [0] && !R.Inv(n.res)
  {
    var q1, m := ChildServed();
    var q2, l := ChildOpens(m);
    var q3, c := ChildGoes(l);
    var q4;
    q4, n := BlockReused(c);
    R.RecycleIff(l.res, 1);
    S.RecycleIff(l.sem, 1);
    qs := q1 + q2 + q3 + q4;
    InFour(Start(), q1, q2, q3, q4, m, l, c, n);
  }
}
