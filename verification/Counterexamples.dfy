/** Concrete runs on which a plausible property of the kernel fails. */
module Counterexamples {
  import opened Sequences
  import opened Processes
  import opened Syscalls
  import opened WakeUps
  import Invariants
  import Reachability
  import Stranded

  lemma {:induction false} UnknownPidWaits() returns (t: State)
    ensures Run(Boot(), [Fork, Wait(99, 0)]) == Next(t)
    ensures InWait(t, 0) && t.pcb[0].arg0 == 99 && !Awaits(t, 0)
  {
    var s := Step(Boot(), Fork).state;
    assert Boot().free[0] == 1;
    assert s.pcb[0].children == [1] && s.pcb[1].status == Ready && s.ready == [1];
    t := Step(s, Wait(99, 0)).state;
    assert Run(Boot(), [Fork, Wait(99, 0)]) == Run(s, [Wait(99, 0)]) by {
      assert [Fork, Wait(99, 0)][1..] == [Wait(99, 0)];
    }
    assert Run(s, [Wait(99, 0)]) == Next(t) by {
      assert [Wait(99, 0)][1..] == [];
    }
    assert t.waiting == [0] && InWait(t, 0);
    assert !Awaits(t, 0);
  }

  /** wait(99) by a process with one live child 1: no error is reported, and in no continuation is the caller woken. */
  lemma {:induction false} UnknownPidBlocks(cs: seq<Call>)
    ensures Run(Boot(), [Fork, Wait(99, 0)]).Next?
    ensures var o := Run(Boot(), [Fork, Wait(99, 0)] + cs); o.Next? ==> 0 in o.state.waiting
  {
    var t := UnknownPidWaits();
    RunSplit(Boot(), [Fork, Wait(99, 0)], cs, t);
    Reachability.Reachable([Fork, Wait(99, 0)]);
    var o := Run(t, cs);
    if o.Next? {
      Stranded.LostIsLost(t, cs, o.state, 0);
    }
  }

  // ----- orphans: process 2 forks 3 and exits, so init adopts 3, whose parent pointer still names block 2 -----

  /** Queues and free chain; nobody sleeps. */
  ghost predicate Queues(s: State, running: Block, ready: seq<Block>, waiting: seq<Block>, zombie: seq<Block>, free: seq<Block>, ptrs: nat) {
    && s.init == 0 && s.timers == [] && s.ptrFree == ptrs
    && s.running == Some(running) && s.ready == ready && s.waiting == waiting && s.zombie == zombie
    && free <= s.free
  }

  ghost predicate Is(p: Pcb, pid: int, parent: Option<Block>, children: seq<Block>) {
    p.pid == pid && p.parent == parent && p.children == children
  }

  lemma {:induction false} Forked(s: State)
    requires s == Step(Step(Boot(), Fork).state, Fork).state
    ensures Step(Boot(), Fork).Next? && Step(Step(Boot(), Fork).state, Fork).Next?
    ensures Queues(s, 0, [1, 2], [], [], [3, 4], 1022) && s.lastPid == 3
    ensures Is(s.pcb[0], 0, None, [1, 2]) && Is(s.pcb[1], 1, Some(0), []) && Is(s.pcb[2], 2, Some(0), [])
    ensures s.pcb[0].status == Running
  {
    var r := Step(Boot(), Fork).state;
    assert Boot().free[0] == 1 && Boot().free[1] == 2 && Boot().free[2] == 3 && Boot().free[3] == 4;
    assert r.ready == [1] && r.pcb[0].children == [1] && r.free[0] == 2;
    assert s.free[..2] == [3, 4];
  }

  lemma {:induction false} NobodyDue(s: State)
    requires s.timers == []
    ensures WakeDue(s) == s
  {
    KeepAll(s.waiting);
    assert WakeUp(s.pcb, []) == s.pcb;
    assert Owners(s.timers[..0]) == [];
    assert [] + s.ready == s.ready;
  }

  lemma {:induction false} PreemptRotates(s: State, me: Block)
    requires s.running == Some(me) && s.timers == []
    ensures Step(s, Preempt) == Next(Rotate(Record(s, me, Preempt), me))
  {
    var r := Record(s, me, Preempt);
    StepCases(s, Preempt);
    NobodyDue(r);
    assert Schedule(r, me) == Rotate(r, me);
  }

  /** A preemption with nobody asleep is a rotation of the ready list. */
  lemma {:induction false} Rotated(s: State, me: Block, t: State)
    requires s.running == Some(me) && s.timers == [] && s.ready != [] && s.ready[0] != me
    requires t == Rotate(Record(s, me, Preempt), me)
    ensures t == s.(pcb := t.pcb, ready := s.ready[1..] + [me], running := Some(s.ready[0]))
    ensures t.pcb[me].status == Ready && t.pcb[s.ready[0]].status == Running
    ensures forall b: Block :: Is(t.pcb[b], s.pcb[b].pid, s.pcb[b].parent, s.pcb[b].children)
    ensures forall b: Block :: b != me && b != s.ready[0] ==> t.pcb[b] == s.pcb[b]
  {
  }

  /** After Fork, Fork, Preempt, Preempt, Fork, Exit(0): init runs with the zombie 2 and the adopted 3 below it. */
  ghost predicate Adopted(s: State) {
    && Queues(s, 0, [1, 3], [], [2], [4], 1021) && s.lastPid == 4
    && Is(s.pcb[0], 0, None, [1, 2, 3]) && Is(s.pcb[1], 1, Some(0), [])
    && Is(s.pcb[2], 2, Some(0), []) && Is(s.pcb[3], 3, Some(2), [])
    && s.pcb[0].status == Running && s.pcb[1].status == Ready && s.pcb[2].status == Zombie && s.pcb[3].status == Ready
  }

  lemma {:induction false} RunFive(s2: State, s3: State, s4: State)
    requires Step(Boot(), Fork).Next? && Step(Step(Boot(), Fork).state, Fork) == Next(s2)
    requires Step(s2, Preempt) == Next(s3) && Step(s3, Preempt) == Next(s4)
    ensures Run(Boot(), [Fork, Fork, Preempt, Preempt, Fork, Exit(0)]) == Run(s4, [Fork, Exit(0)])
  {
    var cs := [Fork, Fork, Preempt, Preempt, Fork, Exit(0)];
    assert cs[1..][1..] == [Preempt, Preempt, Fork, Exit(0)] && cs[1..][1..][1..][1..] == [Fork, Exit(0)];
  }

  lemma {:induction false} Adoption() returns (s: State)
    ensures Run(Boot(), [Fork, Fork, Preempt, Preempt, Fork, Exit(0)]) == Next(s)
    ensures Adopted(s)
  {
    var s2 := Step(Step(Boot(), Fork).state, Fork).state;
    Forked(s2);
    var s3 := Rotate(Record(s2, 0, Preempt), 0);
    PreemptRotates(s2, 0);
    Rotated(s2, 0, s3);
    var s4 := Rotate(Record(s3, 1, Preempt), 1);
    PreemptRotates(s3, 1);
    Rotated(s3, 1, s4);
    s := AdoptedFrom(s4);
    RunFive(s2, s3, s4);
  }

  lemma {:induction false} AdoptedFrom(s: State) returns (t: State)
    requires Queues(s, 2, [0, 1], [], [], [3, 4], 1022) && s.lastPid == 3
    requires Is(s.pcb[0], 0, None, [1, 2]) && Is(s.pcb[1], 1, Some(0), []) && Is(s.pcb[2], 2, Some(0), [])
    requires s.pcb[0].status == Ready && s.pcb[1].status == Ready
    ensures Run(s, [Fork, Exit(0)]) == Next(t)
    ensures Adopted(t)
  {
    var u := Step(s, Fork).state;
    assert s.free[0] == 3 && s.free[1] == 4;
    assert u.ready == [0, 1, 3] && u.pcb[2].children == [3];
    t := Step(u, Exit(0)).state;
    assert u.free[0] == 4;
  }

  /** Init has reaped the zombie 2: its block heads the free chain, and 3 still names it as parent. */
  ghost predicate Freed(s: State) {
    && Queues(s, 0, [1, 3], [], [], [2, 4], 1022) && s.lastPid == 4
    && Is(s.pcb[0], 0, None, [1, 3]) && Is(s.pcb[1], 1, Some(0), [])
    && Is(s.pcb[2], 2, Some(0), []) && Is(s.pcb[3], 3, Some(2), [])
    && s.pcb[0].status == Running && s.pcb[1].status == Ready && s.pcb[2].status == Zombie && s.pcb[3].status == Ready
  }

  lemma {:induction false} ScanSecond(p: PcbTable, kids: seq<Block>)
    requires kids == [1, 2, 3] && p[1].status == Ready && p[2].status == Zombie
    ensures Scan(p, kids, 0) == 2 && Without(kids, 2) == [1, 3]
  {
    var rest := kids[1..];
    assert rest == [2, 3] && rest[0] == 2 && rest[1..] == [3];
    assert Scan(p, rest, 0) == 2;
    assert Without(rest, 2) == [3];
  }

  lemma {:induction false} ReapsTwo(s: State, t: State)
    requires Adopted(s) && t == ReapStep(Record(s, 0, Wait(0, 0)), 0, 2)
    ensures WaitStep(Record(s, 0, Wait(0, 0)), 0) == Next(t)
    ensures Freed(t)
  {
    var r := Record(s, 0, Wait(0, 0));
    ScanSecond(r.pcb, r.pcb[0].children);
    assert Without([2 as Block], 2) == [];
    assert t.free == [2] + s.free && s.free[0] == 4;
  }

  lemma {:induction false} WaitReapsTwo(s: State) returns (t: State)
    requires Adopted(s)
    ensures Step(s, Wait(0, 0)) == Next(t) && Freed(t)
  {
    t := ReapStep(Record(s, 0, Wait(0, 0)), 0, 2);
    ReapsTwo(s, t);
  }

  /** One more call at the end of a run. */
  lemma {:induction false} Append(s: State, cs: seq<Call>, t: State, c: Call)
    requires Run(s, cs) == Next(t)
    ensures Run(s, cs + [c]) == Step(t, c)
  {
    RunSplit(s, cs, [c], t);
    assert [c][1..] == [];
  }

  lemma {:induction false} AdoptedAndFreed() returns (cs: seq<Call>, t: State)
    ensures Run(Boot(), cs) == Next(t) && Freed(t)
    ensures cs == [Fork, Fork, Preempt, Preempt, Fork, Exit(0), Wait(0, 0)]
  {
    t := Adoption();
    cs := [Fork, Fork, Preempt, Preempt, Fork, Exit(0)];
    Append(Boot(), cs, t, Wait(0, 0));
    t := WaitReapsTwo(t);
    cs := cs + [Wait(0, 0)];
  }

  lemma {:induction false} RotatesOn(s: State, cs: seq<Call>, t: State, me: Block) returns (u: State)
    requires Run(s, cs) == Next(t) && t.running == Some(me) && t.timers == [] && t.ready != [] && t.ready[0] != me
    ensures Run(s, cs + [Preempt]) == Next(u)
    ensures u == t.(pcb := u.pcb, ready := t.ready[1..] + [me], running := Some(t.ready[0]))
    ensures forall b: Block :: Is(u.pcb[b], t.pcb[b].pid, t.pcb[b].parent, t.pcb[b].children)
    ensures forall b: Block :: b != me && b != t.ready[0] ==> u.pcb[b] == t.pcb[b]
  {
    u := Rotate(Record(t, me, Preempt), me);
    Append(s, cs, t, Preempt);
    PreemptRotates(t, me);
    Rotated(t, me, u);
  }

  /** The orphan 3 exits while init is blocked in wait(0): init sleeps on above a zombie. */
  lemma {:induction false} OrphanLost() returns (cs: seq<Call>, t: State)
    ensures Run(Boot(), cs) == Next(t) && !NoLostWakeUp(t)
    ensures cs == [Fork, Fork, Preempt, Preempt, Fork, Exit(0), Wait(0, 0)] + [Wait(0, 0)] + [Preempt] + [Exit(0)]
  {
    cs, t := AdoptedAndFreed();
    Append(Boot(), cs, t, Wait(0, 0));
    t := OrphanBlocks(t);
    cs := cs + [Wait(0, 0)];
    t := RotatesOn(Boot(), cs, t, 1);
    cs := cs + [Preempt];
    Append(Boot(), cs, t, Exit(0));
    t := OrphanExits(t);
    cs := cs + [Exit(0)];
  }

  lemma {:induction false} OrphanBlocks(s: State) returns (t: State)
    requires Freed(s)
    ensures Step(s, Wait(0, 0)) == Next(t)
    ensures Queues(t, 1, [3], [0], [], [2, 4], 1022)
    ensures t.pcb[0] == s.pcb[0].(status := Waiting, syscallNum := DSOS_CALL_WAIT, arg0 := 0, arg1 := 0)
    ensures forall b: Block :: b != 0 ==> t.pcb[b] == s.pcb[b]
  {
    var r := Record(s, 0, Wait(0, 0));
    var kids := s.pcb[0].children;
    assert kids == [1, 3] && kids[1..] == [3];
    assert Scan(r.pcb, kids, 0) == Scan(r.pcb, kids[1..], 0) == 3;
    t := BlockStep(r, 0).state;
  }

  lemma {:induction false} OrphanExits(s: State) returns (t: State)
    requires Queues(s, 3, [1], [0], [], [2, 4], 1022)
    requires s.pcb[0].children == [1, 3] && s.pcb[0].syscallNum == DSOS_CALL_WAIT && s.pcb[0].arg0 == 0
    requires Is(s.pcb[3], 3, Some(2), []) && s.pcb[2].status == Zombie
    ensures Step(s, Exit(0)) == Next(t)
    ensures !NoLostWakeUp(t)
  {
    t := Step(s, Exit(0)).state;
    assert t.waiting == [0] && InWait(t, 0);
    assert t.pcb[0].children == [1, 3] && t.pcb[3].status == Zombie;
    assert Invariants.ChildOf(t, 3, 0) && !LiveChild(t, 3, 0);
    assert !Awaits(t, 0);
  }

  // ----- the block of the dead parent is given to a new process, which waits when the orphan exits -----

  /** Block 2 now is the process with pid 4. */
  ghost predicate Recycled(s: State) {
    && Queues(s, 0, [1, 3, 2], [], [], [4], 1021) && s.lastPid == 5
    && Is(s.pcb[0], 0, None, [1, 3, 2]) && Is(s.pcb[1], 1, Some(0), [])
    && Is(s.pcb[2], 4, Some(0), []) && Is(s.pcb[3], 3, Some(2), [])
  }

  lemma {:induction false} Recycles(s: State) returns (t: State)
    requires Freed(s)
    ensures Step(s, Fork) == Next(t) && Recycled(t)
  {
    t := Step(s, Fork).state;
    assert s.free[0] == 2 && s.free[1] == 4;
  }

  lemma {:induction false} NewOwnerForks(s: State) returns (t: State)
    requires Queues(s, 2, [0, 1, 3], [], [], [4], 1021) && s.lastPid == 5
    requires Is(s.pcb[2], 4, Some(0), []) && Is(s.pcb[3], 3, Some(2), [])
    ensures Step(s, Fork) == Next(t)
    ensures t.running == Some(2) && t.ready == [0, 1, 3, 4] && t.timers == [] && t.init == 0
    ensures Is(t.pcb[2], 4, Some(0), [4]) && Is(t.pcb[3], 3, Some(2), []) && t.pcb[4].pid == 5 && t.pcb[4].status == Ready
  {
    t := Step(s, Fork).state;
    assert s.free[0] == 4;
  }

  /** The orphan 3 still names block 2 as its parent, and block 2 now waits for its own child. */
  ghost predicate OwnerWaits(t: State) {
    && t.timers == [] && t.init == 0
    && Is(t.pcb[2], 4, Some(0), [4]) && t.pcb[2].status == Waiting && t.pcb[2].syscallNum == DSOS_CALL_WAIT && t.pcb[2].arg0 == 0
    && Is(t.pcb[3], 3, Some(2), []) && t.pcb[4].pid == 5
  }

  lemma {:induction false} NewOwnerWaits(u: State) returns (t: State)
    requires u.running == Some(2) && u.ready == [0, 1, 3, 4] && u.timers == [] && u.init == 0
    requires Is(u.pcb[2], 4, Some(0), [4]) && Is(u.pcb[3], 3, Some(2), []) && u.pcb[4].pid == 5 && u.pcb[4].status == Ready
    ensures Step(u, Wait(0, 0)) == Next(t)
    ensures t.running == Some(0) && t.ready == [1, 3, 4] && OwnerWaits(t)
  {
    var r := Record(u, 2, Wait(0, 0));
    assert Scan(r.pcb, [4], 0) == 4;
    t := BlockStep(r, 2).state;
  }

  lemma {:induction false} OrphanCrashes(s: State)
    requires s.running == Some(3) && OwnerWaits(s)
    ensures Step(s, Exit(0)).Crash?
  {
    var r := Record(s, 3, Exit(0));
    var d := Die(r, 3);
    assert d.pcb[2].children == [4] && FindByPid(d.pcb, [4], 3) == FindByPid(d.pcb, [4][1..], 3) == None;
  }

  /** The exit of the orphan takes the new owner of the block for its parent, and dereferences the
      children cell that is not there. */
  lemma {:induction false} RecycledParentCrash() returns (cs: seq<Call>)
    ensures Run(Boot(), cs).Crash?
    ensures cs == [Fork, Fork, Preempt, Preempt, Fork, Exit(0), Wait(0, 0)] + [Fork] + [Preempt] + [Preempt] + [Preempt]
                + [Fork] + [Wait(0, 0)] + [Preempt] + [Preempt] + [Exit(0)]
  {
    var t: State;
    cs, t := AdoptedAndFreed();
    Append(Boot(), cs, t, Fork);
    t := Recycles(t);
    cs := cs + [Fork];
    cs, t := OwnerTakesOver(cs, t);
    t := RotatesOn(Boot(), cs, t, 0);
    cs := cs + [Preempt];
    t := RotatesOn(Boot(), cs, t, 1);
    cs := cs + [Preempt];
    Append(Boot(), cs, t, Exit(0));
    OrphanCrashes(t);
    cs := cs + [Exit(0)];
  }

  /** The facts about the recycled block that a preemption does not touch. */
  ghost predicate Parked(s: State, running: Block, ready: seq<Block>) {
    && Queues(s, running, ready, [], [], [4], 1021) && s.lastPid == 5
    && Is(s.pcb[2], 4, Some(0), []) && Is(s.pcb[3], 3, Some(2), [])
  }

  lemma {:induction false} ParkedRotates(cs: seq<Call>, s: State, me: Block, a: Block, b: Block, c: Block) returns (t: State)
    requires Run(Boot(), cs) == Next(s) && Parked(s, me, [a, b, c]) && a != me
    ensures Run(Boot(), cs + [Preempt]) == Next(t) && Parked(t, a, [b, c, me])
  {
    t := RotatesOn(Boot(), cs, s, me);
  }

  lemma {:induction false} OwnerGetsCpu(cs: seq<Call>, s: State) returns (ds: seq<Call>, t: State)
    requires Run(Boot(), cs) == Next(s) && Recycled(s)
    ensures ds == cs + [Preempt] + [Preempt] + [Preempt] && Run(Boot(), ds) == Next(t)
    ensures Parked(t, 2, [0, 1, 3])
  {
    t := ParkedRotates(cs, s, 0, 1, 3, 2);
    ds := cs + [Preempt];
    t := ParkedRotates(ds, t, 1, 3, 2, 0);
    ds := ds + [Preempt];
    t := ParkedRotates(ds, t, 3, 2, 0, 1);
    ds := ds + [Preempt];
  }

  lemma {:induction false} OwnerTakesOver(cs: seq<Call>, s: State) returns (ds: seq<Call>, t: State)
    requires Run(Boot(), cs) == Next(s) && Recycled(s)
    ensures ds == cs + [Preempt] + [Preempt] + [Preempt] + [Fork] + [Wait(0, 0)] && Run(Boot(), ds) == Next(t)
    ensures t.running == Some(0) && t.ready == [1, 3, 4] && OwnerWaits(t)
  {
    ds, t := OwnerGetsCpu(cs, s);
    Append(Boot(), ds, t, Fork);
    t := NewOwnerForks(t);
    ds := ds + [Fork];
    Append(Boot(), ds, t, Wait(0, 0));
    t := NewOwnerWaits(t);
    ds := ds + [Wait(0, 0)];
  }
}
