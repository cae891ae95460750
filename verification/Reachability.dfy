/** Exit keeps the invariant, and with it every step does. */
module Reachability {
  import opened Sequences
  import opened Processes
  import opened Syscalls
  import opened Invariants
  import opened Scheduling
  import opened Family

  // ----- dying: the state between the two halves of exit, with nobody running -----

  function Dead(s: State, me: Block): State
    requires me != s.init
  {
    Die(s, me).(running := None)
  }

  lemma {:induction false} DeadKids(s: State, me: Block, x: Block, b: Block)
    requires Inv(s) && s.running == Some(me) && me != s.init
    ensures var t := Dead(s, me);
      ChildOf(t, x, b) <==>
        if b == me then false
        else if b == s.init then ChildOf(s, x, s.init) || ChildOf(s, x, me)
        else ChildOf(s, x, b)
  {
  }

  lemma {:induction false} DeadKidFits(s: State, me: Block, x: Block, b: Block)
    requires Inv(s) && s.running == Some(me) && me != s.init && ChildOf(Dead(s, me), x, b)
    ensures KidFits(Dead(s, me), x, b)
  {
    DeadKids(s, me, x, b);
    DeadKids(s, me, x, s.init);
    assert ChildOf(s, x, b) ==> KidFits(s, x, b);
    assert ChildOf(s, x, me) ==> KidFits(s, x, me);
    assert ChildOf(s, x, s.init) <==> x in multiset(s.pcb[s.init].children);
    assert ChildOf(s, x, me) <==> x in multiset(s.pcb[me].children);
    assert PidFits(s, s.init);
  }

  lemma {:induction false} DeadTree(s: State, me: Block)
    requires Inv(s) && s.running == Some(me) && me != s.init
    ensures Tree(Dead(s, me))
  {
    var t := Dead(s, me);
    PlaceIsUnique(s, me);
    forall b: Block, x: Block | ChildOf(t, x, b) ensures KidFits(t, x, b) {
      DeadKidFits(s, me, x, b);
    }
    forall x: Block ensures Hangs(t, x) {
      assert Hangs(s, x);
      DeadKids(s, me, x, s.init);
      if s.pcb[x].parent.Some? {
        DeadKids(s, me, x, s.pcb[x].parent.value);
      }
    }
  }

  lemma {:induction false} DeadLedger(s: State, me: Block)
    requires Inv(s) && s.running == Some(me) && me != s.init
    ensures Ledger(Dead(s, me))
  {
    var t := Dead(s, me);
    PlaceIsUnique(s, me);
    assert PidFits(s, me) && FateFits(s, s.pcb[me].pid);
    forall b: Block ensures PidFits(t, b) {
      assert PidFits(s, b);
    }
    forall pid ensures FateFits(t, pid) {
      assert FateFits(s, pid);
      assert Reaped(t, pid) <==> Reaped(s, pid);
    }
    forall r | r in t.reaps ensures ReapFits(t, r) {
      assert ReapFits(s, r);
      var i :| 0 <= i < |s.reaps| && s.reaps[i] == r;
      assert Reaped(s, r.pid);
    }
  }

  lemma {:induction false} DeadKeeps(s: State, me: Block)
    requires Inv(s) && s.running == Some(me) && me != s.init
    ensures Inv(Dead(s, me))
  {
    var t := Dead(s, me);
    DeadTree(s, me);
    DeadLedger(s, me);
    forall b: Block ensures Places(t, b) == 1 && StatusFits(t, b) && TimerFits(t, b) {
      assert Places(s, b) == 1;
      assert StatusFits(s, b) && TimerFits(s, b);
      PlaceIsUnique(s, b);
    }
  }

  // ----- the two ways exit goes on -----

  lemma {:induction false} NoTimerOf(ts: seq<TimerItem>, b: Block)
    requires Owned(ts, b) == 0
    ensures TimersWithout(ts, b) == ts
  {
    if ts != [] {
      OwnedSplit(ts, 1, b);
      assert Owners(ts[..1]) == [ts[0].pcb];
      NoTimerOf(ts[1..], b);
    }
  }

  /** Two allocated blocks never have the same pid. */
  lemma {:induction false} PidsUnique(s: State, b: Block, c: Block)
    requires Inv(s) && b !in s.free && c !in s.free && s.pcb[b].pid == s.pcb[c].pid
    ensures b == c
  {
    assert PidFits(s, b) && PidFits(s, c);
  }

  lemma {:induction false} HandOverKeeps(d: State, me: Block, par: Block)
    requires Inv(d) && d.running == None && me in d.zombie
    requires WaitsFor(d.pcb[par], d.pcb[me].pid) && ChildOf(d, me, par)
    ensures Inv(HandOver(d, me, par, me))
  {
    var t := HandOver(d, me, par, me);
    assert StatusFits(d, par) && TimerFits(d, par);
    CollectedTree(d, t, par, me, ExitPath);
    CollectedLedger(d, t, par, me, ExitPath);
    PlaceIsUnique(d, me);
    assert TimerFits(d, me);
    NoTimerOf(d.timers, me);
    forall b: Block ensures Places(t, b) == 1 && StatusFits(t, b) && TimerFits(t, b) {
      HandOverPlace(d, me, par, b);
    }
  }

  lemma {:induction false} HandOverPlace(d: State, me: Block, par: Block, b: Block)
    requires Inv(d) && d.running == None && me in d.zombie
    requires WaitsFor(d.pcb[par], d.pcb[me].pid)
    ensures var t := HandOver(d, me, par, me); Places(t, b) == 1 && StatusFits(t, b) && TimerFits(t, b)
  {
    var t := HandOver(d, me, par, me);
    assert StatusFits(d, par) && TimerFits(d, par) && TimerFits(d, me) && StatusFits(d, me);
    PlaceIsUnique(d, me);
    NoTimerOf(d.timers, me);
    assert Places(d, b) == 1;
    assert StatusFits(d, b) && TimerFits(d, b);
    PlaceIsUnique(d, b);
    PlaceIsUnique(d, par);
    ZombieTaken(d, me, b);
    WithoutCount<Block>(d.waiting, par, b);
    assert multiset(t.free) == multiset{me} + multiset(d.free);
  }

  lemma {:induction false} DispatchKeeps(d: State)
    requires Inv(d) && d.running == None && d.ready != []
    ensures Inv(d.(pcb := d.pcb[d.ready[0] := d.pcb[d.ready[0]].(status := Running)],
                   running := Some(d.ready[0]), ready := d.ready[1..]))
  {
    var next := d.ready[0];
    var t := d.(pcb := d.pcb[next := d.pcb[next].(status := Running)], running := Some(next), ready := d.ready[1..]);
    SameFamilyTree(d, t);
    SameFamilyLedger(d, t);
    HeadCount(d.ready);
    PlaceIsUnique(d, next);
    forall b: Block ensures Places(t, b) == 1 && StatusFits(t, b) && TimerFits(t, b) {
      assert Places(d, b) == 1;
      assert StatusFits(d, b) && TimerFits(d, b);
      PlaceIsUnique(d, b);
      assert b in d.ready <==> b == next || b in d.ready[1..];
      assert b in t.ready <==> b in multiset(t.ready);
    }
  }

  /** When exit wakes a parent, the children cell it finds there is the dying process. */
  lemma {:induction false} CellIsMe(s: State, me: Block, par: Block, cell: Block)
    requires Inv(s) && s.running == Some(me) && me != s.init
    requires FindByPid(Die(s, me).pcb, Die(s, me).pcb[par].children, s.pcb[me].pid) == Some(cell)
    ensures cell == me && ChildOf(Dead(s, me), me, par)
  {
    var d := Dead(s, me);
    DeadKeeps(s, me);
    assert ChildOf(d, cell, par);
    assert KidFits(d, cell, par);
    PlaceIsUnique(d, me);
    PidsUnique(d, cell, me);
  }

  lemma {:induction false} ExitKeeps(s: State, me: Block)
    requires Inv(s) && s.running == Some(me) && ExitStep(s, me).Next?
    ensures Inv(ExitStep(s, me).state)
  {
    var t := ExitStep(s, me).state;
    var d := Dead(s, me);
    DeadKeeps(s, me);
    var par := s.pcb[me].parent.value;
    if WaitsFor(d.pcb[par], d.pcb[me].pid) {
      var cell := FindByPid(d.pcb, d.pcb[par].children, d.pcb[me].pid).value;
      CellIsMe(s, me, par, cell);
      HandOverKeeps(d, me, par);
      assert t == HandOver(d, me, par, me);
    } else {
      DispatchKeeps(d);
    }
  }

  // ----- every step, every run -----

  lemma {:induction false} SleepKeeps(s: State, me: Block)
    requires Inv(s) && s.running == Some(me) && s.pcb[me].syscallNum == DSOS_CALL_SLEEP && SleepStep(s, me).Next?
    ensures Inv(SleepStep(s, me).state)
  {
    if s.pcb[me].timer.Some? || |s.timers| >= MAX_NUM_PROCESSES {
      RegistersKeep(s, SleepStep(s, me).state);
    } else {
      BlocksKeeps(s, SleepStep(s, me).state, me);
    }
  }

  lemma {:induction false} SyscallKeeps(r: State, me: Block, c: Call)
    requires Inv(r) && r.running == Some(me)
    requires !c.Tick? && r.pcb[me].syscallNum == Number(c) && Handler(r, me, c).Next?
    ensures Inv(Handler(r, me, c).state)
  {
    match c
    case Preempt => ScheduleKeeps(r, me);
    case Fork => SpawnKeeps(r, me);
    case Spawn(_, _) => SpawnKeeps(r, me);
    case Wait(_, _) => WaitKeeps(r, me);
    case Exit(_) => ExitKeeps(r, me);
    case Sleep(_) => SleepKeeps(r, me);
  }

  lemma {:induction false} TickStepKeeps(s: State, me: Block)
    requires Inv(s) && s.running == Some(me)
    ensures Inv(Schedule(s.(time := s.time + 1), me))
  {
    TickKeeps(s);
    ScheduleKeeps(s.(time := s.time + 1), me);
  }

  lemma {:induction false} SyscallStepKeeps(s: State, me: Block, c: Call)
    requires Inv(s) && s.running == Some(me)
    requires !c.Tick? && Handler(Record(s, me, c), me, c).Next?
    ensures Inv(Handler(Record(s, me, c), me, c).state)
  {
    RecordKeeps(s, me, c);
    SyscallKeeps(Record(s, me, c), me, c);
  }

  lemma {:induction false} StepKeeps(s: State, c: Call)
    requires Inv(s) && Step(s, c).Next?
    ensures Inv(Step(s, c).state)
  {
    StepCases(s, c);
    if c.Tick? {
      TickStepKeeps(s, s.running.value);
    } else {
      SyscallStepKeeps(s, s.running.value, c);
    }
  }

  lemma {:induction false} BootInv()
    ensures Inv(Boot())
  {
    var s := Boot();
    forall b: Block ensures Places(s, b) == 1 {
      BootChain(MAX_NUM_PROCESSES - 1, b);
    }
    forall b: Block ensures StatusFits(s, b) && TimerFits(s, b) && Hangs(s, b) && PidFits(s, b) {
      BootFree(b);
    }
    BootFree(0);
    forall pid ensures FateFits(s, pid) {
    }
  }

  lemma {:induction false} BootFree(b: Block)
    ensures b in Boot().free <==> b != 0
  {
    if b != 0 {
      assert Boot().free[b - 1] == b;
    }
  }

  lemma {:induction false} BootChain(n: nat, b: Block)
    requires n < MAX_NUM_PROCESSES
    ensures multiset(seq(n, i requires 0 <= i < n => (i + 1) as Block))[b] == if 1 <= b <= n then 1 else 0
  {
    var s := seq(n, i requires 0 <= i < n => (i + 1) as Block);
    if n > 0 {
      var r := seq(n - 1, i requires 0 <= i < n - 1 => (i + 1) as Block);
      assert s == r + [n];
      BootChain(n - 1, b);
    }
  }

  /** Every state that any run from boot reaches satisfies the invariant. */
  lemma {:induction false} RunKeeps(s: State, cs: seq<Call>)
    requires Inv(s) && Run(s, cs).Next?
    ensures Inv(Run(s, cs).state)
    decreases |cs|
  {
    if cs != [] {
      StepKeeps(s, cs[0]);
      RunKeeps(Step(s, cs[0]).state, cs[1..]);
    }
  }

  lemma {:induction false} Reachable(cs: seq<Call>)
    requires Run(Boot(), cs).Next?
    ensures Inv(Run(Boot(), cs).state)
  {
    BootInv();
    RunKeeps(Boot(), cs);
  }
}
