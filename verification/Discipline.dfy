/** When a call goes through, and runs of well-behaved programs in which nothing goes wrong. */
module Discipline {
  import opened Sequences
  import opened Processes
  import opened Syscalls
  import opened Invariants
  import opened Scheduling
  import opened Family
  import opened Reachability
  import opened WakeUps
  import Reaping

  // ----- exactly which calls crash or hang -----

  ghost predicate ExitGoesThrough(s: State, me: Block) {
    me != s.init && s.pcb[me].parent.Some? &&
    if WaitsFor(s.pcb[s.pcb[me].parent.value], s.pcb[me].pid)
    then ChildOf(s, me, s.pcb[me].parent.value)
    else s.ready != []
  }

  /** The pools have a block, a blocking call has a successor, and an exiting process finds itself below its parent. */
  ghost predicate GoesThrough(s: State, c: Call)
    requires s.running.Some?
  {
    var me := s.running.value;
    match c
    case Fork => s.free != [] && s.ptrFree > 0
    case Spawn(_, _) => s.free != [] && s.ptrFree > 0
    case Wait(q, _) => WaitBlocks(s, me, q) ==> s.ready != []
    case Exit(_) => ExitGoesThrough(s, me)
    case _ => true
  }

  /** The exit finds its own cell exactly when it is below its parent. */
  lemma {:induction false} CellFound(r: State, me: Block, par: Block)
    requires Inv(r) && r.running == Some(me) && me != r.init && r.pcb[me].parent == Some(par)
    ensures FindByPid(Die(r, me).pcb, Die(r, me).pcb[par].children, r.pcb[me].pid).Some? <==> ChildOf(r, me, par)
  {
    OwnParent(r, me);
    DeadKids(r, me, me, par);
    var f := FindByPid(Die(r, me).pcb, Die(r, me).pcb[par].children, r.pcb[me].pid);
    if f.Some? {
      CellIsMe(r, me, par, f.value);
    }
  }

  lemma {:induction false} ExitExact(s: State, me: Block, c: Call)
    requires Inv(s) && s.running == Some(me) && c.Exit?
    ensures ExitStep(Record(s, me, c), me).Next? <==> ExitGoesThrough(s, me)
    ensures ExitStep(Record(s, me, c), me).Hang? <==> me == s.init && s.pcb[me].children != []
  {
    if me != s.init {
      var r := Record(s, me, c);
      RecordKeeps(s, me, c);
      OwnParent(s, me);
      var par := s.pcb[me].parent.value;
      CellFound(r, me, par);
      assert ChildOf(r, me, par) <==> ChildOf(s, me, par);
      assert WaitsFor(Die(r, me).pcb[par], s.pcb[me].pid) <==> WaitsFor(s.pcb[par], s.pcb[me].pid);
    }
  }

  /** Of the reachable states' calls exactly these do not crash or hang. */
  lemma {:induction false} CallsExact(s: State, c: Call)
    requires Inv(s) && s.running.Some?
    ensures Step(s, c).Next? <==> GoesThrough(s, c)
    ensures Step(s, c).Hang? <==> c.Exit? && s.running == Some(s.init) && s.pcb[s.init].children != []
  {
    var me := s.running.value;
    if c.Exit? {
      ExitExact(s, me, c);
    } else if c.Wait? {
      var r := Record(s, me, c);
      assert s.pcb[me].children == r.pcb[me].children;
      if s.pcb[me].children != [] {
        ScanSame(s.pcb, r.pcb, s.pcb[me].children, c.pid);
      }
    }
  }

  // ----- programs in which every process exits childless and waits only for children -----

  ghost predicate WellBehaved(s: State, c: Call)
    requires s.running.Some?
  {
    var me := s.running.value;
    match c
    case Exit(_) => me != s.init && s.pcb[me].children == []
    case Wait(q, _) => q == 0 || s.pcb[me].children == [] || HasChildPid(s, me, q)
    case _ => true
  }

  /** Every process but init is below the process that spawned it, and that one is still there. */
  ghost predicate AtHome(s: State, c: Block) {
    c !in s.free && c != s.init ==>
      && s.pcb[c].parent.Some? && ChildOf(s, c, s.pcb[c].parent.value)
      && 0 <= s.pcb[c].pid < |s.births| && s.births[s.pcb[c].pid].parentPid == s.pcb[s.pcb[c].parent.value].pid
  }

  ghost predicate NoOrphans(s: State) {
    forall c: Block :: AtHome(s, c)
  }

  lemma {:induction false} SameFamilyHome(s: State, t: State)
    requires SameFamily(s, t) && NoOrphans(s)
    ensures NoOrphans(t)
  {
    forall c: Block ensures AtHome(t, c) {
      assert AtHome(s, c) && SameKin(s.pcb[c], t.pcb[c]);
      if s.pcb[c].parent.Some? {
        assert SameKin(s.pcb[s.pcb[c].parent.value], t.pcb[s.pcb[c].parent.value]);
      }
    }
  }

  lemma {:induction false} SpawnHome(s: State, me: Block)
    requires Inv(s) && s.running == Some(me) && SpawnStep(s, me).Next? && NoOrphans(s)
    ensures NoOrphans(SpawnStep(s, me).state)
  {
    var t := SpawnStep(s, me).state;
    var n := s.free[0];
    PlaceIsUnique(s, me);
    PlaceIsUnique(s, n);
    assert Hangs(s, n);
    forall c: Block ensures AtHome(t, c) {
      SpawnPlace(s, me, c);
      assert AtHome(s, c);
      if c == n {
        assert ChildOf(t, n, me);
      } else if c !in s.free && c != s.init {
        var p := s.pcb[c].parent.value;
        assert ChildOf(s, c, p) ==> ChildOf(t, c, p);
      }
    }
  }

  lemma {:induction false} CollectedHome(s: State, t: State, par: Block, c: Block, path: Path)
    requires Inv(s) && Collected(s, t, par, c, path) && ChildOf(s, c, par) && c in s.zombie && NoOrphans(s)
    ensures NoOrphans(t)
  {
    forall x: Block ensures AtHome(t, x) {
      assert AtHome(s, x) && SamePerson(s.pcb[x], t.pcb[x]);
      if s.pcb[x].parent.Some? {
        CollectedKid(s, t, par, c, path, x, s.pcb[x].parent.value);
      }
    }
  }

  lemma {:induction false} WaitHome(s: State, me: Block)
    requires Inv(s) && s.running == Some(me) && WaitStep(s, me).Next? && NoOrphans(s)
    ensures NoOrphans(WaitStep(s, me).state)
  {
    var t := WaitStep(s, me).state;
    var kids := s.pcb[me].children;
    if kids != [] && s.pcb[Scan(s.pcb, kids, s.pcb[me].arg0)].status == Zombie {
      var c := Scan(s.pcb, kids, s.pcb[me].arg0);
      assert ChildOf(s, c, me);
      ZombieChild(s, me, c);
      PlaceIsUnique(s, me);
      CollectedHome(s, t, me, c, WaitPath);
    } else {
      SameFamilyHome(s, t);
    }
  }

  lemma {:induction false} DeadHome(s: State, me: Block)
    requires Inv(s) && s.running == Some(me) && me != s.init && s.pcb[me].children == [] && NoOrphans(s)
    ensures NoOrphans(Dead(s, me))
  {
    var t := Dead(s, me);
    forall c: Block ensures AtHome(t, c) {
      assert AtHome(s, c);
      if s.pcb[c].parent.Some? {
        DeadKids(s, me, c, s.pcb[c].parent.value);
      }
    }
  }

  lemma {:induction false} ExitHome(s: State, me: Block)
    requires Inv(s) && s.running == Some(me) && ExitStep(s, me).Next? && s.pcb[me].children == [] && NoOrphans(s)
    ensures NoOrphans(ExitStep(s, me).state)
  {
    var t := ExitStep(s, me).state;
    var d := Dead(s, me);
    DeadKeeps(s, me);
    DeadHome(s, me);
    var par := s.pcb[me].parent.value;
    if WaitsFor(d.pcb[par], d.pcb[me].pid) {
      var cell := FindByPid(d.pcb, d.pcb[par].children, d.pcb[me].pid).value;
      CellIsMe(s, me, par, cell);
      assert t == HandOver(d, me, par, me);
      assert StatusFits(d, par) && TimerFits(d, me);
      PlaceIsUnique(d, me);
      CollectedHome(d, t, par, me, ExitPath);
    } else {
      SameFamilyHome(d, t);
    }
  }

  lemma {:induction false} HandlerHome(r: State, me: Block, c: Call)
    requires Inv(r) && r.running == Some(me) && !c.Tick? && Handler(r, me, c).Next? && NoOrphans(r)
    requires c.Exit? ==> r.pcb[me].children == []
    ensures NoOrphans(Handler(r, me, c).state)
  {
    match c
    case Preempt => SameFamilyHome(r, Schedule(r, me));
    case Fork => SpawnHome(r, me);
    case Spawn(_, _) => SpawnHome(r, me);
    case Wait(_, _) => WaitHome(r, me);
    case Exit(_) => ExitHome(r, me);
    case Sleep(_) => SameFamilyHome(r, SleepStep(r, me).state);
  }

  lemma {:induction false} SyscallHome(s: State, me: Block, c: Call, t: State)
    requires Inv(s) && s.running == Some(me) && !c.Tick? && Handler(Record(s, me, c), me, c) == Next(t) && NoOrphans(s)
    requires c.Exit? ==> s.pcb[me].children == []
    ensures NoOrphans(t)
  {
    RecordKeeps(s, me, c);
    SameFamilyHome(s, Record(s, me, c));
    HandlerHome(Record(s, me, c), me, c);
  }

  lemma {:induction false} TickHome(s: State, me: Block)
    requires s.running == Some(me) && NoOrphans(s)
    ensures NoOrphans(Schedule(s.(time := s.time + 1), me))
  {
    SameFamilyHome(s, Schedule(s.(time := s.time + 1), me));
  }

  lemma {:induction false} StepHome(s: State, c: Call, t: State)
    requires Inv(s) && Step(s, c) == Next(t) && NoOrphans(s)
    requires c.Exit? ==> s.pcb[s.running.value].children == []
    ensures NoOrphans(t)
  {
    StepCases(s, c);
    if c.Tick? {
      TickHome(s, s.running.value);
    } else {
      SyscallHome(s, s.running.value, c, t);
    }
  }

  /** Without orphans a well-behaved call is safe. */
  lemma {:induction false} WellBehavedIsSafe(s: State, c: Call)
    requires Inv(s) && s.running.Some? && NoOrphans(s) && WellBehaved(s, c)
    ensures Safe(s, c)
  {
    var me := s.running.value;
    if c.Exit? {
      PlaceIsUnique(s, me);
      assert AtHome(s, me) && Hangs(s, me);
      var par := s.pcb[me].parent.value;
      assert KidFits(s, me, par);
    }
  }

  // ----- childless exits: every report goes to the process that spawned the child -----

  /** In the run, which goes through, nobody exits before its children are collected. */
  ghost predicate ChildlessRun(s: State, cs: seq<Call>)
    decreases |cs|
  {
    cs == [] || (Step(s, cs[0]).Next? && (cs[0].Exit? ==> s.pcb[s.running.value].children == [])
                 && ChildlessRun(Step(s, cs[0]).state, cs[1..]))
  }

  ghost predicate ToSpawner(s: State, r: Reap) {
    0 <= r.pid < |s.births| && r.receiver == s.births[r.pid].parentPid
  }

  ghost predicate AllToSpawner(s: State) {
    forall r :: r in s.reaps ==> ToSpawner(s, r)
  }

  /** Without orphans the keeper of a child is its spawner. */
  lemma {:induction false} HomeKeeper(s: State, c: Block)
    requires Inv(s) && NoOrphans(s) && c !in s.free && c != s.init
    ensures 0 <= s.pcb[c].pid < |s.births| && Reaping.Keeper(s, s.pcb[c].pid) == s.births[s.pcb[c].pid].parentPid
  {
    assert AtHome(s, c);
    var p := s.pcb[c].parent.value;
    assert Hangs(s, p) && PidFits(s, p);
  }

  lemma {:induction false} ReportsGoHome(s: State, c: Call, t: State)
    requires Inv(s) && NoOrphans(s) && AllToSpawner(s) && Step(s, c) == Next(t) && Inv(t) && s.births <= t.births
    ensures AllToSpawner(t)
  {
    Reaping.StepLog(s, c, t);
    forall r | r in t.reaps ensures ToSpawner(t, r) {
      if r in s.reaps {
        assert ToSpawner(s, r);
      } else {
        assert t.reaps == s.reaps + [r] && Reaping.ToKeeper(s, r);
        NewlyReaped(s, t, r);
        HomeKeeper(s, s.births[r.pid].block);
      }
    }
  }

  /** The child in a new report was alive or a zombie before. */
  lemma {:induction false} NewlyReaped(s: State, t: State, r: Reap)
    requires Inv(s) && Inv(t) && t.reaps == s.reaps + [r] && 0 <= r.pid < |s.births|
    ensures Holds(s, s.births[r.pid].block, r.pid) && s.births[r.pid].block != s.init
  {
    assert t.reaps[|s.reaps|] == r;
    assert ReapFits(t, r) && FateFits(s, r.pid);
    assert forall i :: 0 <= i < |s.reaps| ==> s.reaps[i] == t.reaps[i];
  }

  lemma {:induction false} BirthsGrow(s: State, c: Call, t: State)
    requires Step(s, c) == Next(t)
    ensures s.births <= t.births
  {
    StepCases(s, c);
  }

  lemma {:induction false} ChildlessRunsKeep(s: State, cs: seq<Call>)
    requires Inv(s) && NoOrphans(s) && AllToSpawner(s) && ChildlessRun(s, cs)
    ensures Run(s, cs).Next?
    ensures var t := Run(s, cs).state; Inv(t) && NoOrphans(t) && AllToSpawner(t)
    decreases |cs|
  {
    if cs != [] {
      var t := Step(s, cs[0]).state;
      StepKeeps(s, cs[0]);
      StepHome(s, cs[0], t);
      BirthsGrow(s, cs[0], t);
      ReportsGoHome(s, cs[0], t);
      ChildlessRunsKeep(t, cs[1..]);
    }
  }

  /** In every run from boot in which processes exit childless, each report went to the process that spawned the child. */
  lemma {:induction false} SpawnerIsTold(cs: seq<Call>, s: State, r: Reap)
    requires ChildlessRun(Boot(), cs) && Run(Boot(), cs) == Next(s) && r in s.reaps
    ensures 0 <= r.pid < |s.births| && r.receiver == s.births[r.pid].parentPid
    ensures r.pid in s.exits && r.value == s.exits[r.pid]
  {
    BootInv();
    BootHome();
    ChildlessRunsKeep(Boot(), cs);
    assert ToSpawner(s, r) && ReapFits(s, r);
  }

  lemma {:induction false} BootHome()
    ensures NoOrphans(Boot()) && NoLostWakeUp(Boot())
  {
    forall c: Block ensures AtHome(Boot(), c) {
      BootFree(c);
    }
    forall b: Block ensures Awaits(Boot(), b) {
    }
  }

  // ----- and if they wait only for children, no wake-up is lost -----

  ghost predicate WellBehavedRun(s: State, cs: seq<Call>)
    decreases |cs|
  {
    cs == [] || (Step(s, cs[0]).Next? && WellBehaved(s, cs[0]) && WellBehavedRun(Step(s, cs[0]).state, cs[1..]))
  }

  lemma {:induction false} WellBehavedRunsKeep(s: State, cs: seq<Call>)
    requires Inv(s) && NoOrphans(s) && NoLostWakeUp(s) && WellBehavedRun(s, cs)
    ensures Run(s, cs).Next?
    ensures var t := Run(s, cs).state; Inv(t) && NoOrphans(t) && NoLostWakeUp(t)
    decreases |cs|
  {
    if cs != [] {
      var t := Step(s, cs[0]).state;
      StepKeeps(s, cs[0]);
      StepHome(s, cs[0], t);
      WellBehavedIsSafe(s, cs[0]);
      KeptIffSafe(s, cs[0], t);
      WellBehavedRunsKeep(t, cs[1..]);
    }
  }

  /** In every run from boot in which processes exit childless and wait only for children, with or without
      somebody to run, a process blocked in wait(0) has children and none is a zombie, and one blocked
      in wait(q) has q as a live child. */
  lemma {:induction false} NothingLost(cs: seq<Call>, b: Block)
    requires WellBehavedRun(Boot(), cs)
    ensures Run(Boot(), cs).Next? && Awaits(Run(Boot(), cs).state, b)
  {
    BootInv();
    BootHome();
    WellBehavedRunsKeep(Boot(), cs);
    assert Awaits(Run(Boot(), cs).state, b);
  }

  /** Without orphans, the exit of a child that its parent waits for makes the parent run, with the child's pid and value. */
  lemma {:induction false} ChildWakesWaiter(s: State, b: Block, me: Block, v: int)
    requires Inv(s) && NoOrphans(s) && s.running == Some(me) && ChildOf(s, me, b)
    requires InWait(s, b) && (s.pcb[b].arg0 == 0 || s.pcb[b].arg0 == s.pcb[me].pid)
    ensures Step(s, Exit(v)).Next?
    ensures var t := Step(s, Exit(v)).state;
      && t.running == Some(b) && t.pcb[b].retValue == s.pcb[me].pid
      && (s.pcb[b].arg1 != 0 ==> t.pcb[b].delivered == v)
      && me in t.free && b !in t.waiting
  {
    assert AtHome(s, me) && KidFits(s, me, b) && StatusFits(s, b);
    var par := s.pcb[me].parent.value;
    assert KidFits(s, me, par);
    assert par == b;
    CallsExact(s, Exit(v));
    var r := Record(s, me, Exit(v));
    RecordKeeps(s, me, Exit(v));
    OwnParent(r, me);
    var d := Die(r, me);
    var cell := FindByPid(d.pcb, d.pcb[b].children, d.pcb[me].pid).value;
    CellIsMe(r, me, b, cell);
    HandOverWaiting(r, me, b);
  }

  // ----- an always-runnable process keeps the others from running into an empty ready list -----

  ghost predicate Runnable(s: State, i: Block) {
    s.running == Some(i) || i in s.ready
  }

  /** The idle process `i` only computes, forks, and is preempted; forks find their pools non-empty. */
  ghost predicate Careful(s: State, c: Call, i: Block)
    requires s.running.Some?
  {
    && WellBehaved(s, c)
    && (s.running == Some(i) ==> !c.Wait? && !c.Exit? && !c.Sleep?)
    && (c.Fork? || c.Spawn? ==> s.free != [] && s.ptrFree > 0)
  }

  lemma {:induction false} ScheduleRunnable(s: State, me: Block, i: Block)
    requires Runnable(s, i) && s.running == Some(me)
    ensures Runnable(Schedule(s, me), i)
  {
    var w := WakeDue(s);
    assert i in w.ready || me == i;
    if w.ready != [] {
      assert i in w.ready ==> i == w.ready[0] || i in w.ready[1..];
    }
  }

  lemma {:induction false} HandlerRunnable(s: State, me: Block, c: Call, i: Block)
    requires Runnable(s, i) && s.running == Some(me) && !c.Tick? && Handler(s, me, c).Next?
    requires me == i ==> !c.Wait? && !c.Exit? && !c.Sleep?
    ensures Runnable(Handler(s, me, c).state, i)
  {
    if c.Preempt? {
      ScheduleRunnable(s, me, i);
    } else if s.ready != [] {
      assert i in s.ready ==> i == s.ready[0] || i in s.ready[1..];
    }
  }

  lemma {:induction false} StepRunnable(s: State, c: Call, t: State, i: Block)
    requires Runnable(s, i) && Step(s, c) == Next(t) && s.running.Some?
    requires s.running == Some(i) ==> !c.Wait? && !c.Exit? && !c.Sleep?
    ensures Runnable(t, i) && t.running.Some?
  {
    var me := s.running.value;
    StepCases(s, c);
    if c.Tick? {
      ScheduleRunnable(s.(time := s.time + 1), me, i);
    } else {
      HandlerRunnable(Record(s, me, c), me, c, i);
    }
  }

  lemma {:induction false} CarefulGoesThrough(s: State, c: Call, i: Block)
    requires Inv(s) && s.running.Some? && NoOrphans(s) && Runnable(s, i) && Careful(s, c, i)
    ensures Step(s, c).Next?
  {
    var me := s.running.value;
    CallsExact(s, c);
    PlaceIsUnique(s, me);
    assert AtHome(s, me);
  }

  ghost predicate CarefulRun(s: State, cs: seq<Call>, i: Block)
    decreases |cs|
  {
    cs == [] || (s.running.Some? && Careful(s, cs[0], i)
                 && (Step(s, cs[0]).Next? ==> CarefulRun(Step(s, cs[0]).state, cs[1..], i)))
  }

  /** A run of well-behaved calls next to a process that is always runnable never crashes or hangs,
      and no wake-up is lost in it. */
  lemma {:induction false} CarefulRunsSucceed(s: State, cs: seq<Call>, i: Block)
    requires Inv(s) && NoOrphans(s) && NoLostWakeUp(s) && s.running.Some? && Runnable(s, i) && CarefulRun(s, cs, i)
    ensures Run(s, cs).Next?
    ensures var t := Run(s, cs).state; Inv(t) && NoOrphans(t) && NoLostWakeUp(t) && Runnable(t, i) && t.running.Some?
    decreases |cs|
  {
    if cs != [] {
      var c := cs[0];
      CarefulGoesThrough(s, c, i);
      var t := Step(s, c).state;
      StepKeeps(s, c);
      StepHome(s, c, t);
      WellBehavedIsSafe(s, c);
      KeptIffSafe(s, c, t);
      StepRunnable(s, c, t, i);
      CarefulRunsSucceed(t, cs[1..], i);
    }
  }

  lemma {:induction false} BootCareful()
    ensures Inv(Boot()) && NoOrphans(Boot()) && NoLostWakeUp(Boot()) && Runnable(Boot(), 0) && Careful(Boot(), Fork, 0)
  {
    BootInv();
    BootHome();
    BootFree(1);
  }

  lemma {:induction false} FirstFork(s: State)
    requires Step(Boot(), Fork) == Next(s)
    ensures Inv(s) && NoOrphans(s) && NoLostWakeUp(s) && s.running.Some? && Runnable(s, 1)
  {
    BootCareful();
    StepKeeps(Boot(), Fork);
    StepHome(Boot(), Fork, s);
    KeptIffSafe(Boot(), Fork, s);
    assert Boot().free[0] == 1;
    assert s.ready == [1];
  }

  /** From boot: init forks an idle process, and then everybody is careful. */
  lemma {:induction false} CarefulFromBoot(s: State, cs: seq<Call>)
    requires Step(Boot(), Fork) == Next(s) && CarefulRun(s, cs, 1)
    ensures Run(Boot(), [Fork] + cs).Next?
    ensures NoLostWakeUp(Run(Boot(), [Fork] + cs).state) && NoOrphans(Run(Boot(), [Fork] + cs).state)
  {
    FirstFork(s);
    CarefulRunsSucceed(s, cs, 1);
    assert ([Fork] + cs)[1..] == cs && ([Fork] + cs)[0] == Fork;
    assert Run(Boot(), [Fork] + cs) == Run(s, cs);
  }
}
