/** What each system call of the scheduler answers and what it leaves alone, in terms of the states before and after. */
module Answers {
  import opened Sequences
  import opened Processes
  import opened Syscalls
  import opened Invariants
  import opened Scheduling
  import opened Reachability
  import opened WakeUps
  import SleepTimes

  // ----- fork and spawn -----

  /** `child` was a free block; it now is the last child of `me`, at the tail of the ready list, with a pid
      that nobody has or had. */
  ghost predicate Born(s: State, t: State, me: Block, child: Block) {
    && child in s.free && child != me
    && t.ready == s.ready + [child]
    && t.pcb[me].children == s.pcb[me].children + [child]
    && t.pcb[child].parent == Some(me) && t.pcb[child].children == [] && t.pcb[child].status == Ready
    && t.pcb[child].timer == None && t.pcb[child].returnValue == 0
    && 0 < t.pcb[child].pid
    && (forall b: Block :: b !in s.free ==> s.pcb[b].pid != t.pcb[child].pid)
    && (forall i :: 0 <= i < |s.reaps| ==> s.reaps[i].pid != t.pcb[child].pid)
    && t.pcb[child].pid !in s.exits
  }

  /** Nothing else happens to the others and to the lists. */
  ghost predicate OnlyBirth(s: State, t: State, me: Block, child: Block) {
    && (forall b: Block :: b != me && b != child ==> t.pcb[b] == s.pcb[b])
    && t.pcb[me].status == s.pcb[me].status && t.pcb[me].pid == s.pcb[me].pid
    && t.pcb[me].parent == s.pcb[me].parent && t.pcb[me].delivered == s.pcb[me].delivered
    && t.births == s.births + [Birth(child, s.pcb[me].pid)]
    && t.running == s.running && t.waiting == s.waiting && t.zombie == s.zombie && t.timers == s.timers
    && t.time == s.time && t.exits == s.exits && t.reaps == s.reaps && s.free == [child] + t.free
  }

  /** The caller gets the child's pid. */
  lemma {:induction false} ForkAnswers(s: State, c: Call, me: Block, t: State) returns (child: Block)
    requires Inv(s) && s.running == Some(me) && (c.Fork? || c.Spawn?) && Step(s, c) == Next(t)
    ensures Born(s, t, me, child) && OnlyBirth(s, t, me, child)
    ensures t.pcb[me].retValue == t.pcb[child].pid
    ensures t.pcb[me].syscallNum == if c.Fork? then 2 else 5
    ensures c.Spawn? ==> t.pcb[me].arg0 == c.function_ && t.pcb[me].arg1 == c.args
  {
    StepCases(s, c);
    child := s.free[0];
    PlaceIsUnique(s, me);
    forall b: Block | b !in s.free ensures s.pcb[b].pid != s.lastPid {
      assert PidFits(s, b);
    }
    forall i | 0 <= i < |s.reaps| ensures s.reaps[i].pid != s.lastPid {
      assert ReapFits(s, s.reaps[i]);
    }
  }

  // ----- wait -----

  /** Nobody but the caller changes, and the caller only in its registers. */
  ghost predicate OnlyAnswered(s: State, t: State, me: Block) {
    && (forall b: Block :: b != me ==> t.pcb[b] == s.pcb[b])
    && t.pcb[me].status == s.pcb[me].status && t.pcb[me].pid == s.pcb[me].pid && t.pcb[me].parent == s.pcb[me].parent
    && t.running == Some(me) && t.ready == s.ready && t.waiting == s.waiting && t.timers == s.timers
    && t.time == s.time && t.exits == s.exits && t.births == s.births
  }

  /** A wait without children fails. */
  lemma {:induction false} WaitAlone(s: State, me: Block, q: int, a: int, t: State)
    requires s.running == Some(me) && s.pcb[me].children == [] && Step(s, Wait(q, a)) == Next(t)
    ensures t.pcb[me].retValue == -5 && t.pcb[me].delivered == s.pcb[me].delivered
    ensures OnlyAnswered(s, t, me) && t.pcb[me].children == [] && t.zombie == s.zombie && t.free == s.free && t.reaps == s.reaps
  {
    StepCases(s, Wait(q, a));
  }

  /** The caller is told about its zombie child `c`, which is gone. */
  ghost predicate Collected(s: State, t: State, me: Block, c: Block, a: int) {
    var pid := s.pcb[c].pid;
    && c in s.zombie && ChildOf(s, c, me) && pid in s.exits
    && t.pcb[me].retValue == pid > 0
    && t.pcb[me].delivered == (if a != 0 then s.exits[pid] else s.pcb[me].delivered)
    && t.reaps == s.reaps + [Reap(pid, s.exits[pid], s.pcb[me].pid, WaitPath)]
    && t.pcb[me].children == Without(s.pcb[me].children, c)
    && t.zombie == Without(s.zombie, c) && t.free == [c] + s.free && t.ptrFree == s.ptrFree + 1
    && OnlyAnswered(s, t, me)
  }

  /** The caller waits behind all others that wait, and the ready head runs. */
  ghost predicate Blocked(s: State, t: State, me: Block) {
    && s.ready != [] && t.running == Some(s.ready[0]) && t.ready == s.ready[1..] && t.waiting == s.waiting + [me]
    && t.pcb[me].status == Waiting && t.pcb[me].children == s.pcb[me].children
    && t.pcb[me].retValue == s.pcb[me].retValue && t.pcb[me].delivered == s.pcb[me].delivered
    && (forall b: Block :: b != me ==> t.pcb[b] == s.pcb[b])
    && t.zombie == s.zombie && t.free == s.free && t.timers == s.timers && t.time == s.time
    && t.exits == s.exits && t.reaps == s.reaps && t.births == s.births
  }

  /** What becomes of a wait whose scan ends on the child `c`. */
  ghost predicate WaitDone(s: State, t: State, me: Block, c: Block, a: int) {
    if c in s.zombie then Collected(s, t, me, c, a) else Blocked(s, t, me)
  }

  lemma {:induction false} WaitEndsOn(s: State, me: Block, q: int, a: int, t: State, c: Block)
    requires Inv(s) && s.running == Some(me) && s.pcb[me].children != [] && Step(s, Wait(q, a)) == Next(t)
    requires Scan(s.pcb, s.pcb[me].children, q) == c
    ensures WaitDone(s, t, me, c, a)
    ensures t.pcb[me].syscallNum == 3 && t.pcb[me].arg0 == q && t.pcb[me].arg1 == a
  {
    var r := Record(s, me, Wait(q, a));
    StepCases(s, Wait(q, a));
    ScanSame(s.pcb, r.pcb, s.pcb[me].children, q);
    assert ChildOf(s, c, me) && KidFits(s, c, me) && StatusFits(s, c) && PidFits(s, c);
    PlaceIsUnique(s, c);
    PlaceIsUnique(s, me);
    WaitEndsAfter(s, r, me, q, a, t, c);
  }

  lemma {:induction false} WaitEndsAfter(s: State, r: State, me: Block, q: int, a: int, t: State, c: Block)
    requires s.pcb[me].children != [] && r == Record(s, me, Wait(q, a)) && WaitStep(r, me) == Next(t) && s.running == Some(me)
    requires Scan(r.pcb, s.pcb[me].children, q) == c && c != me && ChildOf(s, c, me)
    requires c in s.zombie <==> s.pcb[c].status == Zombie
    requires c in s.zombie ==> s.pcb[c].pid > 0 && s.pcb[c].pid in s.exits && s.exits[s.pcb[c].pid] == s.pcb[c].returnValue
    ensures WaitDone(s, t, me, c, a)
    ensures t.pcb[me].syscallNum == 3 && t.pcb[me].arg0 == q && t.pcb[me].arg1 == a
  {
  }

  /** wait(0) collects the first zombie in the list of children, and blocks if there is none. A wait for a child's pid
      collects that child if it is a zombie and blocks if not; a wait for any other pid does the same with the last child. */
  lemma {:induction false} WaitAnswers(s: State, me: Block, q: int, a: int, t: State)
    requires Inv(s) && s.running == Some(me) && s.pcb[me].children != [] && Step(s, Wait(q, a)) == Next(t)
    ensures var kids := s.pcb[me].children;
      && (q == 0 ==> forall i :: 0 <= i < |kids| && kids[i] in s.zombie && (forall j :: 0 <= j < i ==> kids[j] !in s.zombie) ==>
            Collected(s, t, me, kids[i], a))
      && (q == 0 && (forall i :: 0 <= i < |kids| ==> kids[i] !in s.zombie) ==> Blocked(s, t, me))
      && (q != 0 ==> forall i :: 0 <= i < |kids| && s.pcb[kids[i]].pid == q ==> WaitDone(s, t, me, kids[i], a))
      && (q != 0 && (forall i :: 0 <= i < |kids| ==> s.pcb[kids[i]].pid != q) ==> WaitDone(s, t, me, kids[|kids| - 1], a))
  {
    var kids := s.pcb[me].children;
    var c := Scan(s.pcb, kids, q);
    WaitEndsOn(s, me, q, a, t, c);
    forall i | 0 <= i < |kids| && Stops(s, me, q, i) && (forall j :: 0 <= j < i ==> !Stops(s, me, q, j)) ensures c == kids[i] {
      StopsThere(s, me, q, i);
    }
    if forall i :: 0 <= i < |kids| ==> !Stops(s, me, q, i) {
      StopsThere(s, me, q, |kids| - 1);
    }
    forall i | 0 <= i < |kids| && q != 0 && s.pcb[kids[i]].pid == q ensures c == kids[i] {
      OneByPid(s, me, kids[i], c, q);
    }
  }

  /** The child at `i` is a zombie, or has the pid waited for. */
  ghost predicate Stops(s: State, me: Block, q: int, i: int) {
    0 <= i < |s.pcb[me].children| && var c := s.pcb[me].children[i]; if q == 0 then c in s.zombie else s.pcb[c].pid == q
  }

  lemma {:induction false} StopsThere(s: State, me: Block, q: int, i: nat)
    requires Inv(s) && i < |s.pcb[me].children| && (Stops(s, me, q, i) || i == |s.pcb[me].children| - 1)
    requires forall j :: 0 <= j < i ==> !Stops(s, me, q, j)
    ensures Scan(s.pcb, s.pcb[me].children, q) == s.pcb[me].children[i]
  {
    var kids := s.pcb[me].children;
    forall j | 0 <= j <= i ensures StopsAt(s.pcb[kids[j]], q) <==> Stops(s, me, q, j) {
      assert ChildOf(s, kids[j], me) && KidFits(s, kids[j], me) && StatusFits(s, kids[j]);
      PlaceIsUnique(s, kids[j]);
    }
    ScanIs(s.pcb, kids, q, i);
  }

  /** The scan for a child's pid ends on that child, wherever it stands. */
  lemma {:induction false} OneByPid(s: State, me: Block, x: Block, c: Block, q: int)
    requires Inv(s) && ChildOf(s, x, me) && q != 0 && s.pcb[x].pid == q && s.pcb[me].children != []
    requires c == Scan(s.pcb, s.pcb[me].children, q)
    ensures c == x
  {
    ScanFinds(s.pcb, s.pcb[me].children, q);
    assert StopsAt(s.pcb[x], q) && x in s.pcb[me].children;
    assert ChildOf(s, c, me) && KidFits(s, c, me) && KidFits(s, x, me);
    PidsUnique(s, x, c);
  }

  // ----- exit -----

  /** The parent waits for the exit of `me`. */
  ghost predicate Awaited(s: State, me: Block) {
    s.pcb[me].parent.Some? && var par := s.pcb[me].parent.value;
    InWait(s, par) && (s.pcb[par].arg0 == 0 || s.pcb[par].arg0 == s.pcb[me].pid)
  }

  /** It is what decides in the code. */
  lemma {:induction false} AwaitedIff(s: State, me: Block, c: Call)
    requires Inv(s) && s.running == Some(me) && c.Exit? && me != s.init
    ensures var d := Die(Record(s, me, c), me);
      Awaited(s, me) <==> d.pcb[me].parent.Some? && WaitsFor(d.pcb[d.pcb[me].parent.value], d.pcb[me].pid)
  {
    OwnParent(s, me);
    assert StatusFits(s, s.pcb[me].parent.value);
  }

  /** The children of `me` are init's now, behind init's own; they keep their parent pointers. */
  function ChildrenAfter(s: State, me: Block, b: Block): seq<Block> {
    if b == me then [] else if b == s.init then s.pcb[b].children + s.pcb[me].children else s.pcb[b].children
  }

  /** The parent runs, and has the pid and the exit value of `me`, whose block is free. */
  ghost predicate ParentTold(s: State, t: State, me: Block, par: Block, v: int) {
    && t.running == Some(par) && t.pcb[par].status == Running && t.pcb[par].retValue == s.pcb[me].pid
    && t.pcb[par].delivered == (if s.pcb[par].arg1 != 0 then v else s.pcb[par].delivered)
    && t.pcb[par].children == Without(ChildrenAfter(s, me, par), me)
    && (forall b: Block :: b != par ==> t.pcb[b].children == ChildrenAfter(s, me, b))
    && t.waiting == Without(s.waiting, par) && t.ready == s.ready && t.zombie == s.zombie
    && t.free == [me] + s.free && t.reaps == s.reaps + [Reap(s.pcb[me].pid, v, s.pcb[par].pid, ExitPath)]
  }

  /** `me` is the last zombie, and the ready head runs. */
  ghost predicate LeftAsZombie(s: State, t: State, me: Block) {
    && s.ready != [] && t.running == Some(s.ready[0]) && t.pcb[s.ready[0]].status == Running && t.ready == s.ready[1..]
    && (forall b: Block :: t.pcb[b].children == ChildrenAfter(s, me, b))
    && (forall b: Block :: b != me ==> t.pcb[b].retValue == s.pcb[b].retValue && t.pcb[b].delivered == s.pcb[b].delivered)
    && t.waiting == s.waiting && t.zombie == s.zombie + [me] && t.free == s.free && t.reaps == s.reaps
  }

  /** The fields of the others that no exit touches. */
  ghost predicate OthersStand(s: State, t: State, me: Block) {
    && (forall b: Block :: t.pcb[b].pid == s.pcb[b].pid && t.pcb[b].parent == s.pcb[b].parent)
    && (forall b: Block :: b != me ==>
          t.pcb[b] == s.pcb[b].(status := t.pcb[b].status, children := t.pcb[b].children, retValue := t.pcb[b].retValue, delivered := t.pcb[b].delivered))
    && (forall b: Block :: b != me && t.running != Some(b) ==>
          t.pcb[b].status == s.pcb[b].status && t.pcb[b].retValue == s.pcb[b].retValue && t.pcb[b].delivered == s.pcb[b].delivered)
    && t.time == s.time && t.timers == s.timers && t.births == s.births && t.init == s.init
  }

  lemma {:induction false} ExitAnswers(s: State, me: Block, v: int, t: State)
    requires Inv(s) && s.running == Some(me) && Step(s, Exit(v)) == Next(t)
    ensures me != s.init && t.exits == s.exits[s.pcb[me].pid := v]
    ensures t.pcb[me].status == Zombie && t.pcb[me].returnValue == v
    ensures OthersStand(s, t, me)
    ensures if Awaited(s, me) then ParentTold(s, t, me, s.pcb[me].parent.value, v) else LeftAsZombie(s, t, me)
  {
    var r := Record(s, me, Exit(v));
    StepCases(s, Exit(v));
    RecordKeeps(s, me, Exit(v));
    OwnParent(r, me);
    var par := s.pcb[me].parent.value;
    assert StatusFits(s, par) && StatusFits(s, me);
    PlaceIsUnique(s, me);
    assert TimerFits(r, me);
    NoTimerOf(s.timers, me);
    if Awaited(s, me) {
      var cell := FindByPid(Die(r, me).pcb, Die(r, me).pcb[par].children, r.pcb[me].pid).value;
      CellIsMe(r, me, par, cell);
      LastOut(s.zombie, me);
      ToldAfter(s, r, me, par, v);
      OthersAfter(s, r, me, par, v);
      assert t == HandOver(Die(r, me), me, par, me);
    } else {
      assert StatusFits(s, s.ready[0]);
      PlaceIsUnique(s, s.ready[0]);
      LeftAfter(s, r, me, v, t);
    }
  }

  lemma {:induction false} LastOut(zs: seq<Block>, me: Block)
    requires me !in zs
    ensures Without(zs + [me], me) == zs
  {
    assert (zs + [me])[..|zs|] == zs;
    WithoutAt<Block>(zs + [me], me, |zs|);
  }

  lemma {:induction false} ToldAfter(s: State, r: State, me: Block, par: Block, v: int)
    requires me != s.init && me != par && s.running == Some(me) && r == Record(s, me, Exit(v)) && s.pcb[par].status == Waiting
    requires Without(s.zombie + [me], me) == s.zombie && TimersWithout(s.timers, me) == s.timers
    ensures var t := HandOver(Die(r, me), me, par, me);
      && t.exits == s.exits[s.pcb[me].pid := v] && t.pcb[me].status == Zombie && t.pcb[me].returnValue == v
      && ParentTold(s, t, me, par, v)
  {
  }

  lemma {:induction false} OthersAfter(s: State, r: State, me: Block, par: Block, v: int)
    requires me != s.init && me != par && r == Record(s, me, Exit(v)) && TimersWithout(s.timers, me) == s.timers
    ensures OthersStand(s, HandOver(Die(r, me), me, par, me), me)
  {
  }

  lemma {:induction false} LeftAfter(s: State, r: State, me: Block, v: int, t: State)
    requires me != s.init && s.running == Some(me) && r == Record(s, me, Exit(v)) && ExitStep(r, me) == Next(t)
    requires s.ready != [] && s.ready[0] != me && s.pcb[me].parent.Some? && s.pcb[me].parent != Some(me)
    requires !WaitsFor(s.pcb[s.pcb[me].parent.value], s.pcb[me].pid)
    ensures t.exits == s.exits[s.pcb[me].pid := v] && t.pcb[me].status == Zombie && t.pcb[me].returnValue == v
    ensures OthersStand(s, t, me) && LeftAsZombie(s, t, me)
  {
  }

  // ----- sleep -----

  ghost predicate SleepDone(s: State, t: State, me: Block) {
    && t.waiting == s.waiting + [me] && t.pcb[me].status == Waiting
    && (if s.ready == [] then t.running == None && t.ready == [] else t.running == Some(s.ready[0]) && t.ready == s.ready[1..])
    && (forall b: Block :: b != me ==> t.pcb[b] == s.pcb[b])
    && t.pcb[me].retValue == s.pcb[me].retValue && t.pcb[me].children == s.pcb[me].children
    && t.zombie == s.zombie && t.free == s.free && t.time == s.time
    && t.exits == s.exits && t.reaps == s.reaps && t.births == s.births
  }

  /** The caller waits behind all others that wait, with a timer for `cycles` from now; the ready head runs, if any. */
  lemma {:induction false} SleepAnswers(s: State, me: Block, cycles: int, t: State)
    requires Inv(s) && s.running == Some(me) && Step(s, Sleep(cycles)) == Next(t)
    ensures SleepDone(s, t, me) && t.pcb[me].syscallNum == 6
    ensures multiset(t.timers) == multiset(s.timers) + multiset{TimerItem(s.time + cycles, me, s.sleeps)} && t.sleeps == s.sleeps + 1
  {
    var r := Record(s, me, Sleep(cycles));
    StepCases(s, Sleep(cycles));
    RecordKeeps(s, me, Sleep(cycles));
    SleepTimes.Conservation(r);
    SleepTimes.TimersWithinWaiting(r);
    assert StatusFits(r, me);
    SleepAfter(s, r, me, cycles, t);
    AddTimerMembers(s.timers, TimerItem(s.time + cycles, me, s.sleeps));
  }

  lemma {:induction false} SleepAfter(s: State, r: State, me: Block, cycles: int, t: State)
    requires s.running == Some(me) && r == Record(s, me, Sleep(cycles)) && SleepStep(r, me) == Next(t)
    requires s.pcb[me].timer == None && |s.timers| < MAX_NUM_PROCESSES
    ensures SleepDone(s, t, me) && t.timers == AddTimer(s.timers, TimerItem(s.time + cycles, me, s.sleeps))
    ensures t.sleeps == s.sleeps + 1 && t.pcb[me].syscallNum == 6
  {
  }

  // ----- preemption and clock -----

  /** The queue after waking is `due` and then the old ready list; its head runs, and `me` goes to its tail. */
  ghost predicate Switched(s: State, t: State, me: Block, due: seq<Block>) {
    var queue := due + s.ready;
    && (if queue == [] then t.running == Some(me) && t.ready == [] && t.pcb[me].status == s.pcb[me].status
        else t.running == Some(queue[0]) && t.ready == queue[1..] + [me]
             && t.pcb[me].status == Ready && t.pcb[queue[0]].status == Running)
    && (forall b: Block :: b in due && t.running != Some(b) ==> t.pcb[b].status == Ready)
    && (forall b: Block :: b != me && b !in due && t.running != Some(b) ==> t.pcb[b].status == s.pcb[b].status)
    && (forall b: Block :: b != me ==> t.pcb[b] == s.pcb[b].(status := t.pcb[b].status, timer := None))
    && t.pcb[me].retValue == s.pcb[me].retValue && t.pcb[me].delivered == s.pcb[me].delivered && SameKin(s.pcb[me], t.pcb[me])
    && (forall b: Block :: b in t.waiting <==> b in s.waiting && b !in due)
    && t.zombie == s.zombie && t.free == s.free && t.exits == s.exits && t.reaps == s.reaps && t.births == s.births
  }

  /** The first `k` timers are the due ones, and are gone. */
  ghost predicate SwitchedAt(s: State, t: State, me: Block, k: nat) {
    && k <= |s.timers| && t.timers == s.timers[k..]
    && (forall i :: 0 <= i < |s.timers| ==> (i < k <==> s.timers[i].wakeTime <= t.time))
    && Switched(s, t, me, Owners(s.timers[..k]))
  }

  lemma {:induction false} SwitchAnswers(s: State, c: Call, me: Block, t: State)
    requires Inv(s) && s.running == Some(me) && (c.Tick? || c.Preempt?) && Step(s, c) == Next(t)
    ensures t.time == s.time + if c.Tick? then 1 else 0
    ensures exists k: nat :: SwitchedAt(s, t, me, k)
    ensures c.Preempt? ==> t.pcb[me].syscallNum == 1
  {
    StepCases(s, c);
    if c.Tick? {
      TickKeeps(s);
      SwitchedFrom(s, s.(time := s.time + 1), me, t);
    } else {
      RecordKeeps(s, me, c);
      SwitchedFrom(s, Record(s, me, c), me, t);
    }
  }

  lemma {:induction false} SwitchedFrom(s: State, u: State, me: Block, t: State)
    requires Inv(u) && u.running == Some(me) && t == Schedule(u, me)
    requires u == s.(pcb := u.pcb, time := u.time) && (forall b: Block :: SameBut(s.pcb[b], u.pcb[b], b == me))
    ensures t.time == u.time && t.pcb[me].syscallNum == u.pcb[me].syscallNum
    ensures exists k: nat :: SwitchedAt(s, t, me, k)
  {
    var k := DueCount(u.timers, u.time);
    forall i | k <= i < |u.timers| ensures u.timers[i].wakeTime > u.time {
      RestInFuture(u.timers, u.time, i);
    }
    SwitchedAfter(s, u, me, k);
    assert SwitchedAt(s, t, me, k);
  }

  lemma {:induction false} SwitchedAfter(s: State, u: State, me: Block, k: nat)
    requires Inv(u) && u.running == Some(me) && k == DueCount(u.timers, u.time)
    requires u == s.(pcb := u.pcb, time := u.time) && (forall b: Block :: SameBut(s.pcb[b], u.pcb[b], b == me))
    ensures Switched(s, Schedule(u, me), me, Owners(s.timers[..k]))
  {
    var due := Owners(s.timers[..k]);
    PlaceIsUnique(u, me);
    forall b: Block ensures b in WakeDue(u).waiting <==> b in s.waiting && b !in due {
      KeepCount(s.waiting, due, b);
    }
    forall b: Block ensures u.pcb[b].timer == None && (b in due ==> b in u.waiting) {
      assert StatusFits(u, b);
      DueAreSleepers(u, b);
    }
    if s.ready != [] {
      PlaceIsUnique(u, s.ready[0]);
    }
    var w := WakeDue(u);
    assert w.ready == due + s.ready;
    forall b: Block ensures SameBut(s.pcb[b].(status := w.pcb[b].status, timer := w.pcb[b].timer), w.pcb[b], b == me) {
    }
    RotatedAfter(s, w, me, due);
  }

  ghost predicate SameBut(p: Pcb, q: Pcb, registers: bool) {
    p == if registers then q.(syscallNum := p.syscallNum, arg0 := p.arg0, arg1 := p.arg1) else q
  }

  lemma {:induction false} RotatedAfter(s: State, w: State, me: Block, due: seq<Block>)
    requires w.running == Some(me) && w.ready == due + s.ready && me !in due && me !in s.ready
    requires forall b: Block :: SameBut(s.pcb[b].(status := w.pcb[b].status, timer := w.pcb[b].timer), w.pcb[b], b == me)
    requires forall b: Block :: w.pcb[b].timer == None && w.pcb[b].status == if b in due then Ready else s.pcb[b].status
    requires forall b: Block :: b in w.waiting <==> b in s.waiting && b !in due
    requires w.zombie == s.zombie && w.free == s.free && w.exits == s.exits && w.reaps == s.reaps && w.births == s.births
    ensures Switched(s, Rotate(w, me), me, due)
  {
    if w.ready != [] {
      assert w.ready[0] in w.ready;
    }
  }
}
