/** Capacity of the pools and the exact moment a sleeper is woken. */
module SleepTimes {
  import opened Sequences
  import opened Processes
  import opened Syscalls
  import opened Invariants
  import opened Scheduling
  import opened Fairness
  import Reachability

  // ----- capacity -----

  ghost function AllBlocks(n: nat): seq<Block>
    requires n <= MAX_NUM_PROCESSES
  {
    seq(n, i requires 0 <= i < n => i as Block)
  }

  lemma {:induction false} AllBlocksCount(n: nat, b: Block)
    requires n <= MAX_NUM_PROCESSES
    ensures multiset(AllBlocks(n))[b] == if b < n then 1 else 0
  {
    if n > 0 {
      assert AllBlocks(n) == AllBlocks(n - 1) + [n - 1];
      AllBlocksCount(n - 1, b);
    }
  }

  ghost function Everyone(s: State): multiset<Block> {
    (if s.running.Some? then multiset{s.running.value} else multiset{})
    + multiset(s.ready) + multiset(s.waiting) + multiset(s.zombie) + multiset(s.free)
  }

  /** Conservation: no block is ever lost or doubled. */
  lemma {:induction false} Conservation(s: State)
    requires Inv(s)
    ensures (if s.running.Some? then 1 else 0) + |s.ready| + |s.waiting| + |s.zombie| + |s.free| == MAX_NUM_PROCESSES
  {
    forall b: Block ensures Everyone(s)[b] == multiset(AllBlocks(MAX_NUM_PROCESSES))[b] {
      assert Places(s, b) == 1;
      AllBlocksCount(MAX_NUM_PROCESSES, b);
    }
    assert Everyone(s) == multiset(AllBlocks(MAX_NUM_PROCESSES));
  }

  /** There are never more timers than waiting processes. */
  lemma {:induction false} TimersWithinWaiting(s: State)
    requires Inv(s)
    ensures |s.timers| <= |s.waiting|
  {
    var owners: multiset<Block> := multiset(Owners(s.timers));
    forall b: Block ensures owners[b] <= multiset(s.waiting)[b] {
      assert TimerFits(s, b);
      assert Places(s, b) == 1;
      assert b in s.waiting <==> b in multiset(s.waiting);
    }
    assert owners <= multiset(s.waiting);
    var rest: multiset<Block> := multiset(s.waiting) - owners;
    assert multiset(s.waiting) == owners + rest;
  }

  /** Neither error path of sleep is ever taken: the caller has no timer and the timer pool has a free block. */
  lemma {:induction false} SleepNeverFails(s: State, me: Block, cycles: int)
    requires Inv(s) && s.running == Some(me)
    ensures Step(s, Sleep(cycles)).Next?
    ensures var t := Step(s, Sleep(cycles)).state;
      me in t.waiting && HasTimer(t, me, s.time + cycles) && t.pcb[me].retValue == s.pcb[me].retValue
  {
    var r := Record(s, me, Sleep(cycles));
    RecordKeeps(s, me, Sleep(cycles));
    Conservation(r);
    TimersWithinWaiting(r);
    assert StatusFits(r, me);
    var x := TimerItem(s.time + cycles, me, s.sleeps);
    var k := DueCount(r.timers, x.wakeTime);
    assert AddTimer(r.timers, x)[k] == x;
  }

  /** The timer cleanup loop of exit finds nothing to remove. */
  lemma {:induction false} ExitFindsNoTimer(s: State, me: Block)
    requires Inv(s) && s.running == Some(me)
    ensures TimersWithout(s.timers, me) == s.timers
  {
    assert TimerFits(s, me);
    PlaceIsUnique(s, me);
    Reachability.NoTimerOf(s.timers, me);
  }

  /** With the pool size as the bound: nobody waits in the ready list for `MAX_NUM_PROCESSES` schedules. */
  lemma {:induction false} BoundedByPool(s: State, cs: seq<Call>, p: Block)
    requires Inv(s) && p in s.ready && Run(s, cs).Next? && Schedules(cs) >= MAX_NUM_PROCESSES - 1
    requires s.running.Some?
    ensures exists n :: 0 <= n <= |cs| && RunsAt(s, cs, p, n) && Schedules(cs[..n]) <= MAX_NUM_PROCESSES - 1
  {
    Conservation(s);
    TimersWithinWaiting(s);
    BoundedWaiting(s, cs, p);
    var n :| 0 <= n <= |cs| && RunsAt(s, cs, p, n) && Schedules(cs[..n]) <= Rank(s, p) + 1;
  }

  // ----- wake time -----

  ghost predicate HasTimer(s: State, b: Block, w: int) {
    exists i :: 0 <= i < |s.timers| && s.timers[i].pcb == b && s.timers[i].wakeTime == w
  }

  /** A timer makes its owner a sleeper, and there is only one. */
  lemma {:induction false} TimerUnique(s: State, b: Block, w: int)
    requires Inv(s) && HasTimer(s, b, w)
    ensures Sleeping(s, b)
    ensures forall v :: HasTimer(s, b, v) ==> v == w
  {
    var i :| 0 <= i < |s.timers| && s.timers[i].pcb == b && s.timers[i].wakeTime == w;
    assert TimerFits(s, b);
    assert Owners(s.timers)[i] == b;
    assert b in multiset(Owners(s.timers));
    forall v | HasTimer(s, b, v) ensures v == w {
      var j :| 0 <= j < |s.timers| && s.timers[j].pcb == b && s.timers[j].wakeTime == v;
      if i != j {
        TwiceCounts(Owners(s.timers), if i < j then i else j, if i < j then j else i);
      }
    }
  }

  lemma {:induction false} TwiceCounts(s: seq<Block>, i: nat, j: nat)
    requires i < j < |s| && s[i] == s[j]
    ensures multiset(s)[s[i]] >= 2
  {
    assert s == s[..j] + s[j..];
    assert s[i] in s[..j] && s[j] in s[j..];
    assert s[i] in multiset(s[..j]) && s[j] in multiset(s[j..]);
  }

  /** Waking takes exactly the timers that are due, and leaves only future ones. */
  lemma {:induction false} WakeDueTimer(s: State, b: Block, w: int)
    requires Inv(s) && HasTimer(s, b, w)
    ensures var t := WakeDue(s);
      if w <= s.time then b !in t.waiting && b in t.ready else b in t.waiting && HasTimer(t, b, w)
  {
    var k := DueCount(s.timers, s.time);
    var i :| 0 <= i < |s.timers| && s.timers[i].pcb == b && s.timers[i].wakeTime == w;
    TimerUnique(s, b, w);
    if i < k {
      assert Owners(s.timers[..k])[i] == b;
      KeepCount(s.waiting, Owners(s.timers[..k]), b);
    } else {
      RestInFuture(s.timers, s.time, i);
      assert s.timers[k..][i - k] == s.timers[i];
      assert HasTimer(WakeDue(s), b, w);
      WakeDueKeeps(s);
      TimerUnique(WakeDue(s), b, w);
    }
  }

  /** After a schedule every timer that is left lies strictly in the future. */
  lemma {:induction false} ScheduleLeavesFuture(s: State, me: Block, i: nat)
    requires Inv(s) && s.running == Some(me) && i < |Schedule(s, me).timers|
    ensures Schedule(s, me).timers[i].wakeTime > s.time
  {
    RestInFuture(s.timers, s.time, DueCount(s.timers, s.time) + i);
  }

  lemma {:induction false} ScheduleTimer(s: State, me: Block, b: Block, w: int)
    requires Inv(s) && s.running == Some(me) && HasTimer(s, b, w)
    ensures var t := Schedule(s, me);
      if w <= s.time then b !in t.waiting && (b in t.ready || t.running == Some(b)) else b in t.waiting && HasTimer(t, b, w)
  {
    WakeDueTimer(s, b, w);
  }

  lemma {:induction false} AddTimerKeeps(ts: seq<TimerItem>, x: TimerItem, y: TimerItem)
    requires y in ts
    ensures y in AddTimer(ts, x)
  {
    AddTimerMembers(ts, x);
    assert y in multiset(AddTimer(ts, x));
  }

  /** Outside of a schedule the timer queue stays, or grows by the caller's timer. */
  ghost predicate TimersStay(s: State, me: Block, o: Outcome) {
    o.Next? ==>
      && o.state.time == s.time
      && (o.state.timers == s.timers
          || o.state.timers == AddTimer(s.timers, TimerItem(s.time + s.pcb[me].arg0, me, s.sleeps)))
  }

  lemma {:induction false} HandOverTimers(s: State, me: Block, par: Block, cell: Block)
    requires me != s.init && TimersWithout(s.timers, me) == s.timers
    ensures HandOver(Die(s, me), me, par, cell).timers == s.timers && HandOver(Die(s, me), me, par, cell).time == s.time
  {
  }

  lemma {:induction false} ExitTimers(s: State, me: Block)
    requires TimersWithout(s.timers, me) == s.timers
    ensures TimersStay(s, me, ExitStep(s, me))
  {
    if me != s.init && ExitStep(s, me).Next? {
      var d := Die(s, me);
      var par := d.pcb[me].parent.value;
      if WaitsFor(d.pcb[par], d.pcb[me].pid) {
        HandOverTimers(s, me, par, FindByPid(d.pcb, d.pcb[par].children, d.pcb[me].pid).value);
      } else {
        assert d.timers == s.timers && d.time == s.time;
      }
    }
  }

  lemma {:induction false} SyscallTimers(s: State, me: Block, c: Call)
    requires !IsSchedule(c) && TimersWithout(s.timers, me) == s.timers
    ensures TimersStay(s, me, Handler(s, me, c))
  {
    if c.Exit? {
      ExitTimers(s, me);
    }
  }

  lemma {:induction false} HasTimerStays(s: State, t: State, x: TimerItem, b: Block, w: int)
    requires HasTimer(s, b, w) && (t.timers == s.timers || t.timers == AddTimer(s.timers, x))
    ensures HasTimer(t, b, w)
  {
    var i :| 0 <= i < |s.timers| && s.timers[i].pcb == b && s.timers[i].wakeTime == w;
    AddTimerKeeps(s.timers, x, s.timers[i]);
    assert s.timers[i] in t.timers;
  }

  /** No system call but a schedule takes a sleeper's timer away. */
  lemma {:induction false} SyscallTimer(s: State, me: Block, c: Call, b: Block, w: int)
    requires Inv(s) && s.running == Some(me) && HasTimer(s, b, w)
    requires !IsSchedule(c) && Handler(Record(s, me, c), me, c).Next?
    ensures var t := Handler(Record(s, me, c), me, c).state;
      t.time == s.time && b in t.waiting && HasTimer(t, b, w)
  {
    var r := Record(s, me, c);
    RecordKeeps(s, me, c);
    ExitFindsNoTimer(r, me);
    SyscallTimers(r, me, c);
    var t := Handler(r, me, c).state;
    HasTimerStays(s, t, TimerItem(r.time + r.pcb[me].arg0, me, r.sleeps), b, w);
    Reachability.SyscallKeeps(r, me, c);
    TimerUnique(t, b, w);
  }

  /** A sleeper leaves the waiting list at the first schedule whose clock has reached its wake time, and at no other step. */
  ghost predicate SleeperStep(t: State, b: Block, w: int, c: Call) {
    if IsSchedule(c) && w <= t.time then b !in t.waiting && (b in t.ready || t.running == Some(b))
    else b in t.waiting && HasTimer(t, b, w)
  }

  lemma {:induction false} TickTimer(s: State, me: Block, b: Block, w: int)
    requires Inv(s) && s.running == Some(me) && HasTimer(s, b, w)
    ensures var t := Schedule(s.(time := s.time + 1), me); t.time == s.time + 1 && SleeperStep(t, b, w, Tick)
  {
    var u := s.(time := s.time + 1);
    TickKeeps(s);
    assert HasTimer(u, b, w);
    ScheduleTimer(u, me, b, w);
  }

  lemma {:induction false} PreemptTimer(s: State, me: Block, b: Block, w: int)
    requires Inv(s) && s.running == Some(me) && HasTimer(s, b, w)
    ensures var t := Schedule(Record(s, me, Preempt), me); t.time == s.time && SleeperStep(t, b, w, Preempt)
  {
    var r := Record(s, me, Preempt);
    RecordKeeps(s, me, Preempt);
    assert HasTimer(r, b, w);
    ScheduleTimer(r, me, b, w);
  }

  lemma {:induction false} StepTimer(s: State, c: Call, b: Block, w: int)
    requires Inv(s) && HasTimer(s, b, w) && Step(s, c).Next?
    ensures SleeperStep(Step(s, c).state, b, w, c)
    ensures Step(s, c).state.time == s.time + if c.Tick? then 1 else 0
  {
    var me := s.running.value;
    var t := Step(s, c).state;
    StepCases(s, c);
    match c
    case Tick => TickTimer(s, me, b, w);
    case Preempt => PreemptTimer(s, me, b, w);
    case _ =>
      assert Next(t) == Handler(Record(s, me, c), me, c);
      SyscallTimer(s, me, c, b, w);
  }

  function Ticks(cs: seq<Call>): nat {
    if cs == [] then 0 else (if cs[0].Tick? then 1 else 0) + Ticks(cs[1..])
  }

  /** As long as the clock has not reached the wake time the process sleeps on. */
  lemma {:induction false} SleepsOn(s: State, cs: seq<Call>, b: Block, w: int)
    requires Inv(s) && HasTimer(s, b, w) && s.time + Ticks(cs) < w && Run(s, cs).Next?
    ensures var t := Run(s, cs).state;
      Inv(t) && t.time == s.time + Ticks(cs) && b in t.waiting && HasTimer(t, b, w)
    decreases |cs|
  {
    if cs == [] {
      TimerUnique(s, b, w);
    } else {
      Reachability.StepKeeps(s, cs[0]);
      StepTimer(s, cs[0], b, w);
      SleepsOn(Step(s, cs[0]).state, cs[1..], b, w);
    }
  }

  lemma {:induction false} WakesOnTime(s: State, u: State, me: Block, c: int, cs: seq<Call>)
    requires Inv(u) && HasTimer(u, me, s.time + c) && u.time == s.time
    requires Run(u, cs).Next? && Ticks(cs) < c
    ensures me in Run(u, cs).state.waiting
    ensures Ticks(cs) == c - 1 && Run(u, cs).state.running.Some? ==> WokenByTick(s, Run(u, cs).state, me, c)
  {
    SleepsOn(u, cs, me, s.time + c);
    var t := Run(u, cs).state;
    if Ticks(cs) == c - 1 && t.running.Some? {
      StepTimer(t, Tick, me, s.time + c);
    }
  }

  lemma {:induction false} SleepStarts(s: State, u: State, me: Block, c: int)
    requires Inv(s) && s.running == Some(me) && Step(s, Sleep(c)) == Next(u)
    ensures Inv(u) && HasTimer(u, me, s.time + c) && u.time == s.time
  {
    SleepNeverFails(s, me, c);
    Reachability.StepKeeps(s, Sleep(c));
    assert Step(s, Sleep(c)).state == u;
  }

  /** A process that sleeps `c` >= 1 cycles is waiting in every later state with fewer than `c` ticks,
      and it leaves the waiting list with the `c`-th tick. */
  lemma {:induction false} ExactWake(s: State, u: State, me: Block, c: int, cs: seq<Call>)
    requires Inv(s) && s.running == Some(me) && c >= 1 && Step(s, Sleep(c)) == Next(u)
    requires Run(u, cs).Next? && Ticks(cs) < c
    ensures me in Run(u, cs).state.waiting
    ensures Ticks(cs) == c - 1 && Run(u, cs).state.running.Some? ==> WokenByTick(s, Run(u, cs).state, me, c)
  {
    SleepStarts(s, u, me, c);
    WakesOnTime(s, u, me, c, cs);
  }

  /** The next tick makes the clock read `c` more than it did in `s`, and takes `me` out of the waiting list. */
  ghost predicate WokenByTick(s: State, t: State, me: Block, c: int)
    requires t.running.Some?
  {
    var u := Step(t, Tick).state;
    u.time == s.time + c && me !in u.waiting && (me in u.ready || u.running == Some(me))
  }

  // ----- the order of a wake-up -----

  /** The due timers are exactly those with a wake time that has come, in the order of wake time and then of sleep call;
      their owners go to the front of the ready list in that order, and the others keep their places. */
  lemma {:induction false} WakeOrder(s: State)
    requires Inv(s)
    ensures exists k: nat :: k <= |s.timers| && WokenPrefix(s, WakeDue(s), k)
  {
    var k := DueCount(s.timers, s.time);
    forall i | k <= i < |s.timers| ensures s.timers[i].wakeTime > s.time {
      RestInFuture(s.timers, s.time, i);
    }
    KeepIsSubsequence(s.waiting, Owners(s.timers[..k]));
    assert WokenPrefix(s, WakeDue(s), k);
  }

  ghost predicate WokenPrefix(s: State, t: State, k: nat)
    requires k <= |s.timers|
  {
    && (forall i :: 0 <= i < |s.timers| ==> (i < k <==> s.timers[i].wakeTime <= s.time))
    && (forall i, j :: 0 <= i < j < k ==> Before(s.timers[i], s.timers[j]))
    && t.ready == Owners(s.timers[..k]) + s.ready
    && t.timers == s.timers[k..]
    && Subsequence(t.waiting, s.waiting)
    && (forall b: Block :: b in t.waiting <==> b in s.waiting && b !in Owners(s.timers[..k]))
  }

  /** `a` can be had from `b` by dropping elements. */
  predicate Subsequence<T(==)>(a: seq<T>, b: seq<T>) {
    if a == [] then true
    else if b == [] then false
    else if a[0] == b[0] then Subsequence(a[1..], b[1..])
    else Subsequence(a, b[1..])
  }

  lemma {:induction false} KeepIsSubsequence(s: seq<Block>, gone: seq<Block>)
    ensures Subsequence(Keep(s, gone), s)
    ensures forall b :: b in Keep(s, gone) <==> b in s && b !in gone
  {
    if s != [] {
      KeepIsSubsequence(s[1..], gone);
      if s[0] in gone && Keep(s, gone) != [] {
        assert s[0] != Keep(s, gone)[0];
      }
    }
    forall b ensures b in Keep(s, gone) <==> b in s && b !in gone {
      KeepCount(s, gone, b);
    }
  }
}
