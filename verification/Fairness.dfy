/** Bounded waiting: how long a ready process can be kept from the CPU. */
module Fairness {
  import opened Sequences
  import opened Processes
  import opened Syscalls
  import Invariants
  import Scheduling
  import Reachability

  predicate IsSchedule(c: Call) {
    c.Tick? || c.Preempt?
  }

  function Schedules(cs: seq<Call>): nat {
    if cs == [] then 0 else (if IsSchedule(cs[0]) then 1 else 0) + Schedules(cs[1..])
  }

  /** The first position of `x`. */
  function IndexOf<T(==)>(s: seq<T>, x: T): (k: nat)
    requires x in s
    ensures k < |s| && s[k] == x && x !in s[..k]
  {
    if s[0] == x then 0 else 1 + IndexOf(s[1..], x)
  }

  /** The place in the ready list plus the number of sleepers that may still be woken in front of it. */
  function Rank(s: State, p: Block): nat
    requires p in s.ready
  {
    IndexOf(s.ready, p) + |s.timers|
  }

  lemma {:induction false} IndexIs<T>(s: seq<T>, x: T, k: nat)
    requires k < |s| && s[k] == x && x !in s[..k]
    ensures IndexOf(s, x) == k
  {
    assert forall i :: 0 <= i < k ==> s[i] in s[..k];
    assert forall i :: 0 <= i < IndexOf(s, x) ==> s[i] in s[..IndexOf(s, x)];
  }

  lemma {:induction false} IndexAfter<T>(a: seq<T>, s: seq<T>, x: T)
    requires x !in a && x in s
    ensures IndexOf(a + s, x) == |a| + IndexOf(s, x)
  {
    var k := IndexOf(s, x);
    assert (a + s)[..|a| + k] == a + s[..k];
    IndexIs(a + s, x, |a| + k);
  }

  lemma {:induction false} IndexBefore<T>(s: seq<T>, b: seq<T>, x: T)
    requires x in s
    ensures IndexOf(s + b, x) == IndexOf(s, x)
  {
    var k := IndexOf(s, x);
    assert (s + b)[..k] == s[..k];
    IndexIs(s + b, x, k);
  }

  lemma {:induction false} IndexTail<T>(s: seq<T>, x: T)
    requires x in s && s[0] != x
    ensures x in s[1..] && IndexOf(s[1..], x) == IndexOf(s, x) - 1
  {
  }

  /** Waking sleepers trades timers for places at the front. */
  lemma {:induction false} WakeDueRank(s: State, p: Block)
    requires Invariants.Inv(s) && p in s.ready
    ensures p in WakeDue(s).ready && Rank(WakeDue(s), p) == Rank(s, p)
  {
    Scheduling.DueAreSleepers(s, p);
    Scheduling.PlaceIsUnique(s, p);
    IndexAfter(Owners(s.timers[..DueCount(s.timers, s.time)]), s.ready, p);
  }

  lemma {:induction false} ScheduleRank(s: State, me: Block, p: Block)
    requires Invariants.Inv(s) && s.running == Some(me) && p in s.ready
    ensures var t := Schedule(s, me); t.running == Some(p) || (p in t.ready && Rank(t, p) == Rank(s, p) - 1)
  {
    WakeDueRank(s, p);
    var w := WakeDue(s);
    var t := Schedule(s, me);
    if w.ready[0] != p {
      IndexTail(w.ready, p);
      IndexBefore(w.ready[1..], [me], p);
      assert p in t.ready;
    }
  }

  /** A step that takes the ready head away, leaves the list, or appends to it. */
  lemma {:induction false} HeadOffRank(s: State, t: State, p: Block)
    requires p in s.ready
    requires t.ready == s.ready[1..] && t.running == Some(s.ready[0]) && |t.timers| <= |s.timers| + 1
    ensures t.running == Some(p) || (p in t.ready && Rank(t, p) <= Rank(s, p))
  {
    if s.ready[0] != p {
      IndexTail(s.ready, p);
    }
  }

  lemma {:induction false} FewerTimers(ts: seq<TimerItem>, b: Block)
    ensures |TimersWithout(ts, b)| <= |ts|
  {
    if ts != [] {
      FewerTimers(ts[1..], b);
    }
  }

  lemma {:induction false} SyscallRank(s: State, me: Block, c: Call, p: Block)
    requires s.running == Some(me) && p in s.ready
    requires !c.Tick? && !c.Preempt? && Handler(s, me, c).Next?
    ensures var t := Handler(s, me, c).state; t.running == Some(p) || (p in t.ready && Rank(t, p) <= Rank(s, p))
  {
    var t := Handler(s, me, c).state;
    if t.ready == s.ready {
      FewerTimers(s.timers, me);
    } else if c.Fork? || c.Spawn? {
      IndexBefore(s.ready, [s.free[0]], p);
    } else {
      HeadOffRank(s, t, p);
    }
  }

  /** One step: the process runs, or its rank does not grow; on a schedule it drops by exactly one. */
  lemma {:induction false} StepRank(s: State, c: Call, p: Block)
    requires Invariants.Inv(s) && p in s.ready && Step(s, c).Next?
    ensures var t := Step(s, c).state;
      t.running == Some(p) || (p in t.ready
        && (if IsSchedule(c) then Rank(t, p) == Rank(s, p) - 1 else Rank(t, p) <= Rank(s, p)))
  {
    var me := s.running.value;
    StepCases(s, c);
    if c.Tick? {
      Scheduling.TickKeeps(s);
      ScheduleRank(s.(time := s.time + 1), me, p);
    } else if c.Preempt? {
      Scheduling.RecordKeeps(s, me, c);
      ScheduleRank(Record(s, me, c), me, p);
    } else {
      SyscallRank(Record(s, me, c), me, c, p);
    }
  }

  /** In every run with enough schedules a ready process gets the CPU, within its rank plus one of them. */
  lemma {:induction false} BoundedWaiting(s: State, cs: seq<Call>, p: Block)
    requires Invariants.Inv(s) && p in s.ready && Run(s, cs).Next? && Schedules(cs) > Rank(s, p)
    ensures exists n :: 0 <= n <= |cs| && RunsAt(s, cs, p, n) && Schedules(cs[..n]) <= Rank(s, p) + 1
    decreases |cs|
  {
    var t := Step(s, cs[0]).state;
    Reachability.StepKeeps(s, cs[0]);
    StepRank(s, cs[0], p);
    assert cs[..1] == [cs[0]] && cs[..1][1..] == [];
    if t.running == Some(p) {
      assert Run(s, cs[..1]) == Run(t, []) == Next(t);
      assert RunsAt(s, cs, p, 1);
      assert Schedules(cs[..1]) <= 1;
    } else {
      BoundedWaiting(t, cs[1..], p);
      var m :| 0 <= m <= |cs[1..]| && RunsAt(t, cs[1..], p, m) && Schedules(cs[1..][..m]) <= Rank(t, p) + 1;
      assert cs[..m + 1][1..] == cs[1..][..m];
      assert RunsAt(s, cs, p, m + 1);
    }
  }

  /** `p` is the running process after the first `n` calls. */
  ghost predicate RunsAt(s: State, cs: seq<Call>, p: Block, n: int)
    requires 0 <= n <= |cs|
  {
    var o := Run(s, cs[..n]);
    o.Next? && o.state.running == Some(p)
  }
}
