/** The states that the wake loop of `internal_schedule` goes through, one woken sleeper at a time. */
module WakeTraces {
  import opened Sequences
  import opened Processes
  import opened Syscalls
  import opened Invariants
  import SleepTimes

  lemma {:induction false} DueCountIs(ts: seq<TimerItem>, now: int, k: nat)
    requires k <= |ts| && (forall i :: 0 <= i < k ==> ts[i].wakeTime <= now)
    requires k < |ts| ==> ts[k].wakeTime > now
    ensures DueCount(ts, now) == k
  {
    if k > 0 {
      DueCountIs(ts[1..], now, k - 1);
    }
  }

  /** `v` is `w` with the owner of the first timer ready, moved behind `prev` in the ready list, and its timer gone. */
  ghost predicate OneTurn(w: State, prev: Option<Block>, v: State) {
    && w.timers != [] && w.timers[0].pcb in w.waiting && (prev.Some? ==> prev.value in w.ready)
    && v.timers == w.timers[1..]
    && v.waiting == Without(w.waiting, w.timers[0].pcb)
    && v.ready == InsertAfter(w.ready, prev, w.timers[0].pcb)
    && v.pcb == w.pcb[w.timers[0].pcb := w.pcb[w.timers[0].pcb].(status := Ready, timer := None)]
  }

  /** The process that the turn before the `k`-th one woke. */
  ghost function WokenBefore(at: seq<State>, k: nat): Option<Block>
    requires k <= |at|
  {
    if k == 0 || at[k - 1].timers == [] then None else Some(at[k - 1].timers[0].pcb)
  }

  /** `at` are the states before and after each turn: the loop goes on as long as the first timer is due. */
  ghost predicate WakeTrace(at: seq<State>, now: int) {
    && at != []
    && (forall k :: 0 <= k < |at| - 1 ==> OneTurn(at[k], WokenBefore(at, k), at[k + 1]) && at[k].timers[0].wakeTime <= now)
    && (at[|at| - 1].timers != [] ==> at[|at| - 1].timers[0].wakeTime > now)
  }

  lemma {:induction false} TraceGoesOn(at: seq<State>, now: int, k: nat)
    requires WakeTrace(at, now) && k < |at|
    ensures k + 1 < |at| <==> at[k].timers != [] && at[k].timers[0].wakeTime <= now
    ensures k + 1 < |at| ==> OneTurn(at[k], WokenBefore(at, k), at[k + 1]) && WokenBefore(at, k + 1) == Some(at[k].timers[0].pcb)
  {
    if k + 1 < |at| {
      assert OneTurn(at[k], WokenBefore(at, k), at[k + 1]);
    }
  }

  /** The state after `k` turns of the wake loop. */
  ghost function Woken(s: State, k: nat): State
    requires k <= |s.timers|
  {
    var due := Owners(s.timers[..k]);
    s.(timers := s.timers[k..], waiting := Keep(s.waiting, due), ready := due + s.ready, pcb := WakeUp(s.pcb, due))
  }

  lemma {:induction false} NothingWoken(s: State)
    ensures Woken(s, 0) == s
  {
    KeepAll(s.waiting);
    assert Owners(s.timers[..0]) == [];
    assert WakeUp(s.pcb, []) == s.pcb;
  }

  lemma {:induction false} AllWoken(s: State, k: nat)
    requires k <= |s.timers| && (forall i :: 0 <= i < k ==> s.timers[i].wakeTime <= s.time)
    requires k < |s.timers| ==> s.timers[k].wakeTime > s.time
    ensures Woken(s, k) == WakeDue(s)
  {
    DueCountIs(s.timers, s.time, k);
  }

  lemma {:induction false} WakeUpOne(pcb: PcbTable, due: seq<Block>, b: Block)
    ensures WakeUp(pcb, due)[b := WakeUp(pcb, due)[b].(status := Ready, timer := None)] == WakeUp(pcb, due + [b])
  {
  }

  lemma {:induction false} InsertWoken(s: State, k: nat)
    requires Inv(s) && k < |s.timers|
    ensures InsertAfter(Owners(s.timers[..k]) + s.ready, LastWoken(s, k), s.timers[k].pcb)
         == Owners(s.timers[..k]) + [s.timers[k].pcb] + s.ready
  {
    var due, b := Owners(s.timers[..k]), s.timers[k].pcb;
    if k > 0 {
      OwnersDistinct(s, k - 1);
      assert (due + s.ready)[..k - 1] == Owners(s.timers[..k - 1]);
      assert (due + s.ready)[k - 1] == s.timers[k - 1].pcb;
      InsertAfterAt<Block>(due + s.ready, k - 1, b);
      assert (due + s.ready)[..k] == due && (due + s.ready)[k..] == s.ready;
    }
  }

  /** The process woken last after `k` turns. */
  ghost function LastWoken(s: State, k: nat): Option<Block>
    requires k <= |s.timers|
  {
    if k == 0 then None else Some(s.timers[k - 1].pcb)
  }

  /** The owners of the first `k` timers are distinct sleepers, so none is in the ready list. */
  lemma {:induction false} OwnersDistinct(s: State, k: nat)
    requires Inv(s) && k < |s.timers|
    ensures s.timers[k].pcb !in Owners(s.timers[..k])
    ensures s.timers[k].pcb in s.waiting && multiset(s.waiting)[s.timers[k].pcb] == 1
  {
    var b := s.timers[k].pcb;
    assert SleepTimes.HasTimer(s, b, s.timers[k].wakeTime);
    SleepTimes.TimerUnique(s, b, s.timers[k].wakeTime);
    assert TimerFits(s, b);
    if b in Owners(s.timers[..k]) {
      var i :| 0 <= i < k && Owners(s.timers[..k])[i] == b;
      SleepTimes.TwiceCounts(Owners(s.timers), i, k);
    }
    assert Places(s, b) == 1;
    assert b in multiset(s.waiting);
  }

  lemma {:induction false} TurnOfTrace(s: State, k: nat)
    requires Inv(s) && k < |s.timers|
    ensures OneTurn(Woken(s, k), LastWoken(s, k), Woken(s, k + 1))
    ensures Woken(s, k).timers[0] == s.timers[k]
  {
    var due, b := Owners(s.timers[..k]), s.timers[k].pcb;
    assert Owners(s.timers[..k + 1]) == due + [b];
    OwnersDistinct(s, k);
    KeepThenWithout(s.waiting, due, b);
    KeepCount(s.waiting, due, b);
    assert b in multiset(Keep(s.waiting, due));
    WakeUpOne(s.pcb, due, b);
    InsertWoken(s, k);
    if k > 0 {
      assert due[k - 1] == s.timers[k - 1].pcb;
    }
  }

  lemma {:induction false} TraceTurn(s: State, at: seq<State>, k: nat)
    requires Inv(s) && k + 1 < |at| <= |s.timers| + 1 && (forall i :: 0 <= i < |at| ==> at[i] == Woken(s, i))
    ensures OneTurn(at[k], WokenBefore(at, k), at[k + 1]) && at[k].timers[0] == s.timers[k]
  {
    TurnOfTrace(s, k);
  }

  /** The wake loop that begins in `s` ends in `WakeDue(s)`. */
  lemma {:induction false} ScheduleTrace(s: State) returns (at: seq<State>)
    requires Inv(s)
    ensures WakeTrace(at, s.time) && at[0] == s && at[|at| - 1] == WakeDue(s)
  {
    var n := DueCount(s.timers, s.time);
    at := seq(n + 1, i requires 0 <= i <= n => Woken(s, i));
    NothingWoken(s);
    AllWoken(s, n);
    forall k | 0 <= k < n ensures OneTurn(at[k], WokenBefore(at, k), at[k + 1]) && at[k].timers[0].wakeTime <= s.time {
      TraceTurn(s, at, k);
    }
  }
}
