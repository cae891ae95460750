/** Steps that only move processes between running, ready and waiting keep the invariant. */
module Scheduling {
  import opened Sequences
  import opened Processes
  import opened Syscalls
  import opened Invariants

  // ----- the part about parents, children and pids is untouched by scheduling -----

  ghost predicate SameKin(p: Pcb, q: Pcb) {
    p.pid == q.pid && p.children == q.children && p.parent == q.parent && p.returnValue == q.returnValue
  }

  ghost predicate SameFamily(s: State, t: State) {
    && t == s.(pcb := t.pcb, running := t.running, ready := t.ready, waiting := t.waiting,
               timers := t.timers, time := t.time, sleeps := t.sleeps)
    && (forall b: Block :: SameKin(s.pcb[b], t.pcb[b]))
  }

  lemma {:induction false} SameFamilyTree(s: State, t: State)
    requires Tree(s) && SameFamily(s, t)
    ensures Tree(t)
  {
    assert SameKin(s.pcb[s.init], t.pcb[s.init]);
    forall b: Block, c: Block | ChildOf(t, c, b) ensures KidFits(t, c, b) {
      assert SameKin(s.pcb[b], t.pcb[b]) && SameKin(s.pcb[c], t.pcb[c]);
      assert ChildOf(s, c, b);
      assert KidFits(s, c, b);
    }
    forall c: Block ensures Hangs(t, c) {
      assert SameKin(s.pcb[c], t.pcb[c]);
      assert Hangs(s, c);
      if c !in s.free && c != s.init {
        var p := s.pcb[c].parent.value;
        assert SameKin(s.pcb[p], t.pcb[p]);
      }
    }
  }

  lemma {:induction false} SameFamilyLedger(s: State, t: State)
    requires Ledger(s) && SameFamily(s, t)
    ensures Ledger(t)
  {
    forall b: Block ensures PidFits(t, b) {
      assert SameKin(s.pcb[b], t.pcb[b]);
      assert PidFits(s, b);
    }
    forall pid ensures FateFits(t, pid) {
      assert FateFits(s, pid);
      if 0 <= pid < |s.births| {
        var b := s.births[pid].block;
        assert SameKin(s.pcb[b], t.pcb[b]);
        assert Reaped(t, pid) <==> Reaped(s, pid);
      }
    }
    forall r | r in t.reaps ensures ReapFits(t, r) {
      assert ReapFits(s, r);
    }
  }

  lemma {:induction false} PlaceIsUnique(s: State, b: Block)
    requires Partition(s)
    ensures s.running == Some(b) ==> b !in s.ready && b !in s.waiting && b !in s.zombie && b !in s.free
    ensures b in s.ready ==> b !in s.waiting && b !in s.zombie && b !in s.free
    ensures b in s.waiting ==> b !in s.zombie && b !in s.free
    ensures b in s.zombie ==> b !in s.free
    ensures s.running == Some(b) || b in s.ready || b in s.waiting || b in s.zombie || b in s.free
  {
    assert Places(s, b) == 1;
  }

  /** Only registers of the running process, or the clock, change. */
  ghost predicate RegistersOnly(s: State, t: State) {
    && t == s.(pcb := t.pcb, time := t.time)
    && SameFamily(s, t)
    && (forall b: Block :: t.pcb[b].status == s.pcb[b].status && t.pcb[b].timer == s.pcb[b].timer)
    && (forall b: Block :: s.running != Some(b) ==> s.pcb[b] == t.pcb[b])
  }

  lemma {:induction false} RegistersKeep(s: State, t: State)
    requires Inv(s) && RegistersOnly(s, t)
    ensures Inv(t)
  {
    SameFamilyTree(s, t);
    SameFamilyLedger(s, t);
    forall b: Block ensures Places(t, b) == 1 && StatusFits(t, b) && TimerFits(t, b) {
      assert Places(s, b) == 1;
      assert StatusFits(s, b) && TimerFits(s, b);
      PlaceIsUnique(s, b);
    }
  }

  lemma {:induction false} RecordKeeps(s: State, me: Block, c: Call)
    requires Inv(s) && s.running == Some(me) && !c.Tick?
    ensures Inv(Record(s, me, c))
  {
    RegistersKeep(s, Record(s, me, c));
  }

  lemma {:induction false} TickKeeps(s: State)
    requires Inv(s)
    ensures Inv(s.(time := s.time + 1))
  {
    RegistersKeep(s, s.(time := s.time + 1));
  }

  // ----- waking the due sleepers -----

  /** The owners of the due timers are sleepers, each once. */
  lemma {:induction false} DueAreSleepers(s: State, b: Block)
    requires Timers(s)
    ensures var k := DueCount(s.timers, s.time);
      && multiset(Owners(s.timers[..k]))[b] + Owned(s.timers[k..], b) == (if Sleeping(s, b) then 1 else 0)
      && (b in Owners(s.timers[..k]) <==> multiset(Owners(s.timers[..k]))[b] == 1)
      && (b in Owners(s.timers[..k]) ==> Sleeping(s, b))
  {
    var k := DueCount(s.timers, s.time);
    OwnedSplit(s.timers, k, b);
    assert TimerFits(s, b);
    assert b in Owners(s.timers[..k]) <==> b in multiset(Owners(s.timers[..k]));
  }

  lemma {:induction false} WakeDueKeeps(s: State)
    requires Inv(s)
    ensures Inv(WakeDue(s))
  {
    var t := WakeDue(s);
    SameFamilyTree(s, t);
    SameFamilyLedger(s, t);
    forall b: Block ensures Places(t, b) == 1 && StatusFits(t, b) && TimerFits(t, b) {
      WakeDuePlace(s, b);
    }
  }

  lemma {:induction false} WakeDuePlace(s: State, b: Block)
    requires Inv(s)
    ensures var t := WakeDue(s); Places(t, b) == 1 && StatusFits(t, b) && TimerFits(t, b)
  {
    DueAreSleepers(s, b);
    assert Places(s, b) == 1;
    assert StatusFits(s, b) && TimerFits(s, b);
    PlaceIsUnique(s, b);
    var t := WakeDue(s);
    var due := Owners(s.timers[..DueCount(s.timers, s.time)]);
    assert multiset(t.ready) == multiset(due) + multiset(s.ready);
    assert b in t.ready <==> b in due || b in s.ready;
    KeepCount(s.waiting, due, b);
  }

  // ----- round robin, and blocking -----

  lemma {:induction false} RotateKeeps(s: State, me: Block)
    requires Inv(s) && s.running == Some(me)
    ensures Inv(Rotate(s, me))
  {
    if s.ready != [] {
      var t := Rotate(s, me);
      HeadCount(s.ready);
      SameFamilyTree(s, t);
      SameFamilyLedger(s, t);
      forall b: Block ensures Places(t, b) == 1 && StatusFits(t, b) && TimerFits(t, b) {
        assert Places(s, b) == 1;
        assert StatusFits(s, b) && TimerFits(s, b);
        PlaceIsUnique(s, b);
        PlaceIsUnique(s, s.ready[0]);
        assert b in s.ready <==> b == s.ready[0] || b in s.ready[1..];
        assert b in s.ready[1..] ==> b in multiset(s.ready[1..]);
      }
    }
  }

  lemma {:induction false} ScheduleKeeps(s: State, me: Block)
    requires Inv(s) && s.running == Some(me)
    ensures Inv(Schedule(s, me))
  {
    WakeDueKeeps(s);
    RotateKeeps(WakeDue(s), me);
  }

  /** The running process goes to the waiting tail, with its own timer or with none. */
  ghost predicate Blocks(s: State, t: State, me: Block) {
    && t == s.(pcb := s.pcb[me := s.pcb[me].(status := Waiting)], waiting := s.waiting + [me],
               timers := t.timers, sleeps := t.sleeps, running := t.running, ready := t.ready)
    && (if s.ready == [] then t.running == None && t.ready == []
        else t.running == Some(s.ready[0]) && t.ready == s.ready[1..])
    && (if s.pcb[me].syscallNum == DSOS_CALL_SLEEP
        then t.timers == AddTimer(s.timers, TimerItem(s.time + s.pcb[me].arg0, me, s.sleeps)) && t.sleeps == s.sleeps + 1
        else t.timers == s.timers && t.sleeps == s.sleeps)
  }

  lemma {:induction false} BlocksKeeps(s: State, t: State, me: Block)
    requires Inv(s) && s.running == Some(me) && Blocks(s, t, me)
    requires s.pcb[me].syscallNum in {DSOS_CALL_SLEEP, DSOS_CALL_WAIT}
    ensures Inv(t)
  {
    SameFamilyTree(s, t);
    SameFamilyLedger(s, t);
    if s.pcb[me].syscallNum == DSOS_CALL_SLEEP {
      AddTimerOrdered(s.timers, TimerItem(s.time + s.pcb[me].arg0, me, s.sleeps));
      NewStamps(s.timers, TimerItem(s.time + s.pcb[me].arg0, me, s.sleeps));
    }
    forall b: Block ensures Places(t, b) == 1 && StatusFits(t, b) && TimerFits(t, b) {
      BlocksPlace(s, t, me, b);
    }
  }

  lemma {:induction false} NewStamps(ts: seq<TimerItem>, x: TimerItem)
    requires forall i :: 0 <= i < |ts| ==> ts[i].stamp < x.stamp
    ensures var r := AddTimer(ts, x); forall i :: 0 <= i < |r| ==> r[i].stamp < x.stamp + 1
  {
    var r := AddTimer(ts, x);
    AddTimerMembers(ts, x);
    forall i | 0 <= i < |r| ensures r[i].stamp < x.stamp + 1 {
      assert r[i] in multiset(r);
      assert r[i] == x || r[i] in ts;
    }
  }

  lemma {:induction false} BlocksPlace(s: State, t: State, me: Block, b: Block)
    requires Inv(s) && s.running == Some(me) && Blocks(s, t, me)
    requires s.pcb[me].syscallNum in {DSOS_CALL_SLEEP, DSOS_CALL_WAIT}
    ensures Places(t, b) == 1 && StatusFits(t, b) && TimerFits(t, b)
  {
    assert Places(s, b) == 1;
    assert StatusFits(s, b) && TimerFits(s, b);
    PlaceIsUnique(s, b);
    if s.ready != [] {
      HeadCount(s.ready);
      PlaceIsUnique(s, s.ready[0]);
      assert b in s.ready <==> b == s.ready[0] || b in s.ready[1..];
      assert StatusFits(s, s.ready[0]);
    }
    AddTimerOwned(s.timers, TimerItem(s.time + s.pcb[me].arg0, me, s.sleeps), b);
  }
}
