/** Birth, reaping and death keep the invariant. */
module Family {
  import opened Sequences
  import opened Processes
  import opened Syscalls
  import opened Invariants
  import opened Scheduling

  // ----- fork and spawn -----

  lemma {:induction false} SpawnKeeps(s: State, me: Block)
    requires Inv(s) && s.running == Some(me) && SpawnStep(s, me).Next?
    ensures Inv(SpawnStep(s, me).state)
  {
    var t := SpawnStep(s, me).state;
    HeadCount(s.free);
    forall b: Block ensures Places(t, b) == 1 && StatusFits(t, b) && TimerFits(t, b) {
      SpawnPlace(s, me, b);
    }
    SpawnTree(s, me);
    SpawnLedger(s, me);
  }

  lemma {:induction false} SpawnPlace(s: State, me: Block, b: Block)
    requires Inv(s) && s.running == Some(me) && SpawnStep(s, me).Next?
    ensures var t := SpawnStep(s, me).state; Places(t, b) == 1 && StatusFits(t, b) && TimerFits(t, b)
    ensures var t := SpawnStep(s, me).state; b in t.free <==> b in s.free && b != s.free[0]
  {
    var t := SpawnStep(s, me).state;
    HeadCount(s.free);
    assert Places(s, b) == 1;
    assert StatusFits(s, b) && TimerFits(s, b);
    PlaceIsUnique(s, b);
    PlaceIsUnique(s, s.free[0]);
    assert b in s.free <==> b == s.free[0] || b in s.free[1..];
    assert b in t.free <==> b in multiset(t.free);
  }

  lemma {:induction false} SpawnKid(s: State, me: Block, c: Block, b: Block)
    requires Inv(s) && s.running == Some(me) && SpawnStep(s, me).Next?
    requires ChildOf(SpawnStep(s, me).state, c, b)
    ensures KidFits(SpawnStep(s, me).state, c, b)
  {
    var t := SpawnStep(s, me).state;
    var n := s.free[0];
    SpawnPlace(s, me, c);
    PlaceIsUnique(s, me);
    PlaceIsUnique(s, n);
    assert PidFits(s, me) && Hangs(s, n);
    assert ChildOf(s, n, b) ==> KidFits(s, n, b);
    if ChildOf(s, c, b) {
      assert KidFits(s, c, b);
      assert ChildOf(t, c, s.init) ==> ChildOf(s, c, s.init);
    } else {
      assert b == me && c == n;
      assert ChildOf(s, n, s.init) ==> KidFits(s, n, s.init);
    }
  }

  lemma {:induction false} SpawnHangs(s: State, me: Block, c: Block)
    requires Inv(s) && s.running == Some(me) && SpawnStep(s, me).Next?
    ensures Hangs(SpawnStep(s, me).state, c)
  {
    var t := SpawnStep(s, me).state;
    var n := s.free[0];
    SpawnPlace(s, me, c);
    PlaceIsUnique(s, c);
    PlaceIsUnique(s, me);
    assert Hangs(s, c);
    if c == n {
      assert ChildOf(t, n, me);
    } else if c !in s.free && c != s.init {
      var p := s.pcb[c].parent.value;
      assert Hangs(s, n);
      assert ChildOf(s, c, s.init) ==> ChildOf(t, c, s.init);
      assert ChildOf(s, c, p) ==> ChildOf(t, c, p);
    }
  }

  lemma {:induction false} SpawnTree(s: State, me: Block)
    requires Inv(s) && s.running == Some(me) && SpawnStep(s, me).Next?
    ensures Tree(SpawnStep(s, me).state)
  {
    var t := SpawnStep(s, me).state;
    PlaceIsUnique(s, s.free[0]);
    SpawnPlace(s, me, s.init);
    forall b: Block, c: Block | ChildOf(t, c, b) ensures KidFits(t, c, b) {
      SpawnKid(s, me, c, b);
    }
    forall c: Block ensures Hangs(t, c) {
      SpawnHangs(s, me, c);
    }
  }

  lemma {:induction false} SpawnLedger(s: State, me: Block)
    requires Inv(s) && s.running == Some(me) && SpawnStep(s, me).Next?
    ensures Ledger(SpawnStep(s, me).state)
  {
    var t := SpawnStep(s, me).state;
    var n := s.free[0];
    PlaceIsUnique(s, n);
    forall b: Block ensures PidFits(t, b) {
      SpawnPlace(s, me, b);
      assert PidFits(s, b);
    }
    forall pid ensures FateFits(t, pid) {
      assert FateFits(s, pid);
      assert Reaped(t, pid) <==> Reaped(s, pid);
      assert forall i :: 0 <= i < |s.reaps| ==> ReapFits(s, s.reaps[i]);
      if 0 <= pid < |s.births| {
        var b := s.births[pid].block;
        SpawnPlace(s, me, b);
        assert Holds(s, b, pid) <==> Holds(t, b, pid);
      } else if pid == |s.births| {
        SpawnPlace(s, me, n);
      }
    }
    forall r | r in t.reaps ensures ReapFits(t, r) {
      assert ReapFits(s, r);
    }
  }

  // ----- a zombie is collected by the process whose children list holds it -----

  /** `par` collects its zombie child `c`: the family part of both reaping paths. */
  ghost predicate Collected(s: State, t: State, par: Block, c: Block, path: Path) {
    && t == s.(pcb := t.pcb, running := t.running, waiting := t.waiting, timers := t.timers,
               zombie := Without(s.zombie, c),
               free := [c] + s.free,
               ptrFree := s.ptrFree + if path.WaitPath? then 1 else 0,
               reaps := s.reaps + [Reap(s.pcb[c].pid, s.pcb[c].returnValue, s.pcb[par].pid, path)])
    && (forall b: Block :: SamePerson(s.pcb[b], t.pcb[b]))
    && t.pcb[par].children == Without(s.pcb[par].children, c)
    && (forall b: Block :: b != par ==> t.pcb[b].children == s.pcb[b].children)
  }

  ghost predicate SamePerson(p: Pcb, q: Pcb) {
    p.pid == q.pid && p.parent == q.parent && p.returnValue == q.returnValue
  }

  lemma {:induction false} ZombieTaken(s: State, c: Block, b: Block)
    requires Partition(s) && c in s.zombie
    ensures multiset(Without<Block>(s.zombie, c))[b] == if b == c then 0 else multiset(s.zombie)[b]
    ensures b in Without<Block>(s.zombie, c) <==> b in s.zombie && b != c
  {
    WithoutCount<Block>(s.zombie, c, b);
    assert Places(s, c) == 1;
    assert c in multiset(s.zombie) && (b in s.zombie <==> b in multiset(s.zombie));
  }

  lemma {:induction false} CollectedKid(s: State, t: State, par: Block, c: Block, path: Path, x: Block, b: Block)
    requires Inv(s) && Collected(s, t, par, c, path) && ChildOf(s, c, par) && c in s.zombie
    ensures ChildOf(t, x, b) <==> ChildOf(s, x, b) && x != c
  {
    assert KidFits(s, c, par);
    WithoutCount<Block>(s.pcb[par].children, c, x);
    assert ChildOf(s, x, b) <==> x in multiset(s.pcb[b].children);
    assert ChildOf(s, c, b) ==> KidFits(s, c, b);
  }

  lemma {:induction false} CollectedKidFits(s: State, t: State, par: Block, c: Block, path: Path, x: Block, b: Block)
    requires Inv(s) && Collected(s, t, par, c, path) && ChildOf(s, c, par) && c in s.zombie
    requires ChildOf(t, x, b)
    ensures KidFits(t, x, b)
  {
    CollectedKid(s, t, par, c, path, x, b);
    CollectedKid(s, t, par, c, path, x, s.init);
    WithoutCount<Block>(s.pcb[par].children, c, x);
    assert KidFits(s, x, b);
    assert SamePerson(s.pcb[b], t.pcb[b]) && SamePerson(s.pcb[x], t.pcb[x]);
  }

  lemma {:induction false} CollectedHangs(s: State, t: State, par: Block, c: Block, path: Path, x: Block)
    requires Inv(s) && Collected(s, t, par, c, path) && ChildOf(s, c, par) && c in s.zombie
    ensures Hangs(t, x)
  {
    assert Hangs(s, x) && Hangs(s, c) && Hangs(s, par);
    assert SamePerson(s.pcb[x], t.pcb[x]);
    CollectedKid(s, t, par, c, path, x, s.init);
    if s.pcb[x].parent.Some? {
      CollectedKid(s, t, par, c, path, x, s.pcb[x].parent.value);
    }
    ZombieTaken(s, c, x);
    assert KidFits(s, c, par);
  }

  lemma {:induction false} CollectedTree(s: State, t: State, par: Block, c: Block, path: Path)
    requires Inv(s) && Collected(s, t, par, c, path) && ChildOf(s, c, par) && c in s.zombie
    ensures Tree(t)
  {
    assert KidFits(s, c, par);
    assert SamePerson(s.pcb[s.init], t.pcb[s.init]);
    ZombieTaken(s, c, s.init);
    forall b: Block, x: Block | ChildOf(t, x, b) ensures KidFits(t, x, b) {
      CollectedKidFits(s, t, par, c, path, x, b);
    }
    forall x: Block ensures Hangs(t, x) {
      CollectedHangs(s, t, par, c, path, x);
    }
  }

  lemma {:induction false} CollectedPid(s: State, t: State, par: Block, c: Block, path: Path, b: Block)
    requires Inv(s) && Collected(s, t, par, c, path) && ChildOf(s, c, par) && c in s.zombie
    ensures PidFits(t, b)
  {
    assert SamePerson(s.pcb[b], t.pcb[b]);
    assert PidFits(s, b);
    ZombieTaken(s, c, b);
  }

  lemma {:induction false} CollectedReap(s: State, t: State, par: Block, c: Block, path: Path, r: Reap)
    requires Inv(s) && Collected(s, t, par, c, path) && ChildOf(s, c, par) && c in s.zombie
    requires r in t.reaps
    ensures ReapFits(t, r)
  {
    assert KidFits(s, c, par) && PidFits(s, c);
    PlaceIsUnique(s, c);
    if r in s.reaps {
      assert ReapFits(s, r);
    }
  }

  lemma {:induction false} CollectedLedger(s: State, t: State, par: Block, c: Block, path: Path)
    requires Inv(s) && Collected(s, t, par, c, path) && ChildOf(s, c, par) && c in s.zombie
    ensures Ledger(t)
  {
    var r := Reap(s.pcb[c].pid, s.pcb[c].returnValue, s.pcb[par].pid, path);
    assert KidFits(s, c, par) && PidFits(s, c) && FateFits(s, r.pid);
    assert !Reaped(s, r.pid);
    forall b: Block ensures PidFits(t, b) {
      CollectedPid(s, t, par, c, path, b);
    }
    forall pid ensures FateFits(t, pid) {
      CollectedFate(s, t, par, c, path, pid);
    }
    forall q | q in t.reaps ensures ReapFits(t, q) {
      CollectedReap(s, t, par, c, path, q);
    }
    assert t.reaps[..|t.reaps| - 1] == s.reaps;
  }

  lemma {:induction false} CollectedFate(s: State, t: State, par: Block, c: Block, path: Path, pid: int)
    requires Inv(s) && Collected(s, t, par, c, path) && ChildOf(s, c, par) && c in s.zombie
    ensures FateFits(t, pid)
  {
    var r := t.reaps[|s.reaps|];
    assert KidFits(s, c, par) && PidFits(s, c) && FateFits(s, pid);
    if 0 <= pid < |s.births| {
      var b := s.births[pid].block;
      assert SamePerson(s.pcb[b], t.pcb[b]);
      assert Holds(t, b, pid) <==> Holds(s, b, pid) && b != c;
      if Reaped(s, pid) {
        var i :| 0 <= i < |s.reaps| && s.reaps[i].pid == pid;
        assert t.reaps[i] == s.reaps[i];
      }
      assert Reaped(t, pid) <==> Reaped(s, pid) || pid == r.pid;
    }
  }

  lemma {:induction false} ZombieChild(s: State, me: Block, c: Block)
    requires Inv(s) && ChildOf(s, c, me) && s.pcb[c].status == Zombie
    ensures c in s.zombie
  {
    assert KidFits(s, c, me) && StatusFits(s, c);
    PlaceIsUnique(s, c);
  }

  lemma {:induction false} ReapKeeps(s: State, me: Block, c: Block)
    requires Inv(s) && s.running == Some(me) && ChildOf(s, c, me) && s.pcb[c].status == Zombie
    ensures Inv(ReapStep(s, me, c))
  {
    var t := ReapStep(s, me, c);
    ZombieChild(s, me, c);
    PlaceIsUnique(s, me);
    CollectedTree(s, t, me, c, WaitPath);
    CollectedLedger(s, t, me, c, WaitPath);
    forall b: Block ensures Places(t, b) == 1 && StatusFits(t, b) && TimerFits(t, b) {
      ReapPlace(s, me, c, b);
    }
  }

  lemma {:induction false} ReapPlace(s: State, me: Block, c: Block, b: Block)
    requires Inv(s) && s.running == Some(me) && c in s.zombie
    ensures var t := ReapStep(s, me, c); Places(t, b) == 1 && StatusFits(t, b) && TimerFits(t, b)
  {
    var t := ReapStep(s, me, c);
    assert Places(s, b) == 1;
    assert StatusFits(s, b) && TimerFits(s, b);
    PlaceIsUnique(s, b);
    ZombieTaken(s, c, b);
    assert multiset(t.free) == multiset{c} + multiset(s.free);
  }

  lemma {:induction false} WaitKeeps(s: State, me: Block)
    requires Inv(s) && s.running == Some(me) && s.pcb[me].syscallNum == DSOS_CALL_WAIT && WaitStep(s, me).Next?
    ensures Inv(WaitStep(s, me).state)
  {
    var t := WaitStep(s, me).state;
    var p := s.pcb[me];
    if p.children == [] {
      RegistersKeep(s, t);
    } else {
      var c := Scan(s.pcb, p.children, p.arg0);
      if s.pcb[c].status == Zombie {
        assert ChildOf(s, c, me);
        ReapKeeps(s, me, c);
      } else {
        BlocksKeeps(s, t, me);
      }
    }
  }
}
