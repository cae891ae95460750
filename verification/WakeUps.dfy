/** No lost wake-up: what it means, and exactly which calls break it. */
module WakeUps {
  import opened Sequences
  import opened Processes
  import opened Syscalls
  import opened Invariants
  import opened Scheduling
  import opened Reachability

  ghost predicate InWait(s: State, b: Block) {
    b in s.waiting && s.pcb[b].syscallNum == DSOS_CALL_WAIT
  }

  ghost predicate LiveChild(s: State, c: Block, b: Block) {
    ChildOf(s, c, b) && s.pcb[c].status != Zombie
  }

  /** A process blocked in wait(0) has children and none is a zombie; one blocked in wait(q) has q as a live child. */
  ghost predicate Awaits(s: State, b: Block) {
    InWait(s, b) ==>
      if s.pcb[b].arg0 == 0 then
        s.pcb[b].children != [] && (forall c: Block | ChildOf(s, c, b) :: LiveChild(s, c, b))
      else
        exists c: Block :: LiveChild(s, c, b) && s.pcb[c].pid == s.pcb[b].arg0
  }

  ghost predicate NoLostWakeUp(s: State) {
    forall b: Block :: Awaits(s, b)
  }

  // ----- the calls that keep it -----

  ghost predicate HasChildPid(s: State, b: Block, pid: int) {
    exists c: Block :: ChildOf(s, c, b) && s.pcb[c].pid == pid
  }

  /** The wait blocks: there are children, and the one the scan ends on is no zombie. */
  predicate WaitBlocks(s: State, me: Block, q: int) {
    s.pcb[me].children != [] && s.pcb[Scan(s.pcb, s.pcb[me].children, q)].status != Zombie
  }

  /** The exit leaves no zombie below a waiting init: the caller is init's own child, or neither it nor
      a zombie it hands over to init is what init waits for. */
  ghost predicate ExitSafe(s: State, me: Block) {
    s.pcb[me].parent == Some(s.init)
    || ((ChildOf(s, me, s.init) ==> !WaitsFor(s.pcb[s.init], s.pcb[me].pid))
        && (forall z: Block | ChildOf(s, z, me) :: !(s.pcb[z].status == Zombie && WaitsFor(s.pcb[s.init], s.pcb[z].pid))))
  }

  ghost predicate Safe(s: State, c: Call)
    requires s.running.Some?
  {
    var me := s.running.value;
    match c
    case Wait(q, _) => WaitBlocks(s, me, q) && q != 0 ==> HasChildPid(s, me, q)
    case Exit(_) => ExitSafe(s, me)
    case _ => true
  }

  // ----- steps that cannot disturb a waiter -----

  /** `b` waits no less than it did, for the same children, and none of them died. */
  ghost predicate Undisturbed(s: State, t: State, b: Block) {
    InWait(t, b) ==>
      && InWait(s, b) && t.pcb[b].arg0 == s.pcb[b].arg0 && t.pcb[b].children == s.pcb[b].children
      && (forall c: Block | ChildOf(s, c, b) ::
            t.pcb[c].pid == s.pcb[c].pid && (t.pcb[c].status == Zombie ==> s.pcb[c].status == Zombie))
  }

  lemma {:induction false} UndisturbedAwaits(s: State, t: State, b: Block)
    requires Awaits(s, b) && Undisturbed(s, t, b)
    ensures Awaits(t, b)
  {
    if InWait(t, b) {
      if s.pcb[b].arg0 == 0 {
        forall c: Block | ChildOf(t, c, b) ensures LiveChild(t, c, b) {
          assert ChildOf(s, c, b);
          assert LiveChild(s, c, b);
        }
      } else {
        var c: Block :| LiveChild(s, c, b) && s.pcb[c].pid == s.pcb[b].arg0;
        assert LiveChild(t, c, b);
      }
    }
  }

  lemma {:induction false} RecordUndisturbed(s: State, me: Block, c: Call, b: Block)
    requires Inv(s) && s.running == Some(me) && !c.Tick?
    ensures Awaits(Record(s, me, c), b) <==> Awaits(s, b)
  {
    var r := Record(s, me, c);
    PlaceIsUnique(s, me);
    if Awaits(s, b) {
      UndisturbedAwaits(s, r, b);
    }
    if Awaits(r, b) {
      UndisturbedAwaits(r, s, b);
    }
  }

  lemma {:induction false} WakeDueAwaits(s: State, b: Block)
    requires Inv(s) && Awaits(s, b)
    ensures Awaits(WakeDue(s), b)
  {
    var w := WakeDue(s);
    var due := Owners(s.timers[..DueCount(s.timers, s.time)]);
    KeepCount(s.waiting, due, b);
    assert w.pcb[b].syscallNum == s.pcb[b].syscallNum;
    assert Undisturbed(s, w, b);
    UndisturbedAwaits(s, w, b);
  }

  lemma {:induction false} RotateAwaits(s: State, me: Block, b: Block)
    requires Inv(s) && s.running == Some(me) && Awaits(s, b)
    ensures Awaits(Rotate(s, me), b)
  {
    PlaceIsUnique(s, me);
    if s.ready != [] {
      PlaceIsUnique(s, s.ready[0]);
    }
    assert Undisturbed(s, Rotate(s, me), b);
    UndisturbedAwaits(s, Rotate(s, me), b);
  }

  lemma {:induction false} ScheduleAwaits(s: State, me: Block, b: Block)
    requires Inv(s) && s.running == Some(me) && Awaits(s, b)
    ensures Awaits(Schedule(s, me), b)
  {
    WakeDueAwaits(s, b);
    WakeDueKeeps(s);
    RotateAwaits(WakeDue(s), me, b);
  }

  lemma {:induction false} SpawnAwaits(s: State, me: Block, b: Block)
    requires Inv(s) && s.running == Some(me) && SpawnStep(s, me).Next? && Awaits(s, b)
    ensures Awaits(SpawnStep(s, me).state, b)
  {
    var t := SpawnStep(s, me).state;
    var n := s.free[0];
    PlaceIsUnique(s, me);
    PlaceIsUnique(s, n);
    assert ChildOf(s, n, b) ==> KidFits(s, n, b);
    assert Undisturbed(s, t, b);
    UndisturbedAwaits(s, t, b);
  }

  lemma {:induction false} SleepAwaits(s: State, me: Block, b: Block)
    requires Inv(s) && s.running == Some(me) && s.pcb[me].syscallNum == DSOS_CALL_SLEEP && Awaits(s, b)
    ensures Awaits(SleepStep(s, me).state, b)
  {
    UndisturbedAwaits(s, SleepStep(s, me).state, b);
  }

  // ----- wait -----

  lemma {:induction false} ScanFinds(pcb: PcbTable, kids: seq<Block>, q: int)
    requires kids != []
    ensures (exists c: Block :: c in kids && StopsAt(pcb[c], q)) ==> StopsAt(pcb[Scan(pcb, kids, q)], q)
    ensures !(exists c: Block :: c in kids && StopsAt(pcb[c], q)) ==> Scan(pcb, kids, q) == kids[|kids| - 1]
  {
    if |kids| > 1 && !StopsAt(pcb[kids[0]], q) {
      ScanFinds(pcb, kids[1..], q);
      assert forall c: Block :: c in kids <==> c == kids[0] || c in kids[1..];
    }
  }

  /** A blocking wait leaves the others alone; the caller waits for a live child iff it named one (or 0). */
  lemma {:induction false} WaitAwaits(s: State, me: Block, b: Block)
    requires Inv(s) && s.running == Some(me) && s.pcb[me].syscallNum == DSOS_CALL_WAIT && WaitStep(s, me).Next?
    requires Awaits(s, b)
    ensures b == me && WaitBlocks(s, me, s.pcb[me].arg0) && s.pcb[me].arg0 != 0 && !HasChildPid(s, me, s.pcb[me].arg0)
            <==> !Awaits(WaitStep(s, me).state, b)
  {
    var t := WaitStep(s, me).state;
    var q := s.pcb[me].arg0;
    PlaceIsUnique(s, me);
    if b != me {
      UndisturbedAwaits(s, t, b);
    } else if WaitBlocks(s, me, q) {
      ScanFinds(s.pcb, s.pcb[me].children, q);
      assert me in t.waiting && InWait(t, me);
      WaitSelf(s, me, t);
    }
  }

  /** A wait for a pid that is no child's reports no error: it collects the last child if that is a zombie,
      and blocks otherwise. A wait for a child's pid looks at that child only. */
  lemma {:induction false} WaitAnswers(s: State, me: Block, t: State)
    requires Inv(s) && s.running == Some(me) && s.pcb[me].children != [] && WaitStep(s, me) == Next(t)
    ensures var q, kids := s.pcb[me].arg0, s.pcb[me].children;
      var c := if q != 0 && !HasChildPid(s, me, q) then kids[|kids| - 1] else Scan(s.pcb, kids, q);
      && (HasChildPid(s, me, q) && q != 0 ==> s.pcb[c].pid == q)
      && (if s.pcb[c].status == Zombie
          then t.pcb[me].retValue == s.pcb[c].pid && t.reaps == s.reaps + [Reap(s.pcb[c].pid, s.pcb[c].returnValue, s.pcb[me].pid, WaitPath)]
          else me in t.waiting && t.reaps == s.reaps)
  {
    var q, kids := s.pcb[me].arg0, s.pcb[me].children;
    ScanFinds(s.pcb, kids, q);
    assert q != 0 ==> (HasChildPid(s, me, q) <==> exists c: Block :: c in kids && StopsAt(s.pcb[c], q)) by {
      if HasChildPid(s, me, q) && q != 0 {
        var c: Block :| ChildOf(s, c, me) && s.pcb[c].pid == q;
        assert c in kids && StopsAt(s.pcb[c], q);
      }
      if q != 0 && exists c: Block :: c in kids && StopsAt(s.pcb[c], q) {
        var c: Block :| c in kids && StopsAt(s.pcb[c], q);
        assert ChildOf(s, c, me);
      }
    }
    assert t.waiting == s.waiting || t.waiting == s.waiting + [me];
  }

  lemma {:induction false} WaitSelf(s: State, me: Block, t: State)
    requires Inv(s) && s.running == Some(me) && s.pcb[me].syscallNum == DSOS_CALL_WAIT
    requires WaitBlocks(s, me, s.pcb[me].arg0) && WaitStep(s, me) == Next(t) && InWait(t, me)
    ensures Awaits(t, me) <==> (s.pcb[me].arg0 != 0 ==> HasChildPid(s, me, s.pcb[me].arg0))
  {
    var q := s.pcb[me].arg0;
    var kids := s.pcb[me].children;
    ScanFinds(s.pcb, kids, q);
    assert t.pcb[me].children == kids && t.pcb[me].arg0 == q;
    assert t.pcb == s.pcb[me := s.pcb[me].(status := Waiting)];
    if q == 0 {
      forall c: Block | ChildOf(t, c, me) ensures LiveChild(t, c, me) {
        assert c in kids;
      }
    } else {
      if HasChildPid(s, me, q) {
        var c: Block := Scan(s.pcb, kids, q);
        assert ChildOf(t, c, me) && LiveChild(t, c, me) && t.pcb[c].pid == q;
      }
      if c: Block :| LiveChild(t, c, me) && t.pcb[c].pid == q {
        assert ChildOf(s, c, me);
      }
    }
  }

  // ----- exit -----

  /** What an exit does to the families: `me` is a zombie, its children are below init, and only a parent
      that waited for `me` leaves the waiting list. */
  ghost predicate Exited(s: State, t: State, me: Block, par: Block) {
    && me != s.init && t.init == s.init
    && t.pcb[me].status == Zombie
    && (forall b: Block :: t.pcb[b].pid == s.pcb[b].pid && t.pcb[b].syscallNum == s.pcb[b].syscallNum && t.pcb[b].arg0 == s.pcb[b].arg0)
    && (forall b: Block :: b != me ==> (t.pcb[b].status == Zombie <==> s.pcb[b].status == Zombie))
    && (forall b: Block :: b in t.waiting && b != s.init ==> t.pcb[b].children == s.pcb[b].children)
    && (s.init in t.waiting ==> t.pcb[s.init].children == s.pcb[s.init].children + s.pcb[me].children)
    && (if WaitsFor(s.pcb[par], s.pcb[me].pid)
        then ChildOf(s, me, par) && (forall b: Block :: b in t.waiting <==> b in s.waiting && b != par)
        else (forall b: Block :: b in t.waiting <==> b in s.waiting))
  }

  lemma {:induction false} OwnParent(s: State, me: Block)
    requires Inv(s) && s.running == Some(me) && me != s.init
    ensures s.pcb[me].parent.Some? && s.pcb[me].parent != Some(me) && !ChildOf(s, me, me)
  {
    PlaceIsUnique(s, me);
    assert Hangs(s, me);
    assert ChildOf(s, me, me) ==> KidFits(s, me, me);
  }

  lemma {:induction false} ExitShape(s: State, me: Block, par: Block)
    requires Inv(s) && s.running == Some(me) && s.pcb[me].parent == Some(par) && ExitStep(s, me).Next?
    ensures Exited(s, ExitStep(s, me).state, me, par)
  {
    var d := Die(s, me);
    OwnParent(s, me);
    if WaitsFor(s.pcb[par], s.pcb[me].pid) {
      ExitShapeWake(s, me, par, FindByPid(d.pcb, d.pcb[par].children, d.pcb[me].pid).value);
    } else {
      ExitShapeDispatch(s, me, par);
    }
  }

  lemma {:induction false} HandOverRecords(s: State, me: Block, par: Block, b: Block)
    requires me != s.init && par != me && s.pcb[par].status == Waiting
    ensures var p := HandOver(Die(s, me), me, par, me).pcb[b];
      && p.pid == s.pcb[b].pid && p.syscallNum == s.pcb[b].syscallNum && p.arg0 == s.pcb[b].arg0
      && (b == me ==> p.status == Zombie)
      && (b != me ==> (p.status == Zombie <==> s.pcb[b].status == Zombie))
      && (b != me && b != par && b != s.init ==> p.children == s.pcb[b].children)
      && (b == s.init && b != par ==> p.children == s.pcb[b].children + s.pcb[me].children)
  {
  }

  lemma {:induction false} ExitShapeWake(s: State, me: Block, par: Block, cell: Block)
    requires Inv(s) && s.running == Some(me) && me != s.init && s.pcb[me].parent == Some(par) && par != me && !ChildOf(s, me, me)
    requires WaitsFor(s.pcb[par], s.pcb[me].pid)
    requires FindByPid(Die(s, me).pcb, Die(s, me).pcb[par].children, s.pcb[me].pid) == Some(cell)
    ensures Exited(s, HandOver(Die(s, me), me, par, cell), me, par)
  {
    CellIsMe(s, me, par, cell);
    DeadKids(s, me, me, par);
    PlaceIsUnique(s, me);
    var t := HandOver(Die(s, me), me, par, me);
    HandOverWaiting(s, me, par);
    assert forall b: Block :: b in t.waiting ==> b != me && b != par;
    forall b: Block {
      HandOverRecords(s, me, par, b);
    }
  }

  lemma {:induction false} ExitShapeDispatch(s: State, me: Block, par: Block)
    requires Inv(s) && s.running == Some(me) && me != s.init && s.pcb[me].parent == Some(par) && par != me
    requires !WaitsFor(s.pcb[par], s.pcb[me].pid) && ExitStep(s, me).Next?
    ensures Exited(s, ExitStep(s, me).state, me, par)
  {
    var next := s.ready[0];
    PlaceIsUnique(s, me);
    PlaceIsUnique(s, next);
    assert StatusFits(s, next);
    var t := ExitStep(s, me).state;
    assert t.waiting == s.waiting;
  }

  lemma {:induction false} HandOverWaiting(s: State, me: Block, par: Block)
    requires Inv(s) && me != s.init
    ensures forall b: Block :: b in HandOver(Die(s, me), me, par, me).waiting <==> b in s.waiting && b != par
  {
    var t := HandOver(Die(s, me), me, par, me);
    forall b: Block ensures b in t.waiting <==> b in s.waiting && b != par {
      assert Places(s, b) == 1;
      assert b in s.waiting <==> b in multiset(s.waiting);
      WithoutCount<Block>(s.waiting, par, b);
    }
  }

  lemma {:induction false} ExitOthers(s: State, t: State, me: Block, par: Block, b: Block)
    requires Inv(s) && s.running == Some(me) && s.pcb[me].parent == Some(par) && Exited(s, t, me, par)
    requires b != s.init && Awaits(s, b)
    ensures Awaits(t, b)
  {
    if InWait(t, b) {
      assert StatusFits(s, b);
      assert ChildOf(s, me, b) ==> KidFits(s, me, b);
      if s.pcb[b].arg0 == 0 {
        forall c: Block | ChildOf(t, c, b) ensures LiveChild(t, c, b) {
          assert ChildOf(s, c, b);
          assert LiveChild(s, c, b);
        }
      } else {
        var c: Block :| LiveChild(s, c, b) && s.pcb[c].pid == s.pcb[b].arg0;
        assert LiveChild(t, c, b);
      }
    }
  }

  lemma {:induction false} ExitInit(s: State, t: State, me: Block, par: Block)
    requires Inv(s) && s.running == Some(me) && s.pcb[me].parent == Some(par) && Exited(s, t, me, par)
    requires Awaits(s, s.init)
    ensures Awaits(t, s.init) <==> ExitSafe(s, me)
  {
    var i := s.init;
    assert StatusFits(s, i);
    assert InWait(s, i) <==> s.pcb[i].status == Waiting && s.pcb[i].syscallNum == DSOS_CALL_WAIT;
    PlaceIsUnique(s, me);
    assert Hangs(s, me);
    assert ChildOf(s, me, par) && par != i ==> KidFits(s, me, par);
    forall c: Block ensures i in t.waiting ==> (ChildOf(t, c, i) <==> ChildOf(s, c, i) || ChildOf(s, c, me)) {
    }
    if InWait(t, i) {
      if s.pcb[i].arg0 == 0 {
        ExitInitAny(s, t, me, par);
      } else {
        ExitInitNamed(s, t, me, par);
      }
    } else if InWait(s, i) {
      assert par == i;
    } else {
      assert ExitSafe(s, me);
    }
  }

  lemma {:induction false} ExitInitAny(s: State, t: State, me: Block, par: Block)
    requires Inv(s) && s.running == Some(me) && s.pcb[me].parent == Some(par) && Exited(s, t, me, par)
    requires Awaits(s, s.init) && InWait(t, s.init) && InWait(s, s.init) && s.pcb[s.init].arg0 == 0
    requires forall c: Block :: ChildOf(t, c, s.init) <==> ChildOf(s, c, s.init) || ChildOf(s, c, me)
    ensures Awaits(t, s.init) <==> ExitSafe(s, me)
  {
    var i := s.init;
    assert StatusFits(s, i);
    assert par != i;
    if ExitSafe(s, me) {
      forall c: Block | ChildOf(t, c, i) ensures LiveChild(t, c, i) {
        assert ChildOf(s, c, i) ==> LiveChild(s, c, i);
        assert ChildOf(s, me, me) ==> KidFits(s, me, me);
      }
    }
    if Awaits(t, i) {
      assert ChildOf(t, me, i) ==> LiveChild(t, me, i);
      forall z: Block | ChildOf(s, z, me) ensures s.pcb[z].status != Zombie {
        assert LiveChild(t, z, i);
      }
    }
  }

  lemma {:induction false} ExitInitNamed(s: State, t: State, me: Block, par: Block)
    requires Inv(s) && s.running == Some(me) && s.pcb[me].parent == Some(par) && Exited(s, t, me, par)
    requires Awaits(s, s.init) && InWait(t, s.init) && InWait(s, s.init) && s.pcb[s.init].arg0 != 0
    requires forall c: Block :: ChildOf(t, c, s.init) <==> ChildOf(s, c, s.init) || ChildOf(s, c, me)
    ensures Awaits(t, s.init) <==> ExitSafe(s, me)
  {
    var i := s.init;
    var q := s.pcb[i].arg0;
    assert StatusFits(s, i);
    var c: Block :| LiveChild(s, c, i) && s.pcb[c].pid == q;
    assert KidFits(s, c, i);
    PlaceIsUnique(s, me);
    if c == me {
      assert WaitsFor(s.pcb[i], s.pcb[me].pid);
      assert par != i;
      if x: Block :| LiveChild(t, x, i) && t.pcb[x].pid == q {
        assert ChildOf(s, x, i) ==> KidFits(s, x, i);
        assert ChildOf(s, x, me) ==> KidFits(s, x, me);
        PidsUnique(s, x, me);
      }
    } else {
      assert LiveChild(t, c, i);
      if s.pcb[me].pid == q {
        PidsUnique(s, me, c);
      }
      forall z: Block | ChildOf(s, z, me) ensures !(s.pcb[z].status == Zombie && WaitsFor(s.pcb[i], s.pcb[z].pid)) {
        assert KidFits(s, z, me);
        if s.pcb[z].pid == q {
          PidsUnique(s, z, c);
        }
      }
    }
  }

  lemma {:induction false} ExitAwaits(s: State, me: Block)
    requires Inv(s) && s.running == Some(me) && ExitStep(s, me).Next? && NoLostWakeUp(s)
    ensures NoLostWakeUp(ExitStep(s, me).state) <==> ExitSafe(s, me)
  {
    var t := ExitStep(s, me).state;
    OwnParent(s, me);
    var par := s.pcb[me].parent.value;
    ExitShape(s, me, par);
    assert Awaits(s, s.init);
    ExitInit(s, t, me, par);
    forall b: Block | b != s.init ensures Awaits(t, b) {
      assert Awaits(s, b);
      ExitOthers(s, t, me, par, b);
    }
  }

  // ----- one step: the exact condition -----

  lemma {:induction false} WaitStepAwaits(s: State, me: Block)
    requires Inv(s) && s.running == Some(me) && s.pcb[me].syscallNum == DSOS_CALL_WAIT && WaitStep(s, me).Next?
    requires NoLostWakeUp(s)
    ensures NoLostWakeUp(WaitStep(s, me).state)
            <==> (WaitBlocks(s, me, s.pcb[me].arg0) && s.pcb[me].arg0 != 0 ==> HasChildPid(s, me, s.pcb[me].arg0))
  {
    forall b: Block ensures b == me && WaitBlocks(s, me, s.pcb[me].arg0) && s.pcb[me].arg0 != 0 && !HasChildPid(s, me, s.pcb[me].arg0)
                            <==> !Awaits(WaitStep(s, me).state, b) {
      assert Awaits(s, b);
      WaitAwaits(s, me, b);
    }
    assert NoLostWakeUp(WaitStep(s, me).state) <==> Awaits(WaitStep(s, me).state, me);
  }

  lemma {:induction false} ScanSame(p: PcbTable, r: PcbTable, kids: seq<Block>, q: int)
    requires kids != [] && forall b: Block :: p[b].pid == r[b].pid && p[b].status == r[b].status
    ensures Scan(p, kids, q) == Scan(r, kids, q)
  {
    assert StopsAt(p[kids[0]], q) <==> StopsAt(r[kids[0]], q);
    if |kids| > 1 {
      ScanSame(p, r, kids[1..], q);
    }
  }

  lemma {:induction false} WaitCase(s: State, me: Block, c: Call, t: State)
    requires Inv(s) && s.running == Some(me) && NoLostWakeUp(s) && c.Wait?
    requires WaitStep(Record(s, me, c), me) == Next(t)
    ensures NoLostWakeUp(t) <==> Safe(s, c)
  {
    var r := Record(s, me, c);
    RecordKeeps(s, me, c);
    forall b: Block ensures Awaits(r, b) {
      assert Awaits(s, b);
      RecordUndisturbed(s, me, c, b);
    }
    WaitStepAwaits(r, me);
    var kids := s.pcb[me].children;
    if kids != [] {
      ScanSame(s.pcb, r.pcb, kids, c.pid);
    }
    assert HasChildPid(r, me, c.pid) <==> HasChildPid(s, me, c.pid) by {
      assert forall x: Block :: ChildOf(r, x, me) <==> ChildOf(s, x, me);
      assert forall x: Block :: r.pcb[x].pid == s.pcb[x].pid;
    }
  }

  lemma {:induction false} ExitCase(s: State, me: Block, c: Call, t: State)
    requires Inv(s) && s.running == Some(me) && NoLostWakeUp(s) && c.Exit?
    requires ExitStep(Record(s, me, c), me) == Next(t)
    ensures NoLostWakeUp(t) <==> Safe(s, c)
  {
    var r := Record(s, me, c);
    RecordKeeps(s, me, c);
    forall b: Block ensures Awaits(r, b) {
      assert Awaits(s, b);
      RecordUndisturbed(s, me, c, b);
    }
    ExitAwaits(r, me);
    assert forall x: Block, b: Block :: ChildOf(r, x, b) <==> ChildOf(s, x, b);
    assert r.pcb[s.init] == s.pcb[s.init];
    assert ExitSafe(r, me) <==> ExitSafe(s, me);
  }

  lemma {:induction false} OtherCase(s: State, me: Block, c: Call, t: State, b: Block)
    requires Inv(s) && s.running == Some(me) && Awaits(s, b) && !c.Tick? && !c.Wait? && !c.Exit?
    requires Handler(Record(s, me, c), me, c) == Next(t)
    ensures Awaits(t, b)
  {
    var r := Record(s, me, c);
    RecordKeeps(s, me, c);
    RecordUndisturbed(s, me, c, b);
    match c
    case Preempt => ScheduleAwaits(r, me, b);
    case Fork => SpawnAwaits(r, me, b);
    case Spawn(_, _) => SpawnAwaits(r, me, b);
    case Sleep(_) => SleepAwaits(r, me, b);
  }

  lemma {:induction false} TickCase(s: State, me: Block, b: Block)
    requires Inv(s) && s.running == Some(me) && Awaits(s, b)
    ensures Awaits(Schedule(s.(time := s.time + 1), me), b)
  {
    var u := s.(time := s.time + 1);
    TickKeeps(s);
    UndisturbedAwaits(s, u, b);
    ScheduleAwaits(u, me, b);
  }

  lemma {:induction false} HarmlessCase(s: State, me: Block, c: Call, t: State)
    requires Inv(s) && s.running == Some(me) && NoLostWakeUp(s) && !c.Tick? && !c.Wait? && !c.Exit?
    requires Handler(Record(s, me, c), me, c) == Next(t)
    ensures NoLostWakeUp(t)
  {
    forall b: Block ensures Awaits(t, b) {
      assert Awaits(s, b);
      OtherCase(s, me, c, t, b);
    }
  }

  lemma {:induction false} TickAll(s: State, me: Block, t: State)
    requires Inv(s) && s.running == Some(me) && NoLostWakeUp(s) && t == Schedule(s.(time := s.time + 1), me)
    ensures NoLostWakeUp(t)
  {
    forall b: Block ensures Awaits(t, b) {
      assert Awaits(s, b);
      TickCase(s, me, b);
    }
  }

  /** A step keeps the absence of lost wake-ups exactly when the call is safe. */
  lemma {:induction false} KeptIffSafe(s: State, c: Call, t: State)
    requires Inv(s) && NoLostWakeUp(s) && Step(s, c) == Next(t)
    ensures NoLostWakeUp(t) <==> Safe(s, c)
  {
    var me := s.running.value;
    StepCases(s, c);
    if c.Wait? {
      assert WaitStep(Record(s, me, c), me) == Next(t);
      WaitCase(s, me, c, t);
    } else if c.Exit? {
      assert ExitStep(Record(s, me, c), me) == Next(t);
      ExitCase(s, me, c, t);
    } else if c.Tick? {
      TickAll(s, me, t);
    } else {
      HarmlessCase(s, me, c, t);
    }
  }

  ghost predicate SafeRun(s: State, cs: seq<Call>)
    decreases |cs|
  {
    cs == [] || (Step(s, cs[0]).Next? && Safe(s, cs[0]) && SafeRun(Step(s, cs[0]).state, cs[1..]))
  }

  lemma {:induction false} SafeRunsKeep(s: State, cs: seq<Call>)
    requires Inv(s) && NoLostWakeUp(s) && SafeRun(s, cs)
    ensures Run(s, cs).Next? && NoLostWakeUp(Run(s, cs).state)
    decreases |cs|
  {
    if cs != [] {
      var t := Step(s, cs[0]).state;
      KeptIffSafe(s, cs[0], t);
      StepKeeps(s, cs[0]);
      SafeRunsKeep(t, cs[1..]);
    }
  }
}
