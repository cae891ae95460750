/** The kernel as the source writes it: one object whose handlers update the PCB buffer and the lists in place.
    Each handler is proved to do exactly the step that `Syscalls` specifies. */
module KernelCode {
  import opened Sequences
  import opened Processes
  import opened Syscalls
  import opened WakeTraces
  import Invariants
  import Scheduling
  import Reachability

  // ----- what the loops compute, as sequences -----

  lemma {:induction false} FindIs(pcb: PcbTable, kids: seq<Block>, pid: int, k: nat)
    requires k <= |kids| && (forall i :: 0 <= i < k ==> pcb[kids[i]].pid != pid)
    requires k < |kids| ==> pcb[kids[k]].pid == pid
    ensures FindByPid(pcb, kids, pid) == if k < |kids| then Some(kids[k]) else None
  {
    if k > 0 {
      FindIs(pcb, kids[1..], pid, k - 1);
    }
  }

  lemma {:induction false} CutOut(a: seq<TimerItem>, b: seq<TimerItem>)
    requires b != []
    ensures (a + b)[..|a|] + (a + b)[|a| + 1..] == a + b[1..] && (a + b)[|a|] == b[0]
    ensures a + b == (a + [b[0]]) + b[1..]
  {
  }

  class Kernel {
    const pcb: array<Pcb>
    var free: seq<Block>
    var ptrFree: nat
    var running: Option<Block>
    var init: Block
    var ready: seq<Block>
    var waiting: seq<Block>
    var zombie: seq<Block>
    var timers: seq<TimerItem>
    var time: int
    var lastPid: int
    var sleeps: nat
    ghost var births: seq<Birth>
    ghost var exits: map<int, int>
    ghost var reaps: seq<Reap>

    ghost predicate Valid()
      reads this, pcb
    {
      pcb.Length == MAX_NUM_PROCESSES && Invariants.Inv(Abs())
    }

    ghost function Abs(): State
      requires pcb.Length == MAX_NUM_PROCESSES
      reads this, pcb
    {
      State(pcb[..], free, ptrFree, running, init, ready, waiting, zombie, timers, time, lastPid, sleeps, births, exits, reaps)
    }

    constructor ()
      ensures Valid() && Abs() == Boot()
    {
      pcb := new Pcb[MAX_NUM_PROCESSES](i => if i == 0 then BLANK.(status := Running) else BLANK);
      free := seq(MAX_NUM_PROCESSES - 1, i requires 0 <= i < MAX_NUM_PROCESSES - 1 => i + 1);
      ptrFree, running, init := MAX_NUM_PROCESSES, Some(0), 0;
      ready, waiting, zombie, timers := [], [], [], [];
      time, lastPid, sleeps := 0, 1, 0;
      births, exits, reaps := [Birth(0, -1)], map[], [];
      new;
      assert pcb[..] == Boot().pcb;
      Reachability.BootInv();
    }

    /** The body of the wake loop: the owner of the first timer goes behind `previous` in the ready list. */
    method WakeFirst(previous: Option<Block>, ghost w: State, ghost v: State) returns (woken: Block)
      requires pcb.Length == MAX_NUM_PROCESSES && OneTurn(w, previous, v)
      requires timers == w.timers && waiting == w.waiting && ready == w.ready && pcb[..] == w.pcb
      modifies `timers, `waiting, `ready, pcb
      ensures timers == v.timers && waiting == v.waiting && ready == v.ready && pcb[..] == v.pcb
      ensures woken == w.timers[0].pcb
    {
      woken := timers[0].pcb;
      waiting := Without(waiting, woken);
      pcb[woken] := pcb[woken].(status := Ready, timer := None);
      assert pcb[..] == w.pcb[woken := w.pcb[woken].(status := Ready, timer := None)];
      ready := InsertAfter(ready, previous, woken);
      timers := timers[1..];
    }

    /** The wake loop of `internal_schedule`, turn by turn. */
    method WakeLoop(ghost at: seq<State>)
      requires pcb.Length == MAX_NUM_PROCESSES && WakeTrace(at, time)
      requires timers == at[0].timers && waiting == at[0].waiting && ready == at[0].ready && pcb[..] == at[0].pcb
      modifies `timers, `waiting, `ready, pcb
      ensures var v := at[|at| - 1]; timers == v.timers && waiting == v.waiting && ready == v.ready && pcb[..] == v.pcb
    {
      ghost var k := 0;
      var previous: Option<Block> := None;
      while timers != [] && time >= timers[0].wakeTime
        invariant 0 <= k < |at| && previous == WokenBefore(at, k)
        invariant timers == at[k].timers && waiting == at[k].waiting && ready == at[k].ready && pcb[..] == at[k].pcb
        decreases |at| - k
      {
        TraceGoesOn(at, time, k);
        var woken := WakeFirst(previous, at[k], at[k + 1]);
        previous := Some(woken);
        k := k + 1;
      }
      TraceGoesOn(at, time, k);
    }

    /** The wake loop of `internal_schedule`, as one step. */
    method WakeElapsed(ghost s: State)
      requires pcb.Length == MAX_NUM_PROCESSES && Invariants.Inv(s) && time == s.time
      requires timers == s.timers && waiting == s.waiting && ready == s.ready && pcb[..] == s.pcb
      modifies `timers, `waiting, `ready, pcb
      ensures var w := WakeDue(s); timers == w.timers && waiting == w.waiting && ready == w.ready && pcb[..] == w.pcb
    {
      ghost var at := ScheduleTrace(s);
      WakeLoop(at);
    }

    /** The end of `internal_schedule` (lines 31-37): the head of the ready list runs, `me` goes to its tail. */
    method RotateReady(me: Block, ghost w: State)
      requires pcb.Length == MAX_NUM_PROCESSES && ready == w.ready && running == w.running && pcb[..] == w.pcb
      modifies `ready, `running, pcb
      ensures var t := Rotate(w, me); ready == t.ready && running == t.running && pcb[..] == t.pcb
    {
      if ready != [] {
        var next := ready[0];
        ready := ready[1..];
        pcb[me] := pcb[me].(status := Ready);
        assert pcb[..] == w.pcb[me := w.pcb[me].(status := Ready)];
        ready := ready + [me];
        pcb[next] := pcb[next].(status := Running);
        running := Some(next);
      }
    }

    /** src/disastrOS_schedule.c, begun in the state `s`; `t` is the specified outcome. */
    method ScheduleFrom(me: Block, ghost s: State, ghost t: State)
      requires pcb.Length == MAX_NUM_PROCESSES && Invariants.Inv(s) && time == s.time && running == s.running && t == Schedule(s, me)
      requires timers == s.timers && waiting == s.waiting && ready == s.ready && pcb[..] == s.pcb
      modifies `timers, `waiting, `ready, `running, pcb
      ensures timers == t.timers && waiting == t.waiting && ready == t.ready && running == t.running && pcb[..] == t.pcb
    {
      ghost var w := WakeDue(s);
      WakeElapsed(s);
      RotateReady(me, w);
    }

    /** src/disastrOS_schedule.c */
    method InternalSchedule(me: Block)
      requires Valid() && running == Some(me)
      modifies `timers, `waiting, `ready, `running, pcb
      ensures pcb.Length == MAX_NUM_PROCESSES && Abs() == Schedule(old(Abs()), me)
    {
      ghost var s := Abs();
      ghost var t := Schedule(s, me);
      ScheduleChanges(s, t, me);
      ScheduleFrom(me, s, t);
    }

    /** src/disastrOS_pcb.c, `PCB_alloc`: the null check that is missing there is the caller's precondition here. */
    method PcbAlloc(parent: Block) returns (child: Block)
      requires pcb.Length == MAX_NUM_PROCESSES && free != []
      modifies `free, `lastPid, pcb
      ensures child == old(free[0]) && free == old(free[1..]) && lastPid == old(lastPid) + 1
      ensures pcb[..] == old(pcb[..])[child := Newborn(old(pcb[..])[child], old(lastPid), parent)]
    {
      child := free[0];
      free := free[1..];
      pcb[child] := pcb[child].(pid := lastPid, returnValue := 0, status := Invalid, parent := None, timer := None, children := []);
      lastPid := lastPid + 1;
      pcb[child] := pcb[child].(status := Ready);
      pcb[child] := pcb[child].(parent := Some(parent));
    }

    /** src/disastrOS_spawn.c and src/disastrOS_fork.c */
    method InternalSpawn(me: Block)
      requires pcb.Length == MAX_NUM_PROCESSES && SpawnStep(Abs(), me).Next? && me !in free
      modifies `free, `ptrFree, `ready, `lastPid, `births, pcb
      ensures pcb.Length == MAX_NUM_PROCESSES && SpawnStep(old(Abs()), me) == Next(Abs())
    {
      ghost var s := Abs();
      var pid := lastPid;
      births := births + [Birth(free[0], pcb[me].pid)];
      var child := PcbAlloc(me);
      ptrFree := ptrFree - 1;
      ghost var w := pcb[..];
      pcb[me] := pcb[me].(children := pcb[me].children + [child]);
      ready := ready + [child];
      pcb[me] := pcb[me].(retValue := pcb[child].pid);
      assert pcb[..] == w[me := w[me].(children := w[me].children + [child], retValue := pid)];
    }

    /** The scan of `internal_wait` (lines 20-31): the first match, or the last child. */
    method ScanChildren(me: Block, pidToWait: int) returns (awaited: Option<Block>)
      requires pcb.Length == MAX_NUM_PROCESSES
      ensures awaited == if pcb[me].children == [] then None else Some(Scan(pcb[..], pcb[me].children, pidToWait))
    {
      awaited := None;
      var kids := pcb[me].children;
      var aux := 0;
      while aux < |kids|
        invariant 0 <= aux <= |kids|
        invariant forall i :: 0 <= i < aux ==> !StopsAt(pcb[kids[i]], pidToWait)
        invariant awaited == if aux == 0 then None else Some(kids[aux - 1])
      {
        awaited := Some(kids[aux]);
        if pidToWait == 0 && pcb[awaited.value].status == Zombie {
          ScanIs(pcb[..], kids, pidToWait, aux);
          return;
        }
        if pidToWait != 0 && pcb[awaited.value].pid == pidToWait {
          ScanIs(pcb[..], kids, pidToWait, aux);
          return;
        }
        aux := aux + 1;
      }
      if kids != [] {
        ScanIs(pcb[..], kids, pidToWait, |kids| - 1);
      }
    }

    /** Lines 44-56 of `internal_wait`: the zombie `c` is collected and freed. */
    method CollectZombie(me: Block, c: Block)
      requires pcb.Length == MAX_NUM_PROCESSES
      modifies `free, `ptrFree, `zombie, `reaps, pcb
      ensures pcb.Length == MAX_NUM_PROCESSES && Abs() == ReapStep(old(Abs()), me, c)
    {
      ghost var w := pcb[..];
      reaps := reaps + [Reap(w[c].pid, w[c].returnValue, w[me].pid, WaitPath)];
      var result := pcb[me].arg1;
      pcb[me] := pcb[me].(children := Without(pcb[me].children, c));
      ptrFree := ptrFree + 1;
      zombie := Without(zombie, c);
      pcb[me] := pcb[me].(retValue := pcb[c].pid);
      if result != 0 {
        pcb[me] := pcb[me].(delivered := pcb[c].returnValue);
      }
      free := [c] + free;
      assert pcb[..] == w[me := w[me].(children := Without(w[me].children, c), retValue := w[c].pid,
                                       delivered := if w[me].arg1 != 0 then w[c].returnValue else w[me].delivered)];
    }

    /** src/disastrOS_wait.c */
    method InternalWait(me: Block)
      requires pcb.Length == MAX_NUM_PROCESSES && WaitStep(Abs(), me).Next?
      modifies `free, `ptrFree, `zombie, `waiting, `ready, `running, `reaps, pcb
      ensures pcb.Length == MAX_NUM_PROCESSES && WaitStep(old(Abs()), me) == Next(Abs())
    {
      ghost var w := pcb[..];
      var pidToWait := pcb[me].arg0;
      if pcb[me].children == [] {
        pcb[me] := pcb[me].(retValue := DSOS_EWAIT);
        assert pcb[..] == w[me := w[me].(retValue := DSOS_EWAIT)];
        return;
      }
      var awaited := ScanChildren(me, pidToWait);
      if pidToWait > 0 && awaited.None? {
        // where the source would return DSOS_EWAIT: the scan of a non-empty list never ends on null
        assert false;
      }
      if awaited.Some? && pcb[awaited.value].status == Zombie {
        CollectZombie(me, awaited.value);
        return;
      }
      pcb[me] := pcb[me].(status := Waiting);
      assert pcb[..] == w[me := w[me].(status := Waiting)];
      waiting := waiting + [me];
      running := Some(ready[0]);
      ready := ready[1..];
    }

    /** src/disastrOS_timer.c, `TimerList_add`; the timer pool holds one block for each process. */
    method TimerListAdd(wakeTime: int, owner: Block) returns (ok: bool)
      modifies `timers, `sleeps
      ensures ok == (|old(timers)| < MAX_NUM_PROCESSES)
      ensures ok ==> timers == AddTimer(old(timers), TimerItem(wakeTime, owner, old(sleeps))) && sleeps == old(sleeps) + 1
      ensures !ok ==> timers == old(timers) && sleeps == old(sleeps)
    {
      var aux := 0;
      while aux < |timers| && wakeTime >= timers[aux].wakeTime
        invariant 0 <= aux <= |timers|
        invariant forall i :: 0 <= i < aux ==> timers[i].wakeTime <= wakeTime
      {
        aux := aux + 1;
      }
      DueCountIs(timers, wakeTime, aux);
      if |timers| >= MAX_NUM_PROCESSES {
        return false;
      }
      timers := timers[..aux] + [TimerItem(wakeTime, owner, sleeps)] + timers[aux..];
      sleeps := sleeps + 1;
      return true;
    }

    /** src/disastrOS_sleep.c */
    method InternalSleep(me: Block)
      requires pcb.Length == MAX_NUM_PROCESSES
      modifies `timers, `sleeps, `waiting, `ready, `running, pcb
      ensures pcb.Length == MAX_NUM_PROCESSES && SleepStep(old(Abs()), me) == Next(Abs())
    {
      ghost var s := Abs();
      ghost var w := s.pcb;
      if pcb[me].timer.Some? {
        pcb[me] := pcb[me].(retValue := DSOS_ESLEEP);
        assert pcb[..] == w[me := w[me].(retValue := DSOS_ESLEEP)];
        return;
      }
      var cyclesToSleep := pcb[me].arg0;
      var ok := TimerListAdd(time + cyclesToSleep, me);
      if !ok {
        pcb[me] := pcb[me].(retValue := DSOS_ESLEEP);
        assert pcb[..] == w[me := w[me].(retValue := DSOS_ESLEEP)];
        return;
      }
      pcb[me] := pcb[me].(status := Waiting);
      assert pcb[..] == w[me := w[me].(status := Waiting)];
      waiting := waiting + [me];
      if ready != [] {
        running := Some(ready[0]);
        ready := ready[1..];
      } else {
        running := None;
      }
    }

    /** The reparent loop of `internal_exit` (lines 20-33). */
    method ReparentChildren(me: Block)
      requires pcb.Length == MAX_NUM_PROCESSES && me != init
      modifies pcb
      ensures var p, i := old(pcb[me]), old(pcb[init]);
        pcb[..] == old(pcb[..])[me := p.(children := [])][init := i.(children := i.children + p.children)]
    {
      ghost var w := pcb[..];
      ghost var k := 0;
      assert w[init].children + w[me].children[..0] == w[init].children && w[me].children[0..] == w[me].children;
      assert pcb[..] == w[me := w[me].(children := w[me].children[0..])]
                         [init := w[init].(children := w[init].children + w[me].children[..0])];
      while pcb[me].children != []
        invariant 0 <= k <= |w[me].children|
        invariant pcb[..] == w[me := w[me].(children := w[me].children[k..])]
                              [init := w[init].(children := w[init].children + w[me].children[..k])]
        decreases |pcb[me].children|
      {
        var item := pcb[me].children[0];
        ghost var v := pcb[..];
        pcb[me] := pcb[me].(children := pcb[me].children[1..]);
        pcb[init] := pcb[init].(children := pcb[init].children + [item]);
        k := k + 1;
        assert w[init].children + w[me].children[..k] == v[init].children + [item];
      }
      assert w[me].children[..k] == w[me].children;
    }

    /** src/disastrOS_pcb.c, `PCBPtr_byPID` */
    method PcbPtrByPid(holder: Block, pid: int) returns (cell: Option<Block>)
      requires pcb.Length == MAX_NUM_PROCESSES
      ensures cell == FindByPid(pcb[..], pcb[holder].children, pid)
    {
      var kids := pcb[holder].children;
      var aux := 0;
      while aux < |kids|
        invariant 0 <= aux <= |kids|
        invariant forall i :: 0 <= i < aux ==> pcb[kids[i]].pid != pid
      {
        if pcb[kids[aux]].pid == pid {
          FindIs(pcb[..], kids, pid, aux);
          return Some(kids[aux]);
        }
        aux := aux + 1;
      }
      FindIs(pcb[..], kids, pid, aux);
      return None;
    }

    /** The timer cleanup loop of `internal_exit` (lines 63-72). */
    method ReleaseTimers(owner: Block)
      modifies `timers
      ensures timers == TimersWithout(old(timers), owner)
    {
      ghost var kept: seq<TimerItem>, rest := [], timers;
      var aux := 0;
      while aux < |timers|
        invariant timers == kept + rest && aux == |kept|
        invariant kept + TimersWithout(rest, owner) == TimersWithout(old(timers), owner)
        decreases |rest|
      {
        CutOut(kept, rest);
        if timers[aux].pcb == owner {
          timers := timers[..aux] + timers[aux + 1..];
        } else {
          kept := kept + [rest[0]];
          aux := aux + 1;
        }
        rest := rest[1..];
      }
      assert rest == [] && kept + [] == kept;
    }

    /** Lines 50-61 of `internal_exit`: the parent leaves its wait with the pid and the exit code of `me`. */
    method AnswerParent(me: Block, parent: Block, ghost s: State)
      requires pcb.Length == MAX_NUM_PROCESSES && pcb[..] == s.pcb && waiting == s.waiting && me != parent
      requires FindByPid(s.pcb, s.pcb[parent].children, s.pcb[me].pid).Some?
      modifies `waiting, pcb
      ensures waiting == Without(s.waiting, parent)
      ensures pcb[..] == HandOver(s, me, parent, FindByPid(s.pcb, s.pcb[parent].children, s.pcb[me].pid).value).pcb
    {
      var p := s.pcb[parent];
      waiting := Without(waiting, parent);
      pcb[parent] := pcb[parent].(status := Running);
      assert pcb[..] == s.pcb[parent := p.(status := Running)];
      FindSame(s.pcb, pcb[..], p.children, s.pcb[me].pid);
      var cell := PcbPtrByPid(parent, pcb[me].pid);
      pcb[parent] := pcb[parent].(children := Without(pcb[parent].children, cell.value));
      pcb[parent] := pcb[parent].(retValue := pcb[me].pid);
      if pcb[parent].arg1 != 0 {
        pcb[parent] := pcb[parent].(delivered := pcb[me].returnValue);
      }
      assert pcb[parent] == p.(status := Running, children := Without(p.children, cell.value), retValue := s.pcb[me].pid,
                               delivered := if p.arg1 != 0 then s.pcb[me].returnValue else p.delivered);
    }

    /** The branch of `internal_exit` that wakes the parent (lines 46-87), after the zombie is listed. */
    method HandOverTo(me: Block, parent: Block)
      requires pcb.Length == MAX_NUM_PROCESSES && me != parent
      requires FindByPid(pcb[..], pcb[parent].children, pcb[me].pid).Some?
      modifies `free, `zombie, `waiting, `timers, `running, `reaps, pcb
      ensures pcb.Length == MAX_NUM_PROCESSES
      ensures Abs() == HandOver(old(Abs()), me, parent, FindByPid(old(pcb[..]), old(pcb[parent]).children, old(pcb[me]).pid).value)
    {
      ghost var s := Abs();
      AnswerParent(me, parent, s);
      ReleaseTimers(me);
      zombie := Without(zombie, me);
      free := [me] + free;
      running := Some(parent);
      reaps := reaps + [Reap(s.pcb[me].pid, s.pcb[me].returnValue, s.pcb[parent].pid, ExitPath)];
    }

    /** Lines 89-93 of `internal_exit`: the head of the ready list runs. */
    method RunFirst(ghost d: State)
      requires pcb.Length == MAX_NUM_PROCESSES && ready != [] && ready == d.ready && pcb[..] == d.pcb
      modifies `ready, `running, pcb
      ensures running == Some(d.ready[0]) && ready == d.ready[1..]
      ensures pcb[..] == d.pcb[d.ready[0] := d.pcb[d.ready[0]].(status := Running)]
    {
      var next := ready[0];
      ready := ready[1..];
      pcb[next] := pcb[next].(status := Running);
      running := Some(next);
    }

    /** Lines 15-37 of `internal_exit`: the exiting process becomes a zombie without children. */
    method BecomeZombie(me: Block)
      requires pcb.Length == MAX_NUM_PROCESSES && me != init
      modifies `zombie, `exits, pcb
      ensures pcb.Length == MAX_NUM_PROCESSES && Abs() == Die(old(Abs()), me)
    {
      ghost var s := Abs();
      exits := exits[pcb[me].pid := pcb[me].arg0];
      pcb[me] := pcb[me].(returnValue := pcb[me].arg0);
      ReparentChildren(me);
      pcb[me] := pcb[me].(status := Zombie);
      zombie := zombie + [me];
      assert pcb[..] == Die(s, me).pcb;
    }

    /** src/disastrOS_exit.c */
    method InternalExit(me: Block)
      requires pcb.Length == MAX_NUM_PROCESSES && ExitStep(Abs(), me).Next? && pcb[me].parent != Some(me)
      modifies this, pcb
      ensures pcb.Length == MAX_NUM_PROCESSES && ExitStep(old(Abs()), me) == Next(Abs())
    {
      ghost var s := Abs();
      BecomeZombie(me);
      var parent := pcb[me].parent.value;
      if pcb[parent].status == Waiting
         && pcb[parent].syscallNum == DSOS_CALL_WAIT
         && (pcb[parent].arg0 == 0 || pcb[parent].arg0 == pcb[me].pid) {
        HandOverTo(me, parent);
      } else {
        RunFirst(Die(s, me));
      }
    }

    /** src/disastrOS.c, `timerInterrupt` */
    method TimerInterrupt()
      requires Valid() && running.Some?
      modifies `timers, `waiting, `ready, `running, `time, pcb
      ensures Valid() && Step(old(Abs()), Tick) == Next(Abs())
    {
      ghost var s := Abs();
      ghost var me := running.value;
      Scheduling.TickKeeps(s);
      Reachability.TickStepKeeps(s, me);
      StepCases(s, Tick);
      time := time + 1;
      assert Abs() == s.(time := s.time + 1);
      InternalSchedule(running.value);
      assert Abs() == Schedule(s.(time := s.time + 1), me);
    }

    /** src/disastrOS.c, `disastrOS_syscall` and `disastrOS_trap` */
    method Syscall(c: Call)
      requires Valid() && !c.Tick? && Step(Abs(), c).Next?
      modifies this, pcb
      ensures Valid() && Step(old(Abs()), c) == Next(Abs())
    {
      ghost var s := Abs();
      var me := running.value;
      Scheduling.RecordKeeps(s, me, c);
      pcb[me] := Registers(pcb[me], c);
      assert pcb[..] == Record(s, me, c).pcb;
      assert Abs() == Record(s, me, c);
      Dispatch(me, c);
      Reachability.StepKeeps(s, c);
    }

    /** The call through the syscall vector. */
    method Dispatch(me: Block, c: Call)
      requires Valid() && running == Some(me) && !c.Tick? && Handler(Abs(), me, c).Next?
      modifies this, pcb
      ensures pcb.Length == MAX_NUM_PROCESSES && Handler(old(Abs()), me, c) == Next(Abs())
    {
      Scheduling.PlaceIsUnique(Abs(), me);
      match c
      case Preempt => InternalSchedule(me);
      case Fork => InternalSpawn(me);
      case Spawn(_, _) => InternalSpawn(me);
      case Wait(_, _) => InternalWait(me);
      case Exit(_) =>
        assert Invariants.Hangs(Abs(), me);
        InternalExit(me);
      case Sleep(_) => InternalSleep(me);
    }
  }

  /** A schedule changes nothing but these. */
  lemma {:induction false} ScheduleChanges(s: State, t: State, me: Block)
    requires t == Schedule(s, me)
    ensures t == s.(pcb := t.pcb, ready := t.ready, waiting := t.waiting, timers := t.timers, running := t.running)
  {
  }

  lemma {:induction false} FindSame(p: PcbTable, r: PcbTable, kids: seq<Block>, pid: int)
    requires forall b: Block :: p[b].pid == r[b].pid
    ensures FindByPid(p, kids, pid) == FindByPid(r, kids, pid)
  {
    if kids != [] {
      FindSame(p, r, kids[1..], pid);
    }
  }
}
