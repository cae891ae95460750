/** Every exited child is reported exactly once, and no pid or block gets lost. */
module Reaping {
  import opened Sequences
  import opened Processes
  import opened Syscalls
  import opened Invariants
  import opened Reachability
  import Scheduling
  import SleepTimes

  /** Spawned = alive + zombie + reaped. */
  lemma {:induction false} Accounting(cs: seq<Call>, s: State)
    requires Run(Boot(), cs) == Next(s)
    ensures |s.births| == (if s.running.Some? then 1 else 0) + |s.ready| + |s.waiting| + |s.zombie| + |s.reaps|
    ensures s.lastPid == |s.births|
  {
    Reachable(cs);
    SleepTimes.Conservation(s);
  }

  /** An exited pid is either a zombie or in exactly one reaping, which carries the exit value
      to the process that spawned it, or to init if that process has exited too. */
  lemma {:induction false} ReportedExactlyOnce(cs: seq<Call>, s: State, pid: int)
    requires Run(Boot(), cs) == Next(s) && pid in s.exits
    ensures 0 <= pid < |s.births|
    ensures Reaped(s, pid) <==> !(s.births[pid].block in s.zombie && s.pcb[s.births[pid].block].pid == pid)
    ensures forall i, j :: 0 <= i < |s.reaps| && 0 <= j < |s.reaps| && s.reaps[i].pid == pid && s.reaps[j].pid == pid ==> i == j
    ensures forall i :: 0 <= i < |s.reaps| && s.reaps[i].pid == pid ==>
              && s.reaps[i].value == s.exits[pid]
              && (s.reaps[i].receiver == s.births[pid].parentPid || (s.reaps[i].receiver == 0 && s.births[pid].parentPid in s.exits))
  {
    Reachable(cs);
    var b := s.births[pid].block;
    assert FateFits(s, pid) && PidFits(s, b);
    Scheduling.PlaceIsUnique(s, b);
    forall i | 0 <= i < |s.reaps| && s.reaps[i].pid == pid
      ensures s.reaps[i].value == s.exits[pid]
      ensures s.reaps[i].receiver == s.births[pid].parentPid || (s.reaps[i].receiver == 0 && s.births[pid].parentPid in s.exits)
    {
      assert ReapFits(s, s.reaps[i]);
    }
  }

  // ----- who is told -----

  /** Whose child `pid` is: its spawner's, or init's (pid 0) once the spawner has exited. */
  function Keeper(s: State, pid: int): int
    requires 0 <= pid < |s.births|
  {
    if s.births[pid].parentPid in s.exits then 0 else s.births[pid].parentPid
  }

  /** The process whose children list holds it is the keeper. */
  lemma {:induction false} KeeperHasChild(s: State, c: Block, b: Block)
    requires Inv(s) && ChildOf(s, c, b)
    ensures 0 <= s.pcb[c].pid < |s.births| && Keeper(s, s.pcb[c].pid) == s.pcb[b].pid
  {
    assert KidFits(s, c, b) && Hangs(s, b) && PidFits(s, b);
  }

  // ----- the log says what the registers say -----

  /** The running process of `t` has just been told about the child in `r`. */
  ghost predicate Told(t: State, r: Reap) {
    t.running.Some? &&
    var p := t.pcb[t.running.value];
    p.pid == r.receiver && p.retValue == r.pid && (p.arg1 != 0 ==> p.delivered == r.value)
  }

  /** In `s` the child was still the receiver's. */
  ghost predicate ToKeeper(s: State, r: Reap) {
    0 <= r.pid < |s.births| && r.receiver == Keeper(s, r.pid)
  }

  ghost predicate LogStep(s: State, t: State) {
    t.reaps == s.reaps || exists r :: t.reaps == s.reaps + [r] && Told(t, r) && ToKeeper(s, r)
  }

  lemma {:induction false} WaitLog(s: State, me: Block)
    requires Inv(s) && s.running == Some(me) && WaitStep(s, me).Next?
    ensures LogStep(s, WaitStep(s, me).state)
    ensures WaitStep(s, me).state.exits == s.exits
  {
    var t := WaitStep(s, me).state;
    if t.reaps != s.reaps {
      var c := Scan(s.pcb, s.pcb[me].children, s.pcb[me].arg0);
      var r := Reap(s.pcb[c].pid, s.pcb[c].returnValue, s.pcb[me].pid, WaitPath);
      KeeperHasChild(s, c, me);
      assert t.reaps == s.reaps + [r] && Told(t, r) && ToKeeper(s, r);
    }
  }

  /** A first exit: the pid was not in the exit log. */
  ghost predicate ExitStepLog(s: State, t: State, me: Block, value: int) {
    s.pcb[me].pid !in s.exits && t.exits == s.exits[s.pcb[me].pid := value]
  }

  /** The woken parent does have the exiting process below it. */
  lemma {:induction false} OwnCell(s: State, me: Block, par: Block)
    requires Inv(s) && s.running == Some(me) && me != s.init && par != me
    requires FindByPid(Die(s, me).pcb, Die(s, me).pcb[par].children, s.pcb[me].pid).Some?
    ensures ChildOf(s, me, par)
  {
    CellIsMe(s, me, par, FindByPid(Die(s, me).pcb, Die(s, me).pcb[par].children, s.pcb[me].pid).value);
    DeadKids(s, me, me, par);
    assert ChildOf(s, me, me) ==> KidFits(s, me, me);
  }

  lemma {:induction false} ExitLog(s: State, me: Block)
    requires Inv(s) && s.running == Some(me) && ExitStep(s, me).Next?
    ensures LogStep(s, ExitStep(s, me).state)
    ensures ExitStepLog(s, ExitStep(s, me).state, me, s.pcb[me].arg0)
  {
    var t := ExitStep(s, me).state;
    var d := Die(s, me);
    assert PidFits(s, me);
    Scheduling.PlaceIsUnique(s, me);
    if t.reaps != s.reaps {
      var par := s.pcb[me].parent.value;
      assert StatusFits(s, par) && StatusFits(s, me);
      assert par != me;
      var r := Reap(d.pcb[me].pid, d.pcb[me].returnValue, d.pcb[par].pid, ExitPath);
      OwnCell(s, me, par);
      KeeperHasChild(s, me, par);
      assert t.reaps == s.reaps + [r] && Told(t, r) && ToKeeper(s, r);
    }
  }

  lemma {:induction false} ScheduleLog(s: State, me: Block)
    ensures Schedule(s, me).reaps == s.reaps && Schedule(s, me).exits == s.exits
  {
  }

  lemma {:induction false} HandlerLog(s: State, me: Block, c: Call)
    requires Inv(s) && s.running == Some(me) && !c.Tick? && Handler(s, me, c).Next?
    ensures LogStep(s, Handler(s, me, c).state)
    ensures if c.Exit? then ExitStepLog(s, Handler(s, me, c).state, me, s.pcb[me].arg0)
            else Handler(s, me, c).state.exits == s.exits
  {
    match c
    case Wait(_, _) => WaitLog(s, me);
    case Exit(_) => ExitLog(s, me);
    case _ =>
  }

  /** A step appends at most one reaping: then the child's spawner is told, or init if that one has exited before,
      and it runs with the child's pid and value. */
  lemma {:induction false} StepLog(s: State, c: Call, t: State)
    requires Inv(s) && Step(s, c) == Next(t)
    ensures LogStep(s, t)
    ensures if c.Exit? then ExitStepLog(s, t, s.running.value, c.value) else t.exits == s.exits
  {
    var me := s.running.value;
    StepCases(s, c);
    if c.Tick? {
      ScheduleLog(s.(time := s.time + 1), me);
    } else {
      var r := Record(s, me, c);
      Scheduling.RecordKeeps(s, me, c);
      assert Handler(r, me, c) == Next(t);
      HandlerLog(r, me, c);
    }
  }

  /** What was reported stays reported: the log of a later state extends that of an earlier one. */
  lemma {:induction false} LogGrows(s: State, cs: seq<Call>, t: State)
    requires Inv(s) && Run(s, cs) == Next(t)
    ensures s.reaps <= t.reaps
    ensures forall pid :: pid in s.exits ==> pid in t.exits && t.exits[pid] == s.exits[pid]
    decreases |cs|
  {
    if cs != [] {
      var u := Step(s, cs[0]).state;
      StepLog(s, cs[0], u);
      StepKeeps(s, cs[0]);
      LogGrows(u, cs[1..], t);
    }
  }

  /** The PCBPtr cell of a child that is reported by its own exit is never freed. */
  lemma {:induction false} PtrLeak(cs: seq<Call>, s: State)
    requires Run(Boot(), cs) == Next(s)
    ensures MAX_NUM_PROCESSES - s.ptrFree
         == (MAX_NUM_PROCESSES - |s.free| - 1) + (|s.reaps| - WaitReaps(s.reaps))
  {
    Reachable(cs);
  }
}
