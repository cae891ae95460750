/** Every kernel entry point as one atomic step on the scheduler state. */
module Syscalls {
  import opened Sequences
  import opened Processes

  /** `Tick` is the timer interrupt, the others are system calls with their arguments.
      `result` is the address a waiter passes for the exit value, 0 for none. */
  datatype Call =
    | Tick
    | Preempt
    | Fork
    | Spawn(function_: int, args: int)
    | Wait(pid: int, result: int)
    | Exit(value: int)
    | Sleep(cycles: int)

  /** `Crash` is a null dereference, `Hang` a loop without end. */
  datatype Outcome = Next(state: State) | Crash | Hang

  function Number(c: Call): int
    requires !c.Tick?
  {
    match c
    case Preempt => DSOS_CALL_PREEMPT
    case Fork => DSOS_CALL_FORK
    case Spawn(_, _) => DSOS_CALL_SPAWN
    case Wait(_, _) => DSOS_CALL_WAIT
    case Exit(_) => DSOS_CALL_EXIT
    case Sleep(_) => DSOS_CALL_SLEEP
  }

  /** The registers of `p` once the call is recorded; registers the call does not use keep their value. */
  function Registers(p: Pcb, c: Call): Pcb
    requires !c.Tick?
  {
    var q := p.(syscallNum := Number(c));
    match c
    case Preempt => q
    case Fork => q
    case Spawn(f, a) => q.(arg0 := f, arg1 := a)
    case Wait(pid, result) => q.(arg0 := pid, arg1 := result)
    case Exit(value) => q.(arg0 := value)
    case Sleep(cycles) => q.(arg0 := cycles)
  }

  function Record(s: State, me: Block, c: Call): State
    requires !c.Tick?
  {
    s.(pcb := s.pcb[me := Registers(s.pcb[me], c)])
  }

  // ----- schedule -----

  /** Everything in `due` becomes Ready and loses its timer pointer. */
  function WakeUp(pcb: PcbTable, due: seq<Block>): (r: PcbTable) {
    seq(MAX_NUM_PROCESSES, i requires 0 <= i < MAX_NUM_PROCESSES =>
      if i in due then pcb[i].(status := Ready, timer := None) else pcb[i])
  }

  /** The owners of all due timers leave the waiting list for the front of the ready list. */
  function WakeDue(s: State): State {
    var k := DueCount(s.timers, s.time);
    var due := Owners(s.timers[..k]);
    s.(timers := s.timers[k..],
       waiting := Keep(s.waiting, due),
       ready := due + s.ready,
       pcb := WakeUp(s.pcb, due))
  }

  /** The ready head takes over from `me`, which goes to the ready tail. */
  function Rotate(s: State, me: Block): State {
    if s.ready == [] then s
    else
      var next := s.ready[0];
      var pcb := s.pcb[me := s.pcb[me].(status := Ready)];
      s.(pcb := pcb[next := pcb[next].(status := Running)],
         ready := s.ready[1..] + [me],
         running := Some(next))
  }

  function Schedule(s: State, me: Block): State {
    Rotate(WakeDue(s), me)
  }

  // ----- fork and spawn -----

  /** The first free block with its fields reset; the registers keep what the block last held. */
  function Newborn(p: Pcb, pid: int, parent: Block): Pcb {
    p.(pid := pid, returnValue := 0, status := Ready, parent := Some(parent), timer := None, children := [])
  }

  function SpawnStep(s: State, me: Block): Outcome {
    if s.free == [] || s.ptrFree == 0 then Crash
    else
      var child := s.free[0];
      var pcb := s.pcb[child := Newborn(s.pcb[child], s.lastPid, me)];
      Next(s.(
        pcb := pcb[me := pcb[me].(children := pcb[me].children + [child], retValue := s.lastPid)],
        free := s.free[1..],
        ptrFree := s.ptrFree - 1,
        ready := s.ready + [child],
        lastPid := s.lastPid + 1,
        births := s.births + [Birth(child, s.pcb[me].pid)]))
  }

  // ----- wait -----

  /** Where the scan of the children list stops. */
  predicate StopsAt(p: Pcb, q: int) {
    if q == 0 then p.status == Zombie else p.pid == q
  }

  /** The child the scan ends on: the first match, or else the last child. */
  function Scan(pcb: PcbTable, kids: seq<Block>, q: int): (c: Block)
    requires kids != []
    ensures c in kids
  {
    if |kids| == 1 || StopsAt(pcb[kids[0]], q) then kids[0] else Scan(pcb, kids[1..], q)
  }

  lemma {:induction false} ScanIs(pcb: PcbTable, kids: seq<Block>, q: int, k: nat)
    requires k < |kids| && (forall i :: 0 <= i < k ==> !StopsAt(pcb[kids[i]], q))
    requires StopsAt(pcb[kids[k]], q) || k == |kids| - 1
    ensures Scan(pcb, kids, q) == kids[k]
  {
    if k > 0 {
      ScanIs(pcb, kids[1..], q, k - 1);
    }
  }

  /** `me` goes to the waiting tail and the ready head runs. */
  function BlockStep(s: State, me: Block): Outcome {
    var s' := s.(pcb := s.pcb[me := s.pcb[me].(status := Waiting)], waiting := s.waiting + [me]);
    if s.ready == [] then Crash
    else Next(s'.(running := Some(s.ready[0]), ready := s.ready[1..]))
  }

  /** `me` collects its zombie child `c` and frees it. */
  function ReapStep(s: State, me: Block, c: Block): State {
    var p := s.pcb[me];
    s.(pcb := s.pcb[me := p.(
         children := Without(p.children, c),
         retValue := s.pcb[c].pid,
         delivered := if p.arg1 != 0 then s.pcb[c].returnValue else p.delivered)],
       ptrFree := s.ptrFree + 1,
       zombie := Without(s.zombie, c),
       free := [c] + s.free,
       reaps := s.reaps + [Reap(s.pcb[c].pid, s.pcb[c].returnValue, p.pid, WaitPath)])
  }

  function WaitStep(s: State, me: Block): Outcome {
    var p := s.pcb[me];
    if p.children == [] then
      Next(s.(pcb := s.pcb[me := p.(retValue := DSOS_EWAIT)]))
    else
      var c := Scan(s.pcb, p.children, p.arg0);
      if s.pcb[c].status == Zombie then Next(ReapStep(s, me, c)) else BlockStep(s, me)
  }

  // ----- sleep -----

  function SleepStep(s: State, me: Block): Outcome {
    var p := s.pcb[me];
    if p.timer.Some? || |s.timers| >= MAX_NUM_PROCESSES then
      Next(s.(pcb := s.pcb[me := p.(retValue := DSOS_ESLEEP)]))
    else
      var s' := s.(
        timers := AddTimer(s.timers, TimerItem(s.time + p.arg0, me, s.sleeps)),
        sleeps := s.sleeps + 1,
        pcb := s.pcb[me := p.(status := Waiting)],
        waiting := s.waiting + [me]);
      if s.ready == [] then Next(s'.(running := None))
      else Next(s'.(running := Some(s.ready[0]), ready := s.ready[1..]))
  }

  // ----- exit -----

  /** `me` becomes a zombie and its children move to the tail of init's list. */
  function Die(s: State, me: Block): State
    requires me != s.init
  {
    var p := s.pcb[me];
    var i := s.pcb[s.init];
    s.(pcb := s.pcb[me := p.(returnValue := p.arg0, status := Zombie, children := [])]
                   [s.init := i.(children := i.children + p.children)],
       zombie := s.zombie + [me],
       exits := s.exits[p.pid := p.arg0])
  }

  /** Is `p` blocked in a wait that the exit of `pid` ends? */
  predicate WaitsFor(p: Pcb, pid: int) {
    p.status == Waiting && p.syscallNum == DSOS_CALL_WAIT && (p.arg0 == 0 || p.arg0 == pid)
  }

  function FindByPid(pcb: PcbTable, kids: seq<Block>, pid: int): (r: Option<Block>)
    ensures r.Some? ==> r.value in kids && pcb[r.value].pid == pid
    ensures r.None? ==> forall c: Block :: c in kids ==> pcb[c].pid != pid
  {
    if kids == [] then None
    else if pcb[kids[0]].pid == pid then Some(kids[0])
    else FindByPid(pcb, kids[1..], pid)
  }

  function TimersWithout(ts: seq<TimerItem>, b: Block): seq<TimerItem> {
    if ts == [] then []
    else (if ts[0].pcb == b then [] else [ts[0]]) + TimersWithout(ts[1..], b)
  }

  /** The waiting parent `par` runs with the exit value of `me`, whose block is freed at once. */
  function HandOver(s: State, me: Block, par: Block, cell: Block): State {
    var p := s.pcb[par];
    s.(pcb := s.pcb[par := p.(
         status := Running,
         children := Without(p.children, cell),
         retValue := s.pcb[me].pid,
         delivered := if p.arg1 != 0 then s.pcb[me].returnValue else p.delivered)],
       waiting := Without(s.waiting, par),
       timers := TimersWithout(s.timers, me),
       zombie := Without(s.zombie, me),
       free := [me] + s.free,
       running := Some(par),
       reaps := s.reaps + [Reap(s.pcb[me].pid, s.pcb[me].returnValue, p.pid, ExitPath)])
  }

  function ExitStep(s: State, me: Block): Outcome {
    if me == s.init then
      if s.pcb[me].children != [] then Hang else Crash
    else
      var d := Die(s, me);
      var parent := d.pcb[me].parent;
      if parent.None? then Crash
      else if WaitsFor(d.pcb[parent.value], d.pcb[me].pid) then
        var cell := FindByPid(d.pcb, d.pcb[parent.value].children, d.pcb[me].pid);
        if cell.None? then Crash else Next(HandOver(d, me, parent.value, cell.value))
      else if d.ready == [] then Crash
      else
        var next := d.ready[0];
        Next(d.(pcb := d.pcb[next := d.pcb[next].(status := Running)],
                running := Some(next),
                ready := d.ready[1..]))
  }

  // ----- one step, and runs of steps -----

  /** The entry of the syscall vector for `c`, once the call is recorded. */
  function Handler(s: State, me: Block, c: Call): Outcome
    requires !c.Tick?
  {
    match c
    case Preempt => Next(Schedule(s, me))
    case Fork => SpawnStep(s, me)
    case Spawn(_, _) => SpawnStep(s, me)
    case Wait(_, _) => WaitStep(s, me)
    case Exit(_) => ExitStep(s, me)
    case Sleep(_) => SleepStep(s, me)
  }

  function Step(s: State, c: Call): Outcome {
    if s.running.None? then Crash
    else if c.Tick? then Next(Schedule(s.(time := s.time + 1), s.running.value))
    else Handler(Record(s, s.running.value, c), s.running.value, c)
  }

  lemma {:induction false} StepCases(s: State, c: Call)
    requires s.running.Some?
    ensures var me := s.running.value;
      Step(s, c) == if c.Tick? then Next(Schedule(s.(time := s.time + 1), me)) else Handler(Record(s, me, c), me, c)
  {
    if c.Tick? {
    }
  }

  /** All calls of `cs` in turn, for as long as there is a next state. */
  function Run(s: State, cs: seq<Call>): Outcome
    decreases |cs|
  {
    if cs == [] then Next(s)
    else
      var o := Step(s, cs[0]);
      if o.Next? then Run(o.state, cs[1..]) else o
  }

  /** A run in two parts. */
  lemma {:induction false} RunSplit(s: State, cs: seq<Call>, ds: seq<Call>, t: State)
    requires Run(s, cs) == Next(t)
    ensures Run(s, cs + ds) == Run(t, ds)
    decreases cs
  {
    if cs == [] {
      assert cs + ds == ds;
    } else {
      assert (cs + ds)[1..] == cs[1..] + ds;
      RunSplit(Step(s, cs[0]).state, cs[1..], ds, t);
    }
  }

  /** Right after `disastrOS_start`: one process, pid 0, is running. */
  function Boot(): State {
    var init := BLANK.(status := Running);
    State(seq(MAX_NUM_PROCESSES, i => if i == 0 then init else BLANK),
          seq(MAX_NUM_PROCESSES - 1, i requires 0 <= i < MAX_NUM_PROCESSES - 1 => i + 1),
          MAX_NUM_PROCESSES, Some(0), 0, [], [], [], [], 0, 1, 0, [Birth(0, -1)], map[], [])
  }
}
