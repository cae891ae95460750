/** What every reachable scheduler state satisfies. */
module Invariants {
  import opened Sequences
  import opened Processes

  /** How many times `b` occurs as the running process, in the three lists, or in the free chain. */
  ghost function Places(s: State, b: Block): nat {
    (if s.running == Some(b) then 1 else 0) + multiset(s.ready)[b] + multiset(s.waiting)[b]
    + multiset(s.zombie)[b] + multiset(s.free)[b]
  }

  /** Every block is in exactly one place. */
  ghost predicate Partition(s: State) {
    forall b: Block :: Places(s, b) == 1
  }

  /** The status field agrees with the place. */
  ghost predicate StatusFits(s: State, b: Block) {
    && (s.pcb[b].status == Waiting <==> b in s.waiting)
    && (b in s.zombie ==> s.pcb[b].status == Zombie)
    && (b in s.ready ==> s.pcb[b].status == Ready)
    && (s.running == Some(b) ==> s.pcb[b].status in {Running, Ready})
    && (b in s.free ==> s.pcb[b].status in {Created, Zombie})
    && s.pcb[b].timer == None
  }

  ghost predicate Statuses(s: State) {
    forall b: Block :: StatusFits(s, b)
  }

  ghost predicate Sleeping(s: State, b: Block) {
    b in s.waiting && s.pcb[b].syscallNum == DSOS_CALL_SLEEP
  }

  /** Waiting processes wait for a child or for a timer, and timers belong one each to the latter. */
  ghost predicate TimerFits(s: State, b: Block) {
    && (b in s.waiting ==> s.pcb[b].syscallNum in {DSOS_CALL_SLEEP, DSOS_CALL_WAIT})
    && Owned(s.timers, b) == (if Sleeping(s, b) then 1 else 0)
  }

  ghost predicate Timers(s: State) {
    && (forall b: Block :: TimerFits(s, b))
    && Ordered(s.timers)
    && forall i :: 0 <= i < |s.timers| ==> s.timers[i].stamp < s.sleeps
  }

  /** `c` is in the children list of `b`. */
  ghost predicate ChildOf(s: State, c: Block, b: Block) {
    c in s.pcb[b].children
  }

  /** A member of `b`'s children list is an allocated process other than init, occurs once in that list, and if
      adopted by init in no other. `b` spawned it, or `b` is init and the one who did has exited. */
  ghost predicate KidFits(s: State, c: Block, b: Block) {
    && c !in s.free && c != s.init && c != b
    && (b == s.init || s.pcb[c].parent == Some(b))
    && multiset(s.pcb[b].children)[c] == 1
    && (b != s.init ==> !ChildOf(s, c, s.init))
    && 0 <= s.pcb[c].pid < |s.births|
    && 0 <= s.pcb[b].pid < |s.births|
    && (s.births[s.pcb[c].pid].parentPid == s.pcb[b].pid || (b == s.init && s.births[s.pcb[c].pid].parentPid in s.exits))
  }

  /** Every allocated process but init hangs below its parent or below init; the dead have no children. */
  ghost predicate Hangs(s: State, c: Block) {
    && (c !in s.free && c != s.init ==>
        s.pcb[c].parent.Some? && s.pcb[c].parent != Some(c) && (ChildOf(s, c, s.init) || ChildOf(s, c, s.pcb[c].parent.value)))
    && (c in s.zombie || c in s.free ==> s.pcb[c].children == [])
  }

  ghost predicate Tree(s: State) {
    && (forall b: Block, c: Block | ChildOf(s, c, b) :: KidFits(s, c, b))
    && (forall c: Block :: Hangs(s, c))
    && s.init !in s.free && s.init !in s.zombie
    && s.pcb[s.init].parent == None && s.pcb[s.init].pid == 0
  }

  /** `b` is the block that was given pid `pid`, and it still has it. */
  ghost predicate Holds(s: State, b: Block, pid: int) {
    0 <= pid < |s.births| && s.births[pid].block == b && s.pcb[b].pid == pid && b !in s.free
  }

  ghost predicate Reaped(s: State, pid: int) {
    exists i :: 0 <= i < |s.reaps| && s.reaps[i].pid == pid
  }

  /** A pid that was issued is either held by its block or reaped, never both. */
  ghost predicate FateFits(s: State, pid: int) {
    0 <= pid < |s.births| ==> (Reaped(s, pid) <==> !Holds(s, s.births[pid].block, pid))
  }

  /** A delivery went to the process that spawned the child, or to init (pid 0) if that one has exited,
      with the value the child exited with. */
  ghost predicate ReapFits(s: State, r: Reap) {
    && 0 < r.pid < |s.births|
    && r.pid in s.exits && s.exits[r.pid] == r.value
    && (r.receiver == s.births[r.pid].parentPid || (r.receiver == 0 && s.births[r.pid].parentPid in s.exits))
  }

  /** An allocated block holds its pid; it has exited iff it is a zombie. */
  ghost predicate PidFits(s: State, b: Block) {
    b !in s.free ==>
      && Holds(s, b, s.pcb[b].pid)
      && (s.pcb[b].pid in s.exits <==> b in s.zombie)
      && (b in s.zombie ==> s.exits[s.pcb[b].pid] == s.pcb[b].returnValue)
  }

  ghost function WaitReaps(rs: seq<Reap>): nat {
    if rs == [] then 0 else WaitReaps(rs[..|rs| - 1]) + if rs[|rs| - 1].path.WaitPath? then 1 else 0
  }

  ghost predicate Ledger(s: State) {
    && s.lastPid == |s.births|
    && s.births != [] && s.births[0].block == s.init
    && (forall b: Block :: PidFits(s, b))
    && (forall pid :: FateFits(s, pid))
    && (forall pid :: pid in s.exits ==> 0 <= pid < |s.births|)
    && (forall r :: r in s.reaps ==> ReapFits(s, r))
    && (forall i, j :: 0 <= i < j < |s.reaps| ==> s.reaps[i].pid != s.reaps[j].pid)
    && |s.births| == MAX_NUM_PROCESSES - |s.free| + |s.reaps|
    && s.ptrFree + |s.births| == MAX_NUM_PROCESSES + 1 + WaitReaps(s.reaps)
  }

  ghost predicate Inv(s: State) {
    Partition(s) && Statuses(s) && Timers(s) && Tree(s) && Ledger(s)
  }
}
