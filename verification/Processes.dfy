/** The kernel's data: PCB records, the timer queue and the global scheduler state. */
module Processes {
  import opened Sequences

  const MAX_NUM_PROCESSES: nat := 1024

  const DSOS_EWAIT := -5
  const DSOS_ESLEEP := -7

  const DSOS_CALL_PREEMPT := 1
  const DSOS_CALL_FORK := 2
  const DSOS_CALL_WAIT := 3
  const DSOS_CALL_EXIT := 4
  const DSOS_CALL_SPAWN := 5
  const DSOS_CALL_SLEEP := 6

  /** A PCB address: an index into the static PCB buffer. Blocks are recycled, pids are not. */
  type Block = b: int | 0 <= b < MAX_NUM_PROCESSES

  datatype Status = Invalid | Created | Running | Ready | Waiting | Suspended | Zombie

  /** `parent` and `timer` are the C pointers; `children` is the list of PCBPtr cells.
      `delivered` is the integer that the caller's `result` pointer refers to. */
  datatype Pcb = Pcb(
    pid: int,
    returnValue: int,
    status: Status,
    parent: Option<Block>,
    children: seq<Block>,
    timer: Option<nat>,
    syscallNum: int,
    arg0: int,
    arg1: int,
    retValue: int,
    delivered: int)

  type PcbTable = t: seq<Pcb> | |t| == MAX_NUM_PROCESSES
    witness seq(MAX_NUM_PROCESSES, _ => BLANK)

  /** What the zero-initialised static buffer holds. */
  const BLANK := Pcb(0, 0, Created, None, [], None, 0, 0, 0, 0, 0)

  /** `stamp` numbers the successful sleep calls; it is a history variable. */
  datatype TimerItem = TimerItem(wakeTime: int, pcb: Block, stamp: nat)

  /** History variables: who spawned which pid, and which child was reported to whom on which path. */
  datatype Birth = Birth(block: Block, parentPid: int)
  datatype Path = ExitPath | WaitPath
  datatype Reap = Reap(pid: int, value: int, receiver: int, path: Path)

  datatype State = State(
    pcb: PcbTable,
    free: seq<Block>,
    ptrFree: nat,
    running: Option<Block>,
    init: Block,
    ready: seq<Block>,
    waiting: seq<Block>,
    zombie: seq<Block>,
    timers: seq<TimerItem>,
    time: int,
    lastPid: int,
    sleeps: nat,
    births: seq<Birth>,
    exits: map<int, int>,
    reaps: seq<Reap>)

  // ----- the timer queue as a sequence -----

  function Owners(ts: seq<TimerItem>): (r: seq<Block>)
    ensures |r| == |ts| && forall i :: 0 <= i < |r| ==> r[i] == ts[i].pcb
  {
    seq(|ts|, i requires 0 <= i < |ts| => ts[i].pcb)
  }

  /** How many leading timers have a wake time of at most `now`. */
  function DueCount(ts: seq<TimerItem>, now: int): (k: nat)
    ensures k <= |ts|
    ensures forall i :: 0 <= i < k ==> ts[i].wakeTime <= now
    ensures k < |ts| ==> ts[k].wakeTime > now
  {
    if ts == [] || now < ts[0].wakeTime then 0 else 1 + DueCount(ts[1..], now)
  }

  /** Insertion behind every leading timer that is due no later than `t`. */
  function AddTimer(ts: seq<TimerItem>, t: TimerItem): seq<TimerItem> {
    var k := DueCount(ts, t.wakeTime);
    ts[..k] + [t] + ts[k..]
  }

  /** Earlier wake time first; equal wake times in the order of the sleep calls. */
  predicate Before(a: TimerItem, b: TimerItem) {
    a.wakeTime < b.wakeTime || (a.wakeTime == b.wakeTime && a.stamp < b.stamp)
  }

  ghost predicate Ordered(ts: seq<TimerItem>) {
    forall i, j :: 0 <= i < j < |ts| ==> Before(ts[i], ts[j])
  }

  /** How many timers belong to `b`. */
  ghost function Owned(ts: seq<TimerItem>, b: Block): nat {
    multiset(Owners(ts))[b]
  }

  lemma {:induction false} OwnersConcat(a: seq<TimerItem>, b: seq<TimerItem>)
    ensures Owners(a + b) == Owners(a) + Owners(b)
  {}

  /** Adding a timer keeps the queue in order. */
  lemma {:induction false} AddTimerOrdered(ts: seq<TimerItem>, t: TimerItem)
    requires Ordered(ts)
    requires forall i :: 0 <= i < |ts| ==> ts[i].stamp < t.stamp
    ensures Ordered(AddTimer(ts, t))
  {
    var k := DueCount(ts, t.wakeTime);
    var r := AddTimer(ts, t);
    assert r[k] == t;
    forall i, j | 0 <= i < j < |r| ensures Before(r[i], r[j]) {
      var i' := if i <= k then i else i - 1;
      var j' := if j <= k then j else j - 1;
      assert i != k ==> r[i] == ts[i'];
      assert j != k ==> r[j] == ts[j'];
      if i == k {
        assert k < j' ==> Before(ts[k], ts[j']);
      } else if j != k {
        assert Before(ts[i'], ts[j']);
      }
    }
  }

  /** Its owner has one timer more, and every other timer is still there. */
  lemma {:induction false} AddTimerOwned(ts: seq<TimerItem>, t: TimerItem, b: Block)
    ensures Owned(AddTimer(ts, t), b) == Owned(ts, b) + if b == t.pcb then 1 else 0
  {
    var k := DueCount(ts, t.wakeTime);
    assert ts == ts[..k] + ts[k..];
    OwnersConcat(ts[..k], ts[k..]);
    OwnersConcat(ts[..k] + [t], ts[k..]);
    OwnersConcat(ts[..k], [t]);
    assert Owners([t]) == [t.pcb];
  }

  lemma {:induction false} AddTimerMembers(ts: seq<TimerItem>, t: TimerItem)
    ensures multiset(AddTimer(ts, t)) == multiset(ts) + multiset{t}
  {
    var k := DueCount(ts, t.wakeTime);
    assert ts == ts[..k] + ts[k..];
  }

  /** Behind the due timers of an ordered queue there are only later ones. */
  lemma {:induction false} RestInFuture(ts: seq<TimerItem>, now: int, i: nat)
    requires Ordered(ts) && DueCount(ts, now) <= i < |ts|
    ensures ts[i].wakeTime > now
  {
    var k := DueCount(ts, now);
    assert k < i ==> Before(ts[k], ts[i]);
  }

  lemma {:induction false} OwnedSplit(ts: seq<TimerItem>, k: nat, b: Block)
    requires k <= |ts|
    ensures Owned(ts, b) == multiset(Owners(ts[..k]))[b] + Owned(ts[k..], b)
  {
    assert ts == ts[..k] + ts[k..];
    OwnersConcat(ts[..k], ts[k..]);
  }
}
