/** The timer list and the wake loop on real linked lists, proved to do what the sequence model says. */
module PointerQueues {
  import opened Sequences
  import opened Processes
  import opened Syscalls
  import opened Invariants
  import opened LinkedList
  import opened WakeTraces
  import Scheduling
  import SleepTimes
  import Reachability

  // ----- src/disastrOS_timer.c -----

  /** `TimerList_add` once the timer block is allocated. */
  method TimerListAdd(timers: ListHead<TimerItem>, item: ListItem<TimerItem>)
    requires timers.Valid() && item !in timers.repr && item.prev == null && item.next == null
    modifies timers, item`prev, item`next, timers.repr`prev, timers.repr`next
    ensures timers.Valid() && timers.Contents() == AddTimer(old(timers.Contents()), item.data)
    ensures timers.repr == old(timers.repr) + {item}
  {
    ghost var was := timers.items;
    ghost var ts := timers.Contents();
    var aux := timers.first;
    var previous: ListItem?<TimerItem> := null;
    ghost var k := 0;
    while aux != null
      invariant 0 <= k <= |was|
      invariant aux == if k < |was| then was[k] else null
      invariant previous == if k == 0 then null else was[k - 1]
      invariant forall i :: 0 <= i < k ==> ts[i].wakeTime <= item.data.wakeTime
      decreases |was| - k
    {
      if item.data.wakeTime < aux.data.wakeTime {
        break;
      }
      assert was[k].next == aux.next;
      previous := aux;
      aux := aux.next;
      k := k + 1;
    }
    DueCountIs(ts, item.data.wakeTime, k);
    ghost var x := item.data;
    InsertAfterIndex<ListItem<TimerItem>>(was, Pointer(previous), item, k);
    var r := timers.Insert(previous, item);
    PutIn(ts, timers.Contents(), x, k);
  }

  lemma {:induction false} PutIn(ts: seq<TimerItem>, r: seq<TimerItem>, x: TimerItem, k: nat)
    requires k <= |ts| && |r| == |ts| + 1 && r[k] == x && k == DueCount(ts, x.wakeTime)
    requires forall i :: 0 <= i < k ==> r[i] == ts[i]
    requires forall i :: k < i < |r| ==> r[i] == ts[i - 1]
    ensures r == AddTimer(ts, x)
  {
  }

  /** `TimerList_current`, a query: the first timer if it is due. */
  function TimerListCurrent(timers: ListHead<TimerItem>, now: int): (r: ListItem?<TimerItem>)
    requires timers.Valid()
    reads timers, timers.repr
    ensures r == null <==> DueCount(timers.Contents(), now) == 0
    ensures r != null ==> r == timers.items[0]
  {
    if timers.first == null then null
    else if now >= timers.first.data.wakeTime then timers.first
    else null
  }

  /** `TimerList_removeCurrent`, up to the release of the block */
  method TimerListRemoveCurrent(timers: ListHead<TimerItem>)
    requires timers.Valid() && timers.items != []
    modifies timers, timers.repr`prev, timers.repr`next
    ensures timers.Valid() && timers.items == old(timers.items[1..]) && timers.repr <= old(timers.repr)
    ensures timers.Contents() == old(timers.Contents()[1..])
  {
    var r := timers.Detach(timers.first);
  }

  // ----- the wake loop of src/disastrOS_schedule.c -----

  /** The list members of the PCBs of `bs`: `cells[b]` is the `list` member of block `b`. */
  type Cells = seq<ListItem<Block>>

  ghost predicate Buffer(cells: Cells) {
    |cells| == MAX_NUM_PROCESSES && Distinct(cells)
  }

  ghost function CellsOf(cells: Cells, bs: seq<Block>): (r: Cells)
    requires Buffer(cells)
    ensures |r| == |bs| && forall i :: 0 <= i < |r| ==> r[i] == cells[bs[i]]
  {
    seq(|bs|, i requires 0 <= i < |bs| => cells[bs[i]])
  }

  lemma {:induction false} CellIn(cells: Cells, bs: seq<Block>, b: Block)
    requires Buffer(cells)
    ensures cells[b] in CellsOf(cells, bs) <==> b in bs
  {
    if b in bs {
      var i :| 0 <= i < |bs| && bs[i] == b;
      assert CellsOf(cells, bs)[i] == cells[b];
    }
    if cells[b] in CellsOf(cells, bs) {
      var i :| 0 <= i < |bs| && CellsOf(cells, bs)[i] == cells[b];
      assert bs[i] == b;
    }
  }

  lemma {:induction false} CellsWithout(cells: Cells, bs: seq<Block>, b: Block)
    requires Buffer(cells)
    ensures Without(CellsOf(cells, bs), cells[b]) == CellsOf(cells, Without(bs, b))
  {
    if bs != [] {
      assert CellsOf(cells, bs)[1..] == CellsOf(cells, bs[1..]);
      CellsWithout(cells, bs[1..], b);
      assert CellsOf(cells, [bs[0]] + Without(bs[1..], b)) == [cells[bs[0]]] + CellsOf(cells, Without(bs[1..], b));
    }
  }

  ghost function CellOpt(cells: Cells, prev: Option<Block>): Option<ListItem<Block>>
    requires Buffer(cells)
  {
    if prev.None? then None else Some(cells[prev.value])
  }

  lemma {:induction false} CellsInsertAfter(cells: Cells, bs: seq<Block>, prev: Option<Block>, b: Block)
    requires Buffer(cells)
    ensures InsertAfter(CellsOf(cells, bs), CellOpt(cells, prev), cells[b]) == CellsOf(cells, InsertAfter(bs, prev, b))
  {
    if prev.Some? && bs != [] {
      assert CellsOf(cells, bs)[1..] == CellsOf(cells, bs[1..]);
      CellsInsertAfter(cells, bs[1..], prev, b);
      assert CellsOf(cells, [bs[0]] + InsertAfter(bs[1..], prev, b)) == [cells[bs[0]]] + CellsOf(cells, InsertAfter(bs[1..], prev, b));
      assert CellsOf(cells, [bs[0], b] + bs[1..]) == [cells[bs[0]], cells[b]] + CellsOf(cells, bs[1..]);
    } else {
      assert CellsOf(cells, [b] + bs) == [cells[b]] + CellsOf(cells, bs);
    }
  }

  /** The list is well linked and holds the list members of `bs`, in that order. */
  ghost predicate Shows(list: ListHead<Block>, cells: Cells, bs: seq<Block>)
    requires Buffer(cells)
    reads list, list.repr
  {
    list.Valid() && list.items == CellsOf(cells, bs)
  }

  method DetachShown(list: ListHead<Block>, cells: Cells, ghost bs: seq<Block>, cell: ListItem<Block>, ghost b: Block)
    requires Buffer(cells) && cell == cells[b] && Shows(list, cells, bs) && b in bs
    modifies list, list.repr`prev, list.repr`next
    ensures Shows(list, cells, Without(bs, b)) && cell.prev == null && cell.next == null
    ensures list.repr == old(list.repr) - {cell} && cell in old(list.repr)
  {
    CellIn(cells, bs, b);
    CellsWithout(cells, bs, b);
    var r := list.Detach(cell);
  }

  method InsertShown(list: ListHead<Block>, cells: Cells, ghost bs: seq<Block>, previous: ListItem?<Block>, ghost prev: Option<Block>,
                     cell: ListItem<Block>, ghost b: Block)
    requires Buffer(cells) && cell == cells[b] && Shows(list, cells, bs) && (prev.Some? ==> prev.value in bs)
    requires Pointer(previous) == CellOpt(cells, prev)
    requires cell.prev == null && cell.next == null && cell !in list.repr
    modifies list, cell`prev, cell`next, list.repr`prev, list.repr`next
    ensures Shows(list, cells, InsertAfter(bs, prev, b)) && list.repr == old(list.repr) + {cell}
  {
    if prev.Some? {
      CellIn(cells, bs, prev.value);
    }
    CellsInsertAfter(cells, bs, prev, b);
    var r := list.Insert(previous, cell);
  }

  /** `List_detach` from the waiting list and `List_insert` into the ready list, as the wake loop does. */
  method MoveCell(cells: Cells, ready: ListHead<Block>, waiting: ListHead<Block>, ghost r: seq<Block>, ghost w: seq<Block>,
                  previous: ListItem?<Block>, ghost prev: Option<Block>, cell: ListItem<Block>, ghost b: Block)
    requires Buffer(cells) && ready != waiting && ready.repr !! waiting.repr && cell == cells[b]
    requires Shows(ready, cells, r) && Shows(waiting, cells, w) && b in w
    requires (prev.Some? ==> prev.value in r) && Pointer(previous) == CellOpt(cells, prev)
    modifies ready, waiting, ready.repr`prev, ready.repr`next, waiting.repr`prev, waiting.repr`next
    ensures Shows(ready, cells, InsertAfter(r, prev, b)) && Shows(waiting, cells, Without(w, b))
    ensures ready.repr == old(ready.repr) + {cell} && waiting.repr == old(waiting.repr) - {cell}
    ensures ready.repr !! waiting.repr && ready.repr + waiting.repr == old(ready.repr + waiting.repr)
  {
    DetachShown(waiting, cells, w, cell, b);
    assert ready.Valid();
    InsertShown(ready, cells, r, previous, prev, cell, b);
  }

  ghost function Objects<T>(s: set<ListItem<T>>): set<object> {
    s
  }

  /** The three lists share no head and no item. */
  ghost predicate Separate(ready: ListHead<Block>, waiting: ListHead<Block>, timers: ListHead<TimerItem>)
    reads ready, waiting, timers
  {
    && ready != waiting && timers as object != ready && timers as object != waiting
    && ready.repr !! waiting.repr
    && Objects(timers.repr) !! Objects(ready.repr) + Objects(waiting.repr)
  }

  /** `MoveCell` next to a timer list that it does not touch. */
  method MoveBesideTimers(cells: Cells, ready: ListHead<Block>, waiting: ListHead<Block>, ghost timers: ListHead<TimerItem>,
                          ghost r: seq<Block>, ghost w: seq<Block>,
                          previous: ListItem?<Block>, ghost prev: Option<Block>, cell: ListItem<Block>, ghost b: Block)
    requires Buffer(cells) && Separate(ready, waiting, timers) && cell == cells[b]
    requires Shows(ready, cells, r) && Shows(waiting, cells, w) && b in w
    requires (prev.Some? ==> prev.value in r) && Pointer(previous) == CellOpt(cells, prev)
    requires timers.Valid()
    modifies ready, waiting, ready.repr`prev, ready.repr`next, waiting.repr`prev, waiting.repr`next
    ensures Shows(ready, cells, InsertAfter(r, prev, b)) && Shows(waiting, cells, Without(w, b))
    ensures Separate(ready, waiting, timers) && ready.repr + waiting.repr == old(ready.repr + waiting.repr)
    ensures timers.Valid() && timers.Contents() == old(timers.Contents()) && timers.items == old(timers.items) && timers.repr == old(timers.repr)
  {
    MoveCell(cells, ready, waiting, r, w, previous, prev, cell, b);
    assert Objects(ready.repr) + Objects(waiting.repr) == old(Objects(ready.repr) + Objects(waiting.repr));
  }

  /** `TimerListRemoveCurrent` next to process lists that it does not touch. */
  method RemoveBesideProcesses(cells: Cells, ghost ready: ListHead<Block>, ghost waiting: ListHead<Block>, timers: ListHead<TimerItem>,
                               ghost r: seq<Block>, ghost w: seq<Block>)
    requires Buffer(cells) && Separate(ready, waiting, timers) && timers.Valid() && timers.items != []
    requires Shows(ready, cells, r) && Shows(waiting, cells, w)
    modifies timers, timers.repr`prev, timers.repr`next
    ensures timers.Valid() && timers.Contents() == old(timers.Contents()[1..]) && timers.repr <= old(timers.repr)
    ensures Shows(ready, cells, r) && Shows(waiting, cells, w) && Separate(ready, waiting, timers)
    ensures ready.repr == old(ready.repr) && waiting.repr == old(waiting.repr)
  {
    TimerListRemoveCurrent(timers);
    assert ready.Valid();
    assert waiting.Valid();
  }

  /** The three lists hold what the state `w` says. */
  ghost predicate Holds(cells: Cells, ready: ListHead<Block>, waiting: ListHead<Block>, timers: ListHead<TimerItem>, w: State)
    requires Buffer(cells)
    reads ready, ready.repr, waiting, waiting.repr, timers, timers.repr
  {
    && Separate(ready, waiting, timers)
    && Shows(ready, cells, w.ready) && Shows(waiting, cells, w.waiting)
    && timers.Valid() && timers.Contents() == w.timers
  }

  /** One turn of the wake loop, pointer by pointer. */
  method WakeTurn(cells: Cells, ready: ListHead<Block>, waiting: ListHead<Block>, timers: ListHead<TimerItem>,
                  elapsed: ListItem<TimerItem>, previous: ListItem?<Block>, ghost w: State, ghost prev: Option<Block>, ghost v: State)
    returns (woken: ListItem<Block>)
    requires Buffer(cells) && Holds(cells, ready, waiting, timers, w) && OneTurn(w, prev, v)
    requires elapsed == timers.items[0] && Pointer(previous) == CellOpt(cells, prev)
    modifies ready, waiting, timers, ready.repr`prev, ready.repr`next, waiting.repr`prev, waiting.repr`next,
             timers.repr`prev, timers.repr`next
    ensures Holds(cells, ready, waiting, timers, v)
    ensures ready.repr + waiting.repr == old(ready.repr + waiting.repr) && timers.repr <= old(timers.repr)
    ensures woken == cells[w.timers[0].pcb]
  {
    var b := elapsed.data.pcb;
    assert elapsed.data == w.timers[0];
    woken := cells[b];
    MoveBesideTimers(cells, ready, waiting, timers, w.ready, w.waiting, previous, prev, woken, b);
    RemoveBesideProcesses(cells, ready, waiting, timers, v.ready, v.waiting);
  }

  /** The wake loop of `internal_schedule` on the three linked lists. */
  method WakeLoop(cells: Cells, ready: ListHead<Block>, waiting: ListHead<Block>, timers: ListHead<TimerItem>, now: int, ghost at: seq<State>)
    requires Buffer(cells) && WakeTrace(at, now) && Holds(cells, ready, waiting, timers, at[0])
    modifies ready, waiting, timers, ready.repr`prev, ready.repr`next, waiting.repr`prev, waiting.repr`next,
             timers.repr`prev, timers.repr`next
    ensures Holds(cells, ready, waiting, timers, at[|at| - 1])
    ensures ready.repr + waiting.repr == old(ready.repr + waiting.repr) && timers.repr <= old(timers.repr)
  {
    ghost var fp, tf := ready.repr + waiting.repr, timers.repr;
    ghost var k := 0;
    var previous: ListItem?<Block> := null;
    while TimerListCurrent(timers, now) != null
      invariant 0 <= k < |at|
      invariant Holds(cells, ready, waiting, timers, at[k])
      invariant ready.repr + waiting.repr == fp && timers.repr <= tf
      invariant Pointer(previous) == CellOpt(cells, WokenBefore(at, k))
      decreases |at| - k
    {
      TraceGoesOn(at, now, k);
      var elapsed := TimerListCurrent(timers, now);
      previous := WakeTurn(cells, ready, waiting, timers, elapsed, previous, at[k], WokenBefore(at, k), at[k + 1]);
      k := k + 1;
    }
    TraceGoesOn(at, now, k);
  }

  lemma {:induction false} InsertLast(bs: seq<Block>, x: Block)
    requires bs != [] && bs[|bs| - 1] !in bs[..|bs| - 1]
    ensures InsertAfter(bs, Some(bs[|bs| - 1]), x) == bs + [x]
  {
    InsertAfterAt(bs, |bs| - 1, x);
  }

  /** The dispatch of `internal_schedule` on the ready list: the first process out, the running one in behind the last. */
  method RotateShown(list: ListHead<Block>, cells: Cells, running: ListItem<Block>, ghost bs: seq<Block>, ghost me: Block)
    returns (next: ListItem<Block>)
    requires Buffer(cells) && Shows(list, cells, bs) && bs != [] && Distinct(bs) && me !in bs
    requires running == cells[me] && running.prev == null && running.next == null && running !in list.repr
    modifies list, running`prev, running`next, list.repr`prev, list.repr`next
    ensures Shows(list, cells, bs[1..] + [me]) && next == cells[bs[0]]
    ensures next.prev == null && next.next == null && next !in list.repr
    ensures next in old(list.repr) && list.repr == old(list.repr) - {next} + {running}
  {
    next := list.first;
    DetachShown(list, cells, bs, next, bs[0]);
    assert Without(bs, bs[0]) == bs[1..];
    ghost var rest := bs[1..];
    if rest != [] {
      InsertLast(rest, me);
    }
    InsertShown(list, cells, rest, list.last, if rest == [] then None else Some(rest[|rest| - 1]), running, me);
  }

  /** After waking, the ready list has no doubles and not the running process. */
  lemma {:induction false} ReadyDistinct(s: State, me: Block)
    requires Inv(s) && s.running == Some(me)
    ensures Distinct(WakeDue(s).ready) && me !in WakeDue(s).ready
  {
    var w := WakeDue(s);
    Scheduling.WakeDueKeeps(s);
    Scheduling.PlaceIsUnique(w, me);
    forall i, j | 0 <= i < j < |w.ready| ensures w.ready[i] != w.ready[j] {
      assert Places(w, w.ready[i]) == 1;
      if w.ready[i] == w.ready[j] {
        SleepTimes.TwiceCounts(w.ready, i, j);
      }
    }
  }

  /** The item of a process that is in no list: it is unlinked, and apart from the three lists. */
  ghost predicate Loose(item: ListItem<Block>, ready: ListHead<Block>, waiting: ListHead<Block>, timers: ListHead<TimerItem>)
    reads item, ready, waiting, timers
  {
    && item.prev == null && item.next == null
    && item !in ready.repr + waiting.repr && item as object !in Objects(timers.repr)
  }

  /** `RotateShown` next to the lists that it does not touch. */
  method RotateBeside(cells: Cells, ready: ListHead<Block>, ghost waiting: ListHead<Block>, ghost timers: ListHead<TimerItem>,
                      running: ListItem<Block>, ghost r: seq<Block>, ghost w: seq<Block>, ghost me: Block)
    returns (next: ListItem<Block>)
    requires Buffer(cells) && Separate(ready, waiting, timers) && r != [] && Distinct(r) && me !in r
    requires Shows(ready, cells, r) && Shows(waiting, cells, w) && timers.Valid()
    requires running == cells[me] && Loose(running, ready, waiting, timers)
    modifies ready, running`prev, running`next, ready.repr`prev, ready.repr`next
    ensures Shows(ready, cells, r[1..] + [me]) && Shows(waiting, cells, w) && next == cells[r[0]]
    ensures timers.Valid() && timers.Contents() == old(timers.Contents()) && timers.repr == old(timers.repr)
    ensures Separate(ready, waiting, timers) && Loose(next, ready, waiting, timers)
    ensures waiting.repr == old(waiting.repr) && ready.repr + {next} == old(ready.repr) + {running}
  {
    next := RotateShown(ready, cells, running, r, me);
    assert waiting.Valid();
    assert timers.Valid();
    assert Objects(ready.repr) == old(Objects(ready.repr)) - {next} + {running};
  }

  /** `t` follows from `w` by dispatching the head of the ready list, if there is one. */
  ghost predicate Dispatched(w: State, me: Block, t: State) {
    && t.waiting == w.waiting && t.timers == w.timers
    && (w.ready == [] ==> t.ready == [] && t.running == Some(me))
    && (w.ready != [] ==> t.ready == w.ready[1..] + [me] && t.running == Some(w.ready[0]))
  }

  lemma {:induction false} ScheduleDispatches(s: State, me: Block)
    requires s.running == Some(me)
    ensures Dispatched(WakeDue(s), me, Schedule(s, me))
  {
  }

  /** The end of `internal_schedule`, with nobody left to wake. */
  method DispatchFirst(cells: Cells, ready: ListHead<Block>, ghost waiting: ListHead<Block>, ghost timers: ListHead<TimerItem>,
                       running: ListItem<Block>, ghost w: State, ghost me: Block, ghost t: State)
    returns (next: ListItem<Block>)
    requires Buffer(cells) && Holds(cells, ready, waiting, timers, w) && Dispatched(w, me, t)
    requires Distinct(w.ready) && me !in w.ready
    requires running == cells[me] && Loose(running, ready, waiting, timers)
    modifies ready, running`prev, running`next, ready.repr`prev, ready.repr`next
    ensures Holds(cells, ready, waiting, timers, t) && Loose(next, ready, waiting, timers)
    ensures t.running.Some? && next == cells[t.running.value]
    ensures ready.repr + waiting.repr + {next} == old(ready.repr + waiting.repr) + {running} && timers.repr == old(timers.repr)
  {
    if ready.first == null {
      assert w.ready == [];
      next := running;
    } else {
      assert w.ready != [];
      next := RotateBeside(cells, ready, waiting, timers, running, w.ready, w.waiting, me);
    }
  }

  /** src/disastrOS_schedule.c on the linked lists: they end up holding what the sequence model says, as separate
      from each other and from the dispatched process as they were. */
  method InternalSchedule(cells: Cells, ready: ListHead<Block>, waiting: ListHead<Block>, timers: ListHead<TimerItem>,
                          running: ListItem<Block>, now: int, ghost s: State, ghost me: Block)
    returns (next: ListItem<Block>)
    requires Inv(s) && s.running == Some(me) && now == s.time
    requires Buffer(cells) && Holds(cells, ready, waiting, timers, s)
    requires running == cells[me] && Loose(running, ready, waiting, timers)
    modifies ready, waiting, timers, running`prev, running`next, ready.repr`prev, ready.repr`next,
             waiting.repr`prev, waiting.repr`next, timers.repr`prev, timers.repr`next
    ensures Holds(cells, ready, waiting, timers, Schedule(s, me)) && Loose(next, ready, waiting, timers)
    ensures Schedule(s, me).running.Some? && next == cells[Schedule(s, me).running.value]
    ensures ready.repr + waiting.repr + {next} == old(ready.repr + waiting.repr) + {running} && timers.repr <= old(timers.repr)
  {
    ReadyDistinct(s, me);
    ghost var at := ScheduleTrace(s);
    ScheduleDispatches(s, me);
    WakeLoop(cells, ready, waiting, timers, now, at);
    next := DispatchFirst(cells, ready, waiting, timers, running, at[|at| - 1], me, Schedule(s, me));
  }

  /** One timer interrupt on the linked lists. */
  method TimerInterrupt(cells: Cells, ready: ListHead<Block>, waiting: ListHead<Block>, timers: ListHead<TimerItem>,
                        running: ListItem<Block>, time: int, ghost s: State, ghost t: State)
    returns (next: ListItem<Block>, now: int)
    requires Inv(s) && s.running.Some? && time == s.time && Step(s, Tick) == Next(t)
    requires Buffer(cells) && Holds(cells, ready, waiting, timers, s)
    requires running == cells[s.running.value] && Loose(running, ready, waiting, timers)
    modifies ready, waiting, timers, running`prev, running`next, ready.repr`prev, ready.repr`next,
             waiting.repr`prev, waiting.repr`next, timers.repr`prev, timers.repr`next
    ensures Holds(cells, ready, waiting, timers, t) && Loose(next, ready, waiting, timers)
    ensures t.running.Some? && next == cells[t.running.value] && now == t.time && Inv(t)
    ensures ready.repr + waiting.repr + {next} == old(ready.repr + waiting.repr) + {running} && timers.repr <= old(timers.repr)
  {
    now := time + 1;
    ghost var u := s.(time := s.time + 1);
    Scheduling.TickKeeps(s);
    StepCases(s, Tick);
    Reachability.StepKeeps(s, Tick);
    next := InternalSchedule(cells, ready, waiting, timers, running, now, u, s.running.value);
  }

  ghost function TickCalls(n: nat): seq<Call> {
    seq(n, _ => Tick)
  }

  lemma {:induction false} TickGoes(s: State) returns (u: State)
    requires Inv(s) && s.running.Some?
    ensures Step(s, Tick) == Next(u) && u.running.Some? && Inv(u)
  {
    StepCases(s, Tick);
    Reachability.StepKeeps(s, Tick);
    u := Schedule(s.(time := s.time + 1), s.running.value);
  }

  lemma {:induction false} FirstTick(s: State, n: nat, u: State)
    requires Step(s, Tick) == Next(u) && n > 0
    ensures Run(s, TickCalls(n)) == Run(u, TickCalls(n - 1))
  {
    assert TickCalls(n)[1..] == TickCalls(n - 1);
  }

  /** A run of `n` timer interrupts on the linked lists; `procs` and `waits` are the items it may touch. */
  method TimerInterrupts(cells: Cells, ready: ListHead<Block>, waiting: ListHead<Block>, timers: ListHead<TimerItem>,
                         running: ListItem<Block>, time: int, n: nat, ghost s: State, ghost t: State,
                         ghost procs: set<ListItem<Block>>, ghost waits: set<ListItem<TimerItem>>)
    returns (next: ListItem<Block>, now: int)
    requires Inv(s) && s.running.Some? && time == s.time && Run(s, TickCalls(n)) == Next(t)
    requires Buffer(cells) && Holds(cells, ready, waiting, timers, s)
    requires running == cells[s.running.value] && Loose(running, ready, waiting, timers)
    requires procs == ready.repr + waiting.repr + {running} && timers.repr <= waits
    modifies ready, waiting, timers, procs`prev, procs`next, waits`prev, waits`next
    ensures Holds(cells, ready, waiting, timers, t) && Loose(next, ready, waiting, timers)
    ensures t.running.Some? && next == cells[t.running.value] && now == t.time
    decreases n
  {
    if n == 0 {
      assert TickCalls(0) == [];
      return running, time;
    }
    ghost var u := TickGoes(s);
    FirstTick(s, n, u);
    next, now := TimerInterrupt(cells, ready, waiting, timers, running, time, s, u);
    next, now := TimerInterrupts(cells, ready, waiting, timers, next, now, n - 1, u, t, procs, waits);
  }
}
