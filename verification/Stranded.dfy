/** Waits that nothing can end: who is stranded stays stranded, whatever anybody calls. */
module Stranded {
  import opened Sequences
  import opened Processes
  import opened Syscalls
  import opened Invariants
  import opened Scheduling
  import opened WakeUps
  import Reachability

  /** The exit of the child `c` would not end `b`'s wait: `b` does not wait for it, or `c` is dead already,
      or its parent pointer names somebody else. */
  ghost predicate OfNoUse(s: State, c: Block, b: Block) {
    s.pcb[b].arg0 == 0 || s.pcb[c].pid == s.pcb[b].arg0 ==> s.pcb[c].status == Zombie || s.pcb[c].parent != Some(b)
  }

  ghost predicate IsStranded(s: State, b: Block) {
    InWait(s, b) && forall c: Block | ChildOf(s, c, b) :: OfNoUse(s, c, b)
  }

  /** `b` waits on as it did, and every child it has now it had before, or is no child of its own. */
  ghost predicate NoHelp(s: State, t: State, b: Block) {
    && InWait(t, b) && t.pcb[b].arg0 == s.pcb[b].arg0
    && (forall c: Block | ChildOf(t, c, b) ::
          t.pcb[c].parent != Some(b)
          || (ChildOf(s, c, b) && t.pcb[c].pid == s.pcb[c].pid && t.pcb[c].parent == s.pcb[c].parent
              && (s.pcb[c].status == Zombie ==> t.pcb[c].status == Zombie)))
  }

  lemma {:induction false} NoHelpKeeps(s: State, t: State, b: Block)
    requires IsStranded(s, b) && NoHelp(s, t, b)
    ensures IsStranded(t, b)
  {
    forall c: Block | ChildOf(t, c, b) ensures OfNoUse(t, c, b) {
      assert ChildOf(s, c, b) ==> OfNoUse(s, c, b);
    }
  }

  lemma {:induction false} RecordStrands(s: State, me: Block, c: Call, b: Block)
    requires Inv(s) && s.running == Some(me) && !c.Tick? && IsStranded(s, b)
    ensures IsStranded(Record(s, me, c), b)
  {
    PlaceIsUnique(s, me);
    NoHelpKeeps(s, Record(s, me, c), b);
  }

  lemma {:induction false} ScheduleStrands(s: State, me: Block, b: Block)
    requires Inv(s) && s.running == Some(me) && IsStranded(s, b)
    ensures IsStranded(Schedule(s, me), b)
  {
    var w := WakeDue(s);
    var due := Owners(s.timers[..DueCount(s.timers, s.time)]);
    DueAreSleepers(s, b);
    KeepCount(s.waiting, due, b);
    forall c: Block ensures s.pcb[c].status == Zombie ==> w.pcb[c].status == Zombie {
      DueAreSleepers(s, c);
      assert StatusFits(s, c);
    }
    NoHelpKeeps(s, w, b);
    WakeDueKeeps(s);
    RotateStrands(w, me, b);
  }

  lemma {:induction false} RotateStrands(s: State, me: Block, b: Block)
    requires Inv(s) && s.running == Some(me) && IsStranded(s, b)
    ensures IsStranded(Rotate(s, me), b)
  {
    PlaceIsUnique(s, me);
    assert StatusFits(s, me);
    if s.ready != [] {
      PlaceIsUnique(s, s.ready[0]);
      assert StatusFits(s, s.ready[0]);
    }
    NoHelpKeeps(s, Rotate(s, me), b);
  }

  lemma {:induction false} SpawnStrands(s: State, me: Block, b: Block)
    requires Inv(s) && s.running == Some(me) && SpawnStep(s, me).Next? && IsStranded(s, b)
    ensures IsStranded(SpawnStep(s, me).state, b)
  {
    var n := s.free[0];
    PlaceIsUnique(s, me);
    PlaceIsUnique(s, n);
    assert ChildOf(s, n, b) ==> KidFits(s, n, b);
    NoHelpKeeps(s, SpawnStep(s, me).state, b);
  }

  lemma {:induction false} WaitStrands(s: State, me: Block, b: Block)
    requires Inv(s) && s.running == Some(me) && WaitStep(s, me).Next? && IsStranded(s, b)
    ensures IsStranded(WaitStep(s, me).state, b)
  {
    PlaceIsUnique(s, me);
    assert StatusFits(s, me);
    NoHelpKeeps(s, WaitStep(s, me).state, b);
  }

  lemma {:induction false} SleepStrands(s: State, me: Block, b: Block)
    requires Inv(s) && s.running == Some(me) && SleepStep(s, me).Next? && IsStranded(s, b)
    ensures IsStranded(SleepStep(s, me).state, b)
  {
    PlaceIsUnique(s, me);
    assert StatusFits(s, me);
    NoHelpKeeps(s, SleepStep(s, me).state, b);
  }

  /** An exit does not wake the stranded, and what it hands over to init has another parent. */
  lemma {:induction false} ExitStrands(s: State, me: Block, b: Block)
    requires Inv(s) && s.running == Some(me) && ExitStep(s, me).Next? && IsStranded(s, b)
    ensures IsStranded(ExitStep(s, me).state, b)
  {
    var t := ExitStep(s, me).state;
    OwnParent(s, me);
    var par := s.pcb[me].parent.value;
    ExitShape(s, me, par);
    PlaceIsUnique(s, me);
    assert StatusFits(s, me) && StatusFits(s, b);
    assert ChildOf(s, me, b) ==> OfNoUse(s, me, b);
    assert InWait(t, b);
    SameParents(s, me, par);
    forall c: Block | ChildOf(t, c, b)
      ensures t.pcb[c].parent != Some(b)
        || (ChildOf(s, c, b) && t.pcb[c].pid == s.pcb[c].pid && t.pcb[c].parent == s.pcb[c].parent
            && (s.pcb[c].status == Zombie ==> t.pcb[c].status == Zombie))
    {
      assert ChildOf(s, c, me) ==> KidFits(s, c, me);
    }
    NoHelpKeeps(s, t, b);
  }

  lemma {:induction false} SameParents(s: State, me: Block, par: Block)
    requires me != s.init && s.pcb[me].parent == Some(par) && ExitStep(s, me).Next?
    ensures forall b: Block :: ExitStep(s, me).state.pcb[b].parent == s.pcb[b].parent
  {
  }

  lemma {:induction false} HandlerStrands(r: State, me: Block, c: Call, b: Block)
    requires Inv(r) && r.running == Some(me) && !c.Tick? && Handler(r, me, c).Next? && IsStranded(r, b)
    ensures IsStranded(Handler(r, me, c).state, b)
  {
    match c
    case Preempt => ScheduleStrands(r, me, b);
    case Fork => SpawnStrands(r, me, b);
    case Spawn(_, _) => SpawnStrands(r, me, b);
    case Wait(_, _) => WaitStrands(r, me, b);
    case Exit(_) => ExitStrands(r, me, b);
    case Sleep(_) => SleepStrands(r, me, b);
  }

  lemma {:induction false} TickStrands(s: State, me: Block, b: Block)
    requires Inv(s) && s.running == Some(me) && IsStranded(s, b)
    ensures IsStranded(Schedule(s.(time := s.time + 1), me), b)
  {
    var u := s.(time := s.time + 1);
    TickKeeps(s);
    NoHelpKeeps(s, u, b);
    ScheduleStrands(u, me, b);
  }

  lemma {:induction false} StepStrands(s: State, c: Call, b: Block)
    requires Inv(s) && Step(s, c).Next? && IsStranded(s, b)
    ensures IsStranded(Step(s, c).state, b)
  {
    var me := s.running.value;
    StepCases(s, c);
    if c.Tick? {
      TickStrands(s, me, b);
    } else {
      RecordStrands(s, me, c, b);
      RecordKeeps(s, me, c);
      HandlerStrands(Record(s, me, c), me, c, b);
    }
  }

  // ----- what ends a wait -----

  /** The call is the exit of a process whose parent pointer names `b`, and which `b` waits for. */
  predicate EndsWait(s: State, c: Call, b: Block)
    requires s.running.Some?
  {
    var me := s.running.value;
    c.Exit? && s.pcb[me].parent == Some(b) && (s.pcb[b].arg0 == 0 || s.pcb[b].arg0 == s.pcb[me].pid)
  }

  lemma {:induction false} ExitEnds(s: State, me: Block, b: Block)
    requires Inv(s) && s.running == Some(me) && ExitStep(s, me).Next? && InWait(s, b)
    ensures b in ExitStep(s, me).state.waiting <==>
              !(s.pcb[me].parent == Some(b) && (s.pcb[b].arg0 == 0 || s.pcb[b].arg0 == s.pcb[me].pid))
  {
    OwnParent(s, me);
    ExitShape(s, me, s.pcb[me].parent.value);
    assert StatusFits(s, b);
  }

  lemma {:induction false} OthersDoNotEnd(s: State, me: Block, c: Call, b: Block)
    requires Inv(s) && s.running == Some(me) && !c.Tick? && !c.Exit? && Handler(s, me, c).Next? && InWait(s, b)
    ensures b in Handler(s, me, c).state.waiting
  {
    if c.Preempt? {
      SchedulesDoNotEnd(s, me, b);
    }
  }

  lemma {:induction false} SchedulesDoNotEnd(s: State, me: Block, b: Block)
    requires Inv(s) && InWait(s, b)
    ensures b in Schedule(s, me).waiting
  {
    DueAreSleepers(s, b);
    KeepCount(s.waiting, Owners(s.timers[..DueCount(s.timers, s.time)]), b);
  }

  /** A process leaves its wait exactly with such a call. */
  lemma {:induction false} WaitEnds(s: State, c: Call, t: State, b: Block)
    requires Inv(s) && InWait(s, b) && Step(s, c) == Next(t)
    ensures b !in t.waiting <==> EndsWait(s, c, b)
  {
    var me := s.running.value;
    StepCases(s, c);
    PlaceIsUnique(s, me);
    if c.Tick? {
      TickKeeps(s);
      SchedulesDoNotEnd(s.(time := s.time + 1), me, b);
    } else {
      var r := Record(s, me, c);
      RecordKeeps(s, me, c);
      if c.Exit? {
        ExitEnds(r, me, b);
      } else {
        OthersDoNotEnd(r, me, c, b);
      }
    }
  }

  // ----- for ever -----

  /** Whatever the others do, and for however long, `b` stays in its wait. */
  lemma {:induction false} ForEver(s: State, cs: seq<Call>, t: State, b: Block)
    requires Inv(s) && IsStranded(s, b) && Run(s, cs) == Next(t)
    ensures b in t.waiting && IsStranded(t, b)
    decreases |cs|
  {
    if cs != [] {
      Reachability.StepKeeps(s, cs[0]);
      StepStrands(s, cs[0], b);
      ForEver(Step(s, cs[0]).state, cs[1..], t, b);
    }
  }

  /** A lost wake-up of a process that waits for one pid is never made up for. */
  lemma {:induction false} LostIsLost(s: State, cs: seq<Call>, t: State, b: Block)
    requires Inv(s) && InWait(s, b) && s.pcb[b].arg0 != 0 && !Awaits(s, b) && Run(s, cs) == Next(t)
    ensures b in t.waiting
  {
    forall c: Block | ChildOf(s, c, b) ensures OfNoUse(s, c, b) {
      assert !(LiveChild(s, c, b) && s.pcb[c].pid == s.pcb[b].arg0);
    }
    ForEver(s, cs, t, b);
  }
}
