/** The whole kernel: the scheduler together with the descriptor tables of its processes. */
module Machines {
  import opened Sequences
  import opened Processes
  import opened Syscalls
  import opened Invariants
  import Scheduling
  import Reachability
  import WakeUps
  import R = Resources
  import S = Semaphores

  const DSOS_ESYSCALL_NOT_IMPLEMENTED := -2
  const DSOS_ESYSCALL_OUT_OF_RANGE := -3
  const DSOS_MAX_SYSCALLS := 32

  /** A PCB block is the same in all three parts. */
  datatype Machine = Machine(sched: State, res: R.Table, sem: S.Table)

  /** A number that has no entry in the syscall vector. */
  type Unserved = n: int | !(1 <= n <= 14) witness 0

  datatype Request =
    | Sched(call: Call)
    | OpenResource(id: int, kind: int, mode: int)
    | CloseResource(fd: int)
    | DestroyResource(id: int)
    | SemOpen(id: int, oflag: int, count: int)
    | SemClose(fd: int)
    | SemWait(fd: int)
    | SemPost(fd: int)
    | Other(number: Unserved)

  datatype Reply = Goes(machine: Machine) | Crashes | Hangs

  function Start(): Machine {
    Machine(Boot(), R.Start(), S.Start())
  }

  // ----- the scheduler's calls and what they do to the tables -----

  /** The exit of `me` finds its parent waiting for it. */
  predicate HandsOver(r: State, me: Block) {
    me != r.init && var d := Die(r, me);
    d.pcb[me].parent.Some? && WaitsFor(d.pcb[d.pcb[me].parent.value], d.pcb[me].pid)
  }

  /** The resource tables after the call `c` of `me`: an exit that wakes the parent releases the descriptors,
      a birth resets those of the block it takes. */
  function ResAfter(m: Machine, me: Block, c: Call): R.Table {
    match c
    case Fork => if m.sched.free == [] then m.res else R.Recycle(m.res, m.sched.free[0])
    case Spawn(_, _) => if m.sched.free == [] then m.res else R.Recycle(m.res, m.sched.free[0])
    case Exit(_) => if HandsOver(Record(m.sched, me, c), me) then R.Cleanup(m.res, me) else m.res
    case _ => m.res
  }

  /** No exit releases semaphore descriptors. */
  function SemAfter(m: Machine, c: Call): S.Table {
    match c
    case Fork => if m.sched.free == [] then m.sem else S.Recycle(m.sem, m.sched.free[0])
    case Spawn(_, _) => if m.sched.free == [] then m.sem else S.Recycle(m.sem, m.sched.free[0])
    case _ => m.sem
  }

  function SchedStep(m: Machine, me: Block, c: Call): Reply {
    match Step(m.sched, c)
    case Next(t) => Goes(Machine(t, ResAfter(m, me, c), SemAfter(m, c)))
    case Crash => Crashes
    case Hang => Hangs
  }

  // ----- the calls on descriptors -----

  /** The registers of the caller after a call with this number, these arguments and this return value. */
  function Called(s: State, me: Block, number: int, args: seq<int>, ret: int): State {
    var p := s.pcb[me];
    s.(pcb := s.pcb[me := p.(
      syscallNum := number,
      arg0 := if |args| > 0 then args[0] else p.arg0,
      arg1 := if |args| > 1 then args[1] else p.arg1,
      retValue := ret)])
  }

  function ResourceCall(m: Machine, me: Block, number: int, args: seq<int>, o: R.Outcome): Reply {
    if o.Crash? then Crashes else Goes(m.(sched := Called(m.sched, me, number, args, o.ret), res := o.table))
  }

  function SemaphoreCall(m: Machine, me: Block, number: int, args: seq<int>, o: S.Outcome): Reply {
    if o.Crash? then Crashes else Goes(m.(sched := Called(m.sched, me, number, args, o.ret), sem := o.table))
  }

  /** `me` is listed as waiting, and goes on running. */
  function Park(s: State, me: Block): State {
    s.(pcb := s.pcb[me := s.pcb[me].(status := Waiting)], waiting := s.waiting + [me])
  }

  function SemWaitStep(m: Machine, me: Block, fd: int): Reply {
    var o := SemaphoreCall(m, me, 13, [fd], S.WaitStep(m.sem, me, fd));
    if o.Goes? && S.MustQueue(m.sem, me, fd) then Goes(o.machine.(sched := Park(o.machine.sched, me))) else o
  }

  function Unpark(s: State, p: Block): State {
    s.(pcb := s.pcb[p := s.pcb[p].(status := Ready)], waiting := Without(s.waiting, p), ready := s.ready + [p])
  }

  function SemPostStep(m: Machine, me: Block, fd: int): Reply {
    var o := SemaphoreCall(m, me, 14, [fd], S.PostStep(m.sem, me, fd));
    var woken := S.Woken(m.sem, me, fd);
    if o.Goes? && woken.Some? then Goes(o.machine.(sched := Unpark(o.machine.sched, woken.value))) else o
  }

  /** A number out of range is refused before it is recorded; the largest one that passes that test
      lies behind the end of both syscall tables. */
  function OtherStep(m: Machine, me: Block, number: int): Reply {
    if number < 0 || number > DSOS_MAX_SYSCALLS then Goes(m)
    else if number == DSOS_MAX_SYSCALLS then Crashes
    else Goes(m.(sched := Called(m.sched, me, number, [], DSOS_ESYSCALL_NOT_IMPLEMENTED)))
  }

  function Serve(m: Machine, q: Request): Reply {
    if m.sched.running.None? then Crashes
    else
      var me := m.sched.running.value;
      match q
      case Sched(c) => SchedStep(m, me, c)
      case OpenResource(id, kind, mode) => ResourceCall(m, me, 7, [id, kind, mode], R.OpenStep(m.res, me, id, kind, mode))
      case CloseResource(fd) => ResourceCall(m, me, 8, [fd], R.CloseStep(m.res, me, fd))
      case DestroyResource(id) => ResourceCall(m, me, 9, [id], R.DestroyStep(m.res, id))
      case SemOpen(id, oflag, count) => SemaphoreCall(m, me, 11, [id, oflag, count], S.OpenStep(m.sem, me, id, oflag, count))
      case SemClose(fd) => SemaphoreCall(m, me, 12, [fd], S.CloseStep(m.sem, me, fd))
      case SemWait(fd) => SemWaitStep(m, me, fd)
      case SemPost(fd) => SemPostStep(m, me, fd)
      case Other(number) => OtherStep(m, me, number)
  }

  function Serves(m: Machine, qs: seq<Request>): Reply
    decreases |qs|
  {
    if qs == [] then Goes(m)
    else
      var o := Serve(m, qs[0]);
      if o.Goes? then Serves(o.machine, qs[1..]) else o
  }

  // ----- what holds of the whole -----

  /** Nobody is queued at a semaphore. */
  ghost predicate Quiet(t: S.Table) {
    forall r: S.Slot :: t.sem[r].waiting == []
  }

  ghost predicate NothingOpen(m: Machine, b: Block) {
    m.res.fds[b] == [] && m.sem.fds[b] == []
  }

  /** A block that can be given to a new process has no open descriptors. */
  ghost predicate Clean(m: Machine) {
    forall b: Block :: b in m.sched.free ==> NothingOpen(m, b)
  }

  ghost predicate Whole(m: Machine) {
    Inv(m.sched) && R.Inv(m.res) && S.Inv(m.sem) && Quiet(m.sem) && Clean(m)
  }

  /** A wait for a child collects the zombie that its scan ends on. */
  predicate Collects(s: State, me: Block, pid: int) {
    s.pcb[me].children != [] && s.pcb[Scan(s.pcb, s.pcb[me].children, pid)].status == Zombie
  }

  /** No semaphore wait finds the count used up, and who is freed has nothing open: a collected zombie at all,
      a process whose parent waits for it no semaphore. */
  ghost predicate Harmless(m: Machine, q: Request)
    requires m.sched.running.Some?
  {
    var me := m.sched.running.value;
    match q
    case SemWait(fd) => !S.MustQueue(m.sem, me, fd)
    case Sched(Wait(pid, _)) => Collects(m.sched, me, pid) ==> NothingOpen(m, Scan(m.sched.pcb, m.sched.pcb[me].children, pid))
    case Sched(Exit(v)) => HandsOver(Record(m.sched, me, Exit(v)), me) ==> m.sem.fds[me] == []
    case _ => true
  }

  // ----- the partition of the processes -----

  lemma {:induction false} CalledKeeps(s: State, me: Block, number: int, args: seq<int>, ret: int)
    requires s.running == Some(me)
    ensures Partition(s) ==> Partition(Called(s, me, number, args, ret))
    ensures Inv(s) ==> Inv(Called(s, me, number, args, ret))
  {
    var t := Called(s, me, number, args, ret);
    if Partition(s) {
      forall b: Block ensures Places(t, b) == 1 {
        assert Places(s, b) == 1;
      }
    }
    if Inv(s) {
      Scheduling.RegistersKeep(s, t);
    }
  }

  /** A semaphore wait keeps the partition of the processes exactly when the fd is unknown or the count positive. */
  lemma {:induction false} SemWaitPartition(m: Machine, me: Block, fd: int, n: Machine)
    requires Partition(m.sched) && m.sched.running == Some(me) && Serve(m, SemWait(fd)) == Goes(n)
    ensures Partition(n.sched) <==>
              var found := S.ByFd(m.sem.desc, m.sem.fds[me], fd);
              found.None? || m.sem.sem[m.sem.desc[found.value].sem].count > 0
  {
    var s := Called(m.sched, me, 13, [fd], S.WaitStep(m.sem, me, fd).ret);
    CalledKeeps(m.sched, me, 13, [fd], S.WaitStep(m.sem, me, fd).ret);
    assert Places(s, me) == 1;
    if S.MustQueue(m.sem, me, fd) {
      assert n.sched == Park(s, me);
      assert Places(n.sched, me) == 2;
    } else {
      assert n.sched == s;
    }
  }

  // ----- one request: the exact condition -----

  /** What a call does to the free chain. */
  function FreeAfter(s: State, me: Block, c: Call): seq<Block> {
    match c
    case Fork => if s.free == [] then [] else s.free[1..]
    case Spawn(_, _) => if s.free == [] then [] else s.free[1..]
    case Wait(pid, _) => if Collects(s, me, pid) then [Scan(s.pcb, s.pcb[me].children, pid)] + s.free else s.free
    case Exit(_) => if HandsOver(Record(s, me, c), me) then [me] + s.free else s.free
    case _ => s.free
  }

  lemma {:induction false} WaitFrees(s: State, me: Block, c: Call)
    requires c.Wait? && WaitStep(Record(s, me, c), me).Next?
    ensures WaitStep(Record(s, me, c), me).state.free == FreeAfter(s, me, c)
  {
    var r := Record(s, me, c);
    if s.pcb[me].children != [] {
      WakeUps.ScanSame(s.pcb, r.pcb, s.pcb[me].children, c.pid);
    }
  }

  lemma {:induction false} StepFrees(s: State, me: Block, c: Call, t: State)
    requires s.running == Some(me) && Step(s, c) == Next(t)
    ensures t.free == FreeAfter(s, me, c)
  {
    StepCases(s, c);
    if c.Wait? {
      WaitFrees(s, me, c);
    }
  }

  lemma {:induction false} TablesAfter(m: Machine, me: Block, c: Call)
    requires Whole(m) && m.sched.running == Some(me)
    ensures R.Inv(ResAfter(m, me, c)) && S.Inv(SemAfter(m, c)) && Quiet(SemAfter(m, c))
    ensures forall b: Block :: b in m.sched.free || b == me ==> SemAfter(m, c).fds[b] == m.sem.fds[b]
    ensures forall b: Block :: b in m.sched.free ==> ResAfter(m, me, c).fds[b] == []
    ensures c.Wait? ==> ResAfter(m, me, c) == m.res && SemAfter(m, c) == m.sem
    ensures c.Exit? && HandsOver(Record(m.sched, me, c), me) ==> ResAfter(m, me, c).fds[me] == []
  {
    if (c.Fork? || c.Spawn?) && m.sched.free != [] {
      assert NothingOpen(m, m.sched.free[0]);
      R.RecycleIff(m.res, m.sched.free[0]);
      S.RecycleIff(m.sem, m.sched.free[0]);
    } else if c.Exit? {
      R.CleanupExact(m.res, me);
    }
    forall b: Block | b in m.sched.free ensures ResAfter(m, me, c).fds[b] == [] {
      assert NothingOpen(m, b);
    }
  }

  lemma {:induction false} SchedKeptIff(m: Machine, me: Block, c: Call, n: Machine)
    requires Whole(m) && m.sched.running == Some(me) && SchedStep(m, me, c) == Goes(n)
    ensures Whole(n) <==> Harmless(m, Sched(c))
  {
    var t := n.sched;
    Reachability.StepKeeps(m.sched, c);
    StepFrees(m.sched, me, c, t);
    TablesAfter(m, me, c);
    if c.Wait? && Collects(m.sched, me, c.pid) {
      CleanWith(m, n, Scan(m.sched.pcb, m.sched.pcb[me].children, c.pid));
    } else if c.Exit? && HandsOver(Record(m.sched, me, c), me) {
      CleanWith(m, n, me);
    } else {
      forall b: Block | b in t.free ensures NothingOpen(n, b) {
        assert NothingOpen(m, b);
      }
    }
  }

  /** With one more free block. */
  lemma {:induction false} CleanWith(m: Machine, n: Machine, x: Block)
    requires Clean(m) && n.sched.free == [x] + m.sched.free
    requires forall b: Block :: b in m.sched.free ==> n.res.fds[b] == [] && n.sem.fds[b] == m.sem.fds[b]
    ensures Clean(n) <==> NothingOpen(n, x)
  {
    if NothingOpen(n, x) {
      forall b: Block | b in n.sched.free ensures NothingOpen(n, b) {
        assert b in m.sched.free ==> NothingOpen(m, b);
      }
    }
  }

  /** A call on descriptors touches the lists of its caller only. */
  lemma {:induction false} CleanStays(m: Machine, n: Machine, me: Block)
    requires Clean(m) && Partition(m.sched) && m.sched.running == Some(me) && n.sched.free == m.sched.free
    requires forall b: Block :: b != me ==> n.res.fds[b] == m.res.fds[b] && n.sem.fds[b] == m.sem.fds[b]
    ensures Clean(n)
  {
    Scheduling.PlaceIsUnique(m.sched, me);
    forall b: Block | b in n.sched.free ensures NothingOpen(n, b) {
      assert NothingOpen(m, b);
    }
  }

  lemma {:induction false} ResourceKeeps(m: Machine, me: Block, number: int, args: seq<int>, c: R.Call, n: Machine)
    requires Whole(m) && m.sched.running == Some(me) && ResourceCall(m, me, number, args, R.Step(m.res, c)) == Goes(n)
    requires (c.Open? && c.me == me) || (c.Close? && c.me == me) || c.Destroy?
    ensures Whole(n)
  {
    CalledKeeps(m.sched, me, number, args, R.Step(m.res, c).ret);
    R.StepKeeps(m.res, c);
    CleanStays(m, n, me);
  }

  lemma {:induction false} SemaphoreKeeps(m: Machine, me: Block, number: int, args: seq<int>, c: S.Call, n: Machine)
    requires Whole(m) && m.sched.running == Some(me) && SemaphoreCall(m, me, number, args, S.Step(m.sem, c)) == Goes(n)
    requires c.me == me && (c.Wait? ==> !S.MustQueue(m.sem, me, c.fd))
    ensures Whole(n)
  {
    CalledKeeps(m.sched, me, number, args, S.Step(m.sem, c).ret);
    S.StepKeeps(m.sem, c);
    QuietStays(m.sem, c);
    CleanStays(m, n, me);
  }

  lemma {:induction false} QuietStays(t: S.Table, c: S.Call)
    requires Quiet(t) && S.Step(t, c).Done? && (c.Wait? ==> !S.MustQueue(t, c.me, c.fd))
    ensures Quiet(S.Step(t, c).table)
    ensures forall b: S.Slot :: b != c.me ==> S.Step(t, c).table.fds[b] == t.fds[b]
  {
  }

  /** A request keeps the whole in order exactly when it is harmless. */
  lemma {:induction false} WholeKeptIff(m: Machine, q: Request, n: Machine)
    requires Whole(m) && Serve(m, q) == Goes(n)
    ensures Whole(n) <==> Harmless(m, q)
  {
    var me := m.sched.running.value;
    match q
    case Sched(c) => SchedKeptIff(m, me, c, n);
    case OpenResource(id, kind, mode) => ResourceKeeps(m, me, 7, [id, kind, mode], R.Open(me, id, kind, mode), n);
    case CloseResource(fd) => ResourceKeeps(m, me, 8, [fd], R.Close(me, fd), n);
    case DestroyResource(id) => ResourceKeeps(m, me, 9, [id], R.Destroy(id), n);
    case SemOpen(id, oflag, count) => SemaphoreKeeps(m, me, 11, [id, oflag, count], S.Open(me, id, oflag, count), n);
    case SemClose(fd) => SemaphoreKeeps(m, me, 12, [fd], S.Close(me, fd), n);
    case SemWait(fd) =>
      SemWaitPartition(m, me, fd, n);
      if !S.MustQueue(m.sem, me, fd) {
        SemaphoreKeeps(m, me, 13, [fd], S.Wait(me, fd), n);
      }
    case SemPost(fd) =>
      assert S.Woken(m.sem, me, fd).None?;
      SemaphoreKeeps(m, me, 14, [fd], S.Post(me, fd), n);
    case Other(number) => OtherKeeps(m, me, number, n);
  }

  lemma {:induction false} OtherKeeps(m: Machine, me: Block, number: int, n: Machine)
    requires Whole(m) && m.sched.running == Some(me) && OtherStep(m, me, number) == Goes(n)
    ensures Whole(n)
  {
    if 0 <= number < DSOS_MAX_SYSCALLS {
      CalledKeeps(m.sched, me, number, [], DSOS_ESYSCALL_NOT_IMPLEMENTED);
      CleanStays(m, n, me);
    }
  }

  // ----- runs -----

  ghost predicate HarmlessRun(m: Machine, qs: seq<Request>)
    decreases |qs|
  {
    qs == [] || (Serve(m, qs[0]).Goes? && Harmless(m, qs[0]) && HarmlessRun(Serve(m, qs[0]).machine, qs[1..]))
  }

  lemma {:induction false} HarmlessRunsKeep(m: Machine, qs: seq<Request>)
    requires Whole(m) && HarmlessRun(m, qs)
    ensures Serves(m, qs).Goes? && Whole(Serves(m, qs).machine)
    decreases |qs|
  {
    if qs != [] {
      var n := Serve(m, qs[0]).machine;
      WholeKeptIff(m, qs[0], n);
      HarmlessRunsKeep(n, qs[1..]);
    }
  }

  lemma {:induction false} ServesSplit(m: Machine, qs: seq<Request>, rs: seq<Request>, n: Machine)
    requires Serves(m, qs) == Goes(n)
    ensures Serves(m, qs + rs) == Serves(n, rs)
    decreases |qs|
  {
    if qs == [] {
      assert qs + rs == rs;
    } else {
      assert (qs + rs)[0] == qs[0] && (qs + rs)[1..] == qs[1..] + rs;
      ServesSplit(Serve(m, qs[0]).machine, qs[1..], rs, n);
    }
  }

  lemma {:induction false} StartWhole()
    ensures Whole(Start())
  {
    Reachability.BootInv();
    R.StartInv();
    S.StartInv();
  }

  /** In a harmless run from boot, scheduler and tables stay in order. */
  lemma {:induction false} HarmlessFromBoot(qs: seq<Request>)
    requires HarmlessRun(Start(), qs)
    ensures Serves(Start(), qs).Goes? && Whole(Serves(Start(), qs).machine)
  {
    StartWhole();
    HarmlessRunsKeep(Start(), qs);
  }

  /** And a birth gives the child a block without descriptors, whoever had it before. */
  lemma {:induction false} BornWithNothing(qs: seq<Request>, m: Machine, n: Machine)
    requires HarmlessRun(Start(), qs) && Serves(Start(), qs) == Goes(m) && Serve(m, Sched(Fork)) == Goes(n)
    ensures exists child: Block :: n.sched.ready == m.sched.ready + [child] && NothingOpen(n, child)
  {
    HarmlessFromBoot(qs);
    StepCases(m.sched, Fork);
    var child := m.sched.free[0];
    assert NothingOpen(m, child);
    assert n.sched.ready == m.sched.ready + [child] && NothingOpen(n, child);
  }
}
