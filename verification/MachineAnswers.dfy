/** What a request to the whole kernel answers, and what it does to the parts that it is not about. */
module MachineAnswers {
  import opened Sequences
  import opened Processes
  import opened Syscalls
  import opened Machines
  import Invariants
  import Answers
  import R = Resources
  import S = Semaphores
  import SA = SemaphoreAnswers

  /** Only the caller's registers change: the number and the first arguments of the call are recorded, and it gets `ret`. */
  ghost predicate Returned(s: State, t: State, me: Block, number: int, arg0: int, ret: int) {
    && t == s.(pcb := t.pcb)
    && (forall b: Block :: b != me ==> t.pcb[b] == s.pcb[b])
    && t.pcb[me] == s.pcb[me].(syscallNum := number, arg0 := arg0, arg1 := t.pcb[me].arg1, retValue := ret)
  }

  // ----- descriptors -----

  /** The calls on resources hand on what the tables answer, and leave the semaphores alone. */
  lemma {:induction false} ResourceAnswers(m: Machine, me: Block, q: Request, n: Machine)
    requires m.sched.running == Some(me) && Serve(m, q) == Goes(n)
    ensures q.OpenResource? ==> var o := R.OpenStep(m.res, me, q.id, q.kind, q.mode);
      o == R.Done(n.res, n.sched.pcb[me].retValue) && Returned(m.sched, n.sched, me, 7, q.id, o.ret) && n.sem == m.sem
      && n.sched.pcb[me].arg1 == q.kind
    ensures q.CloseResource? ==> var o := R.CloseStep(m.res, me, q.fd);
      o == R.Done(n.res, n.sched.pcb[me].retValue) && Returned(m.sched, n.sched, me, 8, q.fd, o.ret) && n.sem == m.sem
    ensures q.DestroyResource? ==> var o := R.DestroyStep(m.res, q.id);
      o == R.Done(n.res, n.sched.pcb[me].retValue) && Returned(m.sched, n.sched, me, 9, q.id, o.ret) && n.sem == m.sem
  {
  }

  /** Opening and closing a semaphore, too. */
  lemma {:induction false} SemaphoreAnswers(m: Machine, me: Block, q: Request, n: Machine)
    requires m.sched.running == Some(me) && Serve(m, q) == Goes(n)
    ensures q.SemOpen? ==> var o := S.OpenStep(m.sem, me, q.id, q.oflag, q.count);
      o == S.Done(n.sem, n.sched.pcb[me].retValue) && Returned(m.sched, n.sched, me, 11, q.id, o.ret) && n.res == m.res
      && n.sched.pcb[me].arg1 == q.oflag
    ensures q.SemClose? ==> var o := S.CloseStep(m.sem, me, q.fd);
      o == S.Done(n.sem, n.sched.pcb[me].retValue) && Returned(m.sched, n.sched, me, 12, q.fd, o.ret) && n.res == m.res
  {
  }

  // ----- semaphore wait and post -----

  /** The caller is listed behind all others that wait, with status Waiting, and goes on running. */
  ghost predicate Parked(s: State, t: State, me: Block) {
    && t == s.(pcb := t.pcb, waiting := s.waiting + [me])
    && t.pcb[me].status == Waiting
    && (forall b: Block :: b != me ==> t.pcb[b] == s.pcb[b])
  }

  /** A semaphore wait parks its caller if the count is used up, and does nothing to the process lists if not. */
  lemma {:induction false} SemWaitAnswers(m: Machine, me: Block, fd: int, n: Machine)
    requires S.Inv(m.sem) && m.sched.running == Some(me) && Serve(m, SemWait(fd)) == Goes(n)
    ensures n.res == m.res && n.sched.pcb[me].syscallNum == 13
    ensures forall d: S.Slot :: d in m.sem.fds[me] && m.sem.desc[d].fd == fd ==>
      && n.sched.pcb[me].retValue == 0 && SA.Waited(m.sem, n.sem, d)
      && if m.sem.sem[m.sem.desc[d].sem].count > 0 then Returned(m.sched, n.sched, me, 13, fd, 0) else Parked(m.sched, n.sched, me)
    ensures (forall d: S.Slot :: d in m.sem.fds[me] ==> m.sem.desc[d].fd != fd) ==>
      Returned(m.sched, n.sched, me, 13, fd, -17) && n.sem == m.sem
  {
    SA.WaitAnswers(m.sem, me, fd, n.sem, S.WaitStep(m.sem, me, fd).ret);
    forall d: S.Slot | d in m.sem.fds[me] && m.sem.desc[d].fd == fd
      ensures S.MustQueue(m.sem, me, fd) <==> m.sem.sem[m.sem.desc[d].sem].count <= 0
    {
      S.ByFdExact(m.sem, me, d);
    }
  }

  /** `p` goes from the waiting list to the ready tail; nobody else is touched. */
  ghost predicate Released(s: State, t: State, me: Block, p: Block) {
    && t.ready == s.ready + [p] && t.waiting == Without(s.waiting, p)
    && (forall b: Block :: multiset(t.waiting)[b] == multiset(s.waiting)[b] - if b == p && p in s.waiting then 1 else 0)
    && t.pcb[p].status == Ready
    && (forall b: Block :: b != p ==> t.pcb[b].status == s.pcb[b].status)
    && (forall b: Block :: b != me && b != p ==> t.pcb[b] == s.pcb[b])
    && t == s.(pcb := t.pcb, ready := t.ready, waiting := t.waiting)
  }

  /** A post below zero makes exactly the process of the first queued descriptor ready; any other post touches no list. */
  lemma {:induction false} SemPostAnswers(m: Machine, me: Block, fd: int, n: Machine, d: S.Slot)
    requires S.Inv(m.sem) && m.sched.running == Some(me) && Serve(m, SemPost(fd)) == Goes(n)
    requires d in m.sem.fds[me] && m.sem.desc[d].fd == fd
    ensures n.res == m.res && SA.Posted(m.sem, n.sem, d)
    ensures n.sched.pcb[me].retValue == 0 && n.sched.pcb[me].syscallNum == 14 && n.sched.pcb[me].arg0 == fd
    ensures var s := m.sem.sem[m.sem.desc[d].sem];
      if s.count < 0 then s.waiting != [] && Released(m.sched, n.sched, me, m.sem.desc[m.sem.ptr[s.waiting[0]]].pcb)
      else Returned(m.sched, n.sched, me, 14, fd, 0)
  {
    SA.PostAnswers(m.sem, me, fd, n.sem, S.PostStep(m.sem, me, fd).ret);
    S.ByFdExact(m.sem, me, d);
    var s := m.sem.sem[m.sem.desc[d].sem];
    if s.count < 0 {
      var p: Block := m.sem.desc[m.sem.ptr[s.waiting[0]]].pcb;
      ReleasedAfter(m.sched, Called(m.sched, me, 14, [fd], 0), me, p);
      assert S.Woken(m.sem, me, fd) == Some(m.sem.desc[m.sem.ptr[s.waiting[0]]].pcb);
    }
  }

  lemma {:induction false} ReleasedAfter(s: State, c: State, me: Block, p: Block)
    requires Returned(s, c, me, 14, c.pcb[me].arg0, 0)
    ensures Released(s, Unpark(c, p), me, p)
  {
    forall b: Block {
      WithoutCount<Block>(s.waiting, p, b);
    }
  }

  // ----- the scheduler's calls -----

  /** A birth gives the child an empty fd list and counters at 0; its semaphore descriptors are what the block had. */
  lemma {:induction false} ForkTables(m: Machine, me: Block, c: Call, n: Machine)
    requires m.sched.running == Some(me) && (c.Fork? || c.Spawn?) && Serve(m, Sched(c)) == Goes(n)
    ensures Step(m.sched, c) == Next(n.sched) && m.sched.free != []
    ensures var child := m.sched.free[0];
      && n.res == m.res.(fds := m.res.fds[child := []], lastFd := m.res.lastFd[child := 0])
      && n.sem == m.sem.(lastFd := m.sem.lastFd[child := 0])
  {
    StepCases(m.sched, c);
  }

  /** An awaited exit takes the resource descriptors of the dying process out of all tables; any other exit,
      and any other call, leaves the tables alone. */
  lemma {:induction false} OtherTables(m: Machine, me: Block, c: Call, n: Machine)
    requires Invariants.Inv(m.sched) && R.Inv(m.res) && m.sched.running == Some(me) && !c.Fork? && !c.Spawn?
    requires Serve(m, Sched(c)) == Goes(n)
    ensures Step(m.sched, c) == Next(n.sched) && n.sem == m.sem
    ensures if c.Exit? && Answers.Awaited(m.sched, me)
      then n.res.fds == m.res.fds[me := []] && n.res.list == m.res.list
           && forall r: R.Slot :: n.res.res[r] == m.res.res[r].(descriptors := Keep<R.Slot>(m.res.res[r].descriptors, m.res.fds[me]))
      else n.res == m.res
  {
    if c.Exit? {
      Answers.AwaitedIff(m.sched, me, c);
      R.CleanupExact(m.res, me);
    }
  }

  // ----- numbers without handler -----

  lemma {:induction false} OtherAnswers(m: Machine, me: Block, number: Unserved)
    requires m.sched.running == Some(me)
    ensures number < 0 || number > 32 ==> Serve(m, Other(number)) == Goes(m)
    ensures number == 32 ==> Serve(m, Other(number)).Crashes?
    ensures 0 <= number < 32 ==>
      var o := Serve(m, Other(number));
      && o.Goes? && o.machine.res == m.res && o.machine.sem == m.sem
      && Returned(m.sched, o.machine.sched, me, number, m.sched.pcb[me].arg0, -2)
  {
  }
}
