/** The handlers that work on the scheduler and on descriptor tables at once. */
module MachineCode {
  import opened Sequences
  import opened Processes
  import opened Syscalls
  import opened Machines
  import opened KernelCode
  import R = Resources
  import S = Semaphores
  import RC = ResourceCode
  import SC = SemaphoreCode

  /** The end of `internal_semWait`: the caller goes to the waiting list if it was queued. */
  method AnswerWait(k: Kernel, me: Block, fd: int, ret: int, queued: bool)
    requires k.pcb.Length == MAX_NUM_PROCESSES
    modifies k`waiting, k.pcb
    ensures k.waiting == old(k.waiting) + if queued then [me] else []
    ensures var p := old(k.pcb[me]);
      k.pcb[..] == old(k.pcb[..])[me := p.(syscallNum := 13, arg0 := fd, retValue := ret, status := if queued then Waiting else p.status)]
  {
    k.pcb[me] := k.pcb[me].(syscallNum := 13, arg0 := fd);
    if queued {
      k.pcb[me] := k.pcb[me].(status := Waiting);
      k.waiting := k.waiting + [me];
    }
    k.pcb[me] := k.pcb[me].(retValue := ret);
  }

  /** src/disastrOS_semwait.c, with the recording of the call */
  method InternalSemWait(k: Kernel, s: SC.SemaphoreKernel, ghost res: R.Table, me: Block, fd: int)
    requires k.pcb.Length == MAX_NUM_PROCESSES && s.Valid()
    requires SemWaitStep(Machine(k.Abs(), res, s.Abs()), me, fd).Goes?
    modifies k`waiting, k.pcb, s, s.sem, s.ptr
    ensures k.pcb.Length == MAX_NUM_PROCESSES && s.Valid()
    ensures SemWaitStep(old(Machine(k.Abs(), res, s.Abs())), me, fd) == Goes(Machine(k.Abs(), res, s.Abs()))
  {
    var ret, queued := s.SemWait(me, fd);
    AnswerWait(k, me, fd, ret, queued);
  }

  /** The end of `internal_semPost`: the first waiter goes from the waiting list to the ready tail. */
  method AnswerPost(k: Kernel, me: Block, fd: int, ret: int, woken: Option<Block>)
    requires k.pcb.Length == MAX_NUM_PROCESSES
    modifies k`waiting, k`ready, k.pcb
    ensures k.waiting == if woken.Some? then Without(old(k.waiting), woken.value) else old(k.waiting)
    ensures k.ready == old(k.ready) + if woken.Some? then [woken.value] else []
    ensures var w := old(k.pcb[..])[me := old(k.pcb[me]).(syscallNum := 14, arg0 := fd, retValue := ret)];
      k.pcb[..] == if woken.Some? then w[woken.value := w[woken.value].(status := Ready)] else w
  {
    ghost var w := k.pcb[..][me := k.pcb[me].(syscallNum := 14, arg0 := fd, retValue := ret)];
    k.pcb[me] := k.pcb[me].(syscallNum := 14, arg0 := fd, retValue := ret);
    assert k.pcb[..] == w;
    if woken.Some? {
      var p := woken.value;
      k.waiting := Without(k.waiting, p);
      k.pcb[p] := k.pcb[p].(status := Ready);
      k.ready := k.ready + [p];
    }
  }

  /** src/disastrOS_sempost.c, with the recording of the call */
  method InternalSemPost(k: Kernel, s: SC.SemaphoreKernel, ghost res: R.Table, me: Block, fd: int)
    requires k.pcb.Length == MAX_NUM_PROCESSES && s.Valid()
    requires SemPostStep(Machine(k.Abs(), res, s.Abs()), me, fd).Goes?
    modifies k`waiting, k`ready, k.pcb, s, s.sem
    ensures k.pcb.Length == MAX_NUM_PROCESSES && s.Valid()
    ensures SemPostStep(old(Machine(k.Abs(), res, s.Abs())), me, fd) == Goes(Machine(k.Abs(), res, s.Abs()))
  {
    var ret, woken := s.SemPost(me, fd);
    AnswerPost(k, me, fd, ret, if woken.None? then None else Some(woken.value));
  }

  /** src/disastrOS.c, `disastrOS_syscall` and `disastrOS_trap` on a number that has no handler. */
  method UnservedSyscall(k: Kernel, ghost res: R.Table, ghost sem: S.Table, me: Block, number: Unserved) returns (ret: int)
    requires k.pcb.Length == MAX_NUM_PROCESSES && number != DSOS_MAX_SYSCALLS
    modifies k.pcb
    ensures OtherStep(old(Machine(k.Abs(), res, sem)), me, number) == Goes(Machine(k.Abs(), res, sem))
    ensures ret == if 0 <= number < DSOS_MAX_SYSCALLS then DSOS_ESYSCALL_NOT_IMPLEMENTED else DSOS_ESYSCALL_OUT_OF_RANGE
  {
    if number < 0 || number > DSOS_MAX_SYSCALLS {
      return DSOS_ESYSCALL_OUT_OF_RANGE;
    }
    k.pcb[me] := k.pcb[me].(syscallNum := number);
    k.pcb[me] := k.pcb[me].(retValue := DSOS_ESYSCALL_NOT_IMPLEMENTED);
    return k.pcb[me].retValue;
  }

  /** src/disastrOS_exit.c, with the descriptor cleanup of its parent-waiting branch */
  method InternalExit(k: Kernel, r: RC.ResourceKernel, me: Block)
    requires k.pcb.Length == MAX_NUM_PROCESSES && ExitStep(k.Abs(), me).Next? && k.pcb[me].parent != Some(me) && r.Valid()
    modifies k, k.pcb, r, r.res, r.fds
    ensures k.pcb.Length == MAX_NUM_PROCESSES && r.Valid()
    ensures ExitStep(old(k.Abs()), me) == Next(k.Abs())
    ensures r.Abs() == if HandsOver(old(k.Abs()), me) then R.Cleanup(old(r.Abs()), me) else old(r.Abs())
  {
    var parent := k.pcb[me].parent.value;
    var awaited := k.pcb[parent].status == Waiting
      && k.pcb[parent].syscallNum == DSOS_CALL_WAIT
      && (k.pcb[parent].arg0 == 0 || k.pcb[parent].arg0 == k.pcb[me].pid);
    assert awaited == HandsOver(k.Abs(), me);
    k.InternalExit(me);
    if awaited {
      r.ReleaseDescriptors(me);
    }
  }
}
