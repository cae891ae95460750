/** The semaphore system calls as the source writes them, over the static buffers. */
module SemaphoreCode {
  import opened Sequences
  import opened Semaphores

  lemma {:induction false} ByIdAt(sem: SemaphoreBuffer, l: seq<Slot>, id: int, k: nat)
    requires k <= |l| && (forall i :: 0 <= i < k ==> sem[l[i]].id != id)
    requires k < |l| ==> sem[l[k]].id == id
    ensures ById(sem, l, id) == if k < |l| then Some(l[k]) else None
  {
    if k > 0 {
      ByIdAt(sem, l[1..], id, k - 1);
    }
  }

  lemma {:induction false} ByFdAt(desc: DescriptorBuffer, l: seq<Slot>, fd: int, k: nat)
    requires k <= |l| && (forall i :: 0 <= i < k ==> desc[l[i]].fd != fd)
    requires k < |l| ==> desc[l[k]].fd == fd
    ensures ByFd(desc, l, fd) == if k < |l| then Some(l[k]) else None
  {
    if k > 0 {
      ByFdAt(desc, l[1..], fd, k - 1);
    }
  }

  class SemaphoreKernel {
    const sem: array<Semaphore>
    const desc: array<Descriptor>
    const ptr: array<Slot>
    const fds: array<seq<Slot>>
    const lastFd: array<int>
    var semFree: seq<Slot>
    var list: seq<Slot>
    var descFree: seq<Slot>
    var ptrFree: seq<Slot>
    ghost var readied: seq<Slot>
    ghost var blocked: nat

    ghost predicate Sized() {
      && sem.Length == desc.Length == ptr.Length == fds.Length == lastFd.Length == POOL_SIZE
      && ptr as object != lastFd
    }

    ghost function Abs(): Table
      requires Sized()
      reads this, sem, desc, ptr, fds, lastFd
    {
      Table(sem[..], semFree, list, desc[..], descFree, ptr[..], ptrFree, fds[..], lastFd[..], readied, blocked)
    }

    ghost predicate Valid()
      reads this, sem, desc, ptr, fds, lastFd
    {
      Sized() && Inv(Abs())
    }

    constructor ()
      ensures Valid() && Abs() == Start()
    {
      sem := new Semaphore[POOL_SIZE](_ => BLANK);
      desc := new Descriptor[POOL_SIZE](_ => Descriptor(0, 0, 0, 0));
      ptr := new Slot[POOL_SIZE](_ => 0);
      fds := new seq<Slot>[POOL_SIZE](_ => []);
      lastFd := new int[POOL_SIZE](_ => 0);
      semFree := seq(POOL_SIZE, i requires 0 <= i < POOL_SIZE => i);
      descFree := seq(POOL_SIZE, i requires 0 <= i < POOL_SIZE => i);
      ptrFree := seq(POOL_SIZE, i requires 0 <= i < POOL_SIZE => i);
      list, readied, blocked := [], [], 0;
      new;
      assert Abs() == Start();
      StartInv();
    }

    /** `SemaphoreList_byId` */
    method FindById(id: int) returns (r: Option<Slot>)
      requires Sized()
      ensures r == ById(sem[..], list, id)
    {
      var aux := 0;
      while aux < |list|
        invariant 0 <= aux <= |list|
        invariant forall i :: 0 <= i < aux ==> sem[list[i]].id != id
      {
        if sem[list[aux]].id == id {
          ByIdAt(sem[..], list, id, aux);
          return Some(list[aux]);
        }
        aux := aux + 1;
      }
      ByIdAt(sem[..], list, id, aux);
      return None;
    }

    /** `SemDescriptorList_byFd` */
    method FindByFd(me: Slot, fd: int) returns (d: Option<Slot>)
      requires Sized()
      ensures d == ByFd(desc[..], fds[me], fd)
    {
      var l := fds[me];
      var aux := 0;
      while aux < |l|
        invariant 0 <= aux <= |l|
        invariant forall i :: 0 <= i < aux ==> desc[l[i]].fd != fd
      {
        if desc[l[aux]].fd == fd {
          ByFdAt(desc[..], l, fd, aux);
          return Some(l[aux]);
        }
        aux := aux + 1;
      }
      ByFdAt(desc[..], l, fd, aux);
      return None;
    }

    /** Steps 5 and 6 of `internal_semOpen`. */
    method CreateDescriptor(me: Slot, r: Slot)
      requires Sized() && descFree != [] && ptrFree != []
      modifies this, sem, desc, ptr, fds, lastFd
      ensures Sized() && Abs() == AddDescriptor(old(Abs()), me, r)
    {
      ghost var t := Abs();
      var d := descFree[0];
      descFree := descFree[1..];
      desc[d] := Descriptor(me, r, lastFd[me], desc[d].ptr);
      lastFd[me] := lastFd[me] + 1;
      fds[me] := fds[me] + [d];
      var q := ptrFree[0];
      ptrFree := ptrFree[1..];
      ptr[q] := d;
      desc[d] := desc[d].(ptr := q);
      sem[r] := sem[r].(descriptors := sem[r].descriptors + [q]);
      assert sem[..] == AddDescriptor(t, me, r).sem;
      assert desc[..] == AddDescriptor(t, me, r).desc;
      assert ptr[..] == AddDescriptor(t, me, r).ptr;
      assert fds[..] == AddDescriptor(t, me, r).fds;
      assert lastFd[..] == AddDescriptor(t, me, r).lastFd;
    }

    /** src/disastrOS_semopen.c */
    method SemOpen(me: Slot, id: int, oflag: int, count: int) returns (ret: int)
      requires Valid() && OpenStep(Abs(), me, id, oflag, count).Done?
      modifies this, sem, desc, ptr, fds, lastFd
      ensures Valid() && OpenStep(old(Abs()), me, id, oflag, count) == Done(Abs(), ret)
    {
      ghost var t := Abs();
      OpenKeeps(t, me, id, oflag, count);
      var found := FindById(id);
      if oflag % 2 == 1 {
        if found.Some? {
          return DSOS_ESEMAPHORECREATE;
        }
        var r := semFree[0];
        semFree := semFree[1..];
        sem[r] := Semaphore(id, count, [], [], count, 0, 0, [], []);
        list := list + [r];
        found := Some(r);
        assert sem[..] == AddSemaphore(t, id, count).sem;
        assert Abs() == AddSemaphore(t, id, count);
      }
      if found.None? {
        return DSOS_ESEMAPHOREOPEN;
      }
      if oflag / 4 % 2 == 1 && |sem[found.value].descriptors| != 0 {
        return DSOS_ESEMAPHORENOEXCL;
      }
      if descFree == [] {
        return DSOS_ERESOURCENOFD;
      }
      ret := lastFd[me];
      CreateDescriptor(me, found.value);
    }

    /** src/disastrOS_semclose.c */
    method SemClose(me: Slot, fd: int) returns (ret: int)
      requires Valid()
      modifies this, sem, fds
      ensures Valid() && CloseStep(old(Abs()), me, fd) == Done(Abs(), ret)
    {
      ghost var t := Abs();
      StepKeeps(t, Close(me, fd));
      var found := FindByFd(me, fd);
      if found.None? {
        return DSOS_ESEMAPHORECLOSE;
      }
      var d := found.value;
      fds[me] := Without(fds[me], d);
      var r := desc[d].sem;
      sem[r] := sem[r].(descriptors := Without(sem[r].descriptors, desc[d].ptr));
      if |sem[r].descriptors| == 0 {
        list := Without(list, r);
      }
      descFree := [d] + descFree;
      ptrFree := [desc[d].ptr] + ptrFree;
      assert fds[..] == DropDescriptor(t, me, d).fds;
      assert sem[..] == DropDescriptor(t, me, d).sem;
      return 0;
    }

    /** src/disastrOS_semwait.c, without the update of the process lists; `queued` if the caller is to be parked */
    method SemWait(me: Slot, fd: int) returns (ret: int, queued: bool)
      requires Valid() && WaitStep(Abs(), me, fd).Done?
      modifies this, sem, ptr
      ensures Valid() && WaitStep(old(Abs()), me, fd) == Done(Abs(), ret)
      ensures queued == MustQueue(old(Abs()), me, fd)
    {
      ghost var t := Abs();
      StepKeeps(t, Wait(me, fd));
      queued := false;
      var found := FindByFd(me, fd);
      if found.None? {
        return DSOS_ESEMAPHOREWAIT, false;
      }
      var d := found.value;
      var r := desc[d].sem;
      sem[r] := sem[r].(count := sem[r].count - 1, waits := sem[r].waits + 1);
      if sem[r].count < 0 {
        var q := ptrFree[0];
        ptrFree := ptrFree[1..];
        ptr[q] := d;
        sem[r] := sem[r].(waiting := sem[r].waiting + [q], queued := sem[r].queued + [d]);
        blocked := blocked + 1;
        queued := true;
      }
      assert sem[..] == WaitOn(t, d).table.sem;
      assert ptr[..] == WaitOn(t, d).table.ptr;
      return 0, queued;
    }

    /** src/disastrOS_sempost.c; `woken` is the process that goes to the ready list */
    method SemPost(me: Slot, fd: int) returns (ret: int, woken: Option<Slot>)
      requires Valid() && PostStep(Abs(), me, fd).Done?
      modifies this, sem
      ensures Valid() && PostStep(old(Abs()), me, fd) == Done(Abs(), ret)
      ensures woken == Woken(old(Abs()), me, fd)
    {
      ghost var t := Abs();
      StepKeeps(t, Post(me, fd));
      woken := None;
      var d := FindByFd(me, fd);
      var r := desc[d.value].sem;
      sem[r] := sem[r].(count := sem[r].count + 1, posts := sem[r].posts + 1);
      if sem[r].count <= 0 {
        var e := ptr[sem[r].waiting[0]];
        sem[r] := sem[r].(waiting := sem[r].waiting[1..], handed := sem[r].handed + [e]);
        woken := Some(desc[e].pcb);
        readied := readied + [desc[e].pcb];
      }
      assert sem[..] == PostOn(t, d.value).table.sem;
      return 0, woken;
    }
  }
}
