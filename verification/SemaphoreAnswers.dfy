/** What the semaphore calls answer, from the tables before the call. */
module SemaphoreAnswers {
  import opened Sequences
  import opened Semaphores

  // ----- open -----

  /** The listed semaphore with that id. */
  ghost predicate IsListed(t: Table, r: Slot, id: int) {
    r in t.list && t.sem[r].id == id
  }

  ghost predicate Exists(t: Table, id: int) {
    exists r: Slot :: IsListed(t, r, id)
  }

  /** And somebody has it open. */
  ghost predicate InUse(t: Table, id: int) {
    exists r: Slot :: IsListed(t, r, id) && t.sem[r].descriptors != []
  }

  lemma {:induction false} FoundIff(t: Table, id: int)
    requires Inv(t)
    ensures var found := ById(t.sem, t.list, id);
      && (found.Some? <==> Exists(t, id))
      && (found.Some? && t.sem[found.value].descriptors != [] <==> InUse(t, id))
      && (forall r: Slot :: IsListed(t, r, id) ==> found == Some(r))
  {
    var found := ById(t.sem, t.list, id);
    if found.Some? {
      assert IsListed(t, found.value, id);
    }
    forall r: Slot | IsListed(t, r, id) ensures found == Some(r) {
      ByIdExact(t, r);
    }
  }

  /** CREATE (bit 0) is set: the semaphore must be new; else it must be there, and free if EXCL (bit 2) is set. */
  ghost predicate MayOpen(t: Table, id: int, oflag: int) {
    if oflag % 2 == 1 then !Exists(t, id) && t.semFree != []
    else Exists(t, id) && (oflag / 4 % 2 == 1 ==> !InUse(t, id))
  }

  /** Which answer an open gives. */
  lemma {:induction false} OpenAnswers(t: Table, me: Slot, id: int, oflag: int, count: int)
    requires Inv(t)
    ensures OpenStep(t, me, id, oflag, count).Crash? <==>
      if oflag % 2 == 1 && !Exists(t, id) && t.semFree == [] then true
      else MayOpen(t, id, oflag) && t.descFree != [] && t.ptrFree == []
    ensures OpenStep(t, me, id, oflag, count).Done? ==>
      var ret := OpenStep(t, me, id, oflag, count).ret;
      && (ret >= 0 <==> t.descFree != [] && MayOpen(t, id, oflag))
      && (ret == -14 <==> oflag % 2 == 1 && Exists(t, id))
      && (ret == -15 <==> oflag % 2 == 0 && !Exists(t, id))
      && (ret == -16 <==> oflag % 2 == 0 && oflag / 4 % 2 == 1 && InUse(t, id))
      && (ret == -11 <==> t.descFree == [] && MayOpen(t, id, oflag))
  {
    FoundIff(t, id);
    assert t.lastFd[me] >= 0;
  }

  /** `d` is a new descriptor of `me` with that fd, at the tail of its fd list and of the list of semaphore `r`. */
  ghost predicate NewDescriptor(t: Table, u: Table, me: Slot, r: Slot, d: Slot, fd: int) {
    && !Live(t, d) && Live(u, d) && u.desc[d].fd == fd && u.desc[d].pcb == me && u.desc[d].sem == r
    && u.fds == t.fds[me := t.fds[me] + [d]]
    && u.ptr[u.desc[d].ptr] == d
    && (forall x: Slot :: x != d ==> (Live(u, x) <==> Live(t, x)) && u.desc[x] == t.desc[x])
    && (forall x: Slot :: x != r ==> u.sem[x] == t.sem[x])
    && u.lastFd == t.lastFd[me := fd + 1]
    && u.readied == t.readied && u.blocked == t.blocked
  }

  /** An open that succeeds gives out an fd that was not in use; it names a new descriptor on the semaphore with
      that id, which is listed. A created one was not listed before, has the count asked for, and no other descriptor. */
  lemma {:induction false} OpenGives(t: Table, me: Slot, id: int, oflag: int, count: int, u: Table, fd: int) returns (r: Slot, d: Slot)
    requires Inv(t) && OpenStep(t, me, id, oflag, count) == Done(u, fd) && fd >= 0
    ensures ByFd(u.desc, u.fds[me], fd) == Some(d) && ByFd(t.desc, t.fds[me], fd) == None
    ensures NewDescriptor(t, u, me, r, d, fd) && IsListed(u, r, id)
    ensures u.list == if oflag % 2 == 1 then t.list + [r] else t.list
    ensures if oflag % 2 == 1 then r !in t.list && t.semFree == [r] + u.semFree else IsListed(t, r, id) && u.semFree == t.semFree
    ensures u.sem[r] == if oflag % 2 == 1 then Semaphore(id, count, [u.desc[d].ptr], [], count, 0, 0, [], [])
                        else t.sem[r].(descriptors := t.sem[r].descriptors + [u.desc[d].ptr])
  {
    OpenKeeps(t, me, id, oflag, count);
    var b;
    b, r := OpenedTable(t, me, id, oflag, count, u, fd);
    d := t.descFree[0];
    NoSuchFd(t, me);
    Added(b, me, r);
    assert u.desc[d].fd == fd && d in u.fds[me];
    ByFdExact(u, me, d);
  }

  /** The table with the new semaphore, if one is created. */
  lemma {:induction false} OpenedTable(t: Table, me: Slot, id: int, oflag: int, count: int, u: Table, fd: int) returns (b: Table, r: Slot)
    requires Inv(t) && OpenStep(t, me, id, oflag, count) == Done(u, fd) && fd >= 0
    ensures t.descFree != [] && t.ptrFree != [] && fd == t.lastFd[me]
    ensures if oflag % 2 == 1
      then r !in t.list && t.semFree == [r] + b.semFree && b.list == t.list + [r] && b.sem[r] == Semaphore(id, count, [], [], count, 0, 0, [], [])
           && b == t.(sem := t.sem[r := b.sem[r]], semFree := b.semFree, list := b.list)
      else b == t && IsListed(t, r, id)
    ensures b.descFree == t.descFree && b.ptrFree == t.ptrFree && u == AddDescriptor(b, me, r)
  {
    FoundIff(t, id);
    r := if oflag % 2 == 1 then t.semFree[0] else ById(t.sem, t.list, id).value;
    if t.semFree != [] {
      assert t.semFree[0] in t.semFree && t.semFree == [t.semFree[0]] + t.semFree[1..];
    }
    b := if oflag % 2 == 1 then AddSemaphore(t, id, count) else t;
  }

  lemma {:induction false} Added(t: Table, me: Slot, r: Slot)
    requires Distinct(t.descFree) && t.descFree != [] && t.ptrFree != []
    ensures NewDescriptor(t, AddDescriptor(t, me, r), me, r, t.descFree[0], t.lastFd[me])
  {
    var d := t.descFree[0];
    forall x: Slot ensures x in t.descFree[1..] <==> x in t.descFree && x != d {
      HeadOfDistinct<Slot>(t.descFree, x);
    }
  }

  /** The counter is ahead of all fds. */
  lemma {:induction false} NoSuchFd(t: Table, me: Slot)
    requires Inv(t)
    ensures ByFd(t.desc, t.fds[me], t.lastFd[me]) == None
  {
    forall d: Slot | d in t.fds[me] ensures t.desc[d].fd < t.lastFd[me] {
      assert InFds(t, me, d) && DescFits(t, d);
    }
  }

  /** An open that fails changes nothing, except that a creation without descriptor leaves the new semaphore listed. */
  lemma {:induction false} OpenFails(t: Table, me: Slot, id: int, oflag: int, count: int, u: Table, ret: int)
    requires Inv(t) && OpenStep(t, me, id, oflag, count) == Done(u, ret) && ret < 0
    ensures ret != -11 || oflag % 2 == 0 ==> u == t
    ensures ret == -11 && oflag % 2 == 1 ==> t.semFree != [] && var r := t.semFree[0];
      u == t.(sem := t.sem[r := Semaphore(id, count, [], [], count, 0, 0, [], [])], semFree := t.semFree[1..], list := t.list + [r])
  {
    assert t.lastFd[me] >= 0;
  }

  // ----- close -----

  /** `d` is in no list any more and can be given out again; its semaphore leaves the list with its last descriptor. */
  ghost predicate Dropped(t: Table, u: Table, me: Slot, d: Slot) {
    var r := t.desc[d].sem;
    && u.fds == t.fds[me := Without(t.fds[me], d)] && d !in u.fds[me]
    && u.sem == t.sem[r := t.sem[r].(descriptors := Without(t.sem[r].descriptors, t.desc[d].ptr))]
    && t.desc[d].ptr in t.sem[r].descriptors && t.desc[d].ptr !in u.sem[r].descriptors
    && (forall x: Slot :: Live(u, x) <==> Live(t, x) && x != d)
    && (forall x: Slot :: x in u.list <==> x in t.list && (x == r ==> u.sem[r].descriptors != []))
    && u == t.(fds := u.fds, sem := u.sem, list := u.list, descFree := u.descFree, ptrFree := [t.desc[d].ptr] + t.ptrFree)
  }

  /** A close answers 0 and drops the descriptor with that fd, or answers -19 and changes nothing if there is none. */
  lemma {:induction false} CloseAnswers(t: Table, me: Slot, fd: int, u: Table, ret: int)
    requires Inv(t) && CloseStep(t, me, fd) == Done(u, ret)
    ensures forall d: Slot :: d in t.fds[me] && t.desc[d].fd == fd ==> ret == 0 && Dropped(t, u, me, d)
    ensures (forall d: Slot :: d in t.fds[me] ==> t.desc[d].fd != fd) ==> ret == -19 && u == t
  {
    forall d: Slot | d in t.fds[me] && t.desc[d].fd == fd ensures ret == 0 && Dropped(t, u, me, d) {
      ByFdExact(t, me, d);
      assert InFds(t, me, d) && DescFits(t, d);
      DropDesc(t, me, d, d);
      DropDesc(t, me, d, t.desc[d].ptr);
      assert !InFds(u, me, d) && !InSem(u, t.desc[d].sem, t.desc[d].ptr);
      forall x: Slot ensures Live(u, x) <==> Live(t, x) && x != d {
        DropDesc(t, me, d, x);
      }
      DropListed(t, me, d);
    }
  }

  // ----- wait and post -----

  /** Nothing but the semaphore `r`, the cell blocks and the history changes. */
  ghost predicate OnlySemaphore(t: Table, u: Table, r: Slot) {
    && u == t.(sem := u.sem, ptr := u.ptr, ptrFree := u.ptrFree, readied := u.readied, blocked := u.blocked)
    && (forall x: Slot :: x != r ==> u.sem[x] == t.sem[x])
    && u.sem[r].id == t.sem[r].id && u.sem[r].descriptors == t.sem[r].descriptors && u.sem[r].initial == t.sem[r].initial
  }

  /** A wait takes one from the count; at zero or below, the descriptor goes to the tail of the queue. */
  ghost predicate Waited(t: Table, u: Table, d: Slot) {
    var r := t.desc[d].sem;
    && OnlySemaphore(t, u, r)
    && u.sem[r].count == t.sem[r].count - 1 && u.sem[r].waits == t.sem[r].waits + 1 && u.sem[r].posts == t.sem[r].posts
    && u.sem[r].handed == t.sem[r].handed && u.readied == t.readied
    && (if t.sem[r].count > 0
        then u.sem[r].waiting == t.sem[r].waiting && QueuedDescriptors(u, r) == QueuedDescriptors(t, r) && u.ptrFree == t.ptrFree
             && u.blocked == t.blocked
        else QueuedDescriptors(u, r) == QueuedDescriptors(t, r) + [d] && u.blocked == t.blocked + 1)
  }

  lemma {:induction false} WaitAnswers(t: Table, me: Slot, fd: int, u: Table, ret: int)
    requires Inv(t) && WaitStep(t, me, fd) == Done(u, ret)
    ensures forall d: Slot :: d in t.fds[me] && t.desc[d].fd == fd ==> ret == 0 && Waited(t, u, d)
    ensures (forall d: Slot :: d in t.fds[me] ==> t.desc[d].fd != fd) ==> ret == -17 && u == t
  {
    forall d: Slot | d in t.fds[me] && t.desc[d].fd == fd ensures ret == 0 && Waited(t, u, d) {
      ByFdExact(t, me, d);
      WaitedOn(t, d, u);
    }
  }

  lemma {:induction false} WaitedOn(t: Table, d: Slot, u: Table)
    requires Inv(t) && WaitOn(t, d) == Done(u, 0)
    ensures Waited(t, u, d)
  {
    var r := t.desc[d].sem;
    var w := t.sem[r].waiting;
    forall i | 0 <= i < |w| ensures u.ptr[w[i]] == t.ptr[w[i]] {
      assert InQueue(t, r, w[i]);
    }
    assert QueuedDescriptors(u, r) == QueuedDescriptors(t, r) + if t.sem[r].count > 0 then [] else [d];
  }

  /** A post adds one to the count; below zero, the first queued descriptor leaves the queue and its process is named. */
  ghost predicate Posted(t: Table, u: Table, d: Slot) {
    var r := t.desc[d].sem;
    var queue := QueuedDescriptors(t, r);
    && OnlySemaphore(t, u, r) && u.ptr == t.ptr && u.ptrFree == t.ptrFree && u.blocked == t.blocked
    && u.sem[r].count == t.sem[r].count + 1 && u.sem[r].posts == t.sem[r].posts + 1 && u.sem[r].waits == t.sem[r].waits
    && u.sem[r].queued == t.sem[r].queued
    && (if t.sem[r].count >= 0 then QueuedDescriptors(u, r) == queue && u.sem[r].handed == t.sem[r].handed && u.readied == t.readied
        else queue != [] && QueuedDescriptors(u, r) == queue[1..] && u.sem[r].handed == t.sem[r].handed + [queue[0]]
             && u.readied == t.readied + [t.desc[queue[0]].pcb])
  }

  lemma {:induction false} PostAnswers(t: Table, me: Slot, fd: int, u: Table, ret: int)
    requires Inv(t) && PostStep(t, me, fd) == Done(u, ret)
    ensures ret == 0
    ensures exists d: Slot :: d in t.fds[me] && t.desc[d].fd == fd
    ensures forall d: Slot :: d in t.fds[me] && t.desc[d].fd == fd ==> Posted(t, u, d)
  {
    forall d: Slot | d in t.fds[me] && t.desc[d].fd == fd ensures Posted(t, u, d) {
      ByFdExact(t, me, d);
      PostedOn(t, d, u);
    }
  }

  lemma {:induction false} PostedOn(t: Table, d: Slot, u: Table)
    requires PostOn(t, d) == Done(u, 0)
    ensures Posted(t, u, d)
  {
    var r := t.desc[d].sem;
    var queue := QueuedDescriptors(t, r);
    assert QueuedDescriptors(u, r) == if t.sem[r].count >= 0 then queue else queue[1..];
  }
}
