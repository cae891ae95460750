/** Counting semaphores: the ledger of waits and posts, the queue of waiters, and the life of a semaphore. */
module Semaphores {
  import opened Sequences

  const POOL_SIZE: nat := 1024  // MAX_NUM_SEMAPHORES, and MAX_NUM_PROCESSES for both descriptor pools

  const DSOS_ERESOURCENOFD := -11
  const DSOS_ESEMAPHORECREATE := -14
  const DSOS_ESEMAPHOREOPEN := -15
  const DSOS_ESEMAPHORENOEXCL := -16
  const DSOS_ESEMAPHOREWAIT := -17
  const DSOS_ESEMAPHORECLOSE := -19

  type Slot = s: int | 0 <= s < POOL_SIZE

  /** `descriptors` and `waiting` hold SemDescriptorPtr blocks. The last five fields are history: the initial
      count, the numbers of waits and posts, and the descriptors that were queued and handed over, in order. */
  datatype Semaphore = Semaphore(
    id: int, count: int, descriptors: seq<Slot>, waiting: seq<Slot>,
    initial: int, waits: nat, posts: nat, queued: seq<Slot>, handed: seq<Slot>)

  datatype Descriptor = Descriptor(pcb: Slot, sem: Slot, fd: int, ptr: Slot)

  const BLANK := Semaphore(0, 0, [], [], 0, 0, 0, [], [])

  type SemaphoreBuffer = b: seq<Semaphore> | |b| == POOL_SIZE witness seq(POOL_SIZE, _ => BLANK)
  type DescriptorBuffer = b: seq<Descriptor> | |b| == POOL_SIZE witness seq(POOL_SIZE, _ => Descriptor(0, 0, 0, 0))
  type PtrBuffer = b: seq<Slot> | |b| == POOL_SIZE witness seq(POOL_SIZE, _ => 0)
  type FdTables = b: seq<seq<Slot>> | |b| == POOL_SIZE witness seq(POOL_SIZE, _ => [])
  type FdCounters = b: seq<int> | |b| == POOL_SIZE witness seq(POOL_SIZE, _ => 0)

  /** `readied` and `blocked` are history: the processes that posts put into the ready list, in order,
      and the number of waits that blocked. */
  datatype Table = Table(
    sem: SemaphoreBuffer,
    semFree: seq<Slot>,
    list: seq<Slot>,
    desc: DescriptorBuffer,
    descFree: seq<Slot>,
    ptr: PtrBuffer,
    ptrFree: seq<Slot>,
    fds: FdTables,
    lastFd: FdCounters,
    readied: seq<Slot>,
    blocked: nat)

  datatype Outcome = Done(table: Table, ret: int) | Crash

  /** `SemaphoreList_byId` */
  function ById(sem: SemaphoreBuffer, l: seq<Slot>, id: int): (r: Option<Slot>)
    ensures r.Some? ==> r.value in l && sem[r.value].id == id
    ensures r.None? ==> forall x: Slot :: x in l ==> sem[x].id != id
  {
    if l == [] then None else if sem[l[0]].id == id then Some(l[0]) else ById(sem, l[1..], id)
  }

  /** `SemDescriptorList_byFd` */
  function ByFd(desc: DescriptorBuffer, l: seq<Slot>, fd: int): (r: Option<Slot>)
    ensures r.Some? ==> r.value in l && desc[r.value].fd == fd
    ensures r.None? ==> forall x: Slot :: x in l ==> desc[x].fd != fd
  {
    if l == [] then None else if desc[l[0]].fd == fd then Some(l[0]) else ByFd(desc, l[1..], fd)
  }

  // ----- the system calls -----

  /** DSOS_CREATE is bit 0 and DSOS_EXCL bit 2 of the flags. */
  predicate Creates(oflag: int) {
    oflag % 2 == 1
  }

  predicate Exclusive(oflag: int) {
    oflag / 4 % 2 == 1
  }

  function AddSemaphore(t: Table, id: int, count: int): Table
    requires t.semFree != []
  {
    var r := t.semFree[0];
    t.(sem := t.sem[r := Semaphore(id, count, [], [], count, 0, 0, [], [])], semFree := t.semFree[1..], list := t.list + [r])
  }

  function AddDescriptor(t: Table, me: Slot, r: Slot): Table
    requires t.descFree != [] && t.ptrFree != []
  {
    var d, q := t.descFree[0], t.ptrFree[0];
    t.(desc := t.desc[d := Descriptor(me, r, t.lastFd[me], q)],
       descFree := t.descFree[1..],
       ptr := t.ptr[q := d],
       ptrFree := t.ptrFree[1..],
       fds := t.fds[me := t.fds[me] + [d]],
       lastFd := t.lastFd[me := t.lastFd[me] + 1],
       sem := t.sem[r := t.sem[r].(descriptors := t.sem[r].descriptors + [q])])
  }

  function OpenFound(t: Table, me: Slot, found: Option<Slot>, oflag: int): Outcome {
    if found.None? then Done(t, DSOS_ESEMAPHOREOPEN)
    else if Exclusive(oflag) && t.sem[found.value].descriptors != [] then Done(t, DSOS_ESEMAPHORENOEXCL)
    else if t.descFree == [] then Done(t, DSOS_ERESOURCENOFD)
    else if t.ptrFree == [] then Crash
    else Done(AddDescriptor(t, me, found.value), t.lastFd[me])
  }

  function OpenStep(t: Table, me: Slot, id: int, oflag: int, count: int): Outcome {
    var found := ById(t.sem, t.list, id);
    if !Creates(oflag) then OpenFound(t, me, found, oflag)
    else if found.Some? then Done(t, DSOS_ESEMAPHORECREATE)
    else if t.semFree == [] then Crash
    else OpenFound(AddSemaphore(t, id, count), me, Some(t.semFree[0]), oflag)
  }

  /** The last close takes the semaphore off the global list; its block is not freed. */
  function DropDescriptor(t: Table, me: Slot, d: Slot): Table {
    var r, q := t.desc[d].sem, t.desc[d].ptr;
    var left := Without(t.sem[r].descriptors, q);
    t.(fds := t.fds[me := Without(t.fds[me], d)],
       sem := t.sem[r := t.sem[r].(descriptors := left)],
       list := if left == [] then Without(t.list, r) else t.list,
       descFree := [d] + t.descFree,
       ptrFree := [q] + t.ptrFree)
  }

  function CloseStep(t: Table, me: Slot, fd: int): Outcome {
    var found := ByFd(t.desc, t.fds[me], fd);
    if found.None? then Done(t, DSOS_ESEMAPHORECLOSE) else Done(DropDescriptor(t, me, found.value), 0)
  }

  /** A wait decrements; below zero the caller's descriptor is queued behind a new SemDescriptorPtr. */
  function WaitOn(t: Table, d: Slot): Outcome {
    var r := t.desc[d].sem;
    var s := t.sem[r].(count := t.sem[r].count - 1, waits := t.sem[r].waits + 1);
    if s.count >= 0 then Done(t.(sem := t.sem[r := s]), 0)
    else if t.ptrFree == [] then Crash
    else
      var q := t.ptrFree[0];
      Done(t.(ptr := t.ptr[q := d],
              ptrFree := t.ptrFree[1..],
              sem := t.sem[r := s.(waiting := s.waiting + [q], queued := s.queued + [d])],
              blocked := t.blocked + 1), 0)
  }

  function WaitStep(t: Table, me: Slot, fd: int): Outcome {
    var found := ByFd(t.desc, t.fds[me], fd);
    if found.None? then Done(t, DSOS_ESEMAPHOREWAIT) else WaitOn(t, found.value)
  }

  /** A post increments; at or below zero the first queued descriptor's process becomes ready. */
  function PostOn(t: Table, d: Slot): Outcome {
    var r := t.desc[d].sem;
    var s := t.sem[r].(count := t.sem[r].count + 1, posts := t.sem[r].posts + 1);
    if s.count > 0 then Done(t.(sem := t.sem[r := s]), 0)
    else if s.waiting == [] then Crash
    else
      var e := t.ptr[s.waiting[0]];
      Done(t.(sem := t.sem[r := s.(waiting := s.waiting[1..], handed := s.handed + [e])],
              readied := t.readied + [t.desc[e].pcb]), 0)
  }

  function PostStep(t: Table, me: Slot, fd: int): Outcome {
    var found := ByFd(t.desc, t.fds[me], fd);
    if found.None? then Crash else PostOn(t, found.value)
  }

  /** `PCB_alloc` on block `p`: the counter starts at 0 again, the descriptor list stays what the block held. */
  function Recycle(t: Table, p: Slot): Table {
    t.(lastFd := t.lastFd[p := 0])
  }

  // ----- the descriptor tables -----

  ghost predicate Live(t: Table, d: Slot) {
    d !in t.descFree
  }

  ghost predicate InFds(t: Table, p: Slot, d: Slot) {
    d in t.fds[p]
  }

  ghost predicate InSem(t: Table, r: Slot, q: Slot) {
    q in t.sem[r].descriptors
  }

  ghost predicate InQueue(t: Table, r: Slot, q: Slot) {
    q in t.sem[r].waiting
  }

  /** A live descriptor and its cell name each other, and each is in the list of its side. */
  ghost predicate DescFits(t: Table, d: Slot) {
    Live(t, d) ==>
      && t.desc[d].ptr !in t.ptrFree && t.ptr[t.desc[d].ptr] == d
      && InSem(t, t.desc[d].sem, t.desc[d].ptr) && InFds(t, t.desc[d].pcb, d)
      && t.desc[d].sem !in t.semFree
      && 0 <= t.desc[d].fd < t.lastFd[t.desc[d].pcb]
  }

  /** A cell in a semaphore's descriptor list belongs to a live descriptor on that semaphore. */
  ghost predicate CellFits(t: Table, r: Slot, q: Slot) {
    q !in t.ptrFree && Live(t, t.ptr[q]) && t.desc[t.ptr[q]].ptr == q && t.desc[t.ptr[q]].sem == r
  }

  ghost predicate Tables(t: Table) {
    && Distinct(t.descFree) && Distinct(t.ptrFree)
    && (forall d: Slot :: DescFits(t, d))
    && (forall p: Slot, d: Slot | InFds(t, p, d) :: Live(t, d) && t.desc[d].pcb == p)
    && (forall r: Slot, q: Slot | InSem(t, r, q) :: CellFits(t, r, q))
    && (forall p: Slot :: Distinct(t.fds[p]) && t.lastFd[p] >= 0)
    && (forall r: Slot :: Distinct(t.sem[r].descriptors))
    && (forall d: Slot, e: Slot ::
          Live(t, d) && Live(t, e) && t.desc[d].pcb == t.desc[e].pcb && t.desc[d].fd == t.desc[e].fd ==> d == e)
  }

  // ----- the ledger and the queue -----

  function Max0(x: int): int {
    if x > 0 then x else 0
  }

  ghost function QueuedDescriptors(t: Table, r: Slot): seq<Slot> {
    var w := t.sem[r].waiting;
    seq(|w|, i requires 0 <= i < |w| => t.ptr[w[i]])
  }

  /** count = initial + posts - waits; the queue is as long as the debt that the waits made;
      what was handed over followed by what is queued is what was ever queued. */
  ghost predicate Accounts(t: Table, r: Slot) {
    && t.sem[r].count == t.sem[r].initial + t.sem[r].posts - t.sem[r].waits
    && |t.sem[r].waiting| == Max0(-t.sem[r].count) - Max0(-t.sem[r].initial)
    && t.sem[r].queued == t.sem[r].handed + QueuedDescriptors(t, r)
  }

  ghost predicate Queues(t: Table) {
    && (forall r: Slot :: Accounts(t, r))
    && (forall r: Slot, q: Slot | InQueue(t, r, q) :: q !in t.ptrFree)
    && (forall r: Slot, q: Slot, d: Slot | InQueue(t, r, q) && Live(t, d) :: t.desc[d].ptr != q)
    && |t.ptrFree| + t.blocked == |t.descFree|
  }

  /** The global list holds allocated semaphores with unique ids. */
  ghost predicate Listed(t: Table) {
    && Distinct(t.list) && Distinct(t.semFree)
    && (forall r: Slot :: r in t.list ==> r !in t.semFree)
    && (forall r: Slot :: r in t.semFree ==> t.sem[r].descriptors == [] && t.sem[r].waiting == [])
    && (forall r: Slot, s: Slot :: r in t.list && s in t.list && t.sem[r].id == t.sem[s].id ==> r == s)
  }

  ghost predicate Inv(t: Table) {
    Tables(t) && Queues(t) && Listed(t)
  }

  // ----- every call keeps it -----

  /** The queue of `r` reads the same when no cell in it was rewritten. */
  lemma {:induction false} SameAccounts(t: Table, u: Table, r: Slot)
    requires Accounts(t, r)
    requires u.sem[r] == t.sem[r].(descriptors := u.sem[r].descriptors)
    requires forall q: Slot :: InQueue(t, r, q) ==> u.ptr[q] == t.ptr[q]
    ensures Accounts(u, r)
  {
    forall i | 0 <= i < |t.sem[r].waiting| ensures u.ptr[t.sem[r].waiting[i]] == t.ptr[t.sem[r].waiting[i]] {
      assert InQueue(t, r, t.sem[r].waiting[i]);
    }
    assert QueuedDescriptors(u, r) == QueuedDescriptors(t, r);
  }

  lemma {:induction false} AddSemaphoreKeeps(t: Table, id: int, count: int)
    requires Inv(t) && t.semFree != [] && ById(t.sem, t.list, id).None?
    ensures Inv(AddSemaphore(t, id, count)) && t.semFree[0] in AddSemaphore(t, id, count).list
  {
    var u := AddSemaphore(t, id, count);
    var n := t.semFree[0];
    HeadOfDistinct<Slot>(t.semFree, n);
    assert n in t.semFree && n !in t.list;
    forall d: Slot ensures DescFits(u, d) {
      assert DescFits(t, d);
      HeadOfDistinct<Slot>(t.semFree, u.desc[d].sem);
    }
    forall p: Slot, d: Slot | InFds(u, p, d) ensures Live(u, d) && u.desc[d].pcb == p {
      assert InFds(t, p, d);
    }
    forall r: Slot, q: Slot | InSem(u, r, q) ensures CellFits(u, r, q) {
      assert InSem(t, r, q);
    }
    forall r: Slot ensures Accounts(u, r) {
      assert Accounts(t, r);
      if r != n {
        SameAccounts(t, u, r);
      }
    }
    forall r: Slot, q: Slot | InQueue(u, r, q) ensures q !in u.ptrFree {
      assert InQueue(t, r, q);
    }
    forall r: Slot, q: Slot, d: Slot | InQueue(u, r, q) && Live(u, d) ensures u.desc[d].ptr != q {
      assert InQueue(t, r, q) && Live(t, d);
    }
    forall r: Slot ensures (r in u.list ==> r !in u.semFree) && (r in u.semFree ==> u.sem[r].descriptors == [] && u.sem[r].waiting == []) {
      HeadOfDistinct<Slot>(t.semFree, r);
    }
  }

  // ----- open: a new descriptor with its cell -----

  lemma {:induction false} AddDesc(t: Table, me: Slot, r: Slot, x: Slot)
    requires Inv(t) && t.descFree != [] && t.ptrFree != [] && r in t.list
    ensures DescFits(AddDescriptor(t, me, r), x)
    ensures Live(AddDescriptor(t, me, r), x) <==> Live(t, x) || x == t.descFree[0]
    ensures x !in AddDescriptor(t, me, r).ptrFree <==> x !in t.ptrFree || x == t.ptrFree[0]
  {
    HeadOfDistinct<Slot>(t.descFree, x);
    HeadOfDistinct<Slot>(t.ptrFree, x);
    HeadOfDistinct<Slot>(t.ptrFree, AddDescriptor(t, me, r).desc[x].ptr);
    assert DescFits(t, x);
    assert InFds(t, t.desc[x].pcb, x) ==> InFds(AddDescriptor(t, me, r), t.desc[x].pcb, x);
    assert InSem(t, t.desc[x].sem, t.desc[x].ptr) ==> InSem(AddDescriptor(t, me, r), t.desc[x].sem, t.desc[x].ptr);
  }

  lemma {:induction false} AddCell(t: Table, me: Slot, r: Slot, s: Slot, q: Slot)
    requires Inv(t) && t.descFree != [] && t.ptrFree != [] && r in t.list
    requires InSem(AddDescriptor(t, me, r), s, q)
    ensures CellFits(AddDescriptor(t, me, r), s, q)
    ensures InSem(t, s, q) || (s == r && q == t.ptrFree[0])
  {
    assert InSem(t, s, q) || (s == r && q == t.ptrFree[0]);
    AddDesc(t, me, r, q);
    AddDesc(t, me, r, t.ptr[q]);
    AddDesc(t, me, r, t.descFree[0]);
  }

  lemma {:induction false} AddDescriptorTables(t: Table, me: Slot, r: Slot)
    requires Inv(t) && t.descFree != [] && t.ptrFree != [] && r in t.list
    ensures Tables(AddDescriptor(t, me, r))
  {
    var u := AddDescriptor(t, me, r);
    var d, q := t.descFree[0], t.ptrFree[0];
    HeadOfDistinct<Slot>(t.descFree, d);
    HeadOfDistinct<Slot>(t.ptrFree, q);
    forall x: Slot ensures DescFits(u, x) && (Live(u, x) <==> Live(t, x) || x == d) {
      AddDesc(t, me, r, x);
    }
    forall p: Slot, x: Slot | InFds(u, p, x) ensures Live(u, x) && u.desc[x].pcb == p {
      assert InFds(t, p, x) || (p == me && x == d);
    }
    forall s: Slot, x: Slot | InSem(u, s, x) ensures CellFits(u, s, x) {
      AddCell(t, me, r, s, x);
    }
    assert !InFds(t, me, d) && !InSem(t, r, q);
    forall x: Slot, y: Slot |
      Live(u, x) && Live(u, y) && u.desc[x].pcb == u.desc[y].pcb && u.desc[x].fd == u.desc[y].fd
      ensures x == y
    {
      assert DescFits(t, x) && DescFits(t, y);
    }
  }

  lemma {:induction false} AddDescriptorKeeps(t: Table, me: Slot, r: Slot)
    requires Inv(t) && t.descFree != [] && t.ptrFree != [] && r in t.list
    ensures Inv(AddDescriptor(t, me, r))
  {
    var u := AddDescriptor(t, me, r);
    AddDescriptorTables(t, me, r);
    forall s: Slot ensures Accounts(u, s) {
      assert Accounts(t, s);
      SameAccounts(t, u, s);
    }
    forall s: Slot, q: Slot | InQueue(u, s, q) ensures q !in u.ptrFree {
      assert InQueue(t, s, q);
      AddDesc(t, me, r, q);
    }
    forall s: Slot, q: Slot, d: Slot | InQueue(u, s, q) && Live(u, d) ensures u.desc[d].ptr != q {
      assert InQueue(t, s, q);
      AddDesc(t, me, r, d);
    }
  }

  // ----- close -----

  lemma {:induction false} DropDesc(t: Table, me: Slot, d: Slot, x: Slot)
    requires Inv(t) && InFds(t, me, d)
    ensures DescFits(DropDescriptor(t, me, d), x)
    ensures Live(DropDescriptor(t, me, d), x) <==> Live(t, x) && x != d
    ensures forall p: Slot :: InFds(DropDescriptor(t, me, d), p, x) <==> InFds(t, p, x) && x != d
    ensures forall r: Slot :: InSem(DropDescriptor(t, me, d), r, x) <==> InSem(t, r, x) && x != t.desc[d].ptr
  {
    assert DescFits(t, d) && DescFits(t, x);
    var q := t.desc[d].ptr;
    var r := t.desc[d].sem;
    DropMembers<Slot>(t.fds[me], d, x);
    DropMembers<Slot>(t.sem[r].descriptors, q, x);
    DropMembers<Slot>(t.sem[r].descriptors, q, t.desc[x].ptr);
    forall p: Slot ensures InFds(DropDescriptor(t, me, d), p, x) <==> InFds(t, p, x) && x != d {
      assert InFds(t, p, d) ==> p == me;
    }
    forall s: Slot ensures InSem(DropDescriptor(t, me, d), s, x) <==> InSem(t, s, x) && x != q {
      assert InSem(t, s, q) ==> CellFits(t, s, q);
    }
  }

  lemma {:induction false} DropTables(t: Table, me: Slot, d: Slot)
    requires Inv(t) && InFds(t, me, d)
    ensures Tables(DropDescriptor(t, me, d))
  {
    var u := DropDescriptor(t, me, d);
    assert DescFits(t, d);
    forall x: Slot ensures DescFits(u, x) {
      DropDesc(t, me, d, x);
    }
    forall p: Slot, x: Slot | InFds(u, p, x) ensures Live(u, x) && u.desc[x].pcb == p {
      DropDesc(t, me, d, x);
      assert InFds(t, p, x);
    }
    forall r: Slot, q: Slot | InSem(u, r, q) ensures CellFits(u, r, q) {
      DropDesc(t, me, d, q);
      assert InSem(t, r, q) && CellFits(t, r, q);
      DropDesc(t, me, d, t.ptr[q]);
    }
    DropMembers<Slot>(t.fds[me], d, d);
    DropMembers<Slot>(t.sem[t.desc[d].sem].descriptors, t.desc[d].ptr, d);
  }

  lemma {:induction false} DropKeeps(t: Table, me: Slot, d: Slot)
    requires Inv(t) && InFds(t, me, d)
    ensures Inv(DropDescriptor(t, me, d))
  {
    var u := DropDescriptor(t, me, d);
    var gone := t.desc[d].sem;
    assert DescFits(t, d);
    DropTables(t, me, d);
    forall r: Slot ensures Accounts(u, r) {
      assert Accounts(t, r);
      SameAccounts(t, u, r);
    }
    forall r: Slot, q: Slot | InQueue(u, r, q) ensures q !in u.ptrFree {
      assert InQueue(t, r, q) && Live(t, d);
    }
    forall r: Slot, q: Slot, x: Slot | InQueue(u, r, q) && Live(u, x) ensures u.desc[x].ptr != q {
      DropDesc(t, me, d, x);
      assert InQueue(t, r, q) && Live(t, x);
    }
    DropListed(t, me, d);
  }

  lemma {:induction false} DropListed(t: Table, me: Slot, d: Slot)
    requires Inv(t) && InFds(t, me, d)
    ensures Listed(DropDescriptor(t, me, d))
    ensures forall r: Slot :: r in DropDescriptor(t, me, d).list <==>
              r in t.list && (r == t.desc[d].sem ==> DropDescriptor(t, me, d).sem[r].descriptors != [])
  {
    var u := DropDescriptor(t, me, d);
    var gone := t.desc[d].sem;
    assert DescFits(t, d);
    forall r: Slot ensures r in u.list <==> r in t.list && (r == gone ==> u.sem[r].descriptors != []) {
      if gone in t.list {
        DropMembers<Slot>(t.list, gone, r);
      } else {
        WithoutAbsent<Slot>(t.list, gone);
      }
    }
    if gone in t.list {
      DropMembers<Slot>(t.list, gone, gone);
    } else {
      WithoutAbsent<Slot>(t.list, gone);
    }
  }

  // ----- wait and post -----

  /** A wait or post touches one semaphore's counters and queue, and at most takes the first free cell. */
  ghost predicate QueueStep(t: Table, u: Table, r: Slot) {
    && u == t.(sem := t.sem[r := u.sem[r]], ptr := u.ptr, ptrFree := u.ptrFree, readied := u.readied, blocked := u.blocked)
    && u.sem[r].id == t.sem[r].id && u.sem[r].descriptors == t.sem[r].descriptors && u.sem[r].initial == t.sem[r].initial
    && r !in t.semFree
    && ((u.ptrFree == t.ptrFree && u.ptr == t.ptr)
        || (t.ptrFree != [] && u.ptrFree == t.ptrFree[1..] && u.ptr == t.ptr[t.ptrFree[0] := u.ptr[t.ptrFree[0]]]))
  }

  lemma {:induction false} QueueStepTables(t: Table, u: Table, r: Slot)
    requires Inv(t) && QueueStep(t, u, r)
    ensures Tables(u) && Listed(u)
  {
    if t.ptrFree != [] {
      HeadOfDistinct<Slot>(t.ptrFree, t.ptrFree[0]);
    }
    forall d: Slot ensures DescFits(u, d) {
      assert DescFits(t, d);
      if t.ptrFree != [] {
        HeadOfDistinct<Slot>(t.ptrFree, t.desc[d].ptr);
      }
      assert InSem(t, t.desc[d].sem, t.desc[d].ptr) <==> InSem(u, t.desc[d].sem, t.desc[d].ptr);
      assert InFds(t, t.desc[d].pcb, d) <==> InFds(u, t.desc[d].pcb, d);
    }
    forall p: Slot, d: Slot | InFds(u, p, d) ensures Live(u, d) && u.desc[d].pcb == p {
      assert InFds(t, p, d);
    }
    forall s: Slot, q: Slot | InSem(u, s, q) ensures CellFits(u, s, q) {
      assert InSem(t, s, q) && CellFits(t, s, q);
      if t.ptrFree != [] {
        HeadOfDistinct<Slot>(t.ptrFree, q);
      }
    }
  }

  lemma {:induction false} WaitKeeps(t: Table, d: Slot)
    requires Inv(t) && Live(t, d) && WaitOn(t, d).Done?
    ensures Inv(WaitOn(t, d).table)
  {
    var u := WaitOn(t, d).table;
    var r := t.desc[d].sem;
    assert DescFits(t, d);
    QueueStepTables(t, u, r);
    forall s: Slot, q: Slot | InQueue(u, s, q) ensures q !in u.ptrFree {
      WaitQueue(t, d, s, q);
    }
    forall s: Slot, q: Slot, x: Slot | InQueue(u, s, q) && Live(u, x) ensures u.desc[x].ptr != q {
      WaitQueue(t, d, s, q);
      assert DescFits(t, x) && Live(t, x);
    }
    forall s: Slot ensures Accounts(u, s) {
      WaitAccounts(t, d, s);
    }
  }

  lemma {:induction false} WaitQueue(t: Table, d: Slot, s: Slot, q: Slot)
    requires Inv(t) && WaitOn(t, d).Done? && InQueue(WaitOn(t, d).table, s, q)
    ensures InQueue(t, s, q) || (t.ptrFree != [] && q == t.ptrFree[0])
    ensures q !in WaitOn(t, d).table.ptrFree
  {
    assert InQueue(t, s, q) || (t.ptrFree != [] && q == t.ptrFree[0]);
    if t.ptrFree != [] {
      HeadOfDistinct<Slot>(t.ptrFree, q);
    }
  }

  lemma {:induction false} WaitAccounts(t: Table, d: Slot, s: Slot)
    requires Inv(t) && WaitOn(t, d).Done?
    ensures Accounts(WaitOn(t, d).table, s)
  {
    var u := WaitOn(t, d).table;
    var w := t.sem[s].waiting;
    assert Accounts(t, s);
    forall i | 0 <= i < |w| ensures u.ptr[w[i]] == t.ptr[w[i]] {
      assert InQueue(t, s, w[i]);
    }
    if s != t.desc[d].sem || t.sem[s].count - 1 >= 0 {
      assert QueuedDescriptors(u, s) == QueuedDescriptors(t, s);
    } else {
      assert QueuedDescriptors(u, s) == QueuedDescriptors(t, s) + [d];
    }
  }

  lemma {:induction false} PostKeeps(t: Table, d: Slot)
    requires Inv(t) && Live(t, d) && PostOn(t, d).Done?
    ensures Inv(PostOn(t, d).table)
  {
    var u := PostOn(t, d).table;
    var r := t.desc[d].sem;
    assert DescFits(t, d);
    QueueStepTables(t, u, r);
    forall s: Slot, q: Slot | InQueue(u, s, q) ensures q !in u.ptrFree {
      assert InQueue(t, s, q);
    }
    forall s: Slot, q: Slot, x: Slot | InQueue(u, s, q) && Live(u, x) ensures u.desc[x].ptr != q {
      assert InQueue(t, s, q) && Live(t, x);
    }
    forall s: Slot ensures Accounts(u, s) {
      assert Accounts(t, s);
      if s != r || t.sem[s].count + 1 > 0 {
        assert QueuedDescriptors(u, s) == QueuedDescriptors(t, s);
      } else {
        assert QueuedDescriptors(t, s) == [t.ptr[t.sem[s].waiting[0]]] + QueuedDescriptors(u, s);
      }
    }
  }

  // ----- calls and runs -----

  datatype Call =
    | Open(me: Slot, id: int, oflag: int, count: int)
    | Close(me: Slot, fd: int)
    | Wait(me: Slot, fd: int)
    | Post(me: Slot, fd: int)

  function Step(t: Table, c: Call): Outcome {
    match c
    case Open(me, id, oflag, count) => OpenStep(t, me, id, oflag, count)
    case Close(me, fd) => CloseStep(t, me, fd)
    case Wait(me, fd) => WaitStep(t, me, fd)
    case Post(me, fd) => PostStep(t, me, fd)
  }

  function Run(t: Table, cs: seq<Call>): Outcome
    decreases |cs|
  {
    if cs == [] then Done(t, 0)
    else
      var o := Step(t, cs[0]);
      if o.Crash? then Crash else Run(o.table, cs[1..])
  }

  function Start(): Table {
    var chain := seq(POOL_SIZE, i requires 0 <= i < POOL_SIZE => i);
    Table(seq(POOL_SIZE, _ => BLANK), chain, [],
          seq(POOL_SIZE, _ => Descriptor(0, 0, 0, 0)), chain,
          seq(POOL_SIZE, _ => 0), chain,
          seq(POOL_SIZE, _ => []), seq(POOL_SIZE, _ => 0), [], 0)
  }

  lemma {:induction false} StartInv()
    ensures Inv(Start())
  {
    var t := Start();
    forall x: Slot ensures x in t.descFree && x in t.semFree {
      assert t.descFree[x] == x;
    }
    forall d: Slot ensures DescFits(t, d) {
    }
    forall r: Slot ensures Accounts(t, r) {
      assert QueuedDescriptors(t, r) == [];
    }
  }

  lemma {:induction false} OpenFoundKeeps(t: Table, me: Slot, found: Option<Slot>, oflag: int)
    requires Inv(t) && (found.Some? ==> found.value in t.list) && OpenFound(t, me, found, oflag).Done?
    ensures Inv(OpenFound(t, me, found, oflag).table)
  {
    if found.Some? && t.descFree != [] && t.ptrFree != [] {
      AddDescriptorKeeps(t, me, found.value);
    }
  }

  lemma {:induction false} OpenKeeps(t: Table, me: Slot, id: int, oflag: int, count: int)
    requires Inv(t) && OpenStep(t, me, id, oflag, count).Done?
    ensures Inv(OpenStep(t, me, id, oflag, count).table)
  {
    var found := ById(t.sem, t.list, id);
    if !Creates(oflag) {
      OpenFoundKeeps(t, me, found, oflag);
    } else if found.None? {
      AddSemaphoreKeeps(t, id, count);
      OpenFoundKeeps(AddSemaphore(t, id, count), me, Some(t.semFree[0]), oflag);
    }
  }

  lemma {:induction false} StepKeeps(t: Table, c: Call)
    requires Inv(t) && Step(t, c).Done?
    ensures Inv(Step(t, c).table)
  {
    if c.Open? {
      OpenKeeps(t, c.me, c.id, c.oflag, c.count);
    } else {
      var found := ByFd(t.desc, t.fds[c.me], c.fd);
      if found.Some? {
        assert InFds(t, c.me, found.value);
        match c
        case Close(_, _) => DropKeeps(t, c.me, found.value);
        case Wait(_, _) => WaitKeeps(t, found.value);
        case Post(_, _) => PostKeeps(t, found.value);
      }
    }
  }

  lemma {:induction false} RunKeeps(t: Table, cs: seq<Call>)
    requires Inv(t) && Run(t, cs).Done?
    ensures Inv(Run(t, cs).table)
    decreases |cs|
  {
    if cs != [] {
      StepKeeps(t, cs[0]);
      RunKeeps(Step(t, cs[0]).table, cs[1..]);
    }
  }

  // ----- what wait and post do to processes -----

  /** The wait finds the count used up. */
  predicate MustQueue(t: Table, me: Slot, fd: int) {
    var found := ByFd(t.desc, t.fds[me], fd);
    found.Some? && t.sem[t.desc[found.value].sem].count <= 0
  }

  /** Whom the post takes out of the queue. */
  function Woken(t: Table, me: Slot, fd: int): Option<Slot> {
    var found := ByFd(t.desc, t.fds[me], fd);
    if found.None? then None
    else
      var s := t.sem[t.desc[found.value].sem];
      if s.count >= 0 || s.waiting == [] then None else Some(t.desc[t.ptr[s.waiting[0]]].pcb)
  }

  /** The counters of blocked and readied processes count just these. */
  lemma {:induction false} WaitPostHistory(t: Table, me: Slot, fd: int)
    ensures WaitStep(t, me, fd).Done? ==>
              WaitStep(t, me, fd).table.blocked == t.blocked + if MustQueue(t, me, fd) then 1 else 0
    ensures PostStep(t, me, fd).Done? ==>
              PostStep(t, me, fd).table.readied == t.readied + if Woken(t, me, fd).Some? then [Woken(t, me, fd).value] else []
  {
  }

  // ----- reuse of a PCB block -----

  /** Giving a process block to a new process keeps the tables exactly when the block has no open descriptor. */
  lemma {:induction false} RecycleIff(t: Table, p: Slot)
    requires Inv(t)
    ensures Inv(Recycle(t, p)) <==> t.fds[p] == []
  {
    var u := Recycle(t, p);
    if t.fds[p] == [] {
      RecycleKeeps(t, p);
    } else {
      var d := t.fds[p][0];
      assert InFds(t, p, d) && DescFits(t, d);
      assert !DescFits(u, d);
    }
  }

  lemma {:induction false} RecycleKeeps(t: Table, p: Slot)
    requires Inv(t) && t.fds[p] == []
    ensures Inv(Recycle(t, p))
  {
    var u := Recycle(t, p);
    forall d: Slot ensures DescFits(u, d) {
      assert DescFits(t, d);
    }
    forall s: Slot, d: Slot | InFds(u, s, d) ensures Live(u, d) && u.desc[d].pcb == s {
      assert InFds(t, s, d);
    }
    forall r: Slot, q: Slot | InSem(u, r, q) ensures CellFits(u, r, q) {
      assert InSem(t, r, q) && CellFits(t, r, q);
    }
    forall r: Slot ensures Accounts(u, r) {
      assert Accounts(t, r);
      SameAccounts(t, u, r);
    }
    forall r: Slot, q: Slot | InQueue(u, r, q) ensures q !in u.ptrFree {
      assert InQueue(t, r, q);
    }
    forall r: Slot, q: Slot, d: Slot | InQueue(u, r, q) && Live(u, d) ensures u.desc[d].ptr != q {
      assert InQueue(t, r, q) && Live(t, d);
    }
  }

  // ----- lookups -----

  /** The scan by fd finds the one descriptor with that fd. */
  lemma {:induction false} ByFdExact(t: Table, p: Slot, d: Slot)
    requires Inv(t) && d in t.fds[p]
    ensures ByFd(t.desc, t.fds[p], t.desc[d].fd) == Some(d)
  {
    var found := ByFd(t.desc, t.fds[p], t.desc[d].fd);
    assert InFds(t, p, d) && InFds(t, p, found.value);
  }

  /** The scan by id finds the one semaphore with that id. */
  lemma {:induction false} ByIdExact(t: Table, r: Slot)
    requires Inv(t) && r in t.list
    ensures ById(t.sem, t.list, t.sem[r].id) == Some(r)
  {
  }

  // ----- the ledger -----

  /** Waits that went through: those that are not in the queue any more. */
  function Completed(s: Semaphore): int {
    s.waits - |s.waiting|
  }

  /** In every state of every run: at most initial + posts waits went through, and exactly that many once one is
      queued; the queue is empty exactly when the count is not negative. A semaphore created below zero
      behaves like one created at zero whose count is shifted. */
  lemma {:induction false} CompletedWaits(cs: seq<Call>, r: Slot)
    requires Run(Start(), cs).Done?
    ensures var s := Run(Start(), cs).table.sem[r];
      && Completed(s) <= Max0(s.initial) + s.posts
      && (s.waiting != [] ==> Completed(s) == Max0(s.initial) + s.posts)
      && (s.waiting == [] <==> s.count >= -Max0(-s.initial))
  {
    StartInv();
    RunKeeps(Start(), cs);
    assert Accounts(Run(Start(), cs).table, r);
  }

  /** A post crashes exactly when the fd is unknown, or the semaphore was created below zero and its queue is empty. */
  lemma {:induction false} PostExact(t: Table, me: Slot, fd: int)
    requires Inv(t)
    ensures var found := ByFd(t.desc, t.fds[me], fd);
      PostStep(t, me, fd).Crash? <==>
        found.None? || (var s := t.sem[t.desc[found.value].sem]; s.initial < 0 && s.waiting == [])
  {
    var found := ByFd(t.desc, t.fds[me], fd);
    if found.Some? {
      assert Accounts(t, t.desc[found.value].sem);
    }
  }

  /** The cell of a wait that blocked is never freed: the cell pool is short of the descriptor pool by their number. */
  lemma {:induction false} CellLeak(cs: seq<Call>)
    requires Run(Start(), cs).Done?
    ensures var t := Run(Start(), cs).table; |t.ptrFree| + t.blocked == |t.descFree|
  {
    StartInv();
    RunKeeps(Start(), cs);
  }

  /** So an open can crash on the unchecked second allocation, but only after waits have blocked. */
  lemma {:induction false} OpenExact(t: Table, me: Slot, id: int, oflag: int, count: int)
    requires Inv(t)
    ensures var found := ById(t.sem, t.list, id);
      OpenStep(t, me, id, oflag, count).Crash? <==>
        if Creates(oflag)
        then found.None? && (t.semFree == [] || (t.descFree != [] && t.blocked == |t.descFree|))
        else found.Some? && !(Exclusive(oflag) && t.sem[found.value].descriptors != [])
             && t.descFree != [] && t.blocked == |t.descFree|
  {
  }

  // ----- first in, first out -----

  /** The queue and the hand-overs of a semaphore only grow, at their tails, as long as its block is not allocated anew. */
  ghost predicate Extends(t: Table, u: Table, r: Slot) {
    r !in t.semFree ==>
      r !in u.semFree && t.sem[r].queued <= u.sem[r].queued && t.sem[r].handed <= u.sem[r].handed
      && u.sem[r].initial == t.sem[r].initial && t.sem[r].waits <= u.sem[r].waits && t.sem[r].posts <= u.sem[r].posts
  }

  lemma {:induction false} StepExtends(t: Table, c: Call, r: Slot)
    requires Inv(t) && Step(t, c).Done?
    ensures Extends(t, Step(t, c).table, r)
  {
    if t.semFree != [] {
      HeadOfDistinct<Slot>(t.semFree, r);
    }
  }

  lemma {:induction false} RunExtends(t: Table, cs: seq<Call>, r: Slot)
    requires Inv(t) && Run(t, cs).Done?
    ensures Extends(t, Run(t, cs).table, r)
    decreases |cs|
  {
    if cs != [] {
      var u := Step(t, cs[0]).table;
      StepKeeps(t, cs[0]);
      StepExtends(t, cs[0], r);
      RunExtends(u, cs[1..], r);
    }
  }

  /** FIFO: the descriptors handed over are a prefix of those queued, the rest is the current queue in order,
      and later states only add to both. */
  lemma {:induction false} Fifo(cs: seq<Call>, ds: seq<Call>, r: Slot)
    requires Run(Start(), cs).Done? && Run(Run(Start(), cs).table, ds).Done?
    ensures var t := Run(Start(), cs).table;
      && t.sem[r].handed <= t.sem[r].queued
      && t.sem[r].queued[|t.sem[r].handed|..] == QueuedDescriptors(t, r)
      && Extends(t, Run(t, ds).table, r)
  {
    StartInv();
    RunKeeps(Start(), cs);
    var t := Run(Start(), cs).table;
    assert Accounts(t, r);
    RunExtends(t, ds, r);
  }

  // ----- the life of a semaphore -----

  /** A semaphore is in the global list exactly when a descriptor on it is open. */
  ghost predicate Lifetime(t: Table) {
    forall r: Slot :: r in t.list <==> t.sem[r].descriptors != []
  }

  /** A creation that leaves a semaphore without descriptor: the descriptor pool is empty. */
  predicate CreatesOrphan(t: Table, c: Call) {
    c.Open? && Creates(c.oflag) && ById(t.sem, t.list, c.id).None? && t.descFree == []
  }

  lemma {:induction false} LifetimeKeptIff(t: Table, c: Call)
    requires Inv(t) && Lifetime(t) && Step(t, c).Done?
    ensures Lifetime(Step(t, c).table) <==> !CreatesOrphan(t, c)
  {
    var u := Step(t, c).table;
    if c.Open? {
      if Creates(c.oflag) && ById(t.sem, t.list, c.id).None? {
        var n := t.semFree[0];
        assert n in t.semFree && n !in t.list;
        assert n in u.list;
        forall r: Slot | r != n ensures r in u.list <==> u.sem[r].descriptors != [] {
          assert r in t.list <==> t.sem[r].descriptors != [];
        }
      }
    } else if c.Close? {
      var found := ByFd(t.desc, t.fds[c.me], c.fd);
      if found.Some? {
        assert InFds(t, c.me, found.value);
        assert DescFits(t, found.value);
        DropListed(t, c.me, found.value);
      }
    }
  }

  /** Every queue entry names an open descriptor on its semaphore. */
  ghost predicate QueueOpen(t: Table) {
    forall r: Slot, q: Slot | InQueue(t, r, q) :: EntryOpen(t, r, q)
  }

  ghost predicate EntryOpen(t: Table, r: Slot, q: Slot) {
    Live(t, t.ptr[q]) && t.desc[t.ptr[q]].sem == r
  }

  /** The descriptor that the call closes is queued somewhere. */
  ghost predicate ClosesQueued(t: Table, c: Call) {
    c.Close? && var found := ByFd(t.desc, t.fds[c.me], c.fd);
    found.Some? && exists r: Slot, q: Slot :: InQueue(t, r, q) && t.ptr[q] == found.value
  }

  lemma {:induction false} QueueOpenKeptIff(t: Table, c: Call)
    requires Inv(t) && QueueOpen(t) && Step(t, c).Done?
    ensures QueueOpen(Step(t, c).table) <==> !ClosesQueued(t, c)
  {
    var u := Step(t, c).table;
    if c.Open? {
      OpenQueue(t, c);
    } else {
      var found := ByFd(t.desc, t.fds[c.me], c.fd);
      if found.Some? {
        var d := found.value;
        assert InFds(t, c.me, d);
        match c
        case Close(_, _) => CloseQueue(t, c.me, d);
          assert QueueOpen(u) <==> !ClosesQueued(t, c);
        case Wait(_, _) => WaitQueueOpen(t, d);
        case Post(_, _) =>
          forall r: Slot, q: Slot | InQueue(u, r, q) ensures EntryOpen(u, r, q) {
            assert InQueue(t, r, q);
          }
      }
    }
  }

  lemma {:induction false} OpenQueue(t: Table, c: Call)
    requires Inv(t) && QueueOpen(t) && c.Open? && Step(t, c).Done?
    ensures QueueOpen(Step(t, c).table)
  {
    var u := Step(t, c).table;
    forall r: Slot, q: Slot | InQueue(u, r, q) ensures EntryOpen(u, r, q) {
      assert InQueue(t, r, q) && EntryOpen(t, r, q);
      if t.descFree != [] {
        HeadOfDistinct<Slot>(t.descFree, t.ptr[q]);
      }
    }
  }

  lemma {:induction false} CloseQueue(t: Table, me: Slot, d: Slot)
    requires Inv(t) && QueueOpen(t) && InFds(t, me, d)
    ensures QueueOpen(DropDescriptor(t, me, d)) <==> !(exists r: Slot, q: Slot :: InQueue(t, r, q) && t.ptr[q] == d)
  {
    var u := DropDescriptor(t, me, d);
    forall r: Slot, q: Slot ensures InQueue(u, r, q) <==> InQueue(t, r, q) {
    }
    forall r: Slot, q: Slot | InQueue(t, r, q) ensures EntryOpen(u, r, q) <==> t.ptr[q] != d {
      assert EntryOpen(t, r, q);
    }
    if r: Slot, q: Slot :| InQueue(t, r, q) && t.ptr[q] == d {
      assert InQueue(u, r, q) && !EntryOpen(u, r, q);
    }
  }

  lemma {:induction false} WaitQueueOpen(t: Table, d: Slot)
    requires Inv(t) && QueueOpen(t) && Live(t, d) && WaitOn(t, d).Done?
    ensures QueueOpen(WaitOn(t, d).table)
  {
    var u := WaitOn(t, d).table;
    forall r: Slot, q: Slot | InQueue(u, r, q) ensures EntryOpen(u, r, q) {
      if InQueue(t, r, q) {
        assert EntryOpen(t, r, q) && q !in t.ptrFree;
      }
    }
  }

  /** Runs in which no creation runs out of descriptors and nobody closes a descriptor that is queued. */
  ghost predicate TidyRun(t: Table, cs: seq<Call>)
    decreases |cs|
  {
    cs == [] || (Step(t, cs[0]).Done? && !CreatesOrphan(t, cs[0]) && !ClosesQueued(t, cs[0])
                 && TidyRun(Step(t, cs[0]).table, cs[1..]))
  }

  lemma {:induction false} TidyRunKeeps(t: Table, cs: seq<Call>)
    requires Inv(t) && Lifetime(t) && QueueOpen(t) && TidyRun(t, cs)
    ensures Run(t, cs).Done?
    ensures var u := Run(t, cs).table; Inv(u) && Lifetime(u) && QueueOpen(u)
    decreases |cs|
  {
    if cs != [] {
      StepKeeps(t, cs[0]);
      LifetimeKeptIff(t, cs[0]);
      QueueOpenKeptIff(t, cs[0]);
      TidyRunKeeps(Step(t, cs[0]).table, cs[1..]);
    }
  }

  /** In a tidy run a semaphore with waiters stays in the global list, and its first waiter holds an open descriptor on it. */
  lemma {:induction false} WaitersKeepItAlive(cs: seq<Call>, r: Slot)
    requires TidyRun(Start(), cs)
    requires Run(Start(), cs).Done? && Run(Start(), cs).table.sem[r].waiting != []
    ensures var t := Run(Start(), cs).table; var d := t.ptr[t.sem[r].waiting[0]];
      r in t.list && t.desc[d].sem == r && d in t.fds[t.desc[d].pcb]
  {
    StartInv();
    TidyRunKeeps(Start(), cs);
    var t := Run(Start(), cs).table;
    var q := t.sem[r].waiting[0];
    assert InQueue(t, r, q) && EntryOpen(t, r, q);
    assert DescFits(t, t.ptr[q]);
  }
}
