/** Resources and their descriptor tables: per-process fd lists and per-resource lists that point at each other. */
module Resources {
  import opened Sequences

  const POOL_SIZE: nat := 1024  // MAX_NUM_RESOURCES, and MAX_NUM_PROCESSES for both descriptor pools

  const DSOS_ERESOURCECREATE := -8
  const DSOS_ERESOURCEOPEN := -9
  const DSOS_ERESOURCENOEXCL := -10
  const DSOS_ERESOURCENOFD := -11
  const DSOS_ERESOURCECLOSE := -12
  const DSOS_ERESOURCEINUSE := -13

  /** An address: the index of a block in a static buffer. */
  type Slot = s: int | 0 <= s < POOL_SIZE

  datatype Resource = Resource(id: int, kind: int, descriptors: seq<Slot>)
  datatype Descriptor = Descriptor(pcb: Slot, resource: Slot, fd: int, ptr: Slot)

  type ResourceBuffer = b: seq<Resource> | |b| == POOL_SIZE witness seq(POOL_SIZE, _ => Resource(0, 0, []))
  type DescriptorBuffer = b: seq<Descriptor> | |b| == POOL_SIZE witness seq(POOL_SIZE, _ => Descriptor(0, 0, 0, 0))
  type PtrBuffer = b: seq<Slot> | |b| == POOL_SIZE witness seq(POOL_SIZE, _ => 0)
  type FdTables = b: seq<seq<Slot>> | |b| == POOL_SIZE witness seq(POOL_SIZE, _ => [])
  type FdCounters = b: seq<int> | |b| == POOL_SIZE witness seq(POOL_SIZE, _ => 0)

  /** `list` is `resources_list`; `ptr[q]` is the descriptor that the DescriptorPtr block `q` refers to;
      `fds[p]` and `lastFd[p]` are the `descriptors` list and the `last_fd` counter of the process in block `p`. */
  datatype Table = Table(
    res: ResourceBuffer,
    resFree: seq<Slot>,
    list: seq<Slot>,
    desc: DescriptorBuffer,
    descFree: seq<Slot>,
    ptr: PtrBuffer,
    ptrFree: seq<Slot>,
    fds: FdTables,
    lastFd: FdCounters)

  datatype Outcome = Done(table: Table, ret: int) | Crash

  // ----- lookups -----

  /** `ResourceList_byId` */
  function ById(res: ResourceBuffer, l: seq<Slot>, id: int): (r: Option<Slot>)
    ensures r.Some? ==> r.value in l && res[r.value].id == id
    ensures r.None? ==> forall x: Slot :: x in l ==> res[x].id != id
  {
    if l == [] then None else if res[l[0]].id == id then Some(l[0]) else ById(res, l[1..], id)
  }

  /** `DescriptorList_byFd` */
  function ByFd(desc: DescriptorBuffer, l: seq<Slot>, fd: int): (r: Option<Slot>)
    ensures r.Some? ==> r.value in l && desc[r.value].fd == fd
    ensures r.None? ==> forall x: Slot :: x in l ==> desc[x].fd != fd
  {
    if l == [] then None else if desc[l[0]].fd == fd then Some(l[0]) else ByFd(desc, l[1..], fd)
  }

  // ----- the system calls -----

  /** DSOS_CREATE is bit 0 and DSOS_EXCL bit 2 of the mode. */
  predicate Creates(mode: int) {
    mode % 2 == 1
  }

  predicate Exclusive(mode: int) {
    mode / 4 % 2 == 1
  }

  /** A new resource from the pool, at the tail of the global list. */
  function AddResource(t: Table, id: int, kind: int): Table
    requires t.resFree != []
  {
    var r := t.resFree[0];
    t.(res := t.res[r := Resource(id, kind, [])], resFree := t.resFree[1..], list := t.list + [r])
  }

  /** A descriptor in the tables of process `me` and resource `r`. */
  function AddDescriptor(t: Table, me: Slot, r: Slot): Table
    requires t.descFree != [] && t.ptrFree != []
  {
    var d, q := t.descFree[0], t.ptrFree[0];
    t.(desc := t.desc[d := Descriptor(me, r, t.lastFd[me], q)],
       descFree := t.descFree[1..],
       ptr := t.ptr[q := d],
       ptrFree := t.ptrFree[1..],
       fds := t.fds[me := t.fds[me] + [d]],
       lastFd := t.lastFd[me := t.lastFd[me] + 1],
       res := t.res[r := t.res[r].(descriptors := t.res[r].descriptors + [q])])
  }

  /** The part of open behind the lookup or creation of the resource. */
  function OpenFound(t: Table, me: Slot, found: Option<Slot>, kind: int, mode: int): Outcome {
    if found.None? || t.res[found.value].kind != kind then Done(t, DSOS_ERESOURCEOPEN)
    else if Exclusive(mode) && t.res[found.value].descriptors != [] then Done(t, DSOS_ERESOURCENOEXCL)
    else if t.descFree == [] then Done(t, DSOS_ERESOURCENOFD)
    else if t.ptrFree == [] then Crash
    else Done(AddDescriptor(t, me, found.value), t.lastFd[me])
  }

  function OpenStep(t: Table, me: Slot, id: int, kind: int, mode: int): Outcome {
    var found := ById(t.res, t.list, id);
    if !Creates(mode) then OpenFound(t, me, found, kind, mode)
    else if found.Some? then Done(t, DSOS_ERESOURCECREATE)
    else if t.resFree == [] then Crash
    else OpenFound(AddResource(t, id, kind), me, Some(t.resFree[0]), kind, mode)
  }

  /** Descriptor `d` leaves both tables, and both of its blocks are freed. */
  function DropDescriptor(t: Table, me: Slot, d: Slot): Table {
    var r, q := t.desc[d].resource, t.desc[d].ptr;
    t.(fds := t.fds[me := Without(t.fds[me], d)],
       res := t.res[r := t.res[r].(descriptors := Without(t.res[r].descriptors, q))],
       descFree := [d] + t.descFree,
       ptrFree := [q] + t.ptrFree)
  }

  function CloseStep(t: Table, me: Slot, fd: int): Outcome {
    var found := ByFd(t.desc, t.fds[me], fd);
    if found.None? then Done(t, DSOS_ERESOURCECLOSE) else Done(DropDescriptor(t, me, found.value), 0)
  }

  function DestroyStep(t: Table, id: int): Outcome {
    var found := ById(t.res, t.list, id);
    if found.None? then Done(t, DSOS_ERESOURCECLOSE)
    else if t.res[found.value].descriptors != [] then Done(t, DSOS_ERESOURCEINUSE)
    else Done(t.(list := Without(t.list, found.value), resFree := [found.value] + t.resFree), 0)
  }

  /** The descriptor cleanup loop of exit, in its parent-waiting branch. */
  function Cleanup(t: Table, me: Slot): Table
    decreases |t.fds[me]|
  {
    if t.fds[me] == [] then t
    else
      var d := t.fds[me][0];
      var u := DropDescriptor(t, me, d);
      assert u.fds[me] == t.fds[me][1..];
      Cleanup(u, me)
  }

  /** `PCB_alloc` on block `p`: an empty descriptor list and a counter at 0, whatever the block held. */
  function Recycle(t: Table, p: Slot): Table {
    t.(fds := t.fds[p := []], lastFd := t.lastFd[p := 0])
  }

  // ----- the invariant -----

  ghost predicate Live(t: Table, d: Slot) {
    d !in t.descFree
  }

  /** Both pools hand out the same slot at the same time, so a descriptor and its cell have the same index;
      a live descriptor is in the fd list of its process and its cell in the list of its resource, once each. */
  ghost predicate Paired(t: Table, d: Slot) {
    && (Live(t, d) ==>
        && t.desc[d].ptr == d && t.ptr[d] == d
        && d in t.fds[t.desc[d].pcb]
        && d in t.res[t.desc[d].resource].descriptors
        && t.desc[d].resource in t.list
        && 0 <= t.desc[d].fd < t.lastFd[t.desc[d].pcb])
  }

  ghost predicate InFds(t: Table, p: Slot, d: Slot) {
    d in t.fds[p]
  }

  ghost predicate InRes(t: Table, r: Slot, q: Slot) {
    q in t.res[r].descriptors
  }

  ghost predicate Tables(t: Table) {
    && t.descFree == t.ptrFree && Distinct(t.descFree)
    && (forall d: Slot :: Paired(t, d))
    && (forall p: Slot, d: Slot | InFds(t, p, d) :: Live(t, d) && t.desc[d].pcb == p)
    && (forall r: Slot, q: Slot | InRes(t, r, q) :: Live(t, q) && t.desc[q].resource == r)
    && (forall p: Slot :: Distinct(t.fds[p]) && t.lastFd[p] >= 0)
    && (forall r: Slot :: Distinct(t.res[r].descriptors))
  }

  /** The global list holds exactly the allocated resources, and ids are unique in it. */
  ghost predicate Listed(t: Table) {
    && Distinct(t.list) && Distinct(t.resFree)
    && (forall r: Slot :: r in t.list <==> r !in t.resFree)
    && (forall r: Slot, s: Slot :: r in t.list && s in t.list && t.res[r].id == t.res[s].id ==> r == s)
    && (forall r: Slot :: r !in t.list ==> t.res[r].descriptors == [])
  }

  /** No two descriptors of a process have the same fd. */
  ghost predicate FdsUnique(t: Table) {
    forall d: Slot, e: Slot ::
      Live(t, d) && Live(t, e) && t.desc[d].pcb == t.desc[e].pcb && t.desc[d].fd == t.desc[e].fd ==> d == e
  }

  ghost predicate Inv(t: Table) {
    Tables(t) && Listed(t) && FdsUnique(t)
  }

  // ----- every step keeps it -----

  lemma {:induction false} AddResourceKeeps(t: Table, id: int, kind: int)
    requires Inv(t) && t.resFree != [] && ById(t.res, t.list, id).None?
    ensures Inv(AddResource(t, id, kind)) && t.resFree[0] in AddResource(t, id, kind).list
  {
    var u := AddResource(t, id, kind);
    var n := t.resFree[0];
    assert n in t.resFree && n !in t.list;
    forall d: Slot ensures Paired(u, d) {
      assert Paired(t, d);
    }
    forall r: Slot, q: Slot | InRes(u, r, q) ensures Live(u, q) && u.desc[q].resource == r {
      assert InRes(t, r, q);
    }
    forall p: Slot, d: Slot | InFds(u, p, d) ensures Live(u, d) && u.desc[d].pcb == p {
      assert InFds(t, p, d);
    }
    forall r: Slot ensures r in u.list <==> r !in u.resFree {
      HeadOfDistinct<Slot>(t.resFree, r);
    }
    HeadOfDistinct<Slot>(t.resFree, n);
  }

  lemma {:induction false} AddPaired(t: Table, me: Slot, r: Slot, x: Slot)
    requires Inv(t) && t.descFree != [] && r in t.list
    ensures Paired(AddDescriptor(t, me, r), x)
    ensures Live(AddDescriptor(t, me, r), x) <==> Live(t, x) || x == t.descFree[0]
  {
    HeadOfDistinct<Slot>(t.descFree, x);
    assert Paired(t, x);
  }

  lemma {:induction false} AddDescriptorKeeps(t: Table, me: Slot, r: Slot)
    requires Inv(t) && t.descFree != [] && r in t.list
    ensures Inv(AddDescriptor(t, me, r))
  {
    var u := AddDescriptor(t, me, r);
    var n := t.descFree[0];
    HeadOfDistinct<Slot>(t.descFree, n);
    forall x: Slot ensures Paired(u, x) && (Live(u, x) <==> Live(t, x) || x == n) {
      AddPaired(t, me, r, x);
    }
    forall p: Slot, d: Slot | InFds(u, p, d) ensures Live(u, d) && u.desc[d].pcb == p {
      assert InFds(t, p, d) || (p == me && d == n);
    }
    forall s: Slot, q: Slot | InRes(u, s, q) ensures Live(u, q) && u.desc[q].resource == s {
      assert InRes(t, s, q) || (s == r && q == n);
    }
    assert !InFds(t, me, n) && !InRes(t, r, n);
    forall d: Slot, e: Slot |
      Live(u, d) && Live(u, e) && u.desc[d].pcb == u.desc[e].pcb && u.desc[d].fd == u.desc[e].fd
      ensures d == e
    {
      assert Paired(t, d) && Paired(t, e);
    }
  }

  lemma {:induction false} DropPaired(t: Table, me: Slot, d: Slot, x: Slot)
    requires Inv(t) && InFds(t, me, d)
    ensures Paired(DropDescriptor(t, me, d), x)
    ensures Live(DropDescriptor(t, me, d), x) <==> Live(t, x) && x != d
    ensures forall p: Slot :: InFds(DropDescriptor(t, me, d), p, x) <==> InFds(t, p, x) && x != d
    ensures forall r: Slot :: InRes(DropDescriptor(t, me, d), r, x) <==> InRes(t, r, x) && x != d
  {
    assert Paired(t, d) && Paired(t, x);
    DropMembers<Slot>(t.fds[me], d, x);
    DropMembers<Slot>(t.res[t.desc[d].resource].descriptors, d, x);
    forall p: Slot ensures InFds(DropDescriptor(t, me, d), p, x) <==> InFds(t, p, x) && x != d {
      assert InFds(t, p, d) ==> p == me;
    }
    forall r: Slot ensures InRes(DropDescriptor(t, me, d), r, x) <==> InRes(t, r, x) && x != d {
      assert InRes(t, r, d) ==> r == t.desc[d].resource;
    }
  }

  lemma {:induction false} DropKeeps(t: Table, me: Slot, d: Slot)
    requires Inv(t) && InFds(t, me, d)
    ensures Inv(DropDescriptor(t, me, d))
  {
    var u := DropDescriptor(t, me, d);
    assert Paired(t, d);
    forall x: Slot
      ensures Paired(u, x) && (Live(u, x) <==> Live(t, x) && x != d)
    {
      DropPaired(t, me, d, x);
    }
    forall p: Slot, x: Slot | InFds(u, p, x) ensures Live(u, x) && u.desc[x].pcb == p {
      DropPaired(t, me, d, x);
      assert InFds(t, p, x);
    }
    forall r: Slot, x: Slot | InRes(u, r, x) ensures Live(u, x) && u.desc[x].resource == r {
      DropPaired(t, me, d, x);
      assert InRes(t, r, x);
    }
    DropMembers<Slot>(t.fds[me], d, d);
    DropMembers<Slot>(t.res[t.desc[d].resource].descriptors, d, d);
  }

  lemma {:induction false} OpenFoundKeeps(t: Table, me: Slot, found: Option<Slot>, kind: int, mode: int)
    requires Inv(t) && (found.Some? ==> found.value in t.list)
    ensures OpenFound(t, me, found, kind, mode).Done? && Inv(OpenFound(t, me, found, kind, mode).table)
  {
    if found.Some? && t.descFree != [] {
      AddDescriptorKeeps(t, me, found.value);
    }
  }

  /** Open keeps the invariant; it never runs out of DescriptorPtr blocks, and crashes exactly when a
      resource is to be created and the resource pool is empty. */
  lemma {:induction false} OpenKeeps(t: Table, me: Slot, id: int, kind: int, mode: int)
    requires Inv(t)
    ensures OpenStep(t, me, id, kind, mode).Crash? <==>
              Creates(mode) && ById(t.res, t.list, id).None? && t.resFree == []
    ensures OpenStep(t, me, id, kind, mode).Done? ==> Inv(OpenStep(t, me, id, kind, mode).table)
  {
    var found := ById(t.res, t.list, id);
    if !Creates(mode) {
      OpenFoundKeeps(t, me, found, kind, mode);
    } else if found.None? && t.resFree != [] {
      AddResourceKeeps(t, id, kind);
      OpenFoundKeeps(AddResource(t, id, kind), me, Some(t.resFree[0]), kind, mode);
    }
  }

  lemma {:induction false} CloseKeeps(t: Table, me: Slot, fd: int)
    requires Inv(t)
    ensures Inv(CloseStep(t, me, fd).table)
  {
    var found := ByFd(t.desc, t.fds[me], fd);
    if found.Some? {
      assert InFds(t, me, found.value);
      DropKeeps(t, me, found.value);
    }
  }

  lemma {:induction false} DestroyKeeps(t: Table, id: int)
    requires Inv(t)
    ensures Inv(DestroyStep(t, id).table)
  {
    var found := ById(t.res, t.list, id);
    if found.Some? && t.res[found.value].descriptors == [] {
      var u := DestroyStep(t, id).table;
      DropMembers<Slot>(t.list, found.value, found.value);
      forall d: Slot ensures Paired(u, d) {
        assert Paired(t, d);
        DropMembers<Slot>(t.list, found.value, t.desc[d].resource);
      }
      forall r: Slot ensures r in u.list <==> r !in u.resFree {
        DropMembers<Slot>(t.list, found.value, r);
      }
      forall p: Slot, d: Slot | InFds(u, p, d) ensures Live(u, d) && u.desc[d].pcb == p {
        assert InFds(t, p, d);
      }
      forall r: Slot, q: Slot | InRes(u, r, q) ensures Live(u, q) && u.desc[q].resource == r {
        assert InRes(t, r, q);
      }
    }
  }

  // ----- the cleanup loop of exit -----

  lemma {:induction false} KeepHead(s: seq<Slot>, d: Slot, rest: seq<Slot>)
    requires Distinct(s)
    ensures Keep<Slot>(Without<Slot>(s, d), rest) == Keep<Slot>(s, [d] + rest)
  {
    if s != [] {
      assert Distinct(s[1..]);
      KeepHead(s[1..], d, rest);
      if s[0] == d {
        assert d !in s[1..];
        WithoutAbsent<Slot>(s[1..], d);
      }
    }
  }

  /** The loop takes exactly the entries of the dying process out of every resource, in order, and frees them. */
  lemma {:induction false} CleanupExact(t: Table, me: Slot)
    requires Inv(t)
    ensures var u := Cleanup(t, me);
      && Inv(u) && u.fds == t.fds[me := []] && u.list == t.list && u.desc == t.desc
      && (forall r: Slot :: u.res[r] == t.res[r].(descriptors := Keep<Slot>(t.res[r].descriptors, t.fds[me])))
      && (forall x: Slot :: Live(u, x) <==> Live(t, x) && x !in t.fds[me])
    decreases |t.fds[me]|
  {
    var mine := t.fds[me];
    if mine == [] {
      assert t.fds[me := []] == t.fds;
      forall r: Slot ensures t.res[r] == t.res[r].(descriptors := Keep<Slot>(t.res[r].descriptors, [])) {
        KeepAll<Slot>(t.res[r].descriptors);
      }
    } else {
      var d := mine[0];
      var v := DropDescriptor(t, me, d);
      assert InFds(t, me, d);
      assert Paired(t, d);
      DropKeeps(t, me, d);
      assert v.fds[me] == mine[1..];
      CleanupExact(v, me);
      assert v.fds[me := []] == t.fds[me := []];
      forall r: Slot ensures Keep<Slot>(v.res[r].descriptors, mine[1..]) == Keep<Slot>(t.res[r].descriptors, mine) {
        CleanupOne(t, me, r);
      }
      assert forall x: Slot :: x in mine <==> x == d || x in mine[1..];
    }
  }

  lemma {:induction false} CleanupOne(t: Table, me: Slot, r: Slot)
    requires Inv(t) && t.fds[me] != []
    ensures Keep<Slot>(DropDescriptor(t, me, t.fds[me][0]).res[r].descriptors, t.fds[me][1..])
         == Keep<Slot>(t.res[r].descriptors, t.fds[me])
  {
    var mine := t.fds[me];
    var d := mine[0];
    assert mine == [d] + mine[1..];
    assert InFds(t, me, d) && Paired(t, d);
    KeepHead(t.res[r].descriptors, d, mine[1..]);
    if r != t.desc[d].resource {
      assert !InRes(t, r, d);
      WithoutAbsent<Slot>(t.res[r].descriptors, d);
    }
  }

  // ----- the tables point at each other -----

  /** From a process entry to the resource entry and back. */
  lemma {:induction false} ForthAndBack(t: Table, p: Slot, d: Slot)
    requires Inv(t) && d in t.fds[p]
    ensures var q := t.desc[d].ptr;
      q in t.res[t.desc[d].resource].descriptors && t.ptr[q] == d && t.desc[d].pcb == p
    ensures forall r: Slot :: t.desc[d].ptr in t.res[r].descriptors ==> r == t.desc[d].resource
  {
    assert InFds(t, p, d) && Paired(t, d);
    forall r: Slot | t.desc[d].ptr in t.res[r].descriptors ensures r == t.desc[d].resource {
      assert InRes(t, r, d);
    }
  }

  /** From a resource entry to the process entry and back. */
  lemma {:induction false} BackAndForth(t: Table, r: Slot, q: Slot)
    requires Inv(t) && q in t.res[r].descriptors
    ensures var d := t.ptr[q];
      d in t.fds[t.desc[d].pcb] && t.desc[d].resource == r && t.desc[d].ptr == q
    ensures forall p: Slot :: t.ptr[q] in t.fds[p] ==> p == t.desc[t.ptr[q]].pcb
  {
    assert InRes(t, r, q) && Paired(t, q);
    forall p: Slot | t.ptr[q] in t.fds[p] ensures p == t.desc[t.ptr[q]].pcb {
      assert InFds(t, p, q);
    }
  }

  /** The scan by fd finds the one descriptor with that fd. */
  lemma {:induction false} ByFdExact(t: Table, p: Slot, d: Slot)
    requires Inv(t) && d in t.fds[p]
    ensures ByFd(t.desc, t.fds[p], t.desc[d].fd) == Some(d)
  {
    var found := ByFd(t.desc, t.fds[p], t.desc[d].fd);
    assert InFds(t, p, d) && InFds(t, p, found.value);
  }

  /** The scan by id finds the one resource with that id. */
  lemma {:induction false} ByIdExact(t: Table, r: Slot)
    requires Inv(t) && r in t.list
    ensures ById(t.res, t.list, t.res[r].id) == Some(r)
  {
  }

  /** The table in which open creates its descriptor: with the new resource, if one is created. */
  function Opened(t: Table, id: int, kind: int, mode: int): Table {
    if Creates(mode) && t.resFree != [] then AddResource(t, id, kind) else t
  }

  /** A close right after an open restores both tables and both free chains (a created resource stays);
      what else stays is the counter, so that the fd is not given out again. */
  lemma {:induction false} OpenThenClose(t: Table, me: Slot, id: int, kind: int, mode: int)
    requires Inv(t) && OpenStep(t, me, id, kind, mode).Done? && OpenStep(t, me, id, kind, mode).ret >= 0
    ensures var fd := OpenStep(t, me, id, kind, mode).ret;
      var u := CloseStep(OpenStep(t, me, id, kind, mode).table, me, fd);
      && fd == t.lastFd[me] && u.ret == 0
      && u.table == Opened(t, id, kind, mode).(desc := u.table.desc, ptr := u.table.ptr, lastFd := t.lastFd[me := fd + 1])
  {
    var b := Opened(t, id, kind, mode);
    var found := ById(t.res, t.list, id);
    if Creates(mode) {
      AddResourceKeeps(t, id, kind);
    }
    AddThenDrop(b, me, if Creates(mode) then t.resFree[0] else found.value);
  }

  lemma {:induction false} AddThenDrop(t: Table, me: Slot, r: Slot)
    requires Inv(t) && r in t.list && t.descFree != []
    ensures var u := CloseStep(AddDescriptor(t, me, r), me, t.lastFd[me]);
      u.ret == 0 && u.table == t.(desc := u.table.desc, ptr := u.table.ptr, lastFd := t.lastFd[me := t.lastFd[me] + 1])
  {
    var v := AddDescriptor(t, me, r);
    var d := t.descFree[0];
    AddDescriptorKeeps(t, me, r);
    assert v.desc[d].fd == t.lastFd[me] && d in v.fds[me];
    ByFdExact(v, me, d);
    assert !Live(t, d);
    assert !InFds(t, me, d) && !InRes(t, r, d);
    TailUndone(t.fds[me], d);
    TailUndone(t.res[r].descriptors, d);
    var u := DropDescriptor(v, me, d);
    assert u.fds == t.fds && u.res == t.res;
    assert [d] + t.descFree[1..] == t.descFree;
  }

  lemma {:induction false} TailUndone(s: seq<Slot>, d: Slot)
    requires d !in s
    ensures Without<Slot>(s + [d], d) == s
  {
    assert (s + [d])[..|s|] == s;
    WithoutAt<Slot>(s + [d], d, |s|);
  }

  // ----- reuse of a PCB block, and runs -----

  /** Giving a process block to a new process keeps the tables exactly when the block has no open descriptor. */
  lemma {:induction false} RecycleIff(t: Table, p: Slot)
    requires Inv(t)
    ensures Inv(Recycle(t, p)) <==> t.fds[p] == []
  {
    var u := Recycle(t, p);
    if t.fds[p] == [] {
      forall d: Slot ensures Paired(u, d) {
        assert Paired(t, d);
      }
      forall s: Slot, d: Slot | InFds(u, s, d) ensures Live(u, d) && u.desc[d].pcb == s {
        assert InFds(t, s, d);
      }
      forall r: Slot, q: Slot | InRes(u, r, q) ensures Live(u, q) && u.desc[q].resource == r {
        assert InRes(t, r, q);
      }
    } else {
      var d := t.fds[p][0];
      assert InFds(t, p, d);
      assert !Paired(u, d);
    }
  }

  /** `ExitWoken` is an exit that the parent waited for, `Reuse` the allocation of a PCB block. */
  datatype Call =
    | Open(me: Slot, id: int, kind: int, mode: int)
    | Close(me: Slot, fd: int)
    | Destroy(id: int)
    | ExitWoken(me: Slot)
    | Reuse(block: Slot)

  function Step(t: Table, c: Call): Outcome {
    match c
    case Open(me, id, kind, mode) => OpenStep(t, me, id, kind, mode)
    case Close(me, fd) => CloseStep(t, me, fd)
    case Destroy(id) => DestroyStep(t, id)
    case ExitWoken(me) => Done(Cleanup(t, me), 0)
    case Reuse(p) => Done(Recycle(t, p), 0)
  }

  /** Runs that go through and reuse only blocks without open descriptors. */
  ghost predicate CleanRun(t: Table, cs: seq<Call>)
    decreases |cs|
  {
    cs == [] || (Step(t, cs[0]).Done? && (cs[0].Reuse? ==> t.fds[cs[0].block] == [])
                 && CleanRun(Step(t, cs[0]).table, cs[1..]))
  }

  function Final(t: Table, cs: seq<Call>): Table
    decreases |cs|
  {
    if cs == [] || Step(t, cs[0]).Crash? then t else Final(Step(t, cs[0]).table, cs[1..])
  }

  function Start(): Table {
    var chain := seq(POOL_SIZE, i requires 0 <= i < POOL_SIZE => i);
    Table(seq(POOL_SIZE, _ => Resource(0, 0, [])), chain, [],
          seq(POOL_SIZE, _ => Descriptor(0, 0, 0, 0)), chain,
          seq(POOL_SIZE, _ => 0), chain,
          seq(POOL_SIZE, _ => []), seq(POOL_SIZE, _ => 0))
  }

  lemma {:induction false} StartInv()
    ensures Inv(Start())
  {
    var t := Start();
    forall x: Slot ensures x in t.descFree && x in t.resFree {
      assert t.descFree[x] == x;
    }
    forall d: Slot ensures Paired(t, d) {
    }
  }

  lemma {:induction false} StepKeeps(t: Table, c: Call)
    requires Inv(t) && Step(t, c).Done? && (c.Reuse? ==> t.fds[c.block] == [])
    ensures Inv(Step(t, c).table)
  {
    match c
    case Open(me, id, kind, mode) => OpenKeeps(t, me, id, kind, mode);
    case Close(me, fd) => CloseKeeps(t, me, fd);
    case Destroy(id) => DestroyKeeps(t, id);
    case ExitWoken(me) => CleanupExact(t, me);
    case Reuse(p) => RecycleIff(t, p);
  }

  lemma {:induction false} CleanRunKeeps(t: Table, cs: seq<Call>)
    requires Inv(t) && CleanRun(t, cs)
    ensures Inv(Final(t, cs))
    decreases |cs|
  {
    if cs != [] {
      StepKeeps(t, cs[0]);
      CleanRunKeeps(Step(t, cs[0]).table, cs[1..]);
    }
  }

  /** In every state of a clean run both descriptor pools have the same free chain, so the unchecked second
      allocation of open succeeds whenever the first does. */
  lemma {:induction false} PoolsInLockstep(cs: seq<Call>)
    requires CleanRun(Start(), cs)
    ensures var t := Final(Start(), cs); Inv(t) && t.descFree == t.ptrFree
  {
    StartInv();
    CleanRunKeeps(Start(), cs);
  }
}
