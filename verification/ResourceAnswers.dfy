/** What open, close and destroy of a resource answer, from the tables before the call. */
module ResourceAnswers {
  import opened Sequences
  import opened Resources

  /** A listed resource has that id. */
  ghost predicate Exists(t: Table, id: int) {
    exists r: Slot :: r in t.list && t.res[r].id == id
  }

  /** It is of that type, too. */
  ghost predicate Matches(t: Table, id: int, kind: int) {
    exists r: Slot :: Fits(t, r, id, kind)
  }

  ghost predicate Fits(t: Table, r: Slot, id: int, kind: int) {
    r in t.list && t.res[r].id == id && t.res[r].kind == kind
  }

  /** And somebody has it open. */
  ghost predicate InUse(t: Table, id: int, kind: int) {
    exists r: Slot :: Fits(t, r, id, kind) && t.res[r].descriptors != []
  }

  lemma {:induction false} FoundIff(t: Table, id: int, kind: int)
    requires Inv(t)
    ensures var found := ById(t.res, t.list, id);
      && (found.Some? <==> Exists(t, id))
      && (found.Some? && t.res[found.value].kind == kind <==> Matches(t, id, kind))
      && (found.Some? && t.res[found.value].kind == kind && t.res[found.value].descriptors != [] <==> InUse(t, id, kind))
      && (forall r: Slot :: Fits(t, r, id, kind) ==> found == Some(r))
  {
    var found := ById(t.res, t.list, id);
    if found.Some? && t.res[found.value].kind == kind {
      assert Fits(t, found.value, id, kind);
    }
    forall r: Slot | Fits(t, r, id, kind) ensures found == Some(r) {
      ByIdExact(t, r);
    }
  }

  // ----- open -----

  /** CREATE (bit 0) is set: the resource must be new; else it must be there, with that type, and free if EXCL (bit 2) is set. */
  ghost predicate MayOpen(t: Table, id: int, kind: int, mode: int) {
    if mode % 2 == 1 then !Exists(t, id) && t.resFree != []
    else Matches(t, id, kind) && (mode / 4 % 2 == 1 ==> !InUse(t, id, kind))
  }

  /** Which answer an open gives. */
  lemma {:induction false} OpenAnswers(t: Table, me: Slot, id: int, kind: int, mode: int)
    requires Inv(t)
    ensures OpenStep(t, me, id, kind, mode).Crash? <==> mode % 2 == 1 && !Exists(t, id) && t.resFree == []
    ensures OpenStep(t, me, id, kind, mode).Done? ==>
      var ret := OpenStep(t, me, id, kind, mode).ret;
      && (ret >= 0 <==> t.descFree != [] && MayOpen(t, id, kind, mode))
      && (ret == -8 <==> mode % 2 == 1 && Exists(t, id))
      && (ret == -9 <==> mode % 2 == 0 && !Matches(t, id, kind))
      && (ret == -10 <==> mode % 2 == 0 && mode / 4 % 2 == 1 && InUse(t, id, kind))
      && (ret == -11 <==> t.descFree == [] && MayOpen(t, id, kind, mode))
  {
    FoundIff(t, id, kind);
    assert t.lastFd[me] >= 0;
  }

  /** `d` is a new descriptor of `me` with that fd, at the tail of its fd list and of the list of resource `r`. */
  ghost predicate NewDescriptor(t: Table, u: Table, me: Slot, r: Slot, d: Slot, fd: int) {
    && !Live(t, d) && Live(u, d) && u.desc[d].fd == fd && u.desc[d].pcb == me && u.desc[d].resource == r
    && u.fds == t.fds[me := t.fds[me] + [d]]
    && u.res[r].descriptors == t.res[r].descriptors + [u.desc[d].ptr] && u.ptr[u.desc[d].ptr] == d
    && (forall x: Slot :: x != d ==> (Live(u, x) <==> Live(t, x)) && u.desc[x] == t.desc[x])
    && (forall x: Slot :: x != r ==> u.res[x] == t.res[x])
    && u.lastFd == t.lastFd[me := fd + 1]
  }

  /** An open that succeeds gives out an fd that was not in use; it names a new descriptor on the resource with
      that id and type, which is listed. A created one was not listed before. */
  lemma {:induction false} OpenGives(t: Table, me: Slot, id: int, kind: int, mode: int, u: Table, fd: int) returns (r: Slot, d: Slot)
    requires Inv(t) && OpenStep(t, me, id, kind, mode) == Done(u, fd) && fd >= 0
    ensures ByFd(u.desc, u.fds[me], fd) == Some(d) && ByFd(t.desc, t.fds[me], fd) == None
    ensures NewDescriptor(t, u, me, r, d, fd) && Fits(u, r, id, kind)
    ensures u.list == if mode % 2 == 1 then t.list + [r] else t.list
    ensures if mode % 2 == 1 then r !in t.list && t.resFree == [r] + u.resFree else Fits(t, r, id, kind) && u.resFree == t.resFree
  {
    FoundIff(t, id, kind);
    OpenKeeps(t, me, id, kind, mode);
    d := t.descFree[0];
    r := if mode % 2 == 1 then t.resFree[0] else ById(t.res, t.list, id).value;
    FreshHeads(t);
    NoSuchFd(t, me);
    var b := if mode % 2 == 1 then AddResource(t, id, kind) else t;
    assert u == AddDescriptor(b, me, r);
    Added(b, me, r);
    assert u.desc[d].fd == fd && d in u.fds[me];
    ByFdExact(u, me, d);
  }

  lemma {:induction false} Added(t: Table, me: Slot, r: Slot)
    requires Distinct(t.descFree) && t.descFree != [] && t.ptrFree != []
    ensures NewDescriptor(t, AddDescriptor(t, me, r), me, r, t.descFree[0], t.lastFd[me])
  {
    var d := t.descFree[0];
    forall x: Slot ensures x in t.descFree[1..] <==> x in t.descFree && x != d {
      HeadOfDistinct<Slot>(t.descFree, x);
    }
  }

  /** What comes from a pool is not in use. */
  lemma {:induction false} FreshHeads(t: Table)
    requires Inv(t)
    ensures t.resFree != [] ==> t.resFree[0] !in t.list && t.res[t.resFree[0]].descriptors == [] && t.resFree == [t.resFree[0]] + t.resFree[1..]
    ensures t.descFree != [] ==> !Live(t, t.descFree[0])
  {
    if t.resFree != [] {
      assert t.resFree[0] in t.resFree;
    }
  }

  /** The counter is ahead of all fds. */
  lemma {:induction false} NoSuchFd(t: Table, me: Slot)
    requires Inv(t)
    ensures ByFd(t.desc, t.fds[me], t.lastFd[me]) == None
  {
    forall d: Slot | d in t.fds[me] ensures t.desc[d].fd < t.lastFd[me] {
      assert InFds(t, me, d) && Paired(t, d);
    }
  }

  /** An open that fails changes nothing, except that a creation without descriptor leaves the new resource listed. */
  lemma {:induction false} OpenFails(t: Table, me: Slot, id: int, kind: int, mode: int, u: Table, ret: int)
    requires Inv(t) && OpenStep(t, me, id, kind, mode) == Done(u, ret) && ret < 0
    ensures ret != -11 || mode % 2 == 0 ==> u == t
    ensures ret == -11 && mode % 2 == 1 ==> t.resFree != [] && var r := t.resFree[0];
      u == t.(res := t.res[r := Resource(id, kind, [])], resFree := t.resFree[1..], list := t.list + [r])
  {
    assert t.lastFd[me] >= 0;
  }

  // ----- close and destroy -----

  /** `d` is in no list any more and can be given out again; the others keep their places. */
  ghost predicate Dropped(t: Table, u: Table, me: Slot, d: Slot) {
    var r := t.desc[d].resource;
    && u.fds == t.fds[me := Without(t.fds[me], d)] && d !in u.fds[me]
    && u.res == t.res[r := t.res[r].(descriptors := Without(t.res[r].descriptors, t.desc[d].ptr))]
    && t.desc[d].ptr in t.res[r].descriptors && t.desc[d].ptr !in u.res[r].descriptors
    && (forall x: Slot :: Live(u, x) <==> Live(t, x) && x != d)
    && u == t.(fds := u.fds, res := u.res, descFree := u.descFree, ptrFree := u.ptrFree)
  }

  /** A close answers 0 and drops the descriptor with that fd, or answers -12 and changes nothing if there is none. */
  lemma {:induction false} CloseAnswers(t: Table, me: Slot, fd: int, u: Table, ret: int)
    requires Inv(t) && CloseStep(t, me, fd) == Done(u, ret)
    ensures forall d: Slot :: d in t.fds[me] && t.desc[d].fd == fd ==> ret == 0 && Dropped(t, u, me, d)
    ensures (forall d: Slot :: d in t.fds[me] ==> t.desc[d].fd != fd) ==> ret == -12 && u == t
  {
    forall d: Slot | d in t.fds[me] && t.desc[d].fd == fd ensures ret == 0 && Dropped(t, u, me, d) {
      ByFdExact(t, me, d);
      assert InFds(t, me, d) && Paired(t, d);
      DropPaired(t, me, d, d);
      assert !InFds(u, me, d) && !InRes(u, t.desc[d].resource, d);
      forall x: Slot ensures Live(u, x) <==> Live(t, x) && x != d {
        DropPaired(t, me, d, x);
      }
    }
  }

  /** A destruction takes an unused resource off the list and frees it, refuses one in use, and reports one that is not there. */
  lemma {:induction false} DestroyAnswers(t: Table, id: int, u: Table, ret: int)
    requires Inv(t) && DestroyStep(t, id) == Done(u, ret)
    ensures !Exists(t, id) ==> ret == -12 && u == t
    ensures forall r: Slot :: r in t.list && t.res[r].id == id ==>
      if t.res[r].descriptors != [] then ret == -13 && u == t
      else ret == 0 && r !in u.list && u.list == Without(t.list, r) && u.resFree == [r] + t.resFree
           && u == t.(list := u.list, resFree := u.resFree) && !Exists(u, id)
  {
    forall r: Slot | r in t.list && t.res[r].id == id
      ensures if t.res[r].descriptors != [] then ret == -13 && u == t
        else ret == 0 && r !in u.list && u.list == Without(t.list, r) && u.resFree == [r] + t.resFree
             && u == t.(list := u.list, resFree := u.resFree) && !Exists(u, id)
    {
      ByIdExact(t, r);
      DropMembers<Slot>(t.list, r, r);
      if t.res[r].descriptors == [] {
        forall x: Slot | x in u.list ensures u.res[x].id != id {
          DropMembers<Slot>(t.list, r, x);
        }
      }
    }
  }
}
