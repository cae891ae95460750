/** The resource system calls as the source writes them, over the static buffers. */
module ResourceCode {
  import opened Sequences
  import opened Resources

  lemma {:induction false} ByIdAt(res: ResourceBuffer, l: seq<Slot>, id: int, k: nat)
    requires k <= |l| && (forall i :: 0 <= i < k ==> res[l[i]].id != id)
    requires k < |l| ==> res[l[k]].id == id
    ensures ById(res, l, id) == if k < |l| then Some(l[k]) else None
  {
    if k > 0 {
      ByIdAt(res, l[1..], id, k - 1);
    }
  }

  lemma {:induction false} ByFdAt(desc: DescriptorBuffer, l: seq<Slot>, fd: int, k: nat)
    requires k <= |l| && (forall i :: 0 <= i < k ==> desc[l[i]].fd != fd)
    requires k < |l| ==> desc[l[k]].fd == fd
    ensures ByFd(desc, l, fd) == if k < |l| then Some(l[k]) else None
  {
    if k > 0 {
      ByFdAt(desc, l[1..], fd, k - 1);
    }
  }

  class ResourceKernel {
    const res: array<Resource>
    const desc: array<Descriptor>
    const ptr: array<Slot>
    const fds: array<seq<Slot>>
    const lastFd: array<int>
    var resFree: seq<Slot>
    var list: seq<Slot>
    var descFree: seq<Slot>
    var ptrFree: seq<Slot>

    ghost predicate Sized() {
      && res.Length == desc.Length == ptr.Length == fds.Length == lastFd.Length == POOL_SIZE
      && ptr as object != lastFd
    }

    ghost function Abs(): Table
      requires Sized()
      reads this, res, desc, ptr, fds, lastFd
    {
      Table(res[..], resFree, list, desc[..], descFree, ptr[..], ptrFree, fds[..], lastFd[..])
    }

    ghost predicate Valid()
      reads this, res, desc, ptr, fds, lastFd
    {
      Sized() && Inv(Abs())
    }

    constructor ()
      ensures Valid() && Abs() == Start()
    {
      res := new Resource[POOL_SIZE](_ => Resource(0, 0, []));
      desc := new Descriptor[POOL_SIZE](_ => Descriptor(0, 0, 0, 0));
      ptr := new Slot[POOL_SIZE](_ => 0);
      fds := new seq<Slot>[POOL_SIZE](_ => []);
      lastFd := new int[POOL_SIZE](_ => 0);
      resFree := seq(POOL_SIZE, i requires 0 <= i < POOL_SIZE => i);
      descFree := seq(POOL_SIZE, i requires 0 <= i < POOL_SIZE => i);
      ptrFree := seq(POOL_SIZE, i requires 0 <= i < POOL_SIZE => i);
      list := [];
      new;
      assert Abs() == Start();
      StartInv();
    }

    /** `ResourceList_byId` */
    method FindById(id: int) returns (r: Option<Slot>)
      requires Sized()
      ensures r == ById(res[..], list, id)
    {
      var aux := 0;
      while aux < |list|
        invariant 0 <= aux <= |list|
        invariant forall i :: 0 <= i < aux ==> res[list[i]].id != id
      {
        if res[list[aux]].id == id {
          ByIdAt(res[..], list, id, aux);
          return Some(list[aux]);
        }
        aux := aux + 1;
      }
      ByIdAt(res[..], list, id, aux);
      return None;
    }

    /** `DescriptorList_byFd` */
    method FindByFd(me: Slot, fd: int) returns (d: Option<Slot>)
      requires Sized()
      ensures d == ByFd(desc[..], fds[me], fd)
    {
      var l := fds[me];
      var aux := 0;
      while aux < |l|
        invariant 0 <= aux <= |l|
        invariant forall i :: 0 <= i < aux ==> desc[l[i]].fd != fd
      {
        if desc[l[aux]].fd == fd {
          ByFdAt(desc[..], l, fd, aux);
          return Some(l[aux]);
        }
        aux := aux + 1;
      }
      ByFdAt(desc[..], l, fd, aux);
      return None;
    }

    /** The creation of the descriptor and of its cell, steps 5 and 6 of `internal_openResource`. */
    method CreateDescriptor(me: Slot, r: Slot)
      requires Sized() && descFree != [] && ptrFree != []
      modifies this, res, desc, ptr, fds, lastFd
      ensures Sized() && Abs() == AddDescriptor(old(Abs()), me, r)
    {
      ghost var t := Abs();
      var d := descFree[0];
      descFree := descFree[1..];
      desc[d] := Descriptor(me, r, lastFd[me], desc[d].ptr);
      lastFd[me] := lastFd[me] + 1;
      var q := ptrFree[0];
      ptrFree := ptrFree[1..];
      ptr[q] := d;
      fds[me] := fds[me] + [d];
      desc[d] := desc[d].(ptr := q);
      res[r] := res[r].(descriptors := res[r].descriptors + [q]);
      assert res[..] == AddDescriptor(t, me, r).res;
      assert desc[..] == AddDescriptor(t, me, r).desc;
      assert ptr[..] == AddDescriptor(t, me, r).ptr;
      assert fds[..] == AddDescriptor(t, me, r).fds;
      assert lastFd[..] == AddDescriptor(t, me, r).lastFd;
    }

    /** src/disastrOS_open_resource.c */
    method OpenResource(me: Slot, id: int, kind: int, mode: int) returns (ret: int)
      requires Valid() && OpenStep(Abs(), me, id, kind, mode).Done?
      modifies this, res, desc, ptr, fds, lastFd
      ensures Valid() && OpenStep(old(Abs()), me, id, kind, mode) == Done(Abs(), ret)
    {
      ghost var t := Abs();
      OpenKeeps(t, me, id, kind, mode);
      var found := FindById(id);
      if mode % 2 == 1 {
        if found.Some? {
          return DSOS_ERESOURCECREATE;
        }
        var r := resFree[0];
        resFree := resFree[1..];
        res[r] := Resource(id, kind, []);
        list := list + [r];
        found := Some(r);
        assert res[..] == AddResource(t, id, kind).res;
        assert Abs() == AddResource(t, id, kind);
      }
      if found.None? || res[found.value].kind != kind {
        return DSOS_ERESOURCEOPEN;
      }
      if mode / 4 % 2 == 1 && |res[found.value].descriptors| != 0 {
        return DSOS_ERESOURCENOEXCL;
      }
      if descFree == [] {
        return DSOS_ERESOURCENOFD;
      }
      ret := lastFd[me];
      CreateDescriptor(me, found.value);
    }

    /** The detaching and freeing that close and the cleanup loop of exit share. */
    method RemoveDescriptor(me: Slot, d: Slot)
      requires Sized()
      modifies this, res, fds
      ensures Sized() && Abs() == DropDescriptor(old(Abs()), me, d)
    {
      ghost var t := Abs();
      fds[me] := Without(fds[me], d);
      var r := desc[d].resource;
      res[r] := res[r].(descriptors := Without(res[r].descriptors, desc[d].ptr));
      descFree := [d] + descFree;
      ptrFree := [desc[d].ptr] + ptrFree;
      assert fds[..] == DropDescriptor(t, me, d).fds;
      assert res[..] == DropDescriptor(t, me, d).res;
    }

    /** src/disastrOS_close_resource.c */
    method CloseResource(me: Slot, fd: int) returns (ret: int)
      requires Valid()
      modifies this, res, fds
      ensures Valid() && CloseStep(old(Abs()), me, fd) == Done(Abs(), ret)
    {
      CloseKeeps(Abs(), me, fd);
      var d := FindByFd(me, fd);
      if d.None? {
        return DSOS_ERESOURCECLOSE;
      }
      RemoveDescriptor(me, d.value);
      return 0;
    }

    /** src/disastrOS_destroy_resource.c */
    method DestroyResource(id: int) returns (ret: int)
      requires Valid()
      modifies this
      ensures Valid() && DestroyStep(old(Abs()), id) == Done(Abs(), ret)
    {
      DestroyKeeps(Abs(), id);
      var r := FindById(id);
      if r.None? {
        return DSOS_ERESOURCECLOSE;
      }
      if |res[r.value].descriptors| != 0 {
        return DSOS_ERESOURCEINUSE;
      }
      list := Without(list, r.value);
      resFree := [r.value] + resFree;
      return 0;
    }

    /** The descriptor cleanup loop of src/disastrOS_exit.c, lines 75-82. */
    method ReleaseDescriptors(me: Slot)
      requires Valid()
      modifies this, res, fds
      ensures Valid() && Abs() == Cleanup(old(Abs()), me)
    {
      CleanupExact(Abs(), me);
      while fds[me] != []
        invariant Sized() && Cleanup(Abs(), me) == Cleanup(old(Abs()), me)
        decreases |fds[me]|
      {
        RemoveDescriptor(me, fds[me][0]);
      }
    }
  }
}
