/** The intrusive doubly linked list. `ListItem` is a structure that embeds the links as its first member;
    `data` stands for the rest of it. */
module LinkedList {
  import opened Sequences

  class ListItem<T> {
    var prev: ListItem?<T>
    var next: ListItem?<T>
    var data: T

    constructor (data: T)
      ensures prev == null && next == null && this.data == data
    {
      prev, next := null, null;
      this.data := data;
    }
  }

  /** A pointer as an optional list member. */
  ghost function Pointer<T>(p: ListItem?<T>): Option<ListItem<T>> {
    if p == null then None else Some(p)
  }

  ghost function Before<T>(s: seq<ListItem<T>>, i: int): ListItem?<T>
    requires 0 <= i < |s|
  {
    if i == 0 then null else s[i - 1]
  }

  ghost function After<T>(s: seq<ListItem<T>>, i: int): ListItem?<T>
    requires 0 <= i < |s|
  {
    if i == |s| - 1 then null else s[i + 1]
  }

  /** Each item's links name its neighbours in `s`. */
  ghost predicate Linked<T>(s: seq<ListItem<T>>)
    reads s
  {
    && (forall i {:trigger s[i].prev} :: 0 <= i < |s| ==> s[i].prev == Before(s, i))
    && (forall i {:trigger s[i].next} :: 0 <= i < |s| ==> s[i].next == After(s, i))
  }

  /** The item at `k` and its neighbours occur nowhere else. */
  ghost predicate OnlyAt<T>(s: seq<ListItem<T>>, k: int) {
    0 <= k < |s| ==> forall i :: 0 <= i < |s| && i != k ==> s[i] != s[k]
  }

  /** The links are right again once the new item at `k` and its two neighbours have theirs. */
  lemma {:induction false} LinkedWith<T>(s: seq<ListItem<T>>, k: nat, r: seq<ListItem<T>>)
    requires k <= |s| && |r| == |s| + 1
    requires (forall i :: 0 <= i < k ==> r[i] == s[i]) && (forall i :: k < i < |r| ==> r[i] == s[i - 1])
    requires r[k].prev == (if k == 0 then null else s[k - 1]) && r[k].next == (if k == |s| then null else s[k])
    requires forall i {:trigger s[i].prev} :: 0 <= i < |s| ==> s[i].prev == if i == k then r[k] else Before(s, i)
    requires forall i {:trigger s[i].next} :: 0 <= i < |s| ==> s[i].next == if i == k - 1 then r[k] else After(s, i)
    ensures Linked(r)
  {
    forall i | 0 <= i < |r| ensures r[i].prev == Before(r, i) && r[i].next == After(r, i) {
      if i != k {
        assert r[i] == s[if i < k then i else i - 1];
      }
    }
  }

  /** And once the neighbours of the item at `k` name each other. */
  lemma {:induction false} LinkedWithout<T>(s: seq<ListItem<T>>, k: nat, r: seq<ListItem<T>>)
    requires k < |s| && |r| == |s| - 1
    requires (forall i :: 0 <= i < k ==> r[i] == s[i]) && (forall i :: k <= i < |r| ==> r[i] == s[i + 1])
    requires forall i {:trigger s[i].prev} :: 0 <= i < |s| && i != k ==> s[i].prev == Before(s, if i == k + 1 then k else i)
    requires forall i {:trigger s[i].next} :: 0 <= i < |s| && i != k ==> s[i].next == After(s, if i == k - 1 then k else i)
    ensures Linked(r)
  {
    forall i | 0 <= i < |r| ensures r[i].prev == Before(r, i) && r[i].next == After(r, i) {
      assert r[i] == s[if i < k then i else i + 1];
    }
  }

  lemma {:induction false} OnlyOnce<T>(s: seq<ListItem<T>>, k: int)
    requires Distinct(s)
    ensures OnlyAt(s, k - 1) && OnlyAt(s, k) && OnlyAt(s, k + 1)
  {
  }

  /** The link assignments of `List_insert`: `item` goes in at `k`, between `prev` and `next`; or it is the only
      member already, and is tied to itself. */
  method TieIn<T>(ghost s: seq<ListItem<T>>, ghost k: nat, prev: ListItem?<T>, item: ListItem<T>, next: ListItem?<T>)
    requires k <= |s| && Linked(s) && OnlyAt(s, k) && OnlyAt(s, k - 1) && (item !in s || s == [item])
    requires prev == (if k == 0 then null else s[k - 1]) && next == (if k == |s| then null else s[k])
    requires item.prev == null && item.next == null
    modifies item`prev, item`next, s`prev, s`next
    ensures item !in s ==>
      && item.prev == prev && item.next == next
      && (forall i {:trigger s[i].prev} :: 0 <= i < |s| ==> s[i].prev == if i == k then item else Before(s, i))
      && (forall i {:trigger s[i].next} :: 0 <= i < |s| ==> s[i].next == if i == k - 1 then item else After(s, i))
    ensures item in s ==> item.prev == item.next == item
  {
    if prev != null {
      item.prev := prev;
      prev.next := item;
    }
    if next != null {
      item.next := next;
      next.prev := item;
    }
  }

  /** The link assignments of `List_detach`. */
  method TieOff<T>(ghost s: seq<ListItem<T>>, ghost k: nat, item: ListItem<T>) returns (prev: ListItem?<T>, next: ListItem?<T>)
    requires k < |s| && Linked(s) && item == s[k] && OnlyAt(s, k) && OnlyAt(s, k - 1) && OnlyAt(s, k + 1)
    modifies s`prev, s`next
    ensures prev == Before(s, k) && next == After(s, k) && item.prev == null && item.next == null
    ensures forall i {:trigger s[i].prev} :: 0 <= i < |s| && i != k ==> s[i].prev == Before(s, if i == k + 1 then k else i)
    ensures forall i {:trigger s[i].next} :: 0 <= i < |s| && i != k ==> s[i].next == After(s, if i == k - 1 then k else i)
  {
    assert s[k].prev == Before(s, k) && s[k].next == After(s, k);
    prev := item.prev;
    next := item.next;
    if prev != null {
      prev.next := next;
    }
    if next != null {
      next.prev := prev;
    }
    item.next, item.prev := null, null;
  }

  class ListHead<T> {
    var first: ListItem?<T>
    var last: ListItem?<T>
    var size: int
    ghost var items: seq<ListItem<T>>
    ghost var repr: set<ListItem<T>>

    /** `repr` is the footprint: lists with disjoint footprints do not disturb each other. */
    ghost predicate Valid()
      reads this, repr
    {
      && (forall i :: 0 <= i < |items| ==> items[i] in repr)
      && size == |items|
      && first == (if |items| == 0 then null else items[0])
      && last == (if |items| == 0 then null else items[|items| - 1])
      && Distinct(items)
      && Linked(items)
    }

    /** What the list holds, in order. */
    ghost function Contents(): (r: seq<T>)
      requires Valid()
      reads this, repr
      ensures |r| == |items| && forall i :: 0 <= i < |r| ==> r[i] == items[i].data
    {
      seq(|items|, i requires 0 <= i < |items| && Valid() reads this, repr => items[i].data)
    }

    /** `List_init` */
    constructor ()
      ensures Valid() && items == [] && repr == {}
    {
      first, last, size, items, repr := null, null, 0, [], {};
    }

    /** `List_find` */
    method Find(item: ListItem<T>) returns (r: ListItem?<T>)
      requires Valid()
      ensures r == if item in items then item else null
    {
      var aux := first;
      ghost var k := 0;
      while aux != null
        invariant 0 <= k <= |items|
        invariant aux == if k < |items| then items[k] else null
        invariant item !in items[..k]
        decreases |items| - k
      {
        if aux == item {
          return item;
        }
        assert items[k].next == aux.next;
        assert items[..k + 1] == items[..k] + [items[k]];
        aux := aux.next;
        k := k + 1;
      }
      return null;
    }

    /** The linking test at the head of `List_insert` recognises a member of this list exactly when
        the list has two members or more. */
    lemma {:induction false} GuardSeesMembers(item: ListItem<T>)
      requires Valid() && item in items
      ensures item.prev != null || item.next != null <==> |items| >= 2
    {
      var i :| 0 <= i < |items| && items[i] == item;
      assert items[i].prev == item.prev && items[i].next == item.next;
    }

    /** Once the links, the ends and the size are right, `item` is a member at `k`. */
    ghost method Grow(prev: Option<ListItem<T>>, item: ListItem<T>, k: nat)
      requires Distinct(items) && IsPlace(items, prev, k) && item !in items && forall i :: 0 <= i < |items| ==> items[i] in repr
      requires item.prev == (if k == 0 then null else items[k - 1]) && item.next == (if k == |items| then null else items[k])
      requires forall i {:trigger items[i].prev} :: 0 <= i < |items| ==> items[i].prev == if i == k then item else Before(items, i)
      requires forall i {:trigger items[i].next} :: 0 <= i < |items| ==> items[i].next == if i == k - 1 then item else After(items, i)
      requires first == (if k == 0 then item else items[0]) && last == (if k == |items| then item else items[|items| - 1])
      requires size == |items| + 1
      modifies `items, `repr
      ensures Valid() && items == InsertAfter(old(items), prev, item) && repr == old(repr) + {item}
    {
      InsertAfterIndex<ListItem<T>>(items, prev, item, k);
      LinkedWith(items, k, InsertAfter(items, prev, item));
      items := InsertAfter(items, prev, item);
      repr := repr + {item};
    }

    /** And once they are right for the others, the item at `k` is a member no more. */
    ghost method Shrink(k: nat)
      requires k < |items| && Distinct(items) && forall i :: 0 <= i < |items| ==> items[i] in repr
      requires forall i {:trigger items[i].prev} :: 0 <= i < |items| && i != k ==> items[i].prev == Before(items, if i == k + 1 then k else i)
      requires forall i {:trigger items[i].next} :: 0 <= i < |items| && i != k ==> items[i].next == After(items, if i == k - 1 then k else i)
      requires first == (if k == 0 then After(items, k) else items[0])
      requires last == (if k == |items| - 1 then Before(items, k) else items[|items| - 1])
      requires size == |items| - 1
      modifies `items, `repr
      ensures Valid() && items == Without(old(items), old(items[k])) && repr == old(repr) - {old(items[k])}
    {
      var item := items[k];
      WithoutIndex<ListItem<T>>(items, k);
      LinkedWithout(items, k, Without(items, item));
      items := Without(items, item);
      repr := repr - {item};
    }

    lemma {:induction false} AloneOrAbsent(item: ListItem<T>)
      requires Valid() && item.prev == null && item.next == null
      ensures item !in items || items == [item]
    {
      if item in items {
        GuardSeesMembers(item);
      }
    }

    /** `List_insert`: an item that is linked already is refused. The test does not see the only member of the
        list, which is linked to itself. */
    method Insert(prev: ListItem?<T>, item: ListItem<T>) returns (r: ListItem?<T>)
      requires Valid() && (prev == null || prev in items)
      modifies this, item`prev, item`next, repr`prev, repr`next
      ensures old(item.prev == null && item.next == null && item !in items) ==>
        && r == item && Valid() && items == InsertAfter(old(items), Pointer(prev), item)
        && repr == old(repr) + {item}
      ensures old(item.prev != null || item.next != null) ==>
        r == null && unchanged(this) && unchanged(item) && unchanged(repr)
      ensures old(item.prev == null && item.next == null && item in items) ==>
        r == item && first == last == item && item.prev == item.next == item && size == 2 && items == old(items)
    {
      if item.next != null || item.prev != null {
        return null;
      }
      ghost var was := items;
      ghost var k := 0;
      if prev != null {
        k :| 0 <= k < |was| && was[k] == prev;
        k := k + 1;
      }
      assert k > 0 ==> was[k - 1].next == prev.next;
      AloneOrAbsent(item);
      var next := if prev != null then prev.next else first;
      assert next == if k < |was| then was[k] else null;
      OnlyOnce(was, k);
      TieIn(was, k, prev, item, next);
      if prev == null {
        first := item;
      }
      if next == null {
        last := item;
      }
      size := size + 1;
      if item !in was {
        Grow(Pointer(prev), item, k);
      }
      return item;
    }

    /** `List_detach` */
    method Detach(item: ListItem<T>) returns (r: ListItem<T>)
      requires Valid() && item in items
      modifies this, repr`prev, repr`next
      ensures Valid() && r == item
      ensures items == Without(old(items), item) && repr == old(repr) - {item}
      ensures item.prev == null && item.next == null
    {
      ghost var was := items;
      ghost var k :| 0 <= k < |items| && items[k] == item;
      OnlyOnce(was, k);
      var prev, next := TieOff(was, k, item);
      if item == first {
        first := next;
      }
      if item == last {
        last := prev;
      }
      size := size - 1;
      Shrink(k);
      return item;
    }
  }

  /** Detaching an item that was just inserted undoes the insertion; with the items the links are the old ones,
      since a valid list's links are a function of its items. */
  method InsertThenDetach<T>(list: ListHead<T>, prev: ListItem?<T>, item: ListItem<T>)
    requires list.Valid() && (prev == null || prev in list.items)
    requires item.prev == null && item.next == null && item !in list.items
    modifies list, item`prev, item`next, list.repr`prev, list.repr`next
    ensures list.Valid() && list.items == old(list.items) && list.repr == old(list.repr) - {item}
    ensures item.prev == null && item.next == null
  {
    InsertAfterUndone<ListItem<T>>(list.items, Pointer(prev), item);
    ghost var k := 0;
    if prev != null {
      k :| 0 <= k < |list.items| && list.items[k] == prev;
      k := k + 1;
    }
    InsertAfterIndex<ListItem<T>>(list.items, Pointer(prev), item, k);
    var r := list.Insert(prev, item);
    r := list.Detach(item);
  }

  /** Two valid lists with the same items have the same head and the same links. */
  twostate lemma {:induction false} LinksFollowItems<T>(list: ListHead<T>)
    requires old(list.Valid()) && list.Valid() && list.items == old(list.items)
    ensures list.first == old(list.first) && list.last == old(list.last) && list.size == old(list.size)
    ensures forall i :: 0 <= i < |list.items| ==> list.items[i].prev == old(list.items[i].prev)
    ensures forall i :: 0 <= i < |list.items| ==> list.items[i].next == old(list.items[i].next)
  {
  }
}
