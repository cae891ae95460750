/** Sequence operations that the kernel's intrusive lists refine. */
module Sequences {

  datatype Option<+T> = None | Some(value: T)

  /** No element occurs twice. */
  ghost predicate Distinct<T>(s: seq<T>) {
    forall i, j :: 0 <= i < j < |s| ==> s[i] != s[j]
  }

  /** `s` after its first occurrence of `x` is taken out. */
  function Without<T(==)>(s: seq<T>, x: T): seq<T> {
    if s == [] then []
    else if s[0] == x then s[1..]
    else [s[0]] + Without(s[1..], x)
  }

  lemma {:induction false} WithoutCount<T>(s: seq<T>, x: T, y: T)
    ensures multiset(Without(s, x))[y] == if y == x && y in s then multiset(s)[y] - 1 else multiset(s)[y]
    ensures y in Without(s, x) <==> multiset(Without(s, x))[y] > 0
  {
    if s != [] {
      assert s == [s[0]] + s[1..];
      WithoutCount(s[1..], x, y);
    }
    assert y in s <==> y in multiset(s);
    assert y in Without(s, x) <==> y in multiset(Without(s, x));
  }

  lemma {:induction false} WithoutAbsent<T>(s: seq<T>, x: T)
    requires x !in s
    ensures Without(s, x) == s
  {
    if s != [] {
      WithoutAbsent(s[1..], x);
    }
  }

  /** `s` after everything in `gone` is taken out; the rest keeps its order. */
  function Keep<T(==)>(s: seq<T>, gone: seq<T>): seq<T> {
    if s == [] then []
    else if s[0] in gone then Keep(s[1..], gone)
    else [s[0]] + Keep(s[1..], gone)
  }

  lemma {:induction false} KeepCount<T>(s: seq<T>, gone: seq<T>, y: T)
    ensures multiset(Keep(s, gone))[y] == if y in gone then 0 else multiset(s)[y]
    ensures y in Keep(s, gone) <==> y in s && y !in gone
  {
    if s != [] {
      assert s == [s[0]] + s[1..];
      KeepCount(s[1..], gone, y);
    }
    assert y in s <==> y in multiset(s);
    assert y in Keep(s, gone) <==> y in multiset(Keep(s, gone));
  }

  /** Taking out one more element that occurs at most once. */
  lemma {:induction false} KeepThenWithout<T>(s: seq<T>, gone: seq<T>, x: T)
    requires multiset(s)[x] <= 1
    ensures Without(Keep(s, gone), x) == Keep(s, gone + [x])
  {
    if s != [] {
      HeadCount(s);
      KeepThenWithout(s[1..], gone, x);
      if s[0] == x {
        assert x !in s[1..] by { assert x in s[1..] <==> x in multiset(s[1..]); }
        KeepAbsent(s[1..], gone, x);
        KeepCount(s[1..], gone, x);
        WithoutAbsent(Keep(s[1..], gone), x);
      }
    }
  }

  lemma {:induction false} KeepAbsent<T>(s: seq<T>, gone: seq<T>, x: T)
    requires x !in s
    ensures Keep(s, gone + [x]) == Keep(s, gone)
  {
    if s != [] {
      KeepAbsent(s[1..], gone, x);
    }
  }

  lemma {:induction false} KeepAll<T>(s: seq<T>)
    ensures Keep(s, []) == s
  {
    if s != [] {
      KeepAll(s[1..]);
      assert s == [s[0]] + s[1..];
    }
  }

  lemma {:induction false} WithoutAt<T>(s: seq<T>, x: T, k: nat)
    requires k < |s| && s[k] == x && x !in s[..k]
    ensures Without(s, x) == s[..k] + s[k + 1..]
  {
    if k > 0 {
      assert s[1..][..k - 1] == s[..k][1..];
      WithoutAt(s[1..], x, k - 1);
      assert s[..k] == [s[0]] + s[1..][..k - 1];
    }
  }

  /** Where the elements of `s` are once the one at `k` is taken out. */
  lemma {:induction false} WithoutIndex<T>(s: seq<T>, k: nat)
    requires Distinct(s) && k < |s|
    ensures var r := Without(s, s[k]);
      && |r| == |s| - 1 && s[k] !in r && Distinct(r)
      && (forall i :: 0 <= i < k ==> r[i] == s[i])
      && (forall i :: k <= i < |r| ==> r[i] == s[i + 1])
  {
    assert s[k] !in s[..k];
    WithoutAt(s, s[k], k);
    var r := s[..k] + s[k + 1..];
    forall i, j | 0 <= i < j < |r| ensures r[i] != r[j] {
      assert r[i] == s[if i < k then i else i + 1] && r[j] == s[if j < k then j else j + 1];
    }
  }

  lemma {:induction false} HeadOfDistinct<T>(s: seq<T>, x: T)
    requires Distinct(s) && s != []
    ensures Distinct(s[1..]) && (x in s[1..] <==> x in s && x != s[0])
  {
    assert s == [s[0]] + s[1..];
    if x in s[1..] {
      var i :| 0 <= i < |s[1..]| && s[1..][i] == x;
      assert s[i + 1] == x;
    }
  }

  /** The members that are left when one of distinct elements is taken out. */
  lemma {:induction false} DropMembers<T>(s: seq<T>, d: T, x: T)
    requires Distinct(s) && d in s
    ensures Distinct(Without(s, d)) && (x in Without(s, d) <==> x in s && x != d)
  {
    var k :| 0 <= k < |s| && s[k] == d;
    WithoutIndex(s, k);
    WithoutCount(s, d, x);
    assert x in s <==> x in multiset(s);
  }

  /** `List_insert`: `x` behind `prev`, or at the front when there is no `prev`. */
  function InsertAfter<T(==)>(s: seq<T>, prev: Option<T>, x: T): seq<T> {
    if prev.None? || s == [] then [x] + s
    else if s[0] == prev.value then [s[0], x] + s[1..]
    else [s[0]] + InsertAfter(s[1..], prev, x)
  }

  lemma {:induction false} InsertAfterAt<T>(s: seq<T>, k: nat, x: T)
    requires k < |s| && s[k] !in s[..k]
    ensures InsertAfter(s, Some(s[k]), x) == s[..k + 1] + [x] + s[k + 1..]
  {
    if k > 0 {
      assert s[1..][..k - 1] == s[..k][1..];
      InsertAfterAt(s[1..], k - 1, x);
      assert s[..k + 1] == [s[0]] + s[1..][..k];
    }
  }

  /** How many elements come before the place behind `prev`. */
  ghost predicate IsPlace<T>(s: seq<T>, prev: Option<T>, k: nat) {
    k <= |s| && if prev.None? then k == 0 else k > 0 && s[k - 1] == prev.value
  }

  lemma {:induction false} InsertAfterIndex<T>(s: seq<T>, prev: Option<T>, x: T, k: nat)
    requires Distinct(s) && x !in s && IsPlace(s, prev, k)
    ensures var r := InsertAfter(s, prev, x);
      && |r| == |s| + 1 && r[k] == x && Distinct(r)
      && (forall i :: 0 <= i < k ==> r[i] == s[i])
      && (forall i :: k < i < |r| ==> r[i] == s[i - 1])
  {
    if k > 0 {
      assert s[k - 1] !in s[..k - 1];
      InsertAfterAt(s, k - 1, x);
    }
    var r := s[..k] + [x] + s[k..];
    assert InsertAfter(s, prev, x) == r;
    forall i, j | 0 <= i < j < |r| ensures r[i] != r[j] {
      assert i != k ==> r[i] == s[if i < k then i else i - 1];
      assert j != k ==> r[j] == s[if j < k then j else j - 1];
    }
  }

  /** Taking out what was inserted. */
  lemma {:induction false} InsertAfterUndone<T>(s: seq<T>, prev: Option<T>, x: T)
    requires x !in s
    ensures Without(InsertAfter(s, prev, x), x) == s
  {
    if !(prev.None? || s == [] || s[0] == prev.value) {
      InsertAfterUndone(s[1..], prev, x);
      assert s == [s[0]] + s[1..];
    } else if prev.Some? && s != [] {
      assert s == [s[0]] + s[1..];
      assert [s[0], x] + s[1..] == [s[0]] + ([x] + s[1..]);
      assert Without([x] + s[1..], x) == s[1..];
    }
  }

  lemma {:induction false} HeadCount<T>(s: seq<T>)
    requires s != []
    ensures multiset(s) == multiset{s[0]} + multiset(s[1..])
  {
    assert s == [s[0]] + s[1..];
  }
}
