/** Filtering a listing while keeping its order. */
module Picks {

  function Pick<T(!new)>(items: seq<T>, keep: T -> bool): (picked: seq<T>)
    ensures forall x :: x in picked <==> x in items && keep(x)
  {
    if items == [] then []
    else (if keep(items[0]) then [items[0]] else []) + Pick(items[1..], keep)
  }

  lemma {:induction false} PickSame<T(!new)>(items: seq<T>, f: T -> bool, g: T -> bool)
    requires forall x :: x in items ==> f(x) == g(x)
    ensures Pick(items, f) == Pick(items, g)
  {
    if items != [] {
      PickSame(items[1..], f, g);
    }
  }

  lemma {:induction false} PickPick<T(!new)>(items: seq<T>, f: T -> bool, g: T -> bool, both: T -> bool)
    requires forall x :: x in items ==> both(x) == (f(x) && g(x))
    ensures Pick(Pick(items, f), g) == Pick(items, both)
  {
    if items != [] {
      PickPick(items[1..], f, g, both);
      PickConcat(if f(items[0]) then [items[0]] else [], Pick(items[1..], f), g);
    }
  }

  lemma {:induction false} PickConcat<T(!new)>(a: seq<T>, b: seq<T>, f: T -> bool)
    ensures Pick(a + b, f) == Pick(a, f) + Pick(b, f)
  {
    if a == [] {
      assert a + b == b;
    } else {
      assert (a + b)[1..] == a[1..] + b;
      PickConcat(a[1..], b, f);
    }
  }

  predicate Ascending(ids: seq<nat>)
  {
    forall j, k :: 0 <= j < k < |ids| ==> ids[j] < ids[k]
  }

  lemma {:induction false} PickAscending(ids: seq<nat>, f: nat -> bool)
    requires Ascending(ids)
    ensures Ascending(Pick(ids, f))
  {
    if ids != [] {
      PickAscending(ids[1..], f);
      var rest := Pick(ids[1..], f);
      forall k | 0 <= k < |rest| ensures ids[0] < rest[k] {
        assert rest[k] in ids[1..];
      }
    }
  }

  lemma {:induction false} PickAll<T(!new)>(items: seq<T>, f: T -> bool)
    requires forall x :: x in items ==> f(x)
    ensures Pick(items, f) == items
  {
    if items != [] {
      PickAll(items[1..], f);
    }
  }

  function Members(ids: seq<nat>): (s: set<nat>)
    ensures forall id :: id in s <==> id in ids
  {
    if ids == [] then {} else {ids[0]} + Members(ids[1..])
  }

  lemma {:induction false} MembersCount(ids: seq<nat>)
    requires Ascending(ids)
    ensures |Members(ids)| == |ids|
  {
    if ids != [] {
      MembersCount(ids[1..]);
      assert ids[0] !in ids[1..];
    }
  }
}
