/** The order in which stored entries are listed: a possibly stale, partial or
    repeating order list first, the entries it misses afterwards in ascending
    order of id. Groups and the profiles of one group are both listed this way. */
module Listings {

  /** Position of the first occurrence of `id`, or `|order|` when it is missing. */
  function FirstIndex(order: seq<nat>, id: nat): (i: nat)
    ensures i <= |order|
    ensures i < |order| ==> order[i] == id
    ensures id in order <==> i < |order|
    ensures id !in order[..i]
  {
    if order == [] then 0
    else if order[0] == id then 0
    else 1 + FirstIndex(order[1..], id)
  }

  /** Listed ids come first, by first occurrence; the others ascend. */
  predicate Before(order: seq<nat>, a: nat, b: nat) {
    var fa, fb := FirstIndex(order, a), FirstIndex(order, b);
    fa < fb || (fa == fb && a < b)
  }

  predicate SortedFor(order: seq<nat>, r: seq<nat>) {
    forall i, j :: 0 <= i < j < |r| ==> Before(order, r[i], r[j])
  }

  predicate Distinct(r: seq<nat>) {
    forall i, j :: 0 <= i < j < |r| ==> r[i] != r[j]
  }

  /** What a listing of the stored `ids` under `order` is, said without computing
      one: every stored id once, in the order above. */
  ghost predicate IsListing(ids: set<nat>, order: seq<nat>, r: seq<nat>) {
    && (forall x :: x in r <==> x in ids)
    && SortedFor(order, r)
  }

  function ToSet(s: seq<nat>): set<nat> {
    set x | x in s
  }

  // ---- the listing as the readers build it ----

  /** First pass: known ids by first occurrence; each one taken is struck out. */
  function Ordered(ids: set<nat>, order: seq<nat>): (r: seq<nat>)
    ensures forall x :: x in r <==> x in ids && x in order
  {
    if order == [] then []
    else if order[0] in ids then [order[0]] + Ordered(ids - {order[0]}, order[1..])
    else Ordered(ids, order[1..])
  }

  ghost function Least(s: set<nat>): (m: nat)
    requires s != {}
    ensures m in s && forall x :: x in s ==> m <= x
    decreases |s|
  {
    var a :| a in s;
    if s == {a} then a
    else
      var m := Least(s - {a});
      assert forall x :: x in s ==> x == a || x in s - {a};
      if a < m then a else m
  }

  predicate Increasing(r: seq<nat>) {
    forall i, j :: 0 <= i < j < |r| ==> r[i] < r[j]
  }

  lemma LeastFirst(s: set<nat>, m: nat, rest: seq<nat>)
    requires m in s && forall x :: x in s ==> m <= x
    requires (forall x :: x in rest <==> x in s - {m}) && Increasing(rest)
    ensures (forall x :: x in [m] + rest <==> x in s) && Increasing([m] + rest)
  {
    forall j | 0 <= j < |rest| ensures m < rest[j] {
      assert rest[j] in rest;
    }
    assert forall x :: x in [m] + rest <==> x == m || x in rest;
  }

  /** Second pass: the remaining ids, sorted. */
  ghost function Ascending(s: set<nat>): (r: seq<nat>)
    ensures (forall x :: x in r <==> x in s) && Increasing(r)
    decreases |s|
  {
    if s == {} then []
    else
      var m := Least(s);
      LeastFirst(s, m, Ascending(s - {m}));
      [m] + Ascending(s - {m})
  }

  ghost function ListIds(ids: set<nat>, order: seq<nat>): seq<nat> {
    Ordered(ids, order) + Ascending(ids - ToSet(order))
  }

  // ---- the built listing is the one described, and there is only one ----

  lemma {:induction false} OrderedIsSorted(ids: set<nat>, order: seq<nat>)
    ensures SortedFor(order, Ordered(ids, order))
  {
    if order != [] {
      var rest := if order[0] in ids then ids - {order[0]} else ids;
      OrderedIsSorted(rest, order[1..]);
      var tail := Ordered(rest, order[1..]);
      assert order[0] !in tail;
      forall i, j | 0 <= i < j < |tail| ensures Before(order, tail[i], tail[j]) {
        assert tail[i] in tail && tail[j] in tail;
        assert Before(order[1..], tail[i], tail[j]);
      }
    }
  }

  lemma ListIdsIsListing(ids: set<nat>, order: seq<nat>)
    ensures IsListing(ids, order, ListIds(ids, order))
  {
    OrderedIsSorted(ids, order);
    var a, b := Ordered(ids, order), Ascending(ids - ToSet(order));
    forall i, j | 0 <= i < |a| && 0 <= j < |b| ensures Before(order, a[i], b[j]) {
      assert a[i] in a && b[j] in b;
    }
    forall i, j | 0 <= i < j < |b| ensures Before(order, b[i], b[j]) {
      assert b[i] in b && b[j] in b;
    }
  }

  lemma ListingIsDistinct(ids: set<nat>, order: seq<nat>, r: seq<nat>)
    requires IsListing(ids, order, r)
    ensures Distinct(r)
  {
  }

  lemma HeadIsFirst(ids: set<nat>, order: seq<nat>, r: seq<nat>)
    requires IsListing(ids, order, r) && r != []
    ensures r[0] in ids
    ensures forall x :: x in ids ==> x == r[0] || Before(order, r[0], x)
  {
  }

  /** Both listings start with the id that precedes all the others. */
  lemma {:induction false} ListingIsUnique(ids: set<nat>, order: seq<nat>, r: seq<nat>, s: seq<nat>)
    requires IsListing(ids, order, r) && IsListing(ids, order, s)
    ensures r == s
    decreases |r|
  {
    assert |s| > 0 ==> s[0] in s && s[0] in r;
    if r != [] {
      HeadIsFirst(ids, order, r);
      assert r[0] in s;
      HeadIsFirst(ids, order, s);
      TailIsListing(ids, order, r);
      TailIsListing(ids, order, s);
      ListingIsUnique(ids - {r[0]}, order, r[1..], s[1..]);
      assert r == [r[0]] + r[1..] && s == [s[0]] + s[1..];
    }
  }

  lemma TailIsListing(ids: set<nat>, order: seq<nat>, r: seq<nat>)
    requires IsListing(ids, order, r) && r != []
    ensures IsListing(ids - {r[0]}, order, r[1..])
  {
  }

  /** A listing under any order list is exactly the sequence the readers build. */
  lemma ListingIff(ids: set<nat>, order: seq<nat>, r: seq<nat>)
    ensures IsListing(ids, order, r) <==> r == ListIds(ids, order)
  {
    ListIdsIsListing(ids, order);
    if IsListing(ids, order, r) {
      ListingIsUnique(ids, order, r, ListIds(ids, order));
    }
  }

  /** Reordering can neither hide nor repeat an entry, and listing once more
      under the order that was just produced changes nothing. */
  lemma ListingNormalises(ids: set<nat>, order: seq<nat>)
    ensures Distinct(ListIds(ids, order)) && ToSet(ListIds(ids, order)) == ids
    ensures ListIds(ids, ListIds(ids, order)) == ListIds(ids, order)
  {
    var r := ListIds(ids, order);
    ListIdsIsListing(ids, order);
    ListingIsDistinct(ids, order, r);
    OrderIsItsOwnListing(r);
    ListingIff(ids, r, r);
  }

  lemma OrderIsItsOwnListing(r: seq<nat>)
    requires Distinct(r)
    ensures IsListing(ToSet(r), r, r)
    ensures forall i :: 0 <= i < |r| ==> FirstIndex(r, r[i]) == i
  {
  }

  /** A complete order without repetition leads the listing of any larger set. */
  lemma OrderLeads(ids: set<nat>, order: seq<nat>)
    requires Distinct(order) && ToSet(order) <= ids
    ensures ListIds(ids, order) == order + Ascending(ids - ToSet(order))
  {
    var rest := Ascending(ids - ToSet(order));
    OrderIsItsOwnListing(order);
    forall i, j | 0 <= i < j < |order + rest| ensures Before(order, (order + rest)[i], (order + rest)[j]) {
      if j < |order| {
        assert FirstIndex(order, order[i]) == i && FirstIndex(order, order[j]) == j;
      } else {
        assert (order + rest)[j] == rest[j - |order|] && rest[j - |order|] in rest;
        assert i < |order| ==> FirstIndex(order, order[i]) == i;
        assert i >= |order| ==> rest[i - |order|] in rest;
      }
    }
    ListingIff(ids, order, order + rest);
  }
}
