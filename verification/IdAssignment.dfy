/** How a refresh hands ids to the entries of a subscription: entries of one
    identity consume the old ids of that identity in listing order, and what is
    left over gets the next ids of the counter. */
module IdAssignment {
  import opened Listings
  import opened Profiles

  /** An old id that may be reused, with the identity it is filed under. */
  datatype Entry = Entry(id: nat, identity: Identity)

  datatype Assignment = Assignment(ids: seq<nat>, last: nat)

  function IdsOf(pool: seq<Entry>, a: Identity): seq<nat> {
    if pool == [] then []
    else if pool[0].identity == a then [pool[0].id] + IdsOf(pool[1..], a)
    else IdsOf(pool[1..], a)
  }

  /** The pool without its first entry of identity `a`. */
  function Take(pool: seq<Entry>, a: Identity): seq<Entry> {
    if pool == [] then []
    else if pool[0].identity == a then pool[1..]
    else [pool[0]] + Take(pool[1..], a)
  }

  function Assign(pool: seq<Entry>, last: nat, wants: seq<Identity>): (r: Assignment)
    ensures |r.ids| == |wants| && last <= r.last
    decreases wants
  {
    if wants == [] then Assignment([], last)
    else
      var own := IdsOf(pool, wants[0]);
      if own != [] then
        var r := Assign(Take(pool, wants[0]), last, wants[1..]);
        Assignment([own[0]] + r.ids, r.last)
      else
        var r := Assign(pool, last + 1, wants[1..]);
        Assignment([last + 1] + r.ids, r.last)
  }

  /** No id is filed twice. */
  predicate Unique(pool: seq<Entry>) {
    pool == [] || ((forall e :: e in pool[1..] ==> e.id != pool[0].id) && Unique(pool[1..]))
  }

  predicate Below(pool: seq<Entry>, last: nat) {
    forall e :: e in pool ==> e.id <= last
  }

  // ---- pool arithmetic ----

  lemma IdsOfCons(e: Entry, rest: seq<Entry>, a: Identity)
    ensures IdsOf([e] + rest, a) == if e.identity == a then [e.id] + IdsOf(rest, a) else IdsOf(rest, a)
    ensures IdsOf([], a) == []
  {
    assert ([e] + rest)[1..] == rest;
  }

  lemma TakeCons(e: Entry, rest: seq<Entry>, a: Identity)
    ensures Take([e] + rest, a) == if e.identity == a then rest else [e] + Take(rest, a)
    ensures Take([], a) == []
  {
    assert ([e] + rest)[1..] == rest;
  }

  lemma {:induction false} IdsOfConcat(p: seq<Entry>, q: seq<Entry>, a: Identity)
    ensures IdsOf(p + q, a) == IdsOf(p, a) + IdsOf(q, a)
  {
    hide IdsOf;
    if p == [] {
      assert p + q == q;
      IdsOfCons(Entry(0, a), [], a);
    } else {
      var e, tail := p[0], p[1..];
      assert p == [e] + tail && p + q == [e] + (tail + q);
      IdsOfCons(e, tail, a);
      IdsOfCons(e, tail + q, a);
      IdsOfConcat(tail, q, a);
    }
  }

  lemma Regroup(e: Entry, p: seq<Entry>, q: seq<Entry>)
    ensures [e] + (p + q) == ([e] + p) + q
  {
  }

  lemma {:induction false} TakeConcat(p: seq<Entry>, q: seq<Entry>, a: Identity)
    ensures Take(p + q, a) == if IdsOf(p, a) != [] then Take(p, a) + q else p + Take(q, a)
  {
    hide *;
    if p == [] {
      assert p + q == q && p + Take(q, a) == Take(q, a);
      IdsOfCons(Entry(0, a), [], a);
    } else {
      var e, tail := p[0], p[1..];
      assert p == [e] + tail;
      Regroup(e, tail, q);
      IdsOfCons(e, tail, a);
      TakeCons(e, tail, a);
      TakeCons(e, tail + q, a);
      if e.identity != a {
        TakeConcat(tail, q, a);
        Regroup(e, Take(tail, a), q);
        Regroup(e, tail, Take(q, a));
      }
    }
  }

  lemma {:induction false} TakeDropsOne(pool: seq<Entry>, a: Identity, b: Identity)
    ensures IdsOf(Take(pool, a), b) ==
            if a == b && IdsOf(pool, a) != [] then IdsOf(pool, a)[1..] else IdsOf(pool, b)
    ensures forall e :: e in Take(pool, a) ==> e in pool
    ensures IdsOf(pool, a) != [] ==>
              forall e :: e in pool ==> e in Take(pool, a) || e == Entry(IdsOf(pool, a)[0], a)
  {
    if pool != [] && pool[0].identity != a {
      TakeDropsOne(pool[1..], a, b);
      assert Take(pool, a)[1..] == Take(pool[1..], a);
    }
    assert pool != [] ==> pool == [pool[0]] + pool[1..];
  }

  lemma {:induction false} IdsOfInPool(pool: seq<Entry>, a: Identity, id: nat)
    ensures id in IdsOf(pool, a) <==> Entry(id, a) in pool
  {
    if pool != [] {
      IdsOfInPool(pool[1..], a, id);
      assert pool == [pool[0]] + pool[1..];
    }
  }

  lemma {:induction false} TakeKeepsUnique(pool: seq<Entry>, a: Identity)
    requires Unique(pool)
    ensures Unique(Take(pool, a))
    ensures IdsOf(pool, a) != [] ==> forall e :: e in Take(pool, a) ==> e.id != IdsOf(pool, a)[0]
  {
    if pool != [] && pool[0].identity != a {
      TakeKeepsUnique(pool[1..], a);
      TakeDropsOne(pool[1..], a, a);
      if IdsOf(pool[1..], a) != [] {
        IdsOfInPool(pool[1..], a, IdsOf(pool[1..], a)[0]);
      }
      assert Take(pool, a)[1..] == Take(pool[1..], a);
    }
  }

  /** The pool and the counter that are left after the first want. */
  function NextPool(pool: seq<Entry>, a: Identity): seq<Entry> {
    if IdsOf(pool, a) != [] then Take(pool, a) else pool
  }

  function NextLast(pool: seq<Entry>, last: nat, a: Identity): nat {
    if IdsOf(pool, a) != [] then last else last + 1
  }

  /** The id of each want, one step of the assignment at a time. */
  lemma AssignAt(pool: seq<Entry>, last: nat, wants: seq<Identity>, i: nat)
    requires i < |wants|
    ensures var a, ids := wants[0], Assign(pool, last, wants).ids;
            ids[i] == if i > 0 then Assign(NextPool(pool, a), NextLast(pool, last, a), wants[1..]).ids[i - 1]
                      else if IdsOf(pool, a) != [] then IdsOf(pool, a)[0] else last + 1
  {
    hide IdsOf, Take;
  }

  // ---- where assigned ids come from ----

  /** Every id handed out is an old id of the very identity asked for, or lies
      above the counter. */
  lemma {:induction false} AssignedFrom(pool: seq<Entry>, last: nat, wants: seq<Identity>, i: nat)
    requires i < |wants|
    ensures var r := Assign(pool, last, wants);
            Entry(r.ids[i], wants[i]) in pool || last < r.ids[i] <= r.last
    decreases wants
  {
    var a := wants[0];
    var own := IdsOf(pool, a);
    if own != [] {
      IdsOfInPool(pool, a, own[0]);
      TakeDropsOne(pool, a, a);
      if i > 0 {
        AssignedFrom(Take(pool, a), last, wants[1..], i - 1);
      }
    } else if i > 0 {
      AssignedFrom(pool, last + 1, wants[1..], i - 1);
    }
  }

  /** No id is handed out twice. */
  lemma {:induction false} AssignedDistinct(pool: seq<Entry>, last: nat, wants: seq<Identity>)
    requires Unique(pool) && Below(pool, last)
    ensures Distinct(Assign(pool, last, wants).ids)
    decreases wants
  {
    if wants != [] {
      var a := wants[0];
      var own := IdsOf(pool, a);
      var rest := if own != [] then Take(pool, a) else pool;
      var next := if own != [] then last else last + 1;
      if own != [] {
        IdsOfInPool(pool, a, own[0]);
        TakeKeepsUnique(pool, a);
        TakeDropsOne(pool, a, a);
      }
      AssignedDistinct(rest, next, wants[1..]);
      var r, s := Assign(pool, last, wants), Assign(rest, next, wants[1..]);
      assert r.ids == [r.ids[0]] + s.ids;
      forall i | 0 <= i < |s.ids| ensures s.ids[i] != r.ids[0] {
        AssignedFrom(rest, next, wants[1..], i);
      }
    }
  }

  /** How many of the first `k` wants are `a`. */
  function Count(wants: seq<Identity>, k: nat, a: Identity): nat
    requires k <= |wants|
    decreases k
  {
    if k == 0 then 0 else (if wants[0] == a then 1 else 0) + Count(wants[1..], k - 1, a)
  }

  /** The n-th entry of an identity gets the n-th old id of that identity, and a
      fresh id when there are no more. */
  lemma {:induction false} NthOccurrenceGetsNthId(pool: seq<Entry>, last: nat, wants: seq<Identity>, i: nat)
    requires i < |wants|
    ensures var n, own := Count(wants, i, wants[i]), IdsOf(pool, wants[i]);
            && (n < |own| ==> Assign(pool, last, wants).ids[i] == own[n])
            && (|own| <= n ==> last < Assign(pool, last, wants).ids[i])
    decreases wants
  {
    hide IdsOf, Take, Assign;
    var a := wants[0];
    AssignAt(pool, last, wants, i);
    if i > 0 {
      TakeDropsOne(pool, a, wants[i]);
      NthOccurrenceGetsNthId(NextPool(pool, a), NextLast(pool, last, a), wants[1..], i - 1);
    }
  }

  // ---- replaying an assignment ----

  /** The entries that the fresh ids of the first `k` wants create, in the order
      those ids are drawn. */
  function FreshEntries(pool: seq<Entry>, last: nat, wants: seq<Identity>, k: nat): (f: seq<Entry>)
    requires k <= |wants|
    ensures forall j :: 0 <= j < |f| ==> f[j].id == last + 1 + j
    decreases k
  {
    if k == 0 then []
    else if IdsOf(pool, wants[0]) != [] then FreshEntries(Take(pool, wants[0]), last, wants[1..], k - 1)
    else [Entry(last + 1, wants[0])] + FreshEntries(pool, last + 1, wants[1..], k - 1)
  }

  lemma FreshUnfold(pool: seq<Entry>, last: nat, wants: seq<Identity>, k: nat)
    requires 0 < k <= |wants|
    ensures var rest := FreshEntries(NextPool(pool, wants[0]), NextLast(pool, last, wants[0]), wants[1..], k - 1);
            FreshEntries(pool, last, wants, k) == if IdsOf(pool, wants[0]) != [] then rest else [Entry(last + 1, wants[0])] + rest
  {
    hide IdsOf, Take;
  }

  /** Nothing the first `k` receive lies above the fresh entries they create. */
  lemma {:induction false} FreshIdIsCounted(pool: seq<Entry>, last: nat, wants: seq<Identity>, k: nat, i: nat)
    requires i < k <= |wants|
    requires Below(pool, last)
    ensures Assign(pool, last, wants).ids[i] <= last + |FreshEntries(pool, last, wants, k)|
    decreases k
  {
    hide IdsOf, Take, Assign, FreshEntries;
    var a := wants[0];
    AssignAt(pool, last, wants, i);
    FreshUnfold(pool, last, wants, k);
    if IdsOf(pool, a) != [] {
      IdsOfInPool(pool, a, IdsOf(pool, a)[0]);
      TakeDropsOne(pool, a, a);
    }
    if i > 0 {
      FreshIdIsCounted(NextPool(pool, a), NextLast(pool, last, a), wants[1..], k - 1, i - 1);
    }
  }

  /** Each fresh entry was drawn by one of the first `k`. */
  lemma {:induction false} FreshEntryWasDrawn(pool: seq<Entry>, last: nat, wants: seq<Identity>, k: nat, j: nat)
    returns (i: nat)
    requires k <= |wants| && j < |FreshEntries(pool, last, wants, k)|
    ensures i < k
    ensures Entry(Assign(pool, last, wants).ids[i], wants[i]) == FreshEntries(pool, last, wants, k)[j]
    decreases k
  {
    i := 0;
    if IdsOf(pool, wants[0]) != [] {
      i := FreshEntryWasDrawn(Take(pool, wants[0]), last, wants[1..], k - 1, j);
      i := i + 1;
    } else if j > 0 {
      i := FreshEntryWasDrawn(pool, last + 1, wants[1..], k - 1, j - 1);
      i := i + 1;
    }
  }

  /** Filing the fresh entries of the first `k` wants behind the old pool and
      starting over hands out the same ids and ends at the same counter. */
  lemma {:induction false} Replay(pool: seq<Entry>, last: nat, wants: seq<Identity>, k: nat)
    requires k <= |wants|
    ensures var f := FreshEntries(pool, last, wants, k);
            Assign(pool + f, last + |f|, wants) == Assign(pool, last, wants)
    decreases k
  {
    hide *;
    var f := FreshEntries(pool, last, wants, k);
    if k == 0 {
      NothingFresh(pool, last, wants);
      assert pool + f == pool;
    } else {
      var a := wants[0];
      var pool', last' := NextPool(pool, a), NextLast(pool, last, a);
      var f' := FreshEntries(pool', last', wants[1..], k - 1);
      FreshUnfold(pool, last, wants, k);
      ReplayFirst(pool, last, a, f, f');
      Replay(pool', last', wants[1..], k - 1);
      AssignUnfold(pool, last, wants);
      AssignUnfold(pool + f, last + |f|, wants);
    }
  }

  lemma NothingFresh(pool: seq<Entry>, last: nat, wants: seq<Identity>)
    ensures FreshEntries(pool, last, wants, 0) == []
  {
  }

  function FirstId(pool: seq<Entry>, last: nat, a: Identity): nat {
    if IdsOf(pool, a) != [] then IdsOf(pool, a)[0] else last + 1
  }

  lemma AssignUnfold(pool: seq<Entry>, last: nat, wants: seq<Identity>)
    requires wants != []
    ensures var r := Assign(NextPool(pool, wants[0]), NextLast(pool, last, wants[0]), wants[1..]);
            Assign(pool, last, wants) == Assignment([FirstId(pool, last, wants[0])] + r.ids, r.last)
  {
    hide IdsOf, Take;
  }

  /** The first want draws the same id from the old pool and from the pool in which the
      fresh entries are filed, and leaves pools that are related in the same way. */
  lemma ReplayFirst(pool: seq<Entry>, last: nat, a: Identity, f: seq<Entry>, f': seq<Entry>)
    requires f == if IdsOf(pool, a) != [] then f' else [Entry(last + 1, a)] + f'
    ensures FirstId(pool + f, last + |f|, a) == FirstId(pool, last, a)
    ensures NextPool(pool + f, a) == NextPool(pool, a) + f'
    ensures NextLast(pool + f, last + |f|, a) == NextLast(pool, last, a) + |f'|
  {
    hide IdsOf, Take;
    IdsOfConcat(pool, f, a);
    TakeConcat(pool, f, a);
    IdsOfCons(Entry(last + 1, a), f', a);
    TakeCons(Entry(last + 1, a), f', a);
  }

  function Zip(ids: seq<nat>, wants: seq<Identity>): (z: seq<Entry>)
    requires |ids| == |wants|
    ensures |z| == |ids| && forall i :: 0 <= i < |z| ==> z[i] == Entry(ids[i], wants[i])
  {
    seq(|ids|, i requires 0 <= i < |ids| => Entry(ids[i], wants[i]))
  }

  /** Ids that are already filed in the order asked for are handed out again,
      and the counter stays. */
  lemma {:induction false} SettledAssignment(ids: seq<nat>, wants: seq<Identity>, rest: seq<Entry>, last: nat)
    requires |ids| == |wants|
    ensures Assign(Zip(ids, wants) + rest, last, wants) == Assignment(ids, last)
  {
    if wants != [] {
      var pool := Zip(ids, wants) + rest;
      assert pool[1..] == Zip(ids[1..], wants[1..]) + rest;
      SettledAssignment(ids[1..], wants[1..], rest, last);
      assert ids == [ids[0]] + ids[1..];
    }
  }
}
