/** The lookup tables of a refresh: old ids by URI and by provider key, with one
    cursor per identity. They implement the pool of reusable ids. */
module Cursors {
  import opened Profiles
  import opened Text
  import opened IdAssignment
  import opened Refresh
  import opened RefreshReplans

  datatype Index = Index(byUri: map<string, seq<nat>>, byKey: map<string, seq<nat>>)

  function Lookup(m: map<string, seq<nat>>, s: string): seq<nat> {
    if s in m then m[s] else []
  }

  function Candidates(x: Index, a: Identity): seq<nat> {
    match a
    case ByUri(uri) => Lookup(x.byUri, uri)
    case ByKey(key) => Lookup(x.byKey, key)
  }

  /** Positions reached in the candidate lists; absent means 0. */
  datatype Positions = Positions(nextUri: map<string, nat>, nextKey: map<string, nat>)

  function At(m: map<string, nat>, s: string): nat {
    if s in m then m[s] else 0
  }

  function Position(c: Positions, a: Identity): nat {
    match a
    case ByUri(uri) => At(c.nextUri, uri)
    case ByKey(key) => At(c.nextKey, key)
  }

  function Skipping(ids: seq<nat>, kept: nat): seq<nat> {
    if ids == [] then []
    else if ids[0] == kept then Skipping(ids[1..], kept)
    else [ids[0]] + Skipping(ids[1..], kept)
  }

  /** The tables list every stored profile under its identity. */
  ghost predicate Indexes(x: Index, files: map<nat, Profile>, ids: seq<nat>)
    requires forall id :: id in ids ==> id in files
  {
    forall a :: Candidates(x, a) == IdsOf(Pool(files, ids, 0), a)
  }

  /** What lies behind the cursors, less the kept profile, is the pool. */
  ghost predicate Synced(x: Index, c: Positions, pool: seq<Entry>, kept: nat) {
    forall a :: Position(c, a) <= |Candidates(x, a)| &&
                Skipping(Candidates(x, a)[Position(c, a)..], kept) == IdsOf(pool, a)
  }

  lemma {:induction false} KeptIsSkipped(files: map<nat, Profile>, ids: seq<nat>, kept: nat, a: Identity)
    requires forall id :: id in ids ==> id in files
    requires 0 !in ids
    ensures Skipping(IdsOf(Pool(files, ids, 0), a), kept) == IdsOf(Pool(files, ids, kept), a)
  {
    if ids != [] {
      assert ids == [ids[0]] + ids[1..];
      KeptIsSkipped(files, ids[1..], kept, a);
    }
  }

  lemma StartsSynced(x: Index, files: map<nat, Profile>, ids: seq<nat>, kept: nat)
    requires forall id :: id in ids ==> id in files
    requires 0 !in ids && Indexes(x, files, ids)
    ensures Synced(x, Positions(map[], map[]), Pool(files, ids, kept), kept)
  {
    forall a
      ensures Skipping(Candidates(x, a)[0..], kept) == IdsOf(Pool(files, ids, kept), a)
    {
      KeptIsSkipped(files, ids, kept, a);
      assert Candidates(x, a)[0..] == Candidates(x, a);
    }
  }

  /** Filing one more profile under its identity. */
  function File(x: Index, p: Profile): Index {
    if p.managed then x.(byKey := x.byKey[p.providerKey := Lookup(x.byKey, p.providerKey) + [p.id]])
    else
      var uri := TrimSpace(p.uri);
      x.(byUri := x.byUri[uri := Lookup(x.byUri, uri) + [p.id]])
  }

  lemma FileExtends(x: Index, files: map<nat, Profile>, ids: seq<nat>, id: nat)
    requires forall i :: i in ids ==> i in files
    requires id in files && files[id].id == id && id != 0
    requires Indexes(x, files, ids)
    ensures Indexes(File(x, files[id]), files, ids + [id])
  {
    var own := StoredIdentity(files[id]);
    PoolConcat(files, ids, [id], 0);
    assert Pool(files, [id], 0) == [Entry(id, own)];
    forall a ensures Candidates(File(x, files[id]), a) == IdsOf(Pool(files, ids + [id], 0), a) {
      IdsOfConcat(Pool(files, ids, 0), [Entry(id, own)], a);
      assert Candidates(x, a) == IdsOf(Pool(files, ids, 0), a);
    }
  }

  /** The cursor loop of one identity: skip used candidates, stop at the first
      unused one. */
  method NextUnused(candidates: seq<nat>, start: nat, used: set<nat>) returns (id: nat, next: nat)
    requires start <= |candidates| && 0 !in candidates
    ensures start <= next <= |candidates|
    ensures forall k :: start <= k < (if id == 0 then next else next - 1) ==> candidates[k] in used
    ensures id == 0 ==> next == |candidates|
    ensures id != 0 ==> start < next && candidates[next - 1] == id && id !in used
  {
    id, next := 0, start;
    while id == 0
      invariant start <= next <= |candidates|
      invariant forall k :: start <= k < (if id == 0 then next else next - 1) ==> candidates[k] in used
      invariant id != 0 ==> start < next && candidates[next - 1] == id && id !in used
      decreases |candidates| - next + (if id == 0 then 1 else 0)
    {
      if next >= |candidates| {
        break;
      }
      next := next + 1;
      if candidates[next - 1] !in used {
        id := candidates[next - 1];
      }
    }
  }

  /** Skipping stops at the head of what is left of the pool. */
  lemma {:induction false} SkipTo(candidates: seq<nat>, start: nat, next: nat, id: nat, used: set<nat>, kept: nat)
    requires start <= next <= |candidates|
    requires forall k :: start <= k < (if id == 0 then next else next - 1) ==> candidates[k] in used
    requires id == 0 ==> next == |candidates|
    requires id != 0 ==> start < next && candidates[next - 1] == id && id !in used
    requires forall x :: x in Skipping(candidates[start..], kept) ==> x !in used
    requires kept != 0 ==> kept in used
    requires 0 !in candidates
    ensures Skipping(candidates[start..], kept) ==
            if id == 0 then [] else [id] + Skipping(candidates[next..], kept)
    decreases next - start
  {
    if start < next {
      var rest := candidates[start..];
      assert rest[1..] == candidates[start + 1..] && rest[0] == candidates[start];
      if !(id != 0 && start == next - 1) {
        SkipTo(candidates, start + 1, next, id, used, kept);
      }
    }
  }

  /** Looking up the id for one incoming entry takes it from the pool. */
  method PickId(x: Index, c: Positions, used: set<nat>, data: Incoming, ghost pool: seq<Entry>, kept: nat)
    returns (id: nat, c': Positions)
    requires Synced(x, c, pool, kept)
    requires forall a :: 0 !in Candidates(x, a)
    requires forall e :: e in pool ==> e.id !in used
    requires kept != 0 ==> kept in used
    ensures Synced(x, c', Take(pool, WantedIdentity(data)), kept)
    ensures var own := IdsOf(pool, WantedIdentity(data)); id == if own == [] then 0 else own[0]
  {
    ghost var a := WantedIdentity(data);
    if data.managed {
      var next;
      assert Candidates(x, a) == Lookup(x.byKey, data.providerKey) && Position(c, a) == At(c.nextKey, data.providerKey);
      id, next := NextUnused(Lookup(x.byKey, data.providerKey), At(c.nextKey, data.providerKey), used);
      c' := c.(nextKey := c.nextKey[data.providerKey := next]);
    } else {
      var uri, next := TrimSpace(data.uri), 0;
      assert Candidates(x, a) == Lookup(x.byUri, uri) && Position(c, a) == At(c.nextUri, uri);
      id, next := NextUnused(Lookup(x.byUri, uri), At(c.nextUri, uri), used);
      c' := c.(nextUri := c.nextUri[uri := next]);
    }
    PickedFromPool(x, c, c', used, pool, kept, a, id);
  }

  lemma PickedFromPool(x: Index, c: Positions, c': Positions, used: set<nat>, pool: seq<Entry>, kept: nat, a: Identity, id: nat)
    requires Synced(x, c, pool, kept)
    requires forall b :: 0 !in Candidates(x, b)
    requires forall e :: e in pool ==> e.id !in used
    requires kept != 0 ==> kept in used
    requires forall b :: b != a ==> Position(c', b) == Position(c, b)
    requires var start, next := Position(c, a), Position(c', a);
             && start <= next <= |Candidates(x, a)|
             && (forall k :: start <= k < (if id == 0 then next else next - 1) ==> Candidates(x, a)[k] in used)
             && (id == 0 ==> next == |Candidates(x, a)|)
             && (id != 0 ==> start < next && Candidates(x, a)[next - 1] == id && id !in used)
    ensures Synced(x, c', Take(pool, a), kept)
    ensures var own := IdsOf(pool, a); id == if own == [] then 0 else own[0]
  {
    var candidates := Candidates(x, a);
    forall i | i in IdsOf(pool, a) ensures i !in used {
      IdsOfInPool(pool, a, i);
    }
    SkipTo(candidates, Position(c, a), Position(c', a), id, used, kept);
    assert candidates[|candidates|..] == [];
    forall b
      ensures Position(c', b) <= |Candidates(x, b)|
      ensures Skipping(Candidates(x, b)[Position(c', b)..], kept) == IdsOf(Take(pool, a), b)
    {
      TakeDropsOne(pool, a, b);
    }
  }
}
