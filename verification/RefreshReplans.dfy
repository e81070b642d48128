/** A refresh that is started again from whatever an earlier attempt left on disk
    makes the same plan. */
module RefreshReplans {
  import opened Listings
  import opened Profiles
  import opened IdAssignment
  import opened Refresh
  import opened RefreshRuns

  // ---- conditions a caller can check beforehand ----

  /** Ids above the counter would be listed behind every stored profile, in the
      order in which they are drawn. */
  ghost predicate SafeOrder(g: GroupDir) {
    && (forall x, a :: x in g.files && Counter(g) < a ==> Before(g.config.order, x, a))
    && (forall a, b :: Counter(g) < a < b ==> Before(g.config.order, a, b))
  }

  /** An order list without entries above the counter is safe. */
  lemma KnownEntriesAreSafe(g: GroupDir)
    requires forall e :: e in g.config.order ==> e <= Counter(g)
    ensures SafeOrder(g)
  {
    ListedFacts(g);
  }

  /** The profile to keep is none, or one whose id was issued before. */
  ghost predicate KnownKeep(g: GroupDir, keepId: nat) {
    keepId in g.files || keepId <= Counter(g)
  }

  predicate AllConfigured(wants: seq<Incoming>) {
    forall d :: d in wants ==> Configured(d)
  }

  lemma StoredAsWanted(files: map<nat, Profile>, d: Incoming, id: nat)
    ensures StoredIdentity(NewProfile(files, d, id)) == WantedIdentity(d) <==> Configured(d)
  {
  }

  // ---- pools and counters of related disks ----

  lemma {:induction false} PoolConcat(files: map<nat, Profile>, a: seq<nat>, b: seq<nat>, kept: nat)
    requires forall id :: id in a || id in b ==> id in files
    ensures Pool(files, a + b, kept) == Pool(files, a, kept) + Pool(files, b, kept)
  {
    if a == [] {
      assert a + b == b;
    } else {
      assert a == [a[0]] + a[1..] && (a + b)[1..] == a[1..] + b;
      PoolConcat(files, a[1..], b, kept);
    }
  }

  lemma {:induction false} PoolSame(f1: map<nat, Profile>, f2: map<nat, Profile>, ids: seq<nat>, kept: nat)
    requires forall id :: id in ids ==>
               id in f1 && id in f2 && StoredIdentity(f1[id]) == StoredIdentity(f2[id])
    ensures Pool(f1, ids, kept) == Pool(f2, ids, kept)
  {
    if ids != [] {
      assert ids == [ids[0]] + ids[1..];
      PoolSame(f1, f2, ids[1..], kept);
    }
  }

  function EntryIds(f: seq<Entry>): (r: seq<nat>)
    ensures |r| == |f| && forall j :: 0 <= j < |r| ==> r[j] == f[j].id
  {
    seq(|f|, j requires 0 <= j < |f| => f[j].id)
  }

  lemma {:induction false} PoolOfEntries(files: map<nat, Profile>, f: seq<Entry>, kept: nat)
    requires forall id :: id in EntryIds(f) ==> id in files
    requires forall j :: 0 <= j < |f| ==> f[j].id != kept && f[j].id in files && StoredIdentity(files[f[j].id]) == f[j].identity
    ensures Pool(files, EntryIds(f), kept) == f
  {
    if f != [] {
      assert EntryIds(f)[1..] == EntryIds(f[1..]);
      PoolOfEntries(files, f[1..], kept);
    }
  }

  lemma {:induction false} MaxOfConcat(a: seq<nat>, b: seq<nat>, m: nat)
    ensures MaxOf(a + b, m) == MaxOf(b, MaxOf(a, m))
  {
    if a == [] {
      assert a + b == b;
    } else {
      assert (a + b)[1..] == a[1..] + b;
      MaxOfConcat(a[1..], b, if a[0] > m then a[0] else m);
    }
  }

  lemma {:induction false} MaxOfCounted(ids: seq<nat>, m: nat)
    requires forall j :: 0 <= j < |ids| ==> ids[j] == m + 1 + j
    ensures MaxOf(ids, m) == m + |ids|
  {
    if ids != [] {
      MaxOfCounted(ids[1..], m + 1);
    }
  }

  lemma {:induction false} MaxOfCovered(ids: seq<nat>, m: nat)
    requires forall id :: id in ids ==> id <= m
    ensures MaxOf(ids, m) == m
  {
    if ids != [] {
      assert ids[0] in ids && forall id :: id in ids[1..] ==> id in ids;
      MaxOfCovered(ids[1..], m);
    }
  }

  lemma {:induction false} WantsSame(g: GroupDir, h: GroupDir, kept: nat, incoming: seq<Incoming>)
    requires kept != 0 ==> kept in g.files && kept in h.files && g.files[kept] == h.files[kept]
    ensures Wants(g, kept, incoming) == Wants(h, kept, incoming)
    ensures kept != 0 ==> forall d :: d in Wants(g, kept, incoming) ==> WantedIdentity(d) != SkipTarget(g.files[kept])
  {
    if incoming != [] {
      WantsSame(g, h, kept, incoming[1..]);
    }
  }

  // ---- a stopped refresh plans the same again ----

  /** While profiles are being written, the listing grows by the fresh ids, in
      the order in which they were drawn. */
  lemma UnderwayListing(g: GroupDir, p: Plan, h: GroupDir, k: nat, f: seq<Entry>)
    requires |p.ids| == |p.wants| && PlanIds(g, p) && SafeOrder(g)
    requires k <= |p.ids| && Underway(g, p, h, k, false)
    requires forall j :: 0 <= j < |f| ==> f[j].id == Counter(g) + 1 + j && f[j].id in p.ids[..k]
    requires forall i :: 0 <= i < k ==> p.ids[i] <= Counter(g) + |f|
    ensures Listed(h) == Listed(g) + EntryIds(f)
    ensures Counter(h) == Counter(g) + |f|
  {
    hide SafeOrder, PlanIds, Underway, Before, Counter;
    var r, drawn, order, c := Listed(g), EntryIds(f), g.config.order, Counter(g);
    ListIdsIsListing(g.files.Keys, order);
    assert IsListing(h.files.Keys, order, r + drawn) by {
      UnderwayKeys(g, p, h, k, f);
      forall i, j | 0 <= i < j < |r + drawn| ensures Before(order, (r + drawn)[i], (r + drawn)[j]) {
        var x, y := (r + drawn)[i], (r + drawn)[j];
        if j < |r| {
          assert Before(order, r[i], r[j]);
        } else {
          assert y == c + 1 + (j - |r|);
          assert i < |r| ==> x == r[i] && x in r && x in g.files;
          assert i >= |r| ==> c < x < y;
          SafePair(g, x, y);
        }
      }
    }
    assert h.config == g.config by { UnderwayKeys(g, p, h, k, f); }
    ListingIff(h.files.Keys, order, r + drawn);
    assert Counter(h) == c + |f| by {
      CounterIs(g);
      CounterIs(h);
      MaxOfConcat(r, drawn, g.config.lastId);
      MaxOfCounted(drawn, c);
    }
  }

  lemma CounterIs(g: GroupDir)
    ensures Counter(g) == MaxOf(Listed(g), g.config.lastId)
  {
  }

  lemma SafePair(g: GroupDir, x: nat, y: nat)
    requires SafeOrder(g) && Counter(g) < y && (x in g.files || Counter(g) < x < y)
    ensures Before(g.config.order, x, y)
  {
  }

  lemma UnderwayKeys(g: GroupDir, p: Plan, h: GroupDir, k: nat, f: seq<Entry>)
    requires |p.ids| == |p.wants| && PlanIds(g, p)
    requires k <= |p.ids| && Underway(g, p, h, k, false)
    requires forall j :: 0 <= j < |f| ==> f[j].id == Counter(g) + 1 + j && f[j].id in p.ids[..k]
    requires forall i :: 0 <= i < k ==> p.ids[i] <= Counter(g) + |f|
    ensures h.config == g.config
    ensures forall id :: id in Listed(g) + EntryIds(f) <==> id in h.files
  {
    ListedFacts(g);
    var drawn, c := EntryIds(f), Counter(g);
    forall id ensures id in Listed(g) + drawn <==> id in h.files {
      if id in p.ids[..k] && id !in g.files {
        assert drawn[id - c - 1] == id;
      }
      if id in drawn {
        var j :| 0 <= j < |drawn| && drawn[j] == id;
        assert f[j].id == id;
      }
    }
  }

  /** The fresh entries of the first `k` profiles, as they are found on disk. */
  lemma UnderwayFresh(g: GroupDir, incoming: seq<Incoming>, keepId: nat, h: GroupDir, k: nat)
    returns (f: seq<Entry>)
    requires ValidDir(g)
    requires k <= |PlanOf(g, incoming, keepId).ids| && Underway(g, PlanOf(g, incoming, keepId), h, k, false)
    requires AllConfigured(PlanOf(g, incoming, keepId).wants)
    ensures var p := PlanOf(g, incoming, keepId);
            && f == FreshEntries(PoolOf(g, p.kept), Counter(g), Identities(p.wants), k)
            && (forall i :: 0 <= i < k ==> p.ids[i] <= Counter(g) + |f|)
            && forall j :: 0 <= j < |f| ==>
                 && f[j].id == Counter(g) + 1 + j
                 && f[j].id in p.ids[..k]
                 && f[j].id in h.files && StoredIdentity(h.files[f[j].id]) == f[j].identity
  {
    var p := PlanOf(g, incoming, keepId);
    var pool, wants, c := PoolOf(g, p.kept), Identities(p.wants), Counter(g);
    f := FreshEntries(pool, c, wants, k);
    ListedFacts(g);
    PoolEntries(g.files, Listed(g), p.kept);
    forall i | 0 <= i < k ensures p.ids[i] <= c + |f| {
      FreshIdIsCounted(pool, c, wants, k, i);
    }
    forall j | 0 <= j < |f|
      ensures f[j].id in p.ids[..k]
      ensures f[j].id in h.files && StoredIdentity(h.files[f[j].id]) == f[j].identity
    {
      var i := FreshEntryWasDrawn(pool, c, wants, k, j);
      assert p.ids[..k][i] == f[j].id;
      assert p.wants[i] in p.wants;
      StoredAsWanted(g.files, p.wants[i], p.ids[i]);
    }
  }

  /** Files written so far keep the identity filed under each old id. */
  lemma UnderwayIdentities(g: GroupDir, p: Plan, h: GroupDir, k: nat)
    requires |p.ids| == |p.wants| && PlanIds(g, p) && AllConfigured(p.wants)
    requires k <= |p.ids| && Underway(g, p, h, k, false)
    ensures forall id :: id in g.files ==> id in h.files && StoredIdentity(h.files[id]) == StoredIdentity(g.files[id])
    ensures p.kept != 0 ==> h.files[p.kept] == g.files[p.kept]
    ensures ValidDir(g) ==> ValidDir(h)
  {
    forall id | id in g.files
      ensures id in h.files && StoredIdentity(h.files[id]) == StoredIdentity(g.files[id])
    {
      if id in p.ids[..k] {
        var i :| 0 <= i < k && p.ids[i] == id;
        assert p.wants[i] in p.wants;
        StoredAsWanted(g.files, p.wants[i], id);
      }
    }
    forall id | ValidDir(g) && id in h.files ensures id != 0 && h.files[id].id == id {
      if id in p.ids[..k] {
        var i :| 0 <= i < k && p.ids[i] == id;
      }
    }
  }

  lemma UnderwayPool(g: GroupDir, p: Plan, h: GroupDir, f: seq<Entry>)
    requires p.kept <= Counter(g)
    requires forall id :: id in g.files ==> id in h.files && StoredIdentity(h.files[id]) == StoredIdentity(g.files[id])
    requires forall j :: 0 <= j < |f| ==>
               f[j].id > Counter(g) && f[j].id in h.files && StoredIdentity(h.files[f[j].id]) == f[j].identity
    requires Listed(h) == Listed(g) + EntryIds(f)
    ensures PoolOf(h, p.kept) == PoolOf(g, p.kept) + f
  {
    hide Counter;
    ListedFacts(g);
    forall id | id in EntryIds(f) ensures id in h.files {
      var j :| 0 <= j < |f| && f[j].id == id;
    }
    PoolConcat(h.files, Listed(g), EntryIds(f), p.kept);
    PoolSame(g.files, h.files, Listed(g), p.kept);
    PoolOfEntries(h.files, f, p.kept);
  }

  lemma UnderwayKeeps(g: GroupDir, p: Plan, h: GroupDir, k: nat, keepId: nat)
    requires |p.ids| == |p.wants| && PlanIds(g, p)
    requires k <= |p.ids| && Underway(g, p, h, k, false)
    requires KnownKeep(g, keepId) && p.kept == Kept(g, keepId)
    ensures Kept(h, keepId) == p.kept && p.kept <= Counter(g)
  {
    ListedFacts(g);
  }

  lemma UnderwayReplans(g: GroupDir, incoming: seq<Incoming>, keepId: nat, h: GroupDir, k: nat)
    requires ValidDir(g) && SafeOrder(g) && KnownKeep(g, keepId)
    requires k <= |PlanOf(g, incoming, keepId).ids| && Underway(g, PlanOf(g, incoming, keepId), h, k, false)
    requires AllConfigured(PlanOf(g, incoming, keepId).wants)
    ensures ValidDir(h) && PlanOf(h, incoming, keepId) == PlanOf(g, incoming, keepId)
  {
    hide Underway, SafeOrder, PlanIds, KnownKeep, AllConfigured, ValidDir, Kept, Counter, PoolOf, Listed;
    var p := PlanOf(g, incoming, keepId);
    PlanIdsHold(g, incoming, keepId);
    var f := UnderwayFresh(g, incoming, keepId, h, k);
    UnderwayListing(g, p, h, k, f);
    UnderwayIdentities(g, p, h, k);
    UnderwayKeeps(g, p, h, k, keepId);
    UnderwayPool(g, p, h, f);
    WantsSame(g, h, p.kept, incoming);
    Replay(PoolOf(g, p.kept), Counter(g), Identities(p.wants), k);
  }

  /** Once the configuration is saved, the new order leads the listing. */
  lemma SavedListing(g: GroupDir, p: Plan, h: GroupDir)
    requires |p.ids| == |p.wants| && PlanIds(g, p)
    requires Saved(g, p, h, false)
    ensures Listed(h) == NewOrder(p) + Ascending(h.files.Keys - ToSet(NewOrder(p)))
    ensures Counter(h) == p.last
  {
    var order := NewOrder(p);
    NewOrderIsDistinct(g, p);
    SavedFiles(g, p, h);
    OrderLeads(h.files.Keys, order);
    ListedFacts(h);
    MaxOfCovered(Listed(h), p.last);
  }

  lemma SavedFiles(g: GroupDir, p: Plan, h: GroupDir)
    requires |p.ids| == |p.wants| && PlanIds(g, p)
    requires Saved(g, p, h, false)
    ensures ToSet(NewOrder(p)) <= h.files.Keys
    ensures forall id :: id in h.files ==> id <= p.last
    ensures h.config.order == NewOrder(p) && h.config.lastId == p.last
  {
    ListedFacts(g);
  }

  lemma NewOrderIsDistinct(g: GroupDir, p: Plan)
    requires |p.ids| == |p.wants| && PlanIds(g, p)
    ensures Distinct(NewOrder(p))
  {
  }

  lemma SavedReplans(g: GroupDir, incoming: seq<Incoming>, keepId: nat, h: GroupDir)
    requires ValidDir(g) && KnownKeep(g, keepId)
    requires Saved(g, PlanOf(g, incoming, keepId), h, false)
    ensures ValidDir(h)
    ensures var p, q := PlanOf(g, incoming, keepId), PlanOf(h, incoming, keepId);
            q.kept == p.kept && q.wants == p.wants
    ensures AllConfigured(PlanOf(g, incoming, keepId).wants) ==>
              PlanOf(h, incoming, keepId) == PlanOf(g, incoming, keepId)
  {
    var p := PlanOf(g, incoming, keepId);
    PlanIdsHold(g, incoming, keepId);
    SavedIsValid(g, p, h);
    SavedKeeps(g, p, h, keepId);
    WantsSame(g, h, p.kept, incoming);
    if AllConfigured(p.wants) {
      SavedListing(g, p, h);
      SavedPool(g, p, h);
      var rest := Pool(h.files, Ascending(h.files.Keys - ToSet(NewOrder(p))), p.kept);
      SettledAssignment(p.ids, Identities(p.wants), rest, p.last);
    }
  }

  lemma SavedIsValid(g: GroupDir, p: Plan, h: GroupDir)
    requires |p.ids| == |p.wants| && PlanIds(g, p) && ValidDir(g) && Saved(g, p, h, false)
    ensures ValidDir(h)
  {
  }

  lemma SavedKeeps(g: GroupDir, p: Plan, h: GroupDir, keepId: nat)
    requires |p.ids| == |p.wants| && PlanIds(g, p) && Saved(g, p, h, false)
    requires KnownKeep(g, keepId) && p.kept == Kept(g, keepId)
    ensures Kept(h, keepId) == p.kept
  {
  }

  lemma SavedPool(g: GroupDir, p: Plan, h: GroupDir)
    requires |p.ids| == |p.wants| && PlanIds(g, p) && AllConfigured(p.wants)
    requires Saved(g, p, h, false)
    requires Listed(h) == NewOrder(p) + Ascending(h.files.Keys - ToSet(NewOrder(p)))
    ensures PoolOf(h, p.kept) ==
            Zip(p.ids, Identities(p.wants)) + Pool(h.files, Ascending(h.files.Keys - ToSet(NewOrder(p))), p.kept)
  {
    hide Saved, PlanIds, AllConfigured, Listed, Ascending;
    var entries, rest := Zip(p.ids, Identities(p.wants)), Ascending(h.files.Keys - ToSet(NewOrder(p)));
    SavedEntries(g, p, h);
    SavedFiles(g, p, h);
    assert EntryIds(entries) == p.ids;
    PoolOfOrder(h.files, p, entries, rest);
  }

  lemma PoolOfOrder(files: map<nat, Profile>, p: Plan, entries: seq<Entry>, rest: seq<nat>)
    requires EntryIds(entries) == p.ids
    requires forall id :: id in NewOrder(p) || id in rest ==> id in files
    requires forall j :: 0 <= j < |entries| ==>
               entries[j].id != p.kept && entries[j].id in files && StoredIdentity(files[entries[j].id]) == entries[j].identity
    ensures Pool(files, NewOrder(p) + rest, p.kept) == entries + Pool(files, rest, p.kept)
  {
    PoolOfEntries(files, entries, p.kept);
    PoolConcat(files, NewOrder(p), rest, p.kept);
    if p.kept != 0 {
      assert NewOrder(p)[1..] == p.ids;
    } else {
      assert NewOrder(p) == p.ids;
    }
  }

  lemma SavedEntries(g: GroupDir, p: Plan, h: GroupDir)
    requires |p.ids| == |p.wants| && PlanIds(g, p) && AllConfigured(p.wants)
    requires Saved(g, p, h, false)
    ensures p.kept !in p.ids
    ensures forall id :: id in p.ids ==> id in h.files
    ensures var entries := Zip(p.ids, Identities(p.wants));
            forall j :: 0 <= j < |entries| ==>
              entries[j].id != p.kept && entries[j].id in h.files && StoredIdentity(h.files[entries[j].id]) == entries[j].identity
  {
    forall j | 0 <= j < |p.ids|
      ensures StoredIdentity(h.files[p.ids[j]]) == WantedIdentity(p.wants[j])
    {
      assert p.wants[j] in p.wants;
      StoredAsWanted(g.files, p.wants[j], p.ids[j]);
    }
  }
}
