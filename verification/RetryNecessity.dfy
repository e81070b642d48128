/** The conditions under which a stopped refresh can be repeated are not just
    sufficient: each of them is needed. */
module RetryNecessity {
  import opened Listings
  import opened Profiles
  import opened IdAssignment
  import opened Refresh
  import opened Fates
  import opened RefreshRuns
  import opened RefreshReplans
  import opened RefreshLaws

  // ---- stopping after a number of operations ----

  function StopAt(m: nat): nat -> Fate {
    n => if n < m then Done else Crashed
  }

  function ApplyAll(g: GroupDir, ops: seq<Op>): GroupDir
    decreases ops
  {
    if ops == [] then g else ApplyAll(Apply(g, ops[0]), ops[1..])
  }

  lemma {:induction false} RunUpTo(g: GroupDir, before: seq<Op>, after: seq<Op>, n: nat)
    requires after != []
    ensures Run(g, before + after, StopAt(n + |before|), n).disk == ApplyAll(g, before)
    decreases before
  {
    if before == [] {
      assert before + after == after;
    } else {
      assert (before + after)[1..] == before[1..] + after;
      RunUpTo(Apply(g, before[0]), before[1..], after, n + 1);
    }
  }

  /** The operation neither stores nor drops anything under `id`. */
  predicate SparesXray(op: Op, id: nat) {
    op != DropXray(id) && (op.WriteXray? ==> op.id != id)
  }

  predicate SparesFile(op: Op, id: nat) {
    op.WriteProfile? ==> op.profile.id != id
  }

  lemma {:induction false} XraySpared(g: GroupDir, ops: seq<Op>, id: nat)
    requires forall op :: op in ops ==> SparesXray(op, id)
    ensures SameXray(ApplyAll(g, ops).xray, g.xray, id)
    decreases ops
  {
    if ops != [] {
      assert ops[0] in ops && forall op :: op in ops[1..] ==> op in ops;
      XraySpared(Apply(g, ops[0]), ops[1..], id);
    }
  }

  lemma {:induction false} FileDropped(g: GroupDir, ops: seq<Op>, id: nat)
    requires forall op :: op in ops ==> SparesFile(op, id)
    requires DropProfile(id) in ops || id !in g.files
    ensures id !in ApplyAll(g, ops).files
    decreases ops
  {
    if ops != [] {
      assert ops == [ops[0]] + ops[1..];
      assert ops[0] in ops && forall op :: op in ops[1..] ==> op in ops;
      FileDropped(Apply(g, ops[0]), ops[1..], id);
    }
  }

  // ---- a removal torn between the profile and its configuration ----

  lemma {:induction false} ProfileOpsSpare(files: map<nat, Profile>, wants: seq<Incoming>, ids: seq<nat>, id: nat)
    requires |wants| == |ids| && id !in ids
    ensures forall op :: op in ProfileOps(files, wants, ids) ==> SparesXray(op, id) && SparesFile(op, id)
  {
    if wants != [] {
      assert ids == [ids[0]] + ids[1..];
      ProfileOpsSpare(files, wants[1..], ids[1..], id);
    }
  }

  lemma {:induction false} StalePosition(listed: seq<nat>, used: seq<nat>, id: nat) returns (before: seq<Op>, after: seq<Op>)
    requires Distinct(listed) && id in listed && id !in used
    ensures StaleOps(listed, used) == before + after && after != []
    ensures DropProfile(id) in before
    ensures forall op :: op in before ==> SparesXray(op, id) && SparesFile(op, id)
    decreases listed
  {
    assert listed == [listed[0]] + listed[1..];
    if listed[0] == id {
      before, after := [DropProfile(id)], [DropXray(id)] + StaleOps(listed[1..], used);
    } else {
      before, after := StalePosition(listed[1..], used, id);
      if listed[0] !in used {
        before := [DropProfile(listed[0]), DropXray(listed[0])] + before;
      }
    }
  }

  /** The operations before the configuration of stale profile `id` is dropped. */
  lemma BeforeDrop(g: GroupDir, p: Plan, id: nat) returns (before: seq<Op>, after: seq<Op>)
    requires |p.ids| == |p.wants| && id in g.files && id !in NewOrder(p)
    ensures RefreshOps(g, p) == before + after && after != []
    ensures DropProfile(id) in before
    ensures forall op :: op in before ==> SparesXray(op, id) && SparesFile(op, id)
  {
    hide NewConfig, NewOrder;
    ListedFacts(g);
    var first := ProfileOps(g.files, p.wants, p.ids) + [SaveConfig(NewConfig(g, p))];
    var rest;
    rest, after := StalePosition(Listed(g), NewOrder(p), id);
    ProfileOpsSpare(g.files, p.wants, p.ids, id);
    before := first + rest;
    assert RefreshOps(g, p) == before + after;
  }

  lemma TornRemoval(g: GroupDir, incoming: seq<Incoming>, keepId: nat, id: nat) returns (m: nat)
    requires ValidDir(g)
    requires id in g.files && id in g.xray && id !in NewOrder(PlanOf(g, incoming, keepId))
    ensures id in Orphans(g, Interrupted(g, incoming, keepId, StopAt(m)))
  {
    hide RefreshOps, PlanOf, NewOrder, Run, ApplyAll;
    var p := PlanOf(g, incoming, keepId);
    var before, after := BeforeDrop(g, p, id);
    m := |before|;
    RunUpTo(g, before, after, 0);
    XraySpared(g, before, id);
    FileDropped(g, before, id);
  }

  /** A refresh can be stopped anywhere and repeated with exactly the same outcome
      if and only if its entries can be stored as what they are and none of the
      profiles it removes has a stored configuration. */
  lemma RetryIsExact(g: GroupDir, incoming: seq<Incoming>, keepId: nat)
    requires ValidDir(g) && SafeOrder(g) && KnownKeep(g, keepId)
    ensures (forall fate: nat -> Fate ::
               Refreshed(Interrupted(g, incoming, keepId, fate), incoming, keepId) == Refreshed(g, incoming, keepId))
            <==>
            (&& AllStorable(g, incoming, keepId)
             && forall id :: id in g.files && id in g.xray ==> id in NewOrder(PlanOf(g, incoming, keepId)))
  {
    hide *;
    var p, full := PlanOf(g, incoming, keepId), Refreshed(g, incoming, keepId);
    if AllStorable(g, incoming, keepId) {
      if forall id :: id in g.files && id in g.xray ==> id in NewOrder(p) {
        forall fate: nat -> Fate
          ensures Refreshed(Interrupted(g, incoming, keepId, fate), incoming, keepId) == full
        {
          RetryConverges(g, incoming, keepId, fate);
          NoConfigurationLost(g, incoming, keepId, fate);
        }
      } else {
        var id: nat :| id in g.files && id in g.xray && id !in NewOrder(p);
        var m := TornRemoval(g, incoming, keepId, id);
        RetryConverges(g, incoming, keepId, StopAt(m));
      }
    } else {
      RefreshTwice(g, incoming, keepId);
      RunToTheEnd(g, incoming, keepId);
    }
  }

  lemma RunToTheEnd(g: GroupDir, incoming: seq<Incoming>, keepId: nat)
    ensures Interrupted(g, incoming, keepId, AllDone) == Refreshed(g, incoming, keepId)
  {
  }

  lemma NoConfigurationLost(g: GroupDir, incoming: seq<Incoming>, keepId: nat, fate: nat -> Fate)
    requires ValidDir(g) && SafeOrder(g) && KnownKeep(g, keepId) && AllStorable(g, incoming, keepId)
    requires forall id :: id in g.files && id in g.xray ==> id in NewOrder(PlanOf(g, incoming, keepId))
    ensures Orphans(g, Interrupted(g, incoming, keepId, fate)) == map[]
  {
    var p, h := PlanOf(g, incoming, keepId), Interrupted(g, incoming, keepId, fate);
    hide Interrupted, PlanOf, PlanIds, Alike, SafeOrder, KnownKeep, ValidDir, Written;
    StoppedIsAlike(g, incoming, keepId, fate);
    AnyInterruption(g, incoming, keepId, fate);
    assert forall id :: id in g.files && id !in h.files ==> id !in NewOrder(p);
    assert forall id :: id !in Orphans(g, h);
  }

  // ---- an order list that names ids not yet issued ----

  lemma {:induction false} UniformAssignment(pool: seq<Entry>, last: nat, wants: seq<Identity>, a: Identity, i: nat)
    requires i < |wants| && forall j :: 0 <= j < |wants| ==> wants[j] == a
    ensures var own := IdsOf(pool, a);
            Assign(pool, last, wants).ids[i] == if i < |own| then own[i] else last + 1 + (i - |own|)
    decreases wants
  {
    TakeDropsOne(pool, a, a);
    if i > 0 {
      if IdsOf(pool, a) != [] {
        UniformAssignment(Take(pool, a), last, wants[1..], a, i - 1);
      } else {
        UniformAssignment(pool, last + 1, wants[1..], a, i - 1);
      }
    }
  }

  lemma {:induction false} AllWritten(g: GroupDir, p: Plan, h: GroupDir, k: nat)
    requires |p.ids| == |p.wants| && PlanIds(g, p)
    requires k <= |p.ids| && Underway(g, p, h, k, false)
    ensures Underway(g, p, ApplyAll(h, ProfileOps(g.files, p.wants[k..], p.ids[k..])), |p.ids|, false)
    decreases |p.ids| - k
  {
    hide Underway, PlanIds;
    var ops := ProfileOps(g.files, p.wants[k..], p.ids[k..]);
    if k < |p.ids| {
      assert p.wants[k..][1..] == p.wants[k + 1..] && p.ids[k..][1..] == p.ids[k + 1..];
      var write, store := WriteProfile(NewProfile(g.files, p.wants[k], p.ids[k])), StoreOp(g, p, k);
      var rest := ProfileOps(g.files, p.wants[k + 1..], p.ids[k + 1..]);
      assert ops == [write, store] + rest && ops[1..][1..] == rest;
      WriteStep(g, p, h, k, false);
      StoreStep(g, p, h, Apply(h, write), k, false);
      AllWritten(g, p, Apply(Apply(h, write), store), k + 1);
    }
  }

  lemma {:induction false} PoolIsSorted(files: map<nat, Profile>, ids: seq<nat>, kept: nat, order: seq<nat>, a: Identity)
    requires SortedFor(order, ids) && forall id :: id in ids ==> id in files
    ensures SortedFor(order, IdsOf(Pool(files, ids, kept), a))
    ensures forall id :: id in IdsOf(Pool(files, ids, kept), a) ==> id in ids
  {
    if ids != [] {
      assert ids == [ids[0]] + ids[1..];
      PoolIsSorted(files, ids[1..], kept, order, a);
      var tail := IdsOf(Pool(files, ids[1..], kept), a);
      forall j | 0 <= j < |tail| ensures Before(order, ids[0], tail[j]) {
        assert tail[j] in tail;
        var i :| 0 <= i < |ids[1..]| && ids[1..][i] == tail[j];
        assert Before(order, ids[0], ids[i + 1]);
      }
    }
  }

  function Copies(d: Incoming, n: nat): (r: seq<Incoming>)
    ensures |r| == n && forall i :: 0 <= i < n ==> r[i] == d
  {
    seq(n, i => d)
  }

  lemma {:induction false} WantsAll(g: GroupDir, incoming: seq<Incoming>)
    ensures Wants(g, 0, incoming) == incoming
  {
    if incoming != [] {
      WantsAll(g, incoming[1..]);
    }
  }

  /** The plan for `n` copies of one entry: the old ids of its identity, then
      fresh ids up to the new counter. */
  lemma CopiesPlan(g: GroupDir, d: Incoming, n: nat)
    ensures var p, own := PlanOf(g, Copies(d, n), 0), IdsOf(PoolOf(g, 0), WantedIdentity(d));
            && p.kept == 0 && p.wants == Copies(d, n)
            && forall i :: 0 <= i < n ==>
                 p.ids[i] == if i < |own| then own[i] else Counter(g) + 1 + (i - |own|)
  {
    WantsAll(g, Copies(d, n));
    var wants := Identities(Copies(d, n));
    forall i | 0 <= i < n
      ensures var own := IdsOf(PoolOf(g, 0), WantedIdentity(d));
              PlanOf(g, Copies(d, n), 0).ids[i] == if i < |own| then own[i] else Counter(g) + 1 + (i - |own|)
    {
      UniformAssignment(PoolOf(g, 0), Counter(g), wants, WantedIdentity(d), i);
    }
  }

  /** If repeating a refresh of copies that stopped before its configuration was
      saved gives the order of an uninterrupted run, then that order follows the
      stored order list. */
  lemma EqualPlansAreSorted(g: GroupDir, d: Incoming, n: nat, h: GroupDir)
    requires |PlanOf(g, Copies(d, n), 0).ids| == n
    requires ValidDir(g) && Underway(g, PlanOf(g, Copies(d, n), 0), h, n, false)
    requires PlanOf(h, Copies(d, n), 0).ids == PlanOf(g, Copies(d, n), 0).ids
    ensures SortedFor(g.config.order, PlanOf(g, Copies(d, n), 0).ids)
  {
    var p, a := PlanOf(g, Copies(d, n), 0), WantedIdentity(d);
    var own := IdsOf(PoolOf(h, 0), a);
    CopiesPlan(h, d, n);
    ListIdsIsListing(h.files.Keys, h.config.order);
    PoolIsSorted(h.files, Listed(h), 0, h.config.order, a);
    assert h.config.order == g.config.order;
    ListedFacts(h);
    forall i | 0 <= i < n ensures i < |own| && p.ids[i] == own[i] {
      assert p.ids[i] in p.ids[..n];
      assert p.ids[i] <= Counter(h);
    }
  }

  /** Stopping just before the configuration is saved. */
  lemma StopBeforeSave(g: GroupDir, incoming: seq<Incoming>, keepId: nat) returns (m: nat)
    requires ValidDir(g)
    ensures var p := PlanOf(g, incoming, keepId);
            Underway(g, p, Interrupted(g, incoming, keepId, StopAt(m)), |p.ids|, false)
  {
    hide RefreshOps, Underway, PlanIds, PlanOf, NewOrder, NewConfig, ProfileOps, StaleOps, Run, ApplyAll, Listed;
    var p := PlanOf(g, incoming, keepId);
    var ops := ProfileOps(g.files, p.wants, p.ids);
    PlanIdsHold(g, incoming, keepId);
    assert p.wants[0..] == p.wants && p.ids[0..] == p.ids;
    NothingWritten(g, p, false);
    AllWritten(g, p, g, 0);
    m := |ops|;
    SplitOps(g, p);
    RunUpTo(g, ops, [SaveConfig(NewConfig(g, p))] + StaleOps(Listed(g), NewOrder(p)), 0);
  }

  /** The retry of a stopped refresh ends with the same configuration and files. */
  ghost predicate Repeatable(g: GroupDir, incoming: seq<Incoming>, keepId: nat, fate: nat -> Fate) {
    var full, again := Refreshed(g, incoming, keepId), Refreshed(Interrupted(g, incoming, keepId, fate), incoming, keepId);
    again.config == full.config && again.files == full.files
  }

  /** Where a refresh of `n` copies lists `x`. */
  lemma CopiesDraw(g: GroupDir, d: Incoming, n: nat, x: nat) returns (i: nat)
    requires ValidDir(g)
    requires n >= |IdsOf(PoolOf(g, 0), WantedIdentity(d))|
    requires if x in g.files then StoredIdentity(g.files[x]) == WantedIdentity(d)
             else Counter(g) < x <= Counter(g) + (n - |IdsOf(PoolOf(g, 0), WantedIdentity(d))|)
    ensures i < n == |PlanOf(g, Copies(d, n), 0).ids| && PlanOf(g, Copies(d, n), 0).ids[i] == x
    ensures x in g.files ==> i < |IdsOf(PoolOf(g, 0), WantedIdentity(d))|
    ensures x !in g.files ==> i == |IdsOf(PoolOf(g, 0), WantedIdentity(d))| + (x - Counter(g) - 1)
  {
    var own := IdsOf(PoolOf(g, 0), WantedIdentity(d));
    CopiesPlan(g, d, n);
    if x in g.files {
      ListedFacts(g);
      PoolEntries(g.files, Listed(g), 0);
      IdsOfInPool(PoolOf(g, 0), WantedIdentity(d), x);
      i :| 0 <= i < |own| && own[i] == x;
    } else {
      i := |own| + (x - Counter(g) - 1);
    }
  }

  lemma OrdersDiffer(g: GroupDir, h: GroupDir, incoming: seq<Incoming>)
    requires ValidDir(g) && ValidDir(h)
    requires PlanOf(g, incoming, 0).ids != PlanOf(h, incoming, 0).ids
    ensures Refreshed(g, incoming, 0).config.order != Refreshed(h, incoming, 0).config.order
  {
    hide PlanOf, Refreshed;
    RefreshedOrder(g, incoming);
    RefreshedOrder(h, incoming);
  }

  lemma RefreshedOrder(g: GroupDir, incoming: seq<Incoming>)
    requires ValidDir(g)
    ensures Refreshed(g, incoming, 0).config.order == PlanOf(g, incoming, 0).ids
  {
    RefreshedIsFinished(g, incoming, 0);
    assert NewOrder(PlanOf(g, incoming, 0)) == PlanOf(g, incoming, 0).ids;
  }

  /** Two ids that a refresh of enough copies of `d` lists the other way round. */
  lemma DivergingCopies(g: GroupDir, d: Incoming, x: nat, a: nat) returns (n: nat, m: nat)
    requires ValidDir(g) && Configured(d)
    requires Counter(g) < a && !Before(g.config.order, x, a)
    requires if x in g.files then StoredIdentity(g.files[x]) == WantedIdentity(d) else Counter(g) < x < a
    ensures AllStorable(g, Copies(d, n), 0)
    ensures !Repeatable(g, Copies(d, n), 0, StopAt(m))
  {
    hide Before, Counter, PoolOf, IdsOf, Underway, Interrupted, Refreshed, PlanOf, PlanIds;
    n := |IdsOf(PoolOf(g, 0), WantedIdentity(d))| + (a - Counter(g));
    ListedFacts(g);
    CopiesPlan(g, d, n);
    var p := PlanOf(g, Copies(d, n), 0);
    PlanIdsHold(g, Copies(d, n), 0);
    m := StopBeforeSave(g, Copies(d, n), 0);
    var h := Interrupted(g, Copies(d, n), 0, StopAt(m));
    var q := PlanOf(h, Copies(d, n), 0);
    UnderwayIdentities(g, p, h, n);
    PlanWants(g, Copies(d, n), 0);
    var i := CopiesDraw(g, d, n, x);
    var j := CopiesDraw(g, d, n, a);
    assert q.ids != p.ids by {
      assert !SortedFor(g.config.order, p.ids);
      UnsortedPlansDiffer(g, d, n, h);
    }
    OrdersDiffer(g, h, Copies(d, n));
  }

  lemma UnsortedPlansDiffer(g: GroupDir, d: Incoming, n: nat, h: GroupDir)
    requires |PlanOf(g, Copies(d, n), 0).ids| == n
    requires ValidDir(g) && Underway(g, PlanOf(g, Copies(d, n), 0), h, n, false)
    requires !SortedFor(g.config.order, PlanOf(g, Copies(d, n), 0).ids)
    ensures PlanOf(h, Copies(d, n), 0).ids != PlanOf(g, Copies(d, n), 0).ids
  {
    hide *;
    if PlanOf(h, Copies(d, n), 0).ids == PlanOf(g, Copies(d, n), 0).ids {
      EqualPlansAreSorted(g, d, n, h);
    }
  }

  /** Every refresh of a group can be stopped anywhere and repeated if and only if
      its stored order would list the ids not yet issued last and ascending. */
  lemma RetryNeedsSafeOrder(g: GroupDir)
    requires ValidDir(g)
    ensures SafeOrder(g) <==>
            forall incoming: seq<Incoming>, keepId: nat, fate: nat -> Fate ::
              KnownKeep(g, keepId) && AllStorable(g, incoming, keepId) ==> Repeatable(g, incoming, keepId, fate)
  {
    if SafeOrder(g) {
      forall incoming: seq<Incoming>, keepId: nat, fate: nat -> Fate |
          KnownKeep(g, keepId) && AllStorable(g, incoming, keepId)
        ensures Repeatable(g, incoming, keepId, fate)
      {
        RetryConverges(g, incoming, keepId, fate);
      }
    } else {
      var x: nat, a: nat :|
        Counter(g) < a && (x in g.files || Counter(g) < x < a) && !Before(g.config.order, x, a);
      var d := if x in g.files then Resubscribed(g.files[x]) else Resubscribed(Profile(1, 0, "", "", Endpoint("", "", "", 0), "", false, "", UNTESTED));
      ListedFacts(g);
      var n, m := DivergingCopies(g, d, x, a);
      assert KnownKeep(g, 0);
    }
  }

  /** A subscription entry for the server of a stored profile. */
  function Resubscribed(p: Profile): (d: Incoming)
    ensures WantedIdentity(d) == StoredIdentity(p) && Configured(d)
  {
    Incoming(p.groupId, p.nanoId, p.name, p.endpoint, p.uri, p.managed, p.providerKey, "{}")
  }
}
