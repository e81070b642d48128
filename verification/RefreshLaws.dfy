/** The promises of a subscription refresh: a stopped refresh can be repeated, a
    repeated refresh changes nothing, ids are stable, and the connected profile
    stays. */
module RefreshLaws {
  import opened Listings
  import opened Profiles
  import opened Refresh
  import opened Fates
  import opened RefreshRuns
  import opened RefreshReplans

  // ---- two finished refreshes of one plan ----

  /** All that the outcome of plan `p` depends on is the same on both disks. */
  ghost predicate Alike(g: GroupDir, p: Plan, h: GroupDir)
    requires |p.ids| == |p.wants|
  {
    && NewConfig(h, p) == NewConfig(g, p)
    && (p.kept != 0 ==> p.kept in g.files && p.kept in h.files && h.files[p.kept] == g.files[p.kept])
    && (forall i :: 0 <= i < |p.ids| ==>
          NewProfile(h.files, p.wants[i], p.ids[i]) == NewProfile(g.files, p.wants[i], p.ids[i]))
    && (forall id :: id in h.files ==> id in g.files || id in p.ids)
    && (forall id :: id !in p.ids && (id == p.kept || id !in g.files) ==> SameXray(h.xray, g.xray, id))
  }

  lemma UnderwayIsAlike(g: GroupDir, p: Plan, h: GroupDir, k: nat)
    requires |p.ids| == |p.wants| && PlanIds(g, p) && AllConfigured(p.wants)
    requires k <= |p.ids| && Underway(g, p, h, k, false)
    ensures Alike(g, p, h)
  {
    UnderwayIdentities(g, p, h, k);
    forall i | 0 <= i < |p.ids|
      ensures NewProfile(h.files, p.wants[i], p.ids[i]) == NewProfile(g.files, p.wants[i], p.ids[i])
    {
      assert p.wants[i] in p.wants;
      StoredAsWanted(g.files, p.wants[i], p.ids[i]);
      if p.ids[i] in p.ids[..k] {
        var j :| 0 <= j < k && p.ids[j] == p.ids[i];
      }
    }
    assert forall id :: id in p.ids[..k] ==> id in p.ids;
  }

  lemma SavedIsAlike(g: GroupDir, p: Plan, h: GroupDir)
    requires |p.ids| == |p.wants| && PlanIds(g, p) && AllConfigured(p.wants)
    requires Saved(g, p, h, false)
    ensures Alike(g, p, h)
  {
    forall i | 0 <= i < |p.ids|
      ensures NewProfile(h.files, p.wants[i], p.ids[i]) == NewProfile(g.files, p.wants[i], p.ids[i])
    {
      assert p.wants[i] in p.wants;
      StoredAsWanted(g.files, p.wants[i], p.ids[i]);
    }
  }

  /** Stored configurations whose profile file is gone. */
  ghost function Orphans(g: GroupDir, h: GroupDir): map<nat, string> {
    map id | id in h.xray && id in g.files && id !in h.files :: h.xray[id]
  }

  lemma FinishedFileAt(g: GroupDir, p: Plan, h: GroupDir, full: GroupDir, again: GroupDir, id: nat)
    requires |p.ids| == |p.wants| && PlanIds(g, p) && Alike(g, p, h)
    requires Finished(g, p, full) && Finished(h, p, again)
    ensures id in again.files <==> id in full.files
    ensures id in full.files ==> again.files[id] == full.files[id]
  {
    hide NewProfile, NewConfig, SameXray, XrayStored, Counter;
    if id in p.ids {
      var i :| 0 <= i < |p.ids| && p.ids[i] == id;
      assert again.files[p.ids[i]] == NewProfile(h.files, p.wants[i], p.ids[i]);
    }
  }

  lemma FinishedXrayAt(g: GroupDir, p: Plan, h: GroupDir, full: GroupDir, again: GroupDir, id: nat)
    requires |p.ids| == |p.wants| && PlanIds(g, p) && Alike(g, p, h)
    requires Finished(g, p, full) && Finished(h, p, again)
    ensures id in Orphans(g, h) && id !in NewOrder(p) ==>
              id !in full.xray && id in again.xray && again.xray[id] == h.xray[id]
    ensures !(id in Orphans(g, h) && id !in NewOrder(p)) ==> SameXray(again.xray, full.xray, id)
  {
    hide NewProfile, PlanIds, NewConfig, NewOrder, Counter;
    if id in p.ids {
      var i :| 0 <= i < |p.ids| && p.ids[i] == id;
      assert XrayStored(again.xray, p.ids[i], p.wants[i]) && XrayStored(full.xray, p.ids[i], p.wants[i]);
    } else if id == p.kept || id !in g.files {
      assert SameXray(h.xray, g.xray, id) && SameXray(full.xray, g.xray, id);
      assert id == p.kept || id !in h.files;
      assert SameXray(again.xray, h.xray, id);
    } else {
      assert id !in full.xray;
      if id !in h.files {
        assert SameXray(again.xray, h.xray, id);
      }
    }
  }

  lemma FinishedConfigs(g: GroupDir, p: Plan, h: GroupDir, full: GroupDir, again: GroupDir)
    requires |p.ids| == |p.wants| && Alike(g, p, h)
    requires Finished(g, p, full) && Finished(h, p, again)
    ensures again.config == full.config
  {
  }

  lemma FinishedAlike(g: GroupDir, p: Plan, h: GroupDir, full: GroupDir, again: GroupDir)
    requires |p.ids| == |p.wants| && PlanIds(g, p) && Alike(g, p, h)
    requires forall id :: id in NewOrder(p) && id in g.files ==> id in h.files
    requires Finished(g, p, full) && Finished(h, p, again)
    ensures again.config == full.config && again.files == full.files
    ensures again.xray == full.xray + Orphans(g, h)
    ensures forall id :: id in Orphans(g, h) ==> id !in full.xray
  {
    hide Finished, Alike, PlanIds;
    assert again.config == full.config by { FinishedConfigs(g, p, h, full, again); }
    forall id
      ensures id in again.files <==> id in full.files
      ensures id in full.files ==> again.files[id] == full.files[id]
    {
      FinishedFileAt(g, p, h, full, again, id);
    }
    forall id
      ensures id in Orphans(g, h) ==> id !in full.xray && id in again.xray && again.xray[id] == h.xray[id]
      ensures id !in Orphans(g, h) ==> SameXray(again.xray, full.xray, id)
    {
      FinishedXrayAt(g, p, h, full, again, id);
    }
  }

  // ---- repeating a refresh ----

  /** The entries a refresh really imports can all be stored as what they are. */
  predicate AllStorable(g: GroupDir, incoming: seq<Incoming>, keepId: nat) {
    AllConfigured(Wants(g, Kept(g, keepId), incoming))
  }

  lemma StoppedIsAlike(g: GroupDir, incoming: seq<Incoming>, keepId: nat, fate: nat -> Fate)
    requires ValidDir(g) && SafeOrder(g) && KnownKeep(g, keepId) && AllStorable(g, incoming, keepId)
    ensures var p, h := PlanOf(g, incoming, keepId), Interrupted(g, incoming, keepId, fate);
            && PlanIds(g, p) && Alike(g, p, h) && ValidDir(h) && PlanOf(h, incoming, keepId) == p
            && forall id :: id in NewOrder(p) && id in g.files ==> id in h.files
  {
    var p, h := PlanOf(g, incoming, keepId), Interrupted(g, incoming, keepId, fate);
    PlanIdsHold(g, incoming, keepId);
    AnyInterruption(g, incoming, keepId, fate);
    if Saved(g, p, h, false) {
      SavedReplans(g, incoming, keepId, h);
      SavedIsAlike(g, p, h);
    } else {
      var k :| 0 <= k <= |p.ids| && Underway(g, p, h, k, false);
      UnderwayReplans(g, incoming, keepId, h, k);
      UnderwayIsAlike(g, p, h, k);
    }
  }

  /** Wherever a refresh stops, running it again ends with the group configuration
      and profile files of an uninterrupted run. Stored configurations differ by
      those whose profile file had been removed just before the stop. */
  lemma RetryConverges(g: GroupDir, incoming: seq<Incoming>, keepId: nat, fate: nat -> Fate)
    requires ValidDir(g) && SafeOrder(g) && KnownKeep(g, keepId) && AllStorable(g, incoming, keepId)
    ensures var full, h := Refreshed(g, incoming, keepId), Interrupted(g, incoming, keepId, fate);
            var again := Refreshed(h, incoming, keepId);
            && again.config == full.config && again.files == full.files
            && again.xray == full.xray + Orphans(g, h) && (forall id :: id in Orphans(g, h) ==> id !in full.xray)
            && (again == full <==> Orphans(g, h) == map[])
  {
    hide *;
    var p, h := PlanOf(g, incoming, keepId), Interrupted(g, incoming, keepId, fate);
    var full, again := Refreshed(g, incoming, keepId), Refreshed(h, incoming, keepId);
    StoppedIsAlike(g, incoming, keepId, fate);
    RefreshedIsFinished(g, incoming, keepId);
    RefreshedIsFinished(h, incoming, keepId);
    FinishedAlike(g, p, h, full, again);
    NothingAdded(full.xray, Orphans(g, h));
  }

  lemma NothingAdded(a: map<nat, string>, b: map<nat, string>)
    requires forall id :: id in b ==> id !in a
    ensures a + b == a <==> b == map[]
  {
  }

  // ---- any number of stopped attempts ----

  /** The disk after attempts that end as `fates` say, one after the other. */
  ghost function Attempts(g: GroupDir, incoming: seq<Incoming>, keepId: nat, fates: seq<nat -> Fate>): GroupDir
    decreases |fates|
  {
    if fates == [] then g else Attempts(Interrupted(g, incoming, keepId, fates[0]), incoming, keepId, fates[1..])
  }

  /** What a refresh needs to be repeatable. */
  ghost predicate Retriable(g: GroupDir, incoming: seq<Incoming>, keepId: nat) {
    ValidDir(g) && SafeOrder(g) && KnownKeep(g, keepId) && AllStorable(g, incoming, keepId)
  }

  lemma {:induction false} MaxIsMember(ids: seq<nat>, m: nat)
    ensures MaxOf(ids, m) == m || MaxOf(ids, m) in ids
  {
    if ids != [] {
      assert ids == [ids[0]] + ids[1..];
      MaxIsMember(ids[1..], if ids[0] > m then ids[0] else m);
    }
  }

  lemma CounterGrows(g: GroupDir, h: GroupDir)
    requires g.config.lastId <= h.config.lastId && forall id :: id in g.files ==> id in h.files
    ensures Counter(g) <= Counter(h)
  {
    ListedFacts(g);
    ListedFacts(h);
    CounterIs(g);
    hide Counter, Listed;
    MaxIsMember(Listed(g), g.config.lastId);
  }

  lemma UnderwayStaysSafe(g: GroupDir, p: Plan, h: GroupDir, k: nat, keepId: nat)
    requires |p.ids| == |p.wants| && PlanIds(g, p) && SafeOrder(g) && KnownKeep(g, keepId)
    requires k <= |p.ids| && Underway(g, p, h, k, false)
    ensures SafeOrder(h) && KnownKeep(h, keepId)
  {
    CounterGrows(g, h);
    ListedFacts(h);
    hide Counter, Before, SameXray, NewProfile, Listed;
    forall x, a | x in h.files && Counter(h) < a ensures Before(h.config.order, x, a) {
      if x !in g.files {
        assert Counter(g) < x <= Counter(h);
      }
    }
  }

  lemma SavedStaysSafe(g: GroupDir, p: Plan, h: GroupDir, keepId: nat)
    requires |p.ids| == |p.wants| && PlanIds(g, p) && KnownKeep(g, keepId) && p.kept == Kept(g, keepId)
    requires Saved(g, p, h, false)
    ensures SafeOrder(h) && KnownKeep(h, keepId)
  {
    SavedListing(g, p, h);
    SavedFiles(g, p, h);
    ListedFacts(g);
    hide Counter, Listed, Saved, SafeOrder;
    forall e | e in h.config.order ensures e <= Counter(h) {
      assert e in ToSet(NewOrder(p));
    }
    KnownEntriesAreSafe(h);
  }

  /** A stopped attempt leaves a disk on which it can be repeated. */
  lemma StaysRetriable(g: GroupDir, incoming: seq<Incoming>, keepId: nat, fate: nat -> Fate)
    requires Retriable(g, incoming, keepId)
    ensures Retriable(Interrupted(g, incoming, keepId, fate), incoming, keepId)
  {
    hide Underway, Saved, PlanIds, SafeOrder, KnownKeep, Interrupted, PlanOf, AllConfigured;
    var p, h := PlanOf(g, incoming, keepId), Interrupted(g, incoming, keepId, fate);
    PlanWants(g, incoming, keepId);
    PlanWants(h, incoming, keepId);
    PlanKept(g, incoming, keepId);
    hide AllStorable;
    StoppedIsAlike(g, incoming, keepId, fate);
    AnyInterruption(g, incoming, keepId, fate);
    if Saved(g, p, h, false) {
      SavedStaysSafe(g, p, h, keepId);
    } else {
      UnderwayStaysSafe(g, p, h, WrittenCount(p.wants, fate, 0), keepId);
    }
  }

  lemma PlanKept(g: GroupDir, incoming: seq<Incoming>, keepId: nat)
    ensures PlanOf(g, incoming, keepId).kept == Kept(g, keepId)
  {
  }

  /** However many attempts are stopped, and wherever, the one that runs to its end
      leaves the configuration and the profile files of an uninterrupted run.
      Nothing is added to the stored configurations, and none is left over but
      that of a profile which the refresh removes. */
  lemma {:induction false} RetriesConverge(g: GroupDir, incoming: seq<Incoming>, keepId: nat, fates: seq<nat -> Fate>)
    requires Retriable(g, incoming, keepId)
    ensures var full, last := Refreshed(g, incoming, keepId), Attempts(g, incoming, keepId, fates);
            SameButLeftovers(g, full, Refreshed(last, incoming, keepId))
    decreases |fates|
  {
    hide *;
    var full := Refreshed(g, incoming, keepId);
    if fates == [] {
      NoAttempts(g, incoming, keepId);
      NoLeftovers(g, full);
    } else {
      var h := Interrupted(g, incoming, keepId, fates[0]);
      var again, last := Refreshed(h, incoming, keepId), Refreshed(Attempts(h, incoming, keepId, fates[1..]), incoming, keepId);
      StaysRetriable(g, incoming, keepId, fates[0]);
      OneRetry(g, incoming, keepId, fates[0]);
      StoppedKeepsFiles(g, incoming, keepId, fates[0]);
      RetriesConverge(h, incoming, keepId, fates[1..]);
      LeftoversAdd(g, full, h, again, last);
      FirstAttempt(g, incoming, keepId, fates);
    }
  }

  /** The same group, but for stored configurations of profiles of `g` that are gone. */
  ghost predicate SameButLeftovers(g: GroupDir, full: GroupDir, again: GroupDir) {
    && again.config == full.config && again.files == full.files
    && (forall id :: id in full.xray ==> SameXray(again.xray, full.xray, id))
    && (forall id :: id in again.xray && id !in full.xray ==> id in g.files && id !in full.files)
  }

  lemma NoLeftovers(g: GroupDir, full: GroupDir)
    ensures SameButLeftovers(g, full, full)
  {
  }

  lemma LeftoversAdd(g: GroupDir, full: GroupDir, h: GroupDir, again: GroupDir, last: GroupDir)
    requires SameButLeftovers(g, full, again) && SameButLeftovers(h, again, last)
    requires forall id :: id in h.files ==> id in g.files || id in full.files
    ensures SameButLeftovers(g, full, last)
  {
    forall id | id in last.xray && id !in full.xray ensures id in g.files && id !in full.files {
      if id !in again.xray {
        assert id in h.files && id !in again.files;
      }
    }
    forall id | id in full.xray ensures SameXray(last.xray, full.xray, id) {
      assert SameXray(again.xray, full.xray, id) && SameXray(last.xray, again.xray, id);
    }
  }

  lemma NoAttempts(g: GroupDir, incoming: seq<Incoming>, keepId: nat)
    ensures Attempts(g, incoming, keepId, []) == g
  {
  }

  lemma FirstAttempt(g: GroupDir, incoming: seq<Incoming>, keepId: nat, fates: seq<nat -> Fate>)
    requires fates != []
    ensures Attempts(g, incoming, keepId, fates) == Attempts(Interrupted(g, incoming, keepId, fates[0]), incoming, keepId, fates[1..])
  {
    hide Interrupted;
  }

  lemma OneRetry(g: GroupDir, incoming: seq<Incoming>, keepId: nat, fate: nat -> Fate)
    requires Retriable(g, incoming, keepId)
    ensures SameButLeftovers(g, Refreshed(g, incoming, keepId), Refreshed(Interrupted(g, incoming, keepId, fate), incoming, keepId))
  {
    hide Interrupted, Refreshed, SafeOrder, KnownKeep, AllStorable, ValidDir;
    RetryConverges(g, incoming, keepId, fate);
    StoppedKeepsFiles(g, incoming, keepId, fate);
  }

  /** A stopped attempt adds no file but those of the plan, and takes away none of them. */
  lemma StoppedKeepsFiles(g: GroupDir, incoming: seq<Incoming>, keepId: nat, fate: nat -> Fate)
    requires Retriable(g, incoming, keepId)
    ensures var full, h := Refreshed(g, incoming, keepId), Interrupted(g, incoming, keepId, fate);
            && (forall id :: id in h.files ==> id in g.files || id in full.files)
            && (forall id :: id in full.files && id in g.files ==> id in h.files)
  {
    hide SafeOrder, Interrupted, Refreshed, PlanOf, PlanIds, AllStorable, ValidDir, KnownKeep;
    StoppedIsAlike(g, incoming, keepId, fate);
    RefreshedIsFinished(g, incoming, keepId);
  }

  lemma NothingIsOrphaned(g: GroupDir, p: Plan, h: GroupDir)
    requires |p.ids| == |p.wants| && Finished(g, p, h)
    ensures Orphans(g, h) == map[]
    ensures forall id :: id in NewOrder(p) && id in g.files ==> id in h.files
  {
  }

  lemma FinishedIsSaved(g: GroupDir, p: Plan, h: GroupDir)
    requires |p.ids| == |p.wants| && Finished(g, p, h)
    ensures Saved(g, p, h, false)
    ensures h.config == NewConfig(g, p)
  {
  }

  lemma PlanWants(g: GroupDir, incoming: seq<Incoming>, keepId: nat)
    ensures AllStorable(g, incoming, keepId) <==> AllConfigured(PlanOf(g, incoming, keepId).wants)
  {
  }

  /** An entry without configuration is not found again under its old id. */
  lemma UnconfiguredEntryMoves(g: GroupDir, incoming: seq<Incoming>, keepId: nat, once: GroupDir)
    requires ValidDir(g) && ValidDir(once) && KnownKeep(g, keepId) && !AllStorable(g, incoming, keepId)
    requires Saved(g, PlanOf(g, incoming, keepId), once, false)
    requires var p, q := PlanOf(g, incoming, keepId), PlanOf(once, incoming, keepId);
             q.kept == p.kept && q.wants == p.wants
    ensures NewConfig(once, PlanOf(once, incoming, keepId)) != once.config
  {
    hide PlanOf, Counter, NewProfile, Wants, ValidDir, KnownKeep;
    var p, q := PlanOf(g, incoming, keepId), PlanOf(once, incoming, keepId);
    PlanIdsHold(g, incoming, keepId);
    PlanIdsHold(once, incoming, keepId);
    PlanWants(g, incoming, keepId);
    hide AllStorable;
    var i :| 0 <= i < |p.wants| && !Configured(p.wants[i]);
    StoredAsWanted(g.files, p.wants[i], p.ids[i]);
    assert p.ids[i] in once.files;
    assert q.ids[i] != p.ids[i];
    OtherIdOtherOrder(p, q, i);
  }

  lemma OtherIdOtherOrder(p: Plan, q: Plan, i: nat)
    requires p.kept == q.kept && i < |p.ids| && i < |q.ids| && p.ids[i] != q.ids[i]
    ensures NewOrder(p) != NewOrder(q)
  {
    var shift := if p.kept != 0 then 1 else 0;
    assert NewOrder(p)[shift + i] == p.ids[i] && NewOrder(q)[shift + i] == q.ids[i];
  }

  /** A second refresh with the same subscription changes nothing at all exactly
      when every managed entry it imports carries a configuration; otherwise it
      hands out other ids. */
  lemma RefreshTwice(g: GroupDir, incoming: seq<Incoming>, keepId: nat)
    requires ValidDir(g) && KnownKeep(g, keepId)
    ensures var once := Refreshed(g, incoming, keepId);
            && (Refreshed(once, incoming, keepId) == once <==> AllStorable(g, incoming, keepId))
            && (Refreshed(once, incoming, keepId).config == once.config <==> AllStorable(g, incoming, keepId))
  {
    hide *;
    var p, once := PlanOf(g, incoming, keepId), Refreshed(g, incoming, keepId);
    var twice := Refreshed(once, incoming, keepId);
    PlanIdsHold(g, incoming, keepId);
    PlanWants(g, incoming, keepId);
    RefreshedIsFinished(g, incoming, keepId);
    FinishedIsSaved(g, p, once);
    SavedReplans(g, incoming, keepId, once);
    RefreshedIsFinished(once, incoming, keepId);
    if AllStorable(g, incoming, keepId) {
      SavedIsAlike(g, p, once);
      NothingIsOrphaned(g, p, once);
      FinishedAlike(g, p, once, once, twice);
      NothingAdded(once.xray, Orphans(g, once));
    } else {
      FinishedIsSaved(once, PlanOf(once, incoming, keepId), twice);
      UnconfiguredEntryMoves(g, incoming, keepId, once);
    }
  }
}
