/** What every run of a refresh, complete or not, leaves on disk. */
module RefreshRuns {
  import opened Listings
  import opened Profiles
  import opened IdAssignment
  import opened Refresh
  import opened Fates

  // ---- the ids a plan hands out ----

  lemma {:induction false} PoolEntries(files: map<nat, Profile>, ids: seq<nat>, kept: nat)
    requires Distinct(ids) && forall id :: id in ids ==> id in files
    ensures Unique(Pool(files, ids, kept))
    ensures forall e :: e in Pool(files, ids, kept) <==>
              e.id in ids && e.id != kept && e.identity == StoredIdentity(files[e.id])
  {
    if ids != [] {
      assert ids == [ids[0]] + ids[1..];
      PoolEntries(files, ids[1..], kept);
      assert ids[0] !in ids[1..];
    }
  }

  /** The ids of a plan are distinct and new to the order; each one is an old id
      of the identity that was asked for, or lies above everything stored. */
  ghost predicate PlanIds(g: GroupDir, p: Plan)
    requires |p.ids| == |p.wants|
  {
    && Distinct(p.ids)
    && Counter(g) <= p.last
    && (p.kept != 0 ==> p.kept in g.files)
    && p.kept !in p.ids && 0 !in p.ids && 0 !in g.files
    && forall i :: 0 <= i < |p.ids| ==>
         && p.ids[i] <= p.last
         && (p.ids[i] in g.files ==> StoredIdentity(g.files[p.ids[i]]) == WantedIdentity(p.wants[i]))
         && (p.ids[i] !in g.files ==> p.ids[i] > Counter(g))
  }

  lemma ListedFacts(g: GroupDir)
    ensures Distinct(Listed(g))
    ensures forall id :: id in Listed(g) <==> id in g.files
    ensures g.config.lastId <= Counter(g) && forall id :: id in g.files ==> id <= Counter(g)
  {
    ListIdsIsListing(g.files.Keys, g.config.order);
    ListingIsDistinct(g.files.Keys, g.config.order, Listed(g));
  }

  lemma PlanIdsHold(g: GroupDir, incoming: seq<Incoming>, keepId: nat)
    requires ValidDir(g)
    ensures PlanIds(g, PlanOf(g, incoming, keepId))
  {
    var p := PlanOf(g, incoming, keepId);
    var pool, wants := PoolOf(g, p.kept), Identities(p.wants);
    ListedFacts(g);
    PoolEntries(g.files, Listed(g), p.kept);
    AssignedDistinct(pool, Counter(g), wants);
    forall i | 0 <= i < |p.ids|
      ensures p.ids[i] <= p.last && p.ids[i] != p.kept && p.ids[i] != 0
      ensures p.ids[i] in g.files ==> StoredIdentity(g.files[p.ids[i]]) == WantedIdentity(p.wants[i])
      ensures p.ids[i] !in g.files ==> p.ids[i] > Counter(g)
    {
      AssignedFrom(pool, Counter(g), wants, i);
    }
  }

  // ---- single operations ----

  lemma OneMoreWritten(g: GroupDir, p: Plan, files: map<nat, Profile>, k: nat)
    requires |p.ids| == |p.wants| && Distinct(p.ids)
    requires k < |p.ids| && Written(g, p, files, k)
    ensures Written(g, p, files[p.ids[k] := NewProfile(g.files, p.wants[k], p.ids[k])], k + 1)
  {
    assert p.ids[..k + 1] == p.ids[..k] + [p.ids[k]];
  }

  lemma WriteStep(g: GroupDir, p: Plan, h: GroupDir, k: nat, exact: bool)
    requires |p.ids| == |p.wants| && PlanIds(g, p)
    requires k < |p.ids| && Underway(g, p, h, k, exact)
    ensures Underway(g, p, Apply(h, WriteProfile(NewProfile(g.files, p.wants[k], p.ids[k]))), k + 1, false)
  {
    OneMoreWritten(g, p, h.files, k);
    hide Written, PlanIds, SameXray, XrayStored;
  }

  function StoreOp(g: GroupDir, p: Plan, k: nat): Op
    requires k < |p.ids| == |p.wants|
  {
    var d := p.wants[k];
    if d.managed && d.config != "" then WriteXray(p.ids[k], d.config) else DropXray(p.ids[k])
  }

  /** Storing or dropping the configuration of the profile written last. */
  lemma StoreStep(g: GroupDir, p: Plan, h: GroupDir, h1: GroupDir, k: nat, exact: bool)
    requires |p.ids| == |p.wants| && PlanIds(g, p)
    requires k < |p.ids| && Underway(g, p, h, k, exact) && Underway(g, p, h1, k + 1, false)
    requires h1.xray == h.xray
    ensures Underway(g, p, Apply(h1, StoreOp(g, p, k)), k + 1, exact)
  {
    hide Written, Counter;
    var h2 := Apply(h1, StoreOp(g, p, k));
    assert XrayStored(h2.xray, p.ids[k], p.wants[k]);
    forall i | exact && 0 <= i < k ensures XrayStored(h2.xray, p.ids[i], p.wants[i]) {
      assert XrayStored(h.xray, p.ids[i], p.wants[i]);
      assert p.ids[i] != p.ids[k];
    }
    forall id | id !in p.ids ensures SameXray(h2.xray, g.xray, id) {
      assert SameXray(h1.xray, g.xray, id);
    }
  }

  /** All profiles are written: the files of the new order are there. */
  lemma AllFilesWritten(g: GroupDir, p: Plan, files: map<nat, Profile>)
    requires |p.ids| == |p.wants| && PlanIds(g, p) && Written(g, p, files, |p.ids|)
    ensures FilesReplaced(g, p, files)
    ensures forall id :: id in files ==> id in g.files || id in NewOrder(p)
  {
    hide NewProfile, Counter, StoredIdentity, WantedIdentity;
    assert p.ids[..|p.ids|] == p.ids;
    assert p.kept !in p.ids;
  }

  lemma AllConfigsStored(g: GroupDir, p: Plan, h: GroupDir, exact: bool)
    requires |p.ids| == |p.wants| && Underway(g, p, h, |p.ids|, exact)
    ensures ConfigsReplaced(g, p, h.xray, exact)
  {
    hide Written, XrayStored;
    forall id | id !in p.ids && id in h.xray ensures id in g.xray {
      assert SameXray(h.xray, g.xray, id);
    }
  }

  lemma SaveStep(g: GroupDir, p: Plan, h: GroupDir, exact: bool)
    requires |p.ids| == |p.wants| && PlanIds(g, p)
    requires Underway(g, p, h, |p.ids|, exact)
    ensures Saved(g, p, Apply(h, SaveConfig(NewConfig(g, p))), exact)
    ensures forall id :: id in h.files ==> id in g.files || id in NewOrder(p)
  {
    AllFilesWritten(g, p, h.files);
    AllConfigsStored(g, p, h, exact);
    hide FilesReplaced, ConfigsReplaced, Underway, PlanIds, NewConfig, NewOrder;
  }

  /** Removing a file outside the new order. */
  lemma DropProfileStep(g: GroupDir, p: Plan, h: GroupDir, exact: bool, id: nat)
    requires |p.ids| == |p.wants| && Saved(g, p, h, exact) && id !in NewOrder(p)
    ensures Saved(g, p, Apply(h, DropProfile(id)), exact)
  {
    hide NewProfile, NewOrder, NewConfig, XrayStored, SameXray;
  }

  /** Removing the configuration of a stale profile. */
  lemma DropXrayStep(g: GroupDir, p: Plan, h: GroupDir, exact: bool, id: nat)
    requires |p.ids| == |p.wants| && PlanIds(g, p)
    requires Saved(g, p, h, exact) && id in g.files && id !in NewOrder(p)
    ensures Saved(g, p, Apply(h, DropXray(id)), exact)
  {
    hide NewProfile, StoredIdentity, Counter, NewOrder, NewConfig;
    var h1 := Apply(h, DropXray(id));
    forall i | exact && 0 <= i < |p.ids| ensures XrayStored(h1.xray, p.ids[i], p.wants[i]) {
      assert XrayStored(h.xray, p.ids[i], p.wants[i]);
      assert p.ids[i] != id;
    }
    forall x | x !in p.ids && (x == p.kept || x !in g.files) ensures SameXray(h1.xray, g.xray, x) {
      assert SameXray(h.xray, g.xray, x);
    }
  }

  /** Two consecutive operations of a run, the first of which has to succeed. */
  lemma RunTwo(h: GroupDir, a: Op, b: Op, rest: seq<Op>, fate: nat -> Fate, n: nat)
    ensures var r := Run(h, [a, b] + rest, fate, n);
            var h1 := Apply(h, a);
            && (fate(n) == Crashed || (fate(n) == Failed && !a.BestEffort()) ==> r == Outcome(h, false))
            && (fate(n) == Done ==> r == Run(h1, [b] + rest, fate, n + 1))
            && (fate(n) == Failed && a.BestEffort() ==> r == Run(h, [b] + rest, fate, n + 1))
    ensures var r := Run(h, [b] + rest, fate, n + 1);
            && (fate(n + 1) == Crashed || (fate(n + 1) == Failed && !b.BestEffort()) ==> r == Outcome(h, false))
            && (fate(n + 1) == Done ==> r == Run(Apply(h, b), rest, fate, n + 2))
            && (fate(n + 1) == Failed && b.BestEffort() ==> r == Run(h, rest, fate, n + 2))
  {
  }

  // ---- whole runs ----

  /** Removing stale files never touches the new order. */
  lemma {:induction false} StaleRun(g: GroupDir, p: Plan, h: GroupDir, exact: bool, listed: seq<nat>, fate: nat -> Fate, n: nat)
    requires |p.ids| == |p.wants| && PlanIds(g, p)
    requires Saved(g, p, h, exact)
    requires forall id :: id in listed ==> id in g.files
    ensures Saved(g, p, Run(h, StaleOps(listed, NewOrder(p)), fate, n).disk, exact)
    decreases listed
  {
    hide Saved, PlanIds;
    if listed != [] {
      var id, rest := listed[0], StaleOps(listed[1..], NewOrder(p));
      assert id in listed && forall x :: x in listed[1..] ==> x in listed;
      if id in NewOrder(p) {
        StaleRun(g, p, h, exact, listed[1..], fate, n);
      } else {
        RunTwo(h, DropProfile(id), DropXray(id), rest, fate, n);
        DropProfileStep(g, p, h, exact, id);
        if fate(n) != Crashed {
          var h1 := if fate(n) == Done then Apply(h, DropProfile(id)) else h;
          RunTwo(h1, DropProfile(id), DropXray(id), rest, fate, n);
          DropXrayStep(g, p, h1, exact, id);
          if fate(n + 1) != Crashed {
            var h2 := if fate(n + 1) == Done then Apply(h1, DropXray(id)) else h1;
            StaleRun(g, p, h2, exact, listed[1..], fate, n + 2);
          }
        }
      }
    }
  }

  /** Without errors none of the listed stale files is left. */
  lemma {:induction false} StaleRunRemoves(h: GroupDir, listed: seq<nat>, used: seq<nat>, fate: nat -> Fate, n: nat)
    requires Smooth(fate)
    ensures var r := Run(h, StaleOps(listed, used), fate, n);
            && r.completed
            && r.disk.files == h.files - (ToSet(listed) - ToSet(used))
            && r.disk.xray == h.xray - (ToSet(listed) - ToSet(used))
    decreases listed
  {
    if listed != [] {
      var id, rest := listed[0], StaleOps(listed[1..], used);
      assert listed == [id] + listed[1..];
      assert ToSet(listed) == {id} + ToSet(listed[1..]);
      assert fate(n) == Done && fate(n + 1) == Done;
      if id in used {
        StaleRunRemoves(h, listed[1..], used, fate, n);
        assert ToSet(listed) - ToSet(used) == ToSet(listed[1..]) - ToSet(used);
      } else {
        var h1 := Apply(h, DropProfile(id));
        var h2 := Apply(h1, DropXray(id));
        RunTwo(h, DropProfile(id), DropXray(id), rest, fate, n);
        RunTwo(h1, DropProfile(id), DropXray(id), rest, fate, n);
        StaleRunRemoves(h2, listed[1..], used, fate, n + 2);
        assert ToSet(listed) - ToSet(used) == {id} + (ToSet(listed[1..]) - ToSet(used));
      }
    }
  }

  predicate HasConfig(d: Incoming) {
    d.managed && d.config != ""
  }

  /** The profile of an entry is written, and its configuration stored or dropped, by
      operations `n` and `n + 1`. Only dropping may fail. */
  predicate EntryStored(d: Incoming, fate: nat -> Fate, n: nat) {
    fate(n) == Done && (fate(n + 1) == Done || (fate(n + 1) == Failed && !HasConfig(d)))
  }

  /** How many of the entries are stored before the first one that is not. */
  function StoredCount(wants: seq<Incoming>, fate: nat -> Fate, n: nat): (k: nat)
    ensures k <= |wants|
    decreases wants
  {
    if wants == [] || !EntryStored(wants[0], fate, n) then 0 else 1 + StoredCount(wants[1..], fate, n + 2)
  }

  /** How many of the entries get their profile written, when the first write is
      operation number `n`. Only the write of a configuration may fail afterwards. */
  function WrittenCount(wants: seq<Incoming>, fate: nat -> Fate, n: nat): (k: nat)
    ensures k <= |wants|
    decreases wants
  {
    if wants == [] || fate(n) != Done then 0
    else if EntryStored(wants[0], fate, n) then 1 + WrittenCount(wants[1..], fate, n + 2)
    else 1
  }

  /** Whether a run gets as far as saving the new configuration. */
  predicate ConfigSaved(wants: seq<Incoming>, fate: nat -> Fate, n: nat)
    decreases wants
  {
    if wants == [] then fate(n) == Done
    else EntryStored(wants[0], fate, n) && ConfigSaved(wants[1..], fate, n + 2)
  }

  /** What a run yields: `k` profiles under the old configuration, or all of them
      and the new one. */
  ghost predicate RunEnds(g: GroupDir, p: Plan, r: Outcome, exact: bool, k: nat)
    requires k <= |p.ids| == |p.wants|
  {
    && ((Saved(g, p, r.disk, false) && k == |p.ids|) || Underway(g, p, r.disk, k, false))
    && (r.completed ==> Saved(g, p, r.disk, false))
    && (exact ==> r.completed && Finished(g, p, r.disk))
  }

  lemma StoppedUnderway(g: GroupDir, p: Plan, h: GroupDir, k: nat, exact: bool)
    requires k <= |p.ids| == |p.wants| && Underway(g, p, h, k, exact)
    ensures RunEnds(g, p, Outcome(h, false), false, k)
  {
    assert Underway(g, p, h, k, false);
  }

  lemma SavedInexactly(g: GroupDir, p: Plan, h: GroupDir, exact: bool)
    requires |p.ids| == |p.wants| && Saved(g, p, h, exact)
    ensures Saved(g, p, h, false)
  {
  }

  lemma SaveRun(g: GroupDir, p: Plan, h: GroupDir, exact: bool, fate: nat -> Fate, n: nat)
    requires |p.ids| == |p.wants| && PlanIds(g, p)
    requires Underway(g, p, h, |p.ids|, exact)
    requires exact ==> Smooth(fate)
    ensures RunEnds(g, p, Run(h, [SaveConfig(NewConfig(g, p))] + StaleOps(Listed(g), NewOrder(p)), fate, n), exact, |p.ids|)
  {
    hide Underway, Saved, NewConfig, Finished, PlanIds, NewOrder, StaleOps;
    var config, stale := NewConfig(g, p), StaleOps(Listed(g), NewOrder(p));
    assert ([SaveConfig(config)] + stale)[1..] == stale;
    if fate(n) == Done {
      var h1 := Apply(h, SaveConfig(config));
      SaveStep(g, p, h, exact);
      ListedFacts(g);
      StaleRun(g, p, h1, exact, Listed(g), fate, n + 1);
      if exact {
        StaleRunRemoves(h1, Listed(g), NewOrder(p), fate, n + 1);
        StaleGone(g, p, h1, Run(h1, stale, fate, n + 1).disk);
      }
      SavedInexactly(g, p, Run(h1, stale, fate, n + 1).disk, exact);
    } else {
      StoppedUnderway(g, p, h, |p.ids|, exact);
    }
  }

  lemma SavedHasOrder(g: GroupDir, p: Plan, h: GroupDir, exact: bool)
    requires |p.ids| == |p.wants| && PlanIds(g, p) && Saved(g, p, h, exact)
    ensures forall id :: id in NewOrder(p) ==> id in h.files
  {
  }

  lemma StaleGone(g: GroupDir, p: Plan, h: GroupDir, r: GroupDir)
    requires |p.ids| == |p.wants| && PlanIds(g, p) && Saved(g, p, r, true)
    requires forall id :: id in h.files ==> id in g.files || id in NewOrder(p)
    requires r.files == h.files - (ToSet(Listed(g)) - ToSet(NewOrder(p)))
    requires r.xray == h.xray - (ToSet(Listed(g)) - ToSet(NewOrder(p)))
    ensures Finished(g, p, r)
  {
    SavedHasOrder(g, p, r, true);
    ListedFacts(g);
    hide Saved, PlanIds, NewOrder, Listed, Counter;
  }

  lemma WrittenNext(wants: seq<Incoming>, fate: nat -> Fate, n: nat)
    ensures wants == [] || fate(n) != Done ==> WrittenCount(wants, fate, n) == 0
    ensures wants != [] && fate(n) == Done ==>
              WrittenCount(wants, fate, n) ==
              if EntryStored(wants[0], fate, n)
              then 1 + WrittenCount(wants[1..], fate, n + 2) else 1
  {
  }

  /** The two operations for the entry at `k`: how far they come. */
  lemma EntryRun(g: GroupDir, p: Plan, h: GroupDir, k: nat, exact: bool, rest: seq<Op>, fate: nat -> Fate, n: nat)
    returns (h2: GroupDir)
    requires |p.ids| == |p.wants| && PlanIds(g, p)
    requires k < |p.ids| && Underway(g, p, h, k, exact)
    requires exact ==> Smooth(fate)
    ensures var c := WrittenCount(p.wants[k..], fate, n);
            var r := Run(h, [WriteProfile(NewProfile(g.files, p.wants[k], p.ids[k])), StoreOp(g, p, k)] + rest, fate, n);
            if c == 0 then r == Outcome(h, false) && !exact
            else if fate(n + 1) == Done || (fate(n + 1) == Failed && StoreOp(g, p, k).BestEffort()) then
              && c == 1 + WrittenCount(p.wants[k + 1..], fate, n + 2)
              && r == Run(h2, rest, fate, n + 2) && Underway(g, p, h2, k + 1, exact)
            else c == 1 && r == Outcome(h2, false) && Underway(g, p, h2, k + 1, false) && !exact
  {
    hide Underway, PlanIds, WrittenCount, NewProfile;
    assert p.wants[k..][1..] == p.wants[k + 1..];
    var write, store := WriteProfile(NewProfile(g.files, p.wants[k], p.ids[k])), StoreOp(g, p, k);
    var h1 := Apply(h, write);
    WrittenNext(p.wants[k..], fate, n);
    RunTwo(h, write, store, rest, fate, n);
    RunTwo(h1, write, store, rest, fate, n);
    WriteStep(g, p, h, k, exact);
    StoreStep(g, p, h, h1, k, exact);
    h2 := if fate(n + 1) == Done then Apply(h1, store) else h1;
  }

  lemma {:induction false} ProfileRun(g: GroupDir, p: Plan, h: GroupDir, k: nat, exact: bool, fate: nat -> Fate, n: nat)
    requires |p.ids| == |p.wants| && PlanIds(g, p)
    requires k <= |p.ids| && Underway(g, p, h, k, exact)
    requires exact ==> Smooth(fate)
    ensures var ops := ProfileOps(g.files, p.wants[k..], p.ids[k..])
                       + ([SaveConfig(NewConfig(g, p))] + StaleOps(Listed(g), NewOrder(p)));
            RunEnds(g, p, Run(h, ops, fate, n), exact, k + WrittenCount(p.wants[k..], fate, n))
    decreases |p.ids| - k
  {
    hide Underway, PlanIds, RunEnds, NewConfig, Listed, WrittenCount, NewProfile, Run;
    var tail := [SaveConfig(NewConfig(g, p))] + StaleOps(Listed(g), NewOrder(p));
    var ops := ProfileOps(g.files, p.wants[k..], p.ids[k..]) + tail;
    WrittenNext(p.wants[k..], fate, n);
    if k == |p.ids| {
      assert ops == tail;
      SaveRun(g, p, h, exact, fate, n);
    } else {
      assert p.wants[k..][1..] == p.wants[k + 1..] && p.ids[k..][1..] == p.ids[k + 1..];
      var rest := ProfileOps(g.files, p.wants[k + 1..], p.ids[k + 1..]) + tail;
      assert ops == [WriteProfile(NewProfile(g.files, p.wants[k], p.ids[k])), StoreOp(g, p, k)] + rest by {
        ProfileOpsUnfold(g, p, k);
      }
      var h2 := EntryRun(g, p, h, k, exact, rest, fate, n);
      if WrittenCount(p.wants[k..], fate, n) == 0 {
        StoppedUnderway(g, p, h, k, exact);
      } else if fate(n + 1) == Done || (fate(n + 1) == Failed && StoreOp(g, p, k).BestEffort()) {
        ProfileRun(g, p, h2, k + 1, exact, fate, n + 2);
      } else {
        StoppedUnderway(g, p, h2, k + 1, false);
      }
    }
  }

  lemma ProfileOpsUnfold(g: GroupDir, p: Plan, k: nat)
    requires k < |p.ids| == |p.wants|
    ensures ProfileOps(g.files, p.wants[k..], p.ids[k..]) ==
            [WriteProfile(NewProfile(g.files, p.wants[k], p.ids[k])), StoreOp(g, p, k)]
            + ProfileOps(g.files, p.wants[k + 1..], p.ids[k + 1..])
  {
    hide NewProfile;
    assert p.wants[k..][1..] == p.wants[k + 1..] && p.ids[k..][1..] == p.ids[k + 1..];
    assert NewProfile(g.files, p.wants[k], p.ids[k]).id == p.ids[k] by { NewProfileIs(g.files, p.wants[k], p.ids[k]); }
    assert NewProfile(g.files, p.wants[k], p.ids[k]).managed == (p.wants[k].managed && p.wants[k].config != "") by {
      NewProfileIs(g.files, p.wants[k], p.ids[k]);
    }
  }

  lemma NewProfileIs(files: map<nat, Profile>, d: Incoming, id: nat)
    ensures NewProfile(files, d, id).id == id && NewProfile(files, d, id).managed == (d.managed && d.config != "")
  {
  }

  lemma NothingWritten(g: GroupDir, p: Plan, exact: bool)
    requires |p.wants| == |p.ids|
    ensures Underway(g, p, g, 0, exact)
  {
  }

  lemma SplitOps(g: GroupDir, p: Plan)
    requires |p.wants| == |p.ids|
    ensures RefreshOps(g, p) ==
            ProfileOps(g.files, p.wants, p.ids) + ([SaveConfig(NewConfig(g, p))] + StaleOps(Listed(g), NewOrder(p)))
  {
  }

  lemma WholeRun(g: GroupDir, incoming: seq<Incoming>, keepId: nat, exact: bool, fate: nat -> Fate)
    requires ValidDir(g) && (exact ==> Smooth(fate))
    ensures var p := PlanOf(g, incoming, keepId);
            RunEnds(g, p, Run(g, RefreshOps(g, p), fate, 0), exact, WrittenCount(p.wants, fate, 0))
  {
    hide *;
    var p := PlanOf(g, incoming, keepId);
    PlanIdsHold(g, incoming, keepId);
    assert p.wants[0..] == p.wants && p.ids[0..] == p.ids;
    NothingWritten(g, p, exact);
    SplitOps(g, p);
    ProfileRun(g, p, g, 0, exact, fate, 0);
  }

  /** However it ends, a refresh is either still writing profiles under the old
      configuration, and has written as many as its writes succeeded, or has its new
      configuration saved with every profile of the new order on disk. */
  lemma AnyInterruption(g: GroupDir, incoming: seq<Incoming>, keepId: nat, fate: nat -> Fate)
    requires ValidDir(g)
    ensures var p, h := PlanOf(g, incoming, keepId), Interrupted(g, incoming, keepId, fate);
            var k := WrittenCount(p.wants, fate, 0);
            (Saved(g, p, h, false) && k == |p.ids|) || Underway(g, p, h, k, false)
  {
    WholeRun(g, incoming, keepId, false, fate);
    hide PlanOf, Saved, Underway, RefreshOps;
  }

  lemma {:induction false} StaleKeepsConfig(h: GroupDir, listed: seq<nat>, used: seq<nat>, fate: nat -> Fate, n: nat)
    ensures Run(h, StaleOps(listed, used), fate, n).disk.config == h.config
    decreases listed
  {
    if listed != [] {
      var id, rest := listed[0], StaleOps(listed[1..], used);
      if id in used {
        StaleKeepsConfig(h, listed[1..], used, fate, n);
      } else {
        var h1 := if fate(n) == Done then Apply(h, DropProfile(id)) else h;
        var h2 := if fate(n + 1) == Done then Apply(h1, DropXray(id)) else h1;
        RunTwo(h, DropProfile(id), DropXray(id), rest, fate, n);
        RunTwo(h1, DropProfile(id), DropXray(id), rest, fate, n);
        StaleKeepsConfig(h2, listed[1..], used, fate, n + 2);
      }
    }
  }

  lemma {:induction false} ConfigAfter(g: GroupDir, p: Plan, h: GroupDir, k: nat, fate: nat -> Fate, n: nat)
    requires k <= |p.ids| == |p.wants|
    ensures var ops := ProfileOps(g.files, p.wants[k..], p.ids[k..])
                       + ([SaveConfig(NewConfig(g, p))] + StaleOps(Listed(g), NewOrder(p)));
            Run(h, ops, fate, n).disk.config == if ConfigSaved(p.wants[k..], fate, n) then NewConfig(g, p) else h.config
    decreases |p.ids| - k
  {
    hide NewConfig, Listed, NewOrder, StaleOps, NewProfile;
    var save, stale := SaveConfig(NewConfig(g, p)), StaleOps(Listed(g), NewOrder(p));
    var tail := [save] + stale;
    var ops := ProfileOps(g.files, p.wants[k..], p.ids[k..]) + tail;
    if k == |p.ids| {
      assert ops == tail && tail[1..] == stale;
      StaleKeepsConfig(Apply(h, save), Listed(g), NewOrder(p), fate, n + 1);
    } else {
      var write, store := WriteProfile(NewProfile(g.files, p.wants[k], p.ids[k])), StoreOp(g, p, k);
      var rest := ProfileOps(g.files, p.wants[k + 1..], p.ids[k + 1..]) + tail;
      assert p.wants[k..][1..] == p.wants[k + 1..];
      ProfileOpsUnfold(g, p, k);
      assert ops == [write, store] + rest;
      var h1 := Apply(h, write);
      var h2 := if fate(n + 1) == Done then Apply(h1, store) else h1;
      RunTwo(h, write, store, rest, fate, n);
      RunTwo(h1, write, store, rest, fate, n);
      hide Run, ProfileOps;
      ConfigAfter(g, p, h2, k + 1, fate, n + 2);
    }
  }

  /** The group has the new configuration exactly if the run got as far as saving it. */
  lemma ConfigAfterRefresh(g: GroupDir, incoming: seq<Incoming>, keepId: nat, fate: nat -> Fate)
    ensures var p, h := PlanOf(g, incoming, keepId), Interrupted(g, incoming, keepId, fate);
            h.config == if ConfigSaved(p.wants, fate, 0) then NewConfig(g, p) else g.config
  {
    var p := PlanOf(g, incoming, keepId);
    assert p.wants[0..] == p.wants && p.ids[0..] == p.ids;
    SplitOps(g, p);
    hide PlanOf, RefreshOps, NewConfig, ProfileOps, StaleOps, ConfigSaved, Run;
    ConfigAfter(g, p, g, 0, fate, 0);
  }

  lemma {:induction false} AllWrittenFirst(wants: seq<Incoming>, fate: nat -> Fate, n: nat)
    ensures ConfigSaved(wants, fate, n) ==> WrittenCount(wants, fate, n) == |wants|
  {
    if wants != [] {
      AllWrittenFirst(wants[1..], fate, n + 2);
    }
  }

  lemma RefreshedIsFinished(g: GroupDir, incoming: seq<Incoming>, keepId: nat)
    requires ValidDir(g)
    ensures Finished(g, PlanOf(g, incoming, keepId), Refreshed(g, incoming, keepId))
  {
    WholeRun(g, incoming, keepId, true, AllDone);
    hide PlanOf, Saved, Underway, Finished, RefreshOps;
  }

  lemma {:induction false} SmoothRun(g: GroupDir, ops: seq<Op>, fate: nat -> Fate, n: nat)
    requires Smooth(fate)
    ensures Run(g, ops, fate, n) == Run(g, ops, AllDone, n) && Run(g, ops, fate, n).completed
    decreases ops
  {
    if ops != [] {
      assert fate(n) == Done;
      SmoothRun(Apply(g, ops[0]), ops[1..], fate, n + 1);
    }
  }

  /** When every file operation succeeds the refresh completes. */
  lemma SmoothRefreshCompletes(g: GroupDir, incoming: seq<Incoming>, keepId: nat, fate: nat -> Fate)
    requires Smooth(fate)
    ensures Interrupted(g, incoming, keepId, fate) == Refreshed(g, incoming, keepId)
    ensures Run(g, RefreshOps(g, PlanOf(g, incoming, keepId)), fate, 0).completed
  {
    SmoothRun(g, RefreshOps(g, PlanOf(g, incoming, keepId)), fate, 0);
  }
}
