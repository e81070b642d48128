/** What users of the profile list rely on: duplicates keep their ids and
    measurements, and the connected profile is never replaced. */
module StableIds {
  import opened Listings
  import opened Profiles
  import opened Text
  import opened IdAssignment
  import opened Refresh
  import opened Fates
  import opened RefreshRuns
  import opened RefreshReplans
  import opened RefreshLaws

  /** The reusable old ids of one identity, in listing order. */
  function OldIds(files: map<nat, Profile>, listed: seq<nat>, kept: nat, a: Identity): seq<nat>
    requires forall id :: id in listed ==> id in files
  {
    if listed == [] then []
    else if listed[0] != kept && StoredIdentity(files[listed[0]]) == a
    then [listed[0]] + OldIds(files, listed[1..], kept, a)
    else OldIds(files, listed[1..], kept, a)
  }

  lemma {:induction false} PoolHoldsOldIds(files: map<nat, Profile>, listed: seq<nat>, kept: nat, a: Identity)
    requires forall id :: id in listed ==> id in files
    ensures IdsOf(Pool(files, listed, kept), a) == OldIds(files, listed, kept, a)
  {
    if listed != [] {
      assert listed == [listed[0]] + listed[1..];
      PoolHoldsOldIds(files, listed[1..], kept, a);
    }
  }

  /** The profile imported from entry `i` is what that entry says. With `n` earlier entries of the same
      identity it is the n-th old profile of that identity in listing order,
      measurements included; when there is none left it is new, and its id lies
      above every id stored or counted before. */
  ghost predicate KeepsItsId(g: GroupDir, kept: nat, wants: seq<Incoming>, i: nat, full: GroupDir)
    requires i < |wants|
  {
    ListedFacts(g);
    var a, shift := WantedIdentity(wants[i]), if kept != 0 then 1 else 0;
    var own, n := OldIds(g.files, Listed(g), kept, a), Count(Identities(wants), i, a);
    && |full.config.order| == shift + |wants|
    && var id := full.config.order[shift + i];
    && id in full.files && full.files[id].id == id && Describes(full.files[id], wants[i])
    && XrayStored(full.xray, id, wants[i])
    && (n < |own| ==> id == own[n] && id in g.files && full.files[id].latency == g.files[id].latency)
    && (|own| <= n ==>
          && g.config.lastId < id && (forall x :: x in g.files ==> x < id)
          && full.files[id].latency == Latency(0, 0, 0, 0))
  }

  lemma DuplicatesKeepTheirIds(g: GroupDir, incoming: seq<Incoming>, keepId: nat, i: nat)
    requires ValidDir(g) && i < |Wants(g, Kept(g, keepId), incoming)|
    ensures KeepsItsId(g, Kept(g, keepId), Wants(g, Kept(g, keepId), incoming), i, Refreshed(g, incoming, keepId))
  {
    hide Finished, Saved, Counter, PlanIds, NewProfile, Listed, Refreshed, PoolOf, ValidDir, Wants;
    var p, full := PlanOf(g, incoming, keepId), Refreshed(g, incoming, keepId);
    var pool, a := PoolOf(g, p.kept), WantedIdentity(p.wants[i]);
    var own, n := IdsOf(pool, a), Count(Identities(p.wants), i, a);
    PlanIdsHold(g, incoming, keepId);
    RefreshedIsFinished(g, incoming, keepId);
    FinishedEntry(g, p, full, i);
    ListedFacts(g);
    NthOccurrenceGetsNthId(pool, Counter(g), Identities(p.wants), i);
    OwnIsOld(g, p.kept, a);
    if n < |own| {
      OwnIsStored(g, p.kept, a, own[n]);
    }
  }

  /** The entry is the connected profile's own: the same key, or the same URI for a share
      link; a managed profile without a key stands for share links without a URI. */
  predicate IsOwn(kept: Profile, d: Incoming) {
    if kept.managed && kept.providerKey != "" then d.managed && d.providerKey == kept.providerKey
    else !d.managed && TrimSpace(d.uri) == if kept.managed then "" else TrimSpace(kept.uri)
  }

  /** How many of the first `j` entries are not the connected profile's own. */
  function Others(kept: Option<Profile>, incoming: seq<Incoming>, j: nat): (n: nat)
    requires j <= |incoming|
    ensures n <= j
  {
    if j == 0 then 0
    else Others(kept, incoming, j - 1) + if kept.Some? && IsOwn(kept.value, incoming[j - 1]) then 0 else 1
  }

  lemma OthersTail(kept: Option<Profile>, incoming: seq<Incoming>, j: nat)
    requires 0 < j <= |incoming|
    ensures Others(kept, incoming, j) ==
            Others(kept, incoming[1..], j - 1) + if kept.Some? && IsOwn(kept.value, incoming[0]) then 0 else 1
  {
    if j > 1 {
      OthersTail(kept, incoming, j - 1);
    }
  }

  function KeptProfile(g: GroupDir, keepId: nat): Option<Profile> {
    if keepId in g.files then Some(g.files[keepId]) else None
  }

  /** The entries that are imported, in their order and as often as they occur: all but
      the connected profile's own. */
  lemma {:induction false} WantsAnswer(g: GroupDir, keepId: nat, incoming: seq<Incoming>, j: nat)
    requires ValidDir(g) && j <= |incoming|
    ensures var wants, kept := Wants(g, Kept(g, keepId), incoming), KeptProfile(g, keepId);
            && |wants| == Others(kept, incoming, |incoming|)
            && Others(kept, incoming, j) <= |wants|
            && (j < |incoming| && !(kept.Some? && IsOwn(kept.value, incoming[j])) ==>
                  Others(kept, incoming, j) < |wants| && wants[Others(kept, incoming, j)] == incoming[j])
  {
    if incoming != [] {
      var kept := KeptProfile(g, keepId);
      OwnMeans(g, keepId, incoming[0]);
      hide IsOwn, ValidDir, WantedIdentity, SkipTarget;
      OthersTail(kept, incoming, |incoming|);
      if j > 0 {
        OthersTail(kept, incoming, j);
      }
      WantsAnswer(g, keepId, incoming[1..], if j > 0 then j - 1 else 0);
    }
  }

  lemma OwnMeans(g: GroupDir, keepId: nat, d: Incoming)
    requires ValidDir(g)
    ensures Kept(g, keepId) == if keepId in g.files then keepId else 0
    ensures keepId in g.files ==> keepId != 0 && (WantedIdentity(d) == SkipTarget(g.files[keepId]) <==> IsOwn(g.files[keepId], d))
  {
    hide TrimSpace;
  }

  /** Every entry that is not the connected profile's own is imported, in the order of the
      subscription, behind the connected profile, and nothing else is. */
  lemma EveryEntryIsImported(g: GroupDir, incoming: seq<Incoming>, keepId: nat, j: nat)
    requires ValidDir(g) && j < |incoming|
    ensures var kept, full := KeptProfile(g, keepId), Refreshed(g, incoming, keepId);
            var shift, order := if kept.Some? then 1 else 0, full.config.order;
            && |order| == shift + Others(kept, incoming, |incoming|)
            && (kept.Some? ==> order[0] == keepId)
            && (!(kept.Some? && IsOwn(kept.value, incoming[j])) ==>
                  var i := shift + Others(kept, incoming, j);
                  && i < |order| && order[i] in full.files && full.files[order[i]].id == order[i]
                  && Describes(full.files[order[i]], incoming[j]) && XrayStored(full.xray, order[i], incoming[j]))
  {
    hide *;
    var p, full := PlanOf(g, incoming, keepId), Refreshed(g, incoming, keepId);
    PlanIdsHold(g, incoming, keepId);
    RefreshedIsFinished(g, incoming, keepId);
    PlanIsOf(g, incoming, keepId);
    WantsAnswer(g, keepId, incoming, j);
    FinishedLength(g, p, full);
    var i := Others(KeptProfile(g, keepId), incoming, j);
    if i < |p.wants| {
      FinishedEntry(g, p, full, i);
    }
  }

  lemma PlanIsOf(g: GroupDir, incoming: seq<Incoming>, keepId: nat)
    requires ValidDir(g)
    ensures var p := PlanOf(g, incoming, keepId);
            && p.wants == Wants(g, Kept(g, keepId), incoming) && |p.ids| == |p.wants|
            && p.kept == (if keepId in g.files then keepId else 0)
            && (KeptProfile(g, keepId).Some? <==> keepId in g.files) && (keepId in g.files ==> keepId != 0)
  {
  }

  lemma FinishedLength(g: GroupDir, p: Plan, full: GroupDir)
    requires |p.ids| == |p.wants| && Finished(g, p, full)
    ensures |full.config.order| == |p.wants| + if p.kept != 0 then 1 else 0
    ensures p.kept != 0 ==> full.config.order[0] == p.kept
  {
    hide SameXray, XrayStored, NewProfile;
  }

  lemma OwnIsOld(g: GroupDir, kept: nat, a: Identity)
    ensures forall id :: id in Listed(g) ==> id in g.files
    ensures IdsOf(PoolOf(g, kept), a) == OldIds(g.files, Listed(g), kept, a)
  {
    ListedFacts(g);
    PoolHoldsOldIds(g.files, Listed(g), kept, a);
  }

  lemma OwnIsStored(g: GroupDir, kept: nat, a: Identity, id: nat)
    requires id in IdsOf(PoolOf(g, kept), a)
    ensures id in g.files && StoredIdentity(g.files[id]) == a
  {
    ListedFacts(g);
    PoolEntries(g.files, Listed(g), kept);
    IdsOfInPool(PoolOf(g, kept), a, id);
  }

  /** The profile written for an entry: what the entry says, and the measurements of the
      file it replaces if that is the same server. */
  lemma NewProfileAnswers(files: map<nat, Profile>, d: Incoming, id: nat)
    ensures var p := NewProfile(files, d, id);
            && p.id == id && Describes(p, d)
            && p.latency == if id in files && StoredIdentity(files[id]) == WantedIdentity(d) then files[id].latency else UNTESTED
  {
    hide StoredIdentity, WantedIdentity;
  }

  lemma FinishedEntry(g: GroupDir, p: Plan, full: GroupDir, i: nat)
    requires i < |p.ids| == |p.wants| && PlanIds(g, p) && Finished(g, p, full)
    ensures var shift := if p.kept != 0 then 1 else 0;
            |full.config.order| == shift + |p.wants| && full.config.order[shift + i] == p.ids[i]
    ensures p.ids[i] in full.files && full.files[p.ids[i]].id == p.ids[i] && Describes(full.files[p.ids[i]], p.wants[i])
    ensures XrayStored(full.xray, p.ids[i], p.wants[i])
    ensures full.files[p.ids[i]].latency ==
              if p.ids[i] in g.files && StoredIdentity(g.files[p.ids[i]]) == WantedIdentity(p.wants[i])
              then g.files[p.ids[i]].latency else UNTESTED
  {
    hide PlanIds, SameXray, Counter, Kept, StoredIdentity, WantedIdentity, XrayStored, NewProfile;
    assert full.files[p.ids[i]] == NewProfile(g.files, p.wants[i], p.ids[i]);
    NewProfileAnswers(g.files, p.wants[i], p.ids[i]);
  }

  /** A finished refresh leaves exactly the profiles of its order, each listed
      once and none above the saved counter, which never goes back. */
  lemma OrderMatchesFiles(g: GroupDir, incoming: seq<Incoming>, keepId: nat)
    requires ValidDir(g)
    ensures var full := Refreshed(g, incoming, keepId);
            && ValidDir(full)
            && Distinct(full.config.order) && ToSet(full.config.order) == full.files.Keys
            && full.config.lastId >= g.config.lastId
            && (forall id :: id in g.files || id in full.files ==> id <= full.config.lastId)
            && (forall id :: id in g.files && id !in full.files ==> id !in full.xray)
            && full == GroupDir(g.config.(order := full.config.order, lastId := full.config.lastId), full.files, full.xray)
  {
    hide *;
    var p, full := PlanOf(g, incoming, keepId), Refreshed(g, incoming, keepId);
    PlanIdsHold(g, incoming, keepId);
    RefreshedIsFinished(g, incoming, keepId);
    FinishedIsSaved(g, p, full);
    SavedIsValid(g, p, full);
    FinishedOrder(g, p, full);
  }

  lemma FinishedOrder(g: GroupDir, p: Plan, full: GroupDir)
    requires |p.ids| == |p.wants| && PlanIds(g, p) && Finished(g, p, full)
    ensures Distinct(full.config.order) && ToSet(full.config.order) == full.files.Keys
    ensures full.config.lastId >= g.config.lastId
    ensures forall id :: id in g.files || id in full.files ==> id <= full.config.lastId
    ensures forall id :: id in g.files && id !in full.files ==> id !in full.xray
    ensures full.config == g.config.(order := full.config.order, lastId := full.config.lastId)
  {
    hide *;
    FinishedConfig(g, p, full);
    NewOrderIsDistinct(g, p);
    FinishedIsSaved(g, p, full);
    SavedFiles(g, p, full);
    FinishedKeys(g, p, full);
    PlanCounts(g, p);
  }

  lemma FinishedKeys(g: GroupDir, p: Plan, full: GroupDir)
    requires |p.ids| == |p.wants| && Finished(g, p, full)
    ensures ToSet(NewOrder(p)) == full.files.Keys
  {
    hide Saved, NewOrder;
  }

  lemma PlanCounts(g: GroupDir, p: Plan)
    requires |p.ids| == |p.wants| && PlanIds(g, p)
    ensures g.config.lastId <= p.last && forall id :: id in g.files ==> id <= p.last
  {
    ListedFacts(g);
    hide Counter, Listed;
  }

  lemma FinishedConfig(g: GroupDir, p: Plan, full: GroupDir)
    requires |p.ids| == |p.wants| && Finished(g, p, full)
    ensures full.config == g.config.(order := full.config.order, lastId := full.config.lastId)
    ensures forall id :: id in g.files && id !in full.files ==> id !in full.xray
  {
    hide SameXray, XrayStored, NewProfile;
  }

  /** Whether the refresh ends, fails or is cut off: the connected profile's file
      and configuration are the ones it had, and on success it is listed first. */
  lemma ConnectedProfileSurvives(g: GroupDir, incoming: seq<Incoming>, keepId: nat, fate: nat -> Fate)
    requires ValidDir(g) && keepId in g.files
    ensures var h := Interrupted(g, incoming, keepId, fate);
            keepId in h.files && h.files[keepId] == g.files[keepId] && SameXray(h.xray, g.xray, keepId)
    ensures [keepId] <= Refreshed(g, incoming, keepId).config.order
  {
    var p := PlanOf(g, incoming, keepId);
    PlanIdsHold(g, incoming, keepId);
    AnyInterruption(g, incoming, keepId, fate);
    RefreshedIsFinished(g, incoming, keepId);
  }

  /** Until the new configuration is durable the group is what it was: same order and
      counter, and under every old id a profile of the same identity, unless an entry
      without its configuration has been written there. */
  lemma FailureKeepsTheGroup(g: GroupDir, incoming: seq<Incoming>, keepId: nat, fate: nat -> Fate)
    requires ValidDir(g)
    ensures var p, h := PlanOf(g, incoming, keepId), Interrupted(g, incoming, keepId, fate);
            || (h.config == NewConfig(g, p) && forall id :: id in NewOrder(p) ==> id in h.files)
            || (h.config == g.config && KeepsOldIdentities(g, p, h, WrittenCount(p.wants, fate, 0)))
  {
    hide *;
    var p, h := PlanOf(g, incoming, keepId), Interrupted(g, incoming, keepId, fate);
    PlanIdsHold(g, incoming, keepId);
    AnyInterruption(g, incoming, keepId, fate);
    if Saved(g, p, h, false) {
      SavedHasOrder(g, p, h, false);
      SavedHasConfig(g, p, h);
    } else {
      UnderwayKeepsOldIdentities(g, p, h, WrittenCount(p.wants, fate, 0));
    }
  }

  /** Every old id is still in use, for the same identity unless one of the first `k`
      entries is stored there as something else than it was matched as. */
  ghost predicate KeepsOldIdentities(g: GroupDir, p: Plan, h: GroupDir, k: nat)
    requires k <= |p.ids| == |p.wants|
  {
    forall id :: id in g.files ==>
      && id in h.files
      && (StoredIdentity(h.files[id]) == StoredIdentity(g.files[id]) <==>
            forall i :: 0 <= i < k && p.ids[i] == id ==> Configured(p.wants[i]))
  }

  lemma SavedHasConfig(g: GroupDir, p: Plan, h: GroupDir)
    requires |p.ids| == |p.wants| && Saved(g, p, h, false)
    ensures h.config == NewConfig(g, p)
  {
  }

  lemma UnderwayKeepsOldIdentities(g: GroupDir, p: Plan, h: GroupDir, k: nat)
    requires k <= |p.ids| == |p.wants| && PlanIds(g, p) && Underway(g, p, h, k, false)
    ensures h.config == g.config && KeepsOldIdentities(g, p, h, k)
  {
    forall id | id in g.files
      ensures id in h.files
      ensures StoredIdentity(h.files[id]) == StoredIdentity(g.files[id]) <==>
              forall i :: 0 <= i < k && p.ids[i] == id ==> Configured(p.wants[i])
    {
      if id in p.ids[..k] {
        var i :| 0 <= i < k && p.ids[i] == id;
        StoredAsWanted(g.files, p.wants[i], id);
        hide NewProfile, StoredIdentity, Configured, SameXray, Counter;
      }
    }
  }

  lemma {:induction false} WantsMembers(g: GroupDir, kept: nat, incoming: seq<Incoming>, d: Incoming)
    requires kept != 0 && kept in g.files
    ensures d in Wants(g, kept, incoming) <==>
            d in incoming && WantedIdentity(d) != SkipTarget(g.files[kept])
  {
    if incoming != [] {
      assert incoming == [incoming[0]] + incoming[1..];
      WantsMembers(g, kept, incoming[1..], d);
    }
  }

  /** An entry that is not recognised as the connected profile, but stored as it: both
      are managed and have no key, or the entry lacks its configuration and has the
      URI of the connected profile. */
  predicate Doubles(kept: Profile, d: Incoming) {
    d.managed &&
    if kept.managed then kept.providerKey == "" && d.providerKey == "" && d.config != ""
    else d.config == "" && TrimSpace(d.uri) == TrimSpace(kept.uri)
  }

  lemma DoublesAre(kept: Profile, d: Incoming)
    ensures Doubles(kept, d) <==> WantedIdentity(d) != SkipTarget(kept) && StoredAs(d) == StoredIdentity(kept)
  {
    hide TrimSpace;
  }

  /** After a refresh no other profile has the identity of the connected one, if and
      only if the subscription holds no entry that doubles it. */
  lemma ConnectedIdentityIsUnique(g: GroupDir, incoming: seq<Incoming>, keepId: nat)
    requires ValidDir(g) && keepId in g.files
    ensures var full := Refreshed(g, incoming, keepId);
            (forall id :: id in full.files && id != keepId ==>
               StoredIdentity(full.files[id]) != StoredIdentity(g.files[keepId]))
            <==>
            !exists d :: d in incoming && Doubles(g.files[keepId], d)
  {
    hide *;
    var p, full, kept := PlanOf(g, incoming, keepId), Refreshed(g, incoming, keepId), g.files[keepId];
    PlanIdsHold(g, incoming, keepId);
    RefreshedIsFinished(g, incoming, keepId);
    KeptWants(g, incoming, keepId);
    if d :| d in incoming && Doubles(kept, d) {
      DoublesAre(kept, d);
      var i :| 0 <= i < |p.wants| && p.wants[i] == d;
      ImportedAt(g, p, full, i);
    } else {
      forall id | id in full.files && id != keepId
        ensures StoredIdentity(full.files[id]) != StoredIdentity(kept)
      {
        var i := ImportedFrom(g, p, full, id);
        ImportedAt(g, p, full, i);
        assert p.wants[i] in p.wants;
        DoublesAre(kept, p.wants[i]);
      }
    }
  }

  /** What a refresh that keeps `keepId` imports. */
  lemma KeptWants(g: GroupDir, incoming: seq<Incoming>, keepId: nat)
    requires ValidDir(g) && keepId in g.files
    ensures var p := PlanOf(g, incoming, keepId);
            && p.kept == keepId && |p.ids| == |p.wants|
            && (forall d :: d in p.wants <==> d in incoming && WantedIdentity(d) != SkipTarget(g.files[keepId]))
  {
    forall d ensures d in Wants(g, keepId, incoming) <==>
                     d in incoming && WantedIdentity(d) != SkipTarget(g.files[keepId]) {
      WantsMembers(g, keepId, incoming, d);
    }
  }

  lemma ImportedAt(g: GroupDir, p: Plan, full: GroupDir, i: nat)
    requires i < |p.ids| == |p.wants| && PlanIds(g, p) && Finished(g, p, full)
    ensures p.ids[i] != p.kept && p.ids[i] in full.files
    ensures StoredIdentity(full.files[p.ids[i]]) == StoredAs(p.wants[i])
  {
    hide XrayStored, SameXray, TrimSpace, NewConfig, Counter, WantedIdentity;
    assert p.ids[i] in p.ids;
  }

  lemma ImportedFrom(g: GroupDir, p: Plan, full: GroupDir, id: nat) returns (i: nat)
    requires |p.ids| == |p.wants| && Finished(g, p, full) && id in full.files && id != p.kept
    ensures i < |p.ids| && p.ids[i] == id
  {
    hide XrayStored, SameXray, NewConfig, Saved;
    i :| 0 <= i < |p.ids| && p.ids[i] == id;
  }

  /** Whatever becomes of a refresh of the profile list, the group's settings are
      those it was started with. */
  lemma SettingsAreCarried(g: GroupDir, incoming: seq<Incoming>, keepId: nat, fate: nat -> Fate)
    requires ValidDir(g)
    ensures var h := Interrupted(g, incoming, keepId, fate);
            h.config.settings == g.config.settings && h.config.id == g.config.id
  {
    AnyInterruption(g, incoming, keepId, fate);
  }
}
