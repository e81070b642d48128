/** The profile database as the daemon runs it: one object whose methods read and
    rewrite group directories file by file. */
module ProfileStore {
  import opened Listings
  import opened Profiles
  import opened Text
  import opened IdAssignment
  import opened Refresh
  import opened Fates
  import opened RefreshRuns
  import opened RefreshReplans
  import opened Cursors
  import opened StoreOps

  /** A group as its readers see it: profiles in effective order. */
  datatype Listing = Listing(config: GroupConfig, profiles: seq<Profile>)

  datatype RefreshResult =
    | NoSuchGroup
    | Imported(profiles: seq<Profile>)
    | Stopped(profiles: seq<Profile>)

  ghost predicate ListsGroup(g: GroupDir, r: Listing) {
    && r.config == g.config.(order := Listed(g))
    && |r.profiles| == |Listed(g)|
    && forall i :: 0 <= i < |r.profiles| ==>
         Listed(g)[i] in g.files && r.profiles[i] == g.files[Listed(g)[i]]
  }

  function NewProfiles(files: map<nat, Profile>, wants: seq<Incoming>, ids: seq<nat>): seq<Profile>
    requires |wants| == |ids|
  {
    seq(|ids|, i requires 0 <= i < |ids| => NewProfile(files, wants[i], ids[i]))
  }

  /** The profiles a refresh reports: the kept one, then the imported ones. */
  function Reported(g: GroupDir, p: Plan): seq<Profile>
    requires |p.wants| == |p.ids| && (p.kept != 0 ==> p.kept in g.files)
  {
    (if p.kept != 0 then [g.files[p.kept]] else []) + NewProfiles(g.files, p.wants, p.ids)
  }

  /** What a refresh reports that stops after `k` entries: the kept profile and those
      of the entries that were stored completely. */
  function ReportedUpTo(g: GroupDir, p: Plan, k: nat): seq<Profile>
    requires k <= |p.wants| == |p.ids| && (p.kept != 0 ==> p.kept in g.files)
  {
    Reported(g, p)[..k + if p.kept != 0 then 1 else 0]
  }

  // ---- listing ----

  lemma LeastIsFirst(s: set<nat>, r: seq<nat>, m: nat)
    requires m in s && forall x :: x in s ==> m <= x
    ensures r + Ascending(s) == (r + [m]) + Ascending(s - {m})
  {
    assert Least(s) == m;
    assert r + ([m] + Ascending(s - {m})) == (r + [m]) + Ascending(s - {m});
  }

  /** What a refresh of group `g` leaves on disk and reports. */
  ghost predicate RefreshOutcome(g: GroupDir, incoming: seq<Incoming>, keepId: nat, fate: nat -> Fate, h: GroupDir, r: RefreshResult) {
    var p := PlanOf(g, incoming, keepId);
    var o := Run(g, RefreshOps(g, p), fate, 0);
    && h == Interrupted(g, incoming, keepId, fate)
    && (p.kept != 0 ==> p.kept in g.files)
    && (o.completed ==> r == Imported(Reported(g, p)))
    && (!o.completed ==> r == Stopped(ReportedUpTo(g, p, StoredCount(p.wants, fate, 0))))
  }

  /** sort.Ints */
  method SortInts(s: set<nat>) returns (r: seq<nat>)
    ensures r == Ascending(s)
  {
    hide Ascending;
    r := [];
    var rest := s;
    while rest != {}
      invariant r + Ascending(rest) == Ascending(s)
      decreases |rest|
    {
      assert Least(rest) in rest;
      var m :| m in rest && forall x :: x in rest ==> m <= x;
      LeastIsFirst(rest, r, m);
      r, rest := r + [m], rest - {m};
    }
    assert Ascending({}) == [] by { NothingAscends(); }
  }

  lemma NothingAscends()
    ensures Ascending({}) == []
  {
  }

  lemma OrderedStep(left: set<nat>, order: seq<nat>, i: nat, r: seq<nat>)
    requires i < |order|
    ensures r + Ordered(left, order[i..]) ==
            if order[i] in left then (r + [order[i]]) + Ordered(left - {order[i]}, order[i + 1..])
            else r + Ordered(left, order[i + 1..])
  {
  }

  lemma StruckOut(stored: set<nat>, order: seq<nat>, i: nat)
    requires i < |order|
    ensures (stored - ToSet(order[..i])) - {order[i]} == stored - ToSet(order[..i + 1])
  {
  }

  /** The effective order of the `stored` ids under a stored order list: known
      ids are taken from a shrinking set, what remains follows sorted. */
  method EffectiveOrder(stored: set<nat>, order: seq<nat>) returns (r: seq<nat>)
    ensures r == ListIds(stored, order)
  {
    hide Ordered, Ascending, ToSet;
    r := [];
    var left := stored;
    assert stored - ToSet(order[..0]) == stored by { NothingStruckOut(stored, order); }
    for i := 0 to |order|
      invariant left == stored - ToSet(order[..i])
      invariant r + Ordered(left, order[i..]) == Ordered(stored, order)
    {
      StruckOut(stored, order, i);
      OrderedStep(left, order, i, r);
      if order[i] in left {
        r := r + [order[i]];
        left := left - {order[i]};
      } else {
        assert left - {order[i]} == left;
      }
    }
    assert order[..|order|] == order && order[|order|..] == [];
    NothingOrdered(left);
    NothingAscends();
    if |left| > 0 {
      var remaining := SortInts(left);
      r := r + remaining;
    }
  }

  lemma NothingStruckOut(stored: set<nat>, order: seq<nat>)
    ensures stored - ToSet(order[..0]) == stored
  {
  }

  lemma NothingOrdered(left: set<nat>)
    ensures Ordered(left, []) == []
  {
  }

  /** An order list without one id. */
  method DropId(order: seq<nat>, id: nat) returns (r: seq<nat>)
    ensures r == Without(order, id)
  {
    r := [];
    assert order[0..] == order;
    for i := 0 to |order|
      invariant r + Without(order[i..], id) == Without(order, id)
    {
      assert order[i..][1..] == order[i + 1..];
      if order[i] != id {
        assert r + ([order[i]] + Without(order[i + 1..], id)) == (r + [order[i]]) + Without(order[i + 1..], id);
        r := r + [order[i]];
      }
    }
  }

  // ---- steps of a refresh ----

  /** A skipped entry is one of the kept profile's identity. */
  predicate Superseded(kept: nat, keepUri: string, keepKey: string, data: Incoming) {
    kept != 0 && (
      || (data.managed && keepKey != "" && data.providerKey == keepKey)
      || (!data.managed && keepKey == "" && TrimSpace(data.uri) == keepUri))
  }

  lemma WantsStep(g: GroupDir, kept: nat, incoming: seq<Incoming>, i: nat)
    requires kept != 0 ==> kept in g.files
    requires i < |incoming|
    ensures Wants(g, kept, incoming[i..]) ==
            if kept != 0 && WantedIdentity(incoming[i]) == SkipTarget(g.files[kept])
            then Wants(g, kept, incoming[i + 1..])
            else [incoming[i]] + Wants(g, kept, incoming[i + 1..])
  {
  }

  /** How far the import has come: `j` ids are handed out, `pool` and `last` are
      what the remaining entries draw from. */
  ghost predicate Drawing(p: Plan, j: nat, pool: seq<Entry>, last: nat, used: set<nat>) {
    && j <= |p.ids| == |p.wants|
    && Assign(pool, last, Identities(p.wants[j..])) == Assignment(p.ids[j..], p.last)
    && Unique(pool) && Below(pool, last)
    && (forall e :: e in pool ==> e.id !in used && e.id != 0)
  }

  lemma DrawStep(p: Plan, j: nat, pool: seq<Entry>, last: nat, used: set<nat>)
    requires Drawing(p, j, pool, last, used) && j < |p.ids|
    ensures var a := WantedIdentity(p.wants[j]);
            var own := IdsOf(pool, a);
            var last' := if own == [] then last + 1 else last;
            && p.ids[j] == (if own == [] then last' else own[0]) && (own != [] ==> own[0] != 0)
            && Drawing(p, j + 1, Take(pool, a), last', used + {p.ids[j]})
  {
    var a := WantedIdentity(p.wants[j]);
    var own := IdsOf(pool, a);
    assert Identities(p.wants[j..])[1..] == Identities(p.wants[j + 1..]);
    assert p.ids[j..][0] == p.ids[j] && p.ids[j..][1..] == p.ids[j + 1..];
    TakeDropsOne(pool, a, a);
    TakeKeepsUnique(pool, a);
    if own == [] {
      NothingTaken(pool, a);
    } else {
      IdsOfInPool(pool, a, own[0]);
    }
  }

  lemma {:induction false} NothingTaken(pool: seq<Entry>, a: Identity)
    requires IdsOf(pool, a) == []
    ensures Take(pool, a) == pool
  {
    if pool != [] {
      NothingTaken(pool[1..], a);
    }
  }

  lemma StartsDrawing(g: GroupDir, incoming: seq<Incoming>, keepId: nat, used: set<nat>)
    requires ValidDir(g)
    requires var kept := PlanOf(g, incoming, keepId).kept; used == if kept != 0 then {kept} else {}
    ensures var p := PlanOf(g, incoming, keepId);
            && Drawing(p, 0, PoolOf(g, p.kept), Counter(g), used)
            && PoolOf(g, p.kept) == Pool(g.files, Listed(g), p.kept)
  {
    var p := PlanOf(g, incoming, keepId);
    ListedFacts(g);
    PoolEntries(g.files, Listed(g), p.kept);
    assert p.wants[0..] == p.wants && p.ids[0..] == p.ids;
  }

  /** The operations left once `j` profiles are written. */
  ghost function OpsFrom(g: GroupDir, p: Plan, j: nat): seq<Op>
    requires j <= |p.ids| == |p.wants|
  {
    ProfileOps(g.files, p.wants[j..], p.ids[j..])
    + ([SaveConfig(NewConfig(g, p))] + StaleOps(Listed(g), NewOrder(p)))
  }

  function WriteOps(profile: Profile, config: string): seq<Op> {
    [WriteProfile(profile), if profile.managed then WriteXray(profile.id, config) else DropXray(profile.id)]
  }

  /** The profile is written, and its configuration stored or dropped; errors in dropping
      are ignored. */
  predicate BothWritten(profile: Profile, fate: nat -> Fate, n: nat) {
    fate(n) == Done && (fate(n + 1) == Done || (fate(n + 1) == Failed && !profile.managed))
  }

  lemma OpsStep(g: GroupDir, p: Plan, j: nat)
    requires j < |p.ids| == |p.wants|
    ensures OpsFrom(g, p, j) ==
            WriteOps(NewProfile(g.files, p.wants[j], p.ids[j]), p.wants[j].config) + OpsFrom(g, p, j + 1)
  {
  }

  lemma OpsEnds(g: GroupDir, p: Plan)
    requires |p.ids| == |p.wants|
    ensures OpsFrom(g, p, 0) == RefreshOps(g, p)
    ensures OpsFrom(g, p, |p.ids|) == [SaveConfig(NewConfig(g, p))] + StaleOps(Listed(g), NewOrder(p))
  {
  }

  lemma StaleStep(listed: seq<nat>, used: seq<nat>, i: nat)
    requires i < |listed|
    ensures StaleOps(listed[i..], used) ==
            if listed[i] in used then StaleOps(listed[i + 1..], used)
            else [DropProfile(listed[i]), DropXray(listed[i])] + StaleOps(listed[i + 1..], used)
  {
  }

  /** What a refresh looks up about the stored profiles. */
  ghost predicate Tables(g: GroupDir, x: Index, byId: map<nat, Profile>, last: nat) {
    && (forall id :: id in Listed(g) ==> id in g.files) && 0 !in Listed(g)
    && Indexes(x, g.files, Listed(g)) && (forall a :: 0 !in Candidates(x, a))
    && byId == g.files && last == Counter(g)
  }

  lemma TablesMean(g: GroupDir, x: Index, byId: map<nat, Profile>, last: nat)
    requires Tables(g, x, byId, last)
    ensures (forall id :: id in Listed(g) ==> id in g.files) && 0 !in Listed(g)
    ensures Indexes(x, g.files, Listed(g)) && forall a :: 0 !in Candidates(x, a)
    ensures byId == g.files && last == Counter(g)
  {
  }

  // ---- the database object ----

  class Database {
    var groups: map<nat, GroupDir>
    var lastGroupId: nat
    var groupOrder: seq<nat>

    function State(): Store
      reads this
    {
      Store(groups, lastGroupId, groupOrder)
    }

    ghost predicate Valid()
      reads this
    {
      ValidStore(State())
    }

    constructor ()
      ensures Valid() && State() == Store(map[], 0, [])
    {
      groups, lastGroupId, groupOrder := map[], 0, [];
    }

    /** One group with its profiles in effective order; the stored order list may
        be stale, partial or repeat entries. */
    method GetGroupDataAndProfiles(gid: nat) returns (r: Option<Listing>)
      ensures r.None? <==> gid !in groups
      ensures r.Some? ==> ListsGroup(groups[gid], r.value)
    {
      if gid !in groups {
        return None;
      }
      var g := groups[gid];
      var order := EffectiveOrder(g.files.Keys, g.config.order);
      ListedFacts(g);
      var profiles := [];
      for i := 0 to |order|
        invariant |profiles| == i
        invariant forall k :: 0 <= k < i ==> order[k] in g.files && profiles[k] == g.files[order[k]]
      {
        assert order[i] in order;
        profiles := profiles + [g.files[order[i]]];
      }
      return Some(Listing(g.config.(order := order), profiles));
    }

    /** Perform one file operation of a group; `false` means it did not happen. */
    method Perform(gid: nat, op: Op, fate: Fate) returns (ok: bool)
      requires gid in groups
      modifies this`groups
      ensures ok <==> fate == Done
      ensures groups == if ok then old(groups)[gid := Apply(old(groups)[gid], op)] else old(groups)
    {
      ok := fate == Done;
      if ok {
        groups := groups[gid := Apply(groups[gid], op)];
      }
    }

    /** Perform operation number `n` of a list; `false` ends the list. `all` holds
        the groups before the list was started, and `total` is how it ends. */
    method Do(gid: nat, op: Op, fate: nat -> Fate, n: nat, ghost rest: seq<Op>, ghost all: map<nat, GroupDir>, ghost total: Outcome)
      returns (ok: bool)
      requires gid in groups && groups == all[gid := groups[gid]]
      requires total == Run(groups[gid], [op] + rest, fate, n)
      modifies this`groups
      ensures gid in groups && groups == all[gid := groups[gid]]
      ensures groups[gid] == if fate(n) == Done then Apply(old(groups)[gid], op) else old(groups)[gid]
      ensures ok <==> fate(n) == Done || (fate(n) == Failed && op.BestEffort())
      ensures total == if ok then Run(groups[gid], rest, fate, n + 1) else Outcome(groups[gid], false)
      ensures ok && rest == [] ==> total == Outcome(groups[gid], true)
    {
      RunOne(groups[gid], op, rest, fate, n);
      var done := Perform(gid, op, fate(n));
      RunOne(groups[gid], op, rest, fate, n + 1);
      ok := done || (fate(n) == Failed && op.BestEffort());
    }

    /** Write a profile file, then store or drop its configuration. */
    method WriteEntry(gid: nat, profile: Profile, config: string, fate: nat -> Fate, n: nat, ghost rest: seq<Op>)
      returns (ok: bool)
      requires gid in groups
      modifies this`groups
      ensures gid in groups && groups == old(groups)[gid := groups[gid]]
      ensures ok <==> BothWritten(profile, fate, n)
      ensures Run(old(groups)[gid], WriteOps(profile, config) + rest, fate, n) ==
              if ok then Run(groups[gid], rest, fate, n + 2) else Outcome(groups[gid], false)
    {
      ghost var g := groups[gid];
      ghost var write, store := WriteOps(profile, config)[0], WriteOps(profile, config)[1];
      assert WriteOps(profile, config) + rest == [write, store] + rest;
      RunTwo(g, write, store, rest, fate, n);
      ok := Perform(gid, WriteProfile(profile), fate(n));
      if ok {
        RunTwo(groups[gid], write, store, rest, fate, n);
        if profile.managed {
          ok := Perform(gid, WriteXray(profile.id, config), fate(n + 1));
        } else {
          var dropped := Perform(gid, DropXray(profile.id), fate(n + 1));
          ok := fate(n + 1) != Crashed;
        }
      }
    }

    /** Remove the files of the profiles that the new order does not use. Errors
        are ignored; only a crash ends it early. */
    method RemoveStale(gid: nat, listed: seq<nat>, used: set<nat>, fate: nat -> Fate, start: nat, ghost order: seq<nat>)
      returns (ok: bool)
      requires gid in groups && used == ToSet(order)
      modifies this`groups
      ensures gid in groups && groups == old(groups)[gid := groups[gid]]
      ensures Run(old(groups)[gid], StaleOps(listed, order), fate, start) == Outcome(groups[gid], ok)
    {
      var n := start;
      assert listed[0..] == listed;
      for i := 0 to |listed|
        invariant gid in groups && groups == old(groups)[gid := groups[gid]]
        invariant Run(old(groups)[gid], StaleOps(listed, order), fate, start) ==
                  Run(groups[gid], StaleOps(listed[i..], order), fate, n)
      {
        StaleStep(listed, order, i);
        if listed[i] !in used {
          var id := listed[i];
          ghost var rest := StaleOps(listed[i + 1..], order);
          RunTwo(groups[gid], DropProfile(id), DropXray(id), rest, fate, n);
          if fate(n) == Crashed {
            return false;
          }
          var dropped := Perform(gid, DropProfile(id), fate(n));
          RunTwo(groups[gid], DropProfile(id), DropXray(id), rest, fate, n);
          if fate(n + 1) == Crashed {
            return false;
          }
          dropped := Perform(gid, DropXray(id), fate(n + 1));
          n := n + 2;
        }
      }
      return true;
    }

    /** Make the new configuration durable, then remove what it does not use. */
    method SaveAndClean(gid: nat, config: GroupConfig, listed: seq<nat>, used: set<nat>, fate: nat -> Fate, n: nat, ghost order: seq<nat>)
      returns (ok: bool)
      requires gid in groups && used == ToSet(order)
      modifies this`groups
      ensures gid in groups && groups == old(groups)[gid := groups[gid]]
      ensures Run(old(groups)[gid], [SaveConfig(config)] + StaleOps(listed, order), fate, n) == Outcome(groups[gid], ok)
    {
      SaveFirst(groups[gid], config, StaleOps(listed, order), fate, n);
      ok := Perform(gid, SaveConfig(config), fate(n));
      if ok {
        ok := RemoveStale(gid, listed, used, fate, n + 1, order);
      }
    }

    /** The lookup tables of the stored profiles and the id counter. */
    method IndexProfiles(g: GroupDir, listing: Listing) returns (x: Index, byId: map<nat, Profile>, last: nat)
      requires ValidDir(g) && ListsGroup(g, listing)
      ensures Tables(g, x, byId, last)
    {
      var profiles := listing.profiles;
      ghost var order := Listed(g);
      hide Indexes, MaxOf, IdsOf, Pool, Counter, Listed, File;
      ListedFacts(g);
      CounterIs(g);
      x, byId, last := Index(map[], map[]), map[], listing.config.lastId;
      StartsIndexed(g.files);
      NoMaximum(g.config.lastId);
      for i := 0 to |profiles|
        invariant forall id :: id in order[..i] ==> id in g.files
        invariant Indexes(x, g.files, order[..i])
        invariant forall id :: id in byId ==> id in g.files && byId[id] == g.files[id]
        invariant forall k :: 0 <= k < i ==> order[k] in byId
        invariant last == MaxOf(order[..i], g.config.lastId)
      {
        var p := profiles[i];
        assert order[..i + 1] == order[..i] + [order[i]];
        FileExtends(x, g.files, order[..i], order[i]);
        MaxOfOneMore(order[..i], order[i], g.config.lastId);
        byId := byId[p.id := p];
        x := File(x, p);
        if p.id > last {
          last := p.id;
        }
      }
      assert order[..|order|] == order;
      assert forall id :: id in g.files ==> id in order;
      CandidatesAreStored(x, g.files, order);
    }

    /** The import loop: pick an id for each entry that is not superseded by the
        kept profile, and write its files. `n` counts the file operations. */
    method ImportEntries(gid: nat, profiles: seq<Incoming>, x: Index, byId: map<nat, Profile>, kept: nat, start: nat,
                         fate: nat -> Fate, ghost keepId: nat)
      returns (ok: bool, order: seq<nat>, used: set<nat>, added: seq<Profile>, last: nat, n: nat)
      requires gid in groups && ValidDir(groups[gid])
      requires Tables(groups[gid], x, byId, start)
      requires kept == Kept(groups[gid], keepId)
      modifies this`groups
      ensures gid in groups && groups == old(groups)[gid := groups[gid]]
      ensures var g := old(groups)[gid];
              var p := PlanOf(g, profiles, keepId);
              var o := Run(g, RefreshOps(g, p), fate, 0);
              && (p.kept != 0 ==> p.kept in g.files)
              && (ok ==>
                    && order == NewOrder(p) && used == ToSet(order) && added == Reported(g, p) && last == p.last
                    && o == Run(groups[gid], [SaveConfig(NewConfig(g, p))] + StaleOps(Listed(g), NewOrder(p)), fate, n))
              && (ok ==> StoredCount(p.wants, fate, 0) == |p.wants|)
              && added == ReportedUpTo(g, p, StoredCount(p.wants, fate, 0))
              && (!ok ==> o == Outcome(groups[gid], false))
    {
      hide *;
      ghost var g := groups[gid];
      var keepUri, keepKey := "", "";
      added, order, used, last := [], [], {}, start;
      TablesMean(g, x, byId, start);
      KeptIs(g, keepId);
      if kept != 0 {
        if byId[kept].managed {
          keepKey := byId[kept].providerKey;
        } else {
          keepUri := TrimSpace(byId[kept].uri);
        }
        added, order, used := [byId[kept]], [kept], {kept};
      }

      ghost var p, pool, j := PlanOf(g, profiles, keepId), PoolOf(g, kept), 0;
      PlanShape(g, profiles, keepId);
      StartsDrawing(g, profiles, keepId, used);
      StartsSynced(x, g.files, Listed(g), kept);
      StartsImporting(g, p);
      OpsEnds(g, p);
      var c := Positions(map[], map[]);
      ok, n := true, 0;
      assert profiles[0..] == profiles && p.wants[0..] == p.wants;
      for i := 0 to |profiles|
        invariant ok && gid in groups && groups == old(groups)[gid := groups[gid]]
        invariant j <= |p.ids| && p.wants[j..] == Wants(g, kept, profiles[i..])
        invariant Drawing(p, j, pool, last, used) && Synced(x, c, pool, kept)
        invariant Importing(g, p, j, order, added, used)
        invariant StoredCount(p.wants, fate, 0) == j + StoredCount(p.wants[j..], fate, n)
        invariant Run(g, RefreshOps(g, p), fate, 0) == Run(groups[gid], OpsFrom(g, p, j), fate, n)
      {
        var data := profiles[i];
        WantsStep(g, kept, profiles, i);
        SupersededMeans(g, kept, keepUri, keepKey, data);
        if Superseded(kept, keepUri, keepKey, data) {
          continue;
        }
        DrawnNext(g, kept, p, j, profiles, i);
        DrawStep(p, j, pool, last, used);
        DrawingMeans(g, p, j, pool, last, order, added, used);
        var id;
        id, c := PickId(x, c, used, data, pool, kept);
        if id == 0 {
          last := last + 1;
          id := last;
        }
        pool := Take(pool, WantedIdentity(data));
        var profile := NewProfile(byId, data, id);
        OpsStep(g, p, j);
        StoredStep(g.files, p, j, fate, n);
        ok := WriteEntry(gid, profile, data.config, fate, n, OpsFrom(g, p, j + 1));
        ImportStep(g, p, j, order, added, used);
        assert groups == old(groups)[gid := groups[gid]];
        if !ok {
          return;
        }
        order, used, added := order + [id], used + {id}, added + [profile];
        n, j := n + 2, j + 1;
      }
      ImportEnds(g, p, profiles, j, order, added, used, pool, last);
    }

    /** Merge a downloaded subscription into a group: old ids are reused by
        identity, the kept profile is pinned, profiles are written before the
        configuration and stale files removed after it. `fate` says what becomes of
        each file operation. */
    method UpdateGroupAndProfiles(gid: nat, profiles: seq<Incoming>, keepId: nat, fate: nat -> Fate)
      returns (r: RefreshResult)
      requires Valid()
      modifies this`groups
      ensures Valid()
      ensures gid !in old(groups) ==> r == NoSuchGroup && groups == old(groups)
      ensures gid in old(groups) ==>
                && gid in groups && groups == old(groups)[gid := groups[gid]]
                && RefreshOutcome(old(groups)[gid], profiles, keepId, fate, groups[gid], r)
    {
      ghost var s := State();
      assert gid in groups ==> ValidDir(groups[gid]);
      RefreshStaysValid(s, gid, profiles, keepId, fate);
      hide *;
      r := ReplaceProfiles(gid, profiles, keepId, fate);
      if gid in s.groups {
        ValidAgain(s, gid, profiles, keepId, fate, State(), r);
      }
    }

    /** The refresh itself. */
    method ReplaceProfiles(gid: nat, profiles: seq<Incoming>, keepId: nat, fate: nat -> Fate) returns (r: RefreshResult)
      requires gid in groups ==> ValidDir(groups[gid])
      modifies this`groups
      ensures gid !in old(groups) ==> r == NoSuchGroup && groups == old(groups)
      ensures gid in old(groups) ==>
                && gid in groups && groups == old(groups)[gid := groups[gid]]
                && RefreshOutcome(old(groups)[gid], profiles, keepId, fate, groups[gid], r)
    {
      hide *;
      var listing := GetGroupDataAndProfiles(gid);
      if listing.None? {
        return NoSuchGroup;
      }
      ghost var g, p := groups[gid], PlanOf(groups[gid], profiles, keepId);
      KeptIs(g, keepId);
      var x, byId, lastId := IndexProfiles(groups[gid], listing.value);
      assert byId == g.files by { TablesMean(g, x, byId, lastId); }
      var kept := if keepId != 0 && keepId in byId then keepId else 0;
      var ok, order, used, added, last, n := ImportEntries(gid, profiles, x, byId, kept, lastId, fate, keepId);
      if !ok {
        OutcomeHolds(g, profiles, keepId, fate, groups[gid], ok, added);
        return Stopped(added);
      }
      ConfigIsNew(g, p, listing.value, order);
      var config := listing.value.config.(lastId := last, order := order);
      ok := SaveAndClean(gid, config, listing.value.config.order, used, fate, n, order);
      OutcomeHolds(g, profiles, keepId, fate, groups[gid], ok, added);
      return if ok then Imported(added) else Stopped(added);
    }

    // ---- groups and single profiles ----

    method AddGroup(name: string, url: string, host: string, fate: nat -> Fate) returns (gid: nat, ok: bool)
      requires Valid()
      modifies this
      ensures Valid()
      ensures Ended(State(), ok) == AddedGroup(old(State()), name, url, host, fate)
      ensures gid == old(lastGroupId) + 1
    {
      gid := lastGroupId + 1;
      if fate(0) != Done {
        return gid, false;
      }
      lastGroupId := gid;
      groupOrder := groupOrder + [gid];
      if fate(1) != Done {
        return gid, false;
      }
      groups := groups - {gid};
      if fate(2) != Done || fate(3) != Done {
        return gid, false;
      }
      var settings := FreshSettings(name, url, host, gid);
      groups := groups[gid := GroupDir(GroupConfig(gid, 0, [], settings), map[], map[])];
      return gid, true;
    }

    method DeleteGroup(gid: nat, fate: nat -> Fate) returns (ok: bool)
      requires Valid()
      modifies this
      ensures Valid()
      ensures Ended(State(), ok) == DeletedGroup(old(State()), gid, fate)
    {
      if fate(0) != Done {
        return false;
      }
      groups := groups - {gid};
      var order := DropId(groupOrder, gid);
      if fate(1) == Done {
        groupOrder := order;
      }
      return fate(1) != Crashed;
    }

    /** Every group that exists, each once, in effective order. */
    method GetAllGroupsAndProfiles() returns (r: seq<Listing>)
      ensures |r| == |ListIds(groups.Keys, groupOrder)|
      ensures forall i :: 0 <= i < |r| ==>
                ListIds(groups.Keys, groupOrder)[i] in groups && ListsGroup(groups[ListIds(groups.Keys, groupOrder)[i]], r[i])
    {
      var order := EffectiveOrder(groups.Keys, groupOrder);
      ListIdsIsListing(groups.Keys, groupOrder);
      hide ListsGroup, ListIds, SortedFor;
      r := [];
      for i := 0 to |order|
        invariant |r| == i
        invariant forall k :: 0 <= k < i ==> order[k] in groups && ListsGroup(groups[order[k]], r[k])
      {
        assert order[i] in order;
        var listing := GetGroupDataAndProfiles(order[i]);
        r := r + [listing.value];
      }
    }

    method ReorderGroups(ids: seq<nat>, fate: nat -> Fate) returns (ok: bool)
      requires Valid()
      modifies this`groupOrder
      ensures Valid()
      ensures Ended(State(), ok) == ReorderedGroups(old(State()), ids, fate)
    {
      ok := fate(0) == Done;
      if ok {
        groupOrder := ids;
      }
    }

    method ReorderProfiles(gid: nat, ids: seq<nat>, fate: nat -> Fate) returns (ok: bool)
      requires Valid()
      modifies this`groups
      ensures Valid()
      ensures Ended(State(), ok) == ReorderedProfiles(old(State()), gid, ids, fate)
    {
      ReorderedIsValid(State(), gid, ids, fate);
      ok := gid in groups;
      if ok {
        var save := SaveConfig(groups[gid].config.(order := ids));
        assert [save] == [save] + [];
        ok := Do(gid, save, fate, 0, [], groups, Run(groups[gid], [save], fate, 0));
      }
    }

    /** A new profile under the next id of its group. */
    method AddProfile(data: Incoming, fate: nat -> Fate) returns (r: Option<Profile>)
      requires Valid()
      modifies this`groups
      ensures Valid()
      ensures Ended(State(), r.Some?) == AddedProfile(old(State()), data, fate)
      ensures r.Some? ==> data.groupId in groups && r.value == NewProfile(map[], data, groups[data.groupId].config.lastId)
    {
      AddedIsValid(State(), data, fate);
      if data.groupId !in groups {
        return None;
      }
      hide ValidStore, AddOps, Run;
      r := WriteNewProfile(data, fate);
    }

    method WriteNewProfile(data: Incoming, fate: nat -> Fate) returns (r: Option<Profile>)
      requires data.groupId in groups
      modifies this`groups
      ensures var gid := data.groupId;
              && gid in groups && groups == old(groups)[gid := groups[gid]]
              && Run(old(groups)[gid], AddOps(old(groups)[gid], data), fate, 0) == Outcome(groups[gid], r.Some?)
              && (r.Some? ==> r.value == NewProfile(map[], data, groups[gid].config.lastId))
    {
      hide Run, NewProfile;
      var gid, config, all := data.groupId, groups[data.groupId].config, groups;
      var id := config.lastId + 1;
      config := config.(lastId := id, order := config.order + [id]);
      var profile := NewProfile(map[], data, id);
      ghost var total := Run(groups[gid], AddOps(groups[gid], data), fate, 0);
      ghost var store := if profile.managed then [WriteXray(id, data.config)] + [] else [];
      assert profile.id == id by { NewProfileId(data, id); }
      assert AddOps(groups[gid], data) == [SaveConfig(config)] + ([ClearProfile(id)] + ([WriteProfile(profile)] + store));
      hide AddOps;
      var ok := Do(gid, SaveConfig(config), fate, 0, [ClearProfile(id)] + ([WriteProfile(profile)] + store), all, total);
      if ok {
        ok := Do(gid, ClearProfile(id), fate, 1, [WriteProfile(profile)] + store, all, total);
      }
      if ok {
        ok := Do(gid, WriteProfile(profile), fate, 2, store, all, total);
      }
      if ok && profile.managed {
        ok := Do(gid, WriteXray(id, data.config), fate, 3, [], all, total);
      }
      return if ok then Some(profile) else None;
    }

    /** Remove a profile, its stored configuration and its entry in the order. */
    method DeleteProfile(gid: nat, id: nat, fate: nat -> Fate) returns (ok: bool)
      requires Valid()
      modifies this`groups
      ensures Valid()
      ensures Ended(State(), ok) == DeletedProfile(old(State()), gid, id, fate)
    {
      DeletedIsValid(State(), gid, id, fate);
      ok := true;
      if gid in groups {
        hide ValidStore, Run;
        ok := TakeOut(gid, ClearProfile(id), id, fate, 0);
      }
    }

    /** Take a profile out of its group, beginning with the removal `first`. */
    method TakeOut(gid: nat, first: Op, id: nat, fate: nat -> Fate, n: nat) returns (ok: bool)
      requires gid in groups
      modifies this`groups
      ensures gid in groups && groups == old(groups)[gid := groups[gid]]
      ensures var g := old(groups)[gid];
              var tidy := TidyConfig(g.config.(order := Without(g.config.order, id)));
              Run(g, [first] + ([DropXray(id)] + [tidy]), fate, n) == Outcome(groups[gid], ok)
    {
      hide Run, Without;
      var all := groups;
      var order := DropId(groups[gid].config.order, id);
      var tidy := TidyConfig(groups[gid].config.(order := order));
      ghost var total := Run(groups[gid], [first] + ([DropXray(id)] + [tidy]), fate, n);
      ok := Do(gid, first, fate, n, [DropXray(id)] + [tidy], all, total);
      if ok {
        ok := Do(gid, DropXray(id), fate, n + 1, [tidy], all, total);
      }
      if ok {
        assert [tidy] == [tidy] + [];
        ok := Do(gid, tidy, fate, n + 2, [], all, total);
      }
    }

    method RenameProfile(gid: nat, id: nat, name: string, fate: nat -> Fate) returns (r: Option<Profile>)
      requires Valid()
      modifies this`groups
      ensures Valid()
      ensures Ended(State(), r.Some?) == RenamedProfile(old(State()), gid, id, name, fate)
      ensures r.Some? ==> r.value == old(groups)[gid].files[id].(name := name)
    {
      RenamedIsValid(State(), gid, id, name, fate);
      if gid !in groups || id !in groups[gid].files {
        return None;
      }
      var p := groups[gid].files[id].(name := name);
      if p.groupId !in groups || p.id !in groups[p.groupId].files {
        return None;
      }
      if groups[p.groupId].files[p.id].nanoId != p.nanoId {
        return None;
      }
      hide ValidStore, Run;
      assert [WriteProfile(p)] == [WriteProfile(p)] + [];
      var ok := Do(p.groupId, WriteProfile(p), fate, 0, [], groups, Run(groups[p.groupId], [WriteProfile(p)], fate, 0));
      return if ok then Some(p) else None;
    }

    /** Write a profile and its configuration to another group under its next id,
        then take it out of the group it comes from. */
    method MoveProfile(from: nat, to: nat, id: nat, fate: nat -> Fate) returns (r: Option<Profile>)
      requires Valid()
      modifies this`groups
      ensures Valid()
      ensures Ended(State(), r.Some?) == MovedProfile(old(State()), from, to, id, fate)
      ensures r.Some? ==>
                && CanMove(old(State()), from, to, id)
                && r.value == Travelling(old(groups)[from], id, to, old(groups)[to].config.lastId + 1)
    {
      MovedIsValid(State(), from, to, id, fate);
      if from == to || from !in groups || id !in groups[from].files || to !in groups {
        return None;
      }
      var newId := groups[to].config.lastId + 1;
      var p := groups[from].files[id].(groupId := to, id := newId);
      var luggage := if groups[from].files[id].managed && id in groups[from].xray then Some(groups[from].xray[id]) else None;
      ghost var source, a := groups[from], Arrival(groups[from], id, to, groups[to], fate);
      assert luggage == Luggage(source, id) && p == Travelling(source, id, to, newId);
      hide ValidStore, Run, Arrival, LeaveOps;
      var ok := ArriveAndCount(to, p, luggage, fate, source, id, a);
      if ok {
        ok := TakeOut(from, DropProfile(id), id, fate, if luggage.Some? then 3 else 2);
        LeaveIs(source, id);
      }
      return if ok then Some(p) else None;
    }

    /** Write the files of a moved profile, then count it; a profile that could not be
        counted is removed again. */
    method ArriveAndCount(to: nat, p: Profile, luggage: Option<string>, fate: nat -> Fate,
                          ghost source: GroupDir, ghost id: nat, ghost a: Outcome)
      returns (ok: bool)
      requires to in groups && id in source.files && a == Arrival(source, id, to, groups[to], fate)
      requires luggage == Luggage(source, id) && p == Travelling(source, id, to, groups[to].config.lastId + 1)
      modifies this`groups
      ensures to in groups && groups == old(groups)[to := groups[to]]
      ensures a == Outcome(groups[to], ok)
    {
      hide Run, ArriveOps, Luggage, Travelling;
      ghost var all := groups;
      assert p.id == groups[to].config.lastId + 1 by { TravellingId(source, id, to, groups[to].config.lastId + 1); }
      var config, n := groups[to].config, if luggage.Some? then 2 else 1;
      ok := Arrive(to, p, luggage, fate);
      if !ok {
        return;
      }
      PutTwice(all, to, groups[to], Apply(groups[to], SaveConfig(Extended(config))));
      ok := Perform(to, SaveConfig(config.(lastId := p.id, order := config.order + [p.id])), fate(n));
      if !ok && fate(n) == Failed {
        var drop := DropProfile(p.id);
        assert [drop] == [drop] + [];
        var dropped := Do(to, drop, fate, n + 1, [], all, Run(groups[to], [drop], fate, n + 1));
      }
    }

    /** The files of a profile that moves to this group. */
    method Arrive(to: nat, p: Profile, luggage: Option<string>, fate: nat -> Fate) returns (ok: bool)
      requires to in groups
      modifies this`groups
      ensures to in groups && groups == old(groups)[to := groups[to]]
      ensures Run(old(groups)[to], ArriveOps(p, luggage), fate, 0) == Outcome(groups[to], ok)
    {
      hide Run;
      var all := groups;
      ghost var total := Run(groups[to], ArriveOps(p, luggage), fate, 0);
      ghost var store := if luggage.Some? then [WriteXray(p.id, luggage.value)] + [] else [];
      assert ArriveOps(p, luggage) == [WriteProfile(p)] + store;
      ok := Do(to, WriteProfile(p), fate, 0, store, all, total);
      if ok && luggage.Some? {
        ok := Do(to, WriteXray(p.id, luggage.value), fate, 1, [], all, total);
      }
    }
  }

  // ---- glue between the refresh loop and its plan ----

  lemma LeaveIs(source: GroupDir, id: nat)
    ensures LeaveOps(source, id) ==
            [DropProfile(id)] + ([DropXray(id)] + [TidyConfig(source.config.(order := Without(source.config.order, id)))])
  {
  }

  lemma TravellingId(source: GroupDir, id: nat, to: nat, newId: nat)
    requires id in source.files
    ensures Travelling(source, id, to, newId).id == newId
  {
  }

  lemma PutTwice(all: map<nat, GroupDir>, gid: nat, g: GroupDir, h: GroupDir)
    ensures all[gid := g][gid := h] == all[gid := h]
  {
  }

  lemma RefreshStaysValid(s: Store, gid: nat, incoming: seq<Incoming>, keepId: nat, fate: nat -> Fate)
    requires ValidStore(s)
    ensures gid in s.groups ==>
              ValidStore(s.(groups := s.groups[gid := Interrupted(s.groups[gid], incoming, keepId, fate)]))
  {
    if gid in s.groups {
      assert ValidGroup(gid, s.groups[gid]);
      InterruptedIsValid(gid, s.groups[gid], incoming, keepId, fate);
    }
  }

  lemma NewProfileId(data: Incoming, id: nat)
    ensures NewProfile(map[], data, id).id == id
  {
  }

  lemma ValidAgain(s: Store, gid: nat, incoming: seq<Incoming>, keepId: nat, fate: nat -> Fate, t: Store, r: RefreshResult)
    requires gid in s.groups && gid in t.groups && t == s.(groups := s.groups[gid := t.groups[gid]])
    requires ValidStore(s.(groups := s.groups[gid := Interrupted(s.groups[gid], incoming, keepId, fate)]))
    requires RefreshOutcome(s.groups[gid], incoming, keepId, fate, t.groups[gid], r)
    ensures ValidStore(t)
  {
  }

  /** `j` imported profiles are in the order list, the report and the used ids. */
  ghost predicate Importing(g: GroupDir, p: Plan, j: nat, order: seq<nat>, added: seq<Profile>, used: set<nat>) {
    && j <= |p.ids| == |p.wants| && (p.kept != 0 ==> p.kept in g.files)
    && var k := j + if p.kept != 0 then 1 else 0;
    && order == NewOrder(p)[..k] && added == Reported(g, p)[..k] && used == ToSet(order)
  }

  lemma StartsImporting(g: GroupDir, p: Plan)
    requires |p.ids| == |p.wants| && (p.kept != 0 ==> p.kept in g.files)
    ensures if p.kept != 0 then Importing(g, p, 0, [p.kept], [g.files[p.kept]], {p.kept})
            else Importing(g, p, 0, [], [], {})
  {
  }

  lemma ImportStep(g: GroupDir, p: Plan, j: nat, order: seq<nat>, added: seq<Profile>, used: set<nat>)
    requires Importing(g, p, j, order, added, used) && j < |p.ids|
    ensures added == ReportedUpTo(g, p, j)
    ensures Importing(g, p, j + 1, order + [p.ids[j]], added + [NewProfile(g.files, p.wants[j], p.ids[j])], used + {p.ids[j]})
  {
  }

  lemma StoredStep(files: map<nat, Profile>, p: Plan, j: nat, fate: nat -> Fate, n: nat)
    requires j < |p.wants| == |p.ids|
    ensures var profile := NewProfile(files, p.wants[j], p.ids[j]);
            StoredCount(p.wants[j..], fate, n) ==
            if BothWritten(profile, fate, n) then 1 + StoredCount(p.wants[j + 1..], fate, n + 2) else 0
  {
    assert p.wants[j..][1..] == p.wants[j + 1..];
  }

  lemma ImportEnds(g: GroupDir, p: Plan, incoming: seq<Incoming>, j: nat, order: seq<nat>, added: seq<Profile>, used: set<nat>,
                   pool: seq<Entry>, last: nat)
    requires Importing(g, p, j, order, added, used) && Drawing(p, j, pool, last, used)
    requires p.wants[j..] == Wants(g, p.kept, incoming[|incoming|..])
    ensures order == NewOrder(p) && added == Reported(g, p) && used == ToSet(order) && last == p.last
    ensures OpsFrom(g, p, j) == [SaveConfig(NewConfig(g, p))] + StaleOps(Listed(g), NewOrder(p))
    ensures j == |p.wants| && added == ReportedUpTo(g, p, |p.wants|)
  {
  }

  /** How far a refresh came: every entry before was stored, and the next one was not. */
  lemma {:induction false} StoredCountAnswers(wants: seq<Incoming>, fate: nat -> Fate, n: nat, i: nat)
    requires i < |wants|
    ensures var k := StoredCount(wants, fate, n);
            && (i < k ==> fate(n + 2 * i) == Done
                          && (fate(n + 2 * i + 1) == Done || (fate(n + 2 * i + 1) == Failed && !(wants[i].managed && wants[i].config != ""))))
            && (i == k ==> fate(n + 2 * i) != Done || fate(n + 2 * i + 1) == Crashed
                           || (fate(n + 2 * i + 1) == Failed && wants[i].managed && wants[i].config != ""))
    decreases wants
  {
    if i > 0 && EntryStored(wants[0], fate, n) {
      StoredCountAnswers(wants[1..], fate, n + 2, i - 1);
    }
  }

  /** The profiles are those on disk under the first ids of the order. */
  ghost predicate OnDisk(h: GroupDir, order: seq<nat>, profiles: seq<Profile>) {
    |profiles| <= |order| && forall i :: 0 <= i < |profiles| ==> order[i] in h.files && profiles[i] == h.files[order[i]]
  }

  /** What a refresh reports is what is on disk under the new order: all of it when it
      completed, and otherwise the kept profile and the entries stored until then. */
  lemma ReportAnswers(g: GroupDir, incoming: seq<Incoming>, keepId: nat, fate: nat -> Fate, h: GroupDir, r: RefreshResult)
    requires ValidDir(g) && RefreshOutcome(g, incoming, keepId, fate, h, r)
    ensures var p := PlanOf(g, incoming, keepId);
            && !r.NoSuchGroup? && OnDisk(h, NewOrder(p), r.profiles)
            && (r.Imported? ==> |r.profiles| == |NewOrder(p)| && h.config.order == NewOrder(p))
            && (r.Stopped? ==> |r.profiles| == StoredCount(p.wants, fate, 0) + if p.kept != 0 then 1 else 0)
  {
    hide *;
    var p := PlanOf(g, incoming, keepId);
    OutcomeMeans(g, incoming, keepId, fate, h, r);
    PlanIdsHold(g, incoming, keepId);
    AnyInterruption(g, incoming, keepId, fate);
    StoredIsWritten(p.wants, fate, 0);
    ReportedOnDisk(g, p, h, WrittenCount(p.wants, fate, 0));
    if r.Imported? {
      SavedOnDisk(g, p, h);
    } else {
      CutReport(g, p, h, StoredCount(p.wants, fate, 0), WrittenCount(p.wants, fate, 0));
    }
  }

  lemma OutcomeMeans(g: GroupDir, incoming: seq<Incoming>, keepId: nat, fate: nat -> Fate, h: GroupDir, r: RefreshResult)
    requires ValidDir(g) && RefreshOutcome(g, incoming, keepId, fate, h, r)
    ensures var p := PlanOf(g, incoming, keepId);
            && h == Interrupted(g, incoming, keepId, fate) && |p.ids| == |p.wants| && (p.kept != 0 ==> p.kept in g.files)
            && (r == Imported(Reported(g, p)) || r == Stopped(ReportedUpTo(g, p, StoredCount(p.wants, fate, 0))))
            && (r.Imported? ==> Saved(g, p, h, false))
  {
    WholeRun(g, incoming, keepId, false, fate);
    hide PlanOf, Saved, Underway, Reported, ReportedUpTo, WrittenCount, StoredCount, RefreshOps;
  }

  lemma {:induction false} StoredIsWritten(wants: seq<Incoming>, fate: nat -> Fate, n: nat)
    ensures StoredCount(wants, fate, n) <= WrittenCount(wants, fate, n)
  {
    if wants != [] {
      StoredIsWritten(wants[1..], fate, n + 2);
    }
  }

  lemma ReportedAt(g: GroupDir, p: Plan, i: nat)
    requires |p.ids| == |p.wants| && (p.kept != 0 ==> p.kept in g.files)
    ensures var shift := if p.kept != 0 then 1 else 0;
            && |Reported(g, p)| == |NewOrder(p)| == |p.ids| + shift
            && (i < shift ==> NewOrder(p)[i] == p.kept && Reported(g, p)[i] == g.files[p.kept])
            && (shift <= i < |p.ids| + shift ==>
                  && NewOrder(p)[i] == p.ids[i - shift]
                  && Reported(g, p)[i] == NewProfile(g.files, p.wants[i - shift], p.ids[i - shift]))
  {
    hide NewProfile;
  }

  lemma KeptStays(g: GroupDir, p: Plan, h: GroupDir, k: nat)
    requires k <= |p.ids| == |p.wants| && PlanIds(g, p) && p.kept != 0
    requires Saved(g, p, h, false) || Underway(g, p, h, k, false)
    ensures p.kept in h.files && h.files[p.kept] == g.files[p.kept]
  {
    hide SameXray, NewProfile, Counter;
    assert p.kept !in p.ids[..k];
  }

  lemma EntryOnDisk(g: GroupDir, p: Plan, h: GroupDir, k: nat, i: nat)
    requires i < k <= |p.ids| == |p.wants|
    requires (Saved(g, p, h, false) && k == |p.ids|) || Underway(g, p, h, k, false)
    ensures p.ids[i] in h.files && h.files[p.ids[i]] == NewProfile(g.files, p.wants[i], p.ids[i])
  {
    hide SameXray, NewProfile, NewOrder, NewConfig;
  }

  lemma ReportedOnDisk(g: GroupDir, p: Plan, h: GroupDir, k: nat)
    requires k <= |p.ids| == |p.wants| && PlanIds(g, p) && (p.kept != 0 ==> p.kept in g.files)
    requires (Saved(g, p, h, false) && k == |p.ids|) || Underway(g, p, h, k, false)
    ensures OnDisk(h, NewOrder(p), ReportedUpTo(g, p, k))
  {
    hide Saved, Underway, PlanIds, NewOrder, Reported, NewProfile;
    var shift := if p.kept != 0 then 1 else 0;
    ReportedAt(g, p, 0);
    forall i | 0 <= i < k + shift
      ensures NewOrder(p)[i] in h.files && Reported(g, p)[i] == h.files[NewOrder(p)[i]]
    {
      ReportedAt(g, p, i);
      if i < shift {
        KeptStays(g, p, h, k);
      } else {
        EntryOnDisk(g, p, h, k, i - shift);
      }
    }
  }

  lemma SavedOnDisk(g: GroupDir, p: Plan, h: GroupDir)
    requires |p.ids| == |p.wants| && PlanIds(g, p) && (p.kept != 0 ==> p.kept in g.files) && Saved(g, p, h, false)
    ensures OnDisk(h, NewOrder(p), Reported(g, p)) && |Reported(g, p)| == |NewOrder(p)| && h.config.order == NewOrder(p)
  {
    ReportedOnDisk(g, p, h, |p.ids|);
    ReportedAt(g, p, 0);
    SavedFiles(g, p, h);
    hide Saved, PlanIds, NewOrder, Reported, OnDisk;
    assert ReportedUpTo(g, p, |p.ids|) == Reported(g, p);
  }

  lemma CutReport(g: GroupDir, p: Plan, h: GroupDir, stored: nat, k: nat)
    requires stored <= k <= |p.ids| == |p.wants| && (p.kept != 0 ==> p.kept in g.files)
    requires OnDisk(h, NewOrder(p), ReportedUpTo(g, p, k))
    ensures OnDisk(h, NewOrder(p), ReportedUpTo(g, p, stored))
    ensures |ReportedUpTo(g, p, stored)| == stored + if p.kept != 0 then 1 else 0
  {
    hide NewOrder, Reported;
    ReportedAt(g, p, 0);
    var shift := if p.kept != 0 then 1 else 0;
    forall i | 0 <= i < stored + shift ensures ReportedUpTo(g, p, stored)[i] == ReportedUpTo(g, p, k)[i] {
    }
  }

  lemma OutcomeHolds(g: GroupDir, incoming: seq<Incoming>, keepId: nat, fate: nat -> Fate, h: GroupDir, ok: bool, added: seq<Profile>)
    requires var p := PlanOf(g, incoming, keepId);
             && (p.kept != 0 ==> p.kept in g.files)
             && Run(g, RefreshOps(g, p), fate, 0) == Outcome(h, ok)
             && (ok ==> added == Reported(g, p))
             && (!ok ==> added == ReportedUpTo(g, p, StoredCount(p.wants, fate, 0)))
    ensures RefreshOutcome(g, incoming, keepId, fate, h, if ok then Imported(added) else Stopped(added))
  {
  }

  lemma KeptIs(g: GroupDir, keepId: nat)
    ensures Kept(g, keepId) == if keepId != 0 && keepId in g.files then keepId else 0
  {
  }

  lemma ConfigIsNew(g: GroupDir, p: Plan, listing: Listing, order: seq<nat>)
    requires ListsGroup(g, listing) && order == NewOrder(p)
    ensures listing.config.order == Listed(g)
    ensures listing.config.(lastId := p.last, order := order) == NewConfig(g, p)
  {
  }

  lemma SaveFirst(h: GroupDir, config: GroupConfig, stale: seq<Op>, fate: nat -> Fate, n: nat)
    ensures Run(h, [SaveConfig(config)] + stale, fate, n) ==
            if fate(n) == Done then Run(Apply(h, SaveConfig(config)), stale, fate, n + 1) else Outcome(h, false)
  {
  }

  lemma SupersededMeans(g: GroupDir, kept: nat, keepUri: string, keepKey: string, data: Incoming)
    requires kept != 0 ==> kept in g.files
    requires kept != 0 && g.files[kept].managed ==> keepKey == g.files[kept].providerKey && keepUri == ""
    requires kept != 0 && !g.files[kept].managed ==> keepKey == "" && keepUri == TrimSpace(g.files[kept].uri)
    ensures Superseded(kept, keepUri, keepKey, data) <==>
            kept != 0 && WantedIdentity(data) == SkipTarget(g.files[kept])
  {
  }

  lemma DrawnNext(g: GroupDir, kept: nat, p: Plan, j: nat, incoming: seq<Incoming>, i: nat)
    requires kept != 0 ==> kept in g.files
    requires i < |incoming| && j <= |p.wants|
    requires p.wants[j..] == [incoming[i]] + Wants(g, kept, incoming[i + 1..])
    ensures j < |p.wants| && p.wants[j] == incoming[i] && p.wants[j + 1..] == Wants(g, kept, incoming[i + 1..])
  {
  }

  lemma DrawingMeans(g: GroupDir, p: Plan, j: nat, pool: seq<Entry>, last: nat, order: seq<nat>, added: seq<Profile>, used: set<nat>)
    requires Drawing(p, j, pool, last, used) && Importing(g, p, j, order, added, used)
    ensures forall e :: e in pool ==> e.id !in used
    ensures p.kept != 0 ==> p.kept in used
  {
    assert p.kept != 0 ==> NewOrder(p)[0] == p.kept && order[0] in order;
  }

  lemma CandidatesAreStored(x: Index, files: map<nat, Profile>, ids: seq<nat>)
    requires Distinct(ids) && forall id :: id in ids ==> id in files
    requires Indexes(x, files, ids)
    ensures forall a, id :: id in Candidates(x, a) ==> id in ids
  {
    forall a, id | id in Candidates(x, a) ensures id in ids {
      PoolEntries(files, ids, 0);
      IdsOfInPool(Pool(files, ids, 0), a, id);
    }
  }

  lemma StartsIndexed(files: map<nat, Profile>)
    ensures Indexes(Index(map[], map[]), files, [])
  {
  }

  lemma MaxOfOneMore(ids: seq<nat>, id: nat, m: nat)
    ensures MaxOf(ids + [id], m) == if id > MaxOf(ids, m) then id else MaxOf(ids, m)
  {
    MaxOfConcat(ids, [id], m);
  }

  lemma PlanShape(g: GroupDir, incoming: seq<Incoming>, keepId: nat)
    ensures var p := PlanOf(g, incoming, keepId);
            && p.kept == (if keepId != 0 && keepId in g.files then keepId else 0)
            && p.wants == Wants(g, p.kept, incoming)
            && |p.ids| == |p.wants|
  {
  }

  lemma NoMaximum(m: nat)
    ensures MaxOf([], m) == m
  {
  }
}
