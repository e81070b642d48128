/** Over any run of the database operations, any of which may fail or be cut off, an
    id keeps its meaning while it lives and is never issued again, except in the
    ways that are stated here exactly. */
module IdRuns {
  import opened Profiles
  import opened IdAssignment
  import opened Refresh
  import opened Fates
  import opened RefreshRuns
  import opened RefreshReplans
  import opened RefreshLaws
  import opened RetryNecessity
  import opened StoreOps
  import opened ListingOps

  datatype Event =
    | AddGroup(name: string, url: string, host: string)
    | DeleteGroup(gid: nat)
    | AddProfile(data: Incoming)
    | DeleteProfile(gid: nat, id: nat)
    | RenameProfile(gid: nat, id: nat, name: string)
    | MoveProfile(from: nat, to: nat, id: nat)
    | ReorderProfiles(gid: nat, ids: seq<nat>)
    | ReorderGroups(ids: seq<nat>)
    | Refresh(gid: nat, incoming: seq<Incoming>, keepId: nat)
  {
    /** Parsed entries carry the group they were parsed for. */
    predicate WellFormed() {
      Refresh? ==> forall d :: d in incoming ==> d.groupId == gid
    }
  }

  /** An operation, and what becomes of its file operations. */
  datatype Happening = Happening(event: Event, fate: nat -> Fate)

  ghost function Step(s: Store, e: Event, fate: nat -> Fate): Store {
    match e
    case AddGroup(name, url, host) => AddedGroup(s, name, url, host, fate).store
    case DeleteGroup(gid) => DeletedGroup(s, gid, fate).store
    case AddProfile(data) => AddedProfile(s, data, fate).store
    case DeleteProfile(gid, id) => DeletedProfile(s, gid, id, fate).store
    case RenameProfile(gid, id, name) => RenamedProfile(s, gid, id, name, fate).store
    case MoveProfile(from, to, id) => MovedProfile(s, from, to, id, fate).store
    case ReorderProfiles(gid, ids) => ReorderedProfiles(s, gid, ids, fate).store
    case ReorderGroups(ids) => ReorderedGroups(s, ids, fate).store
    case Refresh(gid, incoming, keepId) => RefreshedGroup(s, gid, incoming, keepId, fate)
  }

  ghost function Steps(s: Store, es: seq<Happening>): Store
    decreases |es|
  {
    if es == [] then s else Steps(Step(s, es[0].event, es[0].fate), es[1..])
  }

  ghost predicate AllWellFormed(es: seq<Happening>) {
    forall i :: 0 <= i < |es| ==> es[i].event.WellFormed()
  }

  predicate Live(s: Store, gid: nat, id: nat) {
    gid in s.groups && id in s.groups[gid].files
  }

  function Meaning(s: Store, gid: nat, id: nat): Identity
    requires Live(s, gid, id)
  {
    StoredIdentity(s.groups[gid].files[id])
  }

  /** The id was handed out in that group at some time, or can never be. */
  predicate Issued(s: Store, gid: nat, id: nat) {
    gid <= s.lastGroupId && (gid in s.groups ==> id <= s.groups[gid].config.lastId)
  }

  ghost predicate CountedGroup(gid: nat, g: GroupDir) {
    && ValidGroup(gid, g)
    && forall id :: id in g.files ==> id <= g.config.lastId && g.files[id].groupId == gid
  }

  /** Every live id is at most its counter, and files agree with their names. */
  ghost predicate Counted(s: Store) {
    forall gid :: gid in s.groups ==> gid <= s.lastGroupId && CountedGroup(gid, s.groups[gid])
  }

  /** What was issued in `s` is, in `t`, still the same server or gone for good. */
  ghost predicate KeepsMeaning(s: Store, t: Store) {
    forall gid, id :: Issued(s, gid, id) ==>
      && Issued(t, gid, id)
      && (Live(t, gid, id) ==> Live(s, gid, id) && Meaning(t, gid, id) == Meaning(s, gid, id))
  }

  /** One group replaced by a later version of itself. */
  ghost predicate GroupKeeps(gid: nat, g: GroupDir, h: GroupDir) {
    && CountedGroup(gid, h)
    && g.config.lastId <= h.config.lastId
    && forall id :: id <= g.config.lastId && id in h.files ==>
         id in g.files && StoredIdentity(h.files[id]) == StoredIdentity(g.files[id])
  }

  lemma GroupReplaced(s: Store, gid: nat, h: GroupDir)
    requires Counted(s) && gid in s.groups
    ensures var t := s.(groups := s.groups[gid := h]);
            Counted(t) && KeepsMeaning(s, t) <==> GroupKeeps(gid, s.groups[gid], h)
  {
    var g, t := s.groups[gid], s.(groups := s.groups[gid := h]);
    assert CountedGroup(gid, g);
    hide ValidGroup, StoredIdentity;
    if GroupKeeps(gid, g, h) {
      assert KeepsMeaning(s, t) by { hide CountedGroup; }
    }
    if Counted(t) && KeepsMeaning(s, t) {
      assert CountedGroup(gid, t.groups[gid]);
      assert Issued(s, gid, g.config.lastId);
      forall id | id <= g.config.lastId && id in h.files
        ensures id in g.files && StoredIdentity(h.files[id]) == StoredIdentity(g.files[id])
      {
        assert Issued(s, gid, id) && Live(t, gid, id);
        assert Meaning(t, gid, id) == Meaning(s, gid, id);
      }
    }
  }

  lemma KeepsMeaningIsTransitive(s: Store, t: Store, u: Store)
    requires KeepsMeaning(s, t) && KeepsMeaning(t, u)
    ensures KeepsMeaning(s, u)
  {
    hide Issued;
  }

  // ---- which stops are harmless ----

  /** The write of the profile in its new group is counted or taken back. */
  predicate MoveSettles(s: Store, from: nat, to: nat, id: nat, fate: nat -> Fate) {
    CanMove(s, from, to, id) ==>
      var n := ArrivalLength(s.groups[from], id);
      fate(0) != Done || ArrivalSaved(n, fate) || ArrivalUndone(n, fate)
  }

  /** Among the entries that were written, none without its configuration got the id
      of an old profile; and none drew a new id, unless the counter was saved. */
  ghost predicate RefreshSettles(g: GroupDir, incoming: seq<Incoming>, keepId: nat, fate: nat -> Fate) {
    var p := PlanOf(g, incoming, keepId);
    var k := WrittenCount(p.wants, fate, 0);
    && (forall i :: 0 <= i < k && p.ids[i] in g.files ==> Configured(p.wants[i]))
    && (ConfigSaved(p.wants, fate, 0) || forall i :: 0 <= i < k ==> p.ids[i] in g.files)
  }

  ghost predicate Harmless(s: Store, e: Event, fate: nat -> Fate) {
    match e
    case MoveProfile(from, to, id) => MoveSettles(s, from, to, id, fate)
    case Refresh(gid, incoming, keepId) => gid in s.groups ==> RefreshSettles(s.groups[gid], incoming, keepId, fate)
    case _ => true
  }

  // ---- one operation ----

  /** Operations on groups as a whole. */
  lemma GroupStep(s: Store, e: Event, fate: nat -> Fate)
    requires Counted(s) && (e.AddGroup? || e.DeleteGroup? || e.ReorderGroups?)
    ensures Counted(Step(s, e, fate)) && KeepsMeaning(s, Step(s, e, fate))
  {
    hide CountedGroup, FreshSettings, Without, StoredIdentity;
    if e.AddGroup? {
      var gid := s.lastGroupId + 1;
      var settings := FreshSettings(e.name, e.url, e.host, gid);
      EmptyIsCounted(gid, settings);
    }
  }

  lemma EmptyIsCounted(gid: nat, settings: Settings)
    ensures CountedGroup(gid, GroupDir(GroupConfig(gid, 0, [], settings), map[], map[]))
  {
  }

  lemma AddStep(s: Store, data: Incoming, fate: nat -> Fate)
    requires Counted(s)
    ensures var t := AddedProfile(s, data, fate).store; Counted(t) && KeepsMeaning(s, t)
  {
    hide AddOps, Run, NewProfile;
    var gid := data.groupId;
    if gid in s.groups {
      var g := s.groups[gid];
      var h := Run(g, AddOps(g, data), fate, 0).disk;
      assert CountedGroup(gid, g);
      AddedIsValid(s, data, fate);
      AddTouchesOneProfile(g, data, fate);
      assert NewProfile(map[], data, g.config.lastId + 1).groupId == gid by { NewProfileGroup(data, g.config.lastId + 1); }
      assert AddedProfile(s, data, fate).store.groups[gid] == h;
      GroupReplaced(s, gid, h);
    }
  }

  lemma NewProfileGroup(data: Incoming, id: nat)
    ensures NewProfile(map[], data, id).groupId == data.groupId
  {
  }

  lemma DeleteStep(s: Store, gid: nat, id: nat, fate: nat -> Fate)
    requires Counted(s)
    ensures var t := DeletedProfile(s, gid, id, fate).store; Counted(t) && KeepsMeaning(s, t)
  {
    hide Run, Without;
    if gid in s.groups {
      var g := s.groups[gid];
      var h := Run(g, DeleteOps(g, id), fate, 0).disk;
      assert CountedGroup(gid, g);
      LeaveSteps(g, ClearProfile(id), id, fate, 0);
      GroupReplaced(s, gid, h);
    }
  }

  lemma RenameStep(s: Store, gid: nat, id: nat, name: string, fate: nat -> Fate)
    requires Counted(s)
    ensures var t := RenamedProfile(s, gid, id, name, fate).store; Counted(t) && KeepsMeaning(s, t)
  {
    hide Run;
    if Live(s, gid, id) {
      var g := s.groups[gid];
      var p := g.files[id].(name := name);
      assert CountedGroup(gid, g);
      OneOp(g, WriteProfile(p), fate);
      GroupReplaced(s, gid, Run(g, [WriteProfile(p)], fate, 0).disk);
    }
  }

  lemma ReorderStep(s: Store, gid: nat, ids: seq<nat>, fate: nat -> Fate)
    requires Counted(s)
    ensures var t := ReorderedProfiles(s, gid, ids, fate).store; Counted(t) && KeepsMeaning(s, t)
  {
    hide Run;
    if gid in s.groups {
      var g := s.groups[gid];
      var save := SaveConfig(g.config.(order := ids));
      assert CountedGroup(gid, g);
      OneOp(g, save, fate);
      GroupReplaced(s, gid, Run(g, [save], fate, 0).disk);
    }
  }

  lemma LeaveKeepsGroup(gid: nat, source: GroupDir, id: nat, fate: nat -> Fate, n: nat)
    requires CountedGroup(gid, source)
    ensures GroupKeeps(gid, source, Run(source, LeaveOps(source, id), fate, n).disk)
  {
    hide Run, Without;
    LeaveSteps(source, DropProfile(id), id, fate, n);
  }

  lemma ArrivalKeepsGroup(from: nat, source: GroupDir, id: nat, to: nat, target: GroupDir, fate: nat -> Fate)
    requires id in source.files && CountedGroup(from, source) && CountedGroup(to, target)
    ensures GroupKeeps(to, target, Arrival(source, id, to, target, fate).disk) <==>
            var n := ArrivalLength(source, id);
            fate(0) != Done || ArrivalSaved(n, fate) || ArrivalUndone(n, fate)
  {
    hide Arrival, SameXray;
    ArrivalEnds(source, id, to, target, fate);
    ArrivalIsValid(source, id, to, target, fate);
  }

  lemma MoveStep(s: Store, from: nat, to: nat, id: nat, fate: nat -> Fate)
    requires Counted(s)
    ensures var t := MovedProfile(s, from, to, id, fate).store;
            Counted(t) && KeepsMeaning(s, t) <==> MoveSettles(s, from, to, id, fate)
  {
    if CanMove(s, from, to, id) {
      var source, target := s.groups[from], s.groups[to];
      var a, n := Arrival(source, id, to, target, fate), ArrivalLength(source, id);
      var left := Run(source, LeaveOps(source, id), fate, n + 1).disk;
      var arrived := s.(groups := s.groups[to := a.disk]);
      assert CountedGroup(from, source) && CountedGroup(to, target);
      ArrivalKeepsGroup(from, source, id, to, target, fate);
      ArrivalEnds(source, id, to, target, fate);
      LeaveKeepsGroup(from, source, id, fate, n + 1);
      hide Arrival, Run, LeaveOps, GroupKeeps, CountedGroup, ArrivalSaved, ArrivalUndone, OthersUntouched, HasArrived;
      GroupReplaced(s, to, a.disk);
      if a.completed {
        hide KeepsMeaning, Counted;
        GroupReplaced(arrived, from, left);
        KeepsMeaningIsTransitive(s, arrived, MovedProfile(s, from, to, id, fate).store);
      }
    }
  }

  /** `k` entries are written over the old files, and nothing else is new. */
  ghost predicate WroteFirst(g: GroupDir, p: Plan, h: GroupDir, k: nat)
    requires k <= |p.ids| == |p.wants|
  {
    && (forall i :: 0 <= i < k ==> p.ids[i] in h.files && h.files[p.ids[i]] == NewProfile(g.files, p.wants[i], p.ids[i]))
    && (forall id :: id in h.files && id !in p.ids[..k] ==> id in g.files && h.files[id] == g.files[id])
  }

  lemma InterruptedWrote(g: GroupDir, incoming: seq<Incoming>, keepId: nat, fate: nat -> Fate)
    requires ValidDir(g)
    ensures var p, h := PlanOf(g, incoming, keepId), Interrupted(g, incoming, keepId, fate);
            && WroteFirst(g, p, h, WrittenCount(p.wants, fate, 0))
            && h.config == (if ConfigSaved(p.wants, fate, 0) then NewConfig(g, p) else g.config)
            && (ConfigSaved(p.wants, fate, 0) ==> WrittenCount(p.wants, fate, 0) == |p.ids|)
  {
    hide *;
    var p, h := PlanOf(g, incoming, keepId), Interrupted(g, incoming, keepId, fate);
    PlanIdsHold(g, incoming, keepId);
    AnyInterruption(g, incoming, keepId, fate);
    ConfigAfterRefresh(g, incoming, keepId, fate);
    AllWrittenFirst(p.wants, fate, 0);
    if Underway(g, p, h, WrittenCount(p.wants, fate, 0), false) {
      UnderwayWrote(g, p, h, WrittenCount(p.wants, fate, 0));
    } else {
      SavedWrote(g, p, h);
    }
  }

  lemma SavedWrote(g: GroupDir, p: Plan, h: GroupDir)
    requires |p.ids| == |p.wants| && PlanIds(g, p) && Saved(g, p, h, false)
    ensures WroteFirst(g, p, h, |p.ids|)
  {
    hide NewProfile, SameXray, NewConfig, Counter;
    assert p.ids[..|p.ids|] == p.ids;
  }

  lemma UnderwayWrote(g: GroupDir, p: Plan, h: GroupDir, k: nat)
    requires k <= |p.ids| == |p.wants| && Underway(g, p, h, k, false)
    ensures WroteFirst(g, p, h, k)
  {
    hide NewProfile, SameXray;
  }

  lemma {:induction false} WantsAreIncoming(g: GroupDir, kept: nat, incoming: seq<Incoming>)
    requires kept != 0 ==> kept in g.files
    ensures forall d :: d in Wants(g, kept, incoming) ==> d in incoming
  {
    if incoming != [] {
      WantsAreIncoming(g, kept, incoming[1..]);
    }
  }

  lemma PlanWantsAreIncoming(g: GroupDir, incoming: seq<Incoming>, keepId: nat)
    ensures forall d :: d in PlanOf(g, incoming, keepId).wants ==> d in incoming
  {
    WantsAreIncoming(g, Kept(g, keepId), incoming);
  }

  /** Wherever a refresh stops: its group keeps the meaning of ids exactly in the
      settled cases. */
  lemma RefreshKeepsGroup(gid: nat, g: GroupDir, incoming: seq<Incoming>, keepId: nat, fate: nat -> Fate)
    requires CountedGroup(gid, g) && forall d :: d in incoming ==> d.groupId == gid
    ensures GroupKeeps(gid, g, Interrupted(g, incoming, keepId, fate)) <==> RefreshSettles(g, incoming, keepId, fate)
  {
    hide *;
    var p, h := PlanOf(g, incoming, keepId), Interrupted(g, incoming, keepId, fate);
    CountedMeans(gid, g);
    PlanIdsHold(g, incoming, keepId);
    PlanWantsAreIncoming(g, incoming, keepId);
    InterruptedWrote(g, incoming, keepId, fate);
    InterruptedIsValid(gid, g, incoming, keepId, fate);
    WrittenKeepsGroup(gid, g, p, h, WrittenCount(p.wants, fate, 0), ConfigSaved(p.wants, fate, 0));
    SettledMeans(g, incoming, keepId, fate);
  }

  lemma SettledMeans(g: GroupDir, incoming: seq<Incoming>, keepId: nat, fate: nat -> Fate)
    ensures var p := PlanOf(g, incoming, keepId);
            var k := WrittenCount(p.wants, fate, 0);
            RefreshSettles(g, incoming, keepId, fate) <==>
            && (forall i :: 0 <= i < k && p.ids[i] in g.files ==> Configured(p.wants[i]))
            && (ConfigSaved(p.wants, fate, 0) || forall i :: 0 <= i < k ==> p.ids[i] in g.files)
  {
    hide PlanOf, WrittenCount, ConfigSaved, Configured;
  }

  lemma WrittenKeepsGroup(gid: nat, g: GroupDir, p: Plan, h: GroupDir, k: nat, saved: bool)
    requires k <= |p.ids| == |p.wants| && PlanIds(g, p) && WroteFirst(g, p, h, k)
    requires CountedGroup(gid, g) && ValidGroup(gid, h) && Counter(g) == g.config.lastId
    requires h.config == (if saved then NewConfig(g, p) else g.config) && (saved ==> k == |p.ids|)
    requires forall d :: d in p.wants ==> d.groupId == gid
    ensures GroupKeeps(gid, g, h) <==>
            && (forall i :: 0 <= i < k && p.ids[i] in g.files ==> Configured(p.wants[i]))
            && (saved || forall i :: 0 <= i < k ==> p.ids[i] in g.files)
  {
    hide ValidGroup, Counter;
    forall i | 0 <= i < k
      ensures h.files[p.ids[i]].groupId == gid
      ensures p.ids[i] in g.files ==>
                (StoredIdentity(h.files[p.ids[i]]) == StoredIdentity(g.files[p.ids[i]]) <==> Configured(p.wants[i]))
    {
      assert p.wants[i] in p.wants;
      StoredAsWanted(g.files, p.wants[i], p.ids[i]);
    }
    hide NewProfile, StoredIdentity, Configured;
    forall id | id in h.files
      ensures h.files[id].groupId == gid
      ensures id !in p.ids[..k] ==> id in g.files && h.files[id] == g.files[id] && id <= g.config.lastId
    {
      if id in p.ids[..k] {
        var i :| 0 <= i < k && p.ids[i] == id;
      }
    }
  }

  lemma RefreshStep(s: Store, gid: nat, incoming: seq<Incoming>, keepId: nat, fate: nat -> Fate)
    requires Counted(s) && forall d :: d in incoming ==> d.groupId == gid
    ensures var t := RefreshedGroup(s, gid, incoming, keepId, fate);
            Counted(t) && KeepsMeaning(s, t) <==> (gid in s.groups ==> RefreshSettles(s.groups[gid], incoming, keepId, fate))
  {
    if gid in s.groups {
      assert CountedGroup(gid, s.groups[gid]);
      hide Interrupted, RefreshSettles;
      RefreshKeepsGroup(gid, s.groups[gid], incoming, keepId, fate);
      GroupReplaced(s, gid, Interrupted(s.groups[gid], incoming, keepId, fate));
    }
  }

  /** One operation keeps the meaning of every id exactly when it is harmless. */
  lemma StepKeepsMeaning(s: Store, e: Event, fate: nat -> Fate)
    requires Counted(s) && e.WellFormed()
    ensures Counted(Step(s, e, fate)) && KeepsMeaning(s, Step(s, e, fate)) <==> Harmless(s, e, fate)
  {
    hide Counted, KeepsMeaning, MoveSettles, RefreshSettles, AddedProfile, DeletedProfile, RenamedProfile, MovedProfile,
         ReorderedProfiles, RefreshedGroup;
    match e
    case AddProfile(data) => AddStep(s, data, fate);
    case DeleteProfile(gid, id) => DeleteStep(s, gid, id, fate);
    case RenameProfile(gid, id, name) => RenameStep(s, gid, id, name, fate);
    case MoveProfile(from, to, id) => MoveStep(s, from, to, id, fate);
    case ReorderProfiles(gid, ids) => ReorderStep(s, gid, ids, fate);
    case Refresh(gid, incoming, keepId) => RefreshStep(s, gid, incoming, keepId, fate);
    case _ => GroupStep(s, e, fate);
  }

  // ---- whole runs ----

  ghost predicate AllHarmless(s: Store, es: seq<Happening>)
    decreases |es|
  {
    es == [] ||
    (Harmless(s, es[0].event, es[0].fate) && AllHarmless(Step(s, es[0].event, es[0].fate), es[1..]))
  }

  /** Every store of the run counts its ids, and keeps the meaning of the ids of every
      store before it. */
  ghost predicate KeepsThroughout(s: Store, es: seq<Happening>)
    decreases |es|
  {
    && Counted(s)
    && (forall n :: 0 <= n <= |es| ==> KeepsMeaning(s, Steps(s, es[..n])))
    && (es != [] ==> KeepsThroughout(Step(s, es[0].event, es[0].fate), es[1..]))
  }

  lemma StepsPrefix(s: Store, es: seq<Happening>, n: nat)
    requires 0 < n <= |es|
    ensures Steps(s, es[..n]) == Steps(Step(s, es[0].event, es[0].fate), es[1..][..n - 1])
  {
    hide Step;
    assert es[..n][1..] == es[1..][..n - 1];
  }

  lemma NoSteps(s: Store)
    ensures Steps(s, []) == s && KeepsMeaning(s, s)
  {
  }

  /** Over any run of operations, each of which may fail or be cut off anywhere, live
      ids stay below their counters, an id keeps its identity while it lives, and once
      removed it stays removed, if and only if every operation is harmless. */
  lemma {:induction false} IdsNeverChangeMeaning(s: Store, es: seq<Happening>)
    requires Counted(s) && AllWellFormed(es)
    ensures KeepsThroughout(s, es) <==> AllHarmless(s, es)
    ensures AllHarmless(s, es) ==> Counted(Steps(s, es)) && KeepsMeaning(s, Steps(s, es))
    decreases |es|
  {
    hide Counted, KeepsMeaning, Harmless, Step, Steps;
    NoSteps(s);
    assert es[..0] == [];
    if es == [] {
    } else {
      var t, rest := Step(s, es[0].event, es[0].fate), es[1..];
      StepKeepsMeaning(s, es[0].event, es[0].fate);
      forall n | 0 < n <= |es| ensures Steps(s, es[..n]) == Steps(t, rest[..n - 1]) {
        StepsPrefix(s, es, n);
      }
      NoSteps(t);
      assert rest[..0] == [] && es[..|es|] == es && rest[..|rest|] == rest;
      assert KeepsThroughout(s, es) ==> Counted(t) && KeepsMeaning(s, Steps(s, es[..1])) by { CountedFirst(t, rest); }
      if Harmless(s, es[0].event, es[0].fate) {
        IdsNeverChangeMeaning(t, rest);
        if AllHarmless(t, rest) {
          forall n | 0 <= n <= |es| ensures KeepsMeaning(s, Steps(s, es[..n])) {
            if n > 0 {
              KeptAt(t, rest, n - 1);
              KeepsMeaningIsTransitive(s, t, Steps(t, rest[..n - 1]));
            }
          }
        }
      }
    }
  }

  lemma CountedFirst(s: Store, es: seq<Happening>)
    ensures KeepsThroughout(s, es) ==> Counted(s)
  {
    hide *;
    if KeepsThroughout(s, es) {
      KeptAt(s, es, 0);
    }
  }

  lemma KeptAt(s: Store, es: seq<Happening>, n: nat)
    requires KeepsThroughout(s, es) && n <= |es|
    ensures Counted(s) && KeepsMeaning(s, Steps(s, es[..n]))
  {
    hide Counted, KeepsMeaning, Steps, Step;
  }

  /** No entry without its configuration gets the id of an old profile. */
  ghost predicate Importable(g: GroupDir, incoming: seq<Incoming>, keepId: nat) {
    var p := PlanOf(g, incoming, keepId);
    forall i :: 0 <= i < |p.ids| && p.ids[i] in g.files ==> Configured(p.wants[i])
  }

  lemma {:induction false} SmoothWritesAll(wants: seq<Incoming>, n: nat)
    ensures WrittenCount(wants, AllDone, n) == |wants|
  {
    if wants != [] {
      SmoothWritesAll(wants[1..], n + 2);
    }
  }

  lemma {:induction false} SmoothSaves(wants: seq<Incoming>, n: nat)
    ensures ConfigSaved(wants, AllDone, n)
  {
    if wants != [] {
      SmoothSaves(wants[1..], n + 2);
    }
  }

  lemma CompletedRefreshSettles(g: GroupDir, incoming: seq<Incoming>, keepId: nat)
    ensures RefreshSettles(g, incoming, keepId, AllDone) <==> Importable(g, incoming, keepId)
  {
    hide PlanOf, WrittenCount, ConfigSaved;
    SmoothWritesAll(PlanOf(g, incoming, keepId).wants, 0);
    SmoothSaves(PlanOf(g, incoming, keepId).wants, 0);
  }

  /** An operation that completes is harmless, unless it imports an entry without its
      configuration over an old profile. */
  lemma CompletedIsHarmless(s: Store, e: Event)
    requires Counted(s)
    ensures Harmless(s, e, AllDone) <==> (e.Refresh? && e.gid in s.groups ==> Importable(s.groups[e.gid], e.incoming, e.keepId))
  {
    hide RefreshSettles, Importable;
    if e.Refresh? && e.gid in s.groups {
      assert CountedGroup(e.gid, s.groups[e.gid]);
      CompletedRefreshSettles(s.groups[e.gid], e.incoming, e.keepId);
    }
  }

  // ---- the id that is handed out twice ----

  lemma CountedIsCounter(gid: nat, g: GroupDir)
    requires CountedGroup(gid, g)
    ensures Counter(g) == g.config.lastId
  {
    ListedFacts(g);
    CounterIs(g);
    MaxOfCovered(Listed(g), g.config.lastId);
  }

  /** If any of the first `k` entries drew a new id, one drew the next id. */
  lemma NextIdIsDrawn(g: GroupDir, incoming: seq<Incoming>, keepId: nat, k: nat, i: nat) returns (j: nat)
    requires ValidDir(g)
    requires i < k <= |PlanOf(g, incoming, keepId).ids| && PlanOf(g, incoming, keepId).ids[i] !in g.files
    ensures j < k && PlanOf(g, incoming, keepId).ids[j] == Counter(g) + 1
  {
    hide Counter, StoredIdentity, WantedIdentity;
    var p := PlanOf(g, incoming, keepId);
    var pool, wants := PoolOf(g, p.kept), Identities(p.wants);
    PlanIdsHold(g, incoming, keepId);
    ListedFacts(g);
    PoolEntries(g.files, Listed(g), p.kept);
    FreshIdIsCounted(pool, Counter(g), wants, k, i);
    j := FreshEntryWasDrawn(pool, Counter(g), wants, k, 0);
  }

  /** Wherever a refresh stops: the next id of the group is in use already if and only
      if the counter was not saved and a written entry had drawn a new id. */
  lemma NextIdAfterStop(gid: nat, g: GroupDir, incoming: seq<Incoming>, keepId: nat, fate: nat -> Fate)
    requires CountedGroup(gid, g)
    ensures var p, h := PlanOf(g, incoming, keepId), Interrupted(g, incoming, keepId, fate);
            h.config.lastId + 1 in h.files <==>
            && !ConfigSaved(p.wants, fate, 0)
            && exists i :: 0 <= i < WrittenCount(p.wants, fate, 0) && p.ids[i] !in g.files
  {
    hide *;
    var p, h := PlanOf(g, incoming, keepId), Interrupted(g, incoming, keepId, fate);
    var k := WrittenCount(p.wants, fate, 0);
    CountedMeans(gid, g);
    PlanIdsHold(g, incoming, keepId);
    InterruptedWrote(g, incoming, keepId, fate);
    if exists i :: 0 <= i < k && p.ids[i] !in g.files {
      var i :| 0 <= i < k && p.ids[i] !in g.files;
      var j := NextIdIsDrawn(g, incoming, keepId, k, i);
      WrittenIsThere(g, p, h, k, j);
    }
    NextIdIsWritten(g, p, h, k, ConfigSaved(p.wants, fate, 0));
  }

  lemma CountedMeans(gid: nat, g: GroupDir)
    requires CountedGroup(gid, g)
    ensures ValidDir(g) && ValidGroup(gid, g)
    ensures Counter(g) == g.config.lastId && forall id :: id in g.files ==> id <= g.config.lastId
  {
    CountedIsCounter(gid, g);
  }

  lemma WrittenIsThere(g: GroupDir, p: Plan, h: GroupDir, k: nat, j: nat)
    requires j < k <= |p.ids| == |p.wants| && WroteFirst(g, p, h, k)
    ensures p.ids[j] in h.files
  {
  }

  lemma NextIdIsWritten(g: GroupDir, p: Plan, h: GroupDir, k: nat, saved: bool)
    requires k <= |p.ids| == |p.wants| && PlanIds(g, p) && WroteFirst(g, p, h, k)
    requires forall id :: id in g.files ==> id <= g.config.lastId
    requires h.config == if saved then NewConfig(g, p) else g.config
    ensures h.config.lastId + 1 in h.files ==>
              !saved && exists i :: 0 <= i < k && p.ids[i] !in g.files
  {
    hide NewProfile, StoredIdentity, WantedIdentity;
    ListedFacts(g);
    var next := h.config.lastId + 1;
    if next in h.files && next in p.ids[..k] {
      var i :| 0 <= i < k && p.ids[i] == next;
    }
  }

  /** After a refresh that stopped, the next profile that is added or moved into the
      group takes over the file of another one exactly when the counter was not saved
      and a written entry had drawn a new id. */
  lemma ArrivalAfterStoppedRefresh(gid: nat, g: GroupDir, incoming: seq<Incoming>, keepId: nat, fate: nat -> Fate,
                                   data: Incoming, source: GroupDir, id: nat)
    requires CountedGroup(gid, g) && id in source.files
    ensures var p, h := PlanOf(g, incoming, keepId), Interrupted(g, incoming, keepId, fate);
            var overwrites := !ConfigSaved(p.wants, fate, 0) &&
                              exists i :: 0 <= i < WrittenCount(p.wants, fate, 0) && p.ids[i] !in g.files;
            && (Run(h, AddOps(h, data), AllDone, 0).disk.files.Keys == h.files.Keys <==> overwrites)
            && (Arrival(source, id, gid, h, AllDone).disk.files.Keys == h.files.Keys <==> overwrites)
  {
    hide *;
    NextIdAfterStop(gid, g, incoming, keepId, fate);
    var h := Interrupted(g, incoming, keepId, fate);
    AddTakes(h, data);
    MoveTakes(source, id, gid, h);
    OneMoreKey(h.files.Keys, h.config.lastId + 1);
  }

  lemma AddTakes(g: GroupDir, data: Incoming)
    ensures Run(g, AddOps(g, data), AllDone, 0).disk.files.Keys == g.files.Keys + {g.config.lastId + 1}
  {
    AddCompletes(g, data);
    hide Run, AddOps;
  }

  lemma MoveTakes(source: GroupDir, id: nat, to: nat, target: GroupDir)
    requires id in source.files
    ensures Arrival(source, id, to, target, AllDone).disk.files.Keys == target.files.Keys + {target.config.lastId + 1}
  {
    ArrivalEnds(source, id, to, target, AllDone);
    hide Arrival, Extended;
    var h := Arrival(source, id, to, target, AllDone).disk;
    forall x ensures x in h.files <==> x in target.files || x == target.config.lastId + 1 {
    }
  }

  lemma OneMoreKey(keys: set<nat>, next: nat)
    ensures keys + {next} == keys <==> next in keys
  {
    assert next in keys + {next};
  }

  // ---- refreshes of reachable groups can be repeated ----

  ghost predicate OrderKnown(g: GroupDir) {
    forall id :: id in g.config.order ==> id <= g.config.lastId
  }

  /** No order list names an id that was not issued. */
  ghost predicate OrdersKnown(s: Store) {
    forall gid :: gid in s.groups ==> OrderKnown(s.groups[gid])
  }

  /** The client reorders only ids that were issued. */
  ghost predicate KnownReorder(s: Store, e: Event) {
    e.ReorderProfiles? && e.gid in s.groups ==> forall id :: id in e.ids ==> id <= s.groups[e.gid].config.lastId
  }

  ghost predicate KnownReorders(s: Store, es: seq<Happening>)
    decreases |es|
  {
    es == [] || (KnownReorder(s, es[0].event) && KnownReorders(Step(s, es[0].event, es[0].fate), es[1..]))
  }

  lemma DeletedOrderKnown(g: GroupDir, id: nat)
    requires OrderKnown(g)
    ensures OrderKnown(DeletedFrom(g, id))
  {
    WithoutMembers(g.config.order, id);
  }

  lemma LeavingKeepsOrder(g: GroupDir, first: Op, id: nat, fate: nat -> Fate, n: nat)
    requires OrderKnown(g) && (first == ClearProfile(id) || first == DropProfile(id))
    ensures OrderKnown(Run(g, [first] + ([DropXray(id)] + [TidyConfig(g.config.(order := Without(g.config.order, id)))]), fate, n).disk)
  {
    LeaveSteps(g, first, id, fate, n);
    DeletedOrderKnown(g, id);
    hide Run, Without;
  }

  lemma ExtendedOrderKnown(g: GroupDir, h: GroupDir)
    requires OrderKnown(g) && (h.config == g.config || h.config == Extended(g.config))
    ensures OrderKnown(h)
  {
  }

  lemma InterruptedOrderKnown(g: GroupDir, incoming: seq<Incoming>, keepId: nat, fate: nat -> Fate)
    requires ValidDir(g) && OrderKnown(g)
    ensures OrderKnown(Interrupted(g, incoming, keepId, fate))
  {
    hide PlanOf, Interrupted, WroteFirst, WrittenCount, Counter, StoredIdentity, WantedIdentity;
    var p := PlanOf(g, incoming, keepId);
    PlanIdsHold(g, incoming, keepId);
    InterruptedWrote(g, incoming, keepId, fate);
    ListedFacts(g);
  }

  lemma MoveKeepsOrders(s: Store, from: nat, to: nat, id: nat, fate: nat -> Fate)
    requires OrdersKnown(s)
    ensures OrdersKnown(MovedProfile(s, from, to, id, fate).store)
  {
    if CanMove(s, from, to, id) {
      var source, target := s.groups[from], s.groups[to];
      var a := Arrival(source, id, to, target, fate);
      ArrivalEnds(source, id, to, target, fate);
      ExtendedOrderKnown(target, a.disk);
      LeavingKeepsOrder(source, DropProfile(id), id, fate, ArrivalLength(source, id) + 1);
      hide Arrival, OrderKnown, Run;
    }
  }

  lemma StepKeepsOrders(s: Store, e: Event, fate: nat -> Fate)
    requires ValidStore(s) && OrdersKnown(s) && KnownReorder(s, e)
    ensures OrdersKnown(Step(s, e, fate))
  {
    hide Run, AddOps, Arrival, Interrupted, Without;
    match e
    case AddProfile(data) =>
      if data.groupId in s.groups {
        var g := s.groups[data.groupId];
        AddTouchesOneProfile(g, data, fate);
        ExtendedOrderKnown(g, Run(g, AddOps(g, data), fate, 0).disk);
      }
    case DeleteProfile(gid, id) =>
      if gid in s.groups {
        LeavingKeepsOrder(s.groups[gid], ClearProfile(id), id, fate, 0);
      }
    case RenameProfile(gid, id, name) => RenameKeepsOrders(s, gid, id, name, fate);
    case MoveProfile(from, to, id) => MoveKeepsOrders(s, from, to, id, fate);
    case ReorderProfiles(gid, ids) =>
      if gid in s.groups {
        OneOp(s.groups[gid], SaveConfig(s.groups[gid].config.(order := ids)), fate);
      }
    case Refresh(gid, incoming, keepId) =>
      if gid in s.groups {
        assert ValidGroup(gid, s.groups[gid]);
        InterruptedOrderKnown(s.groups[gid], incoming, keepId, fate);
      }
    case _ =>
  }

  lemma RenameKeepsOrders(s: Store, gid: nat, id: nat, name: string, fate: nat -> Fate)
    requires OrdersKnown(s)
    ensures OrdersKnown(RenamedProfile(s, gid, id, name, fate).store)
  {
    hide Run;
    if Live(s, gid, id) {
      var p := s.groups[gid].files[id].(name := name);
      if p.groupId in s.groups {
        OneOp(s.groups[p.groupId], WriteProfile(p), fate);
      }
    }
  }

  lemma StepKeepsValid(s: Store, e: Event, fate: nat -> Fate)
    requires ValidStore(s)
    ensures ValidStore(Step(s, e, fate))
  {
    hide AddedProfile, DeletedProfile, RenamedProfile, MovedProfile, ReorderedProfiles, Interrupted;
    match e
    case AddProfile(data) => AddedIsValid(s, data, fate);
    case DeleteProfile(gid, id) => DeletedIsValid(s, gid, id, fate);
    case RenameProfile(gid, id, name) => RenamedIsValid(s, gid, id, name, fate);
    case MoveProfile(from, to, id) => MovedIsValid(s, from, to, id, fate);
    case ReorderProfiles(gid, ids) => ReorderedIsValid(s, gid, ids, fate);
    case Refresh(gid, incoming, keepId) =>
      if gid in s.groups {
        assert ValidGroup(gid, s.groups[gid]);
        InterruptedIsValid(gid, s.groups[gid], incoming, keepId, fate);
      }
    case _ =>
  }

  lemma {:induction false} RunKeepsOrders(s: Store, es: seq<Happening>)
    requires ValidStore(s) && OrdersKnown(s) && KnownReorders(s, es)
    ensures ValidStore(Steps(s, es)) && OrdersKnown(Steps(s, es))
    decreases |es|
  {
    hide Step, ValidStore, OrdersKnown, KnownReorder;
    if es != [] {
      StepKeepsValid(s, es[0].event, es[0].fate);
      StepKeepsOrders(s, es[0].event, es[0].fate);
      RunKeepsOrders(Step(s, es[0].event, es[0].fate), es[1..]);
    }
  }

  /** In every store that operations lead to, failed and cut off ones included, any
      refresh of any group may stop anywhere and be repeated, provided clients reorder
      issued ids only. */
  lemma ReachedGroupsAreRepeatable(s: Store, es: seq<Happening>, gid: nat)
    requires ValidStore(s) && OrdersKnown(s) && KnownReorders(s, es)
    requires gid in Steps(s, es).groups
    ensures forall incoming: seq<Incoming>, keepId: nat, fate: nat -> Fate ::
              var g := Steps(s, es).groups[gid];
              KnownKeep(g, keepId) && AllStorable(g, incoming, keepId) ==> Repeatable(g, incoming, keepId, fate)
  {
    RunKeepsOrders(s, es);
    var g := Steps(s, es).groups[gid];
    assert ValidGroup(gid, g) && OrderKnown(g);
    ListedFacts(g);
    KnownEntriesAreSafe(g);
    RetryNeedsSafeOrder(g);
  }
}
