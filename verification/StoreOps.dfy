/** The group and profile operations of the database as functions on its state and
    on what becomes of their file operations. */
module StoreOps {
  import opened Profiles
  import opened Text
  import opened Fates
  import opened Refresh
  import opened RefreshRuns

  /** config.json and the group directories. */
  datatype Store = Store(groups: map<nat, GroupDir>, lastGroupId: nat, groupOrder: seq<nat>)

  ghost predicate ValidGroup(gid: nat, g: GroupDir) {
    ValidDir(g) && g.config.id == gid
  }

  ghost predicate ValidStore(s: Store) {
    forall gid :: gid in s.groups ==> ValidGroup(gid, s.groups[gid])
  }

  function Without(order: seq<nat>, id: nat): seq<nat> {
    if order == [] then []
    else if order[0] == id then Without(order[1..], id)
    else [order[0]] + Without(order[1..], id)
  }

  /** A group without a name is called after its provider, or numbered. */
  function GroupName(name: string, subName: string, gid: nat): string {
    if name != "" then name else if subName != "" then subName else "Group " + Itoa(gid)
  }

  function FreshSettings(name: string, url: string, host: string, gid: nat): Settings {
    Settings(url, GroupName(name, host, gid), host, false, 0, 0, 0, 0, 0, 0, 0, "", "", "")
  }

  /** The store an operation leaves, and whether it reports success. */
  datatype Ended = Ended(store: Store, ok: bool)

  // ---- groups ----

  /** The counter is saved before the directory is cleared and created. */
  function AddedGroup(s: Store, name: string, url: string, host: string, fate: nat -> Fate): Ended {
    var gid := s.lastGroupId + 1;
    var counted := s.(lastGroupId := gid, groupOrder := s.groupOrder + [gid]);
    var cleared := counted.(groups := s.groups - {gid});
    var config := GroupConfig(gid, 0, [], FreshSettings(name, url, host, gid));
    if fate(0) != Done then Ended(s, false)
    else if fate(1) != Done then Ended(counted, false)
    else if fate(2) != Done || fate(3) != Done then Ended(cleared, false)
    else Ended(cleared.(groups := cleared.groups[gid := GroupDir(config, map[], map[])]), true)
  }

  function DeletedGroup(s: Store, gid: nat, fate: nat -> Fate): Ended {
    var gone := s.(groups := s.groups - {gid});
    if fate(0) != Done then Ended(s, false)
    else Ended(if fate(1) == Done then gone.(groupOrder := Without(s.groupOrder, gid)) else gone, fate(1) != Crashed)
  }

  function ReorderedGroups(s: Store, ids: seq<nat>, fate: nat -> Fate): Ended {
    if fate(0) == Done then Ended(s.(groupOrder := ids), true) else Ended(s, false)
  }

  // ---- profiles of one group ----

  function OnGroup(s: Store, gid: nat, ops: seq<Op>, fate: nat -> Fate): Ended
    requires gid in s.groups
  {
    var r := Run(s.groups[gid], ops, fate, 0);
    Ended(s.(groups := s.groups[gid := r.disk]), r.completed)
  }

  /** A group's configuration with one more id handed out. */
  function Extended(config: GroupConfig): GroupConfig {
    config.(lastId := config.lastId + 1, order := config.order + [config.lastId + 1])
  }

  /** The counter is saved before the profile is written. The profile is new: it
      has no measurements whatever its file held before. */
  function AddOps(g: GroupDir, data: Incoming): seq<Op> {
    var p := NewProfile(map[], data, g.config.lastId + 1);
    [SaveConfig(Extended(g.config))] + ([ClearProfile(p.id)] + ([WriteProfile(p)] +
      if p.managed then [WriteXray(p.id, data.config)] else []))
  }

  function AddedProfile(s: Store, data: Incoming, fate: nat -> Fate): Ended {
    if data.groupId !in s.groups then Ended(s, false)
    else OnGroup(s, data.groupId, AddOps(s.groups[data.groupId], data), fate)
  }

  function DeleteOps(g: GroupDir, id: nat): seq<Op> {
    [ClearProfile(id)] + ([DropXray(id)] + [TidyConfig(g.config.(order := Without(g.config.order, id)))])
  }

  /** Deleting from a group that does not exist is a success. */
  function DeletedProfile(s: Store, gid: nat, id: nat, fate: nat -> Fate): Ended {
    if gid !in s.groups then Ended(s, true) else OnGroup(s, gid, DeleteOps(s.groups[gid], id), fate)
  }

  /** The renamed record is filed under the group and id it carries itself. */
  function RenamedProfile(s: Store, gid: nat, id: nat, name: string, fate: nat -> Fate): Ended {
    if gid !in s.groups || id !in s.groups[gid].files then Ended(s, false)
    else
      var p := s.groups[gid].files[id].(name := name);
      if p.groupId !in s.groups || p.id !in s.groups[p.groupId].files
         || s.groups[p.groupId].files[p.id].nanoId != p.nanoId
      then Ended(s, false)
      else OnGroup(s, p.groupId, [WriteProfile(p)], fate)
  }

  function ReorderedProfiles(s: Store, gid: nat, ids: seq<nat>, fate: nat -> Fate): Ended {
    if gid !in s.groups then Ended(s, false)
    else OnGroup(s, gid, [SaveConfig(s.groups[gid].config.(order := ids))], fate)
  }

  // ---- moving a profile to another group ----

  predicate CanMove(s: Store, from: nat, to: nat, id: nat) {
    from != to && from in s.groups && id in s.groups[from].files && to in s.groups
  }

  function Travelling(source: GroupDir, id: nat, to: nat, newId: nat): Profile
    requires id in source.files
  {
    source.files[id].(groupId := to, id := newId)
  }

  /** The stored configuration that moves along. */
  function Luggage(source: GroupDir, id: nat): Option<string>
    requires id in source.files
  {
    if source.files[id].managed && id in source.xray then Some(source.xray[id]) else None
  }

  function ArriveOps(p: Profile, luggage: Option<string>): seq<Op> {
    [WriteProfile(p)] + if luggage.Some? then [WriteXray(p.id, luggage.value)] else []
  }

  function LeaveOps(source: GroupDir, id: nat): seq<Op> {
    [DropProfile(id)] + ([DropXray(id)] + [TidyConfig(source.config.(order := Without(source.config.order, id)))])
  }

  /** How many operations precede the one that saves the new group's configuration. */
  function ArrivalLength(source: GroupDir, id: nat): nat
    requires id in source.files
  {
    if Luggage(source, id).Some? then 2 else 1
  }

  /** The new group of a moved profile: its files are written, then the configuration;
      if that fails the profile file is removed again. */
  function Arrival(source: GroupDir, id: nat, to: nat, target: GroupDir, fate: nat -> Fate): Outcome
    requires id in source.files
  {
    var newId, n := target.config.lastId + 1, ArrivalLength(source, id);
    var r := Run(target, ArriveOps(Travelling(source, id, to, newId), Luggage(source, id)), fate, 0);
    if !r.completed || fate(n) == Crashed then Outcome(r.disk, false)
    else if fate(n) == Failed then Outcome(Run(r.disk, [DropProfile(newId)], fate, n + 1).disk, false)
    else Outcome(Apply(r.disk, SaveConfig(Extended(target.config))), true)
  }

  /** Only when the profile has arrived does the old group give it up. */
  function MovedProfile(s: Store, from: nat, to: nat, id: nat, fate: nat -> Fate): Ended {
    if !CanMove(s, from, to, id) then Ended(s, false)
    else
      var source := s.groups[from];
      var a := Arrival(source, id, to, s.groups[to], fate);
      var arrived := s.(groups := s.groups[to := a.disk]);
      if !a.completed then Ended(arrived, false)
      else
        var left := Run(source, LeaveOps(source, id), fate, ArrivalLength(source, id) + 1);
        Ended(arrived.(groups := arrived.groups[from := left.disk]), left.completed)
  }

  ghost function RefreshedGroup(s: Store, gid: nat, incoming: seq<Incoming>, keepId: nat, fate: nat -> Fate): Store {
    if gid in s.groups then s.(groups := s.groups[gid := Interrupted(s.groups[gid], incoming, keepId, fate)]) else s
  }

  // ---- the completed operations ----

  lemma RunOne(g: GroupDir, op: Op, rest: seq<Op>, fate: nat -> Fate, n: nat)
    ensures Run(g, [op] + rest, fate, n) ==
            if fate(n) == Done then Run(Apply(g, op), rest, fate, n + 1)
            else if fate(n) == Failed && op.BestEffort() then Run(g, rest, fate, n + 1)
            else Outcome(g, false)
    ensures Run(g, [], fate, n) == Outcome(g, true)
  {
    assert ([op] + rest)[1..] == rest;
  }

  function AddedTo(g: GroupDir, data: Incoming): GroupDir {
    var p := NewProfile(map[], data, g.config.lastId + 1);
    GroupDir(Extended(g.config), g.files[p.id := p], if p.managed then g.xray[p.id := data.config] else g.xray)
  }

  lemma AddCompletes(g: GroupDir, data: Incoming)
    ensures Run(g, AddOps(g, data), AllDone, 0) == Outcome(AddedTo(g, data), true)
  {
    var p := NewProfile(map[], data, g.config.lastId + 1);
    var store := if p.managed then [WriteXray(p.id, data.config)] else [];
    var g1 := Apply(g, SaveConfig(Extended(g.config)));
    var g2 := Apply(g1, ClearProfile(p.id));
    var g3 := Apply(g2, WriteProfile(p));
    RunOne(g, SaveConfig(Extended(g.config)), [ClearProfile(p.id)] + ([WriteProfile(p)] + store), AllDone, 0);
    RunOne(g1, ClearProfile(p.id), [WriteProfile(p)] + store, AllDone, 1);
    RunOne(g2, WriteProfile(p), store, AllDone, 2);
    if p.managed {
      RunOne(g3, WriteXray(p.id, data.config), [], AllDone, 3);
      RunOne(Apply(g3, WriteXray(p.id, data.config)), WriteXray(p.id, data.config), [], AllDone, 4);
    }
    assert g2.files[p.id := p] == g.files[p.id := p];
  }

  function DeletedFrom(g: GroupDir, id: nat): GroupDir {
    GroupDir(g.config.(order := Without(g.config.order, id)), g.files - {id}, g.xray - {id})
  }

  /** What the three steps of taking a profile out of its group leave, when the
      first one is carried out. */
  lemma LeaveSteps(g: GroupDir, first: Op, id: nat, fate: nat -> Fate, n: nat)
    requires first == ClearProfile(id) || first == DropProfile(id)
    ensures var r := Run(g, [first] + ([DropXray(id)] + [TidyConfig(g.config.(order := Without(g.config.order, id)))]), fate, n);
            && r.disk.files == (if fate(n) == Done then g.files - {id} else g.files)
            && (r.disk.xray == g.xray || r.disk.xray == g.xray - {id})
            && (r.disk.config == g.config || r.disk.config == DeletedFrom(g, id).config)
            && (fate(n) == fate(n + 1) == fate(n + 2) == Done ==> r == Outcome(DeletedFrom(g, id), true))
            && (fate(n) != Done && first == ClearProfile(id) ==> r == Outcome(g, false))
  {
    var drop, tidy := DropXray(id), TidyConfig(g.config.(order := Without(g.config.order, id)));
    RunOne(g, first, [drop] + [tidy], fate, n);
    var g1 := if fate(n) == Done then Apply(g, first) else g;
    RunOne(g1, drop, [tidy], fate, n + 1);
    var g2 := if fate(n + 1) == Done then Apply(g1, drop) else g1;
    assert [tidy] == [tidy] + [];
    RunOne(g2, tidy, [], fate, n + 2);
    RunOne(Apply(g2, tidy), tidy, [], fate, n + 3);
    RunOne(g2, tidy, [], fate, n + 3);
  }

  // ---- the answers in the fields of the store ----

  /** A new group is empty, carries the next number, is ordered last and named as asked,
      else after its host, else by its number; the rest of the store is left alone. */
  lemma AddedGroupAnswers(s: Store, name: string, url: string, host: string)
    ensures var e, gid := AddedGroup(s, name, url, host, AllDone), s.lastGroupId + 1;
            && e.ok && e.store.lastGroupId == gid && e.store.groupOrder == s.groupOrder + [gid]
            && gid in e.store.groups
            && var g := e.store.groups[gid];
            && g.files == map[] && g.xray == map[] && g.config.id == gid && g.config.lastId == 0 && g.config.order == []
            && g.config.settings.url == url && g.config.settings.subName == host
            && (g.config.settings.name == if name != "" then name else if host != "" then host else "Group " + Itoa(gid))
            && !g.config.settings.autoUpdateDisabled && g.config.settings.lastUpdated == 0
            && g.config.settings.intervalOverride == 0 && g.config.settings.providerInterval == 0
            && e.store.groups == s.groups[gid := g]
  {
    hide Itoa;
  }

  /** A group that could not be created has used up its number; nothing else is lost but
      what an old directory of that number held. */
  lemma FailedGroupAnswers(s: Store, name: string, url: string, host: string, fate: nat -> Fate)
    ensures var e, gid := AddedGroup(s, name, url, host, fate), s.lastGroupId + 1;
            && (fate(0) != Done ==> e == Ended(s, false))
            && (fate(0) == Done ==> e.store.lastGroupId == gid && e.store.groupOrder == s.groupOrder + [gid])
            && (!e.ok ==> forall x :: x in e.store.groups ==> x in s.groups && e.store.groups[x] == s.groups[x])
            && (forall x :: x in s.groups && x != gid ==> x in e.store.groups && e.store.groups[x] == s.groups[x])
  {
    hide FreshSettings;
  }

  /** A deleted group is gone and all others stay; once its directory is gone its place
      in the order may stay behind only if that write fails. */
  lemma DeletedGroupAnswers(s: Store, gid: nat, fate: nat -> Fate)
    ensures var e := DeletedGroup(s, gid, fate);
            && e.store.lastGroupId == s.lastGroupId
            && (fate(0) != Done ==> e == Ended(s, false))
            && (fate(0) == Done ==>
                  && gid !in e.store.groups
                  && (forall x :: x in e.store.groups <==> x in s.groups && x != gid)
                  && (forall x :: x in e.store.groups ==> e.store.groups[x] == s.groups[x]))
            && (fate(0) == Done && fate(1) == Done ==> e.ok)
            && (fate(0) == Done && fate(1) == Done ==> forall x :: x in e.store.groupOrder <==> x in s.groupOrder && x != gid)
            && (fate(1) != Done ==> e.store.groupOrder == s.groupOrder)
  {
    WithoutMembers(s.groupOrder, gid);
  }

  lemma {:induction false} WithoutMembers(order: seq<nat>, id: nat)
    ensures forall x :: x in Without(order, id) <==> x in order && x != id
    ensures |Without(order, id)| <= |order|
    ensures Without(order, id) == order <==> id !in order
  {
    if order != [] {
      assert order == [order[0]] + order[1..];
      WithoutMembers(order[1..], id);
    }
  }

  lemma OneOp(g: GroupDir, op: Op, fate: nat -> Fate)
    requires !op.BestEffort()
    ensures Run(g, [op], fate, 0) == if fate(0) == Done then Outcome(Apply(g, op), true) else Outcome(g, false)
  {
    assert [op] == [op] + [];
    RunOne(g, op, [], fate, 0);
    RunOne(Apply(g, op), op, [], fate, 1);
  }

  /** A rename takes the record that is found, gives it the name and nothing else, and
      writes it to the group and id it carries, if a profile with its nano id is there. */
  lemma RenameAnswers(s: Store, gid: nat, id: nat, name: string, fate: nat -> Fate)
    ensures var e := RenamedProfile(s, gid, id, name, fate);
            if gid !in s.groups || id !in s.groups[gid].files || fate(0) != Done then e == Ended(s, false)
            else
              var p := s.groups[gid].files[id];
              if p.groupId !in s.groups || p.id !in s.groups[p.groupId].files || s.groups[p.groupId].files[p.id].nanoId != p.nanoId
              then e == Ended(s, false)
              else
                var g := s.groups[p.groupId];
                e == Ended(s.(groups := s.groups[p.groupId := g.(files := g.files[p.id := p.(name := name)])]), true)
  {
    hide Run;
    if gid in s.groups && id in s.groups[gid].files {
      var p := s.groups[gid].files[id];
      if p.groupId in s.groups {
        OneOp(s.groups[p.groupId], WriteProfile(p.(name := name)), fate);
        assert s.groups[p.groupId := s.groups[p.groupId]] == s.groups;
      }
    }
  }

  /** The order list given is the one stored, and nothing else changes. */
  lemma ReorderAnswers(s: Store, gid: nat, ids: seq<nat>, fate: nat -> Fate)
    ensures var e := ReorderedProfiles(s, gid, ids, fate);
            if gid !in s.groups || fate(0) != Done then e == Ended(s, false)
            else
              && e.ok && gid in e.store.groups && e.store.groups[gid].config.order == ids
              && e.store.groups[gid].(config := s.groups[gid].config) == s.groups[gid]
              && e.store.groups[gid].config.(order := s.groups[gid].config.order) == s.groups[gid].config
              && e.store == s.(groups := s.groups[gid := e.store.groups[gid]])
    ensures ReorderedGroups(s, ids, fate) == if fate(0) == Done then Ended(s.(groupOrder := ids), true) else Ended(s, false)
  {
    hide Run;
    if gid in s.groups {
      OneOp(s.groups[gid], SaveConfig(s.groups[gid].config.(order := ids)), fate);
      assert s.groups[gid := s.groups[gid]] == s.groups;
    }
  }

  // ---- every operation keeps the store well formed ----

  /** Nothing is filed under id 0, and the configuration stays with its group. */
  predicate ValidOp(op: Op, gid: nat) {
    && (op.WriteProfile? ==> op.profile.id != 0)
    && (op.SaveConfig? || op.TidyConfig? ==> op.saved.id == gid)
  }

  lemma {:induction false} RunKeepsValid(gid: nat, g: GroupDir, ops: seq<Op>, fate: nat -> Fate, n: nat)
    requires ValidGroup(gid, g) && forall op :: op in ops ==> ValidOp(op, gid)
    ensures ValidGroup(gid, Run(g, ops, fate, n).disk)
    decreases ops
  {
    if ops != [] {
      assert ops[0] in ops && forall op :: op in ops[1..] ==> op in ops;
      assert ValidGroup(gid, Apply(g, ops[0]));
      hide ValidGroup, ValidOp, Apply;
      RunKeepsValid(gid, Apply(g, ops[0]), ops[1..], fate, n + 1);
      RunKeepsValid(gid, g, ops[1..], fate, n + 1);
    }
  }

  lemma {:induction false} ProfileOpsAreValid(files: map<nat, Profile>, wants: seq<Incoming>, ids: seq<nat>, gid: nat)
    requires |wants| == |ids| && 0 !in ids
    ensures forall op :: op in ProfileOps(files, wants, ids) ==> ValidOp(op, gid)
  {
    if wants != [] {
      assert ids[0] in ids && forall id :: id in ids[1..] ==> id in ids;
      ProfileOpsAreValid(files, wants[1..], ids[1..], gid);
    }
  }

  lemma {:induction false} StaleOpsAreValid(listed: seq<nat>, used: seq<nat>, gid: nat)
    ensures forall op :: op in StaleOps(listed, used) ==> ValidOp(op, gid)
  {
    if listed != [] {
      StaleOpsAreValid(listed[1..], used, gid);
    }
  }

  /** Wherever a refresh stops, it leaves a well-formed group. */
  lemma InterruptedIsValid(gid: nat, g: GroupDir, incoming: seq<Incoming>, keepId: nat, fate: nat -> Fate)
    requires ValidGroup(gid, g)
    ensures ValidGroup(gid, Interrupted(g, incoming, keepId, fate))
  {
    var p := PlanOf(g, incoming, keepId);
    PlanIdsHold(g, incoming, keepId);
    ProfileOpsAreValid(g.files, p.wants, p.ids, gid);
    StaleOpsAreValid(Listed(g), NewOrder(p), gid);
    assert ValidOp(SaveConfig(NewConfig(g, p)), gid);
    hide ValidGroup, ValidOp, PlanIds, PlanOf, ProfileOps, StaleOps, NewConfig;
    RunKeepsValid(gid, g, RefreshOps(g, p), fate, 0);
  }

  lemma OnGroupKeepsValid(s: Store, gid: nat, ops: seq<Op>, fate: nat -> Fate)
    requires ValidStore(s) && gid in s.groups && forall op :: op in ops ==> ValidOp(op, gid)
    ensures ValidStore(OnGroup(s, gid, ops, fate).store)
  {
    RunKeepsValid(gid, s.groups[gid], ops, fate, 0);
  }

  lemma AddedIsValid(s: Store, data: Incoming, fate: nat -> Fate)
    requires ValidStore(s)
    ensures ValidStore(AddedProfile(s, data, fate).store)
  {
    if data.groupId in s.groups {
      assert ValidGroup(data.groupId, s.groups[data.groupId]);
      OnGroupKeepsValid(s, data.groupId, AddOps(s.groups[data.groupId], data), fate);
    }
  }

  lemma DeletedIsValid(s: Store, gid: nat, id: nat, fate: nat -> Fate)
    requires ValidStore(s)
    ensures ValidStore(DeletedProfile(s, gid, id, fate).store)
  {
    if gid in s.groups {
      assert ValidGroup(gid, s.groups[gid]);
      OnGroupKeepsValid(s, gid, DeleteOps(s.groups[gid], id), fate);
    }
  }

  lemma RenamedIsValid(s: Store, gid: nat, id: nat, name: string, fate: nat -> Fate)
    requires ValidStore(s)
    ensures ValidStore(RenamedProfile(s, gid, id, name, fate).store)
  {
    if gid in s.groups && id in s.groups[gid].files {
      assert ValidGroup(gid, s.groups[gid]);
      var p := s.groups[gid].files[id].(name := name);
      if p.groupId in s.groups {
        OnGroupKeepsValid(s, p.groupId, [WriteProfile(p)], fate);
      }
    }
  }

  lemma ReorderedIsValid(s: Store, gid: nat, ids: seq<nat>, fate: nat -> Fate)
    requires ValidStore(s)
    ensures ValidStore(ReorderedProfiles(s, gid, ids, fate).store)
  {
    if gid in s.groups {
      assert ValidGroup(gid, s.groups[gid]);
      OnGroupKeepsValid(s, gid, [SaveConfig(s.groups[gid].config.(order := ids))], fate);
    }
  }

  lemma MovedIsValid(s: Store, from: nat, to: nat, id: nat, fate: nat -> Fate)
    requires ValidStore(s)
    ensures ValidStore(MovedProfile(s, from, to, id, fate).store)
  {
    if CanMove(s, from, to, id) {
      var source := s.groups[from];
      assert ValidGroup(from, source) && ValidGroup(to, s.groups[to]);
      ArrivalIsValid(source, id, to, s.groups[to], fate);
      RunKeepsValid(from, source, LeaveOps(source, id), fate, ArrivalLength(source, id) + 1);
      hide ValidGroup, Run, Arrival, LeaveOps;
    }
  }

  lemma ArrivalIsValid(source: GroupDir, id: nat, to: nat, target: GroupDir, fate: nat -> Fate)
    requires id in source.files && ValidGroup(to, target)
    ensures ValidGroup(to, Arrival(source, id, to, target, fate).disk)
  {
    var newId, n := target.config.lastId + 1, ArrivalLength(source, id);
    var ops := ArriveOps(Travelling(source, id, to, newId), Luggage(source, id));
    RunKeepsValid(to, target, ops, fate, 0);
    var r := Run(target, ops, fate, 0);
    RunKeepsValid(to, r.disk, [DropProfile(newId)], fate, n + 1);
    assert ValidGroup(to, Apply(r.disk, SaveConfig(Extended(target.config))));
    hide Run, ArriveOps;
  }
}
