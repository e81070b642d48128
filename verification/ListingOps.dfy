/** What adding, deleting and moving a profile do to the listing, and that deleting
    undoes adding. */
module ListingOps {
  import opened Listings
  import opened Profiles
  import opened Fates
  import opened Refresh
  import opened RefreshRuns
  import opened StoreOps

  // ---- removing an id ----

  lemma {:induction false} WithoutConcat(a: seq<nat>, b: seq<nat>, id: nat)
    ensures Without(a + b, id) == Without(a, id) + Without(b, id)
  {
    if a == [] {
      assert a + b == b;
    } else {
      assert (a + b)[1..] == a[1..] + b;
      WithoutConcat(a[1..], b, id);
    }
  }

  lemma FirstIndexUnfold(x: nat, order: seq<nat>, id: nat)
    ensures FirstIndex([x] + order, id) == if x == id then 0 else 1 + FirstIndex(order, id)
  {
    assert ([x] + order)[1..] == order;
  }

  lemma {:induction false} BeforeWithout(order: seq<nat>, id: nat, a: nat, b: nat)
    requires a != id && b != id
    ensures Before(Without(order, id), a, b) <==> Before(order, a, b)
  {
    if order != [] {
      var x, rest := order[0], order[1..];
      assert order == [x] + rest;
      BeforeWithout(rest, id, a, b);
      FirstIndexUnfold(x, rest, a);
      FirstIndexUnfold(x, rest, b);
      if x != id {
        FirstIndexUnfold(x, Without(rest, id), a);
        FirstIndexUnfold(x, Without(rest, id), b);
      }
      hide FirstIndex;
    }
  }

  lemma {:induction false} WithoutKeepsSorted(order: seq<nat>, r: seq<nat>, id: nat)
    requires SortedFor(order, r)
    ensures SortedFor(Without(order, id), Without(r, id))
  {
    if r != [] {
      assert r == [r[0]] + r[1..];
      WithoutKeepsSorted(order, r[1..], id);
      var tail := Without(r[1..], id);
      WithoutMembers(r[1..], id);
      forall j | r[0] != id && 0 <= j < |tail| ensures Before(Without(order, id), r[0], tail[j]) {
        assert tail[j] in tail;
        var i :| 0 <= i < |r[1..]| && r[1..][i] == tail[j];
        assert Before(order, r[0], r[i + 1]);
        BeforeWithout(order, id, r[0], tail[j]);
      }
    }
  }

  /** Without its file a profile is not listed, whether the order list still names
      it or not; the others stay in order. */
  lemma ListedWithout(g: GroupDir, h: GroupDir, id: nat)
    requires h.files.Keys == g.files.Keys - {id}
    requires h.config.order == g.config.order || h.config.order == Without(g.config.order, id)
    ensures Listed(h) == Without(Listed(g), id)
  {
    hide ListIds, Before, SortedFor;
    var r, order := Listed(g), g.config.order;
    ListIdsIsListing(g.files.Keys, order);
    WithoutMembers(r, id);
    if h.config.order == order {
      SublistIsSorted(order, r, id);
    } else {
      WithoutKeepsSorted(order, r, id);
    }
    ListingIff(h.files.Keys, h.config.order, Without(r, id));
  }

  lemma {:induction false} SublistIsSorted(order: seq<nat>, r: seq<nat>, id: nat)
    requires SortedFor(order, r)
    ensures SortedFor(order, Without(r, id))
  {
    if r != [] {
      assert r == [r[0]] + r[1..];
      SublistIsSorted(order, r[1..], id);
      var tail := Without(r[1..], id);
      WithoutMembers(r[1..], id);
      hide Before;
      forall j | r[0] != id && 0 <= j < |tail| ensures Before(order, r[0], tail[j]) {
        assert tail[j] in tail;
        var i :| 0 <= i < |r[1..]| && r[1..][i] == tail[j];
        assert Before(order, r[0], r[i + 1]);
      }
    }
  }

  /** Whatever becomes of the steps of a deletion: once the file is gone the profile
      is out of the listing and the rest keeps its order; before, nothing changes. */
  lemma ListedAfterDelete(g: GroupDir, id: nat, fate: nat -> Fate)
    ensures var r := Run(g, DeleteOps(g, id), fate, 0);
            if fate(0) == Done then Listed(r.disk) == Without(Listed(g), id) else r == Outcome(g, false)
  {
    hide Without, ListIds, Run;
    LeaveSteps(g, ClearProfile(id), id, fate, 0);
    var h := Run(g, DeleteOps(g, id), fate, 0).disk;
    if fate(0) == Done {
      assert h.files.Keys == g.files.Keys - {id};
      ListedWithout(g, h, id);
    }
  }

  /** A profile that has been taken out of its group has neither a file nor a stored
      configuration nor a place in the order; the counter, the settings and all other
      profiles stay. */
  ghost predicate IsOut(g: GroupDir, id: nat, h: GroupDir) {
    && id !in h.files && id !in h.xray && id !in h.config.order
    && (forall x :: x != id && x in g.config.order ==> x in h.config.order)
    && h.config.(order := g.config.order) == g.config
    && OthersUntouched(g, h, id)
  }

  /** Deleting takes the profile out; so does moving it, in the group it leaves. */
  lemma DeleteAnswers(g: GroupDir, id: nat, fate: nat -> Fate, n: nat)
    requires Smooth(fate)
    ensures var r := Run(g, DeleteOps(g, id), fate, n); r.completed && IsOut(g, id, r.disk)
    ensures var r := Run(g, LeaveOps(g, id), fate, n); r.completed && IsOut(g, id, r.disk)
  {
    assert fate(n) == fate(n + 1) == fate(n + 2) == Done;
    LeaveSteps(g, ClearProfile(id), id, fate, n);
    LeaveSteps(g, DropProfile(id), id, fate, n);
    hide Run, Without;
    WithoutMembers(g.config.order, id);
  }

  // ---- adding an id ----

  lemma {:induction false} OrderedWithNew(ids: set<nat>, order: seq<nat>, id: nat)
    requires id !in ids && id !in order
    ensures Ordered(ids + {id}, order + [id]) == Ordered(ids, order) + [id]
    decreases order
  {
    if order == [] {
      assert order + [id] == [id];
      assert Ordered(ids, []) == [] && Ordered(ids + {id} - {id}, [id][1..]) == [];
    } else {
      assert order == [order[0]] + order[1..];
      assert (order + [id])[1..] == order[1..] + [id];
      if order[0] in ids {
        assert ids + {id} - {order[0]} == ids - {order[0]} + {id};
        OrderedWithNew(ids - {order[0]}, order[1..], id);
      } else {
        OrderedWithNew(ids, order[1..], id);
      }
    }
  }

  /** A new profile is listed behind the profiles of the order list and before
      those the order list misses; without such profiles it is the last. */
  lemma ListedAfterArrival(g: GroupDir, h: GroupDir, id: nat)
    requires id !in g.files && id !in g.config.order
    requires h.files.Keys == g.files.Keys + {id} && h.config.order == g.config.order + [id]
    ensures Listed(h) ==
            Ordered(g.files.Keys, g.config.order) + [id] + Ascending(g.files.Keys - ToSet(g.config.order))
    ensures g.files.Keys <= ToSet(g.config.order) ==> Listed(h) == Listed(g) + [id]
  {
    OrderedWithNew(g.files.Keys, g.config.order, id);
    hide Ordered;
    assert h.files.Keys - ToSet(h.config.order) == g.files.Keys - ToSet(g.config.order);
    hide Ascending;
    if g.files.Keys <= ToSet(g.config.order) {
      assert g.files.Keys - ToSet(g.config.order) == {};
    }
  }

  /** The disk after each step of an addition. */
  function AddStage(g: GroupDir, data: Incoming, k: nat): GroupDir {
    var p := NewProfile(map[], data, g.config.lastId + 1);
    if k == 0 then g
    else if k == 1 then g.(config := Extended(g.config))
    else if k == 2 then g.(config := Extended(g.config), files := g.files - {p.id})
    else if k == 3 then g.(config := Extended(g.config), files := g.files[p.id := p])
    else AddedTo(g, data)
  }

  lemma AddStops(g: GroupDir, data: Incoming, fate: nat -> Fate) returns (k: nat)
    ensures Run(g, AddOps(g, data), fate, 0) == Outcome(AddStage(g, data, k), k >= 4)
    ensures k == 0 <==> fate(0) != Done
  {
    hide Extended, Run, NewProfile, AddedTo;
    var p := NewProfile(map[], data, g.config.lastId + 1);
    var store := if p.managed then [WriteXray(p.id, data.config)] + [] else [];
    var save, clear, write := SaveConfig(Extended(g.config)), ClearProfile(p.id), WriteProfile(p);
    assert p.id == g.config.lastId + 1 by { NewProfileIs(map[], data, g.config.lastId + 1); }
    assert AddOps(g, data) == [save] + ([clear] + ([write] + store));
    hide AddOps;
    var g1, g2 := AddStage(g, data, 1), AddStage(g, data, 2);
    RunOne(g, save, [clear] + ([write] + store), fate, 0);
    RunOne(g1, clear, [write] + store, fate, 1);
    if fate(0) == Done && fate(1) == Done {
      k := WriteStops(g, data, store, fate);
    } else {
      k := if fate(0) != Done then 0 else 1;
    }
  }

  /** The last steps of an addition. */
  lemma WriteStops(g: GroupDir, data: Incoming, store: seq<Op>, fate: nat -> Fate) returns (k: nat)
    requires var p := NewProfile(map[], data, g.config.lastId + 1);
             store == if p.managed then [WriteXray(p.id, data.config)] + [] else []
    ensures var p := NewProfile(map[], data, g.config.lastId + 1);
            Run(AddStage(g, data, 2), [WriteProfile(p)] + store, fate, 2) == Outcome(AddStage(g, data, k), k >= 4) && k >= 2
  {
    hide Run, Extended;
    var p := NewProfile(map[], data, g.config.lastId + 1);
    hide NewProfile;
    var g2, g3 := AddStage(g, data, 2), AddStage(g, data, 3);
    assert p.id == g.config.lastId + 1 by { NewProfileIs(map[], data, g.config.lastId + 1); }
    assert g2.files[p.id := p] == g.files[p.id := p];
    RunOne(g2, WriteProfile(p), store, fate, 2);
    RunOne(g3, WriteXray(p.id, data.config), [], fate, 3);
    RunOne(AddedTo(g, data), WriteProfile(p), [], fate, 4);
    k := if fate(2) != Done then 2 else if p.managed && fate(3) != Done then 3 else 4;
  }

  /** Whatever becomes of the steps of an addition: no other profile changes, nothing
      is written before its id is counted, and on success the profile is what its
      entry says, without measurements, with its configuration stored. */
  lemma AddTouchesOneProfile(g: GroupDir, data: Incoming, fate: nat -> Fate)
    ensures var id, r := g.config.lastId + 1, Run(g, AddOps(g, data), fate, 0);
            var h := r.disk;
            && OthersUntouched(g, h, id)
            && (if fate(0) == Done then h.config == Extended(g.config) else r == Outcome(g, false))
            && (id in h.files ==> h.files[id] == NewProfile(map[], data, id) || (id in g.files && h.files[id] == g.files[id]))
            && (r.completed ==>
                  && id in h.files && Describes(h.files[id], data) && h.files[id].latency == Latency(0, 0, 0, 0)
                  && (h.files[id].managed ==> id in h.xray && h.xray[id] == data.config))
  {
    var k := AddStops(g, data, fate);
    hide Run, AddOps, Extended;
  }

  /** Every other profile of the group is left alone. */
  ghost predicate OthersUntouched(g: GroupDir, h: GroupDir, id: nat) {
    forall x :: x != id ==>
      SameXray(h.xray, g.xray, x) && (x in h.files <==> x in g.files) && (x in g.files ==> h.files[x] == g.files[x])
  }

  /** Deleting the profile just added gives the group back, except for the counter,
      if and only if nothing was stored or ordered under its id before. */
  lemma AddThenDelete(g: GroupDir, data: Incoming)
    ensures var id, added := g.config.lastId + 1, Run(g, AddOps(g, data), AllDone, 0).disk;
            Run(added, DeleteOps(added, id), AllDone, 0).disk == g.(config := g.config.(lastId := id)) <==>
            id !in g.files && id !in g.config.order && id !in g.xray
  {
    hide *;
    AddCompletes(g, data);
    var h := AddedTo(g, data);
    DeleteCompletes(h, g.config.lastId + 1);
    AddedThenDeleted(g, data);
  }

  lemma DeleteCompletes(g: GroupDir, id: nat)
    ensures Run(g, DeleteOps(g, id), AllDone, 0) == Outcome(DeletedFrom(g, id), true)
  {
    hide Run, Without;
    LeaveSteps(g, ClearProfile(id), id, AllDone, 0);
  }

  lemma AddedThenDeleted(g: GroupDir, data: Incoming)
    ensures var id := g.config.lastId + 1;
            DeletedFrom(AddedTo(g, data), id) == g.(config := g.config.(lastId := id)) <==>
            id !in g.files && id !in g.config.order && id !in g.xray
  {
    var id, h := g.config.lastId + 1, AddedTo(g, data);
    WithoutConcat(g.config.order, [id], id);
    WithoutMembers(g.config.order, id);
    assert Without([id], id) == [];
    assert h.files - {id} == g.files - {id};
    assert g.files - {id} == g.files <==> id !in g.files by {
      assert id !in g.files - {id};
    }
    assert h.xray - {id} == g.xray - {id};
    assert g.xray - {id} == g.xray <==> id !in g.xray by {
      assert id !in g.xray - {id};
    }
  }

  // ---- moving a profile ----

  /** What writing the files of a moved profile leaves in its new group. */
  lemma ArriveSteps(g: GroupDir, p: Profile, luggage: Option<string>, fate: nat -> Fate)
    ensures var r := Run(g, ArriveOps(p, luggage), fate, 0);
            var h := r.disk;
            && h.config == g.config
            && h.files == (if fate(0) == Done then g.files[p.id := p] else g.files)
            && (forall x :: x != p.id ==> SameXray(h.xray, g.xray, x))
            && (r.completed <==> fate(0) == Done && (luggage.Some? ==> fate(1) == Done))
            && (r.completed && luggage.Some? ==> p.id in h.xray && h.xray[p.id] == luggage.value)
  {
    var store := if luggage.Some? then [WriteXray(p.id, luggage.value)] + [] else [];
    assert ArriveOps(p, luggage) == [WriteProfile(p)] + store;
    var g1 := Apply(g, WriteProfile(p));
    RunOne(g, WriteProfile(p), store, fate, 0);
    if luggage.Some? {
      RunOne(g1, WriteXray(p.id, luggage.value), [], fate, 1);
      RunOne(Apply(g1, WriteXray(p.id, luggage.value)), WriteXray(p.id, luggage.value), [], fate, 2);
    } else {
      RunOne(g1, WriteProfile(p), [], fate, 1);
    }
    hide Run, ArriveOps;
  }

  /** The profile has arrived under the next id: the same server with its
      measurements and its stored configuration, counted and ordered last. */
  ghost predicate HasArrived(source: GroupDir, id: nat, to: nat, target: GroupDir, after: GroupDir)
    requires id in source.files
  {
    var next, p := target.config.lastId + 1, source.files[id];
    && after.config == Extended(target.config)
    && next in after.files && after.files[next] == p.(groupId := to, id := next)
    && (p.managed && id in source.xray ==> next in after.xray && after.xray[next] == source.xray[id])
  }

  /** The target's files and configuration are written. */
  predicate ArrivalSaved(n: nat, fate: nat -> Fate) {
    fate(0) == Done && fate(1) == Done && (n == 2 ==> fate(2) == Done)
  }

  /** The write of the target's configuration failed, and the profile's file was
      removed again. */
  predicate ArrivalUndone(n: nat, fate: nat -> Fate) {
    fate(0) == Done && (n == 2 ==> fate(1) == Done) && fate(n) == Failed && fate(n + 1) == Done
  }

  /** The new group of a moved profile, wherever the move stops. */
  lemma ArrivalEnds(source: GroupDir, id: nat, to: nat, target: GroupDir, fate: nat -> Fate)
    requires id in source.files
    ensures var r, n, next := Arrival(source, id, to, target, fate), ArrivalLength(source, id), target.config.lastId + 1;
            && (r.completed <==> ArrivalSaved(n, fate))
            && OthersUntouched(target, r.disk, next)
            && (r.completed ==> HasArrived(source, id, to, target, r.disk))
            && (!r.completed ==>
                  && r.disk.config == target.config
                  && (next in r.disk.files <==> if fate(0) == Done then !ArrivalUndone(n, fate) else next in target.files))
  {
    hide Run, ArriveOps, Extended;
    var next, luggage := target.config.lastId + 1, Luggage(source, id);
    var p, n := Travelling(source, id, to, next), ArrivalLength(source, id);
    ArriveSteps(target, p, luggage, fate);
    var arrival := Run(target, ArriveOps(p, luggage), fate, 0);
    DropOnly(arrival.disk, next, fate, n + 1);
  }

  lemma DropOnly(g: GroupDir, id: nat, fate: nat -> Fate, n: nat)
    ensures Run(g, [DropProfile(id)], fate, n).disk == if fate(n) == Done then g.(files := g.files - {id}) else g
  {
    assert [DropProfile(id)] == [DropProfile(id)] + [];
    RunOne(g, DropProfile(id), [], fate, n);
    RunOne(Apply(g, DropProfile(id)), DropProfile(id), [], fate, n + 1);
    RunOne(g, DropProfile(id), [], fate, n + 1);
  }

  /** A moved profile is never lost: wherever the move stops, the profile is still in
      its old group, or it has arrived in the new one. On success it has arrived; and
      once its old file is gone it has left the old listing, which is otherwise the
      same. */
  lemma MoveCarriesProfile(s: Store, from: nat, to: nat, id: nat, fate: nat -> Fate)
    requires CanMove(s, from, to, id)
    ensures var e, n := MovedProfile(s, from, to, id, fate), ArrivalLength(s.groups[from], id);
            var source, target, next := s.groups[from], s.groups[to], s.groups[to].config.lastId + 1;
            && from in e.store.groups && to in e.store.groups
            && (HasArrived(source, id, to, target, e.store.groups[to]) || e.store.groups[from] == source)
            && (e.ok ==> HasArrived(source, id, to, target, e.store.groups[to]))
            && (e.ok && fate(n + 1) == Done ==> Listed(e.store.groups[from]) == Without(Listed(source), id))
            && OthersUntouched(target, e.store.groups[to], next)
            && (e.ok && next !in target.files && next !in target.config.order ==>
                  Listed(e.store.groups[to]) ==
                  Ordered(target.files.Keys, target.config.order) + [next]
                  + Ascending(target.files.Keys - ToSet(target.config.order)))
  {
    hide Arrival, Run, Listed, Without, ListIds;
    var e, n := MovedProfile(s, from, to, id, fate), ArrivalLength(s.groups[from], id);
    var source, target, next := s.groups[from], s.groups[to], s.groups[to].config.lastId + 1;
    ArrivalEnds(source, id, to, target, fate);
    if ArrivalSaved(n, fate) {
      LeaveSteps(source, DropProfile(id), id, fate, n + 1);
      hide MovedProfile, LeaveOps;
      if fate(n + 1) == Done {
        assert e.store.groups[from].files.Keys == source.files.Keys - {id};
        ListedWithout(source, e.store.groups[from], id);
      }
      if next !in target.files && next !in target.config.order {
        assert e.store.groups[to].files.Keys == target.files.Keys + {next};
        ListedAfterArrival(target, e.store.groups[to], next);
      }
    }
  }
}
