/** The background refresh of subscriptions: which groups are due, which are
    probed, and how failures are spaced. Times are in nanoseconds. */
module Scheduler {
  import opened Profiles

  type Time = int

  const SECOND: Time := 1_000_000_000
  const RETRY_BASE: Time := 30 * 60 * SECOND
  const RETRY_MAX: Time := 6 * 3600 * SECOND

  datatype RetryState = RetryState(failures: nat, next: Time)

  datatype Target = Target(gid: nat, probe: bool)

  function EffectiveInterval(s: Settings): Time {
    (if s.intervalOverride > 0 then s.intervalOverride else s.providerInterval) * SECOND
  }

  predicate Enabled(s: Settings) {
    s.url != "" && !s.autoUpdateDisabled
  }

  predicate Due(s: Settings, now: Time) {
    && Enabled(s) && EffectiveInterval(s) > 0
    && (s.lastUpdated <= 0 || now - s.lastUpdated * SECOND >= EffectiveInterval(s))
  }

  // ---- backoff ----

  function Pow2(n: nat): nat {
    if n == 0 then 1 else 2 * Pow2(n - 1)
  }

  function Min(a: int, b: int): int {
    if a < b then a else b
  }

  /** The pause after the `failures`-th failure in a row. */
  function Backoff(failures: nat): Time {
    Min(RETRY_BASE * Pow2(if failures == 0 then 0 else failures - 1), RETRY_MAX)
  }

  lemma {:induction false} Pow2Grows(m: nat, n: nat)
    requires m <= n
    ensures Pow2(m) <= Pow2(n)
    decreases n - m
  {
    if m < n {
      Pow2Grows(m + 1, n);
    }
  }

  /** Doubling stops at the cap, so no intermediate value exceeds twice the cap. */
  method BackoffDuration(failures: nat) returns (d: Time)
    ensures d == Backoff(failures)
  {
    d := RETRY_BASE;
    for i := 1 to if failures < 1 then 1 else failures
      invariant d == RETRY_BASE * Pow2(i - 1) && d < RETRY_MAX
    {
      d := d * 2;
      assert d < 2 * RETRY_MAX;
      if d >= RETRY_MAX {
        Pow2Grows(i, failures - 1);
        return RETRY_MAX;
      }
    }
  }

  // ---- one group ----

  /** What the scheduler remembers about a group. */
  datatype Slot = Slot(probe: bool, retry: Option<RetryState>)

  predicate RetryPending(retry: Option<RetryState>, now: Time) {
    retry.Some? && now < retry.value.next
  }

  datatype Planned = Planned(slot: Slot, target: Option<bool>)

  /** Planning one listed group: its new slot, and whether it is a target and if
      so a probe. */
  function PlanGroup(s: Settings, slot: Slot, now: Time): Planned {
    if !Enabled(s) then Planned(Slot(false, None), None)
    else if EffectiveInterval(s) > 0 then
      Planned(slot.(probe := false), if Due(s, now) && !RetryPending(slot.retry, now) then Some(false) else None)
    else if slot.probe || s.lastUpdated == 0 then
      Planned(slot.(probe := true), if !RetryPending(slot.retry, now) then Some(true) else None)
    else Planned(slot, None)
  }

  /** What became of an attempt on a target. */
  datatype Attempt = NotTried | Tried(ok: bool)

  function AfterAttempt(slot: Slot, probe: bool, now: Time, a: Attempt): Slot {
    match a
    case NotTried => slot
    case Tried(true) => Slot(slot.probe && !probe, None)
    case Tried(false) =>
      var failures := (if slot.retry.Some? then slot.retry.value.failures else 0) + 1;
      slot.(retry := Some(RetryState(failures, now + Backoff(failures))))
  }

  /** One tick for a group, listed with settings `s` or not listed at all. */
  function TickGroup(listed: Option<Settings>, slot: Slot, now: Time, a: Attempt): Slot {
    if listed.None? then Slot(false, None)
    else
      var plan := PlanGroup(listed.value, slot, now);
      if plan.target.None? then plan.slot else AfterAttempt(plan.slot, plan.target.value, now, a)
  }

  // ---- the scheduler object ----

  ghost predicate DistinctGroups(groups: seq<GroupConfig>) {
    forall i, j :: 0 <= i < j < |groups| ==> groups[i].id != groups[j].id
  }

  function Find(groups: seq<GroupConfig>, gid: nat): Option<Settings> {
    if groups == [] then None
    else if groups[0].id == gid then Some(groups[0].settings)
    else Find(groups[1..], gid)
  }

  lemma {:induction false} FindAt(groups: seq<GroupConfig>, i: nat)
    requires DistinctGroups(groups) && i < |groups|
    ensures Find(groups, groups[i].id) == Some(groups[i].settings)
  {
    if i > 0 {
      FindAt(groups[1..], i - 1);
    }
  }

  lemma {:induction false} FindNothing(groups: seq<GroupConfig>, gid: nat)
    ensures Find(groups, gid).None? <==> forall i :: 0 <= i < |groups| ==> groups[i].id != gid
  {
    if groups != [] {
      FindNothing(groups[1..], gid);
      assert Find(groups[1..], gid).None? && groups[0].id != gid ==>
             forall i :: 0 <= i < |groups| ==> groups[i].id == (if i == 0 then groups[0] else groups[1..][i - 1]).id;
    }
  }

  function SlotIn(probes: set<nat>, retry: map<nat, RetryState>, gid: nat): Slot {
    Slot(gid in probes, if gid in retry then Some(retry[gid]) else None)
  }

  /** The targets of a plan, in listing order. */
  function Targets(groups: seq<GroupConfig>, probes: set<nat>, retry: map<nat, RetryState>, now: Time): seq<Target> {
    if groups == [] then []
    else
      var last := groups[|groups| - 1];
      var plan := PlanGroup(last.settings, SlotIn(probes, retry, last.id), now);
      var before := Targets(groups[..|groups| - 1], probes, retry, now);
      if plan.target.Some? then before + [Target(last.id, plan.target.value)] else before
  }

  function PlannedSlot(listed: Option<Settings>, slot: Slot, now: Time): Slot {
    if listed.None? then Slot(false, None) else PlanGroup(listed.value, slot, now).slot
  }

  function PlannedTarget(listed: Option<Settings>, slot: Slot, now: Time): Option<bool> {
    if listed.None? then None else PlanGroup(listed.value, slot, now).target
  }

  /** Planning the `i`-th listed group yields target `t`. */
  predicate TargetAt(groups: seq<GroupConfig>, i: nat, probes: set<nat>, retry: map<nat, RetryState>, now: Time, t: Target) {
    && i < |groups| && t.gid == groups[i].id
    && PlanGroup(groups[i].settings, SlotIn(probes, retry, t.gid), now).target == Some(t.probe)
  }

  /** Every planned target comes from a listed group. */
  lemma {:induction false} TargetSource(groups: seq<GroupConfig>, probes: set<nat>, retry: map<nat, RetryState>, now: Time, k: nat)
    returns (i: nat)
    requires k < |Targets(groups, probes, retry, now)|
    ensures TargetAt(groups, i, probes, retry, now, Targets(groups, probes, retry, now)[k])
  {
    var n := |groups| - 1;
    if k < |Targets(groups[..n], probes, retry, now)| {
      i := TargetSource(groups[..n], probes, retry, now, k);
    } else {
      i := n;
    }
  }

  /** A plan holds the target of every listed group, and names each group at most
      once. */
  lemma {:induction false} TargetsAreGroups(groups: seq<GroupConfig>, probes: set<nat>, retry: map<nat, RetryState>, now: Time)
    requires DistinctGroups(groups)
    ensures var ts := Targets(groups, probes, retry, now);
            && (forall i, j :: 0 <= i < j < |ts| ==> ts[i].gid != ts[j].gid)
            && (forall i: nat, t :: TargetAt(groups, i, probes, retry, now, t) ==> t in ts)
  {
    if groups != [] {
      var n := |groups| - 1;
      var front, last := groups[..n], groups[n];
      var before, ts := Targets(front, probes, retry, now), Targets(groups, probes, retry, now);
      TargetsAreGroups(front, probes, retry, now);
      forall i: nat, t | TargetAt(groups, i, probes, retry, now, t) ensures t in ts {
        if i < n {
          assert TargetAt(front, i, probes, retry, now, t);
        }
      }
      forall k | 0 <= k < |before| ensures before[k].gid != last.id {
        var i := TargetSource(front, probes, retry, now, k);
      }
    }
  }

  // ---- the answers in the fields of a group ----

  const NANOS: int := 1_000_000_000

  predicate Paused(slot: Slot, now: Time) {
    slot.retry.Some? && now < slot.retry.value.next
  }

  /** A group is not known to the provider's schedule nor to the user's. */
  predicate NoInterval(s: Settings) {
    s.intervalOverride <= 0 && s.providerInterval <= 0
  }

  /** The user's interval has passed since the last merge, or the provider's one if the
      user set none; without a merge it always has. */
  predicate IntervalPassed(s: Settings, now: Time) {
    && (s.lastUpdated > 0 && s.intervalOverride > 0 ==>
          now - s.lastUpdated * NANOS >= s.intervalOverride * NANOS)
    && (s.lastUpdated > 0 && s.intervalOverride <= 0 < s.providerInterval ==>
          now - s.lastUpdated * NANOS >= s.providerInterval * NANOS)
  }

  /** The plan for a group that is listed: nothing without URL, when switched off or
      during a pause; otherwise a refresh when its interval has passed, and a probe while
      it has none and was marked for probing or never refreshed. Its retry entry stays
      while it is enabled, and it is marked for probing only while it has no interval. */
  lemma PlanAnswers(s: Settings, slot: Slot, now: Time)
    ensures var target, after := PlannedTarget(Some(s), slot, now), PlannedSlot(Some(s), slot, now);
            if s.url == "" || s.autoUpdateDisabled then target == None && after == Slot(false, None)
            else
              && after.retry == slot.retry
              && (after.probe <==> NoInterval(s) && (slot.probe || s.lastUpdated == 0))
              && (target == Some(false) <==> !Paused(slot, now) && !NoInterval(s) && IntervalPassed(s, now))
              && (target == Some(true) <==> !Paused(slot, now) && NoInterval(s) && (slot.probe || s.lastUpdated == 0))
  {
  }

  /** A group that is not listed is forgotten. */
  lemma UnlistedAnswers(slot: Slot, now: Time)
    ensures PlannedTarget(None, slot, now) == None && PlannedSlot(None, slot, now) == Slot(false, None)
  {
  }

  /** A user's interval counts whatever the provider says. */
  lemma OverrideDecides(s: Settings, slot: Slot, now: Time)
    requires s.url != "" && !s.autoUpdateDisabled && s.lastUpdated > 0 && slot.retry == None && s.intervalOverride > 0
    ensures PlannedTarget(Some(s), slot, now) ==
            if now - s.lastUpdated * 1_000_000_000 >= s.intervalOverride * 1_000_000_000 then Some(false) else None
  {
    PlanAnswers(s, slot, now);
  }

  /** Without one the provider's interval counts. */
  lemma ProviderDecides(s: Settings, slot: Slot, now: Time)
    requires s.url != "" && !s.autoUpdateDisabled && s.lastUpdated > 0 && slot.retry == None
    requires s.intervalOverride <= 0 < s.providerInterval
    ensures PlannedTarget(Some(s), slot, now) ==
            if now - s.lastUpdated * 1_000_000_000 >= s.providerInterval * 1_000_000_000 then Some(false) else None
  {
    PlanAnswers(s, slot, now);
  }

  /** The targets of a plan are exactly these, each in the place of its group. */
  lemma TargetsAnswer(groups: seq<GroupConfig>, probes: set<nat>, retry: map<nat, RetryState>, now: Time, i: nat, probe: bool)
    requires DistinctGroups(groups) && i < |groups|
    ensures var s, id := groups[i].settings, groups[i].id;
            Target(id, probe) in Targets(groups, probes, retry, now) <==>
            && s.url != "" && !s.autoUpdateDisabled && !(id in retry && now < retry[id].next)
            && if probe then NoInterval(s) && (id in probes || s.lastUpdated == 0)
               else !NoInterval(s) && IntervalPassed(s, now)
  {
    var s, id, ts := groups[i].settings, groups[i].id, Targets(groups, probes, retry, now);
    var slot := SlotIn(probes, retry, id);
    PlanAnswers(s, slot, now);
    TargetsAreGroups(groups, probes, retry, now);
    hide PlanGroup, Targets, IntervalPassed, NoInterval;
    if Target(id, probe) in ts {
      var k :| 0 <= k < |ts| && ts[k] == Target(id, probe);
      var j := TargetSource(groups, probes, retry, now, k);
    }
    assert TargetAt(groups, i, probes, retry, now, Target(id, probe)) <==> PlannedTarget(Some(s), slot, now) == Some(probe) by {
      PlannedIs(s, slot, now);
    }
  }

  lemma PlannedIs(s: Settings, slot: Slot, now: Time)
    ensures PlannedTarget(Some(s), slot, now) == PlanGroup(s, slot, now).target
  {
  }

  /** Targets come in the order in which their groups are listed. */
  lemma {:induction false} TargetsFollowListing(groups: seq<GroupConfig>, probes: set<nat>, retry: map<nat, RetryState>, now: Time,
                                                k: nat, l: nat) returns (i: nat, j: nat)
    requires k < l < |Targets(groups, probes, retry, now)|
    ensures i < j
    ensures TargetAt(groups, i, probes, retry, now, Targets(groups, probes, retry, now)[k])
    ensures TargetAt(groups, j, probes, retry, now, Targets(groups, probes, retry, now)[l])
  {
    hide PlanGroup;
    var n := |groups| - 1;
    if l < |Targets(groups[..n], probes, retry, now)| {
      i, j := TargetsFollowListing(groups[..n], probes, retry, now, k, l);
    } else {
      i := TargetSource(groups[..n], probes, retry, now, k);
      j := n;
    }
  }

  /** What an attempt changes: a success ends the pauses, and the probing if it was a
      probe; a failure adds one to the failures and sets the pause. */
  lemma AttemptAnswers(slot: Slot, probe: bool, now: Time, a: Attempt)
    ensures var after := AfterAttempt(slot, probe, now, a);
            var before := if slot.retry.Some? then slot.retry.value.failures else 0;
            && (a == NotTried ==> after == slot)
            && (a == Tried(true) ==> after.retry == None && (after.probe <==> slot.probe && !probe))
            && (a == Tried(false) ==>
                  after.probe == slot.probe && after.retry.Some? && after.retry.value.failures == before + 1
                  && after.retry.value.next == now + Backoff(before + 1))
  {
  }

  /** The groups to probe after a start: enabled, and without any interval. */
  predicate ProbedFirst(s: Settings) {
    s.url != "" && !s.autoUpdateDisabled && s.intervalOverride <= 0 && s.providerInterval == 0
  }

  /** A whole tick for one group: one that is not listed or not enabled is forgotten, one
      that is not wanted or not tried keeps its entry, a success ends its pauses and its
      probing, and a failure adds one and sets the pause. */
  lemma TickAnswers(listed: Option<Settings>, slot: Slot, now: Time, a: Attempt)
    ensures var after := TickGroup(listed, slot, now, a);
            if listed == None || listed.value.url == "" || listed.value.autoUpdateDisabled then after == Slot(false, None)
            else
              var s := listed.value;
              var marked := NoInterval(s) && (slot.probe || s.lastUpdated == 0);
              var failures := 1 + if slot.retry.Some? then slot.retry.value.failures else 0;
              if Paused(slot, now) || !(marked || (!NoInterval(s) && IntervalPassed(s, now))) || a == NotTried then
                after == Slot(marked, slot.retry)
              else if a == Tried(true) then after == Slot(false, None)
              else after == Slot(marked, Some(RetryState(failures, now + Backoff(failures))))
  {
    if listed.Some? {
      PlanAnswers(listed.value, slot, now);
      var plan := PlanGroup(listed.value, slot, now);
      if plan.target.Some? {
        AttemptAnswers(plan.slot, plan.target.value, now, a);
      }
      hide PlanGroup, AfterAttempt, Paused, NoInterval, IntervalPassed, Backoff;
    }
  }

  /** The pauses: half an hour, doubled with each failure, and six hours at most. */
  lemma BackoffAnswers(failures: nat)
    ensures Backoff(0) == Backoff(1) == 1800 * NANOS
    ensures failures >= 1 ==>
              Backoff(failures + 1) == if 2 * Backoff(failures) >= 21600 * NANOS then 21600 * NANOS else 2 * Backoff(failures)
  {
    assert Pow2(0) == 1;
    if failures >= 1 {
      assert Pow2(failures) == 2 * Pow2(failures - 1);
    }
  }

  class AutoUpdater {
    var probes: set<nat>
    var retry: map<nat, RetryState>

    function SlotOf(gid: nat): Slot
      reads this
    {
      SlotIn(probes, retry, gid)
    }

    /** Groups with an enabled subscription of unknown interval are probed once. */
    constructor (groups: seq<GroupConfig>)
      ensures retry == map[]
      ensures forall id :: id in probes <==> exists i :: 0 <= i < |groups| && groups[i].id == id && ProbedFirst(groups[i].settings)
    {
      probes := set i | 0 <= i < |groups| && Enabled(groups[i].settings) &&
                        EffectiveInterval(groups[i].settings) == 0 :: groups[i].id;
      retry := map[];
    }

    /** Decide which groups need work, and forget groups that are gone. */
    method PlanAutoUpdate(groups: seq<GroupConfig>, now: Time) returns (targets: seq<Target>)
      requires DistinctGroups(groups)
      modifies this
      ensures targets == Targets(groups, old(probes), old(retry), now)
      ensures forall gid :: SlotOf(gid) == PlannedSlot(Find(groups, gid), old(SlotOf(gid)), now)
    {
      hide PlanGroup, Find, Targets;
      ghost var probes0, retry0 := probes, retry;
      var seen: set<nat> := {};
      targets := [];
      assert groups[..0] == [] && Targets([], probes0, retry0, now) == [] by { NoTargets(probes0, retry0, now); }
      for i := 0 to |groups|
        invariant forall gid :: gid in seen <==> exists k :: 0 <= k < i && groups[k].id == gid
        invariant forall k :: 0 <= k < i ==>
                    SlotOf(groups[k].id) == PlanGroup(groups[k].settings, SlotIn(probes0, retry0, groups[k].id), now).slot
        invariant forall gid :: gid !in seen ==> SlotOf(gid) == SlotIn(probes0, retry0, gid)
        invariant targets == Targets(groups[..i], probes0, retry0, now)
      {
        var g := groups[i];
        ghost var slot := SlotOf(g.id);
        assert g.id !in seen;
        NextTarget(groups, i, probes0, retry0, now);
        var target := PlanStep(g, now);
        targets := targets + target;
        seen := seen + {g.id};
      }
      assert groups[..|groups|] == groups;
      probes := set id | id in probes && id in seen;
      retry := map id | id in retry && id in seen :: retry[id];
      forall gid ensures SlotOf(gid) == PlannedSlot(Find(groups, gid), SlotIn(probes0, retry0, gid), now) {
        FindNothing(groups, gid);
        if gid in seen {
          var k :| 0 <= k < |groups| && groups[k].id == gid;
          FindAt(groups, k);
        }
      }
    }

    /** The body of the planning loop for one group. */
    method PlanStep(g: GroupConfig, now: Time) returns (target: seq<Target>)
      modifies this
      ensures var plan := PlanGroup(g.settings, old(SlotOf(g.id)), now);
              && SlotOf(g.id) == plan.slot
              && target == if plan.target.Some? then [Target(g.id, plan.target.value)] else []
      ensures forall gid :: gid != g.id ==> SlotOf(gid) == old(SlotOf(gid))
    {
      target := [];
      if g.settings.url == "" || g.settings.autoUpdateDisabled {
        probes, retry := probes - {g.id}, retry - {g.id};
        return;
      }
      var pending := g.id in retry && now < retry[g.id].next;
      if EffectiveInterval(g.settings) > 0 {
        probes := probes - {g.id};
        if Due(g.settings, now) && !pending {
          target := [Target(g.id, false)];
        }
        return;
      }
      if g.id in probes || g.settings.lastUpdated == 0 {
        probes := probes + {g.id};
        if !pending {
          target := [Target(g.id, true)];
        }
      }
    }

    /** One tick: plan, then try each target. `attempt` says what becomes of the
        attempt on a group. */
    method Tick(groups: seq<GroupConfig>, now: Time, attempt: nat -> Attempt)
      requires DistinctGroups(groups)
      modifies this
      ensures forall gid :: SlotOf(gid) == TickGroup(Find(groups, gid), old(SlotOf(gid)), now, attempt(gid))
    {
      hide PlanGroup, Find, Targets;
      ghost var probes0, retry0 := probes, retry;
      var targets := PlanAutoUpdate(groups, now);
      TargetsAreGroups(groups, probes0, retry0, now);
      ghost var probes1, retry1 := probes, retry;
      for i := 0 to |targets|
        invariant forall k :: 0 <= k < i ==>
                    var t := targets[k];
                    SlotOf(t.gid) == AfterAttempt(SlotIn(probes1, retry1, t.gid), t.probe, now, attempt(t.gid))
        invariant forall gid :: (forall k :: 0 <= k < i ==> targets[k].gid != gid) ==> SlotOf(gid) == SlotIn(probes1, retry1, gid)
      {
        var t := targets[i];
        assert SlotOf(t.gid) == SlotIn(probes1, retry1, t.gid);
        TryTarget(t, now, attempt(t.gid));
      }
      forall gid ensures SlotOf(gid) == TickGroup(Find(groups, gid), SlotIn(probes0, retry0, gid), now, attempt(gid)) {
        FindTarget(groups, probes0, retry0, now, targets, gid);
        assert SlotIn(probes1, retry1, gid) == PlannedSlot(Find(groups, gid), SlotIn(probes0, retry0, gid), now);
      }
    }

    /** Bookkeeping after one attempt. */
    method TryTarget(t: Target, now: Time, a: Attempt)
      modifies this
      ensures SlotOf(t.gid) == AfterAttempt(old(SlotOf(t.gid)), t.probe, now, a)
      ensures forall gid :: gid != t.gid ==> SlotOf(gid) == old(SlotOf(gid))
    {
      if a.NotTried? {
        return;
      }
      if a.ok {
        retry := retry - {t.gid};
        if t.probe {
          probes := probes - {t.gid};
        }
        return;
      }
      var failures := (if t.gid in retry then retry[t.gid].failures else 0) + 1;
      var pause := BackoffDuration(failures);
      retry := retry[t.gid := RetryState(failures, now + pause)];
    }
  }

  lemma NoTargets(probes: set<nat>, retry: map<nat, RetryState>, now: Time)
    ensures Targets([], probes, retry, now) == []
  {
  }

  lemma NextTarget(groups: seq<GroupConfig>, i: nat, probes: set<nat>, retry: map<nat, RetryState>, now: Time)
    requires i < |groups|
    ensures Targets(groups[..i + 1], probes, retry, now) ==
            var plan := PlanGroup(groups[i].settings, SlotIn(probes, retry, groups[i].id), now);
            Targets(groups[..i], probes, retry, now) +
            if plan.target.Some? then [Target(groups[i].id, plan.target.value)] else []
  {
    assert groups[..i + 1][..i] == groups[..i];
  }

  lemma FindTarget(groups: seq<GroupConfig>, probes: set<nat>, retry: map<nat, RetryState>, now: Time, targets: seq<Target>, gid: nat)
    requires DistinctGroups(groups) && targets == Targets(groups, probes, retry, now)
    ensures var target := PlannedTarget(Find(groups, gid), SlotIn(probes, retry, gid), now);
            && (target.None? ==> forall k :: 0 <= k < |targets| ==> targets[k].gid != gid)
            && (target.Some? ==> exists k :: 0 <= k < |targets| && targets[k] == Target(gid, target.value))
  {
    hide PlanGroup, Targets;
    TargetsAreGroups(groups, probes, retry, now);
    FindNothing(groups, gid);
    var target := PlannedTarget(Find(groups, gid), SlotIn(probes, retry, gid), now);
    if target.Some? {
      var i :| 0 <= i < |groups| && groups[i].id == gid;
      FindAt(groups, i);
      assert TargetAt(groups, i, probes, retry, now, Target(gid, target.value));
    } else {
      forall k | 0 <= k < |targets| ensures targets[k].gid != gid {
        var i := TargetSource(groups, probes, retry, now, k);
        FindAt(groups, i);
      }
    }
  }
}
