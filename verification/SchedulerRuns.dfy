/** One group under the background scheduler over a whole run: ticks, user edits
    and manual refreshes in any order, edits also between planning and trying. */
module SchedulerRuns {
  import opened Profiles
  import opened Scheduler

  /** What an attempt meets, `delay` after the tick it belongs to. `merged` is the time
      of the profile merge and `interval` the provider interval stored with the new
      metadata. */
  datatype Try =
    | Busy
    | Unloadable(delay: nat)
    | Reached(delay: nat, success: bool, interval: int, merged: Time)

  /** The background refresh, which checks the group again under the lock. */
  function AutoUpdate(s: Settings, probe: bool, now: Time, t: Try): Attempt {
    match t
    case Busy => NotTried
    case Unloadable(_) => Tried(false)
    case Reached(delay, success, _, _) =>
      var at := now + delay;
      if !Enabled(s) then NotTried
      else if probe && EffectiveInterval(s) > 0 then NotTried
      else if !probe && !Due(s, at) then NotTried
      else Tried(success)
  }

  /** An attempt is not made while another refresh runs, on a group that is not enabled
      any more, that is not due any more, or that has been given an interval since it was
      to be probed; a group that cannot be loaded is a failed attempt. */
  lemma AutoUpdateAnswers(s: Settings, probe: bool, now: Time, delay: nat, success: bool, interval: int, merged: Time)
    ensures AutoUpdate(s, probe, now, Busy) == NotTried && AutoUpdate(s, probe, now, Unloadable(delay)) == Tried(false)
    ensures AutoUpdate(s, probe, now, Reached(delay, success, interval, merged)) ==
            if s.url != "" && !s.autoUpdateDisabled && (if probe then NoInterval(s) else !NoInterval(s) && IntervalPassed(s, now + delay))
            then Tried(success) else NotTried
  {
  }

  /** A refresh stores its metadata first and the time only after the merge. */
  function AfterFetch(s: Settings, success: bool, interval: int, merged: Time): Settings {
    if success then s.(providerInterval := interval, lastUpdated := merged / SECOND)
    else s.(providerInterval := interval)
  }

  /** The settings of a group after the user's edit. */
  function Edited(s: Settings, url: string, disabled: bool, intervalOverride: int): Settings {
    s.(url := url, autoUpdateDisabled := disabled, intervalOverride := intervalOverride)
  }

  // ---- the run of one group ----

  /** An attempt at time `at`, in the tick of time `now`. */
  datatype Mark = Dropped | Attempted(now: Time, at: Time, ok: bool)

  /** A fetch by the scheduler, with what held when it started. */
  datatype Fetch = Fetch(settings: Settings, probe: bool, at: Time, lastMerge: Option<Time>, ok: bool)

  datatype Pending = Pending(probe: bool, now: Time)

  datatype World = World(
    settings: Settings, slot: Slot, pending: Option<Pending>,
    history: seq<Mark>, fetches: seq<Fetch>, lastMerge: Option<Time>)

  datatype Event =
    | Edit(url: string, disabled: bool, intervalOverride: int)
    | ManualRefresh(success: bool, interval: int, merged: Time)
    | PlanTick(now: Time, listed: bool)
    | TryTarget(t: Try)
  {
    /** Clocks are past the first second of the epoch. */
    predicate WellTimed() {
      && (ManualRefresh? ==> merged >= SECOND)
      && (TryTarget? && t.Reached? ==> t.merged >= SECOND)
    }
  }

  function Merged(w: World, success: bool, interval: int, merged: Time): World {
    w.(settings := AfterFetch(w.settings, success, interval, merged),
       lastMerge := if success then Some(merged) else w.lastMerge)
  }

  function TryStep(w: World, p: Pending, t: Try): World {
    var a := AutoUpdate(w.settings, p.probe, p.now, t);
    if a.NotTried? then w.(pending := None)
    else
      var at := p.now + t.delay;
      var fetch := if t.Reached?
                   then [Fetch(w.settings, p.probe, at, w.lastMerge, a.ok)]
                   else [];
      var w1 := if t.Reached? then Merged(w, t.success, t.interval, t.merged) else w;
      w1.(slot := AfterAttempt(w.slot, p.probe, p.now, a), pending := None,
          history := w.history + [Attempted(p.now, at, a.ok)], fetches := w.fetches + fetch)
  }

  function Step(w: World, e: Event): World {
    match e
    case Edit(url, disabled, intervalOverride) =>
      w.(settings := Edited(w.settings, url, disabled, intervalOverride))
    case ManualRefresh(success, interval, merged) => Merged(w, success, interval, merged)
    case PlanTick(now, listed) =>
      if w.pending.Some? then w
      else
        var found := if listed then Some(w.settings) else None;
        var target := PlannedTarget(found, w.slot, now);
        w.(slot := PlannedSlot(found, w.slot, now),
           pending := if target.Some? then Some(Pending(target.value, now)) else None,
           history := if listed && Enabled(w.settings) then w.history else w.history + [Dropped])
    case TryTarget(t) =>
      if w.pending.None? then w else TryStep(w, w.pending.value, t)
  }

  /** What a fetch leaves of the settings: the provider's interval in any case, and the
      time of the merge in whole seconds if it succeeded; nothing else. */
  lemma FetchAnswers(s: Settings, success: bool, interval: int, merged: Time)
    ensures var t := AfterFetch(s, success, interval, merged);
            && t.providerInterval == interval
            && (success ==> t.lastUpdated * NANOS <= merged < (t.lastUpdated + 1) * NANOS)
            && (!success ==> t.lastUpdated == s.lastUpdated)
            && t.(providerInterval := s.providerInterval, lastUpdated := s.lastUpdated) == s
  {
  }

  function Steps(w: World, es: seq<Event>): World
    decreases es
  {
    if es == [] then w else Steps(Step(w, es[0]), es[1..])
  }

  // ---- spacing of retries ----

  /** Failures in a row since the last success or since the entry was dropped. */
  function Streak(h: seq<Mark>): nat {
    if h == [] || h[|h| - 1].Dropped? || h[|h| - 1].ok then 0 else 1 + Streak(h[..|h| - 1])
  }

  /** The `i`-th mark is an attempt right after a failed one. */
  predicate IsRetry(h: seq<Mark>, i: nat) {
    0 < i < |h| && h[i].Attempted? && h[i - 1].Attempted? && !h[i - 1].ok
  }

  /** How long after the start of its tick the `i`-th attempt was made. */
  function Delay(h: seq<Mark>, i: nat): int
    requires i < |h| && h[i].Attempted?
  {
    h[i].at - h[i].now
  }

  /** The attempt after the f-th failure in a row comes no sooner than its pause,
      counted from the tick of the failure. */
  ghost predicate Spaced(h: seq<Mark>) {
    && (forall i :: 0 <= i < |h| && h[i].Attempted? ==> h[i].at >= h[i].now)
    && (forall i: nat :: IsRetry(h, i) ==> h[i].now >= h[i - 1].now + Backoff(Streak(h[..i])))
  }

  /** Real attempts are the pause apart, less the delay of the failed one in its tick. */
  lemma AttemptsAreApart(h: seq<Mark>, i: nat)
    requires Spaced(h) && IsRetry(h, i)
    ensures h[i].at - h[i - 1].at >= Backoff(Streak(h[..i])) - Delay(h, i - 1)
  {
    hide Backoff, Streak;
  }

  ghost predicate RetryMatches(w: World) {
    var f := Streak(w.history);
    w.slot.retry == if f == 0 then None else Some(RetryState(f, w.history[|w.history| - 1].now + Backoff(f)))
  }

  ghost predicate RetryInv(w: World) {
    && RetryMatches(w) && Spaced(w.history)
    && (w.pending.Some? ==> !RetryPending(w.slot.retry, w.pending.value.now))
  }

  lemma StreakAppend(h: seq<Mark>, m: Mark)
    ensures Streak(h + [m]) == if m.Dropped? || m.ok then 0 else 1 + Streak(h)
  {
    assert (h + [m])[..|h|] == h;
  }

  lemma RetryAfterAppend(h: seq<Mark>, m: Mark, i: nat)
    requires Spaced(h) && IsRetry(h + [m], i)
    requires IsRetry(h + [m], |h|) ==> m.now >= h[|h| - 1].now + Backoff(Streak(h))
    ensures var g := h + [m]; g[i].now >= g[i - 1].now + Backoff(Streak(g[..i]))
  {
    hide Backoff, Streak;
    var g := h + [m];
    if i < |h| {
      assert g[i] == h[i] && g[i - 1] == h[i - 1];
      assert IsRetry(h, i);
      assert g[..i] == h[..i];
    } else {
      assert g[i - 1] == h[|h| - 1] && g[i] == m;
      assert g[..i] == h;
    }
  }

  lemma FailureIsCounted(h: seq<Mark>)
    requires h != [] && h[|h| - 1].Attempted? && !h[|h| - 1].ok
    ensures Streak(h) > 0
  {
  }

  lemma SpacedAppend(h: seq<Mark>, m: Mark)
    requires Spaced(h) && (m.Attempted? ==> m.at >= m.now)
    requires m.Attempted? && Streak(h) > 0 ==> m.now >= h[|h| - 1].now + Backoff(Streak(h))
    ensures Spaced(h + [m])
    ensures Streak(h + [m]) == if m.Dropped? || m.ok then 0 else 1 + Streak(h)
  {
    StreakAppend(h, m);
    hide Backoff, Streak;
    var g := h + [m];
    if IsRetry(g, |h|) {
      assert g[|h|] == m && g[|h| - 1] == h[|h| - 1];
      FailureIsCounted(h);
    }
    hide IsRetry;
    forall i: nat | IsRetry(g, i) ensures g[i].now >= g[i - 1].now + Backoff(Streak(g[..i])) {
      RetryAfterAppend(h, m, i);
    }
  }

  /** A plan keeps the retry entry of an enabled group and drops any other; a
      target is never planned before its retry time. */
  lemma PlanAndRetry(listed: Option<Settings>, slot: Slot, now: Time)
    ensures PlannedSlot(listed, slot, now).retry ==
            if listed.Some? && Enabled(listed.value) then slot.retry else None
    ensures PlannedTarget(listed, slot, now).Some? ==>
              listed.Some? && Enabled(listed.value) && !RetryPending(slot.retry, now)
  {
  }

  lemma BusyIsNotTried(s: Settings, probe: bool, now: Time)
    ensures AutoUpdate(s, probe, now, Busy).NotTried?
  {
  }

  lemma RetryStep(w: World, e: Event)
    requires RetryInv(w)
    ensures RetryInv(Step(w, e))
  {
    hide Spaced, Streak, Backoff, PlannedSlot, PlannedTarget, AutoUpdate, Enabled;
    if e.PlanTick? {
      PlanAndRetry(if e.listed then Some(w.settings) else None, w.slot, e.now);
      SpacedAppend(w.history, Dropped);
    } else if e.TryTarget? && w.pending.Some? {
      var p := w.pending.value;
      var a := AutoUpdate(w.settings, p.probe, p.now, e.t);
      assert a.Tried? ==> !e.t.Busy? by { BusyIsNotTried(w.settings, p.probe, p.now); }
      if a.Tried? {
        SpacedAppend(w.history, Attempted(p.now, p.now + e.t.delay, a.ok));
      }
    }
  }

  // ---- due dates and probes ----

  /** A fetch that was allowed: the group has a URL and is not switched off. A probe is
      for a group without any interval; otherwise the user's interval, or without one
      the provider's, has passed since the last merge, to the second. */
  predicate Disciplined(f: Fetch) {
    var s, sinceMerge := f.settings, if f.lastMerge.Some? then Some(f.at - f.lastMerge.value) else None;
    && s.url != "" && !s.autoUpdateDisabled
    && (f.probe ==> s.intervalOverride <= 0 && s.providerInterval <= 0)
    && (!f.probe ==> s.intervalOverride > 0 || s.providerInterval > 0)
    && (!f.probe && s.intervalOverride > 0 && sinceMerge.Some? ==> sinceMerge.value > (s.intervalOverride - 1) * NANOS)
    && (!f.probe && s.intervalOverride <= 0 && sinceMerge.Some? ==> sinceMerge.value > (s.providerInterval - 1) * NANOS)
  }

  function ProbesWon(fetches: seq<Fetch>): nat {
    if fetches == [] then 0
    else
      var last := fetches[|fetches| - 1];
      ProbesWon(fetches[..|fetches| - 1]) + if last.probe && last.ok then 1 else 0
  }

  ghost predicate DueInv(w: World) {
    && (forall f :: f in w.fetches ==> Disciplined(f))
    && (w.lastMerge.Some? ==> w.lastMerge.value >= SECOND && w.settings.lastUpdated == w.lastMerge.value / SECOND)
    && ProbesWon(w.fetches) <= 1
    && (ProbesWon(w.fetches) == 1 ==>
          !w.slot.probe && w.lastMerge.Some? && (w.pending.Some? ==> !w.pending.value.probe))
  }

  lemma FetchIsDisciplined(w: World, p: Pending, t: Try)
    requires DueInv(w) && t.Reached? && AutoUpdate(w.settings, p.probe, p.now, t).Tried?
    ensures Disciplined(Fetch(w.settings, p.probe, p.now + t.delay, w.lastMerge, t.success))
  {
  }

  lemma DueStep(w: World, e: Event)
    requires DueInv(w) && e.WellTimed()
    ensures DueInv(Step(w, e))
  {
    if e.TryTarget? && w.pending.Some? {
      var p := w.pending.value;
      var a := AutoUpdate(w.settings, p.probe, p.now, e.t);
      if a.Tried? && e.t.Reached? {
        FetchIsDisciplined(w, p, e.t);
        var f := Fetch(w.settings, p.probe, p.now + e.t.delay, w.lastMerge, a.ok);
        assert (w.fetches + [f])[..|w.fetches|] == w.fetches;
      } else {
        assert w.fetches + [] == w.fetches;
      }
    }
  }

  // ---- the guarantees over a whole run ----

  predicate Started(w: World) {
    && w.slot.retry.None? && w.pending.None? && w.history == [] && w.fetches == []
    && w.lastMerge == if w.settings.lastUpdated > 0 then Some(w.settings.lastUpdated * SECOND) else None
  }

  lemma {:induction false} RunKeepsInvariants(w: World, es: seq<Event>)
    requires RetryInv(w) && DueInv(w) && forall e :: e in es ==> e.WellTimed()
    ensures RetryInv(Steps(w, es)) && DueInv(Steps(w, es))
    decreases es
  {
    hide RetryInv, DueInv, Step;
    if es != [] {
      assert es[0] in es && forall e :: e in es[1..] ==> e in es;
      RetryStep(w, es[0]);
      DueStep(w, es[0]);
      RunKeepsInvariants(Step(w, es[0]), es[1..]);
    }
  }

  /** From the start of the core, over any events: the retry entry counts the failures
      in a row, and after the f-th one the next attempt is made no sooner than the pause
      for f failures, less the delay of the failed attempt in its tick. */
  lemma RetriesAreSpaced(w: World, es: seq<Event>)
    requires Started(w) && forall e :: e in es ==> e.WellTimed()
    ensures Spaced(Steps(w, es).history) && RetryMatches(Steps(w, es))
    ensures var h := Steps(w, es).history;
            forall i: nat :: IsRetry(h, i) ==> h[i].at - h[i - 1].at >= Backoff(Streak(h[..i])) - Delay(h, i - 1)
  {
    assert Streak([]) == 0;
    RunKeepsInvariants(w, es);
    var h := Steps(w, es).history;
    hide Steps, Streak, Backoff, Spaced, Started;
    forall i: nat | IsRetry(h, i) ensures h[i].at - h[i - 1].at >= Backoff(Streak(h[..i])) - Delay(h, i - 1) {
      AttemptsAreApart(h, i);
    }
  }

  /** Every background fetch is for an enabled group, and comes at least one
      interval after the last merge (to the second) or is a probe of a group
      without interval; at most one probe ever succeeds. */
  lemma FetchesAreDue(w: World, es: seq<Event>)
    requires Started(w) && forall e :: e in es ==> e.WellTimed()
    ensures forall f :: f in Steps(w, es).fetches ==> Disciplined(f)
    ensures ProbesWon(Steps(w, es).fetches) <= 1
  {
    assert Streak([]) == 0;
    RunKeepsInvariants(w, es);
  }

  /** A group with settings `s` in the tick of time `now`, and `t` when its turn comes
      at time `at`, is to be fetched. */
  predicate Wanted(s: Settings, slot: Slot, now: Time, t: Settings, at: Time) {
    && s.url != "" && !s.autoUpdateDisabled && t.url != "" && !t.autoUpdateDisabled
    && !Paused(slot, now)
    && if NoInterval(s) then (slot.probe || s.lastUpdated == 0) && NoInterval(t)
       else IntervalPassed(s, now) && !NoInterval(t) && IntervalPassed(t, at)
  }

  /** One tick with a user's edit between planning and trying: the group is fetched if
      and only if it is listed, no pause runs, and it is due, or unknown and to be
      probed, both times it is looked at. */
  lemma FetchedIffWanted(w: World, now: Time, listed: bool, url: string, disabled: bool, intervalOverride: int,
                         delay: nat, success: bool, interval: int, merged: Time)
    requires w.pending.None?
    ensures var t, at := Edited(w.settings, url, disabled, intervalOverride), now + delay;
            var es := [PlanTick(now, listed), Edit(url, disabled, intervalOverride), TryTarget(Reached(delay, success, interval, merged))];
            Steps(w, es).fetches ==
              if listed && Wanted(w.settings, w.slot, now, t, at)
              then w.fetches + [Fetch(t, NoInterval(w.settings), at, w.lastMerge, success)]
              else w.fetches
  {
    var plan, edit := PlanTick(now, listed), Edit(url, disabled, intervalOverride);
    var try := TryTarget(Reached(delay, success, interval, merged));
    ThreeSteps(w, plan, edit, try);
    PlanAnswers(w.settings, w.slot, now);
    UnlistedAnswers(w.slot, now);
    hide Steps, PlannedTarget, PlannedSlot, Paused, NoInterval, IntervalPassed, AutoUpdate, TryStep;
    var w2 := Step(Step(w, plan), edit);
    if w2.pending.Some? {
      RecheckedIff(w2, w2.pending.value, delay, success, interval, merged);
    }
  }

  lemma RecheckedIff(w: World, p: Pending, delay: nat, success: bool, interval: int, merged: Time)
    ensures var at, s := p.now + delay, w.settings;
            TryStep(w, p, Reached(delay, success, interval, merged)).fetches ==
              if s.url != "" && !s.autoUpdateDisabled && (if p.probe then NoInterval(s) else !NoInterval(s) && IntervalPassed(s, at))
              then w.fetches + [Fetch(s, p.probe, at, w.lastMerge, success)] else w.fetches
  {
    hide AfterAttempt, AfterFetch;
  }

  lemma ThreeSteps(w: World, a: Event, b: Event, c: Event)
    ensures Steps(w, [a, b, c]) == Step(Step(Step(w, a), b), c)
  {
    hide Step;
    assert [a, b, c][1..] == [b, c] && [b, c][1..] == [c] && [c][1..] == [];
    var w2 := Step(Step(w, a), b);
    assert Steps(w2, [c]) == Steps(Step(w2, c), []);
    assert Steps(Step(w, a), [b, c]) == Steps(w2, [c]);
  }
}
