/** Partial updates of a group's settings: what a refresh stores, what the user
    stores, and how the group name follows the provider. */
module SubscriptionFields {
  import opened Profiles
  import opened Text
  import opened StoreOps

  /** The metadata of one download; absent fields are left alone. */
  datatype Fields = Fields(
    interval: Option<int>, lastUpdated: Option<int>, title: Option<string>,
    upload: Option<int>, download: Option<int>, total: Option<int>, expires: Option<int>, format: Option<string>)

  function Or<T>(o: Option<T>, t: T): T {
    if o.Some? then o.value else t
  }

  /** The title that counts: trimmed, and "" when there is none. */
  function Title(f: Fields): string {
    if f.title.Some? then TrimSpace(f.title.value) else ""
  }

  predicate AutoNamed(s: Settings) {
    s.name == "" || s.name == s.subName
  }

  function NamedBy(s: Settings, title: string): Settings {
    if title == "" then s
    else s.(name := if AutoNamed(s) then title else s.name, subName := title)
  }

  function MergedFields(s: Settings, f: Fields): Settings {
    NamedBy(
      s.(providerInterval := Or(f.interval, s.providerInterval), lastUpdated := Or(f.lastUpdated, s.lastUpdated),
         upload := Or(f.upload, s.upload), download := Or(f.download, s.download), total := Or(f.total, s.total),
         expires := Or(f.expires, s.expires), format := Or(f.format, s.format)),
      Title(f))
  }

  /** A change of the group's properties by the user; `host` is the host of `url`. */
  datatype Change = Change(name: string, url: string, host: string, autoUpdate: Option<bool>, interval: Option<int>)

  function Changed(s: Settings, gid: nat, c: Change): Option<Settings> {
    if c.interval.Some? && c.interval.value < 0 then None
    else
      var subName := if c.url != "" && c.host != "" then c.host else s.subName;
      var name := if c.name == "" || (AutoNamed(s) && c.name == s.name) then GroupName("", subName, gid) else c.name;
      Some(s.(autoUpdateDisabled := if c.autoUpdate.Some? then !c.autoUpdate.value else s.autoUpdateDisabled,
              intervalOverride := Or(c.interval, s.intervalOverride),
              subName := subName, url := if c.url != "" then c.url else s.url, name := name))
  }

  /** One group's stored settings. Writing them may fail. */
  class StoredGroup {
    const gid: nat
    var settings: Settings

    constructor (gid: nat, settings: Settings)
      ensures this.gid == gid && this.settings == settings
    {
      this.gid, this.settings := gid, settings;
    }

    method MergeSubscriptionFields(f: Fields, writeOk: bool) returns (ok: bool)
      modifies this
      ensures ok == writeOk
      ensures settings == if ok then MergedFields(old(settings), f) else old(settings)
    {
      var group := settings;
      group := group.(providerInterval := Or(f.interval, group.providerInterval));
      group := group.(lastUpdated := Or(f.lastUpdated, group.lastUpdated));
      group := group.(upload := Or(f.upload, group.upload), download := Or(f.download, group.download));
      group := group.(total := Or(f.total, group.total), expires := Or(f.expires, group.expires));
      group := group.(format := Or(f.format, group.format));
      if f.title.Some? {
        var title := TrimSpace(f.title.value);
        if title != "" {
          if group.name == "" || group.name == group.subName {
            group := group.(name := title);
          }
          group := group.(subName := title);
        }
      }
      ok := writeOk;
      if ok {
        settings := group;
      }
    }

    method UpdateGroupConfig(c: Change, writeOk: bool) returns (ok: bool)
      modifies this
      ensures ok <==> writeOk && Changed(old(settings), gid, c).Some?
      ensures settings == if ok then Changed(old(settings), gid, c).value else old(settings)
    {
      var group := settings;
      if c.autoUpdate.Some? {
        group := group.(autoUpdateDisabled := !c.autoUpdate.value);
      }
      if c.interval.Some? {
        if c.interval.value < 0 {
          return false;
        }
        group := group.(intervalOverride := c.interval.value);
      }
      var autoNamed := group.name == "" || group.name == group.subName;
      if c.url != "" {
        if c.host != "" {
          group := group.(subName := c.host);
        }
        group := group.(url := c.url);
      }
      if c.name == "" || (autoNamed && c.name == group.name) {
        group := group.(name := GroupName("", group.subName, gid));
      } else {
        group := group.(name := c.name);
      }
      ok := writeOk;
      if ok {
        settings := group;
      }
    }
  }

  // ---- the answers field by field ----

  /** A merge stores the fields that are present, leaves the others and everything the
      user set, and lets a title that is not blank replace the provider's name, and the
      group's name while that is empty or the provider's. */
  lemma MergeAnswers(s: Settings, f: Fields)
    ensures var t, title := MergedFields(s, f), if f.title.Some? then TrimSpace(f.title.value) else "";
            && (t.providerInterval == if f.interval.Some? then f.interval.value else s.providerInterval)
            && (t.lastUpdated == if f.lastUpdated.Some? then f.lastUpdated.value else s.lastUpdated)
            && (t.upload == if f.upload.Some? then f.upload.value else s.upload)
            && (t.download == if f.download.Some? then f.download.value else s.download)
            && (t.total == if f.total.Some? then f.total.value else s.total)
            && (t.expires == if f.expires.Some? then f.expires.value else s.expires)
            && (t.format == if f.format.Some? then f.format.value else s.format)
            && (t.subName == if title == "" then s.subName else title)
            && (t.name == if title != "" && (s.name == "" || s.name == s.subName) then title else s.name)
            && SameEdits(s, t)
  {
    hide TrimSpace;
  }

  /** A change by the user stores what is given: the flag, an interval that is not
      negative, the URL and with it the host as the provider's name. No name, or the
      automatic name given back, means the provider's name, or the number of the group;
      any other name is kept. A negative interval is refused. */
  lemma ChangeAnswers(s: Settings, gid: nat, c: Change)
    ensures Changed(s, gid, c) == None <==> c.interval.Some? && c.interval.value < 0
    ensures Changed(s, gid, c).Some? ==>
              var t := Changed(s, gid, c).value;
              && (t.autoUpdateDisabled == if c.autoUpdate.Some? then !c.autoUpdate.value else s.autoUpdateDisabled)
              && (t.intervalOverride == if c.interval.Some? then c.interval.value else s.intervalOverride)
              && (t.url == if c.url != "" then c.url else s.url)
              && (t.subName == if c.url != "" && c.host != "" then c.host else s.subName)
              && (t.name ==
                  if c.name != "" && !(c.name == s.name && s.name == s.subName) then c.name
                  else if t.subName != "" then t.subName else "Group " + Itoa(gid))
              && t == s.(autoUpdateDisabled := t.autoUpdateDisabled, intervalOverride := t.intervalOverride, url := t.url,
                         subName := t.subName, name := t.name)
  {
    hide Itoa;
  }

  // ---- edits and refreshes in any order ----

  datatype Event =
    | Merge(fields: Fields)
    | Configure(change: Change)
    | SetRoutingMode(mode: string)
    | SetManualSource(source: string)

  function Step(s: Settings, gid: nat, e: Event): Settings {
    match e
    case Merge(f) => MergedFields(s, f)
    case Configure(c) => if Changed(s, gid, c).Some? then Changed(s, gid, c).value else s
    case SetRoutingMode(mode) => s.(routingMode := mode)
    case SetManualSource(source) => s.(manualRoutingMode := source)
  }

  function Steps(s: Settings, gid: nat, es: seq<Event>): Settings
    decreases es
  {
    if es == [] then s else Steps(Step(s, gid, es[0]), gid, es[1..])
  }

  function UserEvents(es: seq<Event>): seq<Event> {
    if es == [] then []
    else if es[0].Merge? then UserEvents(es[1..])
    else [es[0]] + UserEvents(es[1..])
  }

  /** What belongs to the user. */
  predicate SameEdits(s: Settings, t: Settings) {
    && s.url == t.url && s.autoUpdateDisabled == t.autoUpdateDisabled && s.intervalOverride == t.intervalOverride
    && s.routingMode == t.routingMode && s.manualRoutingMode == t.manualRoutingMode
  }

  /** However the stores of refreshes fall between the user's edits, the URL, the
      auto-update flag, the interval override and the routing modes are those of
      the edits alone. */
  lemma {:induction false} RefreshesKeepEdits(s: Settings, t: Settings, gid: nat, es: seq<Event>)
    requires SameEdits(s, t)
    ensures SameEdits(Steps(s, gid, es), Steps(t, gid, UserEvents(es)))
    decreases es
  {
    if es != [] {
      if es[0].Merge? {
        RefreshesKeepEdits(Step(s, gid, es[0]), t, gid, es[1..]);
      } else {
        RefreshesKeepEdits(Step(s, gid, es[0]), Step(t, gid, es[0]), gid, es[1..]);
        assert UserEvents(es)[1..] == UserEvents(es[1..]);
      }
    }
  }

  // ---- names ----

  function MergeAll(s: Settings, fs: seq<Fields>): Settings
    decreases fs
  {
    if fs == [] then s else MergeAll(MergedFields(s, fs[0]), fs[1..])
  }

  /** The last title that is not blank. */
  function LastTitle(fs: seq<Fields>, before: string): string
    decreases fs
  {
    if fs == [] then before
    else LastTitle(fs[1..], if Title(fs[0]) == "" then before else Title(fs[0]))
  }

  /** An automatic name is always the last title that is not blank. */
  lemma {:induction false} AutomaticNameFollows(s: Settings, fs: seq<Fields>)
    requires AutoNamed(s)
    ensures AutoNamed(MergeAll(s, fs)) && MergeAll(s, fs).name == LastTitle(fs, s.name)
    decreases fs
  {
    if fs != [] {
      AutomaticNameFollows(MergedFields(s, fs[0]), fs[1..]);
    }
  }

  lemma {:induction false} LastTitleIsATitle(fs: seq<Fields>, a: string, b: string)
    requires exists f :: f in fs && Title(f) != ""
    ensures LastTitle(fs, a) == LastTitle(fs, b)
    decreases fs
  {
    if Title(fs[0]) == "" {
      assert fs == [fs[0]] + fs[1..];
      LastTitleIsATitle(fs[1..], a, b);
    }
  }

  /** A manual name survives refreshes whose titles all differ from it. A title
      equal to the name turns it into an automatic one, which follows from then on. */
  lemma {:induction false} ManualNameSurvives(s: Settings, fs: seq<Fields>)
    requires !AutoNamed(s)
    ensures MergeAll(s, fs).name ==
            if exists f :: f in fs && Title(f) == s.name then LastTitle(fs, s.name) else s.name
    ensures AutoNamed(MergeAll(s, fs)) <==> exists f :: f in fs && Title(f) == s.name
    decreases fs
  {
    if fs != [] {
      var s1, rest := MergedFields(s, fs[0]), fs[1..];
      assert fs == [fs[0]] + rest;
      if Title(fs[0]) == s.name {
        assert fs[0] in fs;
        AutomaticNameFollows(s1, rest);
      } else {
        ManualNameSurvives(s1, rest);
        if exists f :: f in rest && Title(f) == s.name {
          LastTitleIsATitle(rest, s.name, Title(fs[0]));
        }
      }
    }
  }
}
