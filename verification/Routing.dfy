/** Which routing rules apply to a group, the handlers that change them, and when
    they reload the running proxy. */
module Routing {
  import opened Profiles
  import opened Text

  datatype Rule = Rule(
    kind: string, domain: string, ip: string, protocol: string, port: string, network: string,
    outboundTag: string, enabled: bool)

  datatype RoutingConfig = RoutingConfig(domainStrategy: string, rules: seq<Rule>, dns: Option<string>)

  /** A directory of geo assets, named after the profile it was downloaded for. */
  datatype GeoDir = GeoDir(gid: nat, id: string)

  datatype RoutingProfile = RoutingProfile(
    id: string, gid: nat, rules: seq<Rule>, domainStrategy: string, globalProxy: bool,
    dns: Option<string>, geoDir: Option<GeoDir>)

  datatype RoutingGroup = RoutingGroup(mode: string, manualMode: string, activeId: string, pendingId: string, format: string)

  datatype Selection = Selection(
    config: RoutingConfig, source: string, profileId: string, geoDir: Option<GeoDir>, globalProxy: bool)

  /** The routing part of the database. `geo` holds the directories in which both
      asset files are present. */
  datatype RoutingDB = RoutingDB(
    groups: map<nat, RoutingGroup>, global: Option<RoutingConfig>, manual: map<nat, RoutingConfig>,
    profiles: map<(nat, string), RoutingProfile>, geo: set<GeoDir>)

  const LAN_RULE_IP := "10.0.0.0/8,172.16.0.0/12,192.168.0.0/16,fc00::/7,fe80::/10,::1/128"

  const LAN_ONLY := RoutingConfig("IPIfNonMatch", [Rule("field", "", LAN_RULE_IP, "", "", "", "direct", true)], None)

  function GlobalRouting(db: RoutingDB): RoutingConfig {
    if db.global.Some? then db.global.value else LAN_ONLY
  }

  /** The manual rules of a group: its own when it is customised, else the global
      ones. */
  function EffectiveManual(db: RoutingDB, gid: nat): RoutingConfig {
    if gid != 0 && gid in db.groups && db.groups[gid].manualMode == "custom"
    then (if gid in db.manual then db.manual[gid] else LAN_ONLY)
    else GlobalRouting(db)
  }

  function ManualSelection(config: RoutingConfig): Selection {
    Selection(config, "manual", "", None, false)
  }

  predicate GeoPresent(db: RoutingDB, p: RoutingProfile) {
    p.geoDir.Some? ==> p.geoDir.value in db.geo
  }

  /** The active routing profile of a group, when it can be used. */
  function UsableProfile(db: RoutingDB, gid: nat): Option<RoutingProfile>
    requires gid in db.groups
  {
    var key := (gid, db.groups[gid].activeId);
    if db.groups[gid].activeId != "" && key in db.profiles && db.profiles[key].gid == gid
       && db.profiles[key].rules != [] && GeoPresent(db, db.profiles[key])
    then Some(db.profiles[key])
    else None
  }

  function Resolve(db: RoutingDB, gid: nat): Selection {
    if gid == 0 || gid !in db.groups then ManualSelection(GlobalRouting(db))
    else
      var mode := if db.groups[gid].mode == "" then "auto" else db.groups[gid].mode;
      var usable := UsableProfile(db, gid);
      if mode == "manual" then ManualSelection(EffectiveManual(db, gid))
      else if usable.Some? then
        var p := usable.value;
        Selection(RoutingConfig(p.domainStrategy, p.rules, p.dns), "happ", p.id, p.geoDir, p.globalProxy)
      else if mode == "auto" then ManualSelection(EffectiveManual(db, gid))
      else Selection(LAN_ONLY, "happ", "", None, true)
  }

  function Normalised(s: string): string {
    LowerAll(TrimSpace(s))
  }

  // ---- writes that may fail ----

  /** How a reload ends: the new selection runs, the new configuration is refused
      and the old one keeps running, or the proxy does not come up again. */
  datatype Reload = Reloaded | Refused | Lost

  /** What becomes of the writes, removals and reload of one command: copying the
      global rules to a group, switching its source, the final write, and removing
      the file and the geo assets of a profile. */
  datatype Luck = Luck(copyOk: bool, switchOk: bool, saveOk: bool, fileGone: bool, geoGone: bool, reload: Reload)

  datatype Changed = Changed(db: RoutingDB, ok: bool)

  /** A group that is customised and has no rules starts from a copy of the global
      ones. */
  predicate NeedsCopy(db: RoutingDB, gid: nat, source: string) {
    source == "custom" && gid !in db.manual
  }

  /** setManualRoutingSource: copy the rules if needed, then switch the source. */
  function WithManualSource(db: RoutingDB, gid: nat, source: string, luck: Luck): Changed {
    if gid == 0 || (source != "inherit" && source != "custom") || gid !in db.groups then Changed(db, false)
    else if NeedsCopy(db, gid, source) && !luck.copyOk then Changed(db, false)
    else
      var copied := if NeedsCopy(db, gid, source) then db.(manual := db.manual[gid := GlobalRouting(db)]) else db;
      if !luck.switchOk then Changed(copied, false)
      else Changed(copied.(groups := copied.groups[gid := copied.groups[gid].(manualMode := source)]), true)
  }

  predicate CanActivate(db: RoutingDB, gid: nat, id: string) {
    id != "" ==>
      && (gid, id) in db.profiles && db.profiles[(gid, id)].gid == gid
      && db.profiles[(gid, id)].rules != [] && GeoPresent(db, db.profiles[(gid, id)])
  }

  function WithActiveProfile(db: RoutingDB, gid: nat, id: string, luck: Luck): Changed {
    if gid !in db.groups || !CanActivate(db, gid, id) || !luck.saveOk then Changed(db, false)
    else Changed(db.(groups := db.groups[gid := db.groups[gid].(activeId := id, pendingId := "")]), true)
  }

  /** Errors of a deletion are ignored, whichever of its steps they hit. */
  function WithoutProfile(db: RoutingDB, gid: nat, id: string, luck: Luck): RoutingDB {
    var gone := db.(profiles := if luck.fileGone then db.profiles - {(gid, id)} else db.profiles,
                    geo := if luck.geoGone then db.geo - {GeoDir(gid, id)} else db.geo);
    if gid in gone.groups && luck.saveOk then
      var g := gone.groups[gid];
      gone.(groups := gone.groups[gid := g.(activeId := if g.activeId == id then "" else g.activeId,
                                            pendingId := if g.pendingId == id then "" else g.pendingId)])
    else gone
  }

  // ---- commands ----

  datatype Command =
    | UpdateRouting(gid: int, config: RoutingConfig)
    | SetManualRoutingSource(group: nat, source: string)
    | SetGroupRoutingMode(group: nat, mode: string)
    | SetActiveRoutingProfile(group: nat, id: string)
    | DeleteRoutingProfile(group: nat, id: string)

  /** Groups fed by a JSON subscription take their routing from the provider. */
  predicate Editable(db: RoutingDB, gid: nat) {
    gid in db.groups && db.groups[gid].format != "json"
  }

  /** New manual rules, for all groups (`gid` 0) or for one, which is customised
      first; a failed write leaves behind what was done before it. */
  function UpdatedRules(db: RoutingDB, gid: int, config: RoutingConfig, luck: Luck): Changed {
    if gid < 0 || (gid > 0 && gid !in db.groups) then Changed(db, false)
    else if gid == 0 then (if luck.saveOk then Changed(db.(global := Some(config)), true) else Changed(db, false))
    else
      var custom := if db.groups[gid].manualMode != "custom" then WithManualSource(db, gid, "custom", luck) else Changed(db, true);
      if !custom.ok || !luck.saveOk then Changed(custom.db, false)
      else Changed(custom.db.(manual := custom.db.manual[gid := config]), true)
  }

  function ActiveTarget(id: string): string {
    if id == "off" then "" else id
  }

  predicate IsMode(mode: string) {
    mode == "auto" || mode == "manual" || mode == "subscription"
  }

  /** What a command leaves in the database, and whether it was carried out. */
  function Carry(db: RoutingDB, c: Command, luck: Luck): Changed {
    match c
    case UpdateRouting(gid, config) => UpdatedRules(db, gid, config, luck)
    case SetManualRoutingSource(gid, source) => WithManualSource(db, gid, Normalised(source), luck)
    case SetGroupRoutingMode(gid, mode) =>
      if !IsMode(Normalised(mode)) || !Editable(db, gid) || !luck.saveOk then Changed(db, false)
      else Changed(db.(groups := db.groups[gid := db.groups[gid].(mode := Normalised(mode))]), true)
    case SetActiveRoutingProfile(gid, id) =>
      if !Editable(db, gid) then Changed(db, false) else WithActiveProfile(db, gid, ActiveTarget(id), luck)
    case DeleteRoutingProfile(gid, id) =>
      if !Editable(db, gid) || (gid, id) !in db.profiles then Changed(db, false)
      else Changed(WithoutProfile(db, gid, id, luck), true)
  }

  /** A change of the manual rules of `changed` (0: the global ones) that cannot
      affect the connected group. */
  predicate Skippable(db: RoutingDB, connected: nat, changed: nat) {
    if changed != 0 then changed != connected
    else connected in db.groups && db.groups[connected].manualMode == "custom"
  }

  /** Whether a command that was carried out reloads the proxy. */
  predicate Reloads(db: RoutingDB, connected: nat, c: Command, luck: Luck) {
    var after := Carry(db, c, luck);
    connected != 0 && after.ok &&
    match c
    case UpdateRouting(gid, _) => !Skippable(after.db, connected, gid)
    case SetManualRoutingSource(gid, _) => !Skippable(after.db, connected, gid)
    case SetGroupRoutingMode(gid, _) => connected == gid
    case SetActiveRoutingProfile(gid, _) => connected == gid
    case DeleteRoutingProfile(gid, id) => connected == gid && db.groups[gid].activeId == id
  }

  /** The proxy runs the selection of the last connect or reload; `connected` is
      the group of the connected share-link profile, 0 without one. */
  datatype Daemon = Daemon(db: RoutingDB, connected: nat, running: Selection)

  predicate InAgreement(d: Daemon) {
    d.connected != 0 ==> d.running == Resolve(d.db, d.connected)
  }

  function AfterReload(d: Daemon, reload: Reload): Daemon {
    match reload
    case Reloaded => d.(running := Resolve(d.db, d.connected))
    case Refused => d
    case Lost => d.(connected := 0)
  }

  function Handle(d: Daemon, c: Command, luck: Luck): Daemon {
    var after := d.(db := Carry(d.db, c, luck).db);
    if Reloads(d.db, d.connected, c, luck) then AfterReload(after, luck.reload) else after
  }

  /** The command handlers. */
  class RoutingDaemon {
    var db: RoutingDB
    var connected: nat
    var running: Selection

    function State(): Daemon
      reads this
    {
      Daemon(db, connected, running)
    }

    constructor (db: RoutingDB)
      ensures State() == Daemon(db, 0, ManualSelection(LAN_ONLY))
    {
      this.db, connected, running := db, 0, ManualSelection(LAN_ONLY);
    }

    method Connect(gid: nat)
      modifies this`connected, this`running
      ensures InAgreement(State()) && connected == gid
    {
      connected, running := gid, Resolve(db, gid);
    }

    method ReloadRouting(reload: Reload)
      modifies this`connected, this`running
      ensures State() == AfterReload(old(State()), reload)
    {
      match reload
      case Reloaded => running := Resolve(db, connected);
      case Refused =>
      case Lost => connected := 0;
    }

    /** Skip the reload when the change cannot affect the connected group. */
    method ReloadRoutingIfNeeded(changed: nat, reload: Reload)
      modifies this`connected, this`running
      ensures State() == if old(connected) == 0 || Skippable(db, old(connected), changed) then old(State())
                         else AfterReload(old(State()), reload)
    {
      if connected == 0 {
        return;
      }
      if changed != 0 && changed != connected {
        return;
      }
      if changed == 0 {
        if connected in db.groups && db.groups[connected].manualMode == "custom" {
          return;
        }
      }
      ReloadRouting(reload);
    }

    /** Give a group its own rules or the global ones; the rules file is written
        before the group refers to it. */
    method SwitchSource(gid: nat, source: string, luck: Luck) returns (ok: bool)
      modifies this`db
      ensures Changed(db, ok) == WithManualSource(old(db), gid, source, luck)
    {
      if gid == 0 || (source != "inherit" && source != "custom") || gid !in db.groups {
        return false;
      }
      if source == "custom" && gid !in db.manual {
        if !luck.copyOk {
          return false;
        }
        db := db.(manual := db.manual[gid := GlobalRouting(db)]);
      }
      if !luck.switchOk {
        return false;
      }
      db := db.(groups := db.groups[gid := db.groups[gid].(manualMode := source)]);
      return true;
    }

    /** Store manual rules, for all groups (`gid` 0) or for one, which is then
        customised. */
    method UpdateRouting(gid: int, config: RoutingConfig, luck: Luck)
      modifies this
      ensures State() == Handle(old(State()), Command.UpdateRouting(gid, config), luck)
    {
      if gid < 0 {
        return;
      }
      if gid == 0 {
        if !luck.saveOk {
          return;
        }
        db := db.(global := Some(config));
      } else {
        if gid !in db.groups {
          return;
        }
        if db.groups[gid].manualMode != "custom" {
          var ok := SwitchSource(gid, "custom", luck);
          if !ok {
            return;
          }
        }
        if !luck.saveOk {
          return;
        }
        db := db.(manual := db.manual[gid := config]);
      }
      ReloadRoutingIfNeeded(gid, luck.reload);
    }

    method SetManualRoutingSource(gid: nat, source: string, luck: Luck)
      modifies this
      ensures State() == Handle(old(State()), Command.SetManualRoutingSource(gid, source), luck)
    {
      var ok := SwitchSource(gid, Normalised(source), luck);
      if ok {
        ReloadRoutingIfNeeded(gid, luck.reload);
      }
    }

    method SetGroupRoutingMode(gid: nat, mode: string, luck: Luck)
      modifies this
      ensures State() == Handle(old(State()), Command.SetGroupRoutingMode(gid, mode), luck)
    {
      var m := Normalised(mode);
      if m != "auto" && m != "manual" && m != "subscription" {
        return;
      }
      if gid !in db.groups || db.groups[gid].format == "json" || !luck.saveOk {
        return;
      }
      db := db.(groups := db.groups[gid := db.groups[gid].(mode := m)]);
      if connected != 0 && connected == gid {
        ReloadRouting(luck.reload);
      }
    }

    method SetActiveRoutingProfile(gid: nat, id: string, luck: Luck)
      modifies this
      ensures State() == Handle(old(State()), Command.SetActiveRoutingProfile(gid, id), luck)
    {
      if gid !in db.groups || db.groups[gid].format == "json" {
        return;
      }
      var target := if id == "off" then "" else id;
      if target != "" {
        if (gid, target) !in db.profiles || db.profiles[(gid, target)].gid != gid || db.profiles[(gid, target)].rules == [] {
          return;
        }
        var p := db.profiles[(gid, target)];
        if p.geoDir.Some? && p.geoDir.value !in db.geo {
          return;
        }
      }
      if !luck.saveOk {
        return;
      }
      db := db.(groups := db.groups[gid := db.groups[gid].(activeId := target, pendingId := "")]);
      if connected != 0 && connected == gid {
        ReloadRouting(luck.reload);
      }
    }

    /** Deleting the active profile reloads; deleting another one does not. */
    method DeleteRoutingProfile(gid: nat, id: string, luck: Luck)
      modifies this
      ensures State() == Handle(old(State()), Command.DeleteRoutingProfile(gid, id), luck)
    {
      if gid !in db.groups || db.groups[gid].format == "json" || (gid, id) !in db.profiles {
        return;
      }
      var wasActive := db.groups[gid].activeId == id;
      if luck.fileGone {
        db := db.(profiles := db.profiles - {(gid, id)});
      }
      if luck.geoGone {
        db := db.(geo := db.geo - {GeoDir(gid, id)});
      }
      if luck.saveOk {
        var g := db.groups[gid];
        g := g.(activeId := if g.activeId == id then "" else g.activeId);
        g := g.(pendingId := if g.pendingId == id then "" else g.pendingId);
        db := db.(groups := db.groups[gid := g]);
      }
      if wasActive && connected != 0 && connected == gid {
        ReloadRouting(luck.reload);
      }
    }
  }

  // ---- the answers in the fields of the database ----

  /** The rules of a group or database that has none stored. */
  const DEFAULT_RULES := RoutingConfig(
    "IPIfNonMatch",
    [Rule("field", "", "10.0.0.0/8,172.16.0.0/12,192.168.0.0/16,fc00::/7,fe80::/10,::1/128", "", "", "", "direct", true)],
    None)

  /** The group has an active profile that exists, belongs to it, has rules, and whose
      geo assets are there if it needs any. */
  predicate ProfileApplies(db: RoutingDB, gid: nat) {
    && gid in db.groups && db.groups[gid].activeId != ""
    && (gid, db.groups[gid].activeId) in db.profiles
    && var p := db.profiles[(gid, db.groups[gid].activeId)];
    && p.gid == gid && |p.rules| > 0 && (p.geoDir == None || p.geoDir.value in db.geo)
  }

  /** What the group's own or the global rules file holds. */
  predicate RulesOf(config: RoutingConfig, file: Option<RoutingConfig>) {
    config == if file.Some? then file.value else DEFAULT_RULES
  }

  function OwnFile(db: RoutingDB, gid: nat): Option<RoutingConfig> {
    if gid in db.manual then Some(db.manual[gid]) else None
  }

  /** Which selection applies. In manual mode, and in automatic mode without a profile
      that applies, it is the group's own rules if the group is customised and the global
      ones otherwise; the profile goes before them in any other mode; a strict group
      without one is restricted to the local network and otherwise proxied. */
  lemma ResolveAnswers(db: RoutingDB, gid: nat)
    ensures var r := Resolve(db, gid);
            if gid == 0 || gid !in db.groups then RulesOf(r.config, db.global) && r == Selection(r.config, "manual", "", None, false)
            else
              var g := db.groups[gid];
              if g.mode != "manual" && ProfileApplies(db, gid) then
                var p := db.profiles[(gid, g.activeId)];
                r == Selection(RoutingConfig(p.domainStrategy, p.rules, p.dns), "happ", p.id, p.geoDir, p.globalProxy)
              else if g.mode == "manual" || g.mode == "auto" || g.mode == "" then
                && RulesOf(r.config, if g.manualMode == "custom" then OwnFile(db, gid) else db.global)
                && r == Selection(r.config, "manual", "", None, false)
              else r == Selection(DEFAULT_RULES, "happ", "", None, true)
  {
  }

  /** How a proxy that is connected to group `c` stands after a command that has left
      `db`: reloaded, as it was, or lost. */
  predicate RunsOn(d: Daemon, after: Daemon, reloads: bool, reload: Reload) {
    if d.connected == 0 || !reloads || reload.Refused? then after.connected == d.connected && after.running == d.running
    else if reload.Lost? then after.connected == 0
    else after.connected == d.connected && after.running == Resolve(after.db, d.connected)
  }

  /** New rules: where they are stored, and when the proxy is reloaded for them. */
  lemma RulesAnswers(d: Daemon, gid: int, config: RoutingConfig, luck: Luck)
    requires luck.copyOk && luck.switchOk && luck.saveOk
    ensures var after := Handle(d, Command.UpdateRouting(gid, config), luck);
            && (gid < 0 || (gid > 0 && gid !in d.db.groups) ==> after == d)
            && (gid == 0 ==>
                  && after.db == d.db.(global := Some(config))
                  && RunsOn(d, after, !(d.connected in d.db.groups && d.db.groups[d.connected].manualMode == "custom"), luck.reload))
            && (gid > 0 && gid in d.db.groups ==>
                  && after.db == d.db.(manual := d.db.manual[gid := config],
                                       groups := d.db.groups[gid := d.db.groups[gid].(manualMode := "custom")])
                  && RunsOn(d, after, d.connected == gid, luck.reload))
  {
    hide Resolve;
    if gid > 0 && gid in d.db.groups {
      assert d.db.manual[gid := GlobalRouting(d.db)][gid := config] == d.db.manual[gid := config];
      assert d.db.groups[gid].manualMode == "custom" ==>
               d.db.groups[gid := d.db.groups[gid].(manualMode := "custom")] == d.db.groups;
    }
  }

  /** Rules that are stored for the connected group, or for all groups while it follows
      the global ones, are the rules that run, unless a profile or the strict mode goes
      before them. */
  lemma NewRulesRun(d: Daemon, gid: nat, config: RoutingConfig, luck: Luck)
    requires luck == Luck(true, true, true, luck.fileGone, luck.geoGone, Reloaded)
    requires var c := d.connected;
             && c != 0 && c in d.db.groups
             && (d.db.groups[c].mode == "manual" || (d.db.groups[c].mode in ["", "auto"] && !ProfileApplies(d.db, c)))
             && (gid == c || (gid == 0 && d.db.groups[c].manualMode != "custom"))
    ensures Handle(d, Command.UpdateRouting(gid, config), luck).running == Selection(config, "manual", "", None, false)
  {
    hide Resolve, Handle;
    var after := Handle(d, Command.UpdateRouting(gid, config), luck);
    RulesAnswers(d, gid, config, luck);
    ResolveAnswers(after.db, d.connected);
    assert ProfileApplies(after.db, d.connected) == ProfileApplies(d.db, d.connected);
  }

  /** A new source: accepted are the two names, in any case and with spaces around. */
  lemma SourceAnswers(d: Daemon, gid: nat, source: string, luck: Luck)
    requires luck.copyOk && luck.switchOk
    ensures var after, name := Handle(d, Command.SetManualRoutingSource(gid, source), luck), LowerAll(TrimSpace(source));
            if gid == 0 || gid !in d.db.groups || (name != "inherit" && name != "custom") then after == d
            else
              && after.db.groups == d.db.groups[gid := d.db.groups[gid].(manualMode := name)]
              && after.db == d.db.(groups := after.db.groups, manual := after.db.manual)
              && (name == "inherit" || gid in d.db.manual ==> after.db.manual == d.db.manual)
              && (name == "custom" && gid !in d.db.manual ==>
                    && gid in after.db.manual && RulesOf(after.db.manual[gid], d.db.global)
                    && after.db.manual == d.db.manual[gid := after.db.manual[gid]])
              && RunsOn(d, after, d.connected == gid, luck.reload)
  {
    hide Resolve, TrimSpace;
  }

  lemma ModeAnswers(d: Daemon, gid: nat, mode: string, luck: Luck)
    requires luck.saveOk
    ensures var after, name := Handle(d, Command.SetGroupRoutingMode(gid, mode), luck), LowerAll(TrimSpace(mode));
            if gid !in d.db.groups || d.db.groups[gid].format == "json" || name !in ["auto", "manual", "subscription"]
            then after == d
            else
              && after.db == d.db.(groups := d.db.groups[gid := d.db.groups[gid].(mode := name)])
              && RunsOn(d, after, d.connected == gid, luck.reload)
  {
    hide Resolve, TrimSpace;
    assert forall m: string :: m in ["auto", "manual", "subscription"] <==> m == "auto" || m == "manual" || m == "subscription";
  }

  /** The profile to activate exists, belongs to the group, has rules and its assets. */
  predicate Activatable(db: RoutingDB, gid: nat, id: string) {
    && (gid, id) in db.profiles && db.profiles[(gid, id)].gid == gid && |db.profiles[(gid, id)].rules| > 0
    && (db.profiles[(gid, id)].geoDir == None || db.profiles[(gid, id)].geoDir.value in db.geo)
  }

  lemma ActivationAnswers(d: Daemon, gid: nat, id: string, luck: Luck)
    requires luck.saveOk
    ensures var after, target := Handle(d, Command.SetActiveRoutingProfile(gid, id), luck), if id == "off" then "" else id;
            if gid !in d.db.groups || d.db.groups[gid].format == "json" || (target != "" && !Activatable(d.db, gid, target))
            then after == d
            else
              && after.db == d.db.(groups := d.db.groups[gid := d.db.groups[gid].(activeId := target, pendingId := "")])
              && RunsOn(d, after, d.connected == gid, luck.reload)
  {
    hide Resolve;
  }

  /** A profile that is activated for the connected group runs, in every mode but the
      manual one. */
  lemma ActivatedProfileRuns(d: Daemon, gid: nat, id: string, luck: Luck)
    requires luck.saveOk && luck.reload.Reloaded? && d.connected == gid != 0
    requires gid in d.db.groups && d.db.groups[gid].format != "json" && d.db.groups[gid].mode != "manual"
    requires id != "" && id != "off" && Activatable(d.db, gid, id)
    ensures var p := d.db.profiles[(gid, id)];
            Handle(d, Command.SetActiveRoutingProfile(gid, id), luck).running ==
            Selection(RoutingConfig(p.domainStrategy, p.rules, p.dns), "happ", p.id, p.geoDir, p.globalProxy)
  {
    hide Resolve, Handle;
    ActivationAnswers(d, gid, id, luck);
    ResolveAnswers(Handle(d, Command.SetActiveRoutingProfile(gid, id), luck).db, gid);
  }

  /** A write that fails ends its command: what was written before it stays, and the
      proxy is not reloaded. */
  lemma FailureAnswers(d: Daemon, gid: nat, text: string, config: RoutingConfig, luck: Luck)
    ensures !luck.saveOk ==>
              && Handle(d, Command.SetGroupRoutingMode(gid, text), luck) == d
              && Handle(d, Command.SetActiveRoutingProfile(gid, text), luck) == d
              && Handle(d, Command.UpdateRouting(0, config), luck) == d
    ensures gid != 0 && gid in d.db.groups && (!luck.saveOk || (d.db.groups[gid].manualMode != "custom" && !luck.switchOk)) ==>
              var after := Handle(d, Command.UpdateRouting(gid, config), luck);
              var inherits := d.db.groups[gid].manualMode != "custom";
              && after == d.(db := after.db)
              && SourceWrites(d.db, after.db, gid, "custom", inherits && gid !in d.db.manual, inherits && luck.switchOk, luck.copyOk)
    ensures !luck.switchOk ==>
              var after, name := Handle(d, Command.SetManualRoutingSource(gid, text), luck), LowerAll(TrimSpace(text));
              && after == d.(db := after.db)
              && SourceWrites(d.db, after.db, gid, name, name == "custom" && gid != 0 && gid in d.db.groups && gid !in d.db.manual,
                              false, luck.copyOk)
  {
    hide Resolve, TrimSpace;
  }

  /** `after` is `db` with the writes of a switch of source: first the copy of the global
      rules, if there is to be one, then the source. */
  predicate SourceWrites(db: RoutingDB, after: RoutingDB, gid: nat, source: string, copies: bool, switches: bool, copyOk: bool) {
    if copies && !copyOk then after == db
    else
      && after == db.(manual := after.manual, groups := after.groups)
      && (if copies then gid in after.manual && RulesOf(after.manual[gid], db.global) && after.manual == db.manual[gid := after.manual[gid]]
          else after.manual == db.manual)
      && (if switches then gid in db.groups && after.groups == db.groups[gid := db.groups[gid].(manualMode := source)]
          else after.groups == db.groups)
  }

  /** A deleted profile is gone with its assets, and neither active nor pending any more. */
  lemma DeletionAnswers(d: Daemon, gid: nat, id: string, luck: Luck)
    requires luck.fileGone && luck.geoGone && luck.saveOk
    ensures var after := Handle(d, Command.DeleteRoutingProfile(gid, id), luck);
            if gid !in d.db.groups || d.db.groups[gid].format == "json" || (gid, id) !in d.db.profiles then after == d
            else
              && after.db.profiles == d.db.profiles - {(gid, id)} && after.db.geo == d.db.geo - {GeoDir(gid, id)}
              && after.db.global == d.db.global && after.db.manual == d.db.manual
              && after.db.groups.Keys == d.db.groups.Keys
              && (forall g :: g in d.db.groups && g != gid ==> after.db.groups[g] == d.db.groups[g])
              && var old', new' := d.db.groups[gid], after.db.groups[gid];
              && new' == old'.(activeId := new'.activeId, pendingId := new'.pendingId)
              && new'.activeId == (if old'.activeId == id then "" else old'.activeId)
              && new'.pendingId == (if old'.pendingId == id then "" else old'.pendingId)
              && RunsOn(d, after, d.connected == gid && old'.activeId == id, luck.reload)
  {
    hide Resolve;
  }

  // ---- skipped reloads change nothing ----

  /** All that the selection of group `c` depends on. */
  lemma ResolveDependsOn(a: RoutingDB, b: RoutingDB, c: nat)
    requires c != 0 && (c in a.groups <==> c in b.groups)
    requires c !in a.groups ==> GlobalRouting(a) == GlobalRouting(b)
    requires c in a.groups ==> a.groups[c].mode == b.groups[c].mode
    requires c in a.groups ==> EffectiveManual(a, c) == EffectiveManual(b, c) && UsableProfile(a, c) == UsableProfile(b, c)
    ensures Resolve(a, c) == Resolve(b, c)
  {
  }

  /** Switching the source touches one group's manual rules only, however far it
      comes. */
  lemma SwitchTouchesOneGroup(db: RoutingDB, gid: nat, source: string, luck: Luck, c: nat)
    requires c != 0 && c != gid
    ensures Resolve(WithManualSource(db, gid, source, luck).db, c) == Resolve(db, c)
  {
    hide Resolve;
    ResolveDependsOn(db, WithManualSource(db, gid, source, luck).db, c);
  }

  lemma GlobalRulesTouchNoCustomGroup(db: RoutingDB, config: RoutingConfig, c: nat)
    requires c != 0 && c in db.groups && db.groups[c].manualMode == "custom"
    ensures Resolve(db.(global := Some(config)), c) == Resolve(db, c)
  {
    hide Resolve;
    ResolveDependsOn(db, db.(global := Some(config)), c);
  }

  lemma GroupRulesTouchOneGroup(db: RoutingDB, gid: nat, config: RoutingConfig, c: nat)
    requires c != 0 && c != gid
    ensures Resolve(db.(manual := db.manual[gid := config]), c) == Resolve(db, c)
  {
    hide Resolve;
    ResolveDependsOn(db, db.(manual := db.manual[gid := config]), c);
  }

  /** New rules that cause no reload leave the connected group's selection alone. */
  lemma SkippedRulesDoNotMatter(db: RoutingDB, gid: nat, config: RoutingConfig, luck: Luck, c: nat)
    requires c != 0 && UpdatedRules(db, gid, config, luck).ok
    requires Skippable(UpdatedRules(db, gid, config, luck).db, c, gid)
    ensures Resolve(UpdatedRules(db, gid, config, luck).db, c) == Resolve(db, c)
  {
    hide Resolve, WithManualSource;
    if gid == 0 {
      GlobalRulesTouchNoCustomGroup(db, config, c);
    } else {
      SwitchTouchesOneGroup(db, gid, "custom", luck, c);
      GroupRulesTouchOneGroup(WithManualSource(db, gid, "custom", luck).db, gid, config, c);
      GroupRulesTouchOneGroup(db, gid, config, c);
    }
  }

  /** The connected group's usable profile lives on the geo assets that are removed
      together with another profile. Downloads only ever fill a profile's own
      directory, so this takes files that were put there by other means. */
  predicate BorrowedGeo(db: RoutingDB, connected: nat, gid: nat, id: string) {
    && connected != 0 && connected in db.groups
    && db.groups[connected].mode != "manual"
    && (connected, db.groups[connected].activeId) != (gid, id)
    && UsableProfile(db, connected).Some? && UsableProfile(db, connected).value.geoDir == Some(GeoDir(gid, id))
  }

  lemma UsableAfterDeletion(db: RoutingDB, connected: nat, gid: nat, id: string, luck: Luck)
    requires connected in db.groups && (connected, db.groups[connected].activeId) != (gid, id)
    ensures var after := WithoutProfile(db, gid, id, luck);
            && connected in after.groups && after.groups[connected].mode == db.groups[connected].mode
            && EffectiveManual(after, connected) == EffectiveManual(db, connected)
            && UsableProfile(after, connected) ==
               if luck.geoGone && UsableProfile(db, connected).Some? && UsableProfile(db, connected).value.geoDir == Some(GeoDir(gid, id))
               then None else UsableProfile(db, connected)
  {
  }

  lemma SkippedDeletion(db: RoutingDB, connected: nat, gid: nat, id: string, luck: Luck)
    requires gid in db.groups && (gid, id) in db.profiles
    requires connected != 0 && !(connected == gid && db.groups[gid].activeId == id)
    ensures Resolve(WithoutProfile(db, gid, id, luck), connected) == Resolve(db, connected) <==>
            !(luck.geoGone && BorrowedGeo(db, connected, gid, id))
  {
    if connected in db.groups {
      UsableAfterDeletion(db, connected, gid, id, luck);
      hide WithoutProfile, UsableProfile, EffectiveManual;
    }
  }

  /** Manual rules are what a group resolves to. */
  predicate UsesManual(db: RoutingDB, gid: nat)
    requires gid in db.groups
  {
    var mode := db.groups[gid].mode;
    mode == "manual" || ((mode == "" || mode == "auto") && UsableProfile(db, gid).None?)
  }

  /** A rules update whose last write fails has already switched the connected
      group to rules it had stored earlier, and does not reload. */
  predicate HalfUpdated(db: RoutingDB, connected: nat, gid: int, luck: Luck) {
    && luck.switchOk && !luck.saveOk && gid > 0 && gid == connected && gid in db.groups
    && db.groups[gid].manualMode != "custom" && UsesManual(db, gid)
    && gid in db.manual && db.manual[gid] != GlobalRouting(db)
  }

  /** A customised group that has lost its rules file was given a copy of the
      global rules, but the write of its settings fails, and so it does not reload. */
  predicate HalfSwitched(db: RoutingDB, connected: nat, gid: nat, source: string, luck: Luck) {
    && luck.copyOk && !luck.switchOk && gid != 0 && gid == connected && gid in db.groups
    && source == "custom" && db.groups[gid].manualMode == "custom" && UsesManual(db, gid)
    && gid !in db.manual && GlobalRouting(db) != LAN_ONLY
  }

  /** The parts a group's selection is made of, after the source was switched. */
  lemma SwitchedSource(db: RoutingDB, gid: nat, source: string, luck: Luck)
    requires gid != 0 && gid in db.groups
    ensures var after := WithManualSource(db, gid, source, luck).db;
            && gid in after.groups && after.groups[gid].mode == db.groups[gid].mode
            && UsableProfile(after, gid) == UsableProfile(db, gid)
            && EffectiveManual(after, gid) ==
               var mode := if WithManualSource(db, gid, source, luck).ok then source else db.groups[gid].manualMode;
               if mode != "custom" then GlobalRouting(db)
               else if gid in db.manual then db.manual[gid]
               else if source == "custom" && luck.copyOk then GlobalRouting(db) else LAN_ONLY
  {
  }

  /** Only the manual rules of the connected group are different. */
  lemma OnlyManualDiffers(a: RoutingDB, b: RoutingDB, c: nat)
    requires c != 0 && c in a.groups && c in b.groups && a.groups[c].mode == b.groups[c].mode
    requires UsableProfile(a, c) == UsableProfile(b, c)
    ensures Resolve(a, c) == Resolve(b, c) <==> (UsesManual(a, c) ==> EffectiveManual(a, c) == EffectiveManual(b, c))
  {
    hide UsableProfile, EffectiveManual;
  }

  lemma FailedUpdate(db: RoutingDB, gid: nat, config: RoutingConfig, luck: Luck, connected: nat)
    requires connected != 0 && !UpdatedRules(db, gid, config, luck).ok
    ensures Resolve(UpdatedRules(db, gid, config, luck).db, connected) == Resolve(db, connected) <==>
            !HalfUpdated(db, connected, gid, luck)
  {
    if gid != 0 && gid in db.groups && db.groups[gid].manualMode != "custom" {
      assert UpdatedRules(db, gid, config, luck).db == WithManualSource(db, gid, "custom", luck).db;
      if gid == connected {
        SwitchedSource(db, gid, "custom", luck);
        OnlyManualDiffers(db, WithManualSource(db, gid, "custom", luck).db, gid);
        hide Resolve, UsableProfile;
      } else {
        SwitchTouchesOneGroup(db, gid, "custom", luck, connected);
      }
    }
  }

  lemma FailedSwitch(db: RoutingDB, gid: nat, source: string, luck: Luck, connected: nat)
    requires connected != 0 && !WithManualSource(db, gid, source, luck).ok
    ensures Resolve(WithManualSource(db, gid, source, luck).db, connected) == Resolve(db, connected) <==>
            !HalfSwitched(db, connected, gid, source, luck)
  {
    hide Resolve, UsableProfile;
    if gid != connected {
      SwitchTouchesOneGroup(db, gid, source, luck, connected);
    } else if gid in db.groups {
      SwitchedSource(db, gid, source, luck);
      OnlyManualDiffers(db, WithManualSource(db, gid, source, luck).db, gid);
    }
  }

  /** When a command leaves the proxy with another selection than the database. */
  predicate GoesStale(d: Daemon, c: Command, luck: Luck) {
    d.connected != 0 &&
    if Reloads(d.db, d.connected, c, luck) then
      luck.reload.Refused? && Resolve(Carry(d.db, c, luck).db, d.connected) != Resolve(d.db, d.connected)
    else match c
      case UpdateRouting(gid, _) => HalfUpdated(d.db, d.connected, gid, luck)
      case SetManualRoutingSource(gid, source) => HalfSwitched(d.db, d.connected, gid, Normalised(source), luck)
      case DeleteRoutingProfile(gid, id) =>
        Carry(d.db, c, luck).ok && luck.geoGone && BorrowedGeo(d.db, d.connected, gid, id)
      case _ => false
  }

  /** A handler keeps the proxy in agreement with the database, reload or not,
      except when a needed reload is refused, when it fails between its two writes
      in one of two ways, or when another profile's geo assets were in use. */
  lemma HandlerKeepsAgreement(d: Daemon, c: Command, luck: Luck)
    requires InAgreement(d)
    ensures InAgreement(Handle(d, c, luck)) <==> !GoesStale(d, c, luck)
  {
    hide Resolve, Carry, HalfUpdated, HalfSwitched, BorrowedGeo;
    if d.connected != 0 && !Reloads(d.db, d.connected, c, luck) {
      match c
      case UpdateRouting(gid, config) => UpdateWithoutReload(d, gid, config, luck);
      case SetManualRoutingSource(gid, source) => SwitchWithoutReload(d, gid, source, luck);
      case SetGroupRoutingMode(gid, mode) => ModeWithoutReload(d, gid, mode, luck);
      case SetActiveRoutingProfile(gid, id) => ActivationWithoutReload(d, gid, id, luck);
      case DeleteRoutingProfile(gid, id) => DeletionWithoutReload(d, gid, id, luck);
    }
  }

  lemma UpdateWithoutReload(d: Daemon, gid: int, config: RoutingConfig, luck: Luck)
    requires d.connected != 0 && !Reloads(d.db, d.connected, Command.UpdateRouting(gid, config), luck)
    ensures Resolve(Carry(d.db, Command.UpdateRouting(gid, config), luck).db, d.connected) == Resolve(d.db, d.connected) <==>
            !HalfUpdated(d.db, d.connected, gid, luck)
  {
    hide Resolve;
    if gid >= 0 {
      if UpdatedRules(d.db, gid, config, luck).ok {
        SkippedRulesDoNotMatter(d.db, gid, config, luck, d.connected);
      } else {
        FailedUpdate(d.db, gid, config, luck, d.connected);
      }
    }
  }

  lemma SwitchWithoutReload(d: Daemon, gid: nat, source: string, luck: Luck)
    requires d.connected != 0 && !Reloads(d.db, d.connected, Command.SetManualRoutingSource(gid, source), luck)
    ensures Resolve(Carry(d.db, Command.SetManualRoutingSource(gid, source), luck).db, d.connected) == Resolve(d.db, d.connected)
            <==> !HalfSwitched(d.db, d.connected, gid, Normalised(source), luck)
  {
    hide Resolve, Normalised;
    if WithManualSource(d.db, gid, Normalised(source), luck).ok {
      SwitchTouchesOneGroup(d.db, gid, Normalised(source), luck, d.connected);
    } else {
      FailedSwitch(d.db, gid, Normalised(source), luck, d.connected);
    }
  }

  lemma ModeWithoutReload(d: Daemon, gid: nat, mode: string, luck: Luck)
    requires d.connected != 0 && !Reloads(d.db, d.connected, Command.SetGroupRoutingMode(gid, mode), luck)
    ensures Resolve(Carry(d.db, Command.SetGroupRoutingMode(gid, mode), luck).db, d.connected) == Resolve(d.db, d.connected)
  {
    hide Resolve, Normalised;
    ResolveDependsOn(d.db, Carry(d.db, Command.SetGroupRoutingMode(gid, mode), luck).db, d.connected);
  }

  lemma ActivationWithoutReload(d: Daemon, gid: nat, id: string, luck: Luck)
    requires d.connected != 0 && !Reloads(d.db, d.connected, Command.SetActiveRoutingProfile(gid, id), luck)
    ensures Resolve(Carry(d.db, Command.SetActiveRoutingProfile(gid, id), luck).db, d.connected) == Resolve(d.db, d.connected)
  {
    hide Resolve;
    ResolveDependsOn(d.db, Carry(d.db, Command.SetActiveRoutingProfile(gid, id), luck).db, d.connected);
  }

  lemma DeletionWithoutReload(d: Daemon, gid: nat, id: string, luck: Luck)
    requires d.connected != 0 && !Reloads(d.db, d.connected, Command.DeleteRoutingProfile(gid, id), luck)
    ensures var c := Command.DeleteRoutingProfile(gid, id);
            Resolve(Carry(d.db, c, luck).db, d.connected) == Resolve(d.db, d.connected) <==>
            !(Carry(d.db, c, luck).ok && luck.geoGone && BorrowedGeo(d.db, d.connected, gid, id))
  {
    hide Resolve, WithoutProfile, BorrowedGeo;
    if Editable(d.db, gid) && (gid, id) in d.db.profiles {
      SkippedDeletion(d.db, d.connected, gid, id, luck);
    }
  }

  // ---- whole runs ----

  /** Profiles use their own geo assets, as every download leaves them. */
  predicate OwnGeo(db: RoutingDB) {
    forall key :: key in db.profiles && db.profiles[key].geoDir.Some? ==>
      db.profiles[key].geoDir.value == GeoDir(key.0, key.1)
  }

  datatype Handled = Handled(command: Command, luck: Luck)

  function HandleAll(d: Daemon, cs: seq<Handled>): Daemon
    decreases cs
  {
    if cs == [] then d else HandleAll(Handle(d, cs[0].command, cs[0].luck), cs[1..])
  }

  lemma CommandsAddNoProfiles(db: RoutingDB, c: Command, luck: Luck)
    ensures Carry(db, c, luck).db.profiles.Keys <= db.profiles.Keys
    ensures forall key :: key in Carry(db, c, luck).db.profiles ==> Carry(db, c, luck).db.profiles[key] == db.profiles[key]
  {
  }

  /** The settings are written and no reload is refused. Removals may fail, and the
      proxy may be lost. */
  predicate Lucky(luck: Luck) {
    luck.copyOk && luck.switchOk && luck.saveOk && !luck.reload.Refused?
  }

  /** Over any run of the five commands whose writes succeed, the proxy runs what
      the database resolves to for the connected group. */
  lemma {:induction false} ProxyStaysInAgreement(d: Daemon, cs: seq<Handled>)
    requires InAgreement(d) && OwnGeo(d.db)
    requires forall c :: c in cs ==> Lucky(c.luck)
    ensures InAgreement(HandleAll(d, cs))
    decreases cs
  {
    if cs != [] {
      var c, luck := cs[0].command, cs[0].luck;
      assert cs[0] in cs && forall x :: x in cs[1..] ==> x in cs;
      HandlerKeepsAgreement(d, c, luck);
      CommandsAddNoProfiles(d.db, c, luck);
      ProxyStaysInAgreement(Handle(d, c, luck), cs[1..]);
    }
  }

  /** Giving the connected group rules of its own. */
  lemma OwnRules(d: Daemon, own: RoutingConfig, luck: Luck)
    requires d.connected != 0 && d.connected in d.db.groups && Lucky(luck) && luck.reload.Reloaded?
    ensures var gid, after := d.connected, Handle(d, Command.UpdateRouting(d.connected, own), luck);
            && after.connected == gid && gid in after.db.groups && gid in after.db.manual && after.db.manual[gid] == own
            && after.db.groups[gid].mode == d.db.groups[gid].mode && UsableProfile(after.db, gid) == UsableProfile(d.db, gid)
            && after.db.global == d.db.global
  {
    hide Resolve;
  }

  /** Going back to the global rules keeps the group's own ones on disk. */
  lemma BackToGlobal(d: Daemon, luck: Luck)
    requires d.connected != 0 && d.connected in d.db.groups && Lucky(luck) && luck.reload.Reloaded?
    ensures var gid, after := d.connected, Handle(d, Command.SetManualRoutingSource(d.connected, "inherit"), luck);
            && InAgreement(after) && after.connected == gid && gid in after.db.groups
            && after.db.groups[gid].manualMode == "inherit" && after.db.groups[gid].mode == d.db.groups[gid].mode
            && UsableProfile(after.db, gid) == UsableProfile(d.db, gid)
            && after.db.global == d.db.global && after.db.manual == d.db.manual
  {
    hide Resolve, Normalised, UsableProfile;
    assert Normalised("inherit") == "inherit" by { InheritIsNormal(); }
    var after := WithManualSource(d.db, d.connected, "inherit", luck);
    assert Carry(d.db, Command.SetManualRoutingSource(d.connected, "inherit"), luck) == after;
    assert UsableProfile(after.db, d.connected) == UsableProfile(d.db, d.connected) by {
      SwitchedSource(d.db, d.connected, "inherit", luck);
    }
  }

  lemma InheritIsNormal()
    ensures Normalised("inherit") == "inherit"
  {
    assert LowerAll("inherit") == "inherit";
  }

  lemma HandledTwice(d: Daemon, a: Handled, b: Handled)
    ensures HandleAll(d, [a, b]) == Handle(Handle(d, a.command, a.luck), b.command, b.luck)
  {
    hide Handle;
    assert [a, b][1..] == [b] && [b][1..] == [];
    assert HandleAll(Handle(d, a.command, a.luck), [b]) == HandleAll(Handle(Handle(d, a.command, a.luck), b.command, b.luck), []);
  }

  /** The exception is within reach: a group is given its own rules, goes back to
      the global ones, and an update of its rules fails at the last write. */
  lemma AgreementCanBreak(d: Daemon, own: RoutingConfig, config: RoutingConfig, luck: Luck)
    requires d.connected != 0 && d.connected in d.db.groups
    requires UsesManual(d.db, d.connected) && own != GlobalRouting(d.db)
    requires Lucky(luck) && luck.reload.Reloaded?
    ensures var gid := d.connected;
            var before := HandleAll(d, [Handled(Command.UpdateRouting(gid, own), luck),
                                        Handled(Command.SetManualRoutingSource(gid, "inherit"), luck)]);
            InAgreement(before) && !InAgreement(Handle(before, Command.UpdateRouting(gid, config), luck.(saveOk := false)))
  {
    hide Handle, HandleAll, Resolve, UsableProfile, InAgreement;
    var gid, failing := d.connected, luck.(saveOk := false);
    var c1, c2 := Command.UpdateRouting(gid, own), Command.SetManualRoutingSource(gid, "inherit");
    var d1 := Handle(d, c1, luck);
    var d2 := Handle(d1, c2, luck);
    HandledTwice(d, Handled(c1, luck), Handled(c2, luck));
    OwnRules(d, own, luck);
    BackToGlobal(d1, luck);
    assert HalfUpdated(d2.db, gid, gid, failing);
    HandlerKeepsAgreement(d2, Command.UpdateRouting(gid, config), failing);
  }
}
