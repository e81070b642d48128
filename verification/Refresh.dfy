/** One subscription refresh as the list of file operations it performs, and
    what is on disk when it stops: at the end, at a failed write, or anywhere. */
module Refresh {
  import opened Listings
  import opened Profiles
  import opened Text
  import opened Fates
  import opened IdAssignment

  // ---- file operations and interrupted runs ----

  datatype Op =
    | WriteProfile(profile: Profile)
    | WriteXray(id: nat, config: string)
    | DropXray(id: nat)
    | SaveConfig(saved: GroupConfig)
    | DropProfile(id: nat)
    | ClearProfile(id: nat)
    | TidyConfig(saved: GroupConfig)
  {
    /** Errors of these are ignored. The other removal and the other write of the
        configuration are required: an error ends the operation. */
    predicate BestEffort() {
      DropXray? || DropProfile? || TidyConfig?
    }
  }

  function Apply(g: GroupDir, op: Op): GroupDir {
    match op
    case WriteProfile(p) => g.(files := g.files[p.id := p])
    case WriteXray(id, config) => g.(xray := g.xray[id := config])
    case DropXray(id) => g.(xray := g.xray - {id})
    case SaveConfig(saved) => g.(config := saved)
    case DropProfile(id) => g.(files := g.files - {id})
    case ClearProfile(id) => g.(files := g.files - {id})
    case TidyConfig(saved) => g.(config := saved)
  }

  datatype Outcome = Outcome(disk: GroupDir, completed: bool)

  /** Run `ops`, the first of which is operation number `n` of the process. */
  function Run(g: GroupDir, ops: seq<Op>, fate: nat -> Fate, n: nat): Outcome
    decreases ops
  {
    if ops == [] then Outcome(g, true)
    else match fate(n)
      case Done => Run(Apply(g, ops[0]), ops[1..], fate, n + 1)
      case Crashed => Outcome(g, false)
      case Failed =>
        if ops[0].BestEffort() then Run(g, ops[1..], fate, n + 1) else Outcome(g, false)
  }

  // ---- the plan of a refresh ----

  ghost function Listed(g: GroupDir): seq<nat> {
    ListIds(g.files.Keys, g.config.order)
  }

  function MaxOf(ids: seq<nat>, m: nat): (r: nat)
    ensures m <= r && forall id :: id in ids ==> id <= r
  {
    if ids == [] then m
    else
      assert ids == [ids[0]] + ids[1..];
      MaxOf(ids[1..], if ids[0] > m then ids[0] else m)
  }

  /** The id counter a refresh starts from. */
  ghost function Counter(g: GroupDir): nat {
    MaxOf(Listed(g), g.config.lastId)
  }

  function Kept(g: GroupDir, keepId: nat): nat {
    if keepId != 0 && keepId in g.files then keepId else 0
  }

  /** Incoming entries of this identity are dropped in favour of the kept profile.
      A kept managed profile without a provider key stands for the empty URI. */
  function SkipTarget(p: Profile): Identity {
    if p.managed then (if p.providerKey != "" then ByKey(p.providerKey) else ByUri(""))
    else ByUri(TrimSpace(p.uri))
  }

  function Wants(g: GroupDir, kept: nat, incoming: seq<Incoming>): seq<Incoming>
    requires kept != 0 ==> kept in g.files
  {
    if incoming == [] then []
    else if kept != 0 && WantedIdentity(incoming[0]) == SkipTarget(g.files[kept]) then
      Wants(g, kept, incoming[1..])
    else
      [incoming[0]] + Wants(g, kept, incoming[1..])
  }

  function Identities(wants: seq<Incoming>): (r: seq<Identity>)
    ensures |r| == |wants| && forall i :: 0 <= i < |r| ==> r[i] == WantedIdentity(wants[i])
  {
    seq(|wants|, i requires 0 <= i < |wants| => WantedIdentity(wants[i]))
  }

  /** The reusable old ids in listing order; the kept one is not among them. */
  function Pool(files: map<nat, Profile>, ids: seq<nat>, kept: nat): seq<Entry>
    requires forall id :: id in ids ==> id in files
  {
    if ids == [] then []
    else if ids[0] == kept then Pool(files, ids[1..], kept)
    else [Entry(ids[0], StoredIdentity(files[ids[0]]))] + Pool(files, ids[1..], kept)
  }

  ghost function PoolOf(g: GroupDir, kept: nat): seq<Entry> {
    ListIdsIsListing(g.files.Keys, g.config.order);
    Pool(g.files, Listed(g), kept)
  }

  datatype Plan = Plan(kept: nat, wants: seq<Incoming>, ids: seq<nat>, last: nat)

  ghost function PlanOf(g: GroupDir, incoming: seq<Incoming>, keepId: nat): (p: Plan)
    ensures |p.ids| == |p.wants|
  {
    var kept := Kept(g, keepId);
    var wants := Wants(g, kept, incoming);
    var r := Assign(PoolOf(g, kept), Counter(g), Identities(wants));
    Plan(kept, wants, r.ids, r.last)
  }

  function NewOrder(p: Plan): (r: seq<nat>)
    ensures forall id :: id in r <==> id in p.ids || (p.kept != 0 && id == p.kept)
  {
    (if p.kept != 0 then [p.kept] else []) + p.ids
  }

  function NewConfig(g: GroupDir, p: Plan): GroupConfig {
    g.config.(lastId := p.last, order := NewOrder(p))
  }

  function ProfileOps(files: map<nat, Profile>, wants: seq<Incoming>, ids: seq<nat>): seq<Op>
    requires |wants| == |ids|
  {
    if wants == [] then []
    else
      var p := NewProfile(files, wants[0], ids[0]);
      [WriteProfile(p), if p.managed then WriteXray(p.id, wants[0].config) else DropXray(p.id)]
      + ProfileOps(files, wants[1..], ids[1..])
  }

  function StaleOps(listed: seq<nat>, used: seq<nat>): seq<Op> {
    if listed == [] then []
    else if listed[0] in used then StaleOps(listed[1..], used)
    else [DropProfile(listed[0]), DropXray(listed[0])] + StaleOps(listed[1..], used)
  }

  /** Stale files are removed only after the new group configuration is durable. */
  ghost function RefreshOps(g: GroupDir, p: Plan): seq<Op>
    requires |p.wants| == |p.ids|
  {
    ProfileOps(g.files, p.wants, p.ids)
    + ([SaveConfig(NewConfig(g, p))] + StaleOps(Listed(g), NewOrder(p)))
  }

  /** The disk after an uninterrupted refresh. */
  ghost function Refreshed(g: GroupDir, incoming: seq<Incoming>, keepId: nat): GroupDir {
    var p := PlanOf(g, incoming, keepId);
    Run(g, RefreshOps(g, p), AllDone, 0).disk
  }

  /** The disk after a refresh whose operations end as `fate` says. */
  ghost function Interrupted(g: GroupDir, incoming: seq<Incoming>, keepId: nat, fate: nat -> Fate): GroupDir {
    var p := PlanOf(g, incoming, keepId);
    Run(g, RefreshOps(g, p), fate, 0).disk
  }

  // ---- the disk while a refresh runs ----

  predicate XrayStored(xray: map<nat, string>, id: nat, d: Incoming) {
    if d.managed && d.config != "" then id in xray && xray[id] == d.config else id !in xray
  }

  ghost predicate SameXray(a: map<nat, string>, b: map<nat, string>, id: nat) {
    (id in a <==> id in b) && (id in a ==> a[id] == b[id])
  }

  /** The first `k` profiles are written over the old files. */
  ghost predicate Written(g: GroupDir, p: Plan, files: map<nat, Profile>, k: nat)
    requires k <= |p.ids| == |p.wants|
  {
    && (forall id :: id in files <==> id in g.files || id in p.ids[..k])
    && (forall i :: 0 <= i < k ==>
          p.ids[i] in files && files[p.ids[i]] == NewProfile(g.files, p.wants[i], p.ids[i]))
    && (forall id :: id in g.files && id !in p.ids[..k] ==> id in files && files[id] == g.files[id])
  }

  /** `k` profiles are written, the configuration is still the old one. */
  ghost predicate Underway(g: GroupDir, p: Plan, h: GroupDir, k: nat, exact: bool)
    requires k <= |p.ids| == |p.wants|
  {
    && h.config == g.config
    && Written(g, p, h.files, k)
    && (forall id :: id !in p.ids ==> SameXray(h.xray, g.xray, id))
    && (exact ==> forall i :: 0 <= i < k ==> XrayStored(h.xray, p.ids[i], p.wants[i]))
  }

  /** The profiles of the new order are on disk; stale files may or may not be gone. */
  ghost predicate FilesReplaced(g: GroupDir, p: Plan, files: map<nat, Profile>)
    requires |p.ids| == |p.wants|
  {
    && (p.kept != 0 && p.kept in g.files ==> p.kept in files && files[p.kept] == g.files[p.kept])
    && (forall i :: 0 <= i < |p.ids| ==>
          p.ids[i] in files && files[p.ids[i]] == NewProfile(g.files, p.wants[i], p.ids[i]))
    && (forall id :: id in files && id !in NewOrder(p) ==> id in g.files && files[id] == g.files[id])
  }

  ghost predicate ConfigsReplaced(g: GroupDir, p: Plan, xray: map<nat, string>, exact: bool)
    requires |p.ids| == |p.wants|
  {
    && (forall id :: id !in p.ids && (id == p.kept || id !in g.files) ==> SameXray(xray, g.xray, id))
    && (forall id :: id !in p.ids && id in xray ==> id in g.xray)
    && (exact ==> forall i :: 0 <= i < |p.ids| ==> XrayStored(xray, p.ids[i], p.wants[i]))
  }

  /** The new configuration is durable. */
  ghost predicate Saved(g: GroupDir, p: Plan, h: GroupDir, exact: bool)
    requires |p.ids| == |p.wants|
  {
    h.config == NewConfig(g, p) && FilesReplaced(g, p, h.files) && ConfigsReplaced(g, p, h.xray, exact)
  }

  /** The finished refresh: exactly the profiles of the new order are left. */
  ghost predicate Finished(g: GroupDir, p: Plan, h: GroupDir)
    requires |p.ids| == |p.wants|
  {
    && Saved(g, p, h, true)
    && (forall id :: id in h.files <==> id in NewOrder(p))
    && (forall id :: id in g.files && id !in NewOrder(p) ==> id !in h.xray)
  }
}
