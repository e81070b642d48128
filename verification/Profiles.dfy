/** What a group directory of the profile database holds. */
module Profiles {
  import opened Text

  datatype Option<+T> = None | Some(value: T)

  datatype Endpoint = Endpoint(protocol: string, host: string, address: string, port: int)

  datatype Latency = Latency(testResult: int, testedAt: int, lossPct: int, jitterMs: int)

  const UNTESTED := Latency(0, 0, 0, 0)

  /** One stored profile file. */
  datatype Profile = Profile(
    id: nat, groupId: nat, nanoId: string, name: string, endpoint: Endpoint,
    uri: string, managed: bool, providerKey: string, latency: Latency)

  /** One entry of a downloaded subscription, or of a manual import. */
  datatype Incoming = Incoming(
    groupId: nat, nanoId: string, name: string, endpoint: Endpoint,
    uri: string, managed: bool, providerKey: string, config: string)

  /** The group settings a refresh of the profile list carries through unchanged. */
  datatype Settings = Settings(
    url: string, name: string, subName: string,
    autoUpdateDisabled: bool, providerInterval: int, intervalOverride: int, lastUpdated: int,
    upload: int, download: int, total: int, expires: int, format: string,
    routingMode: string, manualRoutingMode: string)

  /** group_config.json. */
  datatype GroupConfig = GroupConfig(id: nat, lastId: nat, order: seq<nat>, settings: Settings)

  /** One group directory: its configuration, the profile files by the id in the
      file name, and the stored provider configurations of managed profiles. */
  datatype GroupDir = GroupDir(config: GroupConfig, files: map<nat, Profile>, xray: map<nat, string>)

  /** Profile files carry the id they are filed under, and ids start at 1. */
  ghost predicate ValidDir(g: GroupDir) {
    && 0 !in g.files
    && forall id :: id in g.files ==> g.files[id].id == id
  }

  // ---- what makes two entries the same server ----

  datatype Identity = ByUri(uri: string) | ByKey(key: string)

  /** How a stored profile is filed when old ids are matched. */
  function StoredIdentity(p: Profile): Identity {
    if p.managed then ByKey(p.providerKey) else ByUri(TrimSpace(p.uri))
  }

  /** What an incoming entry looks for. */
  function WantedIdentity(d: Incoming): Identity {
    if d.managed then ByKey(d.providerKey) else ByUri(TrimSpace(d.uri))
  }

  /** A managed entry without a configuration is stored as an unmanaged profile. */
  predicate Configured(d: Incoming) {
    d.managed ==> d.config != ""
  }

  /** How the profile written for an entry is filed the next time. */
  function StoredAs(d: Incoming): Identity {
    if d.managed && d.config != "" then ByKey(d.providerKey) else ByUri(TrimSpace(d.uri))
  }

  /** The file written for entry `d` under `id`; measurements are kept while the
      file already stored there has the same identity. */
  function NewProfile(files: map<nat, Profile>, d: Incoming, id: nat): Profile {
    Profile(id, d.groupId, d.nanoId, d.name, d.endpoint, d.uri, d.managed && d.config != "", d.providerKey,
            if id in files && StoredIdentity(files[id]) == WantedIdentity(d) then files[id].latency else UNTESTED)
  }

  /** The profile is what the entry says. */
  predicate Describes(p: Profile, d: Incoming) {
    && p.groupId == d.groupId && p.nanoId == d.nanoId && p.name == d.name && p.endpoint == d.endpoint
    && p.uri == d.uri && p.providerKey == d.providerKey
    && (p.managed <==> d.managed && d.config != "")
  }
}
