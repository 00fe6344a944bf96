/**
  The dashboard's `/health` controller: `HealthData` gathers the cluster's
  health summary and, per permission scope the caller may read, the monitor,
  file-system, OSD, manager, pool, host, gateway and iSCSI sections, either
  in full or cut down to what the landing page needs ("minimal").

  What the manager module returns (`mgr.get(...)`, the `CephService` and
  iSCSI queries, `mgr.list_servers()`) is passed in as `MgrInputs`.
 */
module Health {
  import opened Wrappers
  import opened JsonValues
  import opened StrOrder

  // ---------------------------------------------------------------------
  // Permission scopes
  // ---------------------------------------------------------------------

  /** The scopes `all_health` consults; `OtherScope` stands for the rest. */
  datatype Scope =
    | Monitor
    | CephFs
    | Osd
    | Manager
    | Pool
    | Hosts
    | Rgw
    | Iscsi
    | OtherScope(name: string)

  /** The members of `all_health`'s result, each with the name it has in the JSON reply. */
  datatype Section =
    | HealthKey | MonStatusKey | FsMapKey | OsdMapKey | ScrubStatusKey | PgInfoKey
    | MgrMapKey | PoolsKey | DfKey | ClientPerfKey | HostsKey | RgwKey | IscsiDaemonsKey
  {
    function Name(): string
    {
      match this
      case HealthKey => "health"
      case MonStatusKey => "mon_status"
      case FsMapKey => "fs_map"
      case OsdMapKey => "osd_map"
      case ScrubStatusKey => "scrub_status"
      case PgInfoKey => "pg_info"
      case MgrMapKey => "mgr_map"
      case PoolsKey => "pools"
      case DfKey => "df"
      case ClientPerfKey => "client_perf"
      case HostsKey => "hosts"
      case RgwKey => "rgw"
      case IscsiDaemonsKey => "iscsi_daemons"
    }
  }

  /** The scope whose READ grant puts section `k` into the result; `health` needs none. */
  function Owner(k: Section): Option<Scope>
  {
    match k
    case HealthKey => None
    case MonStatusKey => Some(Monitor)
    case FsMapKey => Some(CephFs)
    case OsdMapKey | ScrubStatusKey | PgInfoKey => Some(Osd)
    case MgrMapKey => Some(Manager)
    case PoolsKey | DfKey | ClientPerfKey => Some(Pool)
    case HostsKey => Some(Hosts)
    case RgwKey => Some(Rgw)
    case IscsiDaemonsKey => Some(Iscsi)
  }

  /** Section `k` belongs in the result when the scopes in `readable` grant READ. */
  predicate Included(readable: set<Scope>, k: Section)
  {
    Owner(k).None? || Owner(k).value in readable
  }

  /** Every member `all_health`'s result can have. */
  const AllSections: set<Section> :=
    {HealthKey, MonStatusKey, FsMapKey, OsdMapKey, ScrubStatusKey, PgInfoKey,
     MgrMapKey, PoolsKey, DfKey, ClientPerfKey, HostsKey, RgwKey, IscsiDaemonsKey}

  lemma EverySectionListed(k: Section)
    ensures k in AllSections
  {
  }

  /** The sections a READ grant on `s` adds to the `all_health` result. */
  function ScopeKeys(s: Scope): set<Section>
  {
    set k | k in AllSections && Owner(k) == Some(s)
  }

  /** Sections have distinct names, so the reply has one member per section. */
  lemma SectionNamesDistinct(a: Section, b: Section)
    requires a != b
    ensures a.Name() != b.Name()
  {
  }

  /** The scope table and the owner of each section agree; `health` is in no scope's table. */
  lemma ScopeKeysAreOwnedSections(s: Scope, k: Section)
    ensures k in ScopeKeys(s) <==> Owner(k) == Some(s)
    ensures HealthKey !in ScopeKeys(s)
  {
    EverySectionListed(k);
  }

  /**
    Granting READ on one more scope adds exactly the sections of that scope's
    table and removes none.
   */
  lemma GrantAddsExactlyItsSections(readable: set<Scope>, s: Scope, k: Section)
    requires s !in readable
    ensures Included(readable, k) ==> Included(readable + {s}, k)
    ensures Included(readable + {s}, k) && !Included(readable, k) <==> k in ScopeKeys(s)
  {
    ScopeKeysAreOwnedSections(s, k);
  }

  // ---------------------------------------------------------------------
  // basic_health: the checks dictionary as a list sorted by severity
  // ---------------------------------------------------------------------

  /** A health check as the manager reports it: an object with a string `severity`. */
  predicate IsCheck(v: Json)
  {
    v.JObj? && "severity" in v.fields && v.fields["severity"].JStr?
  }

  /** The sort key `c['severity']`. */
  function Severity(c: Json): string
  {
    var f := Member(c, "severity");
    if f.JStr? then f.s else ""
  }

  /** Check `v`, stored under key `k`, after `v['type'] = k`. */
  function Tagged(k: string, v: Json): Json
  {
    JObj(Fields(v)["type" := JStr(k)])
  }

  /** The tagged checks whose keys lie in `ks`. */
  ghost function TaggedChecks(checks: map<string, Json>, ks: set<string>): set<Json>
  {
    set k | k in ks && k in checks :: Tagged(k, checks[k])
  }

  /** Non-decreasing by severity, in Python's str order. */
  predicate SortedBySeverity(cs: seq<Json>)
  {
    forall i, j :: 0 <= i < j < |cs| ==> LessEq(Severity(cs[i]), Severity(cs[j]))
  }

  /** Puts `c` into the sorted list `cs` after every check of equal severity. */
  function InsertBySeverity(c: Json, cs: seq<Json>): (r: seq<Json>)
    requires SortedBySeverity(cs)
    ensures SortedBySeverity(r)
    ensures multiset(r) == multiset(cs) + multiset{c}
  {
    if cs == [] then [c]
    else if Less(Severity(c), Severity(cs[0])) then
      InsertFrontKeepsOrder(c, cs);
      [c] + cs
    else
      var rest := InsertBySeverity(c, cs[1..]);
      InsertBehindKeepsOrder(c, cs, rest);
      assert cs == [cs[0]] + cs[1..];
      [cs[0]] + rest
  }

  lemma InsertFrontKeepsOrder(c: Json, cs: seq<Json>)
    requires SortedBySeverity(cs) && cs != []
    requires Less(Severity(c), Severity(cs[0]))
    ensures SortedBySeverity([c] + cs)
  {
    var r := [c] + cs;
    forall i, j | 0 <= i < j < |r|
      ensures LessEq(Severity(r[i]), Severity(r[j]))
    {
      if i == 0 {
        if Less(Severity(cs[j - 1]), Severity(c)) {
          if j - 1 == 0 {
            LessTransitive(Severity(cs[0]), Severity(c), Severity(cs[0]));
            LessIrreflexive(Severity(cs[0]));
          } else {
            LessTransitive(Severity(cs[j - 1]), Severity(c), Severity(cs[0]));
          }
        }
      }
    }
  }

  lemma InsertBehindKeepsOrder(c: Json, cs: seq<Json>, rest: seq<Json>)
    requires SortedBySeverity(cs) && cs != []
    requires !Less(Severity(c), Severity(cs[0]))
    requires SortedBySeverity(rest)
    requires multiset(rest) == multiset(cs[1..]) + multiset{c}
    ensures SortedBySeverity([cs[0]] + rest)
  {
    var r := [cs[0]] + rest;
    forall i, j | 0 <= i < j < |r|
      ensures LessEq(Severity(r[i]), Severity(r[j]))
    {
      if i == 0 {
        var x := rest[j - 1];
        assert x in multiset(rest);
        if x != c {
          assert x in multiset(cs[1..]);
          var m :| 0 <= m < |cs[1..]| && cs[1..][m] == x;
          assert cs[m + 1] == x;
        }
      }
    }
  }

  /** Python's `sorted(checks, key=lambda c: c['severity'])`. */
  function SortBySeverity(cs: seq<Json>): (r: seq<Json>)
    ensures SortedBySeverity(r)
    ensures multiset(r) == multiset(cs)
  {
    if cs == [] then []
    else
      assert cs == cs[..|cs| - 1] + [cs[|cs| - 1]];
      InsertBySeverity(cs[|cs| - 1], SortBySeverity(cs[..|cs| - 1]))
  }

  /** What `mgr.get("health")` must hold for `basic_health` not to raise. */
  predicate HealthDemands(health: map<string, Json>)
  {
    && "checks" in health
    && health["checks"].JObj?
    && forall k :: k in health["checks"].fields ==> IsCheck(health["checks"].fields[k])
  }

  /**
    `r` is a possible result of `basic_health` on `health`: `checks` becomes a
    list holding each check once, tagged with its key as `type`, sorted by
    severity; every other member passes through.
   */
  ghost predicate BasicHealthOf(health: map<string, Json>, r: map<string, Json>)
  {
    && r.Keys == health.Keys
    && (forall k :: k in health && k != "checks" ==> r[k] == health[k])
    && "checks" in r
    && r["checks"].JList?
    && var checks, cs := Fields(health["checks"]), r["checks"].items;
    && |cs| == |checks|
    && multiset(cs) == multiset(TaggedChecks(checks, checks.Keys))
    && SortedBySeverity(cs)
  }

  /** Tagging the check under one more key adds one new element to the tagged set. */
  lemma TaggingOneMoreCheck(checks: map<string, Json>, done: set<string>, k: string)
    requires k in checks && k !in done
    ensures multiset(TaggedChecks(checks, done + {k}))
         == multiset(TaggedChecks(checks, done)) + multiset{Tagged(k, checks[k])}
  {
    var c := Tagged(k, checks[k]);
    forall k' | k' in done && k' in checks
      ensures Tagged(k', checks[k']) != c
    {
      assert Fields(Tagged(k', checks[k']))["type"] == JStr(k');
    }
    assert TaggedChecks(checks, done + {k}) == TaggedChecks(checks, done) + {c};
  }

  /** Sorting a list that holds each tagged check once gives `basic_health`'s result. */
  lemma SortedTaggedChecksAreBasicHealth(health: map<string, Json>, list: seq<Json>)
    requires "checks" in health
    requires var checks := Fields(health["checks"]);
      |list| == |checks.Keys| && multiset(list) == multiset(TaggedChecks(checks, checks.Keys))
    ensures BasicHealthOf(health, health["checks" := JList(SortBySeverity(list))])
  {
    var checks := Fields(health["checks"]);
    var sorted := SortBySeverity(list);
    assert |sorted| == |multiset(sorted)| == |multiset(list)| == |list|;
    assert |checks| == |checks.Keys|;
  }

  /** The tag a check carries names the key it was stored under. */
  lemma TaggedCheckCarriesItsKey(checks: map<string, Json>, c: Json)
    requires c in TaggedChecks(checks, checks.Keys)
    ensures "type" in Fields(c) && Fields(c)["type"].JStr?
    ensures var k := Fields(c)["type"].s; k in checks && c == Tagged(k, checks[k])
  {
  }

  /**
    Each entry of `basic_health`'s list is a check of the dictionary: it
    carries the key it was stored under as `type`, and that check's severity.
   */
  lemma BasicHealthEntries(health: map<string, Json>, r: map<string, Json>, i: int)
    requires HealthDemands(health) && BasicHealthOf(health, r)
    requires 0 <= i < |r["checks"].items|
    ensures var c, checks := r["checks"].items[i], health["checks"].fields;
      && IsCheck(c)
      && "type" in c.fields && c.fields["type"].JStr?
      && c.fields["type"].s in checks
      && Severity(c) == Severity(checks[c.fields["type"].s])
  {
    var checks := health["checks"].fields;
    var c := r["checks"].items[i];
    assert c in multiset(r["checks"].items);
    assert c in TaggedChecks(checks, checks.Keys);
    TaggedCheckCarriesItsKey(checks, c);
  }

  // ---------------------------------------------------------------------
  // The sections, each as the relation between raw input and result
  // ---------------------------------------------------------------------

  const DfStatsKeys: set<string> := {"total_avail_bytes", "total_bytes", "total_used_raw_bytes"}
  const ClientPerfKeys: set<string> :=
    {"read_bytes_sec", "read_op_per_sec", "recovering_bytes_per_sec", "write_bytes_sec", "write_op_per_sec"}
  const OsdFullKeys: set<string> := {"tree", "crush", "crush_map_text", "osd_metadata"}

  predicate DfDemands(minimal: bool, df: map<string, Json>)
  {
    "stats_by_class" in df && (minimal ==> "stats" in df && df["stats"].JObj?)
  }

  /** `df`: `stats_by_class` always dropped; minimal keeps only three totals of `stats`. */
  ghost predicate DfOf(minimal: bool, df: map<string, Json>, r: map<string, Json>)
  {
    && "stats_by_class" !in r
    && (minimal ==>
          && r.Keys == {"stats"}
          && r["stats"].JObj?
          && r["stats"].fields.Keys == Fields(Get(df, "stats")).Keys * DfStatsKeys
          && forall k :: k in r["stats"].fields ==> r["stats"].fields[k] == Fields(Get(df, "stats"))[k])
    && (!minimal ==>
          && r.Keys == df.Keys - {"stats_by_class"}
          && forall k :: k in r ==> r[k] == df[k])
  }

  predicate FsMapDemands(minimal: bool, fsMap: map<string, Json>)
  {
    minimal ==>
      && "standbys" in fsMap && fsMap["standbys"].JList?
      && "filesystems" in fsMap && fsMap["filesystems"].JList?
      && forall i :: 0 <= i < |fsMap["filesystems"].items| ==>
           FilesystemDemands(fsMap["filesystems"].items[i])
  }

  /** A file system entry `fs['mdsmap']['info']` can be read from. */
  predicate FilesystemDemands(fs: Json)
  {
    && fs.JObj? && "mdsmap" in fs.fields
    && fs.fields["mdsmap"].JObj? && "info" in fs.fields["mdsmap"].fields
    && fs.fields["mdsmap"].fields["info"].JObj?
    && forall k :: k in fs.fields["mdsmap"].fields["info"].fields ==>
         fs.fields["mdsmap"].fields["info"].fields[k].JObj?
  }

  /** `fs['mdsmap']['info']`: the MDS daemons of a file system, by name. */
  function MdsInfo(fs: Json): map<string, Json>
  {
    Fields(Member(Member(fs, "mdsmap"), "info"))
  }

  /** Minimal `fs` is `{mdsmap: {info: ...}}`, every daemon kept and reduced to `state`. */
  ghost predicate MinimalFilesystemOf(fs: Json, r: Json)
  {
    && Fields(r).Keys == {"mdsmap"}
    && Fields(Member(r, "mdsmap")).Keys == {"info"}
    && Member(Member(r, "mdsmap"), "info").JObj?
    && MdsInfo(r).Keys == MdsInfo(fs).Keys
    && forall k :: k in MdsInfo(r) ==>
         && MdsInfo(r)[k].JObj?
         && MdsInfo(r)[k].fields == Restrict(Fields(MdsInfo(fs)[k]), {"state"})
  }

  /** One file system after the minimal `fs_map` rewrote it. */
  lemma ReducedFilesystemIsMinimal(fs: Json, kept: map<string, Json>, minInfo: map<string, Json>)
    requires FilesystemDemands(fs)
    requires kept == Restrict(Fields(fs), {"mdsmap"})
    requires minInfo.Keys == MdsInfo(fs).Keys
    requires forall k :: k in minInfo ==> minInfo[k] == JObj(Restrict(Fields(MdsInfo(fs)[k]), {"state"}))
    ensures MinimalFilesystemOf(fs, JObj(kept["mdsmap" := JObj(map["info" := JObj(minInfo)])]))
  {
  }

  /** `fs_map`: minimal keeps the file systems (reduced) and a count of standbys. */
  ghost predicate FsMapOf(minimal: bool, fsMap: map<string, Json>, r: map<string, Json>)
  {
    && (minimal ==>
          && r.Keys == {"filesystems", "standbys"}
          && r["standbys"] == JList(EmptyRecords(|Items(Get(fsMap, "standbys"))|))
          && r["filesystems"].JList?
          && |r["filesystems"].items| == |Items(Get(fsMap, "filesystems"))|
          && forall i :: 0 <= i < |r["filesystems"].items| ==>
               MinimalFilesystemOf(Items(Get(fsMap, "filesystems"))[i], r["filesystems"].items[i]))
    && (!minimal ==> r == fsMap)
  }

  predicate MgrMapDemands(minimal: bool, mgrMap: map<string, Json>)
  {
    minimal ==> "standbys" in mgrMap && mgrMap["standbys"].JList?
  }

  /** `mgr_map`: minimal keeps `active_name` and a count of standbys. */
  ghost predicate MgrMapOf(minimal: bool, mgrMap: map<string, Json>, r: map<string, Json>)
  {
    && (minimal ==>
          && r.Keys == mgrMap.Keys * {"active_name", "standbys"}
          && "standbys" in r
          && r["standbys"] == JList(EmptyRecords(|Items(Get(mgrMap, "standbys"))|))
          && ("active_name" in r ==> r["active_name"] == Get(mgrMap, "active_name")))
    && (!minimal ==> r == mgrMap)
  }

  predicate MonStatusDemands(minimal: bool, monStatus: map<string, Json>)
  {
    minimal ==>
      && "monmap" in monStatus && monStatus["monmap"].JObj?
      && "mons" in monStatus["monmap"].fields && monStatus["monmap"].fields["mons"].JList?
  }

  /** `mon_status`: minimal keeps `quorum` and a monmap holding only a count of mons. */
  ghost predicate MonStatusOf(minimal: bool, monStatus: map<string, Json>, r: map<string, Json>)
  {
    && (minimal ==>
          && r.Keys == monStatus.Keys * {"monmap", "quorum"}
          && "monmap" in r
          && r["monmap"] == JObj(map["mons" := JList(EmptyRecords(|Items(Member(Get(monStatus, "monmap"), "mons"))|))])
          && ("quorum" in r ==> r["quorum"] == Get(monStatus, "quorum")))
    && (!minimal ==> r == monStatus)
  }

  /** What `osd_map` adds in full mode, each from its own `mgr.get`. */
  datatype OsdExtras = OsdExtras(tree: Json, crush: Json, crushMapText: Json, osdMetadata: Json)

  predicate OsdMapDemands(minimal: bool, osdMap: map<string, Json>)
  {
    && "pg_temp" in osdMap
    && (minimal ==>
          && "osds" in osdMap && osdMap["osds"].JList?
          && forall i :: 0 <= i < |osdMap["osds"].items| ==> osdMap["osds"].items[i].JObj?)
  }

  /** `osd_map`: `pg_temp` always dropped; minimal keeps only `in`/`up` per OSD; full adds four sections. */
  ghost predicate OsdMapOf(minimal: bool, osdMap: map<string, Json>, extras: OsdExtras, r: map<string, Json>)
  {
    && "pg_temp" !in r
    && (minimal ==>
          && r.Keys == {"osds"}
          && r["osds"].JList?
          && |r["osds"].items| == |Items(Get(osdMap, "osds"))|
          && forall i :: 0 <= i < |r["osds"].items| ==>
               r["osds"].items[i] == JObj(Restrict(Fields(Items(Get(osdMap, "osds"))[i]), {"in", "up"})))
    && (!minimal ==>
          && r.Keys == osdMap.Keys - {"pg_temp"} + OsdFullKeys
          && r["tree"] == extras.tree
          && r["crush"] == extras.crush
          && r["crush_map_text"] == extras.crushMapText
          && r["osd_metadata"] == extras.osdMetadata
          && forall k :: k in r && k !in OsdFullKeys ==> r[k] == osdMap[k])
  }

  /** `pools`: minimal replaces every pool by an empty record. */
  function Pools(minimal: bool, pools: seq<Json>): (r: seq<Json>)
    ensures |r| == |pools|
    ensures minimal ==> forall i :: 0 <= i < |r| ==> r[i] == JObj(map[])
    ensures !minimal ==> r == pools
  {
    if minimal then EmptyRecords(|pools|) else pools
  }

  /** `client_perf`: minimal keeps the five rate counters. */
  function ClientPerf(minimal: bool, perf: map<string, Json>): (r: map<string, Json>)
    ensures minimal ==> r.Keys == perf.Keys * ClientPerfKeys
    ensures !minimal ==> r == perf
    ensures forall k :: k in r ==> k in perf && r[k] == perf[k]
  {
    if minimal then Restrict(perf, ClientPerfKeys) else perf
  }

  /** Python's truth value of a JSON value: null, false, 0 and empty containers are false. */
  predicate Truthy(j: Json)
  {
    match j
    case JNull => false
    case JBool(b) => b
    case JInt(i) => i != 0
    case JStr(s) => s != []
    case JList(items) => items != []
    case JObj(fields) => fields != map[]
  }

  /** `len(gateways)` is defined when `gateways` is a string, a list or an object. */
  predicate IscsiDemands(gateways: Json)
  {
    Truthy(gateways) ==> gateways.JStr? || gateways.JList? || gateways.JObj?
  }

  /** `iscsi_daemons`: how many gateways are configured; a false value counts 0. */
  function IscsiDaemons(gateways: Json): (n: nat)
    requires IscsiDemands(gateways)
    ensures gateways.JObj? ==> n == |gateways.fields|
    ensures gateways.JList? ==> n == |gateways.items|
    ensures gateways.JStr? ==> n == |gateways.s|
    ensures n == 0 <==> !Truthy(gateways)
  {
    if !Truthy(gateways) then 0
    else match gateways
      case JObj(m) => |m|
      case JList(s) => |s|
      case JStr(s) => |s|
  }

  // ---------------------------------------------------------------------
  // all_health
  // ---------------------------------------------------------------------

  /** Everything the manager module supplies to `HealthData`. */
  datatype MgrInputs = MgrInputs(
    health: map<string, Json>,        // json.loads(mgr.get("health")["json"])
    monStatus: map<string, Json>,     // json.loads(mgr.get("mon_status")["json"])
    fsMap: map<string, Json>,         // mgr.get("fs_map")
    osdMap: map<string, Json>,        // mgr.get("osd_map")
    osdExtras: OsdExtras,             // mgr.get("osd_map_tree"), ...
    scrubStatus: Json,                // CephService.get_scrub_status()
    pgInfo: Json,                     // CephService.get_pg_info()
    mgrMap: map<string, Json>,        // mgr.get("mgr_map")
    pools: seq<Json>,                 // CephService.get_pool_list_with_stats()
    df: map<string, Json>,            // mgr.get("df")
    clientPerf: map<string, Json>,    // CephService.get_client_perf()
    servers: seq<Json>,               // mgr.list_servers()
    rgwServices: seq<Json>,           // CephService.get_service_list("rgw")
    iscsiGateways: Json)              // IscsiGatewaysConfig.get_gateways_config()["gateways"]

  /** The payload shapes `all_health` dereferences, for the sections it computes. */
  predicate AllHealthDemands(minimal: bool, readable: set<Scope>, src: MgrInputs)
  {
    && HealthDemands(src.health)
    && (Monitor in readable ==> MonStatusDemands(minimal, src.monStatus))
    && (CephFs in readable ==> FsMapDemands(minimal, src.fsMap))
    && (Osd in readable ==> OsdMapDemands(minimal, src.osdMap))
    && (Manager in readable ==> MgrMapDemands(minimal, src.mgrMap))
    && (Pool in readable ==> DfDemands(minimal, src.df))
    && (Iscsi in readable ==> IscsiDemands(src.iscsiGateways))
  }

  /**
    The dictionary `all_health` returns: `health` always, every other
    section only when it was computed.
   */
  datatype HealthReply = HealthReply(
    health: map<string, Json>,
    monStatus: Option<map<string, Json>>,
    fsMap: Option<map<string, Json>>,
    osdMap: Option<map<string, Json>>,
    scrubStatus: Option<Json>,
    pgInfo: Option<Json>,
    mgrMap: Option<map<string, Json>>,
    pools: Option<seq<Json>>,
    df: Option<map<string, Json>>,
    clientPerf: Option<map<string, Json>>,
    hosts: Option<nat>,
    rgw: Option<nat>,
    iscsiDaemons: Option<nat>)

  /** Whether the reply's dictionary has section `k`. */
  predicate Present(r: HealthReply, k: Section)
  {
    match k
    case HealthKey => true
    case MonStatusKey => r.monStatus.Some?
    case FsMapKey => r.fsMap.Some?
    case OsdMapKey => r.osdMap.Some?
    case ScrubStatusKey => r.scrubStatus.Some?
    case PgInfoKey => r.pgInfo.Some?
    case MgrMapKey => r.mgrMap.Some?
    case PoolsKey => r.pools.Some?
    case DfKey => r.df.Some?
    case ClientPerfKey => r.clientPerf.Some?
    case HostsKey => r.hosts.Some?
    case RgwKey => r.rgw.Some?
    case IscsiDaemonsKey => r.iscsiDaemons.Some?
  }

  ghost predicate MonStatusSection(minimal: bool, readable: set<Scope>, src: MgrInputs, o: Option<map<string, Json>>)
  {
    (o.Some? <==> Monitor in readable) && (o.Some? ==> MonStatusOf(minimal, src.monStatus, o.value))
  }

  ghost predicate FsMapSection(minimal: bool, readable: set<Scope>, src: MgrInputs, o: Option<map<string, Json>>)
  {
    (o.Some? <==> CephFs in readable) && (o.Some? ==> FsMapOf(minimal, src.fsMap, o.value))
  }

  ghost predicate OsdMapSection(minimal: bool, readable: set<Scope>, src: MgrInputs, o: Option<map<string, Json>>)
  {
    (o.Some? <==> Osd in readable) && (o.Some? ==> OsdMapOf(minimal, src.osdMap, src.osdExtras, o.value))
  }

  ghost predicate MgrMapSection(minimal: bool, readable: set<Scope>, src: MgrInputs, o: Option<map<string, Json>>)
  {
    (o.Some? <==> Manager in readable) && (o.Some? ==> MgrMapOf(minimal, src.mgrMap, o.value))
  }

  ghost predicate DfSection(minimal: bool, readable: set<Scope>, src: MgrInputs, o: Option<map<string, Json>>)
  {
    (o.Some? <==> Pool in readable) && (o.Some? ==> DfOf(minimal, src.df, o.value))
  }

  /** `r` is a possible result of `all_health` for these scopes and inputs. */
  ghost predicate AllHealthOf(minimal: bool, readable: set<Scope>, src: MgrInputs, r: HealthReply)
  {
    && BasicHealthOf(src.health, r.health)
    && MonStatusSection(minimal, readable, src, r.monStatus)
    && FsMapSection(minimal, readable, src, r.fsMap)
    && OsdMapSection(minimal, readable, src, r.osdMap)
    && r.scrubStatus == (if Osd in readable then Some(src.scrubStatus) else None)
    && r.pgInfo == (if Osd in readable then Some(src.pgInfo) else None)
    && MgrMapSection(minimal, readable, src, r.mgrMap)
    && r.pools == (if Pool in readable then Some(Pools(minimal, src.pools)) else None)
    && DfSection(minimal, readable, src, r.df)
    && r.clientPerf == (if Pool in readable then Some(ClientPerf(minimal, src.clientPerf)) else None)
    && r.hosts == (if Hosts in readable then Some(|src.servers|) else None)
    && r.rgw == (if Rgw in readable then Some(|src.rgwServices|) else None)
    && (r.iscsiDaemons.Some? <==> Iscsi in readable)
    && (r.iscsiDaemons.Some? && IscsiDemands(src.iscsiGateways) ==>
          r.iscsiDaemons.value == IscsiDaemons(src.iscsiGateways))
  }

  /**
    The reply of `all_health` has `health` and, besides it, exactly the
    sections of the scopes that grant READ.
   */
  lemma AllHealthKeys(minimal: bool, readable: set<Scope>, src: MgrInputs, r: HealthReply, k: Section)
    requires AllHealthOf(minimal, readable, src, r)
    ensures Present(r, k) <==> Included(readable, k)
  {
  }

  /** The names of the members of the reply's dictionary. */
  ghost function ReplyKeys(r: HealthReply): set<string>
  {
    set k | k in AllSections && Present(r, k) :: k.Name()
  }

  /**
    The keys of `all_health`'s dictionary: `health` and the names of exactly
    the sections whose scopes grant READ.
   */
  lemma AllHealthReplyKeys(minimal: bool, readable: set<Scope>, src: MgrInputs, r: HealthReply)
    requires AllHealthOf(minimal, readable, src, r)
    ensures ReplyKeys(r) == {"health"} + set k | k in AllSections && Included(readable, k) :: k.Name()
    ensures forall k: Section :: k.Name() in ReplyKeys(r) <==> Included(readable, k)
  {
    forall k | k in AllSections
      ensures Present(r, k) <==> Included(readable, k)
    {
      AllHealthKeys(minimal, readable, src, r, k);
    }
    assert HealthKey in AllSections && Present(r, HealthKey);
    forall k: Section
      ensures k.Name() in ReplyKeys(r) <==> Included(readable, k)
    {
      EverySectionListed(k);
      AllHealthKeys(minimal, readable, src, r, k);
      if k.Name() in ReplyKeys(r) {
        var k' :| k' in AllSections && Present(r, k') && k'.Name() == k.Name();
        if k' != k {
          SectionNamesDistinct(k', k);
        }
      }
    }
  }

  /**
    The loop of `basic_health`: each check of the dictionary, tagged with its
    key, in the order the dictionary yields them (here: any order).
   */
  method TaggedCheckList(checks: map<string, Json>) returns (list: seq<Json>)
    ensures |list| == |checks.Keys|
    ensures multiset(list) == multiset(TaggedChecks(checks, checks.Keys))
  {
    list := [];
    var todo := checks.Keys;
    ghost var done: set<string> := {};
    while todo != {}
      invariant todo !! done && todo + done == checks.Keys
      invariant |list| == |done|
      invariant multiset(list) == multiset(TaggedChecks(checks, done))
      decreases todo
    {
      var k :| k in todo;
      var c := Tagged(k, checks[k]);
      TaggingOneMoreCheck(checks, done, k);
      assert multiset(list + [c]) == multiset(list) + multiset{c};
      assert |done + {k}| == |done| + 1;
      list := list + [c];
      done := done + {k};
      todo := todo - {k};
    }
    assert done == checks.Keys;
  }

  /** The inner loop of minimal `fs_map`: every MDS daemon reduced to its `state`. */
  method MinimalMdsInfo(info: map<string, Json>) returns (minInfo: map<string, Json>)
    ensures minInfo.Keys == info.Keys
    ensures forall k :: k in minInfo ==> minInfo[k] == JObj(Restrict(Fields(info[k]), {"state"}))
  {
    minInfo := map[];
    var todo := info.Keys;
    while todo != {}
      invariant todo <= info.Keys
      invariant minInfo.Keys == info.Keys - todo
      invariant forall k :: k in minInfo ==> minInfo[k] == JObj(Restrict(Fields(info[k]), {"state"}))
      decreases todo
    {
      var k :| k in todo;
      minInfo := minInfo[k := JObj(Restrict(Fields(info[k]), {"state"}))];
      todo := todo - {k};
    }
  }

  /**
    `HealthData`: a collector in one of the two modes. The permission
    callback it holds is consulted per request, so the scopes the requesting
    user may READ are an argument of each call.
   */
  class HealthData {
    const minimal: bool

    constructor(minimal: bool)
      ensures this.minimal == minimal
    {
      this.minimal := minimal;
    }

    /**
      `all_health` for one request. `readable` is what the permission
      callback answers for the user making it: the scopes they may READ.
     */
    method AllHealth(readable: set<Scope>, src: MgrInputs) returns (result: HealthReply)
      requires AllHealthDemands(minimal, readable, src)
      ensures AllHealthOf(minimal, readable, src, result)
    {
      var health := BasicHealth(src.health);

      var monStatus := if Monitor in readable then Some(MonStatus(src.monStatus)) else None;
      assert MonStatusSection(minimal, readable, src, monStatus);

      var fsMap: Option<map<string, Json>> := None;
      if CephFs in readable {
        var m := FsMap(src.fsMap);
        fsMap := Some(m);
      }
      assert FsMapSection(minimal, readable, src, fsMap);

      var osdMap := if Osd in readable then Some(OsdMap(src.osdMap, src.osdExtras)) else None;
      assert OsdMapSection(minimal, readable, src, osdMap);
      var scrubStatus := if Osd in readable then Some(src.scrubStatus) else None;
      var pgInfo := if Osd in readable then Some(src.pgInfo) else None;

      var mgrMap := if Manager in readable then Some(MgrMap(src.mgrMap)) else None;
      assert MgrMapSection(minimal, readable, src, mgrMap);

      var pools := if Pool in readable then Some(Pools(minimal, src.pools)) else None;
      var df := if Pool in readable then Some(Df(src.df)) else None;
      assert DfSection(minimal, readable, src, df);
      var clientPerf := if Pool in readable then Some(ClientPerf(minimal, src.clientPerf)) else None;

      var hosts: Option<nat> := if Hosts in readable then Some(|src.servers|) else None;
      var rgw: Option<nat> := if Rgw in readable then Some(|src.rgwServices|) else None;
      var iscsiDaemons: Option<nat> := if Iscsi in readable then Some(IscsiDaemons(src.iscsiGateways)) else None;

      result := HealthReply(health, monStatus, fsMap, osdMap, scrubStatus, pgInfo,
                            mgrMap, pools, df, clientPerf, hosts, rgw, iscsiDaemons);
    }

    method BasicHealth(health: map<string, Json>) returns (r: map<string, Json>)
      requires HealthDemands(health)
      ensures BasicHealthOf(health, r)
    {
      var list := TaggedCheckList(health["checks"].fields);
      r := health["checks" := JList(SortBySeverity(list))];
      SortedTaggedChecksAreBasicHealth(health, list);
    }

    function Df(df0: map<string, Json>): (df: map<string, Json>)
      requires DfDemands(minimal, df0)
      ensures DfOf(minimal, df0, df)
    {
      var df := df0 - {"stats_by_class"};
      if minimal then map["stats" := JObj(Restrict(df["stats"].fields, DfStatsKeys))] else df
    }

    method FsMap(fsMap0: map<string, Json>) returns (fsMap: map<string, Json>)
      requires FsMapDemands(minimal, fsMap0)
      ensures FsMapOf(minimal, fsMap0, fsMap)
    {
      fsMap := fsMap0;
      if minimal {
        fsMap := Restrict(fsMap, {"filesystems", "standbys"});
        fsMap := fsMap["standbys" := JList(EmptyRecords(|fsMap["standbys"].items|))];
        var items := fsMap["filesystems"].items;
        var filesystems := seq(|items|, i requires 0 <= i < |items| => JObj(Restrict(Fields(items[i]), {"mdsmap"})));
        var n := 0;
        while n < |filesystems|
          invariant 0 <= n <= |filesystems| == |items|
          invariant forall j :: 0 <= j < n ==> MinimalFilesystemOf(items[j], filesystems[j])
          invariant forall j :: n <= j < |filesystems| ==>
                      filesystems[j] == JObj(Restrict(Fields(items[j]), {"mdsmap"}))
        {
          assert FilesystemDemands(items[n]);
          var fs := filesystems[n].fields;
          var minMdsmapInfo := MinimalMdsInfo(fs["mdsmap"].fields["info"].fields);
          ReducedFilesystemIsMinimal(items[n], fs, minMdsmapInfo);
          filesystems := filesystems[n := JObj(fs["mdsmap" := JObj(map["info" := JObj(minMdsmapInfo)])])];
          n := n + 1;
        }
        fsMap := fsMap["filesystems" := JList(filesystems)];
      }
    }

    function MgrMap(mgrMap0: map<string, Json>): (mgrMap: map<string, Json>)
      requires MgrMapDemands(minimal, mgrMap0)
      ensures MgrMapOf(minimal, mgrMap0, mgrMap)
    {
      if minimal then
        var mgrMap := Restrict(mgrMap0, {"active_name", "standbys"});
        mgrMap["standbys" := JList(EmptyRecords(|mgrMap["standbys"].items|))]
      else mgrMap0
    }

    function MonStatus(monStatus0: map<string, Json>): (monStatus: map<string, Json>)
      requires MonStatusDemands(minimal, monStatus0)
      ensures MonStatusOf(minimal, monStatus0, monStatus)
    {
      if minimal then
        var monStatus := Restrict(monStatus0, {"monmap", "quorum"});
        var monmap := Restrict(monStatus["monmap"].fields, {"mons"});
        monStatus["monmap" := JObj(monmap["mons" := JList(EmptyRecords(|monmap["mons"].items|))])]
      else monStatus0
    }

    function OsdMap(osdMap0: map<string, Json>, extras: OsdExtras): (osdMap: map<string, Json>)
      requires OsdMapDemands(minimal, osdMap0)
      ensures OsdMapOf(minimal, osdMap0, extras, osdMap)
    {
      var osdMap := osdMap0 - {"pg_temp"};
      if minimal then
        var osds := osdMap["osds"].items;
        map["osds" := JList(seq(|osds|, i requires 0 <= i < |osds| => JObj(Restrict(Fields(osds[i]), {"in", "up"}))))]
      else
        osdMap["tree" := extras.tree]["crush" := extras.crush]
              ["crush_map_text" := extras.crushMapText]["osd_metadata" := extras.osdMetadata]
    }
  }

  /** The `/health` API controller and its two endpoints. */
  class Health {
    const healthFull: HealthData
    const healthMinimal: HealthData

    constructor()
      ensures !healthFull.minimal && healthMinimal.minimal
    {
      healthFull := new HealthData(false);
      healthMinimal := new HealthData(true);
    }

    /** `GET /api/health/full`, for a user who may READ the scopes in `readable`. */
    method Full(readable: set<Scope>, src: MgrInputs) returns (r: HealthReply)
      requires AllHealthDemands(false, readable, src)
      requires !healthFull.minimal
      ensures AllHealthOf(false, readable, src, r)
    {
      r := healthFull.AllHealth(readable, src);
    }

    /** `GET /api/health/minimal`, for a user who may READ the scopes in `readable`. */
    method Minimal(readable: set<Scope>, src: MgrInputs) returns (r: HealthReply)
      requires AllHealthDemands(true, readable, src)
      requires healthMinimal.minimal
      ensures AllHealthOf(true, readable, src, r)
    {
      r := healthMinimal.AllHealth(readable, src);
    }
  }
}
