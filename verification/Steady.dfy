// Steady state: what a clean pass does is a function of the spec and the sites, and doing it again
// changes nothing.
module Steady {
  import opened Json
  import opened Api
  import opened Kube
  import opened Builder
  import opened Conditions
  import opened CrossCluster
  import opened Replication
  import opened Credentials
  import opened StatusEndpoints
  import opened StatusWrites
  import opened Selection
  import opened Reconciling
  import opened NormalPass
  import opened Controller
  import opened Readiness
  import opened Topology
  import opened Failover

  /** Everything the pass tried worked, addresses and credentials included. */
  ghost predicate Clean(ts: seq<Target>, ev: Events, tr: Trail) {
    AllUp(ev) && tr.credentials && forall t :: t in ts ==> t.name in ev.endpoints
  }

  /** The address of the primary, and its credentials, as its site has them once its Service is there. */
  function SteadyAddress(mc: string, spec: Spec, p: Target, site: Site): Endpoint {
    var r := Address(mc, spec, p, Replicated(mc, spec, p, site));
    if r.Ok? then r.value else NOWHERE
  }

  /** The site of t as a clean pass leaves it, `hub` being the primary's site. */
  function CleanSite(isIP: string -> bool, mc: string, spec: Spec, p: Target, hub: Site, t: Target, site: Site): Site {
    var once := Replicated(mc, spec, t, site);
    if t.name == p.name then once
    else
      var secrets := Synced(once.secrets, SourcesOf(spec, p, hub), mc, ClusterName(spec.teamId, t.name));
      Aliased(isIP, mc, SteadyAddress(mc, spec, p, hub), once.(secrets := secrets))
  }

  function CleanObject(mc: string, spec: Spec, p: Target, hub: Site, t: Target): Result<Json> {
    if t.name == p.name then BuildPrimary(mc, spec, p) else StandbyObject(mc, spec, t, SteadyAddress(mc, spec, p, hub))
  }

  /** Target t is as a clean pass leaves it. */
  ghost predicate CleanAt(isIP: string -> bool, mc: string, spec: Spec, p: Target, t: Target, a: Workload, b: Workload)
  {
    && p.name in a.sites && t.name in a.sites && t.name in b.sites
    && b.sites[t.name] == CleanSite(isIP, mc, spec, p, a.sites[p.name], t, a.sites[t.name])
    && var obj := CleanObject(mc, spec, p, a.sites[p.name], t); obj.Ok? && Lookup(b.pg, t.name) == Some(obj.value)
  }

  /** A clean pass takes every target to the same place whatever was there before, and nothing else
      anywhere moves. */
  ghost predicate CleanRun(isIP: string -> bool, mc: string, spec: Spec, p: Target, a: Workload, b: Workload) {
    && (forall t :: t in spec.clusters ==> CleanAt(isIP, mc, spec, p, t, a, b))
    && OnlyThese(a, b, TargetNames(spec.clusters))
  }

  lemma {:induction false} ServiceStaysReplicated(mc: string, spec: Spec, t: Target, site: Site)
    ensures var once := Replicated(mc, spec, t, site);
      once.secrets == site.secrets && once.nodes == site.nodes && once.endpoints == site.endpoints
  {}

  lemma {:induction false} FoundAddress(mc: string, spec: Spec, p: Target, found: map<string, Endpoint>,
      cs: seq<ClusterStatus>, site: Site, site': Site)
    requires p.name in found && EnsuredOn(mc, spec, p, Found(found, p.name), site, site')
    ensures site' == Replicated(mc, spec, p, site) && Used(found, cs, p.name) == SteadyAddress(mc, spec, p, site)
    ensures SourcesOf(spec, p, site') == SourcesOf(spec, p, site)
  {}

  lemma {:induction false} CleanStandby(isIP: string -> bool, mc: string, spec: Spec, e: Endpoint, own: Endpoint,
      src: seq<Source>, t: Target, site: Site, ensured: Site, synced: Site, after: Site, was: Option<Json>,
      now: Option<Json>)
    requires EnsuredOn(mc, spec, t, Some(own), site, ensured) && Credentialed(mc, spec, src, t, ensured, synced, true)
    requires FollowedOn(isIP, mc, spec, e, t, synced, after, was, now, None)
    ensures Address(mc, spec, t, Replicated(mc, spec, t, site)) == Ok(own)
    ensures var once := Replicated(mc, spec, t, site);
      after == Aliased(isIP, mc, e, once.(secrets := Synced(once.secrets, src, mc, ClusterName(spec.teamId, t.name))))
    ensures StandbyObject(mc, spec, t, e).Ok? && now == Some(StandbyObject(mc, spec, t, e).value)
  {
    hide Replicated, Address, Synced, AliasEnsured, SyncUnderway, AliasUnderway, BuildStandby;
  }

  lemma {:induction false} CleanTarget(isIP: string -> bool, mc: string, spec: Spec, cs: seq<ClusterStatus>, ev: Events,
      tr: Trail, a: Workload, b: Workload, p: Target, t: Target)
    requires ValidClusters(spec.clusters) && NormalWork(isIP, mc, spec, cs, ev, tr, a, b)
              && Clean(spec.clusters, ev, tr)
    requires p in spec.clusters && p.role.Primary? && t in spec.clusters
    ensures CleanAt(isIP, mc, spec, p, t, a, b)
    ensures Address(mc, spec, t, Replicated(mc, spec, t, a.sites[t.name])) == Ok(ev.endpoints[t.name])
  {
    hide NormalWork, Address, Replicated, Synced, AliasEnsured, SyncUnderway, AliasUnderway, BuildStandby,
        BuildPrimary, Credentialed, FollowedOn;
    PrimarySteps(isIP, mc, spec, cs, ev, tr, a, b, p);
    FoundAddress(mc, spec, p, ev.endpoints, cs, a.sites[p.name], b.sites[p.name]);
    if t.name == p.name {
      SameName(spec.clusters, p, t);
    } else {
      StandbySteps(isIP, mc, spec, cs, ev, tr, a, b, p, t);
      var n := t.name;
      CleanStandby(isIP, mc, spec, Used(ev.endpoints, cs, p.name), ev.endpoints[n],
                   SourcesOf(spec, p, tr.applied.sites[p.name]), t, a.sites[n], tr.ensured.sites[n],
                   tr.synced.sites[n], b.sites[n], Lookup(tr.synced.pg, n), Lookup(b.pg, n));
    }
  }

  /** A clean pass computes that function. */
  lemma {:induction false} CleanPassIsAFunction(isIP: string -> bool, mc: string, spec: Spec, cs: seq<ClusterStatus>,
      ev: Events, tr: Trail, a: Workload, b: Workload, p: Target)
    requires ValidClusters(spec.clusters) && NormalWork(isIP, mc, spec, cs, ev, tr, a, b)
              && Clean(spec.clusters, ev, tr)
    requires p in spec.clusters && p.role.Primary?
    ensures CleanRun(isIP, mc, spec, p, a, b)
    ensures forall t :: t in spec.clusters ==>
              && t.name in a.sites
              && Address(mc, spec, t, Replicated(mc, spec, t, a.sites[t.name])) == Ok(ev.endpoints[t.name])
  {
    forall t | t in spec.clusters
      ensures CleanAt(isIP, mc, spec, p, t, a, b)
      ensures t.name in a.sites
      ensures Address(mc, spec, t, Replicated(mc, spec, t, a.sites[t.name])) == Ok(ev.endpoints[t.name])
    {
      CleanTarget(isIP, mc, spec, cs, ev, tr, a, b, p, t);
    }
    OnlyTargetsMove(isIP, mc, spec, cs, ev, tr, a, b);
  }

  ghost predicate OnlyThese(a: Workload, b: Workload, ns: set<string>) {
    OnlySites(a, b, ns) && OnlyPg(a, b, ns)
  }

  lemma {:induction false} MovesChain(a: Workload, b: Workload, c: Workload, some: set<string>, ns: set<string>)
    requires OnlyThese(a, b, ns) && OnlyThese(b, c, some) && some <= ns
    ensures OnlyThese(a, c, ns)
  {
    forall n | n !in ns ensures Lookup(c.pg, n) == Lookup(a.pg, n) {
      assert Lookup(c.pg, n) == Lookup(b.pg, n);
    }
  }

  lemma {:induction false} ServingMoves(isIP: string -> bool, mc: string, spec: Spec, p: Target, e: Endpoint,
      standbys: seq<Target>, outcomes: map<string, Option<string>>, a: Workload, synced: Workload, credentials: bool,
      b: Workload)
    requires Served(isIP, mc, spec, p, e, standbys, outcomes, a, synced, credentials, b)
    ensures OnlyThese(a, b, TargetNames(standbys)) && outcomes.Keys == TargetNames(standbys)
  {
    hide CredentialedAt, Followed, TargetNames, OnlySites, OnlyPg;
    assert OnlyThese(a, synced, TargetNames(standbys)) by { NoPgMoves(a, synced, TargetNames(standbys)); }
    MovesChain(a, synced, b, TargetNames(standbys), TargetNames(standbys));
  }

  lemma {:induction false} NoPgMoves(a: Workload, b: Workload, ns: set<string>)
    requires b.pg == a.pg
    ensures OnlyPg(a, b, ns)
  {}

  lemma {:induction false} EnsuringMoves(mc: string, spec: Spec, cl: seq<Target>, found: map<string, Endpoint>,
      a: Workload, b: Workload)
    requires Ensured(mc, spec, cl, found, a, b)
    ensures OnlyThese(a, b, TargetNames(cl)) && found.Keys <= TargetNames(cl)
  {
    hide EnsuredAt;
  }

  lemma {:induction false} ApplyingMoves(mc: string, spec: Spec, p: Target, a: Workload, b: Workload,
      outcome: PrimaryOutcome)
    requires AppliedOn(mc, spec, p, a, b, outcome)
    ensures OnlyThese(a, b, {p.name})
  {
    hide BuildPrimary, HasCredentials;
  }

  lemma {:induction false} NothingMoves(a: Workload, ns: set<string>)
    ensures OnlyThese(a, a, ns)
  {}

  /** Whatever happens in a pass, nothing outside the spec's targets moves. */
  lemma {:induction false} OnlyTargetsMove(isIP: string -> bool, mc: string, spec: Spec, cs: seq<ClusterStatus>,
      ev: Events, tr: Trail, a: Workload, b: Workload)
    requires ValidClusters(spec.clusters) && NormalWork(isIP, mc, spec, cs, ev, tr, a, b)
    ensures OnlyThese(a, b, TargetNames(spec.clusters))
    ensures ev.endpoints.Keys <= TargetNames(spec.clusters)
  {
    hide ValidClusters, Reachable, StandbysOf, PrimaryIn, Served, Ensured, AppliedOn, OnlyThese;
    var ts, cl := spec.clusters, Reachable(spec.clusters, ev.unreachable);
    var ns := TargetNames(ts);
    SelectionOf(ts, ev.unreachable);
    ReachableIs(ts, ev.unreachable);
    SomeNames(ts, cl);
    EnsuringMoves(mc, spec, cl, ev.endpoints, a, tr.ensured);
    NothingMoves(a, ns);
    MovesChain(a, a, tr.ensured, TargetNames(cl), ns);
    if PrimaryIn(cl).Some? {
      var p := PrimaryIn(cl).value;
      SomeNames(ts, [p]);
      assert [p][0].name == p.name;
      ApplyingMoves(mc, spec, p, tr.ensured, tr.applied, ev.primary);
      MovesChain(a, tr.ensured, tr.applied, {p.name}, ns);
      if ev.primary.Applied? {
        SomeNames(ts, StandbysOf(cl));
        ServingMoves(isIP, mc, spec, p, Used(ev.endpoints, cs, p.name), StandbysOf(cl), ev.standbys,
                     tr.applied, tr.synced, tr.credentials, b);
        MovesChain(a, tr.applied, b, TargetNames(StandbysOf(cl)), ns);
      }
    }
  }

  lemma {:induction false} SomeNames(ts: seq<Target>, some: seq<Target>)
    requires forall t :: t in some ==> t in ts
    ensures TargetNames(some) <= TargetNames(ts)
  {
    forall n | Named(some, n) ensures Named(ts, n) {
      var i :| 0 <= i < |some| && some[i].name == n;
      var t := some[i];
      assert t in some;
      var k :| 0 <= k < |ts| && ts[k] == t;
    }
  }

  // ---------- a second time ----------

  /** The clean site of a clean site is itself, and so is the address found there. */
  lemma {:induction false} CleanTwice(isIP: string -> bool, mc: string, spec: Spec, p: Target, hub: Site, t: Target,
      site: Site)
    requires t.name == p.name ==> t == p && site == hub
    ensures var once := CleanSite(isIP, mc, spec, p, hub, t, site);
      && CleanSite(isIP, mc, spec, p, Replicated(mc, spec, p, hub), t, once) == once
      && Address(mc, spec, t, Replicated(mc, spec, t, once)) == Address(mc, spec, t, Replicated(mc, spec, t, site))
    ensures CleanObject(mc, spec, p, Replicated(mc, spec, p, hub), t) == CleanObject(mc, spec, p, hub, t)
  {
    var hub' := Replicated(mc, spec, p, hub);
    ReplicatedTwice(mc, spec, p, hub);
    ReplicatedTwice(mc, spec, t, site);
    ServiceStaysReplicated(mc, spec, p, hub);
    assert SteadyAddress(mc, spec, p, hub') == SteadyAddress(mc, spec, p, hub);
    assert SourcesOf(spec, p, hub') == SourcesOf(spec, p, hub);
    if t.name != p.name {
      StandbyCleanTwice(isIP, mc, spec, SteadyAddress(mc, spec, p, hub), p, hub, t, Replicated(mc, spec, t, site));
    }
  }

  lemma {:induction false} StandbyCleanTwice(isIP: string -> bool, mc: string, spec: Spec, e: Endpoint, p: Target,
      hub: Site, t: Target, site: Site)
    requires Replicated(mc, spec, t, site) == site
    ensures var cluster, src := ClusterName(spec.teamId, t.name), SourcesOf(spec, p, hub);
      var once := Aliased(isIP, mc, e, site.(secrets := Synced(site.secrets, src, mc, cluster)));
      && Replicated(mc, spec, t, once) == once && Address(mc, spec, t, once) == Address(mc, spec, t, site)
      && Aliased(isIP, mc, e, once.(secrets := Synced(once.secrets, src, mc, cluster))) == once
  {
    hide Synced, Sources;
    var cluster, src := ClusterName(spec.teamId, t.name), SourcesOf(spec, p, hub);
    var synced := site.(secrets := Synced(site.secrets, src, mc, cluster));
    var ip, port := isIP(e.host), WithDefaultPort(e).port;
    assert Replicated(mc, spec, t, synced) == synced && Address(mc, spec, t, synced) == Address(mc, spec, t, site);
    AliasAndServiceCommute(ip, synced, mc, e.host, port, spec, t);
    SyncedTwice(hub.secrets, ClusterName(spec.teamId, p.name), site.secrets, mc, cluster);
    var once := AliasEnsured(ip, synced, mc, e.host, port);
    assert once.(secrets := Synced(once.secrets, src, mc, cluster)) == once;
    AliasEnsuredTwice(ip, synced, mc, e.host, port);
  }

  lemma {:induction false} TargetStays(isIP: string -> bool, mc: string, spec: Spec, p: Target, t: Target, a: Workload,
      b: Workload, c: Workload)
    requires DistinctNames(spec.clusters) && p in spec.clusters && t in spec.clusters
    requires CleanRun(isIP, mc, spec, p, a, b) && CleanRun(isIP, mc, spec, p, b, c)
    ensures t.name in b.sites && t.name in c.sites && c.sites[t.name] == b.sites[t.name]
    ensures Lookup(c.pg, t.name) == Lookup(b.pg, t.name)
    ensures FoundAt(mc, spec, t, b) == FoundAt(mc, spec, t, a)
  {
    assert CleanAt(isIP, mc, spec, p, t, a, b) && CleanAt(isIP, mc, spec, p, t, b, c);
    assert CleanAt(isIP, mc, spec, p, p, a, b);
    if t.name == p.name { SameName(spec.clusters, p, t); }
    CleanTwice(isIP, mc, spec, p, a.sites[p.name], t, a.sites[t.name]);
  }

  lemma {:induction false} CleanKeys(isIP: string -> bool, mc: string, spec: Spec, cs: seq<ClusterStatus>, ev: Events,
      tr: Trail, a: Workload, b: Workload)
    requires ValidClusters(spec.clusters) && NormalWork(isIP, mc, spec, cs, ev, tr, a, b)
              && Clean(spec.clusters, ev, tr)
    ensures ev.endpoints.Keys == TargetNames(spec.clusters)
    ensures forall n :: n in ev.standbys <==> exists t :: t in spec.clusters && t.role.Standby? && t.name == n
  {
    hide NormalWork, ValidClusters, OnlyThese, PrimaryName;
    var ts := spec.clusters;
    OnlyTargetsMove(isIP, mc, spec, cs, ev, tr, a, b);
    EndpointsOfAll(ts, ev);
    WorkIsCoherent(isIP, mc, spec, cs, ev, tr, a, b);
    forall n ensures n in ev.standbys <==> exists t :: t in ts && t.role.Standby? && t.name == n {
      if t :| t in ts && t.role.Standby? && t.name == n {
        assert t.name in ev.standbys;
      }
    }
  }

  lemma {:induction false} EndpointsOfAll(ts: seq<Target>, ev: Events)
    requires ev.endpoints.Keys <= TargetNames(ts) && forall t :: t in ts ==> t.name in ev.endpoints
    ensures ev.endpoints.Keys == TargetNames(ts)
  {
    forall n | n in TargetNames(ts) ensures n in ev.endpoints {
      var k :| 0 <= k < |ts| && ts[k].name == n;
      assert ts[k] in ts;
    }
  }

  lemma {:induction false} SameEvents(ts: seq<Target>, ev: Events, ev': Events)
    requires AllUp(ev) && AllUp(ev') && ev.endpoints.Keys == ev'.endpoints.Keys == TargetNames(ts)
    requires forall n :: n in ev.standbys <==> exists t :: t in ts && t.role.Standby? && t.name == n
    requires forall n :: n in ev'.standbys <==> exists t :: t in ts && t.role.Standby? && t.name == n
    requires forall t :: t in ts ==>
               && t.name in ev.endpoints && t.name in ev'.endpoints
               && ev'.endpoints[t.name] == ev.endpoints[t.name]
    ensures ev' == ev
  {
    forall n | n in ev.endpoints ensures ev'.endpoints[n] == ev.endpoints[n] {
      var k :| 0 <= k < |ts| && ts[k].name == n;
      assert ts[k] in ts;
    }
    assert ev'.endpoints == ev.endpoints && ev'.standbys == ev.standbys;
  }

  lemma {:induction false} CleanRunTwice(isIP: string -> bool, mc: string, spec: Spec, p: Target, a: Workload,
      b: Workload, c: Workload)
    requires DistinctNames(spec.clusters) && p in spec.clusters
    requires CleanRun(isIP, mc, spec, p, a, b) && CleanRun(isIP, mc, spec, p, b, c)
    ensures c == b
    ensures forall t :: t in spec.clusters ==>
              && t.name in a.sites && t.name in b.sites
              && FoundAt(mc, spec, t, b) == FoundAt(mc, spec, t, a)
  {
    hide Address, Replicated, CleanSite, CleanObject;
    forall t | t in spec.clusters
      ensures t.name in a.sites && t.name in b.sites && t.name in c.sites
      ensures c.sites[t.name] == b.sites[t.name] && Lookup(c.pg, t.name) == Lookup(b.pg, t.name)
      ensures FoundAt(mc, spec, t, b) == FoundAt(mc, spec, t, a)
    {
      assert CleanAt(isIP, mc, spec, p, t, a, b);
      TargetStays(isIP, mc, spec, p, t, a, b, c);
    }
    forall n ensures Lookup(c.pg, n) == Lookup(b.pg, n) && (n in b.sites ==> c.sites[n] == b.sites[n]) {
      if Named(spec.clusters, n) {
        var k :| 0 <= k < |spec.clusters| && spec.clusters[k].name == n;
        assert spec.clusters[k] in spec.clusters;
      }
    }
    SameLookups(c.pg, b.pg);
    assert c.sites == b.sites;
  }

  /** Main result on the steady state: with the spec and the clusters left alone, a second clean pass
      finds the same and leaves every object, Service, Endpoints and Secret as the first left them. */
  lemma {:induction false} SecondPassChangesNothing(isIP: string -> bool, mc: string, spec: Spec, p: Target,
      cs: seq<ClusterStatus>, ev: Events, tr: Trail, a: Workload, b: Workload, cs': seq<ClusterStatus>, ev': Events,
      tr': Trail, c: Workload)
    requires ValidClusters(spec.clusters) && p in spec.clusters && p.role.Primary?
    requires NormalWork(isIP, mc, spec, cs, ev, tr, a, b) && Clean(spec.clusters, ev, tr)
    requires NormalWork(isIP, mc, spec, cs', ev', tr', b, c) && Clean(spec.clusters, ev', tr')
    ensures c == b && ev' == ev
  {
    assert DistinctNames(spec.clusters);
    hide NormalWork, CleanRun, Replicated, Address, ValidClusters, DistinctNames;
    CleanPassIsAFunction(isIP, mc, spec, cs, ev, tr, a, b, p);
    CleanPassIsAFunction(isIP, mc, spec, cs', ev', tr', b, c, p);
    CleanRunTwice(isIP, mc, spec, p, a, b, c);
    CleanKeys(isIP, mc, spec, cs, ev, tr, a, b);
    CleanKeys(isIP, mc, spec, cs', ev', tr', b, c);
    forall t | t in spec.clusters
      ensures t.name in ev.endpoints && t.name in ev'.endpoints && ev'.endpoints[t.name] == ev.endpoints[t.name]
    {
      assert Ok(ev'.endpoints[t.name]) == Ok(ev.endpoints[t.name]);
    }
    SameEvents(spec.clusters, ev, ev');
  }

  // ---------- the status, a second time ----------

  /** A condition that is there already, whatever its date, is not dated again. */
  lemma {:induction false} UpsertAgain(cs: seq<Condition>, c: Condition)
    requires var found := Find(cs, c.kind); found.Some? && found.value == c.(since := found.value.since)
    ensures Upsert(cs, c) == cs
  {}

  lemma {:induction false} TwoUpsertsAgain(cs: seq<Condition>, c: Condition, d: Condition, c': Condition, d': Condition)
    requires c.kind != d.kind && c' == c.(since := c'.since) && d' == d.(since := d'.since)
    ensures var once := Upsert(Upsert(cs, c), d); Upsert(Upsert(once, c'), d') == once
  {
    hide Upsert, Find;
    var once := Upsert(Upsert(cs, c), d);
    UpsertLooksUp(cs, c, c.kind);
    UpsertLooksUp(Upsert(cs, c), d, c.kind);
    UpsertAgain(once, c');
    UpsertAgain(once, d');
  }

  lemma {:induction false} EntryAgain(e: ClusterStatus, t: Target, ev: Events, s: Stamp, s': Stamp)
    requires s'.generation == s.generation
    ensures var once := MarkedEntry(e, t, ev, s); MarkedEntry(once, t, ev, s') == once
  {
    hide Upsert, Render;
    var reach, reach' := ReachableMark(ev, t.name, s), ReachableMark(ev, t.name, s');
    var ready, ready' := ReadyMark(ev, t, s), ReadyMark(ev, t, s');
    if ready.Some? {
      assert reach.kind != ready.value.kind;
      TwoUpsertsAgain(e.conditions, reach, ready.value, reach', ready'.value);
    } else {
      ReadyAgain(e.conditions, reach, reach');
    }
  }

  lemma {:induction false} MarkedAgain(cs: seq<ClusterStatus>, ts: seq<Target>, ev: Events, s: Stamp, s': Stamp)
    requires s'.generation == s.generation
    ensures var once := Marked(cs, ts, ev, s); Marked(once, ts, ev, s') == once
  {
    var once := Marked(cs, ts, ev, s);
    forall i | 0 <= i < |cs| ensures MarkedAt(once[i], ts, ev, s') == once[i] {
      var t := TargetNamed(ts, cs[i].name);
      if t.Some? { EntryAgain(cs[i], t.value, ev, s, s'); }
    }
  }

  lemma {:induction false} RolesAgain(cs: seq<ClusterStatus>, ts: seq<Target>, ev: Events, s: Stamp)
    requires WellShaped(cs) && DistinctNames(ts)
    ensures var once := Marked(WithRoles(cs, ts), ts, ev, s); WithRoles(once, ts) == once
  {
    var r := WithRoles(cs, ts);
    var once := Marked(r, ts, ev, s);
    RolesKeepShape(cs, ts);
    hide WithRoles, MarkedEntry;
    forall i | 0 <= i < |r| ensures once[i].name == r[i].name && Relabel(once[i], ts) == once[i] {
      MarkedKeepsRole(r[i], ts, ev, s);
      RoleOfNamed(ts, r[i].name);
      if Named(ts, r[i].name) {
        var k :| 0 <= k < |ts| && ts[k].name == r[i].name;
        RolesAreComplete(cs, ts, k);
        var at := EntryOf(r, ts[k].name);
        assert at == i;
      }
    }
    NoneMissing(cs, ts, once);
    RelabelledOnly(once, ts);
  }

  lemma {:induction false} MarkedKeepsRole(e: ClusterStatus, ts: seq<Target>, ev: Events, s: Stamp)
    ensures MarkedAt(e, ts, ev, s).name == e.name && MarkedAt(e, ts, ev, s).role == e.role
  {}

  lemma {:induction false} RelabelledOnly(cs: seq<ClusterStatus>, ts: seq<Target>)
    requires Missing(ts, NamesOf(cs)) == [] && forall i :: 0 <= i < |cs| ==> Relabel(cs[i], ts) == cs[i]
    ensures WithRoles(cs, ts) == cs
  {}

  /** The same events at a later time write the same status: no transition time moves. */
  lemma {:induction false} StatusSettles(st: Status, ts: seq<Target>, ev: Events, count: int, s: Stamp, s': Stamp)
    requires StatusOk(st) && DistinctNames(ts) && s'.generation == s.generation
    ensures var once := NormalStatus(st, ts, ev, count, s); NormalStatus(once, ts, ev, count, s') == once
  {
    var once := NormalStatus(st, ts, ev, count, s);
    RolesAgain(st.clusters, ts, ev, s);
    MarkedAgain(WithRoles(st.clusters, ts), ts, ev, s, s');
    hide Upsert, Marked, WithRoles, ReadyIs;
    var phase := PhaseOf(once.clusters, false);
    var ready := if ev.unreachable != map[] then ReadyIs(False, "ClusterUnreachable", "", s)
                 else if phase.Ready? then ReadyIs(True, "ReconcileSuccess", "", s)
                 else ReadyIs(False, "PrimaryNotReady", "", s);
    ReadyAgain(st.conditions, ready, ready.(since := s'.now));
    assert ready.(since := s'.now) == if ev.unreachable != map[] then ReadyIs(False, "ClusterUnreachable", "", s')
      else if phase.Ready? then ReadyIs(True, "ReconcileSuccess", "", s')
      else ReadyIs(False, "PrimaryNotReady", "", s') by {
      LaterReady(s, s');
    }
  }

  lemma {:induction false} LaterReady(s: Stamp, s': Stamp)
    requires s'.generation == s.generation
    ensures forall truth, reason :: ReadyIs(truth, reason, "", s).(since := s'.now) == ReadyIs(truth, reason, "", s')
  {}

  lemma {:induction false} ReadyAgain(cs: seq<Condition>, c: Condition, c': Condition)
    requires c' == c.(since := c'.since)
    ensures Upsert(Upsert(cs, c), c') == Upsert(cs, c)
  {
    UpsertLooksUp(cs, c, c.kind);
    UpsertAgain(Upsert(cs, c), c');
  }

  /** Main result on steady state, status included: after one clean pass whose status was written, a
      second clean pass over the same spec, at any later time, leaves the workload and the whole
      status exactly as they are. */
  lemma {:induction false} SteadyStateIsAFixpoint(isIP: string -> bool, mc: string, spec: Spec, p: Target, w: World,
      w': World, s: Stamp, ev: Events, tr: Trail, u: World, u': World, s': Stamp, ev': Events, tr': Trail,
      err: Option<string>)
    requires StatusOk(w.status) && ValidClusters(spec.clusters) && p in spec.clusters && p.role.Primary?
    requires NormalPassed(isIP, mc, spec, w, w', s, ev, tr, None) && Clean(spec.clusters, ev, tr)
    requires Load(u) == Load(w') && u.status == w'.status && s'.generation == s.generation
    requires NormalPassed(isIP, mc, spec, u, u', s', ev', tr', err) && Clean(spec.clusters, ev', tr')
    ensures Load(u') == Load(w') && u'.status == w'.status
  {
    hide NormalWork, NormalStatus, Marked, WithRoles, StatusOk;
    var ts := spec.clusters;
    SecondPassChangesNothing(isIP, mc, spec, p, WithRoles(w.status.clusters, ts), ev, tr, Load(w), Load(w'),
                             WithRoles(u.status.clusters, ts), ev', tr', Load(u'));
    StatusSettles(w.status, ts, ev, 0, s, s');
  }
}
