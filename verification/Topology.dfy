// The star: one writer, and every other cluster a standby that reaches it through the alias in its own
// namespace.
module Topology {
  import opened Json
  import opened Api
  import opened Kube
  import opened Builder
  import opened Conditions
  import opened Machine
  import opened AutoPromotion
  import opened CrossCluster
  import opened Replication
  import opened Credentials
  import opened StatusEndpoints
  import opened StatusWrites
  import opened Selection
  import opened Reconciling
  import opened NormalPass
  import opened Controller
  import opened Readiness
  import opened Failover

  /** The cluster is a standby of the alias in its own namespace. */
  predicate FollowsAlias(mc: string, t: Target, a: Workload, port: Int32) {
    t.name in a.pg && Streams(a.pg[t.name], ServiceHost(AliasName(mc), t.namespace), port)
  }

  /** The alias resolves to the host; and its Endpoints, if that is what it leads through, are on the port. */
  predicate AliasIsOn(mc: string, site: Site, host: string, port: Int32) {
    && Resolve(site, mc) == Some(host)
    && (!IsExternalName(site.services[AliasName(mc)]) ==> Leads(site, mc) == Some(Destination(host, port)))
  }

  predicate Reaches(mc: string, t: Target, a: Workload, host: string, port: Int32) {
    t.name in a.sites && AliasIsOn(mc, a.sites[t.name], host, port)
  }

  ghost predicate Star(mc: string, ts: seq<Target>, p: Target, a: Workload, e: Endpoint) {
    var port: Int32 := if e.port == 0 then 5432 else e.port;
    && p.name in a.pg && Writable(a.pg[p.name])
    && forall t :: t in ts && t.name != p.name ==> FollowsAlias(mc, t, a, port) && Reaches(mc, t, a, e.host, port)
  }

  // ---------- after a normal pass ----------

  /** The parts of a site the alias is made of. */
  predicate SameAlias(mc: string, site: Site, site': Site) {
    var n := AliasName(mc);
    && (n in site'.services <==> n in site.services) && (n in site.services ==> site'.services[n] == site.services[n])
    && site'.endpoints == site.endpoints
  }

  lemma {:induction false} OtherStepsKeepTheAlias(mc: string, spec: Spec, t: Target, e: Option<Endpoint>,
      sources: seq<Source>, ok: bool, site: Site, ensured: Site, synced: Site)
    requires EnsuredOn(mc, spec, t, e, site, ensured) && Credentialed(mc, spec, sources, t, ensured, synced, ok)
    ensures SameAlias(mc, site, synced)
  {
    assert |AliasName(mc)| == |mc| + 8 && |ServiceName(mc)| == |mc| + 12;
    assert ensured.endpoints == site.endpoints;
    assert synced.services == ensured.services && synced.endpoints == ensured.endpoints;
  }

  lemma {:induction false} AliasOutcome(isIP: string -> bool, mc: string, e: Endpoint, site: Site, synced: Site)
    requires SameAlias(mc, site, synced) && Tidy(isIP, site, mc)
    ensures var port: Int32 := if e.port == 0 then 5432 else e.port;
      AliasIsOn(mc, Aliased(isIP, mc, e, synced), e.host, port) <==> KindFits(isIP(e.host), site, mc)
  {
    AliasResolvesToHost(isIP, synced, mc, e.host, if e.port == 0 then 5432 else e.port);
  }

  /** The steps of a pass in which everything worked, for one standby. */
  lemma {:induction false} StandbySteps(isIP: string -> bool, mc: string, spec: Spec, cs: seq<ClusterStatus>,
      ev: Events, tr: Trail, a: Workload, b: Workload, p: Target, t: Target)
    requires ValidClusters(spec.clusters) && NormalWork(isIP, mc, spec, cs, ev, tr, a, b) && AllUp(ev)
    requires p in spec.clusters && p.role.Primary? && t in spec.clusters && t.name != p.name
    ensures var n := t.name;
      && p.name in tr.applied.sites && n in a.sites && n in tr.ensured.sites && n in tr.synced.sites && n in b.sites
      && tr.applied.sites == tr.ensured.sites
      && EnsuredOn(mc, spec, t, Found(ev.endpoints, n), a.sites[n], tr.ensured.sites[n])
      && Credentialed(mc, spec, SourcesOf(spec, p, tr.applied.sites[p.name]), t,
                      tr.ensured.sites[n], tr.synced.sites[n], tr.credentials)
      && FollowedOn(isIP, mc, spec, Used(ev.endpoints, cs, p.name), t, tr.synced.sites[n], b.sites[n],
                    Lookup(tr.synced.pg, n), Lookup(b.pg, n), None)
  {
    hide EnsuredOn, Credentialed, FollowedOn, Reachable, StandbysOf, PrimaryIn, SourcesOf, Used;
    var ts, cl := spec.clusters, Reachable(spec.clusters, ev.unreachable);
    PassSelection(ts, ev.unreachable, p, t);
    assert EnsuredAt(mc, spec, t, ev.endpoints, a, tr.ensured) by {
      var i :| 0 <= i < |cl| && cl[i] == t;
      assert EnsuredAt(mc, spec, cl[i], ev.endpoints, a, tr.ensured);
    }
    var standbys := StandbysOf(cl);
    var k :| 0 <= k < |standbys| && standbys[k] == t;
    var sources := SourcesOf(spec, p, tr.applied.sites[p.name]);
    var e, err := Used(ev.endpoints, cs, p.name), ev.standbys[t.name];
    assert CredentialedAt(mc, spec, sources, standbys[k], tr.applied, tr.synced, tr.credentials);
    assert Followed(isIP, mc, spec, e, standbys[k], tr.synced, b, err);
  }

  /** With every cluster reachable, the pass works on all of them. */
  lemma {:induction false} PassSelection(ts: seq<Target>, unreachable: map<string, string>, p: Target, t: Target)
    requires ValidClusters(ts) && unreachable == map[] && p in ts && p.role.Primary? && t in ts
    ensures var cl := Reachable(ts, unreachable);
      t in cl && PrimaryIn(cl) == Some(p) && (t in StandbysOf(cl) <==> t.name != p.name)
  {
    var cl := Reachable(ts, unreachable);
    ReachableIs(ts, unreachable);
    SplitIs(cl);
    SelectionOf(ts, unreachable);
    var i, j :| 0 <= i < |ts| && ts[i] == p && 0 <= j < |ts| && ts[j] == t;
    PrimaryByName(ts, i);
    PrimaryByName(ts, j);
    var q := PrimaryIn(cl).value;
    var k :| 0 <= k < |ts| && ts[k] == q;
    PrimaryByName(ts, k);
    assert i < k ==> ts[i].name != ts[k].name;
    assert k < i ==> ts[k].name != ts[i].name;
  }

  lemma {:induction false} ServingLeavesThePrimary(isIP: string -> bool, mc: string, spec: Spec, p: Target, e: Endpoint,
      standbys: seq<Target>, outcomes: map<string, Option<string>>, a: Workload, synced: Workload, credentials: bool,
      b: Workload)
    requires Served(isIP, mc, spec, p, e, standbys, outcomes, a, synced, credentials, b) && !Named(standbys, p.name)
    ensures synced.pg == a.pg && Lookup(b.pg, p.name) == Lookup(a.pg, p.name)
    ensures p.name in a.sites && p.name in b.sites && b.sites[p.name] == a.sites[p.name]
  {
    hide CredentialedAt, Followed;
  }

  lemma {:induction false} PrimarySteps(isIP: string -> bool, mc: string, spec: Spec, cs: seq<ClusterStatus>,
      ev: Events, tr: Trail, a: Workload, b: Workload, p: Target)
    requires ValidClusters(spec.clusters) && NormalWork(isIP, mc, spec, cs, ev, tr, a, b) && AllUp(ev)
    requires p in spec.clusters && p.role.Primary?
    ensures BuildPrimary(mc, spec, p).Ok? && Lookup(b.pg, p.name) == Some(BuildPrimary(mc, spec, p).value)
    ensures p.name in a.sites && p.name in b.sites
    ensures tr.synced.pg == a.pg[p.name := BuildPrimary(mc, spec, p).value]
    ensures EnsuredOn(mc, spec, p, Found(ev.endpoints, p.name), a.sites[p.name], b.sites[p.name])
    ensures tr.applied.sites == tr.ensured.sites && p.name in tr.applied.sites
              && b.sites[p.name] == tr.applied.sites[p.name]
  {
    hide EnsuredOn, Served, Reachable, StandbysOf, PrimaryIn, Used, HasCredentials, BuildPrimary;
    var ts, cl := spec.clusters, Reachable(spec.clusters, ev.unreachable);
    PassSelection(ts, ev.unreachable, p, p);
    SelectionOf(ts, ev.unreachable);
    hide ValidClusters;
    ServingLeavesThePrimary(isIP, mc, spec, p, Used(ev.endpoints, cs, p.name), StandbysOf(cl), ev.standbys,
                            tr.applied, tr.synced, tr.credentials, b);
    var i :| 0 <= i < |cl| && cl[i] == p;
    assert EnsuredAt(mc, spec, cl[i], ev.endpoints, a, tr.ensured);
  }

  /** After a pass that ends Ready, each standby follows the alias in its own namespace, and the alias
      resolves to the primary's address exactly when no alias of the other kind was in the way. */
  lemma {:induction false} StandbyEndsOnThePrimary(isIP: string -> bool, mc: string, spec: Spec, cs: seq<ClusterStatus>,
      ev: Events, tr: Trail, a: Workload, b: Workload, p: Target, t: Target)
    requires ValidClusters(spec.clusters) && NormalWork(isIP, mc, spec, cs, ev, tr, a, b) && AllUp(ev)
    requires p in spec.clusters && p.role.Primary? && t in spec.clusters && t.name != p.name
    ensures t.name in a.sites
    ensures var e := Used(ev.endpoints, cs, p.name); var port: Int32 := if e.port == 0 then 5432 else e.port;
      && e.host != "" && FollowsAlias(mc, t, b, port) && Describes(b.pg[t.name], mc, spec, t)
      && (Tidy(isIP, a.sites[t.name], mc) ==>
            (Reaches(mc, t, b, e.host, port) <==> KindFits(isIP(e.host), a.sites[t.name], mc)))
  {
    StandbySteps(isIP, mc, spec, cs, ev, tr, a, b, p, t);
    hide NormalWork, ValidClusters;
    var n, e := t.name, Used(ev.endpoints, cs, p.name);
    OtherStepsKeepTheAlias(mc, spec, t, Found(ev.endpoints, n), SourcesOf(spec, p, tr.applied.sites[p.name]),
                           tr.credentials, a.sites[n], tr.ensured.sites[n], tr.synced.sites[n]);
    if Tidy(isIP, a.sites[n], mc) { AliasOutcome(isIP, mc, e, a.sites[n], tr.synced.sites[n]); }
  }

  /** Hosts of one kind: no alias in the way on any standby. */
  ghost predicate AliasesFit(isIP: string -> bool, mc: string, ts: seq<Target>, p: Target, host: string, a: Workload) {
    forall t :: t in ts && t.name != p.name && t.name in a.sites ==>
      Tidy(isIP, a.sites[t.name], mc) && KindFits(isIP(host), a.sites[t.name], mc)
  }

  lemma {:induction false} WorkLeavesAStar(isIP: string -> bool, mc: string, spec: Spec, cs: seq<ClusterStatus>,
      ev: Events, tr: Trail, a: Workload, b: Workload, p: Target)
    requires ValidClusters(spec.clusters) && NormalWork(isIP, mc, spec, cs, ev, tr, a, b) && AllUp(ev)
    requires p in spec.clusters && p.role.Primary?
    requires AliasesFit(isIP, mc, spec.clusters, p, Used(ev.endpoints, cs, p.name).host, a)
    ensures Star(mc, spec.clusters, p, b, Used(ev.endpoints, cs, p.name))
    ensures forall t :: t in spec.clusters ==> t.name in b.pg && Describes(b.pg[t.name], mc, spec, t)
  {
    PrimarySteps(isIP, mc, spec, cs, ev, tr, a, b, p);
    hide NormalWork, Tidy, KindFits, Used, FollowsAlias, Reaches, EnsuredOn, Describes;
    var e := Used(ev.endpoints, cs, p.name);
    var port: Int32 := if e.port == 0 then 5432 else e.port;
    forall t | t in spec.clusters && t.name != p.name
      ensures FollowsAlias(mc, t, b, port) && Reaches(mc, t, b, e.host, port)
      ensures t.name in b.pg && Describes(b.pg[t.name], mc, spec, t)
    {
      StandbyEndsOnThePrimary(isIP, mc, spec, cs, ev, tr, a, b, p, t);
    }
    forall t | t in spec.clusters && t.name == p.name ensures t == p {
      SameName(spec.clusters, p, t);
    }
  }

  /** Main result on the topology: a normal pass that ends Ready leaves a star around the spec's primary,
      records that primary, and, with the one-writer invariant, nothing else anywhere is writable. */
  lemma {:induction false} ReadyPassLeavesAStar(isIP: string -> bool, mc: string, spec: Spec, w: World, w': World,
      s: Stamp, ev: Events, tr: Trail, p: Target)
    requires StatusOk(w.status) && ValidClusters(spec.clusters) && p in spec.clusters && p.role.Primary?
    requires NormalPassed(isIP, mc, spec, w, w', s, ev, tr, None) && w'.status.phase.Ready? && AtMostOneWriter(w')
    requires var e := Used(ev.endpoints, WithRoles(w.status.clusters, spec.clusters), p.name);
      AliasesFit(isIP, mc, spec.clusters, p, e.host, Load(w))
    ensures var e := Used(ev.endpoints, WithRoles(w.status.clusters, spec.clusters), p.name);
      Star(mc, spec.clusters, p, Load(w'), e)
    ensures forall t :: t in spec.clusters ==> t.name in w'.pg && Describes(w'.pg[t.name], mc, spec, t)
    ensures w'.status.currentPrimary == p.name
    ensures forall n :: WriterAt(w', n) <==> n == p.name
  {
    hide NormalWork, Marked, WithRoles, Used, AliasesFit, StatusOk, LeftoverReady, Writable;
    var ts, cs := spec.clusters, WithRoles(w.status.clusters, spec.clusters);
    var count := CountAfter(w.status.failureCount, PrimaryName(ts) in ev.unreachable);
    WorkIsCoherent(isIP, mc, spec, cs, ev, tr, Load(w), Load(w'));
    ReadyIsEarned(w.status, ts, ev, count, s);
    WorkLeavesAStar(isIP, mc, spec, cs, ev, tr, Load(w), Load(w'), p);
    var k :| 0 <= k < |ts| && ts[k] == p;
    PrimaryByName(ts, k);
    assert WriterAt(w', p.name);
  }

  /** Failover and steady state agree on addresses: for every cluster whose address a normal pass found, a
      failover planned from the status of that pass computes the address that pass used. */
  lemma {:induction false} FailoverUsesWhatThePassFound(mc: string, spec: Spec, st: Status, ev: Events, count: int,
      s: Stamp, t: Target, site: Site)
    requires StatusOk(st) && DistinctNames(spec.clusters) && t in spec.clusters && t.name in ev.endpoints
    requires Address(mc, spec, t, site) == Ok(ev.endpoints[t.name])
    ensures FailoverAddress(NormalStatus(st, spec.clusters, ev, count, s).clusters, t) == ev.endpoints[t.name]
  {
    var ts, cs := spec.clusters, WithRoles(st.clusters, spec.clusters);
    var r := Marked(cs, ts, ev, s);
    RolesCover(st, ts);
    hide WithRoles, MarkedEntry, Address, Render, FailoverAddress;
    var k :| 0 <= k < |ts| && ts[k] == t;
    var i := EntryOf(cs, t.name);
    TargetNamedIs(ts, k);
    MarkedEndpoint(cs[i], t, ev, s);
    forall a, b | 0 <= a < b < |r| ensures r[a].name != r[b].name {
      MarkedNames(cs, ts, ev, s, a);
      MarkedNames(cs, ts, ev, s, b);
    }
    MarkedNames(cs, ts, ev, s, i);
    FailoverUsesTheSteadyAddress(r, mc, spec, t, site, i, "");
  }

  lemma {:induction false} MarkedEndpoint(e: ClusterStatus, t: Target, ev: Events, s: Stamp)
    requires t.name in ev.endpoints
    ensures MarkedEntry(e, t, ev, s).endpoint == Render(ev.endpoints[t.name])
  {}

  lemma {:induction false} MarkedNames(cs: seq<ClusterStatus>, ts: seq<Target>, ev: Events, s: Stamp, i: int)
    requires 0 <= i < |cs|
    ensures Marked(cs, ts, ev, s)[i].name == cs[i].name
  {}

  // ---------- right after a failover ----------

  /** What a whole run leaves before any normal pass: the new primary writable, the old one streaming from
      its host, the others from the alias as named in the new primary's namespace, which is their
      own alias exactly when they share that namespace; every alias on the new primary unless one
      of the other kind was in the way. All of them on the port resolved for the new primary, 5432 if that is 0. */
  lemma {:induction false} RunLeavesAlmostAStar(isIP: string -> bool, p: Plan, w: World, w': World, anew: bool, i: nat)
    requires !p.spec.blob.Malformed? && WellFormed(p) && FullRun(isIP, p, w, w', anew) && i < |Standbys(p)|
    ensures WriterAt(w', p.to.t.name)
    ensures var t := Standbys(p)[i].t; var port: Int32 := if p.to.port == 0 then 5432 else p.to.port;
      && t.name in w.sites && StreamsFromNew(p, w', i)
      && (i < |p.others| ==> (FollowsAlias(p.mc, t, Load(w'), port) <==> t.namespace == p.to.t.namespace))
      && (Tidy(isIP, w.sites[t.name], p.mc) ==>
            (Reaches(p.mc, t, Load(w'), p.to.host, port) <==> KindFits(isIP(p.to.host), w.sites[t.name], p.mc)))
  {
    hide Describes;
    var t := Standbys(p)[i].t;
    var port: Int32 := if p.to.port == 0 then 5432 else p.to.port;
    assert FullStandbyAt(isIP, p, w, w', i);
    WholeRunStreams(isIP, p, w, w', anew, i);
    AliasFQDNTellsNamespacesApart(p.mc, t.namespace, p.to.t.namespace);
    if Tidy(isIP, w.sites[t.name], p.mc) {
      AliasOutcome(isIP, p.mc, Endpoint(p.to.host, p.to.port), w.sites[t.name], w.sites[t.name]);
    }
    StreamsFromOneHost(w'.pg[t.name], AliasFQDN(p.mc, t.namespace), UpstreamHost(p, i), port);
  }

  lemma {:induction false} StreamsFromOneHost(j: Json, host: string, other: string, port: Int32)
    ensures Streams(j, host, port) && Streams(j, other, port) ==> host == other
  {}
}
