// A failover after a normal pass: it goes to the address that pass found.
module Handover {
  import opened Json
  import opened Api
  import opened Kube
  import opened Builder
  import opened Conditions
  import Auto = AutoPromotion
  import opened CrossCluster
  import opened Replication
  import opened StatusEndpoints
  import opened StatusWrites
  import opened Selection
  import opened NormalPass
  import opened Controller
  import opened Failover
  import opened FailoverPass
  import opened Topology

  /** Relabelling the entries moves no endpoint. */
  lemma {:induction false} RolesKeepStored(cs: seq<ClusterStatus>, ts: seq<Target>, n: string)
    requires WellShaped(cs) && DistinctNames(ts) && EntryOf(cs, n) < |cs|
    ensures Stored(WithRoles(cs, ts), n) == Stored(cs, n)
  {
    hide Stored, Parse;
    var i, r := EntryOf(cs, n), WithRoles(cs, ts);
    RolesKeepShape(cs, ts);
    OldEntriesStay(cs, ts, i);
    assert r[i].endpoint == cs[i].endpoint && r[i].name == n;
    StoredAt(cs, n, i);
    StoredAt(r, n, i);
  }

  /** The address a pass found for t is the one its site gives. */
  lemma {:induction false} FoundIsAddress(isIP: string -> bool, mc: string, spec: Spec, cs: seq<ClusterStatus>,
      ev: Events, tr: Trail, a: Workload, b: Workload, t: Target)
    returns (site: Site)
    requires ValidClusters(spec.clusters) && NormalWork(isIP, mc, spec, cs, ev, tr, a, b)
    requires t in spec.clusters && t.name in ev.endpoints
    ensures Address(mc, spec, t, site) == Ok(ev.endpoints[t.name])
  {
    hide Reachable, Address, Replicated, AppliedOn, Served, PrimaryIn, StandbysOf;
    var cl := Reachable(spec.clusters, ev.unreachable);
    ReachableIs(spec.clusters, ev.unreachable);
    assert Named(cl, t.name);
    var i :| 0 <= i < |cl| && cl[i].name == t.name;
    assert cl[i] in cl;
    SameName(spec.clusters, t, cl[i]);
    assert EnsuredAt(mc, spec, cl[i], ev.endpoints, a, tr.ensured);
    site := tr.ensured.sites[t.name];
  }

  /** The cluster as it was, its role aside. */
  predicate SameCluster(t: Target, t': Target) {
    t.(role := Primary) == t'.(role := Primary)
  }

  /** A failover planned from the status of a normal pass resolves its new primary to the address that pass found. */
  lemma {:induction false} PlanUsesTheFoundAddress(isIP: string -> bool, w: World, w1: World, s: Stamp, ev: Events,
      tr: Trail, w2: World, p: Plan, t: Target)
    requires StatusOk(w.status) && ValidClusters(w.spec.clusters)
    requires NormalPassed(isIP, w.name, w.spec, w, w1, s, ev, tr, None)
    requires w2.status == w1.status && PlanFor(p, w2) && ValidClusters(w2.spec.clusters)
    requires t in w.spec.clusters && SameCluster(t, p.to.t) && t.name in ev.endpoints
    ensures p.to.host == ev.endpoints[t.name].host != "" && p.to.port == ev.endpoints[t.name].port != 0
  {
    hide NormalWork, Stored, Address, Marked, WithRoles, StatusOk, Split, WellFormed;
    var ts, cp := p.spec.clusters, w2.status.currentPrimary;
    var cs := WithRoles(w2.status.clusters, w2.spec.clusters);
    var site := FoundIsAddress(isIP, w.name, w.spec, WithRoles(w.status.clusters, w.spec.clusters), ev, tr,
                               Load(w), Load(w1), t);
    var count := Auto.CountAfter(w.status.failureCount, PrimaryName(w.spec.clusters) in ev.unreachable);
    FailoverUsesWhatThePassFound(w.name, w.spec, w.status, ev, count, s, t, site);
    StoredForTarget(w.status, w.spec.clusters, ev, count, s, t);
    RolesKeepStored(w1.status.clusters, w2.spec.clusters, t.name);
    PlanIsWellFormed(w2.name, p.spec, cs, cp);
    SplitIsSound(cs, ts, cp);
    var k :| 0 <= k < |ts| && ts[k] == p.to.t;
    SplitIsAPartition(cs, ts, cp, k);
    assert p.to == ResolvedTarget(cs, p.to.t);
  }

  lemma {:induction false} StoredForTarget(st: Status, ts: seq<Target>, ev: Events, count: int, s: Stamp, t: Target)
    requires StatusOk(st) && DistinctNames(ts) && t in ts
    ensures var cs := NormalStatus(st, ts, ev, count, s).clusters; WellShaped(cs) && EntryOf(cs, t.name) < |cs|
  {
    hide WithRoles;
    PassesKeepStatusOk(st, ts, ev, count, s);
    var k :| 0 <= k < |ts| && ts[k] == t;
    EntriesTell(st, ts, ev, count, s, k);
    var cs := NormalStatus(st, ts, ev, count, s).clusters;
    assert cs[EntryOf(WithRoles(st.clusters, ts), t.name)].name == t.name;
  }

  /** So after it went through: every other cluster of the plan streams from the port that pass found, the old primary
      from the host too, and the aliases lead there unless one of the other kind was in the way. */
  lemma {:induction false} FailoverGoesWhereThePassFound(isIP: string -> bool, w: World, w1: World, s: Stamp,
      ev: Events, tr: Trail, w2: World, p: Plan, t: Target, w3: World, anew: bool, i: nat)
    requires StatusOk(w.status) && ValidClusters(w.spec.clusters)
    requires NormalPassed(isIP, w.name, w.spec, w, w1, s, ev, tr, None)
    requires w2.status == w1.status && PlanFor(p, w2) && ValidClusters(w2.spec.clusters) && w2.name == w.name
    requires t in w.spec.clusters && SameCluster(t, p.to.t) && t.name in ev.endpoints
    requires !p.spec.blob.Malformed? && FullRun(isIP, p, w2, w3, anew) && i < |Standbys(p)|
    ensures var e, n := ev.endpoints[t.name], Standbys(p)[i].t.name;
      && n in w2.sites && n in w3.pg && Describes(w3.pg[n], w.name, p.spec, Standbys(p)[i].t)
      && Streams(w3.pg[n], if i < |p.others| then ServiceHost(w.name + "-primary", t.namespace) else e.host, e.port)
      && (Tidy(isIP, w2.sites[n], w.name) ==>
            (Reaches(w.name, Standbys(p)[i].t, Load(w3), e.host, e.port) <==>
               KindFits(isIP(e.host), w2.sites[n], w.name)))
  {
    PlanUsesTheFoundAddress(isIP, w, w1, s, ev, tr, w2, p, t);
    PlanFacts(w2, p);
    hide NormalPassed, FullRun, Tidy, KindFits, Reaches, Describes, PlanFor, WellFormed;
    RunLeavesAlmostAStar(isIP, p, w2, w3, anew, i);
  }

  lemma {:induction false} PlanFacts(w: World, p: Plan)
    requires PlanFor(p, w)
    ensures WellFormed(p) && p.mc == w.name
  {
    PlanIsWellFormed(w.name, p.spec, WithRoles(w.status.clusters, w.spec.clusters), w.status.currentPrimary);
  }

  // ---------- between passes ----------

  lemma {:induction false} StoredAfterPass(st: Status, ts: seq<Target>, ev: Events, count: int, s: Stamp, t: Target)
    requires StatusOk(st) && DistinctNames(ts) && t in ts
    requires t.name in ev.endpoints ==> ev.endpoints[t.name].host != "" && ev.endpoints[t.name].port != 0
    ensures Stored(NormalStatus(st, ts, ev, count, s).clusters, t.name) ==
            if t.name in ev.endpoints then ev.endpoints[t.name] else Stored(WithRoles(st.clusters, ts), t.name)
  {
    hide WithRoles, NormalStatus, Stored, Parse, ReadyTells, Says;
    var cs, now, n := WithRoles(st.clusters, ts), NormalStatus(st, ts, ev, count, s).clusters, t.name;
    StoredForTarget(st, ts, ev, count, s, t);
    RolesKeepShape(st.clusters, ts);
    var k :| 0 <= k < |ts| && ts[k] == t;
    EntriesTell(st, ts, ev, count, s, k);
    var i := EntryOf(cs, n);
    StoredAt(cs, n, i);
    StoredAt(now, n, i);
    if n in ev.endpoints {
      RenderIs(ev.endpoints, n);
      ParseOfRender(ev.endpoints[n]);
    }
  }

  /** A pass that does not find the primary's address anew goes on with the one the last pass found, or stood by. */
  lemma {:induction false} LastAddressHolds(isIP: string -> bool, w: World, w1: World, s: Stamp, ev: Events, tr: Trail,
      ts: seq<Target>, found: map<string, Endpoint>, t: Target)
    requires StatusOk(w.status) && ValidClusters(w.spec.clusters) && DistinctNames(ts)
    requires NormalPassed(isIP, w.name, w.spec, w, w1, s, ev, tr, None)
    requires t in w.spec.clusters && t.name !in found
    ensures Used(found, WithRoles(w1.status.clusters, ts), t.name) ==
            if t.name in ev.endpoints then ev.endpoints[t.name]
            else Stored(WithRoles(w.status.clusters, w.spec.clusters), t.name)
  {
    hide NormalWork, Stored, Address, Marked, WithRoles, StatusOk;
    var count := Auto.CountAfter(w.status.failureCount, PrimaryName(w.spec.clusters) in ev.unreachable);
    StoredForTarget(w.status, w.spec.clusters, ev, count, s, t);
    RolesKeepStored(w1.status.clusters, ts, t.name);
    if t.name in ev.endpoints {
      var site := FoundIsAddress(isIP, w.name, w.spec, WithRoles(w.status.clusters, w.spec.clusters), ev, tr,
                                 Load(w), Load(w1), t);
    }
    StoredAfterPass(w.status, w.spec.clusters, ev, count, s, t);
  }
}
