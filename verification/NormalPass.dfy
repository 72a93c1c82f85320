// A normal pass of the controller, step by step: clients, replication Services, the primary,
// credentials and standbys. Each step says what it did to the workload clusters and that the
// status now holds exactly the marks of what the pass has seen so far.
module NormalPass {
  import opened Json
  import opened Api
  import opened Kube
  import opened Builder
  import opened Conditions
  import opened Remote
  import opened Resource
  import opened Replication
  import opened StatusEndpoints
  import opened StatusWrites
  import opened Selection
  import opened Reconciling
  import opened Credentials

  /** The status clusters of the pass's copy are the marks of ev on cs. */
  ghost predicate Shows(mc: PostgresMC, cs: seq<ClusterStatus>, ev: Events, s: Stamp)
    reads mc
  {
    && DistinctNames(mc.spec.clusters) && UniqueNames(cs) && Covers(cs, mc.spec.clusters)
    && s.generation == mc.generation && mc.status.clusters == Marked(cs, mc.spec.clusters, ev, s)
  }

  // ---------- clients ----------

  method ResolveOne(fleet: Fleet, mc: PostgresMC, t: Target, now: nat) returns (err: Option<string>)
    requires fleet.Valid()
    modifies fleet, mc`status
    ensures fleet.Valid() && fleet.begun == old(fleet.begun)
    ensures fleet.w == old(fleet.w).(spec := fleet.w.spec, generation := fleet.w.generation)
    ensures fleet.faults == old(fleet.faults)
    ensures fleet.flight == old(fleet.flight)
    ensures fleet.clients == if err.None? then Clients(old(fleet.clients).held + {t.name}, old(fleet.clients).lost)
                             else Clients(old(fleet.clients).held, old(fleet.clients).lost + {t.name})
    ensures mc.status ==
            old(mc.status).(clusters := Noted(old(mc.status).clusters, t.name, err, Stamp(mc.generation, now)))
  {
    err := fleet.Client(t.name);
    if err.Some? {
      mc.SetClusterCond(t.name, REACHABLE, False, "ClusterUnreachable", err.value, now);
      mc.SetClusterReady(t.name, False, "ClusterUnreachable", err.value, now);
    } else {
      mc.SetClusterCond(t.name, REACHABLE, True, "ReconcileSuccess", "", now);
    }
  }

  /** Gets a client for every cluster, noting which have none and why. */
  method ResolveClients(fleet: Fleet, mc: PostgresMC, now: nat)
    returns (clients: seq<Target>, unreachable: map<string, string>, primaryUnreachable: bool)
    requires fleet.Valid() && fleet.clients == NO_CLIENTS && ValidClusters(mc.spec.clusters)
    requires UniqueNames(mc.status.clusters) && Covers(mc.status.clusters, mc.spec.clusters)
    modifies fleet, mc`status
    ensures fleet.Valid() && fleet.begun == old(fleet.begun)
    ensures fleet.w == old(fleet.w).(spec := fleet.w.spec, generation := fleet.w.generation)
    ensures fleet.faults == old(fleet.faults)
    ensures fleet.flight == old(fleet.flight)
    ensures fleet.clients.lost == unreachable.Keys <= TargetNames(mc.spec.clusters)
    ensures fleet.clients.held == TargetNames(mc.spec.clusters) - unreachable.Keys
    ensures mc.status == old(mc.status).(clusters := mc.status.clusters)
    ensures Shows(mc, old(mc.status).clusters, Resolving(unreachable), Stamp(mc.generation, now))
    ensures clients == Reachable(mc.spec.clusters, unreachable)
    ensures primaryUnreachable <==> PrimaryName(mc.spec.clusters) in unreachable
  {
    hide Marked, Noted, PrimaryName, Reachable, TargetNames, Named, SolePrimary;
    ghost var cs, s, p := mc.status.clusters, Stamp(mc.generation, now), PrimaryName(mc.spec.clusters);
    var ts := mc.spec.clusters;
    clients, unreachable, primaryUnreachable := [], map[], false;
    NoMarks(cs, ts[..0], s);
    NamesSoFar(ts, 0);
    var k := 0;
    while k < |ts|
      invariant 0 <= k <= |ts| && fleet.Valid() && fleet.begun == old(fleet.begun)
      invariant fleet.w == old(fleet.w).(spec := fleet.w.spec, generation := fleet.w.generation)
      invariant fleet.faults == old(fleet.faults)
      invariant fleet.flight == old(fleet.flight) && fleet.clients.lost == unreachable.Keys <= TargetNames(ts[..k])
      invariant fleet.clients.held == TargetNames(ts[..k]) - unreachable.Keys
      invariant mc.status == old(mc.status).(clusters := Marked(cs, ts[..k], Resolving(unreachable), s))
      invariant clients == Reachable(ts[..k], unreachable)
      invariant primaryUnreachable <==> p in unreachable
    {
      var t := ts[k];
      var err := ResolveOne(fleet, mc, t, now);
      MarkResolved(cs, ts, k, unreachable, err, s);
      NotYetNamed(ts, k);
      PrimaryByName(ts, k);
      OneMoreResolved(ts, k, unreachable, err);
      NamesSoFar(ts, k);
      OneMoreClient(TargetNames(ts[..k]), unreachable, t.name, err);
      if err.Some? {
        unreachable := unreachable[t.name := err.value];
        if t.role.Primary? {
          primaryUnreachable := true;
        }
      } else {
        clients := clients + [t];
      }
      k := k + 1;
    }
    assert ts[..k] == ts;
  }

  lemma {:induction false} OneMoreClient(ns: set<string>, unreachable: map<string, string>, n: string,
      err: Option<string>)
    requires unreachable.Keys <= ns && n !in ns
    ensures var now := OneMoreUnreachable(unreachable, n, err);
      && now.Keys == (if err.Some? then unreachable.Keys + {n} else unreachable.Keys) && now.Keys <= ns + {n}
      && ns + {n} - now.Keys == (if err.Some? then ns - unreachable.Keys else ns - unreachable.Keys + {n})
  {}

  lemma {:induction false} OneMoreResolved(ts: seq<Target>, k: nat, unreachable: map<string, string>,
      err: Option<string>)
    requires DistinctNames(ts) && k < |ts| && ts[k].name !in unreachable
    ensures Reachable(ts[..k + 1], OneMoreUnreachable(unreachable, ts[k].name, err)) ==
            Reachable(ts[..k], unreachable) + (if err.Some? then [] else [ts[k]])
  {
    assert ts[..k + 1][..k] == ts[..k];
    NotYetNamed(ts, k);
    if err.Some? { ReachableSoFar(ts[..k], unreachable, ts[k].name, err.value); }
  }

  lemma {:induction false} NotYetNamed(ts: seq<Target>, k: nat)
    requires DistinctNames(ts) && k < |ts|
    ensures !Named(ts[..k], ts[k].name)
    ensures forall n :: Named(ts[..k + 1], n) <==> Named(ts[..k], n) || n == ts[k].name
  {
    assert forall i :: 0 <= i < k ==> ts[..k][i].name != ts[k].name;
    forall n ensures Named(ts[..k + 1], n) <==> Named(ts[..k], n) || n == ts[k].name {
      if Named(ts[..k], n) {
        var i :| 0 <= i < k && ts[..k][i].name == n;
        assert ts[..k + 1][i].name == n;
      }
      assert ts[..k + 1][k].name == ts[k].name;
      if Named(ts[..k + 1], n) && n != ts[k].name {
        var i :| 0 <= i < k + 1 && ts[..k + 1][i].name == n;
        assert ts[..k][i].name == n;
      }
    }
  }

  lemma {:induction false} NoMarks(cs: seq<ClusterStatus>, ts: seq<Target>, s: Stamp)
    requires ts == []
    ensures Marked(cs, ts, Resolving(map[]), s) == cs && Reachable(ts, map[]) == []
  {}

  // ---------- replication Services ----------

  /** The endpoint of n in the pass's table, or the zero endpoint. */
  function AddressIn(table: map<string, Endpoint>, n: string): Endpoint {
    if n in table then table[n] else NOWHERE
  }

  /** The address found in this pass, or else the one stored by an earlier pass. */
  function Used(found: map<string, Endpoint>, cs: seq<ClusterStatus>, n: string): Endpoint {
    if n in found then found[n] else Stored(cs, n)
  }

  function Found(found: map<string, Endpoint>, n: string): Option<Endpoint> {
    if n in found then Some(found[n]) else None
  }

  /** The site has the replication Service, with address e; without one it may have it. */
  ghost predicate EnsuredOn(mc: string, spec: Spec, t: Target, e: Option<Endpoint>, site: Site, site': Site) {
    var once := Replicated(mc, spec, t, site);
    if e.Some? then site' == once && Address(mc, spec, t, once) == Ok(e.value) else site' in {site, once}
  }

  /** The address of t once its Service is there. */
  function FoundAt(mc: string, spec: Spec, t: Target, a: Workload): Result<Endpoint>
    requires t.name in a.sites
  {
    Address(mc, spec, t, Replicated(mc, spec, t, a.sites[t.name]))
  }

  ghost predicate EnsuredAt(mc: string, spec: Spec, t: Target, found: map<string, Endpoint>, a: Workload, b: Workload) {
    var n := t.name;
    n in a.sites && n in b.sites && EnsuredOn(mc, spec, t, Found(found, n), a.sites[n], b.sites[n])
  }

  /** Every reachable cluster has its replication Service if it has an address, and may have it if not. */
  ghost predicate Ensured(mc: string, spec: Spec, cl: seq<Target>, found: map<string, Endpoint>, a: Workload,
      b: Workload)
  {
    && b.pg == a.pg && OnlySites(a, b, TargetNames(cl)) && found.Keys <= TargetNames(cl)
    && forall i :: 0 <= i < |cl| ==> EnsuredAt(mc, spec, cl[i], found, a, b)
  }

  lemma {:induction false} OneMoreEnsured(mc: string, spec: Spec, cl: seq<Target>, k: nat, found: map<string, Endpoint>,
      e: Option<Endpoint>, a: Workload, b: Workload, c: Workload)
    requires k < |cl| && DistinctNames(cl) && Ensured(mc, spec, cl[..k], found, a, b)
    requires c.pg == b.pg && OnlySites(b, c, {cl[k].name})
    requires EnsuredAt(mc, spec, cl[k], OneMoreFound(found, cl[k].name, e), b, c)
    ensures Ensured(mc, spec, cl[..k + 1], OneMoreFound(found, cl[k].name, e), a, c)
  {
    hide EnsuredOn;
    var n := cl[k].name;
    NotYetNamed(cl, k);
    forall i | 0 <= i < k ensures cl[i].name != n && EnsuredAt(mc, spec, cl[i], OneMoreFound(found, n, e), a, c) {
      assert cl[..k][i] == cl[i];
      assert EnsuredAt(mc, spec, cl[..k][i], found, a, b);
    }
    assert b.sites[n] == a.sites[n];
  }

  function OneMoreFound(found: map<string, Endpoint>, n: string, e: Option<Endpoint>): map<string, Endpoint> {
    if e.Some? then found[n := e.value] else found
  }

  function Looked(unreachable: map<string, string>, found: map<string, Endpoint>): Events {
    Events(unreachable, found, Absent, map[])
  }

  /** One cluster: its address goes into the status, or, without one, the status gives the last known. */
  method EnsureOne(fleet: Fleet, mc: PostgresMC, t: Target, ghost cs: seq<ClusterStatus>,
      ghost unreachable: map<string, string>, ghost found: map<string, Endpoint>, ghost s: Stamp)
    returns (entry: Option<Endpoint>, ghost e: Option<Endpoint>)
    requires fleet.Valid() && fleet.Serves(t.name) && t in mc.spec.clusters && t.name !in found
    requires Shows(mc, cs, Looked(unreachable, found), s)
    modifies fleet, mc`status
    ensures fleet.Valid() && fleet.begun == old(fleet.begun)
    ensures fleet.faults >= old(fleet.faults)
    ensures e.None? && fleet.faults == old(fleet.faults) ==> FoundAt(mc.name, mc.spec, t, Load(old(fleet.w))).Err?
    ensures fleet.flight == old(fleet.flight) && fleet.clients == old(fleet.clients)
    ensures SiteOnly(old(fleet.w), fleet.w, t.name)
    ensures EnsuredAt(mc.name, mc.spec, t, OneMoreFound(found, t.name, e), Load(old(fleet.w)), Load(fleet.w))
    ensures mc.status == old(mc.status).(clusters := mc.status.clusters)
    ensures Shows(mc, cs, Looked(unreachable, OneMoreFound(found, t.name, e)), s)
    ensures (if entry.Some? then entry.value else NOWHERE) == Used(OneMoreFound(found, t.name, e), cs, t.name)
  {
    hide Marked, Replicated, Address;
    var k :| 0 <= k < |mc.spec.clusters| && mc.spec.clusters[k] == t;
    var r := Ensure(fleet, mc.name, mc.spec, t);
    if r.Err? {
      var prev := ClusterEndpointFromStatus(mc.status.clusters, t.name);
      StoredAfterMarks(cs, mc.spec.clusters, Looked(unreachable, found), s, t.name);
      StoredWithoutHost(cs, t.name);
      entry, e := if prev.host != "" then Some(prev) else None, None;
    } else {
      entry, e := Some(r.value), Some(r.value);
      mc.UpdateEndpoint(t.name, r.value);
      MarkEndpoint(cs, mc.spec.clusters, k, Looked(unreachable, found), r.value, s);
      var found' := found[t.name := r.value];
      assert Looked(unreachable, found).(endpoints := found') == Looked(unreachable, found');
    }
  }

  ghost predicate Tabulated(table: map<string, Endpoint>, found: map<string, Endpoint>, cs: seq<ClusterStatus>,
      cl: seq<Target>)
  {
    && (forall i :: 0 <= i < |cl| ==> AddressIn(table, cl[i].name) == Used(found, cs, cl[i].name))
    && (forall n :: n in table || n in found ==> Named(cl, n))
  }

  lemma {:induction false} OneMoreEntry(table: map<string, Endpoint>, found: map<string, Endpoint>,
      cs: seq<ClusterStatus>, cl: seq<Target>, k: nat, entry: Option<Endpoint>, e: Option<Endpoint>)
    requires k < |cl| && DistinctNames(cl) && Tabulated(table, found, cs, cl[..k])
    requires (if entry.Some? then entry.value else NOWHERE) == Used(OneMoreFound(found, cl[k].name, e), cs, cl[k].name)
    ensures Tabulated(OneMoreFound(table, cl[k].name, entry), OneMoreFound(found, cl[k].name, e), cs, cl[..k + 1])
  {
    hide Stored;
    NotYetNamed(cl, k);
    forall i | 0 <= i < k
      ensures cl[i].name != cl[k].name && AddressIn(table, cl[i].name) == Used(found, cs, cl[i].name)
    {
      assert cl[..k][i] == cl[i];
    }
  }

  /** Ensures the replication Service of every reachable cluster and tabulates the addresses. */
  method EnsureReplication(fleet: Fleet, mc: PostgresMC, cl: seq<Target>, ghost cs: seq<ClusterStatus>,
      ghost unreachable: map<string, string>, ghost s: Stamp)
    returns (table: map<string, Endpoint>, ghost found: map<string, Endpoint>)
    requires fleet.Valid() && ServesAll(fleet, cl) && DistinctNames(cl) && forall t :: t in cl ==> t in mc.spec.clusters
    requires Shows(mc, cs, Resolving(unreachable), s)
    modifies fleet, mc`status
    ensures fleet.Valid() && fleet.begun == old(fleet.begun)
    ensures fleet.faults >= old(fleet.faults)
    ensures fleet.faults == old(fleet.faults) ==> AllFound(mc.name, mc.spec, cl, found, Load(old(fleet.w)))
    ensures fleet.flight == old(fleet.flight) && fleet.clients == old(fleet.clients)
    ensures fleet.w == old(fleet.w).(spec := fleet.w.spec, generation := fleet.w.generation, sites := fleet.w.sites)
    ensures Ensured(mc.name, mc.spec, cl, found, Load(old(fleet.w)), Load(fleet.w))
    ensures fleet.w.sites.Keys == old(fleet.w).sites.Keys
    ensures mc.status == old(mc.status).(clusters := mc.status.clusters)
    ensures Shows(mc, cs, Looked(unreachable, found), s) && Tabulated(table, found, cs, cl)
  {
    hide Marked, EnsuredAt, Ensured, Tabulated, Used, Covers, UniqueNames, AllFound, FoundAt, OnlySites, TargetNames;
    NoneFound(mc.name, mc.spec, cl[..0], Load(fleet.w));
    ghost var a := Load(fleet.w);
    table, found := map[], map[];
    assert Looked(unreachable, found) == Resolving(unreachable);
    NothingEnsured(mc.name, mc.spec, cl[..0], cs, a, Load(fleet.w));
    var k := 0;
    while k < |cl|
      invariant 0 <= k <= |cl| && fleet.Valid() && fleet.begun == old(fleet.begun)
      invariant fleet.flight == old(fleet.flight) && fleet.clients == old(fleet.clients)
      invariant fleet.w == old(fleet.w).(spec := fleet.w.spec, generation := fleet.w.generation, sites := fleet.w.sites)
      invariant fleet.w.sites.Keys == a.sites.Keys && Ensured(mc.name, mc.spec, cl[..k], found, a, Load(fleet.w))
      invariant mc.status == old(mc.status).(clusters := mc.status.clusters)
      invariant Shows(mc, cs, Looked(unreachable, found), s) && Tabulated(table, found, cs, cl[..k])
      invariant fleet.faults >= old(fleet.faults)
      invariant fleet.faults == old(fleet.faults) ==> AllFound(mc.name, mc.spec, cl[..k], found, a)
    {
      var t := cl[k];
      ghost var before, b := fleet.w, Load(fleet.w);
      NotYetFound(table, found, cs, cl, k);
      var entry: Option<Endpoint>;
      ghost var e;
      entry, e := EnsureOne(fleet, mc, t, cs, unreachable, found, s);
      if fleet.faults == old(fleet.faults) {
        EnsuredKeepsOthers(mc.name, mc.spec, cl[..k], found, a, b);
        OneMoreAllFound(mc.name, mc.spec, cl, k, found, e, a, b);
      }
      OneSite(before, fleet.w, t.name);
      OneMoreEnsured(mc.name, mc.spec, cl, k, found, e, a, b, Load(fleet.w));
      OneMoreEntry(table, found, cs, cl, k, entry, e);
      found := OneMoreFound(found, t.name, e);
      if entry.Some? {
        table := table[t.name := entry.value];
      }
      k := k + 1;
    }
    assert cl[..k] == cl;
  }

  /** Every cluster that has an address is found. */
  ghost predicate AllFound(mc: string, spec: Spec, cl: seq<Target>, found: map<string, Endpoint>, a: Workload) {
    forall i :: 0 <= i < |cl| && cl[i].name in a.sites && FoundAt(mc, spec, cl[i], a).Ok? ==> cl[i].name in found
  }

  lemma {:induction false} OneMoreAllFound(mc: string, spec: Spec, cl: seq<Target>, k: nat,
      found: map<string, Endpoint>, e: Option<Endpoint>, a: Workload, b: Workload)
    requires k < |cl| && DistinctNames(cl) && AllFound(mc, spec, cl[..k], found, a)
    requires OnlySites(a, b, TargetNames(cl[..k])) && cl[k].name in b.sites
    requires e.None? ==> FoundAt(mc, spec, cl[k], b).Err?
    ensures AllFound(mc, spec, cl[..k + 1], OneMoreFound(found, cl[k].name, e), a)
  {
    hide FoundAt, TargetNames;
    NotYetNamed(cl, k);
    SameSiteSameAddress(mc, spec, cl[k], a, b);
    forall i | 0 <= i < k && cl[i].name in a.sites && FoundAt(mc, spec, cl[i], a).Ok? ensures cl[i].name in found {
      assert cl[..k][i] == cl[i];
    }
  }

  lemma {:induction false} OneSite(w: World, w': World, n: string)
    requires SiteOnly(w, w', n)
    ensures OnlySites(Load(w), Load(w'), {n})
  {}

  lemma {:induction false} NoneFound(mc: string, spec: Spec, cl: seq<Target>, a: Workload)
    requires cl == []
    ensures AllFound(mc, spec, cl, map[], a)
  {}

  lemma {:induction false} EnsuredKeepsOthers(mc: string, spec: Spec, cl: seq<Target>, found: map<string, Endpoint>,
      a: Workload, b: Workload)
    requires Ensured(mc, spec, cl, found, a, b)
    ensures OnlySites(a, b, TargetNames(cl))
  {}

  lemma {:induction false} SameSiteSameAddress(mc: string, spec: Spec, t: Target, a: Workload, b: Workload)
    requires t.name in a.sites && t.name in b.sites && a.sites[t.name] == b.sites[t.name]
    ensures FoundAt(mc, spec, t, a) == FoundAt(mc, spec, t, b)
  {}

  lemma {:induction false} NothingEnsured(mc: string, spec: Spec, cl: seq<Target>, cs: seq<ClusterStatus>, a: Workload,
      b: Workload)
    requires cl == [] && b == a
    ensures Ensured(mc, spec, cl, map[], a, b) && Tabulated(map[], map[], cs, cl)
  {}

  lemma {:induction false} NotYetFound(table: map<string, Endpoint>, found: map<string, Endpoint>,
      cs: seq<ClusterStatus>, cl: seq<Target>, k: nat)
    requires k < |cl| && DistinctNames(cl) && Tabulated(table, found, cs, cl[..k])
    ensures cl[k].name !in found
  {
    NotYetNamed(cl, k);
  }

  // ---------- the primary ----------

  ghost predicate AppliedOn(mc: string, spec: Spec, p: Target, a: Workload, b: Workload, outcome: PrimaryOutcome) {
    var built := BuildPrimary(mc, spec, p);
    && b.sites == a.sites && p.name in a.sites
    && match outcome {
      case Absent => b.pg == a.pg
      case ApplyFailed(_) => b.pg == a.pg || (built.Ok? && b.pg == a.pg[p.name := built.value])
      case _ =>
        && built.Ok? && b.pg == a.pg[p.name := built.value]
        && (outcome.Applied? <==> HasCredentials(a.sites[p.name].secrets, ClusterName(spec.teamId, p.name)))
    }
  }

  lemma {:induction false} MarkPrimary(cs: seq<ClusterStatus>, ts: seq<Target>, k: nat, ev: Events,
      outcome: PrimaryOutcome, s: Stamp, c: Condition)
    requires UniqueNames(cs) && ValidClusters(ts) && k < |ts| && EntryOf(cs, ts[k].name) < |cs|
    requires ts[k].role.Primary? && ts[k].name !in ev.unreachable && ev.primary.Absent?
    requires ReadyMark(ev.(primary := outcome), ts[k], s) == Some(c)
    ensures Marked(cs, ts, ev.(primary := outcome), s) == UpsertCluster(Marked(cs, ts, ev, s), ts[k].name, c)
  {
    forall j | 0 <= j < |ts| && j != k ensures ReadyMark(ev.(primary := outcome), ts[j], s) == ReadyMark(ev, ts[j], s) {
      assert ts[j].role.Standby?;
    }
    MarkReady(cs, ts, k, ev, ev.(primary := outcome), s, c);
  }

  /** Applies the primary and records how that went. */
  method ApplyPrimary(fleet: Fleet, mc: PostgresMC, p: Target, ghost cs: seq<ClusterStatus>, ghost ev: Events, now: nat)
    returns (ready: bool, ghost outcome: PrimaryOutcome)
    requires fleet.Valid() && fleet.Serves(p.name) && ValidClusters(mc.spec.clusters)
    requires fleet.flight.Normal? && p.name == PrimaryName(fleet.flight.copy.clusters)
    requires p in mc.spec.clusters && p.role.Primary? && p.name !in ev.unreachable && ev.primary.Absent?
    requires Shows(mc, cs, ev, Stamp(mc.generation, now))
    modifies fleet, mc`status
    ensures fleet.Valid() && fleet.begun == old(fleet.begun)
    ensures fleet.faults >= old(fleet.faults)
    ensures outcome.ApplyFailed? && fleet.faults == old(fleet.faults) ==> mc.spec.blob.Malformed?
    ensures fleet.flight == old(fleet.flight) && fleet.clients == old(fleet.clients)
    ensures fleet.w.status == old(fleet.w).status
    ensures fleet.w.sites.Keys == old(fleet.w).sites.Keys
    ensures !outcome.Absent? && (ready <==> outcome.Applied?)
    ensures AppliedOn(mc.name, mc.spec, p, Load(old(fleet.w)), Load(fleet.w), outcome)
    ensures mc.status == old(mc.status).(clusters := mc.status.clusters)
    ensures Shows(mc, cs, ev.(primary := outcome), Stamp(mc.generation, now))
  {
    hide Marked, BuildPrimary, HasCredentials, Describes, SecretName, ClusterName, MarkedEntry;
    ghost var k, s :| 0 <= k < |mc.spec.clusters| && mc.spec.clusters[k] == p && s == Stamp(mc.generation, now);
    var r := ReconcilePrimary(fleet, mc.name, mc.spec, p);
    if r.Err? {
      outcome := ApplyFailed(r.error);
      mc.SetClusterReady(p.name, False, "ZalandoApplyFailed", r.error, now);
      MarkPrimary(cs, mc.spec.clusters, k, ev, outcome, s, ReadyIs(False, "ZalandoApplyFailed", r.error, s));
    } else if !r.value {
      outcome := NotReady;
      mc.SetClusterReady(p.name, False, "CredentialsNotReady", "waiting for credential secrets", now);
      MarkPrimary(cs, mc.spec.clusters, k, ev, outcome, s,
                  ReadyIs(False, "CredentialsNotReady", "waiting for credential secrets", s));
    } else {
      outcome := Applied;
      mc.SetClusterReady(p.name, True, "ReconcileSuccess", "", now);
      MarkPrimary(cs, mc.spec.clusters, k, ev, outcome, s, ReadyIs(True, "ReconcileSuccess", "", s));
    }
    ready := r.Ok? && r.value;
  }

  // ---------- the standbys ----------

  ghost predicate FollowedAll(isIP: string -> bool, mc: string, spec: Spec, e: Endpoint, standbys: seq<Target>,
      outcomes: map<string, Option<string>>, a: Workload, b: Workload)
  {
    && OnlySites(a, b, TargetNames(standbys)) && OnlyPg(a, b, TargetNames(standbys))
    && outcomes.Keys == TargetNames(standbys)
    && forall i :: 0 <= i < |standbys| ==>
         Followed(isIP, mc, spec, e, standbys[i], a, b, outcomes[standbys[i].name])
  }

  predicate NoErrors(outcomes: map<string, Option<string>>) {
    forall n :: n in outcomes ==> outcomes[n].None?
  }

  lemma {:induction false} FollowedBesides(isIP: string -> bool, mc: string, spec: Spec, e: Endpoint, t: Target,
      n: string, err: Option<string>, a: Workload, b: Workload, c: Workload)
    requires t.name != n
    requires Followed(isIP, mc, spec, e, t, a, b, err) && OnlySites(b, c, {n}) && OnlyPg(b, c, {n})
    ensures Followed(isIP, mc, spec, e, t, a, c, err)
  {
    hide FollowedOn;
    assert Lookup(c.pg, t.name) == Lookup(b.pg, t.name);
  }

  lemma {:induction false} FollowedAfter(isIP: string -> bool, mc: string, spec: Spec, e: Endpoint, t: Target,
      ns: set<string>, err: Option<string>, a: Workload, b: Workload, c: Workload)
    requires t.name !in ns && OnlySites(a, b, ns) && OnlyPg(a, b, ns) && Followed(isIP, mc, spec, e, t, b, c, err)
    ensures Followed(isIP, mc, spec, e, t, a, c, err)
  {
    hide FollowedOn;
    assert Lookup(b.pg, t.name) == Lookup(a.pg, t.name);
  }

  lemma {:induction false} OneMoreFollowed(isIP: string -> bool, mc: string, spec: Spec, e: Endpoint,
      standbys: seq<Target>, k: nat, outcomes: map<string, Option<string>>, err: Option<string>, a: Workload,
      b: Workload, c: Workload)
    requires k < |standbys| && DistinctNames(standbys)
    requires FollowedAll(isIP, mc, spec, e, standbys[..k], outcomes, a, b)
    requires OnlySites(b, c, {standbys[k].name}) && OnlyPg(b, c, {standbys[k].name})
    requires Followed(isIP, mc, spec, e, standbys[k], b, c, err)
    ensures FollowedAll(isIP, mc, spec, e, standbys[..k + 1], outcomes[standbys[k].name := err], a, c)
  {
    hide Followed, OnlySites, OnlyPg, TargetNames, Named;
    var n := standbys[k].name;
    NotYetNamed(standbys, k);
    NamesSoFar(standbys, k);
    OnlyChains(a, b, c, TargetNames(standbys[..k]), n);
    forall i | 0 <= i < k
      ensures standbys[i].name != n && standbys[i].name in outcomes
      ensures Followed(isIP, mc, spec, e, standbys[i], a, c, outcomes[standbys[i].name])
    {
      assert standbys[..k][i] == standbys[i];
      NamesSoFar(standbys[..k], i);
      FollowedBesides(isIP, mc, spec, e, standbys[i], n, outcomes[standbys[i].name], a, b, c);
    }
    FollowedAfter(isIP, mc, spec, e, standbys[k], TargetNames(standbys[..k]), err, a, b, c);
  }

  lemma {:induction false} OnlyChains(a: Workload, b: Workload, c: Workload, ns: set<string>, n: string)
    requires OnlySites(a, b, ns) && OnlyPg(a, b, ns) && OnlySites(b, c, {n}) && OnlyPg(b, c, {n})
    ensures OnlySites(a, c, ns + {n}) && OnlyPg(a, c, ns + {n})
  {
    forall m | m !in ns + {n} ensures Lookup(c.pg, m) == Lookup(a.pg, m) {
      assert Lookup(c.pg, m) == Lookup(b.pg, m);
    }
  }

  lemma {:induction false} MarkStandby(cs: seq<ClusterStatus>, ts: seq<Target>, k: nat, ev: Events, err: Option<string>,
      s: Stamp)
    requires UniqueNames(cs) && DistinctNames(ts) && k < |ts| && EntryOf(cs, ts[k].name) < |cs|
    requires ts[k].role.Standby? && ts[k].name !in ev.unreachable && ts[k].name !in ev.standbys
    ensures Marked(cs, ts, ev.(standbys := ev.standbys[ts[k].name := err]), s) ==
            UpsertCluster(Marked(cs, ts, ev, s), ts[k].name,
              if err.Some? then ReadyIs(False, "ZalandoApplyFailed", err.value, s)
              else ReadyIs(True, "ReconcileSuccess", "", s))
  {
    var ev' := ev.(standbys := ev.standbys[ts[k].name := err]);
    forall j | 0 <= j < |ts| && j != k ensures ReadyMark(ev', ts[j], s) == ReadyMark(ev, ts[j], s) {
      assert j < k ==> ts[j].name != ts[k].name;
      assert k < j ==> ts[k].name != ts[j].name;
    }
    MarkReady(cs, ts, k, ev, ev', s, ReadyMark(ev', ts[k], s).value);
  }

  method FollowOne(fleet: Fleet, mc: PostgresMC, e: Endpoint, t: Target, ghost cs: seq<ClusterStatus>, ghost ev: Events,
      now: nat)
    returns (err: Option<string>)
    requires fleet.Valid() && fleet.flight.Normal? && fleet.Serves(t.name)
    requires t in mc.spec.clusters && t.role.Standby? && t.name !in ev.unreachable && t.name !in ev.standbys
    requires Shows(mc, cs, ev, Stamp(mc.generation, now))
    modifies fleet, mc`status
    ensures fleet.Valid() && fleet.begun == old(fleet.begun)
    ensures fleet.faults >= old(fleet.faults)
    ensures err.Some? && fleet.faults == old(fleet.faults) ==> e.host == "" || mc.spec.blob.Malformed?
    ensures fleet.flight == old(fleet.flight) && fleet.clients == old(fleet.clients)
    ensures fleet.w.status == old(fleet.w).status
    ensures OnlySites(Load(old(fleet.w)), Load(fleet.w), {t.name})
              && OnlyPg(Load(old(fleet.w)), Load(fleet.w), {t.name})
    ensures Followed(fleet.isIP, mc.name, mc.spec, e, t, Load(old(fleet.w)), Load(fleet.w), err)
    ensures mc.status == old(mc.status).(clusters := mc.status.clusters)
    ensures Shows(mc, cs, ev.(standbys := ev.standbys[t.name := err]), Stamp(mc.generation, now))
  {
    hide Marked, Followed;
    ghost var k :| 0 <= k < |mc.spec.clusters| && mc.spec.clusters[k] == t;
    err := ReconcileStandby(fleet, mc.name, mc.spec, e, t);
    MarkStandby(cs, mc.spec.clusters, k, ev, err, Stamp(mc.generation, now));
    if err.Some? {
      mc.SetClusterReady(t.name, False, "ZalandoApplyFailed", err.value, now);
    } else {
      mc.SetClusterReady(t.name, True, "ReconcileSuccess", "", now);
    }
  }

  /** Reconciles every standby; one standby's failure does not keep the next from being tried. */
  method FollowPrimary(fleet: Fleet, mc: PostgresMC, e: Endpoint, standbys: seq<Target>, ghost cs: seq<ClusterStatus>,
      ghost ev: Events, now: nat)
    returns (ghost outcomes: map<string, Option<string>>)
    requires fleet.Valid() && fleet.flight.Normal? && ServesAll(fleet, standbys) && DistinctNames(standbys)
    requires forall t :: t in standbys ==> t in mc.spec.clusters && t.role.Standby? && t.name !in ev.unreachable
    requires ev.standbys == map[] && Shows(mc, cs, ev, Stamp(mc.generation, now))
    modifies fleet, mc`status
    ensures fleet.Valid() && fleet.begun == old(fleet.begun)
    ensures fleet.faults >= old(fleet.faults)
    ensures fleet.faults == old(fleet.faults) && e.host != "" && !mc.spec.blob.Malformed? ==> NoErrors(outcomes)
    ensures fleet.flight == old(fleet.flight) && fleet.clients == old(fleet.clients)
    ensures fleet.w.status == old(fleet.w).status
    ensures FollowedAll(fleet.isIP, mc.name, mc.spec, e, standbys, outcomes, Load(old(fleet.w)), Load(fleet.w))
    ensures mc.status == old(mc.status).(clusters := mc.status.clusters)
    ensures Shows(mc, cs, ev.(standbys := outcomes), Stamp(mc.generation, now))
  {
    hide Marked, Followed, FollowedAll, Covers, UniqueNames;
    ghost var a := Load(fleet.w);
    outcomes := map[];
    assert ev.(standbys := outcomes) == ev;
    NoneFollowed(fleet.isIP, mc.name, mc.spec, e, standbys[..0], a);
    var k := 0;
    while k < |standbys|
      invariant 0 <= k <= |standbys| && fleet.Valid() && fleet.begun == old(fleet.begun)
      invariant fleet.flight == old(fleet.flight) && fleet.clients == old(fleet.clients)
      invariant fleet.w.status == old(fleet.w).status && fleet.w.sites.Keys == a.sites.Keys
      invariant FollowedAll(fleet.isIP, mc.name, mc.spec, e, standbys[..k], outcomes, a, Load(fleet.w))
      invariant mc.status == old(mc.status).(clusters := mc.status.clusters)
      invariant Shows(mc, cs, ev.(standbys := outcomes), Stamp(mc.generation, now))
      invariant fleet.faults >= old(fleet.faults)
      invariant fleet.faults == old(fleet.faults) && e.host != "" && !mc.spec.blob.Malformed? ==> NoErrors(outcomes)
    {
      var t := standbys[k];
      ghost var b := Load(fleet.w);
      NotYetFollowed(fleet.isIP, mc.name, mc.spec, e, standbys, k, outcomes, a, b);
      var err := FollowOne(fleet, mc, e, t, cs, ev.(standbys := outcomes), now);
      OneMoreFollowed(fleet.isIP, mc.name, mc.spec, e, standbys, k, outcomes, err, a, b, Load(fleet.w));
      outcomes := outcomes[t.name := err];
      k := k + 1;
    }
    assert standbys[..k] == standbys;
  }

  lemma {:induction false} NoneFollowed(isIP: string -> bool, mc: string, spec: Spec, e: Endpoint,
      standbys: seq<Target>, a: Workload)
    requires standbys == []
    ensures FollowedAll(isIP, mc, spec, e, standbys, map[], a, a)
  {}

  lemma {:induction false} NotYetFollowed(isIP: string -> bool, mc: string, spec: Spec, e: Endpoint,
      standbys: seq<Target>, k: nat, outcomes: map<string, Option<string>>, a: Workload, b: Workload)
    requires k < |standbys| && DistinctNames(standbys) && FollowedAll(isIP, mc, spec, e, standbys[..k], outcomes, a, b)
    ensures standbys[k].name !in outcomes
  {
    NotYetNamed(standbys, k);
  }
}
