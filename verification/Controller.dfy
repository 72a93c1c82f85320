// Reconcile: one pass of the controller over one resource.
module Controller {
  import opened Json
  import opened Api
  import opened Kube
  import opened Conditions
  import opened Machine
  import opened Remote
  import opened Resource
  import opened Replication
  import opened StatusWrites
  import opened Selection
  import opened Reconciling
  import opened NormalPass
  import opened AutoPromotion

  /** The workload between the steps of a normal pass, and whether every credential was copied. */
  datatype Trail = Trail(ensured: Workload, applied: Workload, synced: Workload, credentials: bool)

  ghost predicate Served(isIP: string -> bool, mc: string, spec: Spec, p: Target, e: Endpoint, standbys: seq<Target>,
      outcomes: map<string, Option<string>>, a: Workload, synced: Workload, credentials: bool, b: Workload)
  {
    && p.name in a.sites && synced.pg == a.pg && OnlySites(a, synced, TargetNames(standbys))
    && (forall i :: 0 <= i < |standbys| ==>
          CredentialedAt(mc, spec, SourcesOf(spec, p, a.sites[p.name]), standbys[i], a, synced, credentials))
    && FollowedAll(isIP, mc, spec, e, standbys, outcomes, synced, b)
  }

  /** What a normal pass did to the workload, from a to b, given what it saw. */
  ghost predicate NormalWork(isIP: string -> bool, mc: string, spec: Spec, cs: seq<ClusterStatus>, ev: Events,
      tr: Trail, a: Workload, b: Workload)
  {
    var cl := Reachable(spec.clusters, ev.unreachable);
    && (forall n :: n in ev.unreachable ==> Named(spec.clusters, n))
    && Ensured(mc, spec, cl, ev.endpoints, a, tr.ensured)
    && match PrimaryIn(cl) {
      case None => ev.primary.Absent? && ev.standbys == map[] && b == tr.ensured
      case Some(p) =>
        && !ev.primary.Absent? && AppliedOn(mc, spec, p, tr.ensured, tr.applied, ev.primary)
        && if ev.primary.Applied?
           then Served(isIP, mc, spec, p, Used(ev.endpoints, cs, p.name), StandbysOf(cl), ev.standbys,
                       tr.applied, tr.synced, tr.credentials, b)
           else ev.standbys == map[] && b == tr.applied
    }
  }

  /** The pass, from workload a, when no call reports an error: every address that is there is found, the primary is
      applied unless the blob does not parse, every credential is copied, and every standby reconciled
      once the primary has an address. */
  ghost predicate Smooth(mc: string, spec: Spec, cs: seq<ClusterStatus>, a: Workload, ev: Events, tr: Trail) {
    var cl := Reachable(spec.clusters, ev.unreachable);
    var p := PrimaryIn(cl);
    && AllFound(mc, spec, cl, ev.endpoints, a)
    && (ev.primary.ApplyFailed? ==> spec.blob.Malformed?)
    && (ev.primary.Applied? ==>
          && tr.credentials
          && (p.Some? && !spec.blob.Malformed? && Used(ev.endpoints, cs, p.value.name).host != "" ==>
                NoErrors(ev.standbys)))
  }

  /** Credentials first, then each standby. */
  method ServeStandbys(fleet: Fleet, mc: PostgresMC, p: Target, e: Endpoint, standbys: seq<Target>,
      ghost cs: seq<ClusterStatus>, ghost ev: Events, now: nat)
    returns (ghost outcomes: map<string, Option<string>>, ghost synced: Workload, ghost credentials: bool)
    requires fleet.Valid() && fleet.flight.Normal? && fleet.Serves(p.name) && ServesAll(fleet, standbys)
    requires DistinctNames(standbys) && !Named(standbys, p.name)
    requires forall t :: t in standbys ==> t in mc.spec.clusters && t.role.Standby? && t.name !in ev.unreachable
    requires ev.standbys == map[] && Shows(mc, cs, ev, Stamp(mc.generation, now))
    modifies fleet, mc`status
    ensures fleet.Valid() && fleet.begun == old(fleet.begun)
    ensures fleet.faults >= old(fleet.faults)
    ensures fleet.faults == old(fleet.faults) ==>
              credentials && (e.host != "" && !mc.spec.blob.Malformed? ==> NoErrors(outcomes))
    ensures fleet.flight == old(fleet.flight) && fleet.clients == old(fleet.clients)
    ensures fleet.w.status == old(fleet.w).status
    ensures Served(fleet.isIP, mc.name, mc.spec, p, e, standbys, outcomes,
                   Load(old(fleet.w)), synced, credentials, Load(fleet.w))
    ensures mc.status == old(mc.status).(clusters := mc.status.clusters)
    ensures Shows(mc, cs, ev.(standbys := outcomes), Stamp(mc.generation, now))
  {
    hide Marked, FollowedAll, CredentialedAt, SourcesOf, Shows;
    var err := ReconcileCredentials(fleet, mc.name, mc.spec, p, standbys);
    synced, credentials := Load(fleet.w), err.None?;
    outcomes := FollowPrimary(fleet, mc, e, standbys, cs, ev, now);
  }

  /** Everything a normal pass does between resolving its clusters and writing the status. */
  method Work(fleet: Fleet, mc: PostgresMC, clients: seq<Target>, ghost cs: seq<ClusterStatus>,
      ghost unreachable: map<string, string>, now: nat)
    returns (ghost ev: Events, ghost tr: Trail)
    requires fleet.Valid() && fleet.flight.Normal? && fleet.flight.copy == mc.spec
    requires ValidClusters(mc.spec.clusters) && ServesAll(fleet, clients)
    requires clients == Reachable(mc.spec.clusters, unreachable)
    requires forall n :: n in unreachable ==> Named(mc.spec.clusters, n)
    requires Shows(mc, cs, Resolving(unreachable), Stamp(mc.generation, now))
    modifies fleet, mc`status
    ensures fleet.Valid() && fleet.begun == old(fleet.begun)
    ensures fleet.faults >= old(fleet.faults)
    ensures fleet.faults == old(fleet.faults) ==> Smooth(mc.name, mc.spec, cs, Load(old(fleet.w)), ev, tr)
    ensures fleet.flight == old(fleet.flight) && fleet.clients == old(fleet.clients)
    ensures fleet.w.status == old(fleet.w).status
    ensures ev.unreachable == unreachable
    ensures NormalWork(fleet.isIP, mc.name, mc.spec, cs, ev, tr, Load(old(fleet.w)), Load(fleet.w))
    ensures mc.status == old(mc.status).(clusters := mc.status.clusters)
    ensures Shows(mc, cs, ev, Stamp(mc.generation, now))
  {
    hide Shows, Ensured, AppliedOn, Served, Tabulated, ValidClusters, Reachable, PrimaryIn, StandbysOf, Used,
        AddressIn, DistinctNames, AllFound;
    ghost var s := Stamp(mc.generation, now);
    SelectionOf(mc.spec.clusters, unreachable);
    ReachableIs(mc.spec.clusters, unreachable);
    var primary, standbys := SplitByRole(clients);
    SplitIs(clients);
    ServesSome(fleet, clients, standbys);
    ServesSome(fleet, clients, clients);
    var table: map<string, Endpoint>;
    ghost var found;
    table, found := EnsureReplication(fleet, mc, clients, cs, unreachable, s);
    ev, tr := Looked(unreachable, found), Trail(Load(fleet.w), Load(fleet.w), Load(fleet.w), false);
    if primary.None? {
      return;
    }
    var p := primary.value;
    var e := AddressIn(table, p.name);
    EntryIsUsed(table, found, cs, clients, p);
    var ready: bool;
    ghost var outcome;
    ready, outcome := ApplyPrimary(fleet, mc, p, cs, ev, now);
    ev, tr := ev.(primary := outcome), tr.(applied := Load(fleet.w));
    if ready && |standbys| == 0 {
      NobodyServed(fleet.isIP, mc.name, mc.spec, p, e, standbys, Load(fleet.w));
      tr := tr.(synced := Load(fleet.w), credentials := true);
    } else if ready {
      ghost var outcomes, synced, credentials;
      outcomes, synced, credentials := ServeStandbys(fleet, mc, p, e, standbys, cs, ev, now);
      ev, tr := ev.(standbys := outcomes), tr.(synced := synced, credentials := credentials);
    }
  }

  lemma {:induction false} ServesSome(fleet: Fleet, ts: seq<Target>, some: seq<Target>)
    requires ServesAll(fleet, ts) && forall t :: t in some ==> t in ts
    ensures ServesAll(fleet, some) && forall t :: t in some ==> fleet.Serves(t.name)
  {
    forall t | t in some ensures fleet.Serves(t.name) {
      var k :| 0 <= k < |ts| && ts[k] == t;
    }
  }

  /** Without standbys the credentials are not even looked at. */
  lemma {:induction false} NobodyServed(isIP: string -> bool, mc: string, spec: Spec, p: Target, e: Endpoint,
      standbys: seq<Target>, a: Workload)
    requires standbys == [] && p.name in a.sites
    ensures Served(isIP, mc, spec, p, e, standbys, map[], a, a, true, a)
  {}

  lemma {:induction false} EntryIsUsed(table: map<string, Endpoint>, found: map<string, Endpoint>,
      cs: seq<ClusterStatus>, cl: seq<Target>, p: Target)
    requires Tabulated(table, found, cs, cl) && p in cl
    ensures AddressIn(table, p.name) == Used(found, cs, p.name)
  {
    var k :| 0 <= k < |cl| && cl[k] == p;
  }

  // ---------- automatic failover ----------

  /** The store's status is the new one, or still the old one if the write reported an error. */
  predicate Written(was: Status, wanted: Status, now: Status, err: Option<string>) {
    now == wanted || (err.Some? && now == was)
  }

  /** The spec was rewritten, in some state that followed, to make n the primary. */
  ghost predicate RewrittenTo(before: seq<View>, after: seq<View>, ts: seq<Target>, n: string) {
    exists i :: |before| <= i < |after| && after[i].w.spec.clusters == Promote(ts, n)
  }

  /** A pass that met the threshold leaves the workload and the recorded primary alone. With a standby
      that has a client it rewrites the roles for the first such one and resets the count; without
      one it stores the count. */
  ghost predicate AutoPassed(w: World, w': World, before: seq<View>, after: seq<View>, ts: seq<Target>,
      unreachable: map<string, string>, count: int, s: Stamp, err: Option<string>)
  {
    var cl := Reachable(ts, unreachable);
    var i := FirstStandby(cl);
    && Load(w') == Load(w)
    && if i == |cl| then w'.status in {w.status, AutoStatus(w.status, ts, unreachable, count, s)}
       else
         && (err.None? ==> RewrittenTo(before, after, ts, cl[i].name))
         && (err.Some? ==> w'.status == w.status)
         && w'.status in {w.status, AutoStatus(w.status, ts, unreachable, 0, s)}
  }

  /** The status of a pass that automatic failover took over, once written. */
  function TakenOver(st: Status, ts: seq<Target>, unreachable: map<string, string>, count: int, s: Stamp): Status {
    var cl := Reachable(ts, unreachable);
    AutoStatus(st, ts, unreachable, if FirstStandby(cl) == |cl| then count else 0, s)
  }

  method RunAutoFailover(fleet: Fleet, mc: PostgresMC, stored: Status, clients: seq<Target>,
      ghost unreachable: map<string, string>, ghost s: Stamp)
    returns (err: Option<string>)
    requires fleet.Valid() && fleet.w.status == stored && ValidClusters(mc.spec.clusters)
    requires clients == Reachable(mc.spec.clusters, unreachable) && PrimaryName(mc.spec.clusters) in unreachable
    requires var count := mc.status.failureCount;
      fleet.flight == Normal(mc.spec, Some(count)) && Fires(mc.spec.auto, count)
      && mc.status == AutoStatus(stored, mc.spec.clusters, unreachable, count, s)
    modifies fleet, mc`status
    ensures fleet.Valid() && fleet.begun == old(fleet.begun)
    ensures fleet.flight.Idle? && fleet.clients == old(fleet.clients)
    ensures fleet.faults >= old(fleet.faults)
    ensures fleet.faults == old(fleet.faults) ==>
              && err.None?
              && fleet.w.status ==
                 TakenOver(stored, mc.spec.clusters, unreachable, old(mc.status).failureCount, s)
    ensures AutoPassed(old(fleet.w), fleet.w, fleet.begun, fleet.trace, mc.spec.clusters, unreachable,
                       old(mc.status).failureCount, s, err)
  {
    hide AutoStatus, StatusOk, Reachable;
    ghost var ts, count := mc.spec.clusters, mc.status.failureCount;
    AutoStatusIs(stored, ts, unreachable, count, s);
    var name := PickStandby(clients);
    if name.None? {
      var ignored := fleet.PatchStatusAndEnd(stored, mc.status);
      return None;
    }
    ReachableIs(ts, unreachable);
    ChosenIsNamed(ts, clients, FirstStandby(clients));
    var roles := RewriteRoles(mc.spec.clusters, name.value);
    ghost var before := fleet.trace;
    err := fleet.PatchRoles(name.value, roles);
    ghost var between := fleet.trace;
    if err.Some? {
      fleet.End();
      return;
    }
    mc.status := mc.status.(failureCount := 0);
    AutoStatusIs(stored, ts, unreachable, 0, s);
    var ignored := fleet.PatchStatusAndEnd(stored, mc.status);
    assert fleet.trace[|before|] == between[|before|];
    assert RewrittenTo(fleet.begun, fleet.trace, ts, name.value);
  }

  lemma {:induction false} AutoStatusIs(st: Status, ts: seq<Target>, unreachable: map<string, string>, count: int,
      s: Stamp)
    requires DistinctNames(ts)
    ensures var auto := AutoStatus(st, ts, unreachable, count, s);
      && MergeStatus(st, st, auto) == auto && auto.currentPrimary == st.currentPrimary && auto.failureCount == count
      && (StatusOk(st) ==> StatusOk(auto))
      && forall other :: AutoStatus(st, ts, unreachable, other, s) == auto.(failureCount := other)
  {
    hide Marked, WithRoles;
    if StatusOk(st) { PassesKeepStatusOk(st, ts, Resolving(unreachable), count, s); }
  }

  lemma {:induction false} ChosenIsNamed(ts: seq<Target>, cl: seq<Target>, i: nat)
    requires ValidClusters(ts) && (forall t :: t in cl ==> t in ts) && i < |cl| && cl[i].role.Standby?
    ensures Named(ts, cl[i].name) && cl[i].name != PrimaryName(ts)
  {
    var t := cl[i];
    assert t in cl;
    var k :| 0 <= k < |ts| && ts[k] == t;
    PrimaryByName(ts, k);
  }

  // ---------- a normal pass ----------

  /** How a normal pass ends: the workload as its steps left it, and a status that follows from what
      the pass saw. */
  ghost predicate NormalPassed(isIP: string -> bool, mc: string, spec: Spec, w: World, w': World, s: Stamp, ev: Events,
      tr: Trail, err: Option<string>)
  {
    var ts := spec.clusters;
    var count := CountAfter(w.status.failureCount, PrimaryName(ts) in ev.unreachable);
    && NormalWork(isIP, mc, spec, WithRoles(w.status.clusters, ts), ev, tr, Load(w), Load(w'))
    && Written(w.status, NormalStatus(w.status, ts, ev, count, s), w'.status, err)
  }

  lemma {:induction false} RolesCover(st: Status, ts: seq<Target>)
    requires StatusOk(st) && DistinctNames(ts)
    ensures UniqueNames(WithRoles(st.clusters, ts)) && Covers(WithRoles(st.clusters, ts), ts)
  {
    var cs := st.clusters;
    RolesKeepShape(cs, ts);
    forall k | 0 <= k < |ts| ensures EntryOf(WithRoles(cs, ts), ts[k].name) < |WithRoles(cs, ts)| {
      RolesAreComplete(cs, ts, k);
    }
  }

  lemma {:induction false} CountIsNatural(fleet: Fleet)
    requires fleet.Valid()
    ensures fleet.w.status.failureCount >= 0
  {
    RunIsSafe(fleet.trace, |fleet.trace| - 1);
  }

  lemma {:induction false} NormalStatusIs(st: Status, ts: seq<Target>, ev: Events, count: int, s: Stamp)
    requires DistinctNames(ts)
    ensures var to := NormalStatus(st, ts, ev, count, s);
      && MergeStatus(st, st, to) == to && to.currentPrimary == PrimaryName(ts) && to.failureCount == count
      && (StatusOk(st) ==> StatusOk(to))
  {
    hide Marked, WithRoles;
    if StatusOk(st) { PassesKeepStatusOk(st, ts, ev, count, s); }
  }

  /** Rolls the clusters up into the phase and the Ready condition. */
  method Conclude(mc: PostgresMC, ghost stored: Status, ghost ev: Events, unreachable: bool, now: nat)
    requires unreachable <==> ev.unreachable != map[]
    requires mc.status == stored.(failureCount := mc.status.failureCount,
               clusters := Marked(WithRoles(stored.clusters, mc.spec.clusters), mc.spec.clusters, ev,
                                  Stamp(mc.generation, now)))
    modifies mc`status
    ensures mc.status ==
            NormalStatus(stored, mc.spec.clusters, ev, old(mc.status).failureCount, Stamp(mc.generation, now))
    ensures IsTrue(mc.status.conditions, READY) <==> mc.status.phase.Ready?
    ensures TopTells(mc.status, ev, Stamp(mc.generation, now))
  {
    NormalStatusTells(stored, mc.spec.clusters, ev, mc.status.failureCount, Stamp(mc.generation, now));
    hide Marked, WithRoles;
    var primary := PrimaryClusterName(mc.spec.clusters);
    var phase := Aggregate(mc.status.clusters, false);
    mc.status := mc.status.(currentPrimary := primary, observedGeneration := mc.generation, phase := phase);
    var truth, reason := False, "PrimaryNotReady";
    if phase.Ready? {
      truth, reason := True, "ReconcileSuccess";
    }
    if unreachable {
      mc.status := mc.status.(phase := Degraded);
      truth, reason := False, "ClusterUnreachable";
    }
    mc.SetTopCondition(READY, truth, reason, "", now);
  }

  /** The failure counter, and whether automatic failover takes over the pass. */
  method CountFailure(mc: PostgresMC, down: bool) returns (fires: bool)
    requires mc.status.failureCount >= 0
    modifies mc`status
    ensures mc.status == old(mc.status).(failureCount := CountAfter(old(mc.status).failureCount, down))
    ensures fires <==> down && Fires(mc.spec.auto, mc.status.failureCount)
    ensures var a := mc.spec.auto;
      fires <==> down && a.enabled && mc.status.failureCount >= if a.threshold == 0 then 3 else a.threshold
  {
    fires := false;
    if down {
      mc.status := mc.status.(failureCount := mc.status.failureCount + 1);
      var threshold := mc.spec.auto.threshold;
      if threshold == 0 {
        threshold := 3;
      }
      fires := mc.spec.auto.enabled && mc.status.failureCount >= threshold;
    } else {
      mc.status := mc.status.(failureCount := 0);
    }
  }

  lemma {:induction false} ClientsServe(fleet: Fleet, ts: seq<Target>, clients: seq<Target>,
      unreachable: map<string, string>)
    requires HasSites(fleet.w, ts) && clients == Reachable(ts, unreachable)
    requires fleet.clients.held == TargetNames(ts) - unreachable.Keys
    ensures ServesAll(fleet, clients)
  {
    ReachableIs(ts, unreachable);
    hide Reachable;
    forall i | 0 <= i < |clients| ensures fleet.Serves(clients[i].name) {
      var t := clients[i];
      assert t in clients;
      var k :| 0 <= k < |ts| && ts[k] == t;
    }
  }

  /** Rolls up and writes the status of a normal pass, which ends it. */
  method Publish(fleet: Fleet, mc: PostgresMC, stored: Status, ghost ev: Events, unreachable: bool, now: nat)
    returns (err: Option<string>)
    requires fleet.Valid() && fleet.w.status == stored && DistinctNames(mc.spec.clusters)
    requires fleet.flight == Normal(mc.spec, Some(mc.status.failureCount)) && (unreachable <==> ev.unreachable != map[])
    requires mc.status == stored.(failureCount := mc.status.failureCount,
               clusters := Marked(WithRoles(stored.clusters, mc.spec.clusters), mc.spec.clusters, ev,
                                  Stamp(mc.generation, now)))
    modifies fleet, mc`status
    ensures fleet.Valid() && fleet.begun == old(fleet.begun)
    ensures fleet.flight.Idle? && fleet.clients == old(fleet.clients)
    ensures fleet.w == old(fleet.w).(spec := fleet.w.spec, generation := fleet.w.generation, status := fleet.w.status)
    ensures fleet.faults >= old(fleet.faults) && (err.Some? ==> fleet.faults > old(fleet.faults))
    ensures var count, s := old(mc.status).failureCount, Stamp(mc.generation, now);
      && Written(stored, NormalStatus(stored, mc.spec.clusters, ev, count, s), fleet.w.status, err)
      && (err.None? ==> TopTells(fleet.w.status, ev, s))
  {
    hide NormalStatus, StatusOk, PrimaryName, TopTells, IsTrue, Marked, WithRoles;
    NormalStatusIs(stored, mc.spec.clusters, ev, mc.status.failureCount, Stamp(mc.generation, now));
    Conclude(mc, stored, ev, unreachable, now);
    err := fleet.PatchStatusAndEnd(stored, mc.status);
  }

  method RunNormal(fleet: Fleet, mc: PostgresMC, stored: Status, now: nat)
    returns (err: Option<string>, ghost ev: Events, ghost tr: Trail)
    requires fleet.Valid() && fleet.flight == Normal(mc.spec, None) && fleet.w.status == stored
    requires ValidClusters(mc.spec.clusters) && HasSites(fleet.w, mc.spec.clusters) && fleet.clients == NO_CLIENTS
    requires mc.status == stored.(clusters := WithRoles(stored.clusters, mc.spec.clusters))
    modifies fleet, mc`status
    ensures fleet.Valid() && fleet.begun == old(fleet.begun) && fleet.flight.Idle?
    ensures ev.unreachable.Keys == fleet.clients.lost
    ensures var w, w', ts, s := old(fleet.w), fleet.w, mc.spec.clusters, Stamp(mc.generation, now);
      var down := PrimaryName(ts) in ev.unreachable;
      var count := CountAfter(w.status.failureCount, down);
      if down && Fires(mc.spec.auto, count)
      then AutoPassed(w, w', fleet.begun, fleet.trace, ts, ev.unreachable, count, s, err)
      else
        && NormalPassed(fleet.isIP, mc.name, mc.spec, w, w', s, ev, tr, err)
        && (err.None? ==> TopTells(w'.status, ev, s))
    ensures fleet.faults >= old(fleet.faults)
    ensures fleet.faults == old(fleet.faults) ==> err.None?
    ensures var w, ts := old(fleet.w), mc.spec.clusters;
      var count := CountAfter(w.status.failureCount, PrimaryName(ts) in ev.unreachable);
      fleet.faults == old(fleet.faults) ==>
        if PrimaryName(ts) in ev.unreachable && Fires(mc.spec.auto, count)
        then fleet.w.status == TakenOver(stored, ts, ev.unreachable, count, Stamp(mc.generation, now))
        else Smooth(mc.name, mc.spec, WithRoles(w.status.clusters, ts), Load(w), ev, tr)
  {
    hide NormalWork, WithRoles, Marked, StatusOk, Reachable, PrimaryName, Fires, Smooth, TakenOver, TopTells,
        NormalStatus, IsTrue;
    ghost var ts, s, cs := mc.spec.clusters, Stamp(mc.generation, now), mc.status.clusters;
    RolesCover(stored, ts);
    CountIsNatural(fleet);
    var clients, unreachable, down := ResolveClients(fleet, mc, now);
    ev, tr := Resolving(unreachable), Trail(Load(fleet.w), Load(fleet.w), Load(fleet.w), false);
    ClientsServe(fleet, ts, clients, unreachable);
    fleet.Counted(down);
    var fires := CountFailure(mc, down);
    if fires {
      err := RunAutoFailover(fleet, mc, stored, clients, unreachable, s);
      return;
    }
    ev, tr := Work(fleet, mc, clients, cs, unreachable, now);
    err := Publish(fleet, mc, stored, ev, unreachable != map[], now);
  }
}
