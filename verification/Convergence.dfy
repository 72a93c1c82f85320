// A quiet system, in which nobody edits the spec, every cluster has a client and no call reports an error,
// settles: after one failover, if one is due, and one normal pass, further calls change nothing.
module Convergence {
  import opened Json
  import opened Api
  import opened Kube
  import opened Builder
  import opened Conditions
  import opened Machine
  import opened CrossCluster
  import opened Replication
  import opened StatusWrites
  import opened Selection
  import opened Reconciling
  import opened NormalPass
  import opened Controller
  import opened CredentialFlow
  import opened Failover
  import opened FailoverPass
  import opened Operator
  import opened Readiness
  import opened Topology
  import opened Steady
  import opened Calls

  /** What the clusters have to offer for a pass to succeed: an address for each, and the primary's credentials. */
  ghost predicate Provided(mc: string, spec: Spec, p: Target, a: Workload) {
    && ValidClusters(spec.clusters) && p in spec.clusters && p.role.Primary? && !spec.blob.Malformed?
    && (forall t :: t in spec.clusters ==> t.name in a.sites && FoundAt(mc, spec, t, a).Ok?)
    && HasCredentials(a.sites[p.name].secrets, ClusterName(spec.teamId, p.name))
  }

  /** Every cluster had a client, and no call reported an error. */
  ghost predicate Quiet(isIP: string -> bool, c: Call) {
    Happened(isIP, c) && GotThrough(c.w, c.w', c.now, c.r) && c.lost == {}
  }

  /** Call d reads what call c left, and the spec is the same. */
  predicate Next(c: Call, d: Call) {
    && Load(d.w) == Load(c.w') && d.w.status == c.w'.status
    && d.w.spec == c.w.spec && d.w.name == c.w.name && d.w.generation == c.w.generation
  }

  // ---------- a normal pass ----------

  lemma {:induction false} PrimaryIsUp(mc: string, spec: Spec, cs: seq<ClusterStatus>, ev: Events, tr: Trail, p: Target,
      a: Workload)
    requires Provided(mc, spec, p, a) && Smooth(mc, spec, cs, a, ev, tr) && ev.unreachable == map[]
    requires Ensured(mc, spec, Reachable(spec.clusters, map[]), ev.endpoints, a, tr.ensured)
    requires !ev.primary.Absent? && AppliedOn(mc, spec, p, tr.ensured, tr.applied, ev.primary)
    ensures ev.primary.Applied? && forall t :: t in spec.clusters ==> t.name in ev.endpoints
    ensures Used(ev.endpoints, cs, p.name).host != ""
  {
    hide Replicated, Address, HasCredentials, BuildPrimary, Reachable;
    var ts := spec.clusters;
    ReachableIs(ts, map[]);
    var cl := Reachable(ts, map[]);
    forall t | t in ts ensures t.name in ev.endpoints && EnsuredAt(mc, spec, t, ev.endpoints, a, tr.ensured) {
      assert t in cl;
      var i :| 0 <= i < |cl| && cl[i] == t;
      assert EnsuredAt(mc, spec, cl[i], ev.endpoints, a, tr.ensured);
    }
    ServiceStaysReplicated(mc, spec, p, a.sites[p.name]);
    AddressHasHost(mc, spec, p, Replicated(mc, spec, p, a.sites[p.name]));
  }

  lemma {:induction false} AddressHasHost(mc: string, spec: Spec, t: Target, site: Site)
    ensures Address(mc, spec, t, site).Ok? ==> Address(mc, spec, t, site).value.host != ""
  {}

  /** With everything provided and every cluster reached, a pass without errors is clean. */
  lemma {:induction false} SmoothIsClean(isIP: string -> bool, mc: string, spec: Spec, cs: seq<ClusterStatus>,
      ev: Events, tr: Trail, p: Target, a: Workload, b: Workload)
    requires Provided(mc, spec, p, a) && Smooth(mc, spec, cs, a, ev, tr) && ev.unreachable == map[]
    requires NormalWork(isIP, mc, spec, cs, ev, tr, a, b)
    ensures Clean(spec.clusters, ev, tr)
  {
    PassSelection(spec.clusters, ev.unreachable, p, p);
    hide Ensured, AppliedOn, Served, Reachable, PrimaryIn, StandbysOf, Used;
    assert Reachable(spec.clusters, ev.unreachable) == Reachable(spec.clusters, map[]);
    PrimaryIsUp(mc, spec, cs, ev, tr, p, a);
  }

  /** A quiet call with everything provided, no failover being due, is a clean normal pass, and its status is
      written. */
  lemma {:induction false} QuietCallIsClean(isIP: string -> bool, c: Call, p: Target)
    requires Quiet(isIP, c) && Provided(c.w.name, c.w.spec, p, Load(c.w)) && StatusOk(c.w.status)
    requires !CallsForFailover(c.w)
    ensures c.r.Steady? && c.r.error.None? && Clean(c.w.spec.clusters, c.r.ev, c.r.tr)
    ensures NormalPassed(isIP, c.w.name, c.w.spec, c.w, c.w', Stamp(c.w.generation, c.now), c.r.ev, c.r.tr, None)
    ensures c.w'.status == NormalStatus(c.w.status, c.w.spec.clusters, c.r.ev, 0, Stamp(c.w.generation, c.now))
    ensures CleanRun(isIP, c.w.name, c.w.spec, p, Load(c.w), Load(c.w'))
    ensures StatusOk(c.w'.status) && c.w'.status.currentPrimary == PrimaryName(c.w.spec.clusters)
  {
    hide NormalWork, Smooth, WithRoles, Marked, StatusOk, Provided, CleanRun, Clean, NormalStatus, TakenOver;
    var ts, s := c.w.spec.clusters, Stamp(c.w.generation, c.now);
    assert ValidClusters(ts) by { ProvidedIsValid(c.w.name, c.w.spec, p, Load(c.w)); }
    assert c.r.Steady?;
    var cs := WithRoles(c.w.status.clusters, ts);
    assert c.r.ev.unreachable == map[];
    SmoothIsClean(isIP, c.w.name, c.w.spec, cs, c.r.ev, c.r.tr, p, Load(c.w), Load(c.w'));
    ProvidedIsValid(c.w.name, c.w.spec, p, Load(c.w));
    CleanPassIsAFunction(isIP, c.w.name, c.w.spec, cs, c.r.ev, c.r.tr, Load(c.w), Load(c.w'), p);
    NormalStatusIs(c.w.status, ts, c.r.ev, 0, s);
  }

  lemma {:induction false} ProvidedIsValid(mc: string, spec: Spec, p: Target, a: Workload)
    requires Provided(mc, spec, p, a)
    ensures ValidClusters(spec.clusters) && p in spec.clusters && p.role.Primary?
  {}

  /** A clean pass leaves everything provided. */
  lemma {:induction false} CleanRunKeepsProvided(isIP: string -> bool, mc: string, spec: Spec, p: Target, a: Workload,
      b: Workload)
    requires Provided(mc, spec, p, a) && CleanRun(isIP, mc, spec, p, a, b)
    ensures Provided(mc, spec, p, b)
  {
    hide Address, Replicated, HasCredentials;
    forall t | t in spec.clusters ensures t.name in b.sites && FoundAt(mc, spec, t, b) == FoundAt(mc, spec, t, a) {
      assert CleanAt(isIP, mc, spec, p, t, a, b);
      if t.name == p.name { SameName(spec.clusters, p, t); }
      CleanTwice(isIP, mc, spec, p, a.sites[p.name], t, a.sites[t.name]);
    }
    assert CleanAt(isIP, mc, spec, p, p, a, b);
    ServiceStaysReplicated(mc, spec, p, a.sites[p.name]);
  }

  /** Quiet calls, from a state where no failover is due. */
  ghost predicate QuietSeries(isIP: string -> bool, cs: seq<Call>, p: Target) {
    && cs != [] && (forall i :: 0 <= i < |cs| ==> Quiet(isIP, cs[i]))
    && (forall i :: 0 <= i < |cs| - 1 ==> Next(cs[i], cs[i + 1]))
    && StatusOk(cs[0].w.status) && Provided(cs[0].w.name, cs[0].w.spec, p, Load(cs[0].w))
  }

  lemma {:induction false} StaysProvided(isIP: string -> bool, cs: seq<Call>, p: Target, i: nat)
    requires QuietSeries(isIP, cs, p) && !CallsForFailover(cs[0].w) && i < |cs|
    ensures StatusOk(cs[i].w.status) && Provided(cs[i].w.name, cs[i].w.spec, p, Load(cs[i].w))
    ensures !CallsForFailover(cs[i].w)
    ensures cs[i].w.spec == cs[0].w.spec && cs[i].w.name == cs[0].w.name && cs[i].w.generation == cs[0].w.generation
  {
    hide Quiet, StatusOk, Provided, CleanRun, Clean, NormalPassed, NormalStatus;
    if i > 0 {
      StaysProvided(isIP, cs, p, i - 1);
      var c := cs[i - 1];
      assert Next(c, cs[i - 1 + 1]);
      QuietCallIsClean(isIP, c, p);
      CleanRunKeepsProvided(isIP, c.w.name, c.w.spec, p, Load(c.w), Load(c.w'));
    }
  }

  /** Main result on convergence: with everything provided and no failover due, the first quiet call is a clean
      pass, and every later one, whenever it comes, leaves workload and status exactly as that one did. */
  lemma {:induction false} QuietCallsConverge(isIP: string -> bool, cs: seq<Call>, p: Target, i: nat)
    requires QuietSeries(isIP, cs, p) && !CallsForFailover(cs[0].w) && i < |cs|
    ensures CleanRun(isIP, cs[0].w.name, cs[0].w.spec, p, Load(cs[0].w), Load(cs[0].w'))
    ensures Load(cs[i].w') == Load(cs[0].w') && cs[i].w'.status == cs[0].w'.status
    ensures cs[0].w'.status.currentPrimary == PrimaryName(cs[0].w.spec.clusters)
  {
    hide Quiet, StatusOk, Provided, CleanRun, Clean, NormalPassed, NormalStatus;
    StaysProvided(isIP, cs, p, 0);
    QuietCallIsClean(isIP, cs[0], p);
    if i > 0 {
      QuietCallsConverge(isIP, cs, p, i - 1);
      StaysProvided(isIP, cs, p, i - 1);
      StaysProvided(isIP, cs, p, i);
      var c, d := cs[i - 1], cs[i];
      assert Next(c, cs[i - 1 + 1]);
      QuietCallIsClean(isIP, c, p);
      QuietCallIsClean(isIP, d, p);
      ProvidedIsValid(c.w.name, c.w.spec, p, Load(c.w));
      SteadyStateIsAFixpoint(isIP, c.w.name, c.w.spec, p, c.w, c.w', Stamp(c.w.generation, c.now), c.r.ev, c.r.tr,
                             d.w, d.w', Stamp(d.w.generation, d.now), d.r.ev, d.r.tr, None);
    }
  }

  /** A quiet call ends Ready exactly when the entries left over from an older spec were. */
  lemma {:induction false} QuietCallIsReady(isIP: string -> bool, c: Call, p: Target)
    requires Quiet(isIP, c) && Provided(c.w.name, c.w.spec, p, Load(c.w)) && StatusOk(c.w.status)
    requires !CallsForFailover(c.w)
    ensures c.w'.status.phase.Ready? <==>
            forall i :: 0 <= i < |c.w.status.clusters| ==> LeftoverReady(c.w.status.clusters, c.w.spec.clusters, i)
    ensures IsTrue(c.w'.status.conditions, READY) <==> c.w'.status.phase.Ready?
  {
    hide StatusOk, WithRoles, Marked, LeftoverReady, NormalWork, CleanRun, NormalStatus, Quiet;
    QuietCallIsClean(isIP, c, p);
    WorkIsCoherent(isIP, c.w.name, c.w.spec, WithRoles(c.w.status.clusters, c.w.spec.clusters), c.r.ev, c.r.tr,
                   Load(c.w), Load(c.w'));
    NormalStatusTells(c.w.status, c.w.spec.clusters, c.r.ev, 0, Stamp(c.w.generation, c.now));
    ReadyIsEarned(c.w.status, c.w.spec.clusters, c.r.ev, 0, Stamp(c.w.generation, c.now));
  }

  /** What they settle on: a star around the spec's primary and nothing else writable, unless an alias of the other
      kind stood in the way; and phase Ready exactly when the entries left over from an older spec were. */
  lemma {:induction false} QuietCallEndsInAStar(isIP: string -> bool, c: Call, p: Target)
    requires Quiet(isIP, c) && Provided(c.w.name, c.w.spec, p, Load(c.w)) && StatusOk(c.w.status)
    requires !CallsForFailover(c.w) && AtMostOneWriter(c.w')
    requires var e := SteadyAddress(c.w.name, c.w.spec, p, c.w.sites[p.name]);
      AliasesFit(isIP, c.w.name, c.w.spec.clusters, p, e.host, Load(c.w))
    ensures Star(c.w.name, c.w.spec.clusters, p, Load(c.w'), SteadyAddress(c.w.name, c.w.spec, p, c.w.sites[p.name]))
    ensures forall n :: WriterAt(c.w', n) <==> n == p.name
    ensures forall t :: t in c.w.spec.clusters ==>
              t.name in c.w'.pg && Describes(c.w'.pg[t.name], c.w.name, c.w.spec, t)
    ensures c.w'.status.phase.Ready? <==>
            forall i :: 0 <= i < |c.w.status.clusters| ==> LeftoverReady(c.w.status.clusters, c.w.spec.clusters, i)
  {
    hide StatusOk, WithRoles, Marked, Star, AliasesFit, LeftoverReady, NormalWork, CleanRun, Replicated, Address,
        Describes;
    var ts, s, ev, tr := c.w.spec.clusters, Stamp(c.w.generation, c.now), c.r.ev, c.r.tr;
    QuietCallIsClean(isIP, c, p);
    QuietCallIsReady(isIP, c, p);
    var cs := WithRoles(c.w.status.clusters, ts);
    CleanPassIsAFunction(isIP, c.w.name, c.w.spec, cs, ev, tr, Load(c.w), Load(c.w'), p);
    WorkLeavesAStar(isIP, c.w.name, c.w.spec, cs, ev, tr, Load(c.w), Load(c.w'), p);
    StarHasOneWriter(c.w.name, ts, p, c.w', SteadyAddress(c.w.name, c.w.spec, p, c.w.sites[p.name]));
  }

  /** And every standby ends with its own Secret of either role, holding the primary's data. */
  lemma {:induction false} QuietCallCopiesCredentials(isIP: string -> bool, c: Call, p: Target, t: Target, role: string)
    requires Quiet(isIP, c) && Provided(c.w.name, c.w.spec, p, Load(c.w)) && StatusOk(c.w.status)
    requires !CallsForFailover(c.w) && t in c.w.spec.clusters && t.role.Standby? && role in {"postgres", "standby"}
    ensures p.name in c.w.sites && t.name in c.w'.sites
    ensures var from, to := CredentialOf(role, c.w.spec.teamId, p.name), CredentialOf(role, c.w.spec.teamId, t.name);
      && from in c.w.sites[p.name].secrets && to in c.w'.sites[t.name].secrets
      && c.w'.sites[t.name].secrets[to].data == c.w.sites[p.name].secrets[from].data
  {
    hide StatusOk, WithRoles, NormalWork, CleanRun, NormalStatus, Quiet, CredentialOf, AllUp;
    QuietCallIsClean(isIP, c, p);
    assert AllUp(c.r.ev);
    UpMeansApplied(c.r.ev);
    BothArrive(isIP, c.w.name, c.w.spec, WithRoles(c.w.status.clusters, c.w.spec.clusters), c.r.ev, c.r.tr,
               Load(c.w), Load(c.w'), p, t, role);
  }

  lemma {:induction false} UpMeansApplied(ev: Events)
    requires AllUp(ev)
    ensures ev.primary.Applied? && ev.unreachable == map[]
  {}

  lemma {:induction false} StarHasOneWriter(mc: string, ts: seq<Target>, p: Target, w: World, e: Endpoint)
    requires Star(mc, ts, p, Load(w), e) && AtMostOneWriter(w)
    ensures forall n :: WriterAt(w, n) <==> n == p.name
  {
    assert WriterAt(w, p.name);
  }

  // ---------- a failover before it ----------

  lemma {:induction false} AliasKeepsTheAddress(ip: bool, site: Site, name: string, host: string, port: Int32,
      mc: string, spec: Spec, t: Target)
    requires name == mc
    ensures var after := AliasEnsured(ip, site, name, host, port);
      && Address(mc, spec, t, Replicated(mc, spec, t, after)) == Address(mc, spec, t, Replicated(mc, spec, t, site))
      && after.secrets == site.secrets
  {
    AliasMovesOnlyItself(ip, site, name, host, port);
    hide AliasEnsured, NodePortOf;
  }

  lemma {:induction false} AliasMovesOnlyItself(ip: bool, site: Site, mc: string, host: string, port: Int32)
    ensures var after, n := AliasEnsured(ip, site, mc, host, port), ServiceName(mc);
      && after.secrets == site.secrets && after.nodes == site.nodes
      && (n in after.services <==> n in site.services)
      && (n in site.services ==> after.services[n] == site.services[n])
  {
    assert |AliasName(mc)| == |mc| + 8 && |ServiceName(mc)| == |mc| + 12;
  }

  /** A whole failover run leaves everything provided. */
  lemma {:induction false} RunKeepsProvided(isIP: string -> bool, mc: string, spec: Spec, p: Target, plan: Plan,
      w: World, w': World, anew: bool)
    requires Provided(mc, spec, p, Load(w)) && plan.mc == mc && !plan.spec.blob.Malformed?
    requires FullRun(isIP, plan, w, w', anew)
    ensures Provided(mc, spec, p, Load(w'))
  {
    hide Address, Replicated, HasCredentials, AliasEnsured, StandbyGoal, PromotionGoal;
    forall t | t in spec.clusters
      ensures t.name in w'.sites && FoundAt(mc, spec, t, Load(w')) == FoundAt(mc, spec, t, Load(w))
      ensures w'.sites[t.name].secrets == w.sites[t.name].secrets
    {
      if i :| 0 <= i < |Standbys(plan)| && Standbys(plan)[i].t.name == t.name {
        assert FullStandbyAt(isIP, plan, w, w', i);
        AliasKeepsTheAddress(isIP(plan.to.host), w.sites[t.name], plan.mc, plan.to.host, PortOf(plan), mc, spec, t);
      } else {
        assert UntouchedAt(plan, w, w', t.name);
      }
    }
  }

  /** A quiet call with a failover due and nothing to block it carries it out: afterwards none is due. */
  lemma {:induction false} QuietFailoverIsRecorded(isIP: string -> bool, c: Call, d: Call, p: Target)
    requires Quiet(isIP, c) && Provided(c.w.name, c.w.spec, p, Load(c.w)) && StatusOk(c.w.status)
    requires CallsForFailover(c.w) && Next(c, d) && c.r.Failover? && !Blocked(c.r.plan)
    requires StatusOk(d.w.status)
    ensures !CallsForFailover(d.w) && Provided(d.w.name, d.w.spec, p, Load(d.w))
  {
    hide Provided, StatusOk, WithRoles, At, FullRun, PlanFrom;
    var s := Stamp(c.w.generation, c.now);
    FailoverRecordsItsOutcome(isIP, c.w, c.w', c.lost, s, c.r.result, c.r.plan, c.r.deed);
    assert Whole(c.r.plan, c.r.deed);
    var anew :| c.r.deed.stage == Final(c.r.plan, anew);
    StageEnds(isIP, c.r.plan, c.w, c.w', anew);
    PlanMc(c.w, c.r.plan);
    RunKeepsProvided(isIP, c.w.name, c.w.spec, p, c.r.plan, c.w, c.w', anew);
  }

  lemma {:induction false} PlanMc(w: World, plan: Plan)
    requires PlanFor(plan, w)
    ensures plan.mc == w.name
  {}

  /** From any state with everything provided: after the one failover that is due, if nothing blocks it, and one
      normal pass, every further quiet call leaves workload and status as they are. */
  lemma {:induction false} QuietSystemConverges(isIP: string -> bool, cs: seq<Call>, p: Target, i: nat)
    requires QuietSeries(isIP, cs, p) && 1 <= i < |cs| && forall k :: 0 <= k < |cs| ==> StatusOk(cs[k].w.status)
    requires CallsForFailover(cs[0].w) ==> cs[0].r.Failover? && !Blocked(cs[0].r.plan)
    ensures Load(cs[i].w') == Load(cs[1].w') && cs[i].w'.status == cs[1].w'.status
    ensures CleanRun(isIP, cs[1].w.name, cs[1].w.spec, p, Load(cs[1].w), Load(cs[1].w'))
    ensures cs[1].w'.status.currentPrimary == PrimaryName(cs[0].w.spec.clusters)
  {
    hide Quiet, StatusOk, Provided, CleanRun;
    assert Next(cs[0], cs[0 + 1]);
    if CallsForFailover(cs[0].w) {
      QuietFailoverIsRecorded(isIP, cs[0], cs[1], p);
    } else {
      StaysProvided(isIP, cs, p, 1);
    }
    var rest := cs[1..];
    forall k | 0 <= k < |rest| - 1 ensures Next(rest[k], rest[k + 1]) {
      assert Next(cs[k + 1], cs[k + 1 + 1]);
    }
    QuietCallsConverge(isIP, rest, p, i - 1);
  }
}
