// A failover pass of the controller: announce, resolve every cluster, run the sequence, record.
module FailoverPass {
  import opened Json
  import opened Api
  import opened Kube
  import opened Conditions
  import opened Machine
  import opened Remote
  import opened Resource
  import opened StatusEndpoints
  import opened StatusWrites
  import opened Failover

  function ResolvedTarget(cs: seq<ClusterStatus>, t: Target): Resolved {
    var e := FailoverAddress(cs, t);
    Resolved(t, e.host, e.port)
  }

  /** The parts a failover splits its targets into: the recorded primary, the one with the primary
      role, and the rest in spec order. */
  datatype Parts = Parts(from: Option<Resolved>, to: Option<Resolved>, others: seq<Resolved>)

  function Split(cs: seq<ClusterStatus>, ts: seq<Target>, cp: string): Parts {
    if ts == [] then Parts(None, None, [])
    else
      var before, t := Split(cs, ts[..|ts| - 1], cp), ts[|ts| - 1];
      var r := ResolvedTarget(cs, t);
      if t.name == cp then before.(from := Some(r))
      else if t.role.Primary? then before.(to := Some(r))
      else before.(others := before.others + [r])
  }

  predicate Has(p: Parts, r: Resolved) {
    p.from == Some(r) || p.to == Some(r) || r in p.others
  }

  lemma {:induction false} SplitIsSound(cs: seq<ClusterStatus>, ts: seq<Target>, cp: string)
    ensures var p := Split(cs, ts, cp);
      && (p.from.Some? ==> p.from.value.t in ts && p.from.value.t.name == cp)
      && (p.to.Some? ==> p.to.value.t in ts && p.to.value.t.role.Primary? && p.to.value.t.name != cp)
      && (forall r :: r in p.others ==> r.t in ts && r.t.role.Standby? && r.t.name != cp)
  {
    hide Stored, FailoverAddress;
    if ts != [] {
      var init, last := ts[..|ts| - 1], ts[|ts| - 1];
      SplitIsSound(cs, init, cp);
      assert forall t :: t in ts <==> t in init || t == last;
    }
  }

  lemma {:induction false} SplitIsDistinct(cs: seq<ClusterStatus>, ts: seq<Target>, cp: string)
    requires DistinctNames(ts)
    ensures var others := Split(cs, ts, cp).others;
      forall i, j :: 0 <= i < j < |others| ==> others[i].t.name != others[j].t.name
  {
    if ts != [] {
      var init, t := ts[..|ts| - 1], ts[|ts| - 1];
      SplitIsDistinct(cs, init, cp);
      SplitIsSound(cs, init, cp);
      forall r | r in Split(cs, init, cp).others ensures r.t.name != t.name {
        var k :| 0 <= k < |init| && init[k] == r.t;
        assert ts[k] == r.t;
      }
    }
  }

  lemma {:induction false} SplitIsComplete(cs: seq<ClusterStatus>, ts: seq<Target>, cp: string, k: int)
    requires DistinctNames(ts) && 0 <= k < |ts|
    requires forall j :: k < j < |ts| ==> ts[j].role.Standby? || ts[k].role.Standby?
    ensures Has(Split(cs, ts, cp), ResolvedTarget(cs, ts[k]))
  {
    if k < |ts| - 1 {
      assert ts[k].name != ts[|ts| - 1].name;
      SplitIsComplete(cs, ts[..|ts| - 1], cp, k);
      SplitIsSound(cs, ts[..|ts| - 1], cp);
    }
  }

  function PlanOf(mc: string, spec: Spec, p: Parts): Plan
    requires p.to.Some?
  {
    Plan(mc, spec, p.from, p.to.value, p.others)
  }

  /** In a valid spec whose primary is not the recorded one, the loop puts every target into exactly
      one part: the recorded primary, the new primary, or the others, all of them standbys. */
  lemma {:induction false} SplitIsAPartition(cs: seq<ClusterStatus>, ts: seq<Target>, cp: string, i: int)
    requires ValidClusters(ts) && PrimaryName(ts) != cp && 0 <= i < |ts|
    ensures var p, r := Split(cs, ts, cp), ResolvedTarget(cs, ts[i]);
      && (p.from == Some(r) <==> ts[i].name == cp)
      && (p.to == Some(r) <==> ts[i].name == PrimaryName(ts))
      && (r in p.others <==> ts[i].name != cp && ts[i].role.Standby?)
  {
    PrimaryByName(ts, i);
    SplitIsSound(cs, ts, cp);
    forall j | i < j < |ts| ensures ts[j].role.Standby? || ts[i].role.Standby? {
      PrimaryByName(ts, j);
    }
    SplitIsComplete(cs, ts, cp, i);
  }

  /** A standby of the plan is a target with a standby's role, or the recorded primary. */
  lemma {:induction false} StandbysOfPlan(mc: string, spec: Spec, cs: seq<ClusterStatus>, cp: string, i: nat)
    requires ValidClusters(spec.clusters) && PrimaryName(spec.clusters) != cp && Split(cs, spec.clusters, cp).to.Some?
    requires i < |Standbys(PlanOf(mc, spec, Split(cs, spec.clusters, cp)))|
    ensures var p := PlanOf(mc, spec, Split(cs, spec.clusters, cp));
      var t := Standbys(p)[i].t;
      && t in spec.clusters && t.name != PrimaryName(spec.clusters)
      && (i < |p.others| <==> t.name != cp)
  {
    var parts := Split(cs, spec.clusters, cp);
    var p := PlanOf(mc, spec, parts);
    SplitIsSound(cs, spec.clusters, cp);
    if i < |p.others| { assert Standbys(p)[i] in parts.others; }
    var t := Standbys(p)[i].t;
    var k :| 0 <= k < |spec.clusters| && spec.clusters[k] == t;
    PrimaryByName(spec.clusters, k);
  }

  lemma {:induction false} PlanIsWellFormed(mc: string, spec: Spec, cs: seq<ClusterStatus>, cp: string)
    requires ValidClusters(spec.clusters) && PrimaryName(spec.clusters) != cp
    ensures var parts := Split(cs, spec.clusters, cp);
      && parts.to.Some? && parts.to.value.t.name == PrimaryName(spec.clusters)
      && (parts.from.Some? ==> parts.from.value.t.name == cp)
      && WellFormed(PlanOf(mc, spec, parts))
      && (parts.from.None? ==> !IsStandby(PlanOf(mc, spec, parts), cp))
  {
    var ts := spec.clusters;
    var k :| 0 <= k < |ts| && SolePrimary(ts, k);
    PrimaryNameIsSole(ts, k);
    SplitIsAPartition(cs, ts, cp, k);
    var parts := Split(cs, ts, cp);
    SplitIsSound(cs, ts, cp);
    SplitIsDistinct(cs, ts, cp);
    var p := PlanOf(mc, spec, parts);
    forall i | 0 <= i < |Standbys(p)|
      ensures Standbys(p)[i].t.name != p.to.t.name && (i < |p.others| <==> Standbys(p)[i].t.name != cp)
    {
      StandbysOfPlan(mc, spec, cs, cp, i);
    }
    forall i, j | 0 <= i < j < |Standbys(p)| ensures Apart(p, i, j) {
      if j < |p.others| { assert parts.others[i].t.name != parts.others[j].t.name; }
    }
  }

  /** The new primary the loop ends up with is the one the machine rebinds a failover to, valid spec or not. */
  lemma {:induction false} SplitRebinds(cs: seq<ClusterStatus>, ts: seq<Target>, cp: string)
    ensures var to := Split(cs, ts, cp).to; Rebound(ts, cp) == if to.Some? then Some(to.value.t.name) else None
  {
    hide FailoverAddress;
    if ts != [] { SplitRebinds(cs, ts[..|ts| - 1], cp); }
  }

  /** Resolves every target; gives up at the first one without a client, and only there. */
  method ResolveAll(fleet: Fleet, cs: seq<ClusterStatus>, ts: seq<Target>, cp: string) returns (r: Result<Parts>)
    requires fleet.Valid() && fleet.clients == NO_CLIENTS
    modifies fleet
    ensures fleet.Valid() && fleet.begun == old(fleet.begun) && fleet.faults == old(fleet.faults)
    ensures fleet.w == old(fleet.w).(spec := fleet.w.spec, generation := fleet.w.generation)
    ensures fleet.flight == old(fleet.flight)
    ensures r.Err? <==> fleet.clients.lost != {}
    ensures fleet.clients.lost <= TargetNames(ts)
    ensures r.Ok? ==> r.value == Split(cs, ts, cp) && fleet.clients.held == TargetNames(ts)
  {
    hide TargetNames;
    var parts := Parts(None, None, []);
    var k := 0;
    NamesSoFar(ts, 0);
    while k < |ts|
      invariant 0 <= k <= |ts| && fleet.Valid() && fleet.begun == old(fleet.begun) && fleet.faults == old(fleet.faults)
      invariant fleet.w == old(fleet.w).(spec := fleet.w.spec, generation := fleet.w.generation)
      invariant fleet.flight == old(fleet.flight)
      invariant fleet.clients == Clients(TargetNames(ts[..k]), {})
      invariant parts == Split(cs, ts[..k], cp)
    {
      var t := ts[k];
      assert ts[..k + 1][..k] == ts[..k];
      NamesSoFar(ts, k);
      var err := fleet.Client(t.name);
      if err.Some? {
        return Err(err.value);
      }
      var stored := ClusterEndpointFromStatus(cs, t.name);
      var host := if t.externalHost == "" then stored.host else t.externalHost;
      var port := stored.port;
      if port == 0 {
        port := t.externalPort;
      }
      if port == 0 {
        port := 5432;
      }
      var rc := Resolved(t, host, port);
      if t.name == cp {
        parts := parts.(from := Some(rc));
      } else if t.role.Primary? {
        parts := parts.(to := Some(rc));
      } else {
        parts := parts.(others := parts.others + [rc]);
      }
      k := k + 1;
    }
    assert ts[..k] == ts;
    r := Ok(parts);
  }

  /** What a failover pass did to the workload: nothing, or its plan up to some stage. */
  datatype Deed = Nothing | Reached(stage: Stage)

  ghost predicate Done(isIP: string -> bool, p: Plan, w: World, w': World, d: Deed) {
    match d
    case Nothing => Load(w') == Load(w)
    case Reached(st) => !p.spec.blob.Malformed? && InOrder(p, st) && At(isIP, p, w, w', st)
  }

  ghost predicate Whole(p: Plan, d: Deed) {
    d.Reached? && exists anew :: d.stage == Final(p, anew)
  }

  lemma {:induction false} DoneCarries(isIP: string -> bool, p: Plan, w: World, w1: World, w2: World, w3: World,
      d: Deed)
    requires Done(isIP, p, w1, w2, d) && Load(w1) == Load(w) && Load(w3) == Load(w2)
    ensures Done(isIP, p, w, w3, d)
  {
    if d.Reached? {
      forall i | 0 <= i < |Standbys(p)| ensures StandbyAt(isIP, p, w, w3, d.stage, i) {
        assert StandbyAt(isIP, p, w1, w2, d.stage, i);
      }
      forall n | !IsStandby(p, n) ensures UntouchedAt(p, w, w3, n) {
        assert UntouchedAt(p, w1, w2, n);
      }
    }
  }

  ghost predicate OnFailover(fleet: Fleet, spec: Spec, cp: string)
    reads fleet
  {
    && fleet.Valid() && fleet.flight == Failing(cp, PrimaryName(spec.clusters), false)
    && ValidClusters(spec.clusters) && PrimaryName(spec.clusters) != cp && HasSites(fleet.w, spec.clusters)
    && fleet.clients == NO_CLIENTS
  }

  /** The plan this pass is for, whether or not it can be carried out. */
  ghost function PlanFrom(mc: string, spec: Spec, cs: seq<ClusterStatus>, cp: string): Plan
    requires ValidClusters(spec.clusters) && PrimaryName(spec.clusters) != cp
  {
    PlanIsWellFormed(mc, spec, cs, cp);
    PlanOf(mc, spec, Split(cs, spec.clusters, cp))
  }

  /** The plan, with a client for every cluster; or an error and nothing done. */
  method MakePlan(fleet: Fleet, mc: string, spec: Spec, cs: seq<ClusterStatus>, cp: string) returns (r: Result<Plan>)
    requires OnFailover(fleet, spec, cp)
    modifies fleet
    ensures fleet.Valid() && fleet.begun == old(fleet.begun) && fleet.faults == old(fleet.faults)
    ensures fleet.w == old(fleet.w).(spec := fleet.w.spec, generation := fleet.w.generation)
    ensures fleet.flight == old(fleet.flight)
    ensures r.Err? <==> fleet.clients.lost != {}
    ensures fleet.clients.lost <= TargetNames(spec.clusters)
    ensures r.Ok? ==> r.value == PlanFrom(mc, spec, cs, cp)
    ensures r.Ok? ==> OnPlan(fleet, r.value) && forall i :: 0 <= i < |Standbys(r.value)| ==> Sited(r.value, fleet.w, i)
  {
    var parts := ResolveAll(fleet, cs, spec.clusters, cp);
    if parts.Err? {
      return Err(parts.error);
    }
    PlanIsWellFormed(mc, spec, cs, cp);
    var plan := PlanOf(mc, spec, parts.value);
    PrimaryIsNamed(spec.clusters);
    forall i | 0 <= i < |Standbys(plan)|
      ensures Sited(plan, fleet.w, i) && Standbys(plan)[i].t.name in fleet.clients.held
    {
      StandbysOfPlan(mc, spec, cs, cp, i);
      var k :| 0 <= k < |spec.clusters| && spec.clusters[k] == Standbys(plan)[i].t;
    }
    r := Ok(plan);
  }

  /** Plans and runs the sequence. Anything at all is attempted if and only if every cluster has a client and
      the plan is not blocked; then the run fails only if some call reported an error. */
  method RunPlan(fleet: Fleet, mc: string, spec: Spec, cs: seq<ClusterStatus>, cp: string)
    returns (r: Result<string>, ghost deed: Deed)
    requires OnFailover(fleet, spec, cp)
    modifies fleet
    ensures fleet.Valid() && fleet.begun == old(fleet.begun)
    ensures SamePass(old(fleet.flight), fleet.flight) && fleet.w.status == old(fleet.w).status
    ensures fleet.faults >= old(fleet.faults)
    ensures fleet.clients.lost <= TargetNames(spec.clusters)
    ensures var p := PlanFrom(mc, spec, cs, cp);
      && Done(fleet.isIP, p, old(fleet.w), fleet.w, deed)
      && (deed.Nothing? <==> fleet.clients.lost != {} || Blocked(p))
      && (deed.Nothing? ==> r.Err?)
      && (deed.Reached? && r.Err? ==> fleet.faults > old(fleet.faults))
      && (r.Ok? ==> fleet.flight.demoted && Whole(p, deed) && r.value == PrimaryName(spec.clusters))
  {
    hide At, WellFormed, Split, TargetNames;
    deed := Nothing;
    ghost var w0 := fleet.w;
    var plan := MakePlan(fleet, mc, spec, cs, cp);
    if plan.Err? {
      return Err(plan.error), deed;
    }
    PlanIsWellFormed(mc, spec, cs, cp);
    ghost var w1 := fleet.w;
    ghost var st;
    r, st := Run(fleet, plan.value);
    deed := if Blocked(plan.value) then Nothing else Reached(st);
    DoneCarries(fleet.isIP, plan.value, w0, w1, fleet.w, fleet.w, deed);
  }

  /** In flight the spec keeps the primary the pass is moving to. */
  lemma {:induction false} SpecHoldsDuringFailover(fleet: Fleet)
    requires fleet.Valid() && fleet.flight.Failing?
    ensures fleet.flight.from == fleet.w.status.currentPrimary
    ensures ValidClusters(fleet.w.spec.clusters)
    ensures PrimaryName(fleet.w.spec.clusters) == fleet.flight.to != fleet.flight.from
    ensures HasSites(fleet.w, fleet.w.spec.clusters)
  {
    RunIsSafe(fleet.trace, |fleet.trace| - 1);
    assert Commits(fleet.Now(), fleet.flight.to);
  }

  /** The plan of a pass that read w: built from the spec it worked on, which still names the same primary,
      the endpoints in the status and the recorded primary. */
  ghost predicate PlanFor(p: Plan, w: World) {
    var ts, cp := w.spec.clusters, w.status.currentPrimary;
    && ValidClusters(p.spec.clusters) && PrimaryName(p.spec.clusters) == PrimaryName(ts) != cp
    && p == PlanFrom(w.name, p.spec, WithRoles(w.status.clusters, ts), cp)
  }

  /** Status st, announced or not, with the end of the failover recorded. */
  function Settled(st: Status, started: Status, to: string, s: Stamp): Status {
    var ended := FailoverEnded(started, to, s);
    st.(currentPrimary := ended.currentPrimary, phase := ended.phase, conditions := ended.conditions)
  }

  /** How a failover pass over w ends, `lost` being the clusters without a client: something was attempted if
      and only if there are none and the plan is not blocked; the status is that from before, the
      announcement, or, after a whole run only, one of them with the end recorded. */
  ghost predicate FailoverPassed(isIP: string -> bool, w: World, w': World, lost: set<string>, s: Stamp,
      r: Result<string>, p: Plan, deed: Deed)
  {
    var started := FailoverStarted(w.status, w.spec.clusters, s);
    && PlanFor(p, w) && Done(isIP, p, w, w', deed)
    && (deed.Nothing? <==> lost != {} || Blocked(p)) && (deed.Nothing? ==> r.Err?)
    && lost <= TargetNames(p.spec.clusters)
    && (|| (r.Err? && w'.status in {w.status, started})
        || (Whole(p, deed) && exists s': Stamp ::
              w'.status in {Settled(w.status, started, p.to.t.name, s'), Settled(started, started, p.to.t.name, s')}))
  }

  /** So the new primary is recorded only after a whole run, a pass that reports success has recorded it,
      with the phase Ready and the failover over, and the failure count is never touched. */
  lemma {:induction false} FailoverRecordsItsOutcome(isIP: string -> bool, w: World, w': World, lost: set<string>,
      s: Stamp, r: Result<string>, p: Plan, deed: Deed)
    requires FailoverPassed(isIP, w, w', lost, s, r, p, deed) && StatusOk(w.status)
    ensures p.to.t.name == PrimaryName(w.spec.clusters) && w'.status.failureCount == w.status.failureCount
    ensures w'.status.currentPrimary == w.status.currentPrimary
            || (w'.status.currentPrimary == PrimaryName(w.spec.clusters) && Whole(p, deed))
    ensures r.Ok? ==> w'.status.currentPrimary == PrimaryName(w.spec.clusters)
    ensures w'.status.currentPrimary == PrimaryName(w.spec.clusters) ==>
              && w'.status.phase.Ready? && IsTrue(w'.status.conditions, READY)
              && !IsTrue(w'.status.conditions, FAILOVER_IN_PROGRESS)
  {
    hide Done, WithRoles;
    PlanIsWellFormed(w.name, p.spec, WithRoles(w.status.clusters, w.spec.clusters), w.status.currentPrimary);
    hide PlanFrom;
    var to, started := p.to.t.name, FailoverStarted(w.status, w.spec.clusters, s);
    if s': Stamp :| w'.status in {Settled(w.status, started, to, s'), Settled(started, started, to, s')} {
      var over := Condition(FAILOVER_IN_PROGRESS, False, "FailoverCompleted", "", s'.generation, s'.now);
      var ready := ReadyIs(True, "ReconcileSuccess", "", s');
      UpsertLooksUp(started.conditions, over, FAILOVER_IN_PROGRESS);
      UpsertLooksUp(Upsert(started.conditions, over), ready, FAILOVER_IN_PROGRESS);
    }
  }

  /** Announces the failover; the error of this write is ignored. On success the pass goes on with the
      resource as the server returned it. */
  method Announce(fleet: Fleet, mc: PostgresMC, stored: Status, now: nat)
    requires OnFailover(fleet, mc.spec, stored.currentPrimary)
    requires fleet.w.status == stored && mc.status == stored.(clusters := WithRoles(stored.clusters, mc.spec.clusters))
    modifies fleet, mc
    ensures OnFailover(fleet, mc.spec, stored.currentPrimary) && fleet.begun == old(fleet.begun)
    ensures fleet.flight == old(fleet.flight) && fleet.faults >= old(fleet.faults)
    ensures fleet.w == old(fleet.w).(spec := fleet.w.spec, generation := fleet.w.generation, status := fleet.w.status)
    ensures PrimaryName(mc.spec.clusters) == PrimaryName(old(mc.spec).clusters)
    ensures mc.status == FailoverStarted(stored, old(mc.spec).clusters, Stamp(old(mc.generation), now))
    ensures fleet.w.status in {stored, mc.status}
    ensures mc.status.clusters == WithRoles(stored.clusters, old(mc.spec).clusters)
  {
    hide WithRoles, StatusOk, PrimaryName;
    ghost var s := Stamp(mc.generation, now);
    mc.status := mc.status.(phase := FailingOver);
    mc.SetTopCondition(FAILOVER_IN_PROGRESS, True, "FailoverStarted", "", now);
    FailoverKeepsStatusOk(stored, mc.spec.clusters, "", s, s);
    assert MergeStatus(stored, stored, mc.status) == mc.status;
    var ignored := fleet.PatchStatus(stored, mc.status);
    SpecHoldsDuringFailover(fleet);
    if ignored.None? {
      mc.generation, mc.spec, mc.status := fleet.w.generation, fleet.w.spec, fleet.w.status;
    }
  }

  /** Records the outcome of a whole run. */
  method Record(fleet: Fleet, mc: PostgresMC, primary: string, ghost stored: Status, ghost ts: seq<Target>,
      ghost s: Stamp, now: nat)
    returns (err: Option<string>)
    requires fleet.Valid() && fleet.flight.Failing? && fleet.flight.demoted && fleet.flight.to == primary
    requires StatusOk(stored) && DistinctNames(ts) && mc.status == FailoverStarted(stored, ts, s)
    requires fleet.w.status in {stored, mc.status}
    modifies fleet, mc`status
    ensures fleet.Valid() && fleet.begun == old(fleet.begun) && Load(fleet.w) == Load(old(fleet.w))
    ensures fleet.clients == old(fleet.clients)
    ensures fleet.faults >= old(fleet.faults) && (err.Some? ==> fleet.faults > old(fleet.faults))
    ensures var s', was := Stamp(mc.generation, now), old(fleet.w).status;
      || fleet.w.status == Settled(was, old(mc.status), primary, s')
      || (err.Some? && fleet.w.status == was)
  {
    hide WithRoles, StatusOk;
    ghost var s' := Stamp(mc.generation, now);
    FailoverKeepsStatusOk(stored, ts, primary, s, s');
    var reached := mc.status;
    mc.status := mc.status.(currentPrimary := primary, phase := Phase.Ready);
    mc.SetTopCondition(FAILOVER_IN_PROGRESS, False, "FailoverCompleted", "", now);
    mc.SetTopCondition(READY, True, "ReconcileSuccess", "", now);
    assert mc.status == FailoverEnded(reached, primary, s');
    err := fleet.PatchStatusAndEnd(reached, mc.status);
  }

  /** A failover pass. When no call reports an error, no client is missing and the plan is not blocked, it
      succeeds. */
  method RunFailover(fleet: Fleet, mc: PostgresMC, stored: Status, now: nat)
    returns (r: Result<string>, ghost p: Plan, ghost deed: Deed)
    requires OnFailover(fleet, mc.spec, stored.currentPrimary) && mc.spec == fleet.w.spec && mc.name == fleet.w.name
    requires fleet.w.status == stored && mc.status == stored.(clusters := WithRoles(stored.clusters, mc.spec.clusters))
    modifies fleet, mc
    ensures fleet.Valid() && fleet.begun == old(fleet.begun)
    ensures FailoverPassed(fleet.isIP, old(fleet.w), fleet.w, fleet.clients.lost, Stamp(old(mc.generation), now),
                           r, p, deed)
    ensures fleet.faults >= old(fleet.faults) && (r.Ok? ==> deed.Reached?)
    ensures r.Err? && deed.Reached? ==> fleet.faults > old(fleet.faults)
  {
    hide Done, WellFormed, Split, WithRoles, StatusOk, FailoverStarted, Settled, TargetNames, Blocked;
    ghost var w0, ts, s := fleet.w, mc.spec.clusters, Stamp(mc.generation, now);
    Announce(fleet, mc, stored, now);
    ghost var w1 := fleet.w;
    p := PlanFrom(mc.name, mc.spec, mc.status.clusters, stored.currentPrimary);
    PlanIsWellFormed(mc.name, mc.spec, mc.status.clusters, stored.currentPrimary);
    r, deed := RunPlan(fleet, mc.name, mc.spec, mc.status.clusters, stored.currentPrimary);
    ghost var w2 := fleet.w;
    if r.Ok? {
      var err := Record(fleet, mc, r.value, stored, ts, s, now);
      if err.Some? {
        r := Err(err.value);
      }
    }
    DoneCarries(fleet.isIP, p, w0, w1, w2, fleet.w, deed);
  }
}
