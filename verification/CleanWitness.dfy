// Concrete calls over two clusters, a clean pass and a failover, so that what is proved of such calls is not
// said of nothing.
module CleanWitness {
  import opened Json
  import opened Api
  import opened Kube
  import opened Builder
  import opened CrossCluster
  import opened Replication
  import opened Credentials
  import opened StatusWrites
  import opened Selection
  import opened Reconciling
  import opened NormalPass
  import opened Controller
  import opened Readiness
  import opened Topology
  import opened Steady
  import opened Conditions
  import opened Failover
  import opened FailoverPass
  import opened StatusEndpoints
  import opened Operator
  import opened Calls
  import opened Convergence
  import opened Streaks

  const HUB := Target("a", "ka", "", "ns-a", Primary, "a.example", 0)
  const SPOKE := Target("b", "kb", "", "ns-b", Standby, "b.example", 0)
  const SPEC := Spec("team", [HUB, SPOKE], Blob.Empty, ServiceConfig("NodePort", 0), AutoFailover(false, 0))

  function HubSite(): Site {
    var cluster := ClusterName("team", "a");
    Site(map[], map[], map[SecretName("postgres", cluster) := Secret(map["password" := "x"], map[]),
                           SecretName("standby", cluster) := Secret(map["password" := "y"], map[])], [])
  }

  const EMPTY := Site(map[], map[], map[], [])
  const START := Workload(map[], map["a" := HubSite(), "b" := EMPTY])
  const FOUND := map["a" := Endpoint("a.example", 32432), "b" := Endpoint("b.example", 32432)]
  const SEEN := Events(map[], FOUND, Applied, map["b" := None])

  function Trace(): Trail {
    var sites := map["a" := Replicated("mc", SPEC, HUB, HubSite()), "b" := Replicated("mc", SPEC, SPOKE, EMPTY)];
    var ensured := Workload(map[], sites);
    var applied := ensured.(pg := ensured.pg["a" := BuildPrimary("mc", SPEC, HUB).value]);
    var b := ensured.sites["b"];
    var secrets := Synced(b.secrets, SourcesOf(SPEC, HUB, ensured.sites["a"]), "mc", ClusterName("team", "b"));
    Trail(ensured, applied, applied.(sites := applied.sites["b" := b.(secrets := secrets)]), true)
  }

  function Finish(isIP: string -> bool): Workload {
    var e, synced := Endpoint("a.example", 32432), Trace().synced;
    Workload(synced.pg["b" := StandbyObject("mc", SPEC, SPOKE, e).value],
             synced.sites["b" := Aliased(isIP, "mc", e, synced.sites["b"])])
  }

  lemma {:induction false} Selected()
    ensures ValidClusters(SPEC.clusters) && Reachable(SPEC.clusters, map[]) == SPEC.clusters
    ensures PrimaryIn(SPEC.clusters) == Some(HUB) && StandbysOf(SPEC.clusters) == [SPOKE]
  {
    var ts, one := SPEC.clusters, [HUB];
    assert SolePrimary(ts, 0);
    assert ts[..1] == one && one[..0] == [];
    assert one[|one| - 1] == HUB && ts[|ts| - 1] == SPOKE;
    assert Reachable([], map[]) == [] && StandbysOf([]) == [];
    assert Reachable(one, map[]) == one && StandbysOf(one) == [] && PrimaryIn(one) == Some(HUB);
  }

  lemma {:induction false} Addresses()
    ensures Ensured("mc", SPEC, SPEC.clusters, SEEN.endpoints, START, Trace().ensured)
  {
    hide Replicated, HubSite, BuildPrimary, Synced, Address;
    AddressOf(HUB, HubSite(), "a.example");
    AddressOf(SPOKE, EMPTY, "b.example");
    assert EnsuredAt("mc", SPEC, HUB, SEEN.endpoints, START, Trace().ensured);
    assert EnsuredAt("mc", SPEC, SPOKE, SEEN.endpoints, START, Trace().ensured);
    assert SPEC.clusters[0] == HUB && SPEC.clusters[1] == SPOKE;
  }

  lemma {:induction false} AddressOf(t: Target, site: Site, host: string)
    requires t.externalHost == host != ""
    ensures Address("mc", SPEC, t, Replicated("mc", SPEC, t, site)) == Ok(Endpoint(host, 32432))
  {}

  lemma {:induction false} Leads()
    ensures AppliedOn("mc", SPEC, HUB, Trace().ensured, Trace().applied, Applied)
  {
    hide BuildPrimary, SecretName;
    assert forall role :: role in ROLES ==> role == "postgres" || role == "standby";
  }

  lemma {:induction false} WholeSync(sources: seq<Source>, site: Site)
    ensures Credentialed("mc", SPEC, sources, SPOKE, site,
              site.(secrets := Synced(site.secrets, sources, "mc", ClusterName("team", "b"))), true)
  {
    assert sources[..|sources|] == sources;
  }

  lemma {:induction false} WholeFollow(isIP: string -> bool, e: Endpoint, site: Site)
    requires e.host != ""
    ensures StandbyObject("mc", SPEC, SPOKE, e).Ok?
    ensures FollowedOn(isIP, "mc", SPEC, e, SPOKE, site, Aliased(isIP, "mc", e, site),
                       None, Some(StandbyObject("mc", SPEC, SPOKE, e).value), None)
  {
    hide AliasEnsured;
  }

  lemma {:induction false} Serves(isIP: string -> bool)
    ensures Served(isIP, "mc", SPEC, HUB, Endpoint("a.example", 32432), [SPOKE], SEEN.standbys,
                   Trace().applied, Trace().synced, true, Finish(isIP))
  {
    hide Replicated, BuildPrimary, Synced, AliasEnsured, SourcesOf, BuildStandby;
    hide Credentialed, FollowedOn, Aliased, StandbyObject;
    var e, sources := Endpoint("a.example", 32432), SourcesOf(SPEC, HUB, Trace().applied.sites["a"]);
    WholeSync(sources, Trace().applied.sites["b"]);
    WholeFollow(isIP, e, Trace().synced.sites["b"]);
    assert [SPOKE][0].name == "b";
    assert CredentialedAt("mc", SPEC, sources, SPOKE, Trace().applied, Trace().synced, true);
    assert Followed(isIP, "mc", SPEC, e, SPOKE, Trace().synced, Finish(isIP), None);
  }

  lemma {:induction false} Facts(cs: seq<ClusterStatus>)
    ensures Trace().credentials && SEEN.unreachable == map[] && SEEN.primary.Applied?
    ensures Used(SEEN.endpoints, cs, HUB.name) == Endpoint("a.example", 32432)
    ensures AllUp(SEEN) && forall t :: t in SPEC.clusters ==> t.name in SEEN.endpoints
    ensures forall t :: t in SPEC.clusters && t.name != HUB.name ==>
              t.name in START.sites && START.sites[t.name] == EMPTY
  {
    assert forall t :: t in SPEC.clusters ==> t == HUB || t == SPOKE;
  }

  lemma {:induction false} EmptySitesFit(isIP: string -> bool)
    ensures Tidy(isIP, EMPTY, "mc") && KindFits(isIP("a.example"), EMPTY, "mc")
  {}

  /** The hypotheses of the results on clean passes and on the star can all be met together. */
  lemma {:induction false} ACleanPassExists(isIP: string -> bool, cs: seq<ClusterStatus>)
    ensures ValidClusters(SPEC.clusters) && HUB in SPEC.clusters
    ensures NormalWork(isIP, "mc", SPEC, cs, SEEN, Trace(), START, Finish(isIP))
    ensures Clean(SPEC.clusters, SEEN, Trace())
    ensures AliasesFit(isIP, "mc", SPEC.clusters, HUB, "a.example", START)
  {
    hide Ensured, AppliedOn, Served, Reachable, PrimaryIn, StandbysOf, Trace, Finish, Used;
    hide Tidy, KindFits, AllUp, ValidClusters;
    Selected();
    Addresses();
    Leads();
    Serves(isIP);
    Facts(cs);
    EmptySitesFit(isIP);
  }

  lemma {:induction false} OverrideIsAnAddress(spec: Spec, t: Target, site: Site)
    requires t.externalHost != "" && ServiceKind(spec.service) == "NodePort"
    ensures Address("mc", spec, t, site).Ok?
  {}

  lemma {:induction false} EachIsFound(a: AutoFailover, t: Target)
    requires t in SPEC.clusters
    ensures t.name in START.sites && t.name in FOUND && FoundAt("mc", SPEC.(auto := a), t, START).Ok?
  {
    hide Replicated, HubSite, Address;
    assert t == HUB || t == SPOKE;
    OverrideIsAnAddress(SPEC.(auto := a), t, Replicated("mc", SPEC.(auto := a), t, START.sites[t.name]));
  }

  lemma {:induction false} AllIsProvided(a: AutoFailover)
    ensures var spec := SPEC.(auto := a);
      Provided("mc", spec, HUB, START) && AllFound("mc", spec, spec.clusters, FOUND, START)
  {
    hide FoundAt, ValidClusters, HasCredentials, HubSite;
    Selected();
    HubHasCredentials();
    forall t | t in SPEC.clusters
      ensures t.name in START.sites && t.name in FOUND && FoundAt("mc", SPEC.(auto := a), t, START).Ok?
    {
      EachIsFound(a, t);
    }
    assert START.sites["a"] == HubSite();
    assert SPEC.clusters[0] == HUB;
  }

  lemma {:induction false} HubHasCredentials()
    ensures HasCredentials(HubSite().secrets, ClusterName(SPEC.teamId, HUB.name))
  {
    hide SecretName, ClusterName;
    assert forall role :: role in ROLES ==> role == "postgres" || role == "standby";
  }

  /** The resource before any pass. */
  function New(): World {
    World("mc", 0, SPEC, Status(NoPhase, 0, "", [], [], 0), START.pg, START.sites)
  }

  function QuietCall(isIP: string -> bool): Call {
    var w, b := New(), Finish(isIP);
    var after := NormalStatus(w.status, SPEC.clusters, SEEN, 0, Stamp(0, 0));
    Call(w, w.(status := after, pg := b.pg, sites := b.sites), {}, [], [], 0, Report.Steady(None, SEEN, Trace()))
  }

  lemma {:induction false} FirstPassIsSmooth(isIP: string -> bool, cs: seq<ClusterStatus>)
    ensures ValidClusters(SPEC.clusters)
    ensures NormalWork(isIP, "mc", SPEC, cs, SEEN, Trace(), START, Finish(isIP))
    ensures Smooth("mc", SPEC, cs, START, SEEN, Trace())
  {
    hide NormalWork, Trace, Finish, AllFound, Provided, PrimaryName, ValidClusters, AliasesFit, Used;
    AllIsProvided(SPEC.auto);
    assert SPEC.(auto := SPEC.auto) == SPEC;
    Selected();
    ACleanPassExists(isIP, cs);
    Facts(cs);
  }

  lemma {:induction false} QuietCallIs(isIP: string -> bool)
    ensures var c := QuietCall(isIP);
      && c.w == New() && c.lost == {} && c.now == 0 && c.r == Report.Steady(None, SEEN, Trace())
      && Load(c.w) == START && Load(c.w') == Finish(isIP) && StatusOk(c.w.status)
      && c.w'.status == NormalStatus(c.w.status, SPEC.clusters, SEEN, 0, Stamp(0, 0))
  {
    hide Trace, Finish, NormalStatus;
  }

  /** Nor are those on convergence: the first call on this resource is quiet, and everything is provided. */
  lemma {:induction false} AQuietCallExists(isIP: string -> bool)
    ensures var c := QuietCall(isIP);
      && Quiet(isIP, c) && Provided(c.w.name, c.w.spec, HUB, Load(c.w)) && StatusOk(c.w.status)
      && !CallsForFailover(c.w) && QuietSeries(isIP, [c], HUB)
  {
    hide NormalWork, Trace, Finish, Provided, NormalStatus, PrimaryName, ValidClusters, AliasesFit, Smooth, WithRoles,
        Clean, QuietCall;
    AllIsProvided(SPEC.auto);
    assert SPEC.(auto := SPEC.auto) == SPEC;
    FirstPassIsSmooth(isIP, WithRoles([], SPEC.clusters));
    QuietCallIs(isIP);
  }

  // ---------- a failover ----------

  /** The same resource with b recorded, so that a failover to a is due. */
  function Stranded(a: AutoFailover, count: nat): World {
    World("mc", 0, SPEC.(auto := a), Status(NoPhase, 0, "b", [], [], count), START.pg, START.sites)
  }

  function TwoPlan(spec: Spec, cs: seq<ClusterStatus>): Plan {
    Plan("mc", spec, Some(ResolvedTarget(cs, SPOKE)), ResolvedTarget(cs, HUB), [])
  }

  lemma {:induction false} SplitInTwo(cs: seq<ClusterStatus>)
    ensures Split(cs, SPEC.clusters, "b") == Parts(Some(ResolvedTarget(cs, SPOKE)), Some(ResolvedTarget(cs, HUB)), [])
    ensures ResolvedTarget(cs, HUB).host == "a.example"
  {
    hide Stored;
    var ts, one := SPEC.clusters, [HUB];
    assert ts[..1] == one && one[..0] == [] && ts[1] == SPOKE && one[0] == HUB;
    assert Split(cs, [], "b") == Parts(None, None, []);
    assert Split(cs, one, "b") == Parts(None, Some(ResolvedTarget(cs, HUB)), []);
  }

  lemma {:induction false} PlanIsTwoPlan(spec: Spec, cs: seq<ClusterStatus>)
    requires spec.clusters == SPEC.clusters
    ensures ValidClusters(spec.clusters) && PrimaryName(spec.clusters) == "a"
    ensures PlanFrom("mc", spec, cs, "b") == TwoPlan(spec, cs)
    ensures TwoPlan(spec, cs).to.host == "a.example"
  {
    hide Split, ResolvedTarget, WellFormed, IsStandby, ValidClusters;
    Selected();
    PrimaryByName(spec.clusters, 0);
    SplitInTwo(cs);
    PlanIsWellFormed("mc", spec, cs, "b");
  }

  function HandedOver(isIP: string -> bool, p: Plan, w: World): World
    requires !p.spec.blob.Malformed? && |Standbys(p)| > 0 && "b" in w.sites
  {
    w.(pg := map["a" := PromotionGoal(p, None, true), "b" := StandbyGoal(p, 0)],
       sites := w.sites["b" := AliasGoal(isIP, p, w.sites["b"])])
  }

  lemma {:induction false} WholeRun(isIP: string -> bool, spec: Spec, cs: seq<ClusterStatus>, w: World)
    requires w.pg == map[] && w.sites.Keys == {"a", "b"} && !spec.blob.Malformed?
    ensures var p := TwoPlan(spec, cs); At(isIP, p, w, HandedOver(isIP, p, w), Final(p, true))
  {
    hide PromotionGoal, StandbyGoal, AliasGoal, ResolvedTarget;
    var p := TwoPlan(spec, cs);
    var w' := HandedOver(isIP, p, w);
    assert ResolvedTarget(cs, SPOKE).t == SPOKE && ResolvedTarget(cs, HUB).t == HUB by { TargetsOf(cs); }
    assert Standbys(p)[0].t.name == "b";
    assert StandbyAt(isIP, p, w, w', Final(p, true), 0);
    assert IsStandby(p, "b");
  }

  lemma {:induction false} TargetsOf(cs: seq<ClusterStatus>)
    ensures ResolvedTarget(cs, SPOKE).t == SPOKE && ResolvedTarget(cs, HUB).t == HUB
  {}

  function FailoverCall(isIP: string -> bool, a: AutoFailover, count: nat): Call {
    var w := Stranded(a, count);
    var started := FailoverStarted(w.status, SPEC.clusters, Stamp(0, 0));
    var p := TwoPlan(w.spec, WithRoles([], SPEC.clusters));
    Call(w, HandedOver(isIP, p, w).(status := Settled(started, started, "a", Stamp(0, 0))), {}, [], [], 0,
         Report.Failover(Ok("a"), p, Reached(Final(p, true))))
  }

  lemma {:induction false} StrandedIsRegular(a: AutoFailover, count: nat)
    ensures Regular(Stranded(a, count))
  {}

  lemma {:induction false} FailoverCallRecords(st: Status, count: nat)
    requires st.currentPrimary == "b" && st.failureCount == count
    ensures var started := FailoverStarted(st, SPEC.clusters, Stamp(0, 0));
      var now := Settled(started, started, "a", Stamp(0, 0));
      now.currentPrimary == "a" && now.failureCount == count
  {}

  lemma {:induction false} FailoverCallPasses(isIP: string -> bool, a: AutoFailover, count: nat)
    ensures var c := FailoverCall(isIP, a, count);
      FailoverPassed(isIP, c.w, c.w', {}, Stamp(0, 0), c.r.result, c.r.plan, c.r.deed) && !Blocked(c.r.plan)
  {
    hide At, WithRoles, FailoverStarted, PlanFrom, ResolvedTarget, HandedOver, Settled, PrimaryName, ValidClusters;
    var w, c := Stranded(a, count), FailoverCall(isIP, a, count);
    var cs := WithRoles([], SPEC.clusters);
    PlanIsTwoPlan(w.spec, cs);
    WholeRun(isIP, w.spec, cs, w);
    assert ResolvedTarget(cs, HUB).t.name == "a" by { TargetsOf(cs); }
    StageOfWorkload(isIP, c.r.plan, w, HandedOver(isIP, c.r.plan, w), c.w', Final(c.r.plan, true));
  }

  /** A quiet call that carries out a failover, at every setting of automatic failover and every failure count. */
  lemma {:induction false} AFailoverIsRecorded(isIP: string -> bool, a: AutoFailover, count: nat)
    ensures var c := FailoverCall(isIP, a, count);
      && Quiet(isIP, c) && Provided(c.w.name, c.w.spec, HUB, Load(c.w)) && Regular(c.w)
      && CallsForFailover(c.w) && !Blocked(c.r.plan)
      && Chain(isIP, [c]) && Records(c) && c.w.spec.auto == a && c.w'.status.failureCount == count
  {
    hide FailoverPassed, FailoverStarted, Settled, Provided, TwoPlan, HandedOver, PrimaryName, ValidClusters, Regular,
        Blocked;
    var w := Stranded(a, count);
    AllIsProvided(a);
    StrandedIsRegular(a, count);
    PlanIsTwoPlan(w.spec, WithRoles([], SPEC.clusters));
    FailoverCallRecords(w.status, count);
    FailoverCallPasses(isIP, a, count);
  }
}
