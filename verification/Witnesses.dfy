// Runs from the start: two writable clusters whenever a guard on the environment is dropped, and a
// failover that hands on the misses of the old primary.
module Witnesses {
  import opened Json
  import opened Api
  import opened Kube
  import opened AutoPromotion
  import opened Machine

  function Clusters(a: Role, b: Role): seq<Target> {
    [Target("a", "ka", "", "ns", a, "", 0), Target("b", "kb", "", "ns", b, "", 0)]
  }

  function SpecOf(clusters: seq<Target>, auto: AutoFailover): Spec {
    Spec("team", clusters, Blob.Empty, ServiceConfig("NodePort", 0), auto)
  }

  const OFF := AutoFailover(false, 0)
  const EAGER := AutoFailover(true, 1)

  /** An object without a standby section, and one with. */
  const LEADER := Obj(map[])
  const FOLLOWER := Obj(map["spec" := Obj(map["standby" := Obj(map[])])])

  function Fresh(spec: Spec): View {
    var site := Site(map[], map[], map[], []);
    View(World("mc", 0, spec, Status(NoPhase, 0, "", [], [], 0), map[], map["a" := site, "b" := site]), Idle)
  }

  ghost predicate SplitBrain(g: Guards, t: seq<View>) {
    IsRun(t, g) && !AtMostOneWriter(t[|t| - 1].w)
  }

  lemma {:induction false} Names()
    ensures var ts := Clusters(Primary, Standby); ValidClusters(ts) && PrimaryName(ts) == "a" && Named(ts, "b")
    ensures var ts := Clusters(Standby, Primary); ValidClusters(ts) && PrimaryName(ts) == "b"
  {
    var ab, ba := Clusters(Primary, Standby), Clusters(Standby, Primary);
    assert SolePrimary(ab, 0) && SolePrimary(ba, 1);
    PrimaryNameIsSole(ab, 0);
    PrimaryNameIsSole(ba, 1);
    assert ab[1].name == "b";
  }

  function Starting(v: View, f: Flight): View {
    v.(flight := f)
  }

  function Writing(v: View, n: string, obj: Json): View {
    v.(w := v.w.(pg := v.w.pg[n := obj]))
  }

  function Respec(v: View, spec: Spec): View {
    v.(w := v.w.(spec := spec))
  }

  lemma {:induction false} Step(t: seq<View>, v: View, g: Guards) returns (t': seq<View>)
    requires IsRun(t, g) && Next(t[|t| - 1], v, g)
    ensures IsRun(t', g) && t' != [] && t'[|t'| - 1] == v
  {
    Extend(t, v, g);
    t' := t + [v];
  }

  /** The first pass makes a writable and dies. */
  function Applied(spec: Spec): View {
    Writing(Fresh(spec), "a", LEADER)
  }

  lemma {:induction false} AppliedAndDied(spec: Spec, g: Guards) returns (t: seq<View>)
    requires spec.clusters == Clusters(Primary, Standby) && Admitted(spec, "", g)
    ensures IsRun(t, g) && t[|t| - 1] == Applied(spec)
  {
    Names();
    var v0 := Fresh(spec);
    var v1 := Starting(v0, Normal(spec, None));
    var v2 := Writing(v1, "a", LEADER);
    assert Start(v0, v1) && Wrote(v1, v2, "a", LEADER) && Abort(v2, Applied(spec));
    t := [v0];
    t := Step(t, v1, g);
    t := Step(t, v2, g);
    t := Step(t, Applied(spec), g);
  }

  /** The user then moves the role before a is recorded. */
  lemma {:induction false} InstallGuardIsNeeded() returns (t: seq<View>)
    ensures SplitBrain(ALL.(install := false), t)
  {
    Names();
    var g := ALL.(install := false);
    var ab, ba := SpecOf(Clusters(Primary, Standby), OFF), SpecOf(Clusters(Standby, Primary), OFF);
    var v1 := Respec(Applied(ab), ba);
    var v2 := Starting(v1, Normal(ba, None));
    var v3 := Writing(v2, "b", LEADER);
    assert Edit(Applied(ab), v1, g) && Start(v1, v2) && Wrote(v2, v3, "b", LEADER);
    t := AppliedAndDied(ab, g);
    t := Step(t, v1, g);
    t := Step(t, v2, g);
    t := Step(t, v3, g);
    assert WriterAt(v3.w, "a") && WriterAt(v3.w, "b");
  }

  /** A failover from a to b dies after promoting b. */
  function Promoted(spec: Spec): View {
    var v := Writing(Writing(Fresh(spec), "a", FOLLOWER), "b", LEADER);
    v.(w := v.w.(status := v.w.status.(currentPrimary := "a")))
  }

  lemma {:induction false} PromotedAndDied(ab: Spec, ba: Spec, g: Guards) returns (t: seq<View>)
    requires ab == SpecOf(Clusters(Primary, Standby), OFF) && ba == SpecOf(Clusters(Standby, Primary), OFF)
    ensures IsRun(t, g) && t[|t| - 1] == Promoted(ba)
  {
    Names();
    var v0 := Fresh(ab);
    var v1 := Starting(v0, Normal(ab, None));
    var v2 := v1.(flight := Normal(ab, Some(CountAfter(0, false))));
    var v3 := v2.(w := v2.w.(status := v2.w.status.(currentPrimary := "a")), flight := Idle);
    var v4 := Respec(v3, ba);
    var v5 := Starting(v4, Failing("a", "b", false));
    var v6 := Writing(v5, "a", FOLLOWER).(flight := Failing("a", "b", true));
    var v7 := Writing(v6, "b", LEADER);
    assert Start(v0, v1) && Count(v1, v2) && Recorded(v2, v3) && Edit(v3, v4, g) && Start(v4, v5);
    assert Wrote(v5, v6, "a", FOLLOWER) && Wrote(v6, v7, "b", LEADER) && Abort(v7, Promoted(ba));
    t := [v0];
    t := Step(t, v1, g);
    t := Step(t, v2, g);
    t := Step(t, v3, g);
    t := Step(t, v4, g);
    t := Step(t, v5, g);
    t := Step(t, v6, g);
    t := Step(t, v7, g);
    t := Step(t, Promoted(ba), g);
  }

  /** The user then flips the role back before b is recorded. */
  lemma {:induction false} FailoverGuardIsNeeded() returns (t: seq<View>)
    ensures SplitBrain(ALL.(failover := false), t)
  {
    Names();
    var g := ALL.(failover := false);
    var ab, ba := SpecOf(Clusters(Primary, Standby), OFF), SpecOf(Clusters(Standby, Primary), OFF);
    var v1 := Respec(Promoted(ba), ab);
    var v2 := v1.(flight := Normal(ab, None));
    var v3 := Writing(v2, "a", LEADER);
    assert Edit(Promoted(ba), v1, g) && Start(v1, v2) && Wrote(v2, v3, "a", LEADER);
    t := PromotedAndDied(ab, ba, g);
    t := Step(t, v1, g);
    t := Step(t, v2, g);
    t := Step(t, v3, g);
    assert WriterAt(v3.w, "a") && WriterAt(v3.w, "b");
  }

  /** With a threshold of one pass, automatic failover can move the role before a is recorded. */
  lemma {:induction false} ThresholdGuardIsNeeded() returns (t: seq<View>)
    ensures SplitBrain(ALL.(threshold := false), t)
  {
    Names();
    var g := ALL.(threshold := false);
    var ab := SpecOf(Clusters(Primary, Standby), EAGER);
    var ba := SpecOf(Promote(ab.clusters, "b"), EAGER);
    assert ba.clusters == Clusters(Standby, Primary);
    var v1 := Starting(Applied(ab), Normal(ab, None));
    var v2 := v1.(flight := Normal(ab, Some(CountAfter(0, true))));
    var v3 := Respec(v2, ba);
    var v4 := v3.(flight := Idle);
    var v5 := Starting(v4, Normal(ba, None));
    var v6 := Writing(v5, "b", LEADER);
    assert Start(Applied(ab), v1) && Count(v1, v2) && Rewrote(v2, v3, "b") && Abort(v3, v4) && Start(v4, v5);
    assert Wrote(v5, v6, "b", LEADER);
    t := AppliedAndDied(ab, g);
    t := Step(t, v1, g);
    t := Step(t, v2, g);
    t := Step(t, v3, g);
    t := Step(t, v4, g);
    t := Step(t, v5, g);
    t := Step(t, v6, g);
    assert WriterAt(v6.w, "a") && WriterAt(v6.w, "b");
  }

  // ---------- a failover hands on the misses ----------

  /** A failover is recorded, and the very next pass, which misses the new primary for the first time, rewrites the
      roles away from it. */
  ghost predicate OneMissRewrites(r: seq<View>, n: string) {
    && |r| == 5 && r[0].flight.Failing? && Recorded(r[0], r[1]) && Start(r[1], r[2])
    && Count(r[2], r[3]) && Rewrote(r[3], r[4], n)
    && r[1].w.status.currentPrimary == r[0].flight.to == PrimaryName(r[3].flight.copy.clusters)
    && r[4].w.status == r[1].w.status
  }

  /** At every threshold above 1, from any state with a failover about to be recorded one miss short of it. */
  lemma {:induction false} FailoverCarriesTheCount(v: View, n: string) returns (r: seq<View>)
    requires Inv(v) && v.flight.Failing? && v.flight.demoted && ValidClusters(v.w.spec.clusters)
    requires v.w.spec.auto.enabled && v.w.status.failureCount == Threshold(v.w.spec.auto) - 1 >= 1
    requires Named(v.w.spec.clusters, n) && n != v.flight.to
    ensures OneMissRewrites(r, n) && r[0] == v
  {
    assert Commits(v, v.flight.to);
    var spec, count := v.w.spec, v.w.status.failureCount;
    var v1 := View(v.w.(status := v.w.status.(currentPrimary := v.flight.to)), Idle);
    var v2 := v1.(flight := Normal(spec, None));
    var v3 := v1.(flight := Normal(spec, Some(CountAfter(count, true))));
    var v4 := v3.(w := v3.w.(spec := spec.(clusters := Promote(spec.clusters, n))));
    assert Count(v2, v3) && Rewrote(v3, v4, n);
    r := [v, v1, v2, v3, v4];
  }

  const PATIENT := AutoFailover(true, 2)

  /** A user moves the role from a, missed once, to b, and the failover has demoted a. */
  lemma {:induction false} MovedAfterOneMiss() returns (t: seq<View>)
    ensures IsRun(t, ALL) && t[|t| - 1].flight == Failing("a", "b", true)
    ensures t[|t| - 1].w.spec == SpecOf(Clusters(Standby, Primary), PATIENT) && t[|t| - 1].w.status.failureCount == 1
  {
    Names();
    var ab, ba := SpecOf(Clusters(Primary, Standby), PATIENT), SpecOf(Clusters(Standby, Primary), PATIENT);
    var v0 := Fresh(ab);
    var v1 := Starting(v0, Normal(ab, None));
    var v2 := v1.(flight := Normal(ab, Some(CountAfter(0, true))));
    var v3 := v2.(w := v2.w.(status := v2.w.status.(currentPrimary := "a", failureCount := 1)), flight := Idle);
    var v4 := Respec(v3, ba);
    var v5 := Starting(v4, Failing("a", "b", false));
    var v6 := Writing(v5, "a", FOLLOWER).(flight := Failing("a", "b", true));
    assert Start(v0, v1) && Count(v1, v2) && Recorded(v2, v3) && Edit(v3, v4, ALL) && Start(v4, v5);
    assert Wrote(v5, v6, "a", FOLLOWER);
    t := [v0];
    t := Step(t, v1, ALL);
    t := Step(t, v2, ALL);
    t := Step(t, v3, ALL);
    t := Step(t, v4, ALL);
    t := Step(t, v5, ALL);
    t := Step(t, v6, ALL);
  }

  /** A run from the start that gets there: b is recorded, missed once, and left for a. */
  lemma {:induction false} AFailoverCarriesItsCount() returns (t: seq<View>)
    ensures IsRun(t, ALL) && |t| >= 5 && OneMissRewrites(t[|t| - 5..], "a")
  {
    Names();
    t := MovedAfterOneMiss();
    RunIsSafe(t, |t| - 1);
    hide IsRun;
    var v := t[|t| - 1];
    assert v.w.spec.clusters[0].name == "a";
    var r := FailoverCarriesTheCount(v, "a");
    StepsOf(r, "a");
    t := Continued(t, r);
  }

  lemma {:induction false} StepsOf(r: seq<View>, n: string)
    requires OneMissRewrites(r, n)
    ensures forall i :: 0 <= i < |r| - 1 ==> Linked(r, i, ALL)
  {}

  /** A run, and steps on from its last state. */
  lemma {:induction false} Continued(t: seq<View>, r: seq<View>) returns (t': seq<View>)
    requires IsRun(t, ALL) && r != [] && r[0] == t[|t| - 1] && forall i :: 0 <= i < |r| - 1 ==> Linked(r, i, ALL)
    ensures IsRun(t', ALL) && |t'| >= |r| && t'[|t'| - |r|..] == r
  {
    hide Next, Init;
    var init := t[..|t| - 1];
    t' := init + r;
    forall i | 0 <= i < |t'| - 1 ensures Linked(t', i, ALL) {
      if i < |init| { assert Linked(t, i, ALL); } else { assert Linked(r, i - |init|, ALL); }
    }
  }
}
