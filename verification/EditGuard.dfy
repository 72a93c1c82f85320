// The guards on spec edits are exact: an edit they refuse is one after which two clusters can become
// writable, and an edit they admit is not.
module EditGuard {
  import opened Json
  import opened Api
  import opened Kube
  import opened Builder
  import opened AutoPromotion
  import opened Machine

  /** A stretch of a run, every later edit in it within the guards. */
  ghost predicate Path(t: seq<View>) {
    t != [] && forall i :: 0 <= i < |t| - 1 ==> Linked(t, i, ALL)
  }

  ghost predicate LeadsTo(v: View, t: seq<View>) {
    Path(t) && t[0] == v && !AtMostOneWriter(t[|t| - 1].w)
  }

  /** Some continuation from v makes two clusters writable. */
  ghost predicate Endangers(v: View) {
    exists t :: LeadsTo(v, t)
  }

  function Edited(v: View, s: Spec): View {
    v.(w := v.w.(spec := s))
  }

  /** What makes the edit to a valid spec dangerous: another primary than a cluster that is writable
      unrecorded, or that the pass in flight may make so; or a rash spec before any primary is
      recorded, when there is a second cluster to move to. Between passes the first is a matter
      of the store alone. */
  ghost predicate Dangerous(v: View, s: Spec) {
    || (exists p :: Commits(v, p) && p != PrimaryName(s.clusters))
    || (v.w.status.currentPrimary == "" && Rash(s) && exists n :: n in v.w.sites && n !in {"", PrimaryName(s.clusters)})
  }

  /** Its clusters are named and have sites. */
  ghost predicate Placed(v: View, s: Spec) {
    HasSites(v.w, s.clusters) && forall i :: 0 <= i < |s.clusters| ==> s.clusters[i].name != ""
  }

  // ---------- an admitted edit is safe ----------

  lemma {:induction false} PathKeeps(t: seq<View>, i: int)
    requires Path(t) && Inv(t[0]) && 0 <= i < |t|
    ensures Inv(t[i])
  {
    if i > 0 {
      PathKeeps(t, i - 1);
      assert Linked(t, i - 1, ALL);
      StepKeeps(t[i - 1], t[i]);
    }
  }

  lemma {:induction false} InvIsSafe(v: View)
    requires Inv(v)
    ensures !Endangers(v)
  {
    forall t ensures !LeadsTo(v, t) {
      if LeadsTo(v, t) { PathKeeps(t, |t| - 1); }
    }
  }

  /** With one name to give, only that cluster is ever writable. */
  ghost predicate Lone(v: View, q: string) {
    && (forall n :: n in v.w.sites ==> n in {"", q}) && v.w.status.currentPrimary in {"", q}
    && (forall n :: WriterAt(v.w, n) ==> n == q)
    && LoneSpec(v.w, v.w.spec, q) && !v.flight.Failing?
    && (v.flight.Normal? ==> LoneSpec(v.w, v.flight.copy, q) && ValidClusters(v.flight.copy.clusters))
  }

  ghost predicate LoneSpec(w: World, s: Spec, q: string) {
    && HasSites(w, s.clusters) && (forall i :: 0 <= i < |s.clusters| ==> s.clusters[i].name != "")
    && (ValidClusters(s.clusters) ==> PrimaryName(s.clusters) == q)
  }

  lemma {:induction false} LoneNames(w: World, s: Spec, q: string)
    requires HasSites(w, s.clusters) && (forall i :: 0 <= i < |s.clusters| ==> s.clusters[i].name != "")
    requires forall n :: n in w.sites ==> n in {"", q}
    ensures LoneSpec(w, s, q)
  {
    if ValidClusters(s.clusters) { PrimaryIsNamed(s.clusters); }
  }

  lemma {:induction false} LoneKeeps(v: View, v': View, q: string)
    requires Lone(v, q) && Next(v, v', ALL)
    ensures Lone(v', q)
  {
    if n, obj :| Wrote(v, v', n, obj) {
      assert forall k :: k != n ==> (WriterAt(v'.w, k) <==> WriterAt(v.w, k));
      assert WriterAt(v'.w, n) <==> Writable(obj);
    } else {
      assert forall k :: WriterAt(v'.w, k) <==> WriterAt(v.w, k);
      if !(exists n :: Rewrote(v, v', n)) {
        LoneNames(v'.w, v'.w.spec, q);
      }
    }
  }

  lemma {:induction false} LoneIsSafe(v: View, q: string)
    requires Lone(v, q)
    ensures !Endangers(v)
  {
    forall t ensures !LeadsTo(v, t) {
      if LeadsTo(v, t) { LonePath(t, q, |t| - 1); }
    }
  }

  lemma {:induction false} LonePath(t: seq<View>, q: string, i: int)
    requires Path(t) && Lone(t[0], q) && 0 <= i < |t|
    ensures Lone(t[i], q)
  {
    if i > 0 {
      LonePath(t, q, i - 1);
      assert Linked(t, i - 1, ALL);
      LoneKeeps(t[i - 1], t[i], q);
    }
  }

  // ---------- a refused edit is dangerous ----------

  /** One step before a path. */
  lemma {:induction false} StepFirst(v: View, u: View)
    requires Next(v, u, ALL) && Endangers(u)
    ensures Endangers(v)
  {
    var t :| LeadsTo(u, t);
    var t' := [v] + t;
    forall i | 0 <= i < |t'| - 1 ensures Linked(t', i, ALL) {
      assert i > 0 ==> Linked(t, i - 1, ALL);
    }
    assert LeadsTo(v, t');
  }

  lemma {:induction false} TwoWriters(v: View, a: string, b: string)
    requires WriterAt(v.w, a) && WriterAt(v.w, b) && a != b
    ensures Endangers(v)
  {
    assert LeadsTo(v, [v]);
  }

  const LEADER := Obj(map[])
  const FOLLOWER := Obj(map["spec" := Obj(map["standby" := Obj(map[])])])

  function Writing(v: View, n: string, obj: Json): View {
    v.(w := v.w.(pg := v.w.pg[n := obj]))
  }

  /** Between passes: an unrecorded writer p, and a valid spec with another primary. */
  lemma {:induction false} SecondPrimary(v: View, p: string)
    requires v.flight.Idle? && ValidClusters(v.w.spec.clusters)
    requires Unrecorded(v.w, p) && p != PrimaryName(v.w.spec.clusters)
    ensures Endangers(v)
  {
    var cp, q := v.w.status.currentPrimary, PrimaryName(v.w.spec.clusters);
    if cp in {"", q} {
      var v1 := v.(flight := Normal(v.w.spec, None));
      var v2 := Writing(v1, q, LEADER);
      assert Start(v, v1) && Wrote(v1, v2, q, LEADER);
      TwoWriters(v2, p, q);
      StepFirst(v1, v2);
      StepFirst(v, v1);
    } else {
      var v1 := v.(flight := Failing(cp, q, false));
      var v2 := Writing(v1, cp, FOLLOWER).(flight := Failing(cp, q, true));
      var v3 := Writing(v2, q, LEADER);
      assert Start(v, v1) && Wrote(v1, v2, cp, FOLLOWER) && Wrote(v2, v3, q, LEADER);
      TwoWriters(v3, p, q);
      StepFirst(v2, v3);
      StepFirst(v1, v2);
      StepFirst(v, v1);
    }
  }

  /** Under a pass in flight that is bound to p: it makes p writable and dies. */
  lemma {:induction false} BoundPrimary(v: View, p: string)
    requires Bound(v) == Some(p) && ValidClusters(v.w.spec.clusters) && p != PrimaryName(v.w.spec.clusters)
    requires p != v.w.status.currentPrimary && (v.flight.Failing? ==> v.flight.from == v.w.status.currentPrimary)
    ensures Endangers(v)
  {
    if v.flight.Failing? {
      var v1 := Writing(v, v.flight.from, FOLLOWER).(flight := v.flight.(demoted := true));
      var v2 := Writing(v1, p, LEADER);
      var v3 := v2.(flight := Idle);
      assert Wrote(v, v1, v.flight.from, FOLLOWER) && Wrote(v1, v2, p, LEADER) && Abort(v2, v3);
      SecondPrimary(v3, p);
      StepFirst(v2, v3);
      StepFirst(v1, v2);
      StepFirst(v, v1);
    } else {
      var v1 := Writing(v, p, LEADER);
      var v2 := v1.(flight := Idle);
      assert Wrote(v, v1, p, LEADER) && Abort(v1, v2);
      SecondPrimary(v2, p);
      StepFirst(v1, v2);
      StepFirst(v, v1);
    }
  }

  function Pair(s: Spec, q: string, other: string): Spec {
    s.(clusters := [Target(q, "", "", "", Primary, "", 0), Target(other, "", "", "", Standby, "", 0)],
       auto := AutoFailover(true, 2))
  }

  lemma {:induction false} PairIsValid(s: Spec, q: string, other: string)
    requires q != other
    ensures var ts := Pair(s, q, other).clusters;
      && ValidClusters(ts) && PrimaryName(ts) == q && Named(ts, other)
      && |ts| == 2 && ts[0].name == q && ts[1].name == other
  {
    var ts := Pair(s, q, other).clusters;
    assert SolePrimary(ts, 0);
    assert ts[1].name == other;
  }

  /** Before a primary is recorded, a failure count of one is as good as a threshold of one. */
  lemma {:induction false} CountedTooEarly(v: View, s: Spec, q: string, other: string)
    requires v.flight.Idle? && v.w.status.currentPrimary == "" && v.w.status.failureCount == 1
    requires v.w.spec == Pair(s, q, other) && q != other
    ensures Endangers(v)
  {
    PairIsValid(s, q, other);
    var copy := v.w.spec;
    PromoteKeepsValidity(copy.clusters, other);
    var v1 := v.(flight := Normal(copy, None));
    var v2 := Writing(v1, q, LEADER);
    var v3 := v2.(flight := Idle);
    var v4 := v2;
    var v5 := v4.(flight := Normal(copy, Some(2)));
    var v6 := v5.(w := v5.w.(spec := copy.(clusters := Promote(copy.clusters, other))));
    var v7 := v6.(flight := Idle);
    var v8 := v7.(flight := Normal(v7.w.spec, None));
    var v9 := Writing(v8, other, LEADER);
    assert Start(v, v1) && Wrote(v1, v2, q, LEADER) && Abort(v2, v3) && Start(v3, v4);
    assert v5 == v4.(flight := v4.flight.(count := Some(CountAfter(v4.w.status.failureCount, true))));
    assert Count(v4, v5) && Rewrote(v5, v6, other) && Abort(v6, v7) && Start(v7, v8) && Wrote(v8, v9, other, LEADER);
    TwoWriters(v9, q, other);
    StepFirst(v8, v9);
    StepFirst(v7, v8);
    StepFirst(v6, v7);
    StepFirst(v5, v6);
    StepFirst(v4, v5);
    StepFirst(v3, v4);
    StepFirst(v2, v3);
    StepFirst(v1, v2);
    StepFirst(v, v1);
  }

  /** A rash spec lets the first miss be counted, without a primary ever being recorded. */
  lemma {:induction false} RashSpec(v: View, other: string)
    requires v.flight.Idle? && v.w.status.currentPrimary == "" && v.w.status.failureCount == 0 && Rash(v.w.spec)
    requires var q := PrimaryName(v.w.spec.clusters);
      && q in v.w.sites && other in v.w.sites && q != other && "" !in {q, other}
      && (forall n :: WriterAt(v.w, n) ==> n == q)
    ensures Endangers(v)
  {
    var copy, q := v.w.spec, PrimaryName(v.w.spec.clusters);
    PairIsValid(copy, q, other);
    var v1 := v.(flight := Normal(copy, None));
    var v2 := v1.(flight := Normal(copy, Some(1)));
    var v3 := v.(w := v.w.(status := v.w.status.(failureCount := 1)));
    var v4 := Edited(v3, Pair(copy, q, other));
    assert v2 == v1.(flight := v1.flight.(count := Some(CountAfter(v1.w.status.failureCount, true))));
    assert Start(v, v1) && Count(v1, v2) && Recorded(v2, v3);
    assert forall n :: WriterAt(v3.w, n) <==> WriterAt(v.w, n);
    assert Edit(v3, v4, ALL);
    CountedTooEarly(v4, copy, q, other);
    StepFirst(v3, v4);
    StepFirst(v2, v3);
    StepFirst(v1, v2);
    StepFirst(v, v1);
  }

  // ---------- exactly ----------

  lemma {:induction false} SafeUnlessDangerous(v: View, s: Spec)
    requires Inv(v) && Placed(v, s) && ValidClusters(s.clusters) && !Dangerous(v, s)
    ensures !Endangers(Edited(v, s))
  {
    var v', q := Edited(v, s), PrimaryName(s.clusters);
    assert forall p :: Unrecorded(v.w, p) ==> Commits(v, p);
    if v.w.status.currentPrimary == "" && Rash(s) {
      LoneNames(v.w, s, q);
      assert forall n :: WriterAt(v.w, n) ==> Unrecorded(v.w, n);
      if v.flight.Normal? { LoneNames(v.w, v.flight.copy, q); }
      assert forall n :: WriterAt(v'.w, n) <==> WriterAt(v.w, n);
      LoneIsSafe(v', q);
    } else {
      assert Bound(v).Some? ==> Commits(v, Bound(v).value);
      assert Edit(v, v', ALL);
      StepKeeps(v, v');
      InvIsSafe(v');
    }
  }

  lemma {:induction false} DangerousIsReal(v: View, s: Spec)
    requires Inv(v) && Placed(v, s) && ValidClusters(s.clusters) && Dangerous(v, s)
    ensures Endangers(Edited(v, s))
  {
    var v', q := Edited(v, s), PrimaryName(s.clusters);
    var v'' := v'.(flight := Idle);
    assert Abort(v', v'');
    if p :| Bound(v) == Some(p) && p != q {
      if v.flight.Normal? { PrimaryIsNamed(v.flight.copy.clusters); }
      BoundPrimary(v', p);
    } else if p :| Unrecorded(v.w, p) && p != q {
      SecondPrimary(v'', p);
      StepFirst(v', v'');
    } else {
      var n :| n in v.w.sites && n !in {"", q};
      PrimaryIsNamed(s.clusters);
      assert forall k :: WriterAt(v''.w, k) ==> Unrecorded(v.w, k);
      RashSpec(v'', n);
      StepFirst(v', v'');
    }
  }

  /** What makes an edit to an invalid spec dangerous: it turns a failover in flight, which reads the spec again
      without validating it, away from an unrecorded writer. */
  ghost predicate Misleading(v: View, s: Spec) {
    && v.flight.Failing? && !v.flight.demoted
    && exists p :: Unrecorded(v.w, p) && Rebound(s.clusters, v.flight.from) !in {None, Some(p)}
  }

  lemma {:induction false} MisleadingIsReal(v: View, s: Spec)
    requires Inv(v) && Misleading(v, s)
    ensures Endangers(Edited(v, s))
  {
    var v0, cp, to := Edited(v, s), v.flight.from, Rebound(s.clusters, v.flight.from).value;
    var p :| Unrecorded(v.w, p) && p != to;
    ReboundIs(s.clusters, cp);
    var v1 := v0.(flight := Failing(cp, to, false));
    var v2 := Writing(v1, cp, FOLLOWER).(flight := Failing(cp, to, true));
    var v3 := Writing(v2, to, LEADER);
    assert Reread(v0, v1) && Wrote(v1, v2, cp, FOLLOWER) && Wrote(v2, v3, to, LEADER);
    TwoWriters(v3, p, to);
    StepFirst(v2, v3);
    StepFirst(v1, v2);
    StepFirst(v0, v1);
  }

  /** Main result on the guards: in any state a run within them can be in, at any moment of any pass, an edit
      can lead to two writable clusters if and only if it is dangerous, or invalid and misleading. */
  lemma {:induction false} EditGuardIsExact(v: View, s: Spec)
    requires Inv(v) && Placed(v, s)
    ensures Endangers(Edited(v, s)) <==> if ValidClusters(s.clusters) then Dangerous(v, s) else Misleading(v, s)
  {
    if ValidClusters(s.clusters) {
      if Dangerous(v, s) { DangerousIsReal(v, s); } else { SafeUnlessDangerous(v, s); }
    } else if Misleading(v, s) {
      MisleadingIsReal(v, s);
    } else {
      assert Edit(v, Edited(v, s), ALL);
      StepKeeps(v, Edited(v, s));
      InvIsSafe(Edited(v, s));
    }
  }

  /** Between passes the commitment is to the unrecorded writer and to nothing else: one look at the store. */
  lemma {:induction false} BetweenPasses(v: View, s: Spec)
    requires Inv(v) && v.flight.Idle? && Placed(v, s) && ValidClusters(s.clusters)
    requires v.w.status.currentPrimary == "" ==> !Rash(s)
    ensures Endangers(Edited(v, s)) <==>
            exists p :: WriterAt(v.w, p) && p != v.w.status.currentPrimary && p != PrimaryName(s.clusters)
  {
    EditGuardIsExact(v, s);
    assert forall p :: WriterAt(v.w, p) && p != v.w.status.currentPrimary ==> Commits(v, p);
  }
}
