// The operator as a state machine over the durable store. A step is one remote write that took
// effect, the start or end of a pass, or an edit of the spec by a user. A write that fails without
// effect is no step; one that takes effect but reports an error is the step followed by an abort.
module Machine {
  import opened Json
  import opened Api
  import opened Kube
  import opened Builder
  import opened AutoPromotion

  /** The pass being run. A normal pass keeps the copy of the spec it started from and, once it has
      looked for the primary, the failure count it will store. */
  datatype Flight =
    | Idle
    | Normal(copy: Spec, count: Option<int>)
    | Failing(from: string, to: string, demoted: bool)

  datatype View = View(w: World, flight: Flight)

  /** What the environment is asked to respect.
      install: no edit against the commitments below while no primary is recorded.
      failover: nor while one is.
      threshold: before a primary is recorded, automatic failover waits for at least two passes. */
  datatype Guards = Guards(install: bool, failover: bool, threshold: bool)

  const ALL := Guards(true, true, true)

  predicate WriterAt(w: World, n: string) {
    n in w.pg && Writable(w.pg[n])
  }

  /** Cluster p is writable and status.currentPrimary does not show it. */
  predicate Unrecorded(w: World, p: string) {
    WriterAt(w, p) && p != w.status.currentPrimary
  }

  /** The unrecorded cluster that the pass in flight may still make writable. */
  function Bound(v: View): Option<string> {
    match v.flight
    case Idle => None
    case Normal(copy, _) => if v.w.status.currentPrimary == "" then Some(PrimaryName(copy.clusters)) else None
    case Failing(_, to, _) => Some(to)
  }

  /** Automatic failover takes over the first pass that misses the primary. */
  predicate Rash(s: Spec) {
    ValidClusters(s.clusters) && s.auto.enabled && Threshold(s.auto) < 2
  }

  predicate Admitted(s: Spec, cp: string, g: Guards) {
    && (forall i :: 0 <= i < |s.clusters| ==> s.clusters[i].name != "")
    && (g.threshold && cp == "" ==> !Rash(s))
  }

  ghost predicate SameCore(w: World, w': World) {
    && w'.pg == w.pg && w'.spec == w.spec && w'.sites.Keys == w.sites.Keys
    && w'.status.currentPrimary == w.status.currentPrimary
    && w'.status.failureCount == w.status.failureCount
  }

  /** At the start no primary is recorded and nothing is writable but, perhaps, the spec's primary. */
  ghost predicate Init(v: View, g: Guards) {
    && v.flight.Idle? && v.w.status.currentPrimary == "" && v.w.status.failureCount == 0
    && Admitted(v.w.spec, "", g) && HasSites(v.w, v.w.spec.clusters)
    && forall n :: WriterAt(v.w, n) ==> ValidClusters(v.w.spec.clusters) && n == PrimaryName(v.w.spec.clusters)
  }

  /** A failover pass starts when the recorded primary is not the one in the spec. */
  ghost predicate Start(v: View, v': View) {
    var cp, p := v.w.status.currentPrimary, PrimaryName(v.w.spec.clusters);
    && v.flight.Idle? && ValidClusters(v.w.spec.clusters) && v'.w == v.w
    && v'.flight == (if cp != "" && cp != p then Failing(cp, p, false) else Normal(v.w.spec, None))
  }

  /** The cluster a failover away from cp takes for its new primary: the last one with the primary role, cp aside. */
  function Rebound(ts: seq<Target>, cp: string): Option<string> {
    if ts == [] then None
    else if ts[|ts| - 1].role.Primary? && ts[|ts| - 1].name != cp then Some(ts[|ts| - 1].name)
    else Rebound(ts[..|ts| - 1], cp)
  }

  /** Having announced itself, a failover pass goes on with the spec as it is by then, and does not validate it. */
  ghost predicate Reread(v: View, v': View) {
    && v.flight.Failing? && !v.flight.demoted
    && var to := Rebound(v.w.spec.clusters, v.flight.from);
    to.Some? && v' == v.(flight := v.flight.(to := to.value))
  }

  ghost predicate Count(v: View, v': View) {
    && v.flight.Normal? && v.flight.count.None?
    && (exists down :: v' == v.(flight := v.flight.(count := Some(CountAfter(v.w.status.failureCount, down)))))
  }

  /** A normal pass writes only its own primary without a standby section. A failover pass writes
      the new primary so only after the old one is demoted. */
  predicate MayWrite(f: Flight, n: string, obj: Json) {
    match f
    case Idle => false
    case Normal(copy, _) => n == PrimaryName(copy.clusters) || !Writable(obj)
    case Failing(_, to, demoted) => if n == to then demoted else !Writable(obj)
  }

  ghost predicate Wrote(v: View, v': View, n: string, obj: Json) {
    && MayWrite(v.flight, n, obj)
    && v'.w == v.w.(pg := v.w.pg[n := obj])
    && (|| v'.flight == v.flight
        || (v.flight.Failing? && n == v.flight.from && v'.flight == v.flight.(demoted := true)))
  }

  /** Automatic failover rewrites the roles of the pass's copy of the clusters. */
  ghost predicate Rewrote(v: View, v': View, n: string) {
    && v.flight.Normal? && v.flight.count.Some? && Fires(v.flight.copy.auto, v.flight.count.value)
    && Named(v.flight.copy.clusters, n) && n != PrimaryName(v.flight.copy.clusters)
    && v'.w.spec == v.w.spec.(clusters := Promote(v.flight.copy.clusters, n))
    && v'.w == v.w.(spec := v'.w.spec, generation := v'.w.generation)
    && v'.flight == v.flight
  }

  ghost predicate Recorded(v: View, v': View) {
    var cp, n := v'.w.status.currentPrimary, v'.w.status.failureCount;
    && v'.w.pg == v.w.pg && v'.w.spec == v.w.spec && v'.w.sites == v.w.sites && v'.flight.Idle?
    && match v.flight {
      case Idle => false
      case Normal(copy, count) =>
        && count.Some?
        && (|| (cp == PrimaryName(copy.clusters) && n == count.value)
            || (Fires(copy.auto, count.value) && cp == v.w.status.currentPrimary && (n == count.value || n == 0)))
      case Failing(_, to, demoted) =>
        demoted && cp == to && n == v.w.status.failureCount
    }
  }

  ghost predicate Abort(v: View, v': View) {
    v' == v.(flight := Idle)
  }

  ghost predicate Elsewhere(v: View, v': View) {
    SameCore(v.w, v'.w) && v'.flight == v.flight
  }

  predicate Asked(w: World, g: Guards) {
    if w.status.currentPrimary == "" then g.install else g.failover
  }

  /** A valid spec may not name another primary than an unrecorded writer, nor than the cluster the pass in
      flight may make one. An invalid one may not turn a failover in flight away from an unrecorded writer. */
  predicate EditAllowed(v: View, s: Spec, g: Guards) {
    && Admitted(s, v.w.status.currentPrimary, g) && HasSites(v.w, s.clusters)
    && (Asked(v.w, g) ==>
          if ValidClusters(s.clusters) then
            && (forall p | p in v.w.pg :: Unrecorded(v.w, p) ==> PrimaryName(s.clusters) == p)
            && (Bound(v).Some? ==> PrimaryName(s.clusters) == Bound(v).value)
          else v.flight.Failing? && !v.flight.demoted ==>
            forall p | p in v.w.pg :: Unrecorded(v.w, p) ==> Rebound(s.clusters, v.flight.from) in {None, Some(p)})
  }

  /** A user edits the spec, at any moment of any pass. */
  ghost predicate Edit(v: View, v': View, g: Guards) {
    && EditAllowed(v, v'.w.spec, g)
    && v' == v.(w := v.w.(spec := v'.w.spec, generation := v'.w.generation))
  }

  ghost predicate Next(v: View, v': View, g: Guards) {
    || Start(v, v') || Count(v, v') || (exists n, obj :: Wrote(v, v', n, obj))
    || (exists n :: Rewrote(v, v', n)) || Reread(v, v') || Recorded(v, v')
    || Abort(v, v') || Elsewhere(v, v') || Edit(v, v', g)
  }

  ghost predicate Linked(t: seq<View>, i: int, g: Guards) {
    0 <= i < |t| - 1 && Next(t[i], t[i + 1], g)
  }

  ghost predicate IsRun(t: seq<View>, g: Guards) {
    && t != [] && Init(t[0], g)
    && forall i :: 0 <= i < |t| - 1 ==> Linked(t, i, g)
  }

  // ---------- safety ----------

  ghost predicate OnlyWriter(w: World, n: string) {
    forall k :: WriterAt(w, k) ==> k == n
  }

  ghost predicate AtMostOneWriter(w: World) {
    forall a, b :: WriterAt(w, a) && WriterAt(w, b) ==> a == b
  }

  /** A cluster that is writable unrecorded, or that the pass in flight may make so. */
  ghost predicate Commits(v: View, p: string) {
    Unrecorded(v.w, p) || Bound(v) == Some(p)
  }

  ghost predicate FlightOk(v: View) {
    var cp := v.w.status.currentPrimary;
    match v.flight
    case Idle => true
    case Normal(copy, count) =>
      var p := PrimaryName(copy.clusters);
      && ValidClusters(copy.clusters) && Admitted(copy, cp, ALL) && HasSites(v.w, copy.clusters)
      && cp in {"", p} && OnlyWriter(v.w, p)
      && (count.Some? ==> 0 <= count.value <= v.w.status.failureCount + 1)
    case Failing(from, to, demoted) =>
      && from == cp != "" && to !in {cp, ""} && (forall n :: WriterAt(v.w, n) ==> n == cp || n == to)
      && (if demoted then !WriterAt(v.w, cp)
          else forall p :: Unrecorded(v.w, p) ==> Rebound(v.w.spec.clusters, cp) in {None, Some(p)})
  }

  /** At most one writer; and a valid spec names every cluster there is a commitment to. */
  ghost predicate Inv(v: View) {
    && AtMostOneWriter(v.w) && !WriterAt(v.w, "") && FlightOk(v)
    && (forall p :: Commits(v, p) && ValidClusters(v.w.spec.clusters) ==> PrimaryName(v.w.spec.clusters) == p)
    && Admitted(v.w.spec, v.w.status.currentPrimary, ALL) && HasSites(v.w, v.w.spec.clusters)
    && v.w.status.failureCount >= 0
    && (v.w.status.failureCount > 0 ==> v.w.status.currentPrimary != "")
  }

  lemma {:induction false} PrimaryIsNamed(ts: seq<Target>)
    requires ValidClusters(ts)
    ensures exists i :: 0 <= i < |ts| && ts[i].name == PrimaryName(ts)
  {
    var i :| SolePrimary(ts, i);
    PrimaryNameIsSole(ts, i);
  }

  lemma {:induction false} ReboundIs(ts: seq<Target>, cp: string)
    ensures Rebound(ts, cp).None? <==> forall t :: t in ts && t.role.Primary? ==> t.name == cp
    ensures Rebound(ts, cp).Some? ==>
              exists t :: t in ts && t.role.Primary? && t.name != cp && Rebound(ts, cp) == Some(t.name)
  {
    if ts != [] {
      var init, last := ts[..|ts| - 1], ts[|ts| - 1];
      assert forall t :: t in ts <==> t in init || t == last;
      ReboundIs(init, cp);
    }
  }

  /** In a valid spec with another primary that is the primary. */
  lemma {:induction false} ValidRebinds(ts: seq<Target>, cp: string)
    requires ValidClusters(ts)
    ensures Rebound(ts, cp) == if PrimaryName(ts) == cp then None else Some(PrimaryName(ts))
  {
    ReboundIs(ts, cp);
    forall t | t in ts ensures t.role.Primary? <==> t.name == PrimaryName(ts) {
      var k :| 0 <= k < |ts| && ts[k] == t;
      PrimaryByName(ts, k);
    }
    var i :| SolePrimary(ts, i);
    PrimaryNameIsSole(ts, i);
    assert ts[i] in ts;
  }

  lemma {:induction false} StartKeeps(v: View, v': View)
    requires Inv(v) && Start(v, v')
    ensures Inv(v')
  {
    ValidRebinds(v.w.spec.clusters, v.w.status.currentPrimary);
    PrimaryIsNamed(v.w.spec.clusters);
    assert forall p :: WriterAt(v.w, p) && p != v.w.status.currentPrimary ==> Commits(v, p);
  }

  lemma {:induction false} WroteKeeps(v: View, v': View, n: string, obj: Json)
    requires Inv(v) && Wrote(v, v', n, obj)
    ensures Inv(v')
  {
    assert forall k :: k != n ==> (WriterAt(v'.w, k) <==> WriterAt(v.w, k));
    assert WriterAt(v'.w, n) <==> Writable(obj);
    assert forall p :: Commits(v', p) ==> Commits(v, p);
    if v.flight.Normal? { PrimaryIsNamed(v.flight.copy.clusters); }
    assert forall p :: Unrecorded(v'.w, p) && p != n ==> Unrecorded(v.w, p);
    assert v.flight.Failing? ==> Commits(v, v.flight.to);
  }

  lemma {:induction false} RereadKeeps(v: View, v': View)
    requires Inv(v) && Reread(v, v')
    ensures Inv(v')
  {
    var ts, cp := v.w.spec.clusters, v.flight.from;
    ReboundIs(ts, cp);
    if ValidClusters(ts) { ValidRebinds(ts, cp); }
    assert forall n :: WriterAt(v.w, n) && n != cp ==> Unrecorded(v.w, n);
    assert forall p :: Unrecorded(v'.w, p) <==> Unrecorded(v.w, p);
  }

  lemma {:induction false} EditKeeps(v: View, v': View)
    requires Inv(v) && Edit(v, v', ALL)
    ensures Inv(v')
  {
    if ValidClusters(v'.w.spec.clusters) { ValidRebinds(v'.w.spec.clusters, v.w.status.currentPrimary); }
    assert forall k :: WriterAt(v'.w, k) <==> WriterAt(v.w, k);
    assert Bound(v') == Bound(v);
    assert forall p :: Unrecorded(v'.w, p) ==> p in v.w.pg && Unrecorded(v.w, p);
  }

  lemma {:induction false} RewroteKeeps(v: View, v': View, n: string)
    requires Inv(v) && Rewrote(v, v', n)
    ensures Inv(v')
  {
    var ts, ts' := v.flight.copy.clusters, v'.w.spec.clusters;
    PrimaryIsNamed(ts);
    assert v.w.status.currentPrimary == "" ==> Rash(v.flight.copy);
    assert forall k :: WriterAt(v'.w, k) <==> WriterAt(v.w, k);
    assert forall i :: 0 <= i < |ts'| ==> ts'[i].name == ts[i].name && ts[i].name in v.w.sites;
  }

  lemma {:induction false} RecordedKeeps(v: View, v': View)
    requires Inv(v) && Recorded(v, v')
    ensures Inv(v')
  {
    assert forall k :: WriterAt(v'.w, k) <==> WriterAt(v.w, k);
    if v.flight.Normal? { PrimaryIsNamed(v.flight.copy.clusters); }
    assert v.flight.Failing? ==> Commits(v, v.flight.to);
    assert v.flight.Normal? && v.w.status.currentPrimary == "" ==> !Rash(v.flight.copy);
    assert forall p :: Commits(v', p) ==> Commits(v, p);
  }

  lemma {:induction false} StepKeeps(v: View, v': View)
    requires Inv(v) && Next(v, v', ALL)
    ensures Inv(v')
  {
    if Start(v, v') {
      StartKeeps(v, v');
    } else if n, obj :| Wrote(v, v', n, obj) {
      WroteKeeps(v, v', n, obj);
    } else if n :| Rewrote(v, v', n) {
      RewroteKeeps(v, v', n);
    } else if Reread(v, v') {
      RereadKeeps(v, v');
    } else if Recorded(v, v') {
      RecordedKeeps(v, v');
    } else if Edit(v, v', ALL) {
      EditKeeps(v, v');
    } else {
      assert forall k :: WriterAt(v'.w, k) <==> WriterAt(v.w, k);
      assert Bound(v').None? || Bound(v') == Bound(v);
      assert forall p :: Commits(v', p) ==> Commits(v, p);
    }
  }

  /** Main result: over any number of passes, faults, retries and allowed edits, at most one cluster is
      writable at every moment. It is the recorded primary or, in a valid spec, the spec's; and the target
      of a failover is never writable while the old primary still is. */
  lemma {:induction false} RunIsSafe(t: seq<View>, i: int)
    requires IsRun(t, ALL) && 0 <= i < |t|
    ensures Inv(t[i]) && AtMostOneWriter(t[i].w)
    ensures forall n :: WriterAt(t[i].w, n) && ValidClusters(t[i].w.spec.clusters) ==>
              n in {t[i].w.status.currentPrimary, PrimaryName(t[i].w.spec.clusters)}
    ensures t[i].flight.Failing? && WriterAt(t[i].w, t[i].flight.to) ==> !WriterAt(t[i].w, t[i].flight.from)
  {
    if i == 0 {
      if ValidClusters(t[0].w.spec.clusters) { PrimaryIsNamed(t[0].w.spec.clusters); }
    } else {
      RunIsSafe(t, i - 1);
      assert Linked(t, i - 1, ALL);
      StepKeeps(t[i - 1], t[i]);
    }
    assert forall n :: WriterAt(t[i].w, n) && n != t[i].w.status.currentPrimary ==> Commits(t[i], n);
  }

  lemma {:induction false} Extend(t: seq<View>, v: View, g: Guards)
    requires IsRun(t, g) && Next(t[|t| - 1], v, g)
    ensures IsRun(t + [v], g)
  {
    var t' := t + [v];
    forall i | 0 <= i < |t'| - 1 ensures Linked(t', i, g) {
      assert i < |t| - 1 ==> Linked(t, i, g);
    }
  }

  /** After automatic failover rewrote the roles, the next pass is the failover to the chosen cluster,
      provided the spec is still the rewritten one. */
  lemma {:induction false} RewriteLeadsToFailover(v: View, v': View, n: string, u: View, u': View)
    requires Inv(v) && Rewrote(v, v', n)
    requires u.w.spec.clusters == v'.w.spec.clusters && u.w.status.currentPrimary == v.w.status.currentPrimary
    requires u.flight.Idle? && Start(u, u')
    ensures ValidClusters(u.w.spec.clusters) && u'.flight == Failing(v.w.status.currentPrimary, n, false)
  {
    PromoteKeepsValidity(v.flight.copy.clusters, n);
  }
}
