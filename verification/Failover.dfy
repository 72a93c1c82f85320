// The failover sequence: demote the old primary, promote the new one, repoint the other standbys and
// move the aliases (internal/failover/orchestrator.go).
module Failover {
  import opened Json
  import opened Api
  import opened Kube
  import opened Builder
  import opened Machine
  import opened Remote
  import opened CrossCluster

  datatype Resolved = Resolved(t: Target, host: string, port: Int32)

  /** `from` is None when the recorded primary is no longer in the spec. */
  datatype Plan = Plan(mc: string, spec: Spec, from: Option<Resolved>, to: Resolved, others: seq<Resolved>)

  /** The clusters that end as standbys, in the order their aliases are moved. */
  function Standbys(p: Plan): seq<Resolved> {
    p.others + (if p.from.Some? then [p.from.value] else [])
  }

  predicate Apart(p: Plan, i: nat, j: nat)
    requires i < |Standbys(p)| && j < |Standbys(p)|
  {
    Standbys(p)[i].t.name != Standbys(p)[j].t.name
  }

  predicate WellFormed(p: Plan) {
    && !IsStandby(p, p.to.t.name)
    && (forall i, j :: 0 <= i < j < |Standbys(p)| ==> Apart(p, i, j))
  }

  predicate IsStandby(p: Plan, n: string) {
    exists i :: 0 <= i < |Standbys(p)| && Standbys(p)[i].t.name == n
  }

  function PortOf(p: Plan): Int32 {
    if p.to.port == 0 then 5432 else p.to.port
  }

  /** The old primary is sent straight to the new one's host; the other standbys to the alias, by its
      name in the new primary's namespace. */
  function UpstreamHost(p: Plan, i: nat): string {
    if i < |p.others| then AliasFQDN(p.mc, p.to.t.namespace) else p.to.host
  }

  function StandbyGoal(p: Plan, i: nat): Json
    requires i < |Standbys(p)| && !p.spec.blob.Malformed?
  {
    BuildStandby(p.mc, p.spec, Standbys(p)[i].t, UpstreamHost(p, i), PortOf(p)).value
  }

  /** A promotion patches the object it can read; else it applies a new one. */
  function PromotionGoal(p: Plan, existing: Option<Json>, anew: bool): Json
    requires !p.spec.blob.Malformed?
  {
    if anew || existing.None? then BuildPrimary(p.mc, p.spec, p.to.t).value else Promoted(existing.value)
  }

  function AliasGoal(isIP: string -> bool, p: Plan, site: Site): Site {
    AliasEnsured(isIP(p.to.host), site, p.mc, p.to.host, PortOf(p))
  }

  // ---------- outcomes ----------

  predicate HalfStandbyAt(isIP: string -> bool, p: Plan, w: World, w': World, i: nat)
    requires !p.spec.blob.Malformed? && i < |Standbys(p)|
  {
    var n := Standbys(p)[i].t.name;
    && (Lookup(w'.pg, n) == Lookup(w.pg, n) || Lookup(w'.pg, n) == Some(StandbyGoal(p, i)))
    && n in w.sites && n in w'.sites
    && AliasUnderway(isIP(p.to.host), w.sites[n], w'.sites[n], p.mc, p.to.host, PortOf(p))
  }

  predicate FullStandbyAt(isIP: string -> bool, p: Plan, w: World, w': World, i: nat)
    requires !p.spec.blob.Malformed? && i < |Standbys(p)|
  {
    var n := Standbys(p)[i].t.name;
    && Lookup(w'.pg, n) == Some(StandbyGoal(p, i))
    && n in w.sites && n in w'.sites && w'.sites[n] == AliasGoal(isIP, p, w.sites[n])
  }

  predicate UntouchedAt(p: Plan, w: World, w': World, n: string) {
    && (n != p.to.t.name ==> Lookup(w'.pg, n) == Lookup(w.pg, n))
    && (n in w.sites ==> n in w'.sites && w'.sites[n] == w.sites[n])
  }

  /** An interrupted run: each cluster is as it was or as the run makes it, an alias perhaps half made. */
  ghost predicate HalfRun(isIP: string -> bool, p: Plan, w: World, w': World)
    requires !p.spec.blob.Malformed?
  {
    && w'.sites.Keys == w.sites.Keys
    && (var was, now := Lookup(w.pg, p.to.t.name), Lookup(w'.pg, p.to.t.name);
        now == was || now == Some(PromotionGoal(p, was, false)) || now == Some(PromotionGoal(p, was, true)))
    && (forall i :: 0 <= i < |Standbys(p)| ==> HalfStandbyAt(isIP, p, w, w', i))
    && (forall n :: !IsStandby(p, n) ==> UntouchedAt(p, w, w', n))
  }

  /** A run that went through; `anew` when the promotion could not read the object it replaced. */
  ghost predicate FullRun(isIP: string -> bool, p: Plan, w: World, w': World, anew: bool)
    requires !p.spec.blob.Malformed?
  {
    && w'.sites.Keys == w.sites.Keys
    && Lookup(w'.pg, p.to.t.name) == Some(PromotionGoal(p, Lookup(w.pg, p.to.t.name), anew))
    && (forall i :: 0 <= i < |Standbys(p)| ==> FullStandbyAt(isIP, p, w, w', i))
    && (forall n :: !IsStandby(p, n) ==> UntouchedAt(p, w, w', n))
  }

  lemma {:induction false} AliasUnderwayChains(ip: bool, a: Site, b: Site, c: Site, mc: string, host: string,
      port: Int32)
    requires AliasUnderway(ip, a, b, mc, host, port) && AliasUnderway(ip, b, c, mc, host, port)
    ensures AliasUnderway(ip, a, c, mc, host, port)
    ensures AliasEnsured(ip, b, mc, host, port) == AliasEnsured(ip, a, mc, host, port)
  {
    var name := AliasName(mc);
    var once := a.endpoints[name := Backend([host], port)];
    assert ip ==> once[name := Backend([host], port)] == once;
  }

  lemma {:induction false} PromotionAgain(p: Plan, was: Option<Json>, first: bool, second: bool)
    requires !p.spec.blob.Malformed?
    ensures PromotionGoal(p, Some(PromotionGoal(p, was, first)), second) == PromotionGoal(p, was, first || second)
  {
    PromotionBuildsAPrimary(p.mc, p.spec, p.to.t, "", 0);
    if was.Some? { MergeIsIdempotent(was.value, PROMOTION_PATCH); }
  }

  /** Interrupted runs of one plan chain up to an interrupted run. */
  lemma {:induction false} HalfRunsChain(isIP: string -> bool, p: Plan, a: World, b: World, c: World)
    requires !p.spec.blob.Malformed?
    requires HalfRun(isIP, p, a, b) && HalfRun(isIP, p, b, c)
    ensures HalfRun(isIP, p, a, c)
  {
    var was := Lookup(a.pg, p.to.t.name);
    PromotionAgain(p, was, false, false);
    PromotionAgain(p, was, false, true);
    PromotionAgain(p, was, true, false);
    PromotionAgain(p, was, true, true);
    forall i | 0 <= i < |Standbys(p)| ensures HalfStandbyAt(isIP, p, a, c, i) {
      var n := Standbys(p)[i].t.name;
      assert HalfStandbyAt(isIP, p, a, b, i) && HalfStandbyAt(isIP, p, b, c, i);
      AliasUnderwayChains(isIP(p.to.host), a.sites[n], b.sites[n], c.sites[n], p.mc, p.to.host, PortOf(p));
    }
    forall n | !IsStandby(p, n) ensures UntouchedAt(p, a, c, n) {
      assert UntouchedAt(p, a, b, n) && UntouchedAt(p, b, c, n);
    }
  }

  /** A run resumed after any interruption ends like one whole run. */
  lemma {:induction false} ResumedRunIsWhole(isIP: string -> bool, p: Plan, a: World, b: World, c: World, anew: bool)
    returns (anew': bool)
    requires !p.spec.blob.Malformed?
    requires HalfRun(isIP, p, a, b) && FullRun(isIP, p, b, c, anew)
    ensures FullRun(isIP, p, a, c, anew')
  {
    var was, now := Lookup(a.pg, p.to.t.name), Lookup(b.pg, p.to.t.name);
    PromotionAgain(p, was, false, anew);
    PromotionAgain(p, was, true, anew);
    anew' := if now == was then anew else if now == Some(PromotionGoal(p, was, false)) then anew else true;
    forall i | 0 <= i < |Standbys(p)| ensures FullStandbyAt(isIP, p, a, c, i) {
      var n := Standbys(p)[i].t.name;
      assert HalfStandbyAt(isIP, p, a, b, i) && FullStandbyAt(isIP, p, b, c, i);
      AliasUnderwayChains(isIP(p.to.host), a.sites[n], b.sites[n], c.sites[n], p.mc, p.to.host, PortOf(p));
    }
    forall n | !IsStandby(p, n) ensures UntouchedAt(p, a, c, n) {
      assert UntouchedAt(p, a, b, n) && UntouchedAt(p, b, c, n);
    }
  }

  /** The new primary's object, if there, is one the operator built from the same spec. */
  ghost predicate Current(p: Plan, w: World)
    requires !p.spec.blob.Malformed?
  {
    var existing := Lookup(w.pg, p.to.t.name);
    || existing.None?
    || existing == Some(BuildPrimary(p.mc, p.spec, p.to.t).value)
    || exists host, port :: existing == Some(BuildStandby(p.mc, p.spec, p.to.t, host, port).value)
  }

  /** Main result on resumption: however often a failover was interrupted, and wherever, once it goes
      through the workload is what one uninterrupted run from the first state leaves. */
  lemma {:induction false} ResumptionIsInvisible(isIP: string -> bool, p: Plan, a: World, b: World, c: World,
      anew: bool, d: World, anew': bool)
    requires !p.spec.blob.Malformed? && Current(p, a)
    requires HalfRun(isIP, p, a, b) && FullRun(isIP, p, b, c, anew)
    requires FullRun(isIP, p, a, d, anew')
    ensures c.pg == d.pg && c.sites == d.sites
  {
    var anew'' := ResumedRunIsWhole(isIP, p, a, b, c, anew);
    CurrentPromotesOneWay(p, a, anew', anew'');
    forall n ensures Lookup(c.pg, n) == Lookup(d.pg, n) && (n in a.sites ==> c.sites[n] == d.sites[n]) {
      if IsStandby(p, n) {
        var i :| 0 <= i < |Standbys(p)| && Standbys(p)[i].t.name == n;
        assert FullStandbyAt(isIP, p, a, c, i) && FullStandbyAt(isIP, p, a, d, i);
      } else {
        assert UntouchedAt(p, a, c, n) && UntouchedAt(p, a, d, n);
      }
    }
    SameLookups(c.pg, d.pg);
  }

  lemma {:induction false} CurrentPromotesOneWay(p: Plan, w: World, one: bool, other: bool)
    requires !p.spec.blob.Malformed? && Current(p, w)
    ensures var was := Lookup(w.pg, p.to.t.name); PromotionGoal(p, was, one) == PromotionGoal(p, was, other)
  {
    var was := Lookup(w.pg, p.to.t.name);
    PromotionBuildsAPrimary(p.mc, p.spec, p.to.t, "", 0);
    if host, port :| was == Some(BuildStandby(p.mc, p.spec, p.to.t, host, port).value) {
      PromotionBuildsAPrimary(p.mc, p.spec, p.to.t, host, port);
    }
  }

  lemma {:induction false} SameLookups(a: map<string, Json>, b: map<string, Json>)
    requires forall n :: Lookup(a, n) == Lookup(b, n)
    ensures a == b
  {
    forall n ensures n in a <==> n in b {
      assert Lookup(a, n) == Lookup(b, n);
    }
    forall n | n in a ensures a[n] == b[n] {
      assert Lookup(a, n) == Lookup(b, n);
    }
  }

  // ---------- the sequence ----------

  /** How far a run has got; `loose` when the next alias may be half made. */
  datatype Stage = Stage(demoted: bool, promoted: Option<bool>, repointed: nat, realiased: nat, loose: bool)

  /** Demotion, promotion, repointing and aliases, each begun only once the one before is through. */
  predicate InOrder(p: Plan, st: Stage) {
    && st.repointed <= |p.others| && st.realiased <= |Standbys(p)|
    && (st.promoted.Some? ==> st.demoted)
    && (st.repointed > 0 ==> st.promoted.Some?)
    && (st.realiased > 0 || st.loose ==> st.promoted.Some? && st.repointed == |p.others|)
  }

  function Final(p: Plan, anew: bool): Stage {
    Stage(true, Some(anew), |p.others|, |Standbys(p)|, false)
  }

  predicate Repointed(p: Plan, st: Stage, i: nat) {
    if i < |p.others| then i < st.repointed else st.demoted
  }

  predicate StandbyAt(isIP: string -> bool, p: Plan, w: World, w': World, st: Stage, i: nat)
    requires !p.spec.blob.Malformed? && i < |Standbys(p)|
  {
    var n := Standbys(p)[i].t.name;
    && Lookup(w'.pg, n) == (if Repointed(p, st, i) then Some(StandbyGoal(p, i)) else Lookup(w.pg, n))
    && n in w.sites && n in w'.sites
    && if i < st.realiased then w'.sites[n] == AliasGoal(isIP, p, w.sites[n])
       else if i == st.realiased && st.loose
       then AliasUnderway(isIP(p.to.host), w.sites[n], w'.sites[n], p.mc, p.to.host, PortOf(p))
       else w'.sites[n] == w.sites[n]
  }

  ghost predicate At(isIP: string -> bool, p: Plan, w: World, w': World, st: Stage)
    requires !p.spec.blob.Malformed?
  {
    && w'.sites.Keys == w.sites.Keys
    && Lookup(w'.pg, p.to.t.name) == (if st.promoted.Some?
         then Some(PromotionGoal(p, Lookup(w.pg, p.to.t.name), st.promoted.value)) else Lookup(w.pg, p.to.t.name))
    && (forall i :: 0 <= i < |Standbys(p)| ==> StandbyAt(isIP, p, w, w', st, i))
    && (forall n :: !IsStandby(p, n) ==> UntouchedAt(p, w, w', n))
  }

  lemma {:induction false} StageIsHalfRun(isIP: string -> bool, p: Plan, w: World, w': World, st: Stage)
    requires !p.spec.blob.Malformed? && At(isIP, p, w, w', st)
    ensures HalfRun(isIP, p, w, w')
  {
    forall i | 0 <= i < |Standbys(p)| ensures HalfStandbyAt(isIP, p, w, w', i) {
      assert StandbyAt(isIP, p, w, w', st, i);
    }
  }

  lemma {:induction false} StageOfWorkload(isIP: string -> bool, p: Plan, w: World, w1: World, w2: World, st: Stage)
    requires !p.spec.blob.Malformed? && At(isIP, p, w, w1, st) && w2.pg == w1.pg && w2.sites == w1.sites
    ensures At(isIP, p, w, w2, st)
  {
    forall i | 0 <= i < |Standbys(p)| ensures StandbyAt(isIP, p, w, w2, st, i) {
      assert StandbyAt(isIP, p, w, w1, st, i);
    }
    forall n | !IsStandby(p, n) ensures UntouchedAt(p, w, w2, n) {
      assert UntouchedAt(p, w, w1, n);
    }
  }

  lemma {:induction false} StandbyNamesDiffer(p: Plan, i: nat, j: nat)
    requires WellFormed(p) && i < |Standbys(p)| && j < |Standbys(p)| && i != j
    ensures Standbys(p)[i].t.name != Standbys(p)[j].t.name
  {
    assert i < j ==> Apart(p, i, j);
    assert j < i ==> Apart(p, j, i);
  }

  predicate Sited(p: Plan, w: World, i: nat)
    requires i < |Standbys(p)|
  {
    Standbys(p)[i].t.name in w.sites
  }

  predicate SamePass(f: Flight, f': Flight) {
    f.Failing? && f' == f.(demoted := f'.Failing? && f'.demoted)
  }

  /** A client is held for every cluster of the plan. */
  predicate Manned(p: Plan, held: set<string>) {
    p.to.t.name in held && forall i :: 0 <= i < |Standbys(p)| ==> Standbys(p)[i].t.name in held
  }

  /** The failover pass in flight is the one this plan is for. */
  ghost predicate OnPlan(fleet: Fleet, p: Plan)
    reads fleet
  {
    && fleet.Valid() && WellFormed(p) && fleet.flight.Failing? && fleet.flight.to == p.to.t.name
    && Manned(p, fleet.clients.held)
    && (p.from.Some? ==> p.from.value.t.name == fleet.flight.from)
    && (p.from.None? ==> !IsStandby(p, fleet.flight.from))
  }

  /** One standby object written, at its place in the order. */
  lemma {:induction false} StandbyWritten(isIP: string -> bool, p: Plan, w: World, w1: World, w2: World, st: Stage,
      i: nat)
    requires !p.spec.blob.Malformed? && WellFormed(p) && At(isIP, p, w, w1, st) && i < |Standbys(p)|
    requires i < |p.others| ==> st.repointed == i
    requires w2.sites == w1.sites && w2.pg == w1.pg[Standbys(p)[i].t.name := StandbyGoal(p, i)]
    ensures At(isIP, p, w, w2, if i < |p.others| then st.(repointed := i + 1) else st.(demoted := true))
  {
    var st' := if i < |p.others| then st.(repointed := i + 1) else st.(demoted := true);
    var written := Standbys(p)[i].t.name;
    forall j | 0 <= j < |Standbys(p)| ensures StandbyAt(isIP, p, w, w2, st', j) {
      assert StandbyAt(isIP, p, w, w1, st, j);
      if j != i {
        StandbyNamesDiffer(p, i, j);
        assert Repointed(p, st', j) == Repointed(p, st, j);
      }
    }
    forall n | !IsStandby(p, n) ensures UntouchedAt(p, w, w2, n) {
      assert UntouchedAt(p, w, w1, n) && n != written;
    }
  }

  lemma {:induction false} PrimaryWritten(isIP: string -> bool, p: Plan, w: World, w1: World, w2: World, st: Stage,
      anew: bool)
    requires !p.spec.blob.Malformed? && WellFormed(p) && At(isIP, p, w, w1, st) && st.promoted.None?
    requires w2.sites == w1.sites
    requires w2.pg == w1.pg[p.to.t.name := PromotionGoal(p, Lookup(w1.pg, p.to.t.name), anew)]
    ensures At(isIP, p, w, w2, st.(promoted := Some(anew)))
  {
    forall j | 0 <= j < |Standbys(p)| ensures StandbyAt(isIP, p, w, w2, st.(promoted := Some(anew)), j) {
      assert StandbyAt(isIP, p, w, w1, st, j);
    }
    forall n | !IsStandby(p, n) ensures UntouchedAt(p, w, w2, n) {
      assert UntouchedAt(p, w, w1, n);
    }
  }

  lemma {:induction false} AliasWritten(isIP: string -> bool, p: Plan, w: World, w1: World, w2: World, st: Stage,
      i: nat)
    requires !p.spec.blob.Malformed? && WellFormed(p) && At(isIP, p, w, w1, st) && i < |Standbys(p)|
    requires st.realiased == i && !st.loose
    requires var n := Standbys(p)[i].t.name;
      && n in w1.sites && SiteOnly(w1, w2, n)
      && AliasUnderway(isIP(p.to.host), w1.sites[n], w2.sites[n], p.mc, p.to.host, PortOf(p))
    ensures At(isIP, p, w, w2, st.(loose := true))
    ensures var n := Standbys(p)[i].t.name;
      w2.sites[n] == AliasGoal(isIP, p, w1.sites[n]) ==> At(isIP, p, w, w2, st.(realiased := i + 1))
  {
    hide AliasUnderway, AliasEnsured, StandbyGoal, PromotionGoal, PortOf, AliasGoal;
    var n, st', st'' := Standbys(p)[i].t.name, st.(realiased := i + 1), st.(loose := true);
    forall j | 0 <= j < |Standbys(p)|
      ensures StandbyAt(isIP, p, w, w1, st, j) && StandbyAt(isIP, p, w, w2, st'', j)
      ensures j != i ==> Standbys(p)[j].t.name != n && StandbyAt(isIP, p, w, w2, st', j)
      ensures j == i && w2.sites[n] == AliasGoal(isIP, p, w1.sites[n]) ==> StandbyAt(isIP, p, w, w2, st', j)
    {
      if j != i { StandbyNamesDiffer(p, i, j); }
    }
    forall m | !IsStandby(p, m) ensures UntouchedAt(p, w, w2, m) {
      assert UntouchedAt(p, w, w1, m) && m != n;
    }
  }

  method WriteStandby(fleet: Fleet, p: Plan, i: nat, ghost w0: World, ghost st: Stage)
    returns (err: Option<string>, ghost st': Stage)
    requires OnPlan(fleet, p) && !p.spec.blob.Malformed? && At(fleet.isIP, p, w0, fleet.w, st)
    requires i < |Standbys(p)| && (i < |p.others| ==> st.repointed == i)
    modifies fleet
    ensures OnPlan(fleet, p) && SamePass(old(fleet.flight), fleet.flight)
    ensures fleet.begun == old(fleet.begun) && fleet.clients == old(fleet.clients)
    ensures fleet.w.status == old(fleet.w).status
    ensures fleet.faults >= old(fleet.faults) && (err.Some? ==> fleet.faults > old(fleet.faults))
    ensures var next := if i < |p.others| then st.(repointed := i + 1) else st.(demoted := true);
      (st' == next || (err.Some? && st' == st)) && At(fleet.isIP, p, w0, fleet.w, st')
    ensures old(fleet.flight).demoted || (err.None? && i == |p.others|) ==> fleet.flight.demoted
  {
    var t := Standbys(p)[i].t;
    var obj := BuildStandby(p.mc, p.spec, t, UpstreamHost(p, i), PortOf(p));
    ghost var w1 := fleet.w;
    err := fleet.WritePg(t.name, obj.value);
    if fleet.w.pg == w1.pg[t.name := obj.value] {
      st' := if i < |p.others| then st.(repointed := i + 1) else st.(demoted := true);
      StandbyWritten(fleet.isIP, p, w0, w1, fleet.w, st, i);
    } else {
      st' := st;
      StageOfWorkload(fleet.isIP, p, w0, w1, fleet.w, st);
    }
  }

  /** Promotes the new primary: patches the object it can read, applies a new one otherwise. */
  method PromoteCluster(fleet: Fleet, p: Plan, ghost w0: World, ghost st: Stage)
    returns (err: Option<string>, ghost st': Stage)
    requires OnPlan(fleet, p) && !p.spec.blob.Malformed? && At(fleet.isIP, p, w0, fleet.w, st)
    requires fleet.flight.demoted && st.promoted.None?
    modifies fleet
    ensures OnPlan(fleet, p) && SamePass(old(fleet.flight), fleet.flight)
    ensures fleet.begun == old(fleet.begun) && fleet.clients == old(fleet.clients)
    ensures fleet.w.status == old(fleet.w).status
    ensures fleet.faults >= old(fleet.faults) && (err.Some? ==> fleet.faults > old(fleet.faults))
    ensures fleet.flight == old(fleet.flight) && At(fleet.isIP, p, w0, fleet.w, st')
    ensures (exists anew :: st' == st.(promoted := Some(anew))) || (err.Some? && st' == st)
  {
    var n := p.to.t.name;
    var built := BuildPrimary(p.mc, p.spec, p.to.t);
    ghost var w := fleet.w;
    var unread := fleet.Call();
    ghost var w1 := fleet.w;
    StageOfWorkload(fleet.isIP, p, w0, w, w1, st);
    var obj := if unread.Some? || n !in fleet.w.pg then built.value else Promoted(fleet.w.pg[n]);
    err := fleet.WritePg(n, obj);
    if fleet.w.pg == w1.pg[n := obj] {
      st' := st.(promoted := Some(unread.Some?));
      PrimaryWritten(fleet.isIP, p, w0, w1, fleet.w, st, unread.Some?);
    } else {
      st' := st;
      StageOfWorkload(fleet.isIP, p, w0, w1, fleet.w, st);
    }
  }

  method Realias(fleet: Fleet, p: Plan, i: nat, ghost w0: World, ghost st: Stage)
    returns (err: Option<string>, ghost st': Stage)
    requires OnPlan(fleet, p) && !p.spec.blob.Malformed? && At(fleet.isIP, p, w0, fleet.w, st)
    requires i < |Standbys(p)| && st.realiased == i && !st.loose
    modifies fleet
    ensures OnPlan(fleet, p) && SamePass(old(fleet.flight), fleet.flight)
    ensures fleet.begun == old(fleet.begun) && fleet.clients == old(fleet.clients)
    ensures fleet.w.status == old(fleet.w).status
    ensures fleet.faults >= old(fleet.faults) && (err.Some? ==> fleet.faults > old(fleet.faults))
    ensures fleet.flight == old(fleet.flight) && At(fleet.isIP, p, w0, fleet.w, st')
    ensures st' == if err.None? then st.(realiased := i + 1) else st.(loose := true)
  {
    var n := Standbys(p)[i].t.name;
    ghost var w1 := fleet.w;
    assert StandbyAt(fleet.isIP, p, w0, w1, st, i);
    err := EnsurePrimaryAlias(fleet, n, p.mc, p.to.host, PortOf(p));
    AliasWritten(fleet.isIP, p, w0, w1, fleet.w, st, i);
    st' := if err.None? then st.(realiased := i + 1) else st.(loose := true);
  }

  lemma {:induction false} StageBegins(isIP: string -> bool, p: Plan, w: World)
    requires !p.spec.blob.Malformed? && forall i :: 0 <= i < |Standbys(p)| ==> Sited(p, w, i)
    ensures At(isIP, p, w, w, Stage(false, None, 0, 0, false))
  {
    forall i | 0 <= i < |Standbys(p)| ensures StandbyAt(isIP, p, w, w, Stage(false, None, 0, 0, false), i) {
      assert Sited(p, w, i);
    }
  }

  lemma {:induction false} StageEnds(isIP: string -> bool, p: Plan, w: World, w': World, anew: bool)
    requires !p.spec.blob.Malformed? && At(isIP, p, w, w', Final(p, anew))
    ensures FullRun(isIP, p, w, w', anew)
  {
    forall i | 0 <= i < |Standbys(p)| ensures FullStandbyAt(isIP, p, w, w', i) {
      assert StandbyAt(isIP, p, w, w', Final(p, anew), i);
    }
  }

  /** Repoints the other standbys in order; on an error, the first of them and no more. */
  method RepointAll(fleet: Fleet, p: Plan, ghost w0: World, ghost st: Stage)
    returns (err: Option<string>, ghost st': Stage)
    requires OnPlan(fleet, p) && !p.spec.blob.Malformed? && fleet.flight.demoted
    requires At(fleet.isIP, p, w0, fleet.w, st) && st.repointed == 0
    modifies fleet
    ensures OnPlan(fleet, p) && SamePass(old(fleet.flight), fleet.flight)
    ensures fleet.begun == old(fleet.begun) && fleet.clients == old(fleet.clients)
    ensures fleet.w.status == old(fleet.w).status
    ensures fleet.faults >= old(fleet.faults) && (err.Some? ==> fleet.faults > old(fleet.faults))
    ensures fleet.flight.demoted && At(fleet.isIP, p, w0, fleet.w, st')
    ensures st'.repointed <= |p.others| && st' == st.(repointed := st'.repointed)
    ensures err.None? ==> st'.repointed == |p.others|
  {
    hide At, WellFormed;
    st' := st;
    var k := 0;
    while k < |p.others|
      invariant 0 <= k <= |p.others| && st' == st.(repointed := k)
      invariant OnPlan(fleet, p) && SamePass(old(fleet.flight), fleet.flight)
      invariant fleet.begun == old(fleet.begun) && fleet.clients == old(fleet.clients)
      invariant fleet.faults >= old(fleet.faults)
      invariant fleet.flight.demoted && fleet.w.status == old(fleet.w).status
      invariant At(fleet.isIP, p, w0, fleet.w, st')
    {
      err, st' := WriteStandby(fleet, p, k, w0, st');
      if err.Some? {
        return;
      }
      k := k + 1;
    }
    err := None;
  }

  /** Moves the aliases in order; on an error, the first of them and perhaps some of the next. */
  method RealiasAll(fleet: Fleet, p: Plan, ghost w0: World, ghost st: Stage)
    returns (err: Option<string>, ghost st': Stage)
    requires OnPlan(fleet, p) && !p.spec.blob.Malformed? && fleet.flight.demoted
    requires At(fleet.isIP, p, w0, fleet.w, st) && st.realiased == 0 && !st.loose
    modifies fleet
    ensures OnPlan(fleet, p) && SamePass(old(fleet.flight), fleet.flight)
    ensures fleet.begun == old(fleet.begun) && fleet.clients == old(fleet.clients)
    ensures fleet.w.status == old(fleet.w).status
    ensures fleet.faults >= old(fleet.faults) && (err.Some? ==> fleet.faults > old(fleet.faults))
    ensures fleet.flight.demoted && At(fleet.isIP, p, w0, fleet.w, st')
    ensures st'.realiased <= |Standbys(p)| && st' == st.(realiased := st'.realiased, loose := err.Some?)
    ensures err.None? ==> st'.realiased == |Standbys(p)|
  {
    hide At, WellFormed;
    st' := st;
    var k, n := 0, |Standbys(p)|;
    while k < n
      invariant 0 <= k <= n && st' == st.(realiased := k)
      invariant OnPlan(fleet, p) && SamePass(old(fleet.flight), fleet.flight)
      invariant fleet.begun == old(fleet.begun) && fleet.clients == old(fleet.clients)
      invariant fleet.faults >= old(fleet.faults)
      invariant fleet.flight.demoted && fleet.w.status == old(fleet.w).status
      invariant At(fleet.isIP, p, w0, fleet.w, st')
    {
      err, st' := Realias(fleet, p, k, w0, st');
      if err.Some? {
        return;
      }
      k := k + 1;
    }
    err := None;
  }

  /** The four steps, each aborting the run on an error. */
  method Execute(fleet: Fleet, p: Plan) returns (err: Option<string>, ghost st: Stage)
    requires OnPlan(fleet, p) && !p.spec.blob.Malformed? && p.from.Some?
    requires forall i :: 0 <= i < |Standbys(p)| ==> Sited(p, fleet.w, i)
    modifies fleet
    ensures OnPlan(fleet, p) && SamePass(old(fleet.flight), fleet.flight)
    ensures fleet.begun == old(fleet.begun) && fleet.clients == old(fleet.clients)
    ensures fleet.w.status == old(fleet.w).status
    ensures fleet.faults >= old(fleet.faults) && (err.Some? ==> fleet.faults > old(fleet.faults))
    ensures At(fleet.isIP, p, old(fleet.w), fleet.w, st) && InOrder(p, st)
    ensures err.None? ==> fleet.flight.demoted && exists anew :: st == Final(p, anew)
  {
    hide At, WellFormed;
    ghost var w0 := fleet.w;
    StageBegins(fleet.isIP, p, w0);
    err, st := WriteStandby(fleet, p, |p.others|, w0, Stage(false, None, 0, 0, false));
    if err.None? {
      err, st := PromoteCluster(fleet, p, w0, st);
    }
    if err.None? {
      err, st := RepointAll(fleet, p, w0, st);
    }
    if err.None? {
      err, st := RealiasAll(fleet, p, w0, st);
    }
    if err.None? {
      assert st == Final(p, st.promoted.value);
    }
  }

  /** A failover that cannot begin: no host for the new primary, a blob that does not parse, or the
      recorded primary no longer in the spec, when the orchestrator demotes through a client it never got. */
  predicate Blocked(p: Plan) {
    p.to.host == "" || p.spec.blob.Malformed? || p.from.None?
  }

  /** Standby i streams from the new primary: through the alias in the new primary's namespace or, if it is the old
      primary, directly; on the port resolved for it, 5432 if that is 0. Its object has the user's fields. */
  ghost predicate StreamsFromNew(p: Plan, w: World, i: nat)
    requires i < |Standbys(p)|
  {
    var t := Standbys(p)[i].t;
    var host := if i < |p.others| then ServiceHost(p.mc + "-primary", p.to.t.namespace) else p.to.host;
    && t.name in w.pg && Streams(w.pg[t.name], host, if p.to.port == 0 then 5432 else p.to.port)
    && Describes(w.pg[t.name], p.mc, p.spec, t)
  }

  lemma {:induction false} WholeRunStreams(isIP: string -> bool, p: Plan, w: World, w': World, anew: bool, i: nat)
    requires !p.spec.blob.Malformed? && FullRun(isIP, p, w, w', anew) && i < |Standbys(p)|
    ensures StreamsFromNew(p, w', i)
  {
    hide Describes;
    assert FullStandbyAt(isIP, p, w, w', i);
  }

  /** Runs the plan. A blocked one fails and writes nothing. Another one goes through its stages in order,
      and stops short of the last only if some call reported an error. */
  method Run(fleet: Fleet, p: Plan) returns (r: Result<string>, ghost st: Stage)
    requires OnPlan(fleet, p) && forall i :: 0 <= i < |Standbys(p)| ==> Sited(p, fleet.w, i)
    modifies fleet
    ensures OnPlan(fleet, p) && SamePass(old(fleet.flight), fleet.flight)
    ensures fleet.begun == old(fleet.begun) && fleet.clients == old(fleet.clients)
    ensures fleet.w.status == old(fleet.w).status && fleet.faults >= old(fleet.faults)
    ensures Blocked(p) ==> r.Err? && Load(fleet.w) == Load(old(fleet.w))
    ensures !Blocked(p) ==> At(fleet.isIP, p, old(fleet.w), fleet.w, st) && InOrder(p, st)
    ensures !Blocked(p) && r.Err? ==> fleet.faults > old(fleet.faults)
    ensures r.Ok? ==> fleet.flight.demoted && r.value == p.to.t.name && exists anew :: st == Final(p, anew)
    ensures r.Ok? ==> forall i :: 0 <= i < |Standbys(p)| ==> StreamsFromNew(p, fleet.w, i)
  {
    hide At, StreamsFromNew, IsRun;
    st := Stage(false, None, 0, 0, false);
    if p.to.host == "" || p.spec.blob.Malformed? || p.from.None? {
      return Err("no host to promote, or nothing to demote through"), st;
    }
    var err: Option<string>;
    err, st := Execute(fleet, p);
    r := if err.Some? then Err(err.value) else Ok(p.to.t.name);
    if err.None? {
      ghost var anew :| st == Final(p, anew);
      StageEnds(fleet.isIP, p, old(fleet.w), fleet.w, anew);
      forall i | 0 <= i < |Standbys(p)| ensures StreamsFromNew(p, fleet.w, i) {
        WholeRunStreams(fleet.isIP, p, old(fleet.w), fleet.w, anew, i);
      }
    }
  }
}
