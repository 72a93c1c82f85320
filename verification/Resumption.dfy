// Failover passes that fail and are tried again: with the spec left alone they are one failover.
module Resumption {
  import opened Json
  import opened Api
  import opened Kube
  import opened Conditions
  import opened StatusWrites
  import opened Failover
  import opened FailoverPass

  /** One failover pass: what it read, what it left, and how it went. */
  datatype Attempt = Attempt(
    w: World,
    w': World,
    lost: set<string>,
    s: Stamp,
    r: Result<string>,
    plan: Plan,
    deed: Deed)

  /** A pass on a spec nobody edited under it. */
  ghost predicate Tried(isIP: string -> bool, a: Attempt) {
    && FailoverPassed(isIP, a.w, a.w', a.lost, a.s, a.r, a.plan, a.deed) && a.plan.spec == a.w.spec
    && StatusOk(a.w.status) && HasSites(a.w, a.w.spec.clusters)
  }

  /** The failover's end is not recorded, so the next pass takes it up again. */
  predicate Unfinished(a: Attempt) {
    a.w'.status.currentPrimary == a.w.status.currentPrimary
  }

  /** Pass b reads what pass a left, and the spec is the same. */
  predicate Follows(a: Attempt, b: Attempt) {
    Load(b.w) == Load(a.w') && b.w.status == a.w'.status && b.w.spec == a.w.spec && b.w.name == a.w.name
  }

  /** Passes one after the other, none but perhaps the last recorded. */
  ghost predicate Retries(isIP: string -> bool, xs: seq<Attempt>) {
    && xs != [] && (forall i :: 0 <= i < |xs| ==> Tried(isIP, xs[i]))
    && (forall i :: 0 <= i < |xs| - 1 ==> Unfinished(xs[i]) && Follows(xs[i], xs[i + 1]))
  }

  /** A retry works out the same plan, whether or not the pass before got its announcement through. */
  lemma {:induction false} RetryPlansTheSame(isIP: string -> bool, a: Attempt, b: Attempt)
    requires Tried(isIP, a) && Tried(isIP, b) && Follows(a, b) && Unfinished(a)
    ensures b.plan == a.plan
  {
    hide Done, WithRoles;
    var ts, started := a.w.spec.clusters, FailoverStarted(a.w.status, a.w.spec.clusters, a.s);
    PlanIsWellFormed(a.w.name, a.plan.spec, WithRoles(a.w.status.clusters, ts), a.w.status.currentPrimary);
    assert a.w'.status in {a.w.status, started};
    RolesTwice(a.w.status.clusters, ts);
    assert WithRoles(b.w.status.clusters, ts) == WithRoles(a.w.status.clusters, ts);
  }

  lemma {:induction false} PlanIsSited(isIP: string -> bool, a: Attempt)
    requires Tried(isIP, a) && !a.plan.spec.blob.Malformed?
    ensures HalfRun(isIP, a.plan, a.w, a.w)
  {
    hide Done, WithRoles, At;
    var ts, cs, cp := a.w.spec.clusters, WithRoles(a.w.status.clusters, a.w.spec.clusters), a.w.status.currentPrimary;
    PlanIsWellFormed(a.w.name, a.w.spec, cs, cp);
    forall i | 0 <= i < |Standbys(a.plan)| ensures Sited(a.plan, a.w, i) {
      StandbysOfPlan(a.w.name, a.w.spec, cs, cp, i);
      var k :| 0 <= k < |ts| && ts[k] == Standbys(a.plan)[i].t;
    }
    StageBegins(isIP, a.plan, a.w);
    StageIsHalfRun(isIP, a.plan, a.w, a.w, Stage(false, None, 0, 0, false));
  }

  lemma {:induction false} HalfRunOfLoads(isIP: string -> bool, p: Plan, a: World, b: World, a': World, b': World)
    requires !p.spec.blob.Malformed? && HalfRun(isIP, p, a, b) && Load(a') == Load(a) && Load(b') == Load(b)
    ensures HalfRun(isIP, p, a', b')
  {
    forall i | 0 <= i < |Standbys(p)| ensures HalfStandbyAt(isIP, p, a', b', i) {
      assert HalfStandbyAt(isIP, p, a, b, i);
    }
    forall n | !IsStandby(p, n) ensures UntouchedAt(p, a', b', n) {
      assert UntouchedAt(p, a, b, n);
    }
  }

  /** What one pass did is an interrupted run of its plan, nothing done included. */
  lemma {:induction false} AttemptIsHalfRun(isIP: string -> bool, a: Attempt)
    requires Tried(isIP, a) && !a.plan.spec.blob.Malformed?
    ensures HalfRun(isIP, a.plan, a.w, a.w')
  {
    hide At, HalfRun, WithRoles;
    if a.deed.Reached? {
      StageIsHalfRun(isIP, a.plan, a.w, a.w', a.deed.stage);
    } else {
      PlanIsSited(isIP, a);
      HalfRunOfLoads(isIP, a.plan, a.w, a.w, a.w, a.w');
    }
  }

  /** All the passes before pass i together are one interrupted run of one plan. */
  lemma {:induction false} RetriesAreOneHalfRun(isIP: string -> bool, xs: seq<Attempt>, i: nat)
    requires Retries(isIP, xs) && i < |xs| && !xs[0].plan.spec.blob.Malformed?
    ensures xs[i].plan == xs[0].plan && HalfRun(isIP, xs[0].plan, xs[0].w, xs[i].w)
  {
    hide Tried, HalfRun;
    if i == 0 {
      PlanIsSited(isIP, xs[0]);
    } else {
      RetriesAreOneHalfRun(isIP, xs, i - 1);
      var a, b, p := xs[i - 1], xs[i], xs[0].plan;
      assert Follows(a, xs[i - 1 + 1]) && Unfinished(a);
      RetryPlansTheSame(isIP, a, b);
      AttemptIsHalfRun(isIP, a);
      HalfRunsChain(isIP, p, xs[0].w, a.w, a.w');
      HalfRunOfLoads(isIP, p, xs[0].w, a.w', xs[0].w, b.w);
    }
  }

  /** Main result on retries: over any number of failover passes that fail, each wherever it likes, and a last
      one that goes through, the workload ends as one uninterrupted run from the first state leaves it. */
  lemma {:induction false} RetriesEndAsOneRun(isIP: string -> bool, xs: seq<Attempt>, d: World, anew: bool)
    requires Retries(isIP, xs)
    requires var first, last := xs[0], xs[|xs| - 1];
      && Whole(last.plan, last.deed) && !first.plan.spec.blob.Malformed? && Current(first.plan, first.w)
      && FullRun(isIP, first.plan, first.w, d, anew)
    ensures Load(xs[|xs| - 1].w') == Load(d)
  {
    hide FullRun, HalfRun, At, Current, PlanFor, WithRoles;
    var p, last := xs[0].plan, xs[|xs| - 1];
    RetriesAreOneHalfRun(isIP, xs, |xs| - 1);
    assert Tried(isIP, last);
    var anew' :| last.deed.stage == Final(p, anew');
    StageEnds(isIP, p, last.w, last.w', anew');
    ResumptionIsInvisible(isIP, p, xs[0].w, last.w, last.w', anew', d, anew);
  }
}
