// Every status the operator writes, as a function of the status before and of what the pass saw.
module StatusWrites {
  import opened Json
  import opened Api
  import opened Conditions
  import opened Text
  import opened Replication
  import opened StatusEndpoints

  datatype PrimaryOutcome = Absent | ApplyFailed(message: string) | NotReady | Applied

  /** What a normal pass saw: the clusters without a client, the addresses found, how the primary's
      reconciliation went, and for each standby reconciled its error, if any. */
  datatype Events = Events(
    unreachable: map<string, string>,
    endpoints: map<string, Endpoint>,
    primary: PrimaryOutcome,
    standbys: map<string, Option<string>>)

  datatype Stamp = Stamp(generation: nat, now: nat)

  function TargetNamed(ts: seq<Target>, n: string): Option<Target> {
    if ts == [] then None
    else if ts[|ts| - 1].name == n then Some(ts[|ts| - 1])
    else TargetNamed(ts[..|ts| - 1], n)
  }

  function ReachableMark(ev: Events, n: string, s: Stamp): Condition {
    if n in ev.unreachable
    then Condition(REACHABLE, False, "ClusterUnreachable", ev.unreachable[n], s.generation, s.now)
    else Condition(REACHABLE, True, "ReconcileSuccess", "", s.generation, s.now)
  }

  function ReadyIs(truth: Truth, reason: string, message: string, s: Stamp): Condition {
    Condition(READY, truth, reason, message, s.generation, s.now)
  }

  /** The Ready condition a pass sets on a cluster; none on a standby it did not get to. */
  function ReadyMark(ev: Events, t: Target, s: Stamp): Option<Condition> {
    if t.name in ev.unreachable then Some(ReadyIs(False, "ClusterUnreachable", ev.unreachable[t.name], s))
    else if t.role.Primary? then
      match ev.primary
      case Absent => None
      case ApplyFailed(m) => Some(ReadyIs(False, "ZalandoApplyFailed", m, s))
      case NotReady => Some(ReadyIs(False, "CredentialsNotReady", "waiting for credential secrets", s))
      case Applied => Some(ReadyIs(True, "ReconcileSuccess", "", s))
    else if t.name in ev.standbys then
      match ev.standbys[t.name]
      case None => Some(ReadyIs(True, "ReconcileSuccess", "", s))
      case Some(m) => Some(ReadyIs(False, "ZalandoApplyFailed", m, s))
    else None
  }

  function MarkedEntry(e: ClusterStatus, t: Target, ev: Events, s: Stamp): ClusterStatus {
    var reached := Upsert(e.conditions, ReachableMark(ev, t.name, s));
    var ready := ReadyMark(ev, t, s);
    e.(conditions := if ready.Some? then Upsert(reached, ready.value) else reached,
       endpoint := if t.name in ev.endpoints then Render(ev.endpoints[t.name]) else e.endpoint)
  }

  function MarkedAt(e: ClusterStatus, ts: seq<Target>, ev: Events, s: Stamp): ClusterStatus {
    var t := TargetNamed(ts, e.name);
    if t.Some? then MarkedEntry(e, t.value, ev, s) else e
  }

  function Marked(cs: seq<ClusterStatus>, ts: seq<Target>, ev: Events, s: Stamp): seq<ClusterStatus> {
    seq(|cs|, i requires 0 <= i < |cs| => MarkedAt(cs[i], ts, ev, s))
  }

  // ---------- the writers ----------

  function InvalidSpec(st: Status, message: string, s: Stamp): Status {
    st.(conditions := Upsert(st.conditions, ReadyIs(False, "SpecInvalid", message, s)), phase := Failed)
  }

  function NormalStatus(st: Status, ts: seq<Target>, ev: Events, count: int, s: Stamp): Status {
    var clusters := Marked(WithRoles(st.clusters, ts), ts, ev, s);
    var phase := PhaseOf(clusters, false);
    var ready := if ev.unreachable != map[] then ReadyIs(False, "ClusterUnreachable", "", s)
                 else if phase.Ready? then ReadyIs(True, "ReconcileSuccess", "", s)
                 else ReadyIs(False, "PrimaryNotReady", "", s);
    Status(if ev.unreachable != map[] then Degraded else phase,
           s.generation, PrimaryName(ts), Upsert(st.conditions, ready), clusters, count)
  }

  /** Written by a pass that only counted and resolved its clusters. */
  function AutoStatus(st: Status, ts: seq<Target>, unreachable: map<string, string>, count: int, s: Stamp): Status {
    st.(clusters := Marked(WithRoles(st.clusters, ts), ts, Events(unreachable, map[], Absent, map[]), s),
        failureCount := count)
  }

  function FailoverStarted(st: Status, ts: seq<Target>, s: Stamp): Status {
    st.(clusters := WithRoles(st.clusters, ts), phase := FailingOver,
        conditions := Upsert(st.conditions,
          Condition(FAILOVER_IN_PROGRESS, True, "FailoverStarted", "", s.generation, s.now)))
  }

  function FailoverEnded(st: Status, to: string, s: Stamp): Status {
    var over := Condition(FAILOVER_IN_PROGRESS, False, "FailoverCompleted", "", s.generation, s.now);
    st.(currentPrimary := to, phase := Phase.Ready,
        conditions := Upsert(Upsert(st.conditions, over), ReadyIs(True, "ReconcileSuccess", "", s)))
  }

  // ---------- what they say ----------

  /** The top-level Ready condition after a normal pass: True exactly in phase Ready, else False with
      ClusterUnreachable exactly when some cluster had no client; and an unreachable cluster means Degraded. */
  ghost predicate TopTells(st: Status, ev: Events, s: Stamp) {
    var ready := Find(st.conditions, READY);
    && ready.Some? && ready.value.generation == s.generation && ready.value.message == ""
    && (ready.value.status.True? <==> st.phase.Ready?) && !ready.value.status.Unknown?
    && (ready.value.reason == "ClusterUnreachable" <==> ev.unreachable != map[])
    && (ready.value.reason == "ReconcileSuccess" <==> st.phase.Ready?)
    && (ready.value.reason == "PrimaryNotReady" <==> ev.unreachable == map[] && !st.phase.Ready?)
    && (ev.unreachable != map[] ==> st.phase.Degraded?)
  }

  lemma {:induction false} NormalStatusTells(st: Status, ts: seq<Target>, ev: Events, count: int, s: Stamp)
    ensures TopTells(NormalStatus(st, ts, ev, count, s), ev, s)
    ensures NormalStatus(st, ts, ev, count, s).observedGeneration == s.generation
  {
    hide Marked, WithRoles, PhaseOf, Upsert;
    forall c: Condition | c.kind == READY
      ensures var now := Find(Upsert(st.conditions, c), READY);
        now.Some? && now.value == c.(since := now.value.since)
    {
      UpsertLooksUp(st.conditions, c, READY);
    }
  }

  /** A rejected spec is not Ready, and nothing else in the status moves. */
  lemma {:induction false} RejectionTells(st: Status, message: string, s: Stamp)
    ensures var r := InvalidSpec(st, message, s); var ready := Find(r.conditions, READY);
      && r.phase.Failed? && ready.Some? && ready.value.status.False? && !IsTrue(r.conditions, READY)
      && ready.value.reason == "SpecInvalid" && ready.value.message == message
      && ready.value.generation == s.generation
      && r == st.(phase := r.phase, conditions := r.conditions)
      && forall kind :: kind != READY ==> Find(r.conditions, kind) == Find(st.conditions, kind)
  {
    var c := ReadyIs(False, "SpecInvalid", message, s);
    UpsertLooksUp(st.conditions, c, READY);
    forall kind | kind != READY ensures Find(Upsert(st.conditions, c), kind) == Find(st.conditions, kind) {
      UpsertLooksUp(st.conditions, c, kind);
    }
  }

  /** Announced, a failover is in progress; ended, the new primary is recorded, Ready, and it no longer is. Neither
      touches the failure count, nor an entry but for its role. */
  lemma {:induction false} FailoverTells(st: Status, ts: seq<Target>, to: string, s: Stamp)
    ensures var started := FailoverStarted(st, ts, s);
      && started == st.(phase := FailingOver, conditions := started.conditions, clusters := WithRoles(st.clusters, ts))
      && Says(started.conditions, "FailoverInProgress", True, "FailoverStarted", "", s)
      && forall kind :: kind != FAILOVER_IN_PROGRESS ==> Find(started.conditions, kind) == Find(st.conditions, kind)
    ensures var ended := FailoverEnded(st, to, s);
      && ended == st.(phase := Phase.Ready, conditions := ended.conditions, currentPrimary := to)
      && Says(ended.conditions, "FailoverInProgress", False, "FailoverCompleted", "", s)
      && Says(ended.conditions, "Ready", True, "ReconcileSuccess", "", s)
  {
    hide Upsert, Find, Says, WithRoles;
    var begun := Condition(FAILOVER_IN_PROGRESS, True, "FailoverStarted", "", s.generation, s.now);
    var over := Condition(FAILOVER_IN_PROGRESS, False, "FailoverCompleted", "", s.generation, s.now);
    UpsertSays(st.conditions, begun, "", s);
    UpsertSays(st.conditions, over, "", s);
    UpsertSays(Upsert(st.conditions, over), ReadyIs(True, "ReconcileSuccess", "", s), FAILOVER_IN_PROGRESS, s);
    SaysStays(Upsert(st.conditions, over), FailoverEnded(st, to, s).conditions, s);
    forall kind | kind != FAILOVER_IN_PROGRESS
      ensures Find(FailoverStarted(st, ts, s).conditions, kind) == Find(st.conditions, kind)
    {
      UpsertLooksUp(st.conditions, begun, kind);
    }
  }

  lemma {:induction false} SaysStays(was: seq<Condition>, now: seq<Condition>, s: Stamp)
    requires Find(now, FAILOVER_IN_PROGRESS) == Find(was, FAILOVER_IN_PROGRESS)
    ensures forall truth, reason, message :: Says(was, FAILOVER_IN_PROGRESS, truth, reason, message, s) ==>
              Says(now, FAILOVER_IN_PROGRESS, truth, reason, message, s)
  {}

  /** Condition c, but for its date. */
  ghost predicate Says(cs: seq<Condition>, kind: string, truth: Truth, reason: string, message: string, s: Stamp) {
    var c := Find(cs, kind);
    c.Some? && c.value == Condition(kind, truth, reason, message, s.generation, c.value.since)
  }

  /** What the entry of target t, which was e, says after a pass: whether the cluster had a client, where it is
      reached, and how its own step went. */
  ghost predicate EntryTells(now: ClusterStatus, e: ClusterStatus, t: Target, ev: Events, s: Stamp) {
    && now.name == e.name && now.role == e.role
    && now.endpoint == (if t.name in ev.endpoints
                        then ev.endpoints[t.name].host + ":" + Decimal(ev.endpoints[t.name].port) else e.endpoint)
    && (if t.name in ev.unreachable
        then Says(now.conditions, "Reachable", False, "ClusterUnreachable", ev.unreachable[t.name], s)
        else Says(now.conditions, "Reachable", True, "ReconcileSuccess", "", s))
    && ReadyTells(now.conditions, e.conditions, t, ev, s)
  }

  /** A cluster that the pass did not get to keeps its Ready condition. */
  ghost predicate ReadyTells(now: seq<Condition>, was: seq<Condition>, t: Target, ev: Events, s: Stamp) {
    if t.name in ev.unreachable then Says(now, "Ready", False, "ClusterUnreachable", ev.unreachable[t.name], s)
    else if t.role.Primary? then
      match ev.primary
      case Absent => Find(now, "Ready") == Find(was, "Ready")
      case ApplyFailed(m) => Says(now, "Ready", False, "ZalandoApplyFailed", m, s)
      case NotReady => Says(now, "Ready", False, "CredentialsNotReady", "waiting for credential secrets", s)
      case Applied => Says(now, "Ready", True, "ReconcileSuccess", "", s)
    else if t.name !in ev.standbys then Find(now, "Ready") == Find(was, "Ready")
    else if ev.standbys[t.name].None? then Says(now, "Ready", True, "ReconcileSuccess", "", s)
    else Says(now, "Ready", False, "ZalandoApplyFailed", ev.standbys[t.name].value, s)
  }

  lemma {:induction false} UpsertSays(cs: seq<Condition>, c: Condition, other: string, s: Stamp)
    requires c.generation == s.generation && other != c.kind
    ensures var now := Upsert(cs, c);
      Says(now, c.kind, c.status, c.reason, c.message, s) && Find(now, other) == Find(cs, other)
  {
    hide Find, Upsert;
    UpsertLooksUp(cs, c, other);
  }

  lemma {:induction false} ReadyMarkTells(cs: seq<Condition>, t: Target, ev: Events, s: Stamp)
    ensures var mark := ReadyMark(ev, t, s); var now := if mark.Some? then Upsert(cs, mark.value) else cs;
      ReadyTells(now, cs, t, ev, s) && Find(now, "Reachable") == Find(cs, "Reachable")
  {
    hide Find, Upsert, Says;
    var mark := ReadyMark(ev, t, s);
    if mark.Some? { UpsertSays(cs, mark.value, "Reachable", s); }
  }

  lemma {:induction false} RenderIs(found: map<string, Endpoint>, n: string)
    ensures n in found ==> Render(found[n]) == found[n].host + ":" + Decimal(found[n].port)
  {}

  lemma {:induction false} MarkedTells(e: ClusterStatus, t: Target, ev: Events, s: Stamp)
    ensures EntryTells(MarkedEntry(e, t, ev, s), e, t, ev, s)
  {
    hide Upsert, Find, ReadyMark, Render;
    var reached := Upsert(e.conditions, ReachableMark(ev, t.name, s));
    UpsertSays(e.conditions, ReachableMark(ev, t.name, s), "Ready", s);
    ReadyMarkTells(reached, t, ev, s);
    RenderIs(ev.endpoints, t.name);
  }

  /** So every target's entry, in the status a normal pass or automatic failover writes. */
  lemma {:induction false} EntriesTell(st: Status, ts: seq<Target>, ev: Events, count: int, s: Stamp, k: int)
    requires StatusOk(st) && DistinctNames(ts) && 0 <= k < |ts|
    ensures var cs, t := WithRoles(st.clusters, ts), ts[k]; var i := EntryOf(cs, t.name);
      var normal := NormalStatus(st, ts, ev, count, s).clusters;
      var auto := AutoStatus(st, ts, ev.unreachable, count, s).clusters;
      && |normal| == |auto| == |cs| && i < |cs| && cs[i].role == Some(t.role)
      && EntryTells(normal[i], cs[i], t, ev, s) && EntryTells(auto[i], cs[i], t, Resolving(ev.unreachable), s)
  {
    hide WithRoles, MarkedEntry, PhaseOf;
    RolesAreComplete(st.clusters, ts, k);
    var cs := WithRoles(st.clusters, ts);
    TargetNamedIs(ts, k);
    MarkedTells(cs[EntryOf(cs, ts[k].name)], ts[k], ev, s);
    MarkedTells(cs[EntryOf(cs, ts[k].name)], ts[k], Resolving(ev.unreachable), s);
  }

  // ---------- they all keep the status well formed ----------

  lemma {:induction false} MarkedKeepsShape(cs: seq<ClusterStatus>, ts: seq<Target>, ev: Events, s: Stamp)
    requires WellShaped(cs)
    ensures WellShaped(Marked(cs, ts, ev, s))
  {
    var r := Marked(cs, ts, ev, s);
    forall i | 0 <= i < |cs| ensures WellShapedEntry(r[i]) && r[i].name == cs[i].name {
      assert WellShapedEntry(cs[i]);
      var t := TargetNamed(ts, cs[i].name);
      if t.Some? {
        var reached := Upsert(cs[i].conditions, ReachableMark(ev, t.value.name, s));
        UpsertLooksUp(cs[i].conditions, ReachableMark(ev, t.value.name, s), "");
        if ReadyMark(ev, t.value, s).Some? { UpsertLooksUp(reached, ReadyMark(ev, t.value, s).value, ""); }
      }
    }
    assert UniqueNames(r);
  }

  lemma {:induction false} PassesKeepStatusOk(st: Status, ts: seq<Target>, ev: Events, count: int, s: Stamp)
    requires StatusOk(st) && DistinctNames(ts)
    ensures StatusOk(NormalStatus(st, ts, ev, count, s))
    ensures StatusOk(AutoStatus(st, ts, ev.unreachable, count, s))
  {
    RolesKeepShape(st.clusters, ts);
    MarkedKeepsShape(WithRoles(st.clusters, ts), ts, ev, s);
    MarkedKeepsShape(WithRoles(st.clusters, ts), ts, Events(ev.unreachable, map[], Absent, map[]), s);
    var after := NormalStatus(st, ts, ev, count, s);
    forall c: Condition | c.kind == READY ensures UniqueKinds(Upsert(st.conditions, c)) {
      UpsertLooksUp(st.conditions, c, READY);
    }
    forall c: Condition | c.kind == READY && c.status.True? ensures IsTrue(Upsert(st.conditions, c), READY) {
      UpsertLooksUp(st.conditions, c, READY);
    }
  }

  lemma {:induction false} InvalidSpecKeepsStatusOk(st: Status, message: string, s: Stamp)
    requires StatusOk(st)
    ensures StatusOk(InvalidSpec(st, message, s))
  {
    UpsertLooksUp(st.conditions, ReadyIs(False, "SpecInvalid", message, s), "");
  }

  lemma {:induction false} FailoverKeepsStatusOk(st: Status, ts: seq<Target>, to: string, s: Stamp, s': Stamp)
    requires StatusOk(st) && DistinctNames(ts)
    ensures var started := FailoverStarted(st, ts, s); var ended := FailoverEnded(started, to, s');
      && StatusOk(started) && StatusOk(ended)
      && ended.conditions != started.conditions
      && StatusOk(st.(currentPrimary := to, phase := Phase.Ready, conditions := ended.conditions))
  {
    RolesKeepShape(st.clusters, ts);
    var started := FailoverStarted(st, ts, s);
    var begun := Condition(FAILOVER_IN_PROGRESS, True, "FailoverStarted", "", s.generation, s.now);
    var over := Condition(FAILOVER_IN_PROGRESS, False, "FailoverCompleted", "", s'.generation, s'.now);
    var ready := ReadyIs(True, "ReconcileSuccess", "", s');
    UpsertLooksUp(st.conditions, begun, FAILOVER_IN_PROGRESS);
    UpsertLooksUp(started.conditions, over, FAILOVER_IN_PROGRESS);
    UpsertLooksUp(Upsert(started.conditions, over), ready, FAILOVER_IN_PROGRESS);
    assert Find(FailoverEnded(started, to, s').conditions, FAILOVER_IN_PROGRESS).value.status.False?;
    assert Find(started.conditions, FAILOVER_IN_PROGRESS).value.status.True?;
  }

  // ---------- marks, one call at a time ----------

  lemma {:induction false} TargetNamedIs(ts: seq<Target>, k: int)
    requires DistinctNames(ts) && 0 <= k < |ts|
    ensures TargetNamed(ts, ts[k].name) == Some(ts[k])
  {
    if k < |ts| - 1 {
      assert ts[k].name != ts[|ts| - 1].name;
      TargetNamedIs(ts[..|ts| - 1], k);
    }
  }

  lemma {:induction false} TargetNamedSome(ts: seq<Target>, n: string)
    ensures TargetNamed(ts, n).Some? <==> Named(ts, n)
    ensures TargetNamed(ts, n).Some? ==> TargetNamed(ts, n).value in ts && TargetNamed(ts, n).value.name == n
  {
    if ts != [] {
      var init := ts[..|ts| - 1];
      TargetNamedSome(init, n);
      assert ts == init + [ts[|ts| - 1]];
      if Named(init, n) {
        var i :| 0 <= i < |init| && init[i].name == n;
        assert ts[i].name == n;
      }
      if Named(ts, n) && ts[|ts| - 1].name != n {
        var i :| 0 <= i < |ts| && ts[i].name == n;
        assert init[i].name == n;
      }
    }
  }

  /** Every target has its entry among cs. */
  ghost predicate Covers(cs: seq<ClusterStatus>, ts: seq<Target>) {
    forall k :: 0 <= k < |ts| ==> EntryOf(cs, ts[k].name) < |cs|
  }

  /** From one marking to another that differs at the entry of t only. */
  lemma {:induction false} MarkedElsewhere(cs: seq<ClusterStatus>, ts: seq<Target>, ts': seq<Target>, ev: Events,
      ev': Events, s: Stamp, n: string)
    requires UniqueNames(cs) && EntryOf(cs, n) < |cs|
    requires forall i :: 0 <= i < |cs| && cs[i].name != n ==> MarkedAt(cs[i], ts', ev', s) == MarkedAt(cs[i], ts, ev, s)
    ensures var i := EntryOf(cs, n);
      && EntryOf(Marked(cs, ts, ev, s), n) == i
      && Marked(cs, ts', ev', s) == Marked(cs, ts, ev, s)[i := MarkedAt(cs[i], ts', ev', s)]
  {
    var i, r := EntryOf(cs, n), Marked(cs, ts, ev, s);
    forall j | 0 <= j < |cs| ensures r[j].name == cs[j].name && (j != i ==> cs[j].name != n) {
      assert j < i ==> cs[j].name != cs[i].name;
      assert i < j ==> cs[i].name != cs[j].name;
    }
    assert r[i].name == n;
    assert EntryOf(r, n) == i;
  }

  lemma {:induction false} UpsertAt(m: seq<ClusterStatus>, n: string, c: Condition)
    requires UniqueNames(m) && EntryOf(m, n) < |m|
    ensures var i := EntryOf(m, n); var r := UpsertCluster(m, n, c);
      r == m[i := m[i].(conditions := Upsert(m[i].conditions, c))] && EntryOf(r, n) == i && UniqueNames(r)
  {
    var i := EntryOf(m, n);
    var r := UpsertCluster(m, n, c);
    assert forall j :: 0 <= j < |m| ==> r[j].name == m[j].name;
    assert r[i].name == n;
  }

  /** What the pass has noted of the first k clusters. */
  function Resolving(unreachable: map<string, string>): Events {
    Events(unreachable, map[], Absent, map[])
  }

  function OneMoreUnreachable(un: map<string, string>, n: string, err: Option<string>): map<string, string> {
    if err.Some? then un[n := err.value] else un
  }

  /** The entries after one more cluster was looked up, with its error if it has no client. */
  function Noted(cs: seq<ClusterStatus>, n: string, err: Option<string>, s: Stamp): seq<ClusterStatus> {
    if err.Some?
    then
      var down := Condition(REACHABLE, False, "ClusterUnreachable", err.value, s.generation, s.now);
      UpsertCluster(UpsertCluster(cs, n, down), n, ReadyIs(False, "ClusterUnreachable", err.value, s))
    else UpsertCluster(cs, n, Condition(REACHABLE, True, "ReconcileSuccess", "", s.generation, s.now))
  }

  lemma {:induction false} MarkResolved(cs: seq<ClusterStatus>, ts: seq<Target>, k: nat, un: map<string, string>,
      err: Option<string>, s: Stamp)
    requires UniqueNames(cs) && DistinctNames(ts) && k < |ts| && EntryOf(cs, ts[k].name) < |cs|
    requires forall n :: n in un ==> Named(ts[..k], n)
    ensures Marked(cs, ts[..k + 1], Resolving(OneMoreUnreachable(un, ts[k].name, err)), s) ==
            Noted(Marked(cs, ts[..k], Resolving(un), s), ts[k].name, err, s)
  {
    var t := ts[k];
    var n, m, un' := t.name, Marked(cs, ts[..k], Resolving(un), s), OneMoreUnreachable(un, t.name, err);
    assert ts[..k + 1][..k] == ts[..k];
    assert !Named(ts[..k], n);
    TargetNamedSome(ts[..k], n);
    forall i | 0 <= i < |cs| && cs[i].name != n
      ensures MarkedAt(cs[i], ts[..k + 1], Resolving(un'), s) == MarkedAt(cs[i], ts[..k], Resolving(un), s)
    {
      TargetNamedSome(ts[..k], cs[i].name);
    }
    MarkedElsewhere(cs, ts[..k], ts[..k + 1], Resolving(un), Resolving(un'), s, n);
    assert UniqueNames(m);
    UpsertAt(m, n, ReachableMark(Resolving(un'), n, s));
    var reached := UpsertCluster(m, n, ReachableMark(Resolving(un'), n, s));
    if n in un' { UpsertAt(reached, n, ReadyIs(False, "ClusterUnreachable", un'[n], s)); }
  }

  /** The events with the Ready outcome of one cluster added. */
  ghost predicate OneMoreReady(ts: seq<Target>, k: nat, ev: Events, ev': Events, s: Stamp, c: Condition)
    requires k < |ts|
  {
    && ev'.unreachable == ev.unreachable && ev'.endpoints == ev.endpoints
    && ReadyMark(ev, ts[k], s).None? && ReadyMark(ev', ts[k], s) == Some(c)
    && forall j :: 0 <= j < |ts| && j != k ==> ReadyMark(ev', ts[j], s) == ReadyMark(ev, ts[j], s)
  }

  lemma {:induction false} MarkReady(cs: seq<ClusterStatus>, ts: seq<Target>, k: nat, ev: Events, ev': Events, s: Stamp,
      c: Condition)
    requires UniqueNames(cs) && DistinctNames(ts) && k < |ts| && EntryOf(cs, ts[k].name) < |cs|
    requires OneMoreReady(ts, k, ev, ev', s, c)
    ensures Marked(cs, ts, ev', s) == UpsertCluster(Marked(cs, ts, ev, s), ts[k].name, c)
  {
    var n := ts[k].name;
    TargetNamedIs(ts, k);
    forall i | 0 <= i < |cs| && cs[i].name != n
      ensures MarkedAt(cs[i], ts, ev', s) == MarkedAt(cs[i], ts, ev, s)
    {
      TargetNamedSome(ts, cs[i].name);
      var t := TargetNamed(ts, cs[i].name);
      if t.Some? {
        var j :| 0 <= j < |ts| && ts[j] == t.value;
      }
    }
    MarkedElsewhere(cs, ts, ts, ev, ev', s, n);
  }

  lemma {:induction false} MarkEndpoint(cs: seq<ClusterStatus>, ts: seq<Target>, k: nat, ev: Events, e: Endpoint,
      s: Stamp)
    requires UniqueNames(cs) && DistinctNames(ts) && k < |ts| && EntryOf(cs, ts[k].name) < |cs|
    ensures Marked(cs, ts, ev.(endpoints := ev.endpoints[ts[k].name := e]), s) ==
            WithEndpoint(Marked(cs, ts, ev, s), ts[k].name, Render(e))
  {
    hide Upsert, Render;
    var n, ev' := ts[k].name, ev.(endpoints := ev.endpoints[ts[k].name := e]);
    TargetNamedIs(ts, k);
    forall c: ClusterStatus, t: Target ensures MarkedEntry(c, t, ev', s) ==
      if t.name == n then MarkedEntry(c, t, ev, s).(endpoint := Render(e)) else MarkedEntry(c, t, ev, s)
    {
      assert ReadyMark(ev', t, s) == ReadyMark(ev, t, s);
    }
    forall i | 0 <= i < |cs| && cs[i].name != n
      ensures MarkedAt(cs[i], ts, ev', s) == MarkedAt(cs[i], ts, ev, s)
    {
      TargetNamedSome(ts, cs[i].name);
    }
    MarkedElsewhere(cs, ts, ts, ev, ev', s, n);
  }

  /** Marking moves no endpoint but those found. */
  lemma {:induction false} StoredAfterMarks(cs: seq<ClusterStatus>, ts: seq<Target>, ev: Events, s: Stamp, n: string)
    requires UniqueNames(cs) && EntryOf(cs, n) < |cs| && n !in ev.endpoints
    ensures Stored(Marked(cs, ts, ev, s), n) == Stored(cs, n)
  {
    var i, r := EntryOf(cs, n), Marked(cs, ts, ev, s);
    TargetNamedSome(ts, n);
    assert forall j :: 0 <= j < |cs| ==> r[j].name == cs[j].name;
    assert UniqueNames(r);
    StoredAt(cs, n, i);
    StoredAt(r, n, i);
  }
}
