// The credentials a normal pass looks for on the primary, and where they end.
module CredentialFlow {
  import opened Json
  import opened Api
  import opened Kube
  import opened Builder
  import opened Replication
  import opened Credentials
  import opened StatusWrites
  import opened Selection
  import opened Reconciling
  import opened NormalPass
  import opened Controller

  /** The name Zalando gives the Secret of a role of the cluster of target n. */
  function CredentialOf(role: string, team: string, n: string): string {
    role + "." + (team + "-" + n) + ".credentials.postgresql.acid.zalan.do"
  }

  /** Both roles have their Secret at n. */
  predicate HasBoth(secrets: map<string, Secret>, team: string, n: string) {
    CredentialOf("postgres", team, n) in secrets && CredentialOf("standby", team, n) in secrets
  }

  lemma {:induction false} BothAreAll(secrets: map<string, Secret>, team: string, n: string)
    ensures HasCredentials(secrets, ClusterName(team, n)) <==> HasBoth(secrets, team, n)
    ensures forall role :: SecretName(role, ClusterName(team, n)) == CredentialOf(role, team, n)
    ensures "postgres" in ROLES && "standby" in ROLES
  {
    hide SecretName;
    forall role ensures SecretName(role, ClusterName(team, n)) == CredentialOf(role, team, n) {
      NamedAsUsual(role, team, n);
    }
    assert ROLES[0] == "postgres" && ROLES[1] == "standby";
  }

  lemma {:induction false} NamedAsUsual(role: string, team: string, n: string)
    ensures SecretName(role, ClusterName(team, n)) == CredentialOf(role, team, n)
  {}

  /** Until the primary's site is reached by the pass its Secrets stay as they were. */
  lemma {:induction false} PrimarySecretsStay(isIP: string -> bool, mc: string, spec: Spec, cs: seq<ClusterStatus>,
      ev: Events, tr: Trail, a: Workload, b: Workload, p: Target)
    requires ValidClusters(spec.clusters) && NormalWork(isIP, mc, spec, cs, ev, tr, a, b)
    requires p in spec.clusters && p.role.Primary? && !ev.primary.Absent?
    ensures PrimaryIn(Reachable(spec.clusters, ev.unreachable)) == Some(p)
    ensures p.name in a.sites && p.name in tr.ensured.sites && p.name in tr.applied.sites
    ensures tr.ensured.sites[p.name].secrets == a.sites[p.name].secrets && tr.applied.sites == tr.ensured.sites
    ensures AppliedOn(mc, spec, p, tr.ensured, tr.applied, ev.primary)
  {
    hide Served, Reachable, StandbysOf, PrimaryIn, Used, HasCredentials, BuildPrimary, Replicated, Address, Describes,
        Writable;
    var ts, cl := spec.clusters, Reachable(spec.clusters, ev.unreachable);
    SelectionOf(ts, ev.unreachable);
    var q := PrimaryIn(cl).value;
    var k :| 0 <= k < |ts| && ts[k] == p;
    PrimaryByName(ts, k);
    SameName(ts, q, p);
    var i :| 0 <= i < |cl| && cl[i] == p;
    assert EnsuredAt(mc, spec, cl[i], ev.endpoints, a, tr.ensured);
    ReplicatedKeepsSecrets(mc, spec, p, a.sites[p.name]);
  }

  lemma {:induction false} ReplicatedKeepsSecrets(mc: string, spec: Spec, t: Target, site: Site)
    ensures Replicated(mc, spec, t, site).secrets == site.secrets
  {}

  /** The primary counts as applied only with both its Secrets there, and as not ready only with one of
      them missing. */
  lemma {:induction false} AppliedHasBoth(isIP: string -> bool, mc: string, spec: Spec, cs: seq<ClusterStatus>,
      ev: Events, tr: Trail, a: Workload, b: Workload, p: Target)
    requires ValidClusters(spec.clusters) && NormalWork(isIP, mc, spec, cs, ev, tr, a, b)
    requires p in spec.clusters && p.role.Primary? && p.name in a.sites
    ensures ev.primary.Applied? ==> HasBoth(a.sites[p.name].secrets, spec.teamId, p.name)
    ensures ev.primary.NotReady? ==> !HasBoth(a.sites[p.name].secrets, spec.teamId, p.name)
  {
    hide NormalWork, HasCredentials, HasBoth, ValidClusters, BuildPrimary;
    if !ev.primary.Absent? {
      PrimarySecretsStay(isIP, mc, spec, cs, ev, tr, a, b, p);
      BothAreAll(a.sites[p.name].secrets, spec.teamId, p.name);
    }
  }

  /** So a standby of an applied primary, every copy having gone through, ends with its own Secret of either role,
      holding the primary's data. */
  lemma {:induction false} BothArrive(isIP: string -> bool, mc: string, spec: Spec, cs: seq<ClusterStatus>, ev: Events,
      tr: Trail, a: Workload, b: Workload, p: Target, t: Target, role: string)
    requires ValidClusters(spec.clusters) && NormalWork(isIP, mc, spec, cs, ev, tr, a, b)
    requires p in spec.clusters && p.role.Primary? && t in spec.clusters && t.role.Standby?
    requires ev.primary.Applied? && tr.credentials && t.name !in ev.unreachable && role in {"postgres", "standby"}
    ensures p.name in a.sites && t.name in b.sites
    ensures var from, to := CredentialOf(role, spec.teamId, p.name), CredentialOf(role, spec.teamId, t.name);
      && from in a.sites[p.name].secrets && to in b.sites[t.name].secrets
      && b.sites[t.name].secrets[to].data == a.sites[p.name].secrets[from].data
  {
    hide Reachable, StandbysOf, PrimaryIn, Used, AppliedOn, Ensured, Credentialed, FollowedOn, HasCredentials,
        SecretName, CredentialOf;
    PrimarySecretsStay(isIP, mc, spec, cs, ev, tr, a, b, p);
    AppliedHasBoth(isIP, mc, spec, cs, ev, tr, a, b, p);
    BothAreAll(a.sites[p.name].secrets, spec.teamId, p.name);
    BothAreAll(a.sites[p.name].secrets, spec.teamId, t.name);
    var cl := Reachable(spec.clusters, ev.unreachable);
    var standbys := StandbysOf(cl);
    ReachableIs(spec.clusters, ev.unreachable);
    SplitIs(cl);
    var i :| 0 <= i < |standbys| && standbys[i] == t;
    var hub, synced := tr.applied.sites[p.name], tr.synced;
    assert CredentialedAt(mc, spec, SourcesOf(spec, p, hub), standbys[i], tr.applied, synced, true);
    CredentialsAreCopied(mc, spec, p, hub, t, tr.applied.sites[t.name], synced.sites[t.name], true);
    var e := Used(ev.endpoints, cs, p.name);
    assert Followed(isIP, mc, spec, e, standbys[i], synced, b, ev.standbys[t.name]);
    FollowingKeepsSecrets(isIP, mc, spec, e, t, synced.sites[t.name], b.sites[t.name], Lookup(synced.pg, t.name),
                          Lookup(b.pg, t.name), ev.standbys[t.name]);
  }

  lemma {:induction false} FollowingKeepsSecrets(isIP: string -> bool, mc: string, spec: Spec, e: Endpoint, t: Target,
      site: Site, site': Site, was: Option<Json>, now: Option<Json>, err: Option<string>)
    requires FollowedOn(isIP, mc, spec, e, t, site, site', was, now, err)
    ensures site'.secrets == site.secrets
  {
    hide StandbyObject;
  }
}
