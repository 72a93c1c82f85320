// The Zalando postgresql objects the operator writes (internal/zalando/builder.go).
module Builder {
  import opened Json
  import opened Api
  import opened Text

  function ClusterName(teamId: string, target: string): string {
    teamId + "-" + target
  }

  function Manifest(mcName: string, spec: Spec, t: Target, specMap: map<string, Json>): Json {
    Obj(map[
      "apiVersion" := Str("acid.zalan.do/v1"),
      "kind" := Str("postgresql"),
      "metadata" := Obj(map[
        "name" := Str(ClusterName(spec.teamId, t.name)),
        "namespace" := Str(t.namespace),
        "labels" := Obj(map[
          "pgmc.aurelops.com/managed-by" := Str("postgres-mc-operator"),
          "pgmc.aurelops.com/postgresmc" := Str(mcName),
          "pgmc.aurelops.com/cluster" := Str(t.name)])]),
      "spec" := Obj(specMap)])
  }

  /** The object is the one of target t: its name, namespace and labels, and in its spec the user's own fields, with
      the team's id and the standby section decided by the operator. */
  ghost predicate Describes(j: Json, mcName: string, spec: Spec, t: Target) {
    && Get(j, ["apiVersion"]) == Some(Str("acid.zalan.do/v1")) && Get(j, ["kind"]) == Some(Str("postgresql"))
    && Get(j, ["metadata", "name"]) == Some(Str(spec.teamId + "-" + t.name))
    && Get(j, ["metadata", "namespace"]) == Some(Str(t.namespace))
    && Get(j, ["metadata", "labels"]) == Some(Obj(map[
         "pgmc.aurelops.com/managed-by" := Str("postgres-mc-operator"),
         "pgmc.aurelops.com/postgresmc" := Str(mcName), "pgmc.aurelops.com/cluster" := Str(t.name)]))
    && Get(j, ["spec", "teamId"]) == Some(Str(spec.teamId))
    && forall k :: k !in {"teamId", "standby"} ==>
         Get(j, ["spec", k]) == if spec.blob.Object? then Get(Obj(spec.blob.fields), [k]) else None
  }

  function BuildPostgresql(mcName: string, spec: Spec, t: Target, standby: Option<Json>): (r: Result<Json>)
    ensures r.Ok? ==> Describes(r.value, mcName, spec, t)
    ensures r.Ok? ==> Get(r.value, ["spec", "standby"]) == standby
  {
    if spec.blob.Malformed? then Err("parsing postgresqlSpec")
    else
      var parsed := if spec.blob.Empty? then map[] else spec.blob.fields;
      var specMap := parsed["teamId" := Str(spec.teamId)];
      ManifestDescribes(mcName, spec, t, if standby.Some? then specMap["standby" := standby.value]
                                         else specMap - {"standby"});
      Ok(Manifest(mcName, spec, t,
                  if standby.Some? then specMap["standby" := standby.value] else specMap - {"standby"}))
  }

  /** A path of two members. */
  lemma {:induction false} GetTwice(j: Json, a: string, b: string)
    ensures Get(j, [a]) == if j.Obj? && a in j.fields then Some(j.fields[a]) else None
    ensures Get(j, [a, b]) == if Get(j, [a]).Some? then Get(Get(j, [a]).value, [b]) else None
  {
    assert [a, b][1..] == [b];
    assert [a][1..] == [];
    assert [b][1..] == [];
  }

  lemma {:induction false} ManifestDescribes(mcName: string, spec: Spec, t: Target, specMap: map<string, Json>)
    requires "teamId" in specMap && specMap["teamId"] == Str(spec.teamId)
    requires forall k :: k !in {"teamId", "standby"} ==>
      Get(Obj(specMap), [k]) == if spec.blob.Object? then Get(Obj(spec.blob.fields), [k]) else None
    ensures var j := Manifest(mcName, spec, t, specMap);
      Describes(j, mcName, spec, t) && Get(j, ["spec", "standby"]) == Get(Obj(specMap), ["standby"])
  {
    var j := Manifest(mcName, spec, t, specMap);
    forall a, b ensures Get(j, [a, b]) == if Get(j, [a]).Some? then Get(Get(j, [a]).value, [b]) else None {
      GetTwice(j, a, b);
    }
    GetTwice(j, "apiVersion", "");
    GetTwice(j, "kind", "");
    GetTwice(j, "metadata", "");
    GetTwice(j, "spec", "");
    assert j.fields["spec"] == Obj(specMap);
    var meta := j.fields["metadata"];
    GetTwice(meta, "name", "");
    GetTwice(meta, "namespace", "");
    GetTwice(meta, "labels", "");
    GetTwice(Obj(specMap), "teamId", "");
  }

  function StandbySection(host: string, port: Int32): Json {
    Obj(map["standby_host" := Str(host), "standby_port" := Str(Decimal(port))])
  }

  /** Exactly the user's fields reach a primary, and no standby section. */
  function BuildPrimary(mcName: string, spec: Spec, t: Target): (r: Result<Json>)
    ensures r.Ok? <==> !spec.blob.Malformed?
    ensures r.Ok? ==> Writable(r.value) && Describes(r.value, mcName, spec, t)
  {
    BuildPostgresql(mcName, spec, t, None)
  }

  function BuildStandby(mcName: string, spec: Spec, t: Target, host: string, port: Int32): (r: Result<Json>)
    ensures r.Ok? <==> !spec.blob.Malformed?
    ensures r.Ok? ==> !Writable(r.value) && Streams(r.value, host, port) && Describes(r.value, mcName, spec, t)
  {
    BuildPostgresql(mcName, spec, t, Some(StandbySection(host, port)))
  }

  /** A cluster accepts writes unless its object carries a standby section. */
  predicate Writable(j: Json) {
    !(j.Obj? && "spec" in j.fields && j.fields["spec"].Obj? && "standby" in j.fields["spec"].fields)
  }

  /** The object asks its cluster to stream from host and port. */
  predicate Streams(j: Json, host: string, port: Int32) {
    && !Writable(j)
    && var standby := j.fields["spec"].fields["standby"];
    && standby.Obj? && standby.fields.Keys == {"standby_host", "standby_port"}
    && standby.fields["standby_host"] == Str(host) && standby.fields["standby_port"] == Str(Decimal(port))
  }

  /** What promotion sends: it nulls spec.standby. */
  const PROMOTION_PATCH := Obj(map["spec" := Obj(map["standby" := Null])])

  function Promoted(existing: Json): (j: Json)
    ensures Writable(j)
  {
    MergePatch(existing, PROMOTION_PATCH)
  }

  /** Promoting a standby by patch yields exactly the object a primary is built as. */
  lemma {:induction false} PromotionBuildsAPrimary(mcName: string, spec: Spec, t: Target, host: string, port: Int32)
    requires !spec.blob.Malformed?
    ensures Promoted(BuildStandby(mcName, spec, t, host, port).value) == BuildPrimary(mcName, spec, t).value
    ensures Promoted(BuildPrimary(mcName, spec, t).value) == BuildPrimary(mcName, spec, t).value
  {
    hide Describes, Get;
    var standby, primary := BuildStandby(mcName, spec, t, host, port).value, BuildPrimary(mcName, spec, t).value;
    PromotionDropsStandby(standby);
    PromotionDropsStandby(primary);
    assert standby.fields["spec"].fields - {"standby"} == primary.fields["spec"].fields;
    assert primary.fields["spec"].fields - {"standby"} == primary.fields["spec"].fields;
    assert standby.fields["spec" := primary.fields["spec"]] == primary.fields;
    assert primary.fields["spec" := primary.fields["spec"]] == primary.fields;
  }

  /** On an object whose spec is an object, promotion removes the one key and nothing else. */
  lemma {:induction false} PromotionDropsStandby(existing: Json)
    requires existing.Obj? && "spec" in existing.fields && existing.fields["spec"].Obj?
    ensures Promoted(existing) == Obj(existing.fields["spec" := Obj(existing.fields["spec"].fields - {"standby"})])
  {
    var s := existing.fields["spec"];
    assert MergePatch(s, Obj(map["standby" := Null])).fields == s.fields - {"standby"};
    assert Promoted(existing).fields == existing.fields["spec" := Obj(s.fields - {"standby"})];
  }

  /** Promotion keeps the set of top-level members exactly when the object already had a spec;
      otherwise it adds an empty one. Off the path spec.standby it never changes a value. */
  lemma {:induction false} PromotionIsLocal(existing: Json, path: seq<string>)
    ensures existing.Obj? ==> (Promoted(existing).fields.Keys == existing.fields.Keys <==> "spec" in existing.fields)
    ensures Get(Promoted(existing), ["spec", "standby"]).None?
    ensures !Comparable(["spec", "standby"], path) ==> Get(Promoted(existing), path) == Get(existing, path)
  {
    var q := ["spec", "standby"];
    assert q[1..] == ["standby"];
    assert DeleteAt(q[1..]) == Obj(map["standby" := Null]);
    assert DeleteAt(q) == PROMOTION_PATCH;
    DeleteTouchesOnlyItsPath(existing, q, path);
  }
}
