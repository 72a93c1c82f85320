// JSON values and the JSON Merge Patch of RFC 7396, section 2.
module Json {
  datatype Option<+T> = None | Some(value: T)

  datatype Json =
    | Null
    | Bool(b: bool)
    | Num(n: real)
    | Str(s: string)
    | Arr(items: seq<Json>)
    | Obj(fields: map<string, Json>)

  /** RFC 7396, section 2: an object patch is merged member by member, a null member deletes,
      any other patch replaces the target. A missing member of the target counts as a non-object. */
  function MergePatch(target: Json, patch: Json): Json
    decreases patch
  {
    if patch.Obj? then
      var base := if target.Obj? then target.fields else map[];
      Obj(map k | k in base.Keys + patch.fields.Keys && (k in patch.fields ==> !patch.fields[k].Null?) ::
            if k in patch.fields
            then MergePatch(if k in base then base[k] else Null, patch.fields[k])
            else base[k])
    else
      patch
  }

  function Get(j: Json, path: seq<string>): Option<Json>
  {
    if path == [] then Some(j)
    else if j.Obj? && path[0] in j.fields then Get(j.fields[path[0]], path[1..])
    else None
  }

  /** Position i is where a path leaves the objects of the patch. */
  predicate Leaves(patch: Json, path: seq<string>, i: nat) {
    && i < |path| && Get(patch, path[..i]).Some?
    && var at := Get(patch, path[..i]).value; at.Obj? && path[i] !in at.fields
  }

  /** Merging, path by path: what the patch has and is no object replaces what was there, a null removes it, and off
      the patch everything is as it was. */
  lemma {:induction false} MergeIsPathwise(target: Json, patch: Json, path: seq<string>, i: nat)
    ensures var was, now, sent := Get(target, path), Get(MergePatch(target, patch), path), Get(patch, path);
      && (sent.Some? && !sent.value.Obj? && !sent.value.Null? ==> now == sent)
      && (sent == Some(Null) && path != [] ==> now.None?)
      && (sent.Some? && sent.value.Obj? ==> now.Some? && now.value.Obj?)
      && (Leaves(patch, path, i) ==> now == was)
    decreases |path|
  {
    if path != [] && patch.Obj? {
      var k, rest := path[0], path[1..];
      var base := if target.Obj? then target.fields else map[];
      if k in patch.fields && !patch.fields[k].Null? {
        var sub := if k in base then base[k] else Null;
        MergeIsPathwise(sub, patch.fields[k], rest, if i > 0 then i - 1 else 0);
        if i > 0 && Leaves(patch, path, i) {
          assert path[..i][1..] == rest[..i - 1] && rest[i - 1] == path[i];
          assert Leaves(patch.fields[k], rest, i - 1);
        }
      } else if k in patch.fields && 0 < i < |path| {
        assert path[..i][0] == k && Get(patch, path[..i]) == Get(Null, path[..i][1..]);
        NothingInNull(path[..i][1..]);
        assert !Leaves(patch, path, i);
      }
    }
  }

  lemma {:induction false} NothingInNull(path: seq<string>)
    ensures path != [] ==> Get(Null, path).None?
  {}

  /** Sending a patch twice is sending it once, so a patch that took effect but reported
      an error can be retried. */
  lemma {:induction false} MergeIsIdempotent(target: Json, patch: Json)
    ensures MergePatch(MergePatch(target, patch), patch) == MergePatch(target, patch)
    decreases patch
  {
    if patch.Obj? {
      var base := if target.Obj? then target.fields else map[];
      var once := MergePatch(target, patch);
      var twice := MergePatch(once, patch);
      forall k | k in patch.fields && !patch.fields[k].Null?
        ensures MergePatch(once.fields[k], patch.fields[k]) == once.fields[k]
      {
        MergeIsIdempotent(if k in base then base[k] else Null, patch.fields[k]);
      }
      assert twice.fields == once.fields;
    }
  }

  /** The merge patch that deletes the member at a non-empty path. */
  function DeleteAt(path: seq<string>): Json
    requires path != []
  {
    if |path| == 1 then Obj(map[path[0] := Null]) else Obj(map[path[0] := DeleteAt(path[1..])])
  }

  predicate Comparable(p: seq<string>, q: seq<string>) {
    p <= q || q <= p
  }

  /** A deleting patch removes its path and leaves every value off that path alone,
      whatever the target is. */
  lemma {:induction false} DeleteTouchesOnlyItsPath(target: Json, path: seq<string>, other: seq<string>)
    requires path != []
    ensures Get(MergePatch(target, DeleteAt(path)), path).None?
    ensures !Comparable(path, other) ==> Get(MergePatch(target, DeleteAt(path)), other) == Get(target, other)
    decreases |path|
  {
    var k := path[0];
    if |path| > 1 {
      var base := if target.Obj? then target.fields else map[];
      var child := if k in base then base[k] else Null;
      if other != [] && other[0] == k {
        if Comparable(path[1..], other[1..]) {
          assert path == [k] + path[1..] && other == [k] + other[1..];
        }
        DeleteTouchesOnlyItsPath(child, path[1..], other[1..]);
        assert !Comparable(path, other) ==> other[1..] != [];
      } else {
        DeleteTouchesOnlyItsPath(child, path[1..], []);
      }
    } else if other != [] && other[0] == k {
      assert path <= other;
    }
  }
}
