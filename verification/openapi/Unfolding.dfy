/** What the unfolding means: on tables without circles it is plain substitution, and on any table it is
    cut exactly where a schema meets itself on its own path. */
module Unfolding {
  import opened Common
  import opened TypeNames
  import opened OpenApi

  /** ToOpenAPI: the named schema, without the fields every Kubernetes object has. */
  function Root(t: Schemas, name: string): (r: Option<Schema>)
    ensures r.Some? ==> r.value.id in Ids(t)
  {
    match Lookup(t, name)
    case None => None
    case Some(s) => Some(Effective(s).(fields := Effective(s).fields - {"kind", "apiVersion", "metadata"}))
  }

  /** The schema at the core of a type, inside any arrays and maps. */
  function Core(t: Schemas, typeName: string): (r: Option<Schema>)
    ensures r.Some? ==> r.value in Reachable(t) && r.value.id in Ids(t)
    decreases |typeName|
  {
    match TypeAndSchema(t, typeName)
    case Of(s) => Some(s)
    case MapOf(sub) => Core(t, sub)
    case ArrayOf(sub) => Core(t, sub)
    case _ => None
  }

  // -------- tables without circles --------

  /** Every field leads to a schema of lower rank, or to none. */
  ghost predicate Descends(t: Schemas, rank: string -> nat, s: Schema) {
    forall n :: n in s.fields ==>
      var core := Core(t, s.fields[n].typeName);
      core.Some? ==> rank(core.value.id) < rank(s.id)
  }

  ghost predicate Acyclic(t: Schemas, rank: string -> nat) {
    forall s :: s in Reachable(t) ==> Descends(t, rank, s)
  }

  ghost function Height(t: Schemas, rank: string -> nat, typeName: string): nat {
    var core := Core(t, typeName);
    if core.Some? then rank(core.value.id) + 1 else 0
  }

  /** Plain substitution: no set of IDs on the way, and no cuts. */
  ghost function NaiveType(t: Schemas, rank: string -> nat, typeName: string): Result<Props>
    requires Acyclic(t, rank)
    decreases Height(t, rank, typeName), |typeName|, 1
  {
    match TypeAndSchema(t, typeName)
    case Unknown => Error
    case Of(s) => NaiveSchema(t, rank, s)
    case MapOf(sub) =>
      var element := NaiveType(t, rank, sub);
      if element.Error? then Error else Ok(MapProps(sub, element.value))
    case ArrayOf(sub) =>
      var element := NaiveType(t, rank, sub);
      if element.Error? then Error
      else Ok(BLANK.(kind := "array", nullable := true, items := Some(element.value)))
    case Plain(kind) => Ok(PlainProps(kind))
  }

  ghost function NaiveField(t: Schemas, rank: string -> nat, f: Field): Result<Props>
    requires Acyclic(t, rank)
    decreases Height(t, rank, f.typeName), |f.typeName|, 2
  {
    var p := NaiveType(t, rank, f.typeName);
    if p.Error? then Error else Populated(p.value, f)
  }

  ghost function NaiveSchema(t: Schemas, rank: string -> nat, s: Schema): Result<Props>
    requires Acyclic(t, rank) && Descends(t, rank, s)
    decreases rank(s.id) + 1, 0, 0
  {
    Combined(s, map n | n in s.fields :: NaiveField(t, rank, s.fields[n]))
  }

  /** Everything on the way is of higher rank. */
  ghost predicate Above(rank: string -> nat, inflight: set<string>, height: nat) {
    forall id :: id in inflight ==> height <= rank(id)
  }

  lemma {:induction false} TypeIsNaive(t: Schemas, rank: string -> nat, typeName: string, inflight: set<string>)
    requires Acyclic(t, rank) && Above(rank, inflight, Height(t, rank, typeName))
    ensures TypeToProps(t, typeName, inflight) == NaiveType(t, rank, typeName)
    decreases Height(t, rank, typeName), |typeName|, 1
  {
    hide Ids, Reachable;
    match TypeAndSchema(t, typeName)
    case Of(s) => SchemaIsNaive(t, rank, s, inflight);
    case MapOf(sub) => TypeIsNaive(t, rank, sub, inflight);
    case ArrayOf(sub) => TypeIsNaive(t, rank, sub, inflight);
    case _ =>
  }

  /** On a table without circles, the unfolding is plain substitution. */
  lemma {:induction false} SchemaIsNaive(t: Schemas, rank: string -> nat, s: Schema, inflight: set<string>)
    requires Acyclic(t, rank) && Descends(t, rank, s) && s.id in Ids(t)
    requires Above(rank, inflight, rank(s.id) + 1)
    ensures SchemaToProps(t, s, inflight) == NaiveSchema(t, rank, s)
    decreases rank(s.id) + 1, 0, 0
  {
    hide Ids, Reachable, Combined, Populated;
    var naive := map n | n in s.fields :: NaiveField(t, rank, s.fields[n]);
    assert s.id !in inflight;
    var fields := FieldsToProps(t, s, inflight);
    forall n | n in s.fields ensures fields[n] == naive[n] {
      var typeName := s.fields[n].typeName;
      assert Above(rank, inflight + {s.id}, Height(t, rank, typeName));
      TypeIsNaive(t, rank, typeName, inflight + {s.id});
      assert fields[n] == FieldToProps(t, s.fields[n], inflight + {s.id});
    }
    assert fields == naive;
  }

  lemma RootIsNaive(t: Schemas, rank: string -> nat, name: string)
    requires Acyclic(t, rank) && Root(t, name).Some?
    ensures Descends(t, rank, Root(t, name).value)
    ensures SchemaToProps(t, Root(t, name).value, {}) == NaiveSchema(t, rank, Root(t, name).value)
  {
    var s := Effective(Lookup(t, name).value);
    assert s in Reachable(t);
    assert Descends(t, rank, s);
    SchemaIsNaive(t, rank, Root(t, name).value, {});
  }

  // -------- any table: where the cuts are --------

  /** The IDs met on the way from a schema along a path of field names, itself included. */
  function Walk(t: Schemas, s: Schema, path: seq<string>): Option<seq<string>>
    decreases |path|
  {
    if path == [] then Some([s.id])
    else if path[0] !in s.fields then None
    else match Core(t, s.fields[path[0]].typeName)
      case None => None
      case Some(next) =>
        match Walk(t, next, path[1..])
        case None => None
        case Some(ids) => Some([s.id] + ids)
  }

  /** The node of an unfolded type that stands for the schema at its core. */
  function Inner(t: Schemas, typeName: string, p: Props): Option<Props>
    decreases |typeName|
  {
    match TypeAndSchema(t, typeName)
    case Of(_) => Some(p)
    case MapOf(sub) => if p.additional.Some? then Inner(t, sub, p.additional.value) else None
    case ArrayOf(sub) => if p.items.Some? then Inner(t, sub, p.items.value) else None
    case _ => None
  }

  /** The same path in the unfolded schema. */
  function Follow(t: Schemas, s: Schema, p: Props, path: seq<string>): Option<Props>
    decreases |path|
  {
    if path == [] then Some(p)
    else if p.properties.None? || path[0] !in s.fields || path[0] !in p.properties.value then None
    else
      var typeName := s.fields[path[0]].typeName;
      match (Core(t, typeName), Inner(t, typeName, p.properties.value[path[0]]))
      case (Some(next), Some(q)) => Follow(t, next, q, path[1..])
      case _ => None
  }

  /** Some ID on the list is in flight, or occurs earlier on the list. */
  predicate Repeats(inflight: set<string>, ids: seq<string>)
    decreases |ids|
  {
    ids != [] && (ids[0] in inflight || Repeats(inflight + {ids[0]}, ids[1..]))
  }

  lemma {:induction false} RepeatsMeans(inflight: set<string>, ids: seq<string>)
    ensures Repeats(inflight, ids) <==>
      exists j :: 0 <= j < |ids| && (ids[j] in inflight || ids[j] in ids[..j])
    decreases |ids|
  {
    if ids != [] {
      RepeatsMeans(inflight + {ids[0]}, ids[1..]);
      forall j | 0 < j < |ids|
        ensures ids[j] in ids[..j] <==> ids[j] == ids[0] || ids[1..][j - 1] in ids[1..][..j - 1]
      {
        assert ids[..j] == [ids[0]] + ids[1..][..j - 1];
      }
      if Repeats(inflight, ids) && ids[0] !in inflight {
        var j :| 0 <= j < |ids[1..]| && (ids[1..][j] in inflight + {ids[0]} || ids[1..][j] in ids[1..][..j]);
        assert ids[j + 1] in inflight || ids[j + 1] in ids[..j + 1];
      }
      if j :| 0 <= j < |ids| && (ids[j] in inflight || ids[j] in ids[..j]) {
        if j > 0 {
          assert ids[1..][j - 1] in inflight + {ids[0]} || ids[1..][j - 1] in ids[1..][..j - 1];
        }
      }
    }
  }

  lemma {:induction false} InnerOfType(t: Schemas, typeName: string, inflight: set<string>)
    requires Core(t, typeName).Some? && TypeToProps(t, typeName, inflight).Ok?
    ensures SchemaToProps(t, Core(t, typeName).value, inflight).Ok?
    ensures Inner(t, typeName, TypeToProps(t, typeName, inflight).value) ==
            Some(SchemaToProps(t, Core(t, typeName).value, inflight).value)
    decreases |typeName|
  {
    hide Ids, Reachable, SchemaToProps;
    match TypeAndSchema(t, typeName)
    case Of(s) =>
    case MapOf(sub) =>
      InnerOfType(t, sub, inflight);
      assert sub != "json" by {
        assert TypeAndSchema(t, "json").Plain?;
      }
    case ArrayOf(sub) => InnerOfType(t, sub, inflight);
    case _ =>
  }

  /** Populating a field leaves the structure below it alone. */
  lemma InnerOfField(t: Schemas, f: Field, p: Props)
    requires Populated(p, f).Ok? && Core(t, f.typeName).Some?
    ensures var q := Populated(p, f).value;
      && q.properties == p.properties
      && match (Inner(t, f.typeName, p), Inner(t, f.typeName, q))
         case (Some(a), Some(b)) => a.properties == b.properties
         case (None, None) => true
         case _ => false
  {
  }

  /** Only the properties of a node matter for where a path leads. */
  lemma SameBelow(t: Schemas, s: Schema, p: Props, q: Props, path: seq<string>)
    requires p.properties == q.properties && path != []
    ensures Follow(t, s, p, path) == Follow(t, s, q, path)
  {
  }

  /** The path has an end in the unfolded schema, and it is cut there, exactly where the IDs on it say so. */
  predicate CutsRight(inflight: set<string>, ids: seq<string>, n: nat, end: Option<Props>)
    requires |ids| == n + 1
  {
    && (end.Some? <==> !Repeats(inflight, ids[..n]))
    && (end.Some? ==> (end.value.properties.None? <==> ids[n] in inflight || ids[n] in ids[..n]))
  }

  /** Cuts happen at references to an ancestor on the current path and nowhere else.  A path of the table
      is there in the unfolded schema exactly if no schema repeats on it before its end, and its end is
      cut, that is, has no properties at all, exactly if the schema there occurred earlier on the path. */
  lemma {:induction false} CutsAtAncestors(t: Schemas, s: Schema, inflight: set<string>, path: seq<string>)
    requires s.id in Ids(t) && SchemaToProps(t, s, inflight).Ok? && Walk(t, s, path).Some?
    ensures |Walk(t, s, path).value| == |path| + 1
    ensures var ids, n := Walk(t, s, path).value, |path|;
      var end := Follow(t, s, SchemaToProps(t, s, inflight).value, path);
      && (end.Some? <==> !Repeats(inflight, ids[..n]))
      && (end.Some? ==> (end.value.properties.None? <==> ids[n] in inflight || ids[n] in ids[..n]))
    decreases |path|
  {
    hide Ids, Reachable, FieldsToProps, TypeToProps, Core, Inner;
    if path != [] {
      var next := Core(t, s.fields[path[0]].typeName).value;
      if s.id in inflight {
        CutBelow(t, next, path[1..]);
        assert SchemaToProps(t, s, inflight).value.properties.None?;
      } else {
        hide SchemaToProps, Follow, Repeats;
        StepDown(t, s, inflight, path[0]);
        CutsAtAncestors(t, next, inflight + {s.id}, path[1..]);
        CutsFurtherOn(t, s, inflight, path);
      }
    }
  }

  lemma CutsFurtherOn(t: Schemas, s: Schema, inflight: set<string>, path: seq<string>)
    requires s.id in Ids(t) && SchemaToProps(t, s, inflight).Ok? && Walk(t, s, path).Some?
    requires path != [] && s.id !in inflight && Core(t, s.fields[path[0]].typeName).Some?
    requires var next := Core(t, s.fields[path[0]].typeName).value;
      && SchemaToProps(t, next, inflight + {s.id}).Ok? && Walk(t, next, path[1..]).Some?
      && |Walk(t, next, path[1..]).value| == |path|
      && CutsRight(inflight + {s.id}, Walk(t, next, path[1..]).value, |path| - 1,
                   Follow(t, next, SchemaToProps(t, next, inflight + {s.id}).value, path[1..]))
    ensures |Walk(t, s, path).value| == |path| + 1
    ensures CutsRight(inflight, Walk(t, s, path).value, |path|,
      Follow(t, s, SchemaToProps(t, s, inflight).value, path))
  {
    hide Ids, Reachable, FieldsToProps, TypeToProps, SchemaToProps, Core, Inner, Repeats;
    var p, f := SchemaToProps(t, s, inflight).value, s.fields[path[0]];
    var next, rest := Core(t, f.typeName).value, path[1..];
    StepDown(t, s, inflight, path[0]);
    RepeatsFurtherOn(inflight, s.id, Walk(t, next, rest).value, |path| - 1);
    if rest != [] {
      var below := SchemaToProps(t, next, inflight + {s.id}).value;
      SameBelow(t, next, below, Inner(t, f.typeName, p.properties.value[path[0]]).value, rest);
    }
  }

  /** What repeats from the second schema on, with the first in flight. */
  lemma RepeatsFurtherOn(inflight: set<string>, id: string, tail: seq<string>, n: nat)
    requires id !in inflight && n < |tail|
    ensures var ids := [id] + tail;
      && (Repeats(inflight, ids[..n + 1]) <==> Repeats(inflight + {id}, tail[..n]))
      && (ids[n + 1] in ids[..n + 1] <==> tail[n] == id || tail[n] in tail[..n])
      && ids[n + 1] == tail[n]
  {
    var ids := [id] + tail;
    assert ids[..n + 1] == [id] + tail[..n];
    assert ids[..n + 1][1..] == tail[..n];
  }

  lemma {:induction false} CutBelow(t: Schemas, s: Schema, path: seq<string>)
    requires Walk(t, s, path).Some?
    ensures |Walk(t, s, path).value| == |path| + 1
    decreases |path|
  {
    hide Core;
    if path != [] {
      CutBelow(t, Core(t, s.fields[path[0]].typeName).value, path[1..]);
    }
  }

  /** One step along a path, in the table and in the unfolded schema. */
  lemma StepDown(t: Schemas, s: Schema, inflight: set<string>, name: string)
    requires s.id in Ids(t) && s.id !in inflight && SchemaToProps(t, s, inflight).Ok?
    requires name in s.fields && Core(t, s.fields[name].typeName).Some?
    ensures var p, next := SchemaToProps(t, s, inflight).value, Core(t, s.fields[name].typeName).value;
      && p.properties.Some? && name in p.properties.value
      && SchemaToProps(t, next, inflight + {s.id}).Ok?
      && Inner(t, s.fields[name].typeName, p.properties.value[name]).Some?
      && Inner(t, s.fields[name].typeName, p.properties.value[name]).value.properties ==
         SchemaToProps(t, next, inflight + {s.id}).value.properties
  {
    hide Ids, Reachable, TypeToProps, Core, Inner, Populated;
    var f, fields := s.fields[name], FieldsToProps(t, s, inflight);
    assert fields[name] == FieldToProps(t, f, inflight + {s.id});
    assert !fields[name].Error?;
    InnerOfType(t, f.typeName, inflight + {s.id});
    InnerOfField(t, f, TypeToProps(t, f.typeName, inflight + {s.id}).value);
  }
}
