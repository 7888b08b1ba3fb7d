/** Deep merge of unstructured maps (pkg/data/merge.go:3-33). */
module Merge {
  import opened Common
  import opened Json
  import opened Paths
  import opened PathLaws
  import opened Documents

  /** Maps are merged key by key, anything else is replaced by the overlay. */
  function Merged(base: Value, overlay: Value): Value
    decreases overlay
  {
    if !base.Obj? || !overlay.Obj? then overlay
    else
      var b, o := base.fields, overlay.fields;
      Obj(map k | k in b.Keys + o.Keys ::
            if k !in o then b[k] else if k !in b then o[k] else Merged(b[k], o[k]))
  }

  /** What a merge of maps holds at one key of the overlay. */
  function Slot(base: Record, overlay: Record, k: string): Value
    requires k in overlay
  {
    if k in base then Merged(base[k], overlay[k]) else overlay[k]
  }

  /** The base after the overlay's keys in done have been merged in. */
  function Partly(base: Record, overlay: Record, done: set<string>): Record
    requires done <= overlay.Keys
  {
    map k | k in base.Keys + done :: if k in done then Slot(base, overlay, k) else base[k]
  }

  lemma PartlyNone(base: Record, overlay: Record)
    ensures Partly(base, overlay, {}) == base
  {
  }

  lemma PartlyOneMore(base: Record, overlay: Record, done: set<string>, k: string)
    requires done <= overlay.Keys && k in overlay && k !in done
    ensures Partly(base, overlay, done)[k := Slot(base, overlay, k)] == Partly(base, overlay, done + {k})
    ensures Find(Partly(base, overlay, done), k) == Find(base, k)
  {
    hide Slot;
  }

  lemma PartlyAll(base: Record, overlay: Record)
    ensures Obj(Partly(base, overlay, overlay.Keys)) == Merged(Obj(base), Obj(overlay))
  {
    assert Merged(Obj(base), Obj(overlay)).fields == Partly(base, overlay, overlay.Keys);
  }

  lemma SlotIs(base: Record, overlay: Record, k: string)
    requires k in overlay
    ensures Slot(base, overlay, k) ==
      if k in base && base[k].Obj? && overlay[k].Obj? then Merged(base[k], overlay[k]) else overlay[k]
  {
  }

  // -------- the loops, on the heap --------

  /** A Go map, nil being an empty one, that spells the record. */
  ghost predicate Spelled(nodes: set<Node>, d: Node?, r: Record)
    reads nodes
  {
    if d == null then r == map[] else Reads(Snapshot(nodes), d, r)
  }

  function EntryIn(d: Node?, k: string): Option<Val>
    reads d
  {
    if d == null then None else Find(d.m, k)
  }

  /** An entry is the one of the overlay or, failing that, of the base; only where both are maps it is a map
      of its own. */
  predicate Shared(entry: Option<Val>, base: Option<Val>, overlay: Option<Val>) {
    match (base, overlay)
    case (Some(Sub(b)), Some(Sub(o))) => entry.Some? && entry.value.Sub?
    case (x, None) => entry == x
    case (_, y) => entry == y
  }

  ghost predicate SharedSoFar(entries: map<string, Val>, base: map<string, Val>, overlay: map<string, Val>,
                              done: set<string>) {
    forall k ::
      if k in done then Shared(Find(entries, k), Find(base, k), Find(overlay, k)) else Find(entries, k) == Find(base, k)
  }

  lemma SharedMore(entries: map<string, Val>, base: map<string, Val>, overlay: map<string, Val>, done: set<string>,
                   k: string, x: Val)
    requires SharedSoFar(entries, base, overlay, done) && Shared(Some(x), Find(base, k), Find(overlay, k))
    ensures SharedSoFar(entries[k := x], base, overlay, done + {k})
  {
    hide Shared;
  }

  lemma SharedAt(entries: map<string, Val>, base: map<string, Val>, overlay: map<string, Val>, done: set<string>,
                 k: string)
    requires SharedSoFar(entries, base, overlay, done)
    ensures k !in done ==> Find(entries, k) == Find(base, k)
    ensures overlay.Keys <= done ==> Shared(Find(entries, k), Find(base, k), Find(overlay, k))
  {
  }

  method Copied(base: Node?) returns (result: Node)
    ensures fresh(result) && result.m == if base == null then map[] else base.m
  {
    result := new Node();
    if base != null {
      var todo := base.m.Keys;
      while todo != {}
        invariant todo <= base.m.Keys && result.m.Keys == base.m.Keys - todo
        invariant forall k :: k in result.m ==> result.m[k] == base.m[k]
        decreases |todo|
      {
        var k :| k in todo;
        result.m := result.m[k := base.m[k]];
        todo := todo - {k};
      }
    }
  }

  /** The entries of the result so far. */
  ghost predicate Halfway(h: Shape, entries: map<string, Val>, r: Record) {
    entries.Keys == r.Keys && forall k :: k in r ==> ReadsAs(h, entries[k], r[k])
  }

  /** One more entry, made of maps of its own. */
  lemma HalfwayMore(h: Shape, own: Shape, g: Shape, entries: map<string, Val>, b: Record, o: Record, done: set<string>,
                    k: string, x: Val)
    requires done <= o.Keys && k in o && k !in done && Halfway(h, entries, Partly(b, o, done))
    requires Same(h, g, h.Keys) && Same(own, g, own.Keys)
    requires ReadsAs(own, x, if k in b && b[k].Obj? && o[k].Obj? then Merged(b[k], o[k]) else o[k])
    ensures Halfway(g, entries[k := x], Partly(b, o, done + {k}))
  {
    hide Partly, ReadsAs, Merged, Slot;
    PartlyOneMore(b, o, done, k);
    SlotIs(b, o, k);
    ReadsMore(own, g, x, Slot(b, o, k));
    var r := Partly(b, o, done);
    forall j | j in r ensures ReadsAs(g, entries[j], r[j]) {
      ReadsMore(h, g, entries[j], r[j]);
    }
  }

  lemma SpelledKeys(nodes: set<Node>, d: Node?, r: Record)
    requires Spelled(nodes, d, r)
    ensures if d == null then r == map[] else d in nodes && d.m.Keys == r.Keys
  {
  }

  lemma SpelledEnd(h: Shape, g: Shape, d: Node, r: Record)
    requires d in g && Halfway(h, g[d], r) && Same(h, g, h.Keys)
    ensures Reads(g, d, r)
  {
    forall k | k in r ensures ReadsAs(g, g[d][k], r[k]) {
      ReadsMore(h, g, g[d][k], r[k]);
    }
  }

  lemma MoreNodes(few: set<Node>, many: set<Node>)
    requires few <= many
    ensures Same(Snapshot(few), Snapshot(many), Snapshot(few).Keys)
  {
  }

  lemma EntryMade(nodes: set<Node>, made: set<Node>, more: set<Node>, entries: map<string, Val>, b: Record, o: Record,
                  done: set<string>, k: string, x: Val)
    requires done <= o.Keys && k in o && k !in done && Halfway(Snapshot(nodes + made), entries, Partly(b, o, done))
    requires ReadsAs(Snapshot(nodes + more), x, if k in b && b[k].Obj? && o[k].Obj? then Merged(b[k], o[k]) else o[k])
    ensures Halfway(Snapshot(nodes + (made + more)), entries[k := x], Partly(b, o, done + {k}))
  {
    hide Merged, Partly, ReadsAs, Halfway, Same;
    MoreNodes(nodes + made, nodes + (made + more));
    MoreNodes(nodes + more, nodes + (made + more));
    HalfwayMore(Snapshot(nodes + made), Snapshot(nodes + more), Snapshot(nodes + (made + more)), entries, b, o, done,
      k, x);
  }

  lemma MergedIsMap(b: Value, o: Value)
    requires b.Obj? && o.Obj?
    ensures Merged(b, o).Obj?
  {
  }

  /** The value of one entry: the overlay's, or a merge of the two where both are maps. */
  method MergeEntry(x: Option<Val>, y: Val, ghost nodes: set<Node>, ghost b: Option<Value>, ghost o: Value)
      returns (z: Val, ghost more: set<Node>)
    requires (x.Some? <==> b.Some?) && (x.Some? ==> ReadsAs(Snapshot(nodes), x.value, b.value))
    requires ReadsAs(Snapshot(nodes), y, o)
    ensures fresh(more)
    ensures ReadsAs(Snapshot(nodes + more), z, if b.Some? && b.value.Obj? && o.Obj? then Merged(b.value, o) else o)
    ensures Shared(Some(z), x, Some(y))
    decreases o, 3
  {
    hide Merged;
    z, more := y, {};
    if x.Some? && x.value.Sub? && y.Sub? {
      var inner;
      inner, more := MergeMaps(x.value.node, y.node, nodes, b.value.fields, o.fields);
      z := Sub(inner);
      MergedIsMap(b.value, o);
    } else {
      assert nodes + more == nodes;
    }
  }

  lemma HalfwayAt(h: Shape, entries: map<string, Val>, r: Record, k: string)
    requires Halfway(h, entries, r)
    ensures (k in entries <==> k in r) && (k in r ==> ReadsAs(h, entries[k], r[k]))
  {
  }

  lemma EntryKeys(nodes: set<Node>, d: Node, r: Record)
    requires Reads(Snapshot(nodes), d, r)
    ensures d in nodes && d.m.Keys == r.Keys
  {
  }

  lemma EntryReads(nodes: set<Node>, d: Node, r: Record, k: string)
    requires Reads(Snapshot(nodes), d, r) && k in r
    ensures d in nodes && k in d.m && ReadsAs(Snapshot(nodes), d.m[k], r[k])
  {
  }

  /** The keys in done have been merged into the result, which was a copy of the base. */
  ghost predicate Overlaid(h: Shape, entries: map<string, Val>, base: map<string, Val>, overlay: map<string, Val>,
                           b: Record, o: Record, done: set<string>) {
    done <= o.Keys && Halfway(h, entries, Partly(b, o, done)) && SharedSoFar(entries, base, overlay, done)
  }

  lemma NothingOverlaid(h: Shape, base: map<string, Val>, overlay: map<string, Val>, b: Record, o: Record)
    requires Halfway(h, base, b)
    ensures Overlaid(h, base, base, overlay, b, o, {})
  {
    PartlyNone(b, o);
  }

  /** One key of the overlay, into the result. */
  method OverlayKey(k: string, result: Node, overlay: Node, ghost nodes: set<Node>, ghost made: set<Node>,
                    ghost before: map<string, Val>, ghost b: Record, ghost o: Record, ghost done: set<string>)
      returns (ghost made': set<Node>)
    requires overlay in nodes && result !in nodes && result !in made && k !in done && k in overlay.m
    requires Halfway(Snapshot(nodes), before, b) && Reads(Snapshot(nodes), overlay, o)
    requires Overlaid(Snapshot(nodes + made), result.m, before, overlay.m, b, o, done)
    modifies result
    ensures made <= made' && fresh(made' - made) && result !in made' && Snapshot(nodes) == old(Snapshot(nodes))
    ensures overlay.m == old(overlay.m)
    ensures Overlaid(Snapshot(nodes + made'), result.m, before, overlay.m, b, o, done + {k})
    decreases Obj(o), 0
  {
    hide Merged, Partly, ReadsAs, Halfway, Shared, SharedSoFar, Reads;
    EntryKeys(nodes, overlay, o);
    HalfwayAt(Snapshot(nodes), before, b, k);
    EntryReads(nodes, overlay, o, k);
    SharedAt(result.m, before, overlay.m, done, k);
    var x, more := MergeEntry(if k in result.m then Some(result.m[k]) else None, overlay.m[k], nodes, Find(b, k), o[k]);
    EntryMade(nodes, made, more, result.m, b, o, done, k, x);
    SharedMore(result.m, before, overlay.m, done, k, x);
    made' := made + more;
    ghost var h := Snapshot(nodes + made');
    result.m := result.m[k := x];
    assert Snapshot(nodes + made') == h;
  }

  /** The overlay's keys, in no particular order, into a copy of the base. */
  method Overlay(result: Node, overlay: Node, ghost nodes: set<Node>, ghost b: Record, ghost o: Record)
      returns (ghost made: set<Node>)
    requires overlay in nodes && result !in nodes && Reads(Snapshot(nodes), overlay, o)
    requires Halfway(Snapshot(nodes), result.m, b)
    modifies result
    ensures fresh(made)
    ensures Overlaid(Snapshot(nodes + made), result.m, old(result.m), overlay.m, b, o, o.Keys)
    decreases Obj(o), 1
  {
    hide *;
    made := {};
    assert nodes + made == nodes;
    var todo := overlay.m.Keys;
    ghost var h, before, all := Snapshot(nodes), result.m, overlay.m.Keys;
    NothingOverlaid(h, before, overlay.m, b, o);
    EntryKeys(nodes, overlay, o);
    assert all - todo == {};
    while todo != {}
      invariant todo <= all == overlay.m.Keys
      invariant fresh(made) && result !in made && Snapshot(nodes) == h
      invariant Overlaid(Snapshot(nodes + made), result.m, before, overlay.m, b, o, all - todo)
      decreases |todo|
    {
      var k :| k in todo;
      OneFewer(all, todo, k);
      made := OverlayKey(k, result, overlay, nodes, made, before, b, o, all - todo);
      todo := todo - {k};
    }
    assert all - todo == o.Keys;
  }

  /** MergeMaps: it writes to maps of its own only. */
  method MergeMaps(base: Node?, overlay: Node?, ghost nodes: set<Node>, ghost b: Record, ghost o: Record)
      returns (result: Node, ghost made: set<Node>)
    requires Spelled(nodes, base, b) && Spelled(nodes, overlay, o)
    ensures fresh(made) && result in made && Snapshot(nodes) == old(Snapshot(nodes))
    ensures Reads(Snapshot(nodes + made), result, Merged(Obj(b), Obj(o)).fields)
    ensures forall k :: Shared(Find(result.m, k), EntryIn(base, k), EntryIn(overlay, k))
    decreases Obj(o), 2
  {
    hide Merged, Partly, Reads, ReadsAs, Halfway, Shared, SharedSoFar;
    result := Copied(base);
    SpelledKeys(nodes, base, b);
    SpelledKeys(nodes, overlay, o);
    Begun(nodes, base, b, result.m);
    ghost var before := result.m;
    if overlay != null {
      made := Overlay(result, overlay, nodes, b, o);
    } else {
      made := {};
      assert nodes + made == nodes && o.Keys == {};
      NothingOverlaid(Snapshot(nodes), before, map[], b, o);
    }
    forall k ensures Shared(Find(result.m, k), EntryIn(base, k), EntryIn(overlay, k)) {
      SharedAt(result.m, before, if overlay == null then map[] else overlay.m, o.Keys, k);
    }
    PartlyAll(b, o);
    ghost var h := Snapshot(nodes + made);
    made := made + {result};
    SpelledEnd(h, Snapshot(nodes + made), result, Partly(b, o, o.Keys));
  }

  lemma Begun(nodes: set<Node>, base: Node?, b: Record, entries: map<string, Val>)
    requires Spelled(nodes, base, b) && entries == if base == null then map[] else base.m
    ensures Halfway(Snapshot(nodes), entries, b)
  {
  }

  // -------- merging, path by path --------

  function Get(v: Value, path: seq<string>): Option<Value>
    decreases |path|
  {
    if path == [] then Some(v)
    else if v.Obj? && path[0] in v.fields then Get(v.fields[path[0]], path[1..])
    else None
  }

  /** On the way down the path, v holds something that is not a map. */
  predicate CutOff(v: Value, path: seq<string>)
    decreases |path|
  {
    path != [] && (v.Obj? ==> path[0] in v.fields && CutOff(v.fields[path[0]], path[1..]))
  }

  /** What a merge holds at any path: the overlay's value, unless both hold maps there; the base's only
      where the overlay neither says anything nor stands in the way. */
  lemma {:induction false} MergedByPaths(base: Value, overlay: Value, path: seq<string>)
    ensures Get(Merged(base, overlay), path) ==
      match (Get(base, path), Get(overlay, path))
      case (Some(b), Some(o)) => Some(Merged(b, o))
      case (None, Some(o)) => Some(o)
      case (b, None) => if CutOff(overlay, path) then None else b
    decreases |path|
  {
    if path != [] && base.Obj? && overlay.Obj? && path[0] in base.fields && path[0] in overlay.fields {
      MergedByPaths(base.fields[path[0]], overlay.fields[path[0]], path[1..]);
    } else if path != [] {
      Missing(overlay, path);
    }
  }

  lemma {:induction false} Missing(v: Value, path: seq<string>)
    ensures CutOff(v, path) ==> Get(v, path) == None
    decreases |path|
  {
    if path != [] && v.Obj? && path[0] in v.fields {
      Missing(v.fields[path[0]], path[1..]);
    }
  }

  // -------- algebra --------

  lemma EmptyIsIdentity(m: Record)
    ensures Merged(Obj(map[]), Obj(m)) == Obj(m)
    ensures Merged(Obj(m), Obj(map[])) == Obj(m)
  {
    assert Merged(Obj(map[]), Obj(m)).fields == m;
    assert Merged(Obj(m), Obj(map[])).fields == m;
  }

  /** Merging the same overlay twice is merging it once. */
  lemma {:induction false} Absorbing(base: Value, overlay: Value)
    ensures Merged(Merged(base, overlay), overlay) == Merged(base, overlay)
    decreases overlay
  {
    if overlay.Obj? {
      var m := Merged(base, overlay);
      forall k | k in overlay.fields ensures Merged(m.fields[k], overlay.fields[k]) == m.fields[k] {
        if base.Obj? && k in base.fields {
          Absorbing(base.fields[k], overlay.fields[k]);
        } else {
          Idempotent(overlay.fields[k]);
        }
      }
      assert Merged(m, overlay).fields == m.fields;
    }
  }

  lemma {:induction false} Idempotent(v: Value)
    ensures Merged(v, v) == v
    decreases v
  {
    if v.Obj? {
      forall k | k in v.fields ensures Merged(v.fields[k], v.fields[k]) == v.fields[k] {
        Idempotent(v.fields[k]);
      }
      assert Merged(v, v).fields == v.fields;
    }
  }

  /** Every entry of a is also an entry of c, through all levels that are maps in both. */
  predicate Covered(a: Value, c: Value)
    decreases c
  {
    a.Obj? && c.Obj? ==>
      a.fields.Keys <= c.fields.Keys && forall k :: k in a.fields ==> Covered(a.fields[k], c.fields[k])
  }

  /** An overlay hides the base completely exactly when it covers it. */
  lemma {:induction false} HidesExactlyWhen(a: Value, c: Value)
    ensures Merged(a, c) == c <==> Covered(a, c)
    decreases c
  {
    if a.Obj? && c.Obj? {
      var m := Merged(a, c).fields;
      forall k | k in a.fields && k in c.fields
        ensures m[k] == c.fields[k] <==> Covered(a.fields[k], c.fields[k])
      {
        HidesExactlyWhen(a.fields[k], c.fields[k]);
      }
      assert m.Keys == a.fields.Keys + c.fields.Keys;
      if Covered(a, c) {
        assert m == c.fields;
      }
    }
  }

  /** Where the outer values are maps and the middle one is not, the last has to cover the first. */
  predicate Associates(a: Value, b: Value, c: Value)
    decreases c
  {
    a.Obj? && c.Obj? ==>
      if b.Obj? then
        forall k :: k in a.fields && k in b.fields && k in c.fields ==>
          Associates(a.fields[k], b.fields[k], c.fields[k])
      else Covered(a, c)
  }

  lemma {:induction false} AssociativeExactlyWhen(a: Value, b: Value, c: Value)
    ensures Merged(Merged(a, b), c) == Merged(a, Merged(b, c)) <==> Associates(a, b, c)
    decreases c
  {
    if a.Obj? && b.Obj? && c.Obj? {
      var l, r := Merged(Merged(a, b), c).fields, Merged(a, Merged(b, c)).fields;
      assert l.Keys == r.Keys == a.fields.Keys + b.fields.Keys + c.fields.Keys;
      forall k | k in l
        ensures l[k] == r[k] <==>
          (k in a.fields && k in b.fields && k in c.fields ==> Associates(a.fields[k], b.fields[k], c.fields[k]))
      {
        if k in a.fields && k in b.fields && k in c.fields {
          AssociativeExactlyWhen(a.fields[k], b.fields[k], c.fields[k]);
        }
      }
      if Associates(a, b, c) {
        assert l == r;
      }
    } else if a.Obj? && c.Obj? {
      HidesExactlyWhen(a, c);
    }
  }

  /** The middle value is a map wherever both outer ones are. */
  predicate MiddleIsMap(a: Value, b: Value, c: Value)
    decreases c
  {
    a.Obj? && c.Obj? ==>
      b.Obj? && forall k :: k in a.fields && k in b.fields && k in c.fields ==>
        MiddleIsMap(a.fields[k], b.fields[k], c.fields[k])
  }

  lemma {:induction false} AssociativeThroughMaps(a: Value, b: Value, c: Value)
    requires MiddleIsMap(a, b, c)
    ensures Merged(Merged(a, b), c) == Merged(a, Merged(b, c))
  {
    MapsAssociate(a, b, c);
    AssociativeExactlyWhen(a, b, c);
  }

  lemma {:induction false} MapsAssociate(a: Value, b: Value, c: Value)
    requires MiddleIsMap(a, b, c)
    ensures Associates(a, b, c)
    decreases c
  {
    if a.Obj? && c.Obj? {
      forall k | k in a.fields && k in b.fields && k in c.fields
        ensures Associates(a.fields[k], b.fields[k], c.fields[k])
      {
        MapsAssociate(a.fields[k], b.fields[k], c.fields[k]);
      }
    }
  }
}
