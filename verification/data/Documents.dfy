/** Maps on the heap against the documents they spell: what the path functions do in place is what the
    functions of module Moves say of documents, as long as no map is reached in two ways. */
module Documents {
  import opened Common
  import opened Json
  import opened Paths
  import opened PathLaws
  import M = Moves

  // -------- documents on the heap --------

  /** The map d spells the document r, and no map in it is shared. */
  ghost predicate IsDoc(h: Shape, d: Node, r: Record)
    decreases Obj(r), 1
  {
    && d in h && h[d].Keys == r.Keys
    && (forall k :: k in r ==> Holds(h, h[d][k], r[k]) && d !in Below(h, h[d][k], r[k]))
    && (forall j, k :: j in r && k in r && j != k ==> Below(h, h[d][j], r[j]) !! Below(h, h[d][k], r[k]))
  }

  ghost predicate Holds(h: Shape, x: Val, v: Value)
    decreases v, 2
  {
    match x
    case Leaf(w) => w == v && !v.Obj? && !v.List?
    case Sub(n) => v.Obj? && IsDoc(h, n, v.fields)
    case Many(xs) =>
      && v.List? && |xs| == |v.items|
      && (forall i :: 0 <= i < |xs| ==> Holds(h, xs[i], v.items[i]))
      && (forall i, j :: 0 <= i < |xs| && 0 <= j < |xs| && i != j ==>
          Below(h, xs[i], v.items[i]) !! Below(h, xs[j], v.items[j]))
  }

  /** The maps that make up a document. */
  ghost function Foot(h: Shape, d: Node, r: Record): set<Node>
    decreases Obj(r), 1
  {
    {d} + set k, n | k in r.Keys && d in h && k in h[d] && n in Below(h, h[d][k], r[k]) :: n
  }

  ghost function Below(h: Shape, x: Val, v: Value): set<Node>
    decreases v, 2
  {
    if x.Sub? && v.Obj? then Foot(h, x.node, v.fields)
    else if x.Many? && v.List? then
      set i, n | 0 <= i < |v.items| && i < |x.items| && n in Below(h, x.items[i], v.items[i]) :: n
    else {}
  }

  ghost predicate Same(h: Shape, g: Shape, nodes: set<Node>) {
    forall n :: n in nodes ==> n in h && n in g && g[n] == h[n]
  }

  /** What is said of a document depends on its own maps only. */
  lemma {:induction false} SameDoc(h: Shape, g: Shape, d: Node, r: Record)
    requires IsDoc(h, d, r) && Same(h, g, Foot(h, d, r))
    ensures IsDoc(g, d, r) && Foot(g, d, r) == Foot(h, d, r)
    decreases Obj(r), 1
  {
    forall k | k in r ensures Holds(g, g[d][k], r[k]) && Below(g, g[d][k], r[k]) == Below(h, h[d][k], r[k]) {
      assert forall n :: n in Below(h, h[d][k], r[k]) ==> n in Foot(h, d, r);
      SameVal(h, g, h[d][k], r[k]);
    }
  }

  lemma {:induction false} SameVal(h: Shape, g: Shape, x: Val, v: Value)
    requires Holds(h, x, v) && Same(h, g, Below(h, x, v))
    ensures Holds(g, x, v) && Below(g, x, v) == Below(h, x, v)
    decreases v, 2
  {
    if x.Sub? {
      SameDoc(h, g, x.node, v.fields);
    } else if x.Many? {
      forall i | 0 <= i < |x.items|
        ensures Holds(g, x.items[i], v.items[i]) && Below(g, x.items[i], v.items[i]) == Below(h, x.items[i], v.items[i])
      {
        assert forall n :: n in Below(h, x.items[i], v.items[i]) ==> n in Below(h, x, v);
        SameVal(h, g, x.items[i], v.items[i]);
      }
    }
  }

  lemma {:induction false} FootIsThere(h: Shape, d: Node, r: Record)
    requires IsDoc(h, d, r)
    ensures Foot(h, d, r) <= h.Keys
    decreases Obj(r), 1
  {
    forall k | k in r ensures Below(h, h[d][k], r[k]) <= h.Keys {
      BelowIsThere(h, h[d][k], r[k]);
    }
  }

  lemma {:induction false} BelowIsThere(h: Shape, x: Val, v: Value)
    requires Holds(h, x, v)
    ensures Below(h, x, v) <= h.Keys
    decreases v, 2
  {
    if x.Sub? {
      FootIsThere(h, x.node, v.fields);
    } else if x.Many? {
      forall i | 0 <= i < |x.items| ensures Below(h, x.items[i], v.items[i]) <= h.Keys {
        BelowIsThere(h, x.items[i], v.items[i]);
      }
    }
  }

  lemma BelowInFoot(h: Shape, d: Node, r: Record, k: string)
    requires IsDoc(h, d, r) && k in r
    ensures Below(h, h[d][k], r[k]) <= Foot(h, d, r) - {d}
  {
  }

  // -------- one entry changes --------

  /** One entry is set to something that shares nothing with the others. */
  lemma SetEntry(h: Shape, g: Shape, d: Node, r: Record, k: string, x: Val, v: Value)
    requires IsDoc(h, d, r) && d in g && g[d] == h[d][k := x]
    requires Holds(g, x, v) && d !in Below(g, x, v)
    requires forall j :: j in r && j != k ==> Below(h, h[d][j], r[j]) !! Below(g, x, v)
    requires forall j :: j in r && j != k ==> Same(h, g, Below(h, h[d][j], r[j]))
    ensures IsDoc(g, d, r[k := v])
    ensures Foot(g, d, r[k := v]) <= Foot(h, d, r) - (if k in r then Below(h, h[d][k], r[k]) else {}) + Below(g, x, v)
  {
    hide Holds, Below, Same;
    var e := r[k := v];
    forall j | j in e && j != k ensures Holds(g, g[d][j], e[j]) && Below(g, g[d][j], e[j]) == Below(h, h[d][j], r[j]) {
      SameVal(h, g, h[d][j], r[j]);
    }
    assert IsDoc(g, d, e);
    forall n | n in Foot(g, d, e) && n !in Below(g, x, v)
      ensures n in Foot(h, d, r) && (k in r ==> n !in Below(h, h[d][k], r[k]))
    {
      if n != d {
        var j :| j in e && n in Below(g, g[d][j], e[j]);
        assert j != k && n in Below(h, h[d][j], r[j]);
      }
    }
  }

  lemma DropEntry(h: Shape, g: Shape, d: Node, r: Record, k: string)
    requires IsDoc(h, d, r) && d in g && g[d] == h[d] - {k}
    requires forall j :: j in r && j != k ==> Same(h, g, Below(h, h[d][j], r[j]))
    ensures IsDoc(g, d, r - {k}) && Foot(g, d, r - {k}) <= Foot(h, d, r)
    ensures k in r ==> Foot(g, d, r - {k}) !! Below(h, h[d][k], r[k])
  {
    var e := r - {k};
    forall j | j in e ensures Holds(g, g[d][j], e[j]) && Below(g, g[d][j], e[j]) == Below(h, h[d][j], r[j]) {
      SameVal(h, g, h[d][j], r[j]);
    }
    forall n | n in Foot(g, d, e) && n != d ensures n in Foot(h, d, r) && (k in r ==> n !in Below(h, h[d][k], r[k])) {
      var j :| j in e && n in Below(g, g[d][j], e[j]);
      assert j != k && n in Below(h, h[d][j], r[j]);
    }
  }

  // -------- looking --------

  /** GetValue finds what the document has there. */
  lemma {:induction false} GetIsLook(h: Shape, d: Node, r: Record, keys: seq<string>)
    requires IsDoc(h, d, r)
    ensures match M.Look(r, keys)
      case None => ValueIn(h, d, keys) == None
      case Some(v) =>
        var x := ValueIn(h, d, keys);
        x.Some? && Holds(h, x.value, v) && Below(h, x.value, v) <= Foot(h, d, r) - {d}
    decreases |keys|
  {
    if |keys| == 1 {
      assert keys[..0] == [];
      if keys[0] in r {
        BelowInFoot(h, d, r, keys[0]);
      }
    } else if |keys| > 1 {
      var last := |keys| - 1;
      assert keys[..last][1..] == keys[1..][..last - 1] && keys[1..][last - 1] == keys[last];
      if Field(r, keys[0]).Obj? {
        var n := h[d][keys[0]].node;
        GetIsLook(h, n, r[keys[0]].fields, keys[1..]);
        BelowInFoot(h, d, r, keys[0]);
      } else {
        M.Nowhere(keys[1..]);
        assert Along(h, d, keys[..last]) == Along(h, Next(h, d, keys[0]), keys[..last][1..]);
      }
    }
  }

  // -------- removing --------

  /** The document of one field, and the map that spells it. */
  lemma SubDoc(h: Shape, d: Node, r: Record, k: string)
    requires IsDoc(h, d, r)
    ensures Field(r, k).Obj? ==>
      && k in h[d] && h[d][k].Sub? && Next(h, d, k) == h[d][k].node && IsDoc(h, h[d][k].node, r[k].fields)
      && Foot(h, h[d][k].node, r[k].fields) == Below(h, h[d][k], r[k]) <= Foot(h, d, r) - {d}
    ensures !Field(r, k).Obj? ==> Next(h, d, k) == null
  {
    if Field(r, k).Obj? {
      BelowInFoot(h, d, r, k);
    }
  }

  /** A change inside the document of one field. */
  lemma InsideField(h: Shape, g: Shape, d: Node, r: Record, k: string, e: Record)
    requires IsDoc(h, d, r) && Field(r, k).Obj? && d in g && g[d] == h[d]
    requires h[d][k].Sub? && IsDoc(g, h[d][k].node, e)
    requires Foot(g, h[d][k].node, e) !! Foot(h, d, r) - Below(h, h[d][k], r[k])
    requires Same(h, g, Foot(h, d, r) - Below(h, h[d][k], r[k]))
    ensures IsDoc(g, d, r[k := Obj(e)])
    ensures Foot(g, d, r[k := Obj(e)]) <= Foot(h, d, r) - Below(h, h[d][k], r[k]) + Foot(g, h[d][k].node, e)
  {
    var x := h[d][k];
    assert h[d][k := x] == h[d];
    assert Below(g, x, Obj(e)) == Foot(g, x.node, e);
    forall j | j in r && j != k
      ensures Below(h, h[d][j], r[j]) !! Below(g, x, Obj(e)) && Same(h, g, Below(h, h[d][j], r[j]))
    {
      BelowInFoot(h, d, r, j);
      assert Below(h, h[d][j], r[j]) <= Foot(h, d, r) - Below(h, h[d][k], r[k]);
    }
    SetEntry(h, g, d, r, k, x, Obj(e));
  }

  /** The map RemoveValue changes is one of the document's. */
  lemma {:induction false} CutInside(h: Shape, d: Node, r: Record, keys: seq<string>)
    requires IsDoc(h, d, r)
    ensures Cut(h, d, keys).Keys == h.Keys
    ensures forall n :: n in h && n !in Foot(h, d, r) ==> Cut(h, d, keys)[n] == h[n]
    decreases |keys|
  {
    if |keys| > 1 {
      CutBelow(h, d, keys);
      SubDoc(h, d, r, keys[0]);
      if Field(r, keys[0]).Obj? {
        CutInside(h, h[d][keys[0]].node, r[keys[0]].fields, keys[1..]);
      }
    } else if |keys| == 1 {
      assert keys[..0] == [];
    }
  }

  lemma CutBelow(h: Shape, d: Node, keys: seq<string>)
    requires |keys| > 1
    ensures Cut(h, d, keys) == Cut(h, Next(h, d, keys[0]), keys[1..])
  {
    var last := |keys| - 1;
    assert keys[..last][1..] == keys[1..][..last - 1] && keys[1..][last - 1] == keys[last];
    assert Along(h, d, keys[..last]) == Along(h, Next(h, d, keys[0]), keys[..last][1..]);
  }

  /** After the removal the document is without the value, and shares nothing with it. */
  ghost predicate Parted(h: Shape, g: Shape, d: Node, r: Record, keys: seq<string>) {
    && IsDoc(g, d, M.Removed(r, keys)) && Foot(g, d, M.Removed(r, keys)) <= Foot(h, d, r)
    && match M.Look(r, keys)
       case None => true
       case Some(v) =>
         var x := ValueIn(h, d, keys);
         && x.Some? && Holds(g, x.value, v)
         && Below(g, x.value, v) <= Foot(h, d, r) - {d} && Below(g, x.value, v) !! Foot(g, d, M.Removed(r, keys))
  }

  lemma {:induction false} CutIsRemoved(h: Shape, d: Node, r: Record, keys: seq<string>)
    requires IsDoc(h, d, r)
    ensures Parted(h, Cut(h, d, keys), d, r, keys)
    decreases |keys|
  {
    hide IsDoc, Holds, Parted, Foot;
    if keys == [] {
      NothingParted(h, d, r);
    } else if |keys| == 1 {
      FieldParted(h, d, r, keys[0]);
      assert keys == [keys[0]];
    } else {
      CutBelow(h, d, keys);
      SubDoc(h, d, r, keys[0]);
      if Field(r, keys[0]).Obj? {
        CutIsRemoved(h, h[d][keys[0]].node, r[keys[0]].fields, keys[1..]);
        PartedInside(h, d, r, keys);
      } else {
        assert Cut(h, d, keys) == h;
        NotParted(h, d, r, keys);
      }
    }
  }

  lemma NothingParted(h: Shape, d: Node, r: Record)
    requires IsDoc(h, d, r)
    ensures Parted(h, Cut(h, d, []), d, r, [])
  {
  }

  lemma NotParted(h: Shape, d: Node, r: Record, keys: seq<string>)
    requires IsDoc(h, d, r) && |keys| > 1 && !Field(r, keys[0]).Obj?
    ensures Parted(h, h, d, r, keys)
  {
    M.Nowhere(keys[1..]);
  }

  lemma FieldParted(h: Shape, d: Node, r: Record, k: string)
    requires IsDoc(h, d, r)
    ensures Parted(h, Cut(h, d, [k]), d, r, [k])
  {
    var g := Cut(h, d, [k]);
    assert [k][..0] == [];
    forall j | j in r ensures Same(h, g, Below(h, h[d][j], r[j])) {
      BelowIsThere(h, h[d][j], r[j]);
    }
    DropEntry(h, g, d, r, k);
    if k in r {
      SameVal(h, g, h[d][k], r[k]);
      BelowInFoot(h, d, r, k);
    }
  }

  lemma PartedInside(h: Shape, d: Node, r: Record, keys: seq<string>)
    requires IsDoc(h, d, r) && |keys| > 1 && Field(r, keys[0]).Obj? && d in h && keys[0] in h[d] && h[d][keys[0]].Sub?
    requires Parted(h, Cut(h, d, keys), h[d][keys[0]].node, r[keys[0]].fields, keys[1..])
    ensures Parted(h, Cut(h, d, keys), d, r, keys)
  {
    hide IsDoc, Holds, Foot;
    var g, n, sub := Cut(h, d, keys), h[d][keys[0]].node, r[keys[0]].fields;
    SubDoc(h, d, r, keys[0]);
    CutBelow(h, d, keys);
    CutInside(h, n, sub, keys[1..]);
    FootIsThere(h, d, r);
    InFoot(h, d, r);
    InsideField(h, g, d, r, keys[0], M.Removed(sub, keys[1..]));
    ValueBelow(h, d, keys);
  }

  lemma InFoot(h: Shape, d: Node, r: Record)
    ensures d in Foot(h, d, r)
  {
  }

  lemma ValueBelow(h: Shape, d: Node, keys: seq<string>)
    requires |keys| > 1
    ensures ValueIn(h, d, keys) == ValueIn(h, Next(h, d, keys[0]), keys[1..])
  {
    var last := |keys| - 1;
    assert keys[..last][1..] == keys[1..][..last - 1] && keys[1..][last - 1] == keys[last];
    assert Along(h, d, keys[..last]) == Along(h, Next(h, d, keys[0]), keys[..last][1..]);
  }

  // -------- putting --------

  /** Something that is no map stands in the way on the heap exactly when it does in the document. */
  lemma {:induction false} ObstructedIsBlocked(h: Shape, d: Node, r: Record, keys: seq<string>)
    requires IsDoc(h, d, r) && keys != []
    ensures Obstructed(h, d, keys) <==> M.Blocked(r, keys)
    decreases |keys|
  {
    hide IsDoc;
    SubDoc(h, d, r, keys[0]);
    if |keys| > 1 && Field(r, keys[0]).Obj? {
      WriterBelow(h, d, keys);
      ObstructedIsBlocked(h, h[d][keys[0]].node, r[keys[0]].fields, keys[1..]);
    } else {
      SameKeys(h, d, r);
    }
  }

  lemma SameKeys(h: Shape, d: Node, r: Record)
    requires IsDoc(h, d, r)
    ensures d in h && h[d].Keys == r.Keys
  {
  }

  /** Where the next map is there, putting happens in it. */
  lemma WriterBelow(h: Shape, d: Node, keys: seq<string>)
    requires |keys| > 1 && Next(h, d, keys[0]) != null
    ensures var n := Next(h, d, keys[0]);
      && Stop(h, d, keys) == 1 + Stop(h, n, keys[1..]) && Writer(h, d, keys) == Writer(h, n, keys[1..])
      && (Obstructed(h, d, keys) <==> Obstructed(h, n, keys[1..]))
  {
    var n := Next(h, d, keys[0]);
    var r := Stop(h, n, keys[1..]);
    assert keys[..1 + r][1..] == keys[1..][..r] && keys[..1 + r][0] == keys[0];
    assert Along(h, d, keys[..1 + r]) == Along(h, n, keys[1..][..r]);
  }

  lemma WrittenBelow(h: Shape, g: Shape, d: Node, val: Val, keys: seq<string>, made: seq<Node>)
    requires |keys| > 1 && Next(h, d, keys[0]) != null && Next(h, d, keys[0]) in h
    requires Written(h, g, d, val, keys, made)
    ensures Written(h, g, Next(h, d, keys[0]), val, keys[1..], made)
  {
    WriterBelow(h, d, keys);
    var n := Next(h, d, keys[0]);
    var r := Stop(h, d, keys);
    assert keys[r] == keys[1..][r - 1];
  }

  lemma {:induction false} WriterInside(h: Shape, d: Node, r: Record, keys: seq<string>)
    requires IsDoc(h, d, r) && keys != []
    ensures Writer(h, d, keys) in Foot(h, d, r)
    decreases |keys|
  {
    hide IsDoc;
    InFoot(h, d, r);
    SubDoc(h, d, r, keys[0]);
    if |keys| > 1 && Field(r, keys[0]).Obj? {
      WriterBelow(h, d, keys);
      WriterInside(h, h[d][keys[0]].node, r[keys[0]].fields, keys[1..]);
    }
  }

  function MadeSet(made: seq<Node>, j: nat): set<Node> {
    set i | j <= i < |made| :: made[i]
  }

  lemma OneEntry(g: Shape, n: Node, k: string, x: Val, v: Value)
    requires n in g && g[n] == map[k := x] && Holds(g, x, v) && n !in Below(g, x, v)
    ensures IsDoc(g, n, map[k := v]) && Foot(g, n, map[k := v]) == {n} + Below(g, x, v)
  {
    var r: Record := map[k := v];
    assert r[k] == v && g[n][k] == x;
    forall j | j in r.Keys ensures j == k {}
  }

  /** The new maps, one inside the other, spell what Put makes where nothing is there. */
  lemma {:induction false} NewMaps(g: Shape, val: Val, v: Value, keys: seq<string>, made: seq<Node>, j: nat)
    requires |keys| == |made| && j < |made|
    requires forall i, k :: 0 <= i < k < |made| ==> made[i] != made[k]
    requires forall i {:trigger made[i]} :: 0 <= i < |made| ==>
      made[i] in g && g[made[i]] == Entry(keys[i], val, made, i)
    requires Holds(g, val, v) && forall n :: n in made ==> n !in Below(g, val, v)
    ensures IsDoc(g, made[j], M.Put(map[], keys[j..], v))
    ensures Foot(g, made[j], M.Put(map[], keys[j..], v)) <= MadeSet(made, j) + Below(g, val, v)
    decreases |made| - j
  {
    var r := M.Put(map[], keys[j..], v);
    assert g[made[j]] == Entry(keys[j], val, made, j);
    if j == |made| - 1 {
      assert r == map[keys[j] := v];
      OneEntry(g, made[j], keys[j], val, v);
    } else {
      NewMaps(g, val, v, keys, made, j + 1);
      var inner := Obj(M.Put(map[], keys[j + 1..], v));
      assert keys[j..][1..] == keys[j + 1..];
      assert r == map[keys[j] := inner];
      assert MadeSet(made, j) == {made[j]} + MadeSet(made, j + 1);
      assert made[j] !in MadeSet(made, j + 1);
      OneEntry(g, made[j], keys[j], Sub(made[j + 1]), inner);
    }
  }

  /** PutValue, where nothing is in the way, makes the document what Put makes of it. */
  ghost predicate Joined(h: Shape, g: Shape, d: Node, r: Record, keys: seq<string>, val: Val, v: Value,
                         made: seq<Node>) {
    && IsDoc(g, d, M.Put(r, keys, v))
    && Foot(g, d, M.Put(r, keys, v)) <= Foot(h, d, r) + MadeSet(made, 0) + Below(g, val, v)
  }

  /** What is put shares nothing with the document, and its maps are as they were. */
  ghost predicate Apart(h: Shape, g: Shape, d: Node, r: Record, val: Val, v: Value, made: seq<Node>) {
    && Holds(g, val, v) && Below(g, val, v) !! Foot(h, d, r) + MadeSet(made, 0)
    && forall i, k :: 0 <= i < k < |made| ==> made[i] != made[k]
  }

  lemma {:induction false} PutIsPut(h: Shape, g: Shape, d: Node, r: Record, keys: seq<string>, val: Val, v: Value,
                                    made: seq<Node>)
    requires keys != [] && IsDoc(h, d, r) && !M.Blocked(r, keys)
    requires Written(h, g, d, val, keys, made) && Apart(h, g, d, r, val, v, made)
    ensures Joined(h, g, d, r, keys, val, v, made)
    decreases |keys|
  {
    hide IsDoc, Written, Joined, Foot, Holds;
    SubDoc(h, d, r, keys[0]);
    if |keys| > 1 && Field(r, keys[0]).Obj? {
      var n, sub := h[d][keys[0]].node, r[keys[0]].fields;
      DocIsThere(h, n, sub);
      WrittenBelow(h, g, d, val, keys, made);
      PutIsPut(h, g, n, sub, keys[1..], val, v, made);
      JoinedInside(h, g, d, r, keys, val, v, made);
    } else if |keys| > 1 {
      PutAtMissing(h, g, d, r, keys, val, v, made);
    } else {
      PutAtField(h, g, d, r, keys, val, v, made);
    }
  }

  lemma DocIsThere(h: Shape, d: Node, r: Record)
    requires IsDoc(h, d, r)
    ensures d in h && h[d].Keys == r.Keys
  {
  }

  lemma JoinedInside(h: Shape, g: Shape, d: Node, r: Record, keys: seq<string>, val: Val, v: Value, made: seq<Node>)
    requires |keys| > 1 && IsDoc(h, d, r) && Field(r, keys[0]).Obj? && d in h && keys[0] in h[d] && h[d][keys[0]].Sub?
    requires Written(h, g, d, val, keys, made) && Apart(h, g, d, r, val, v, made)
    requires Joined(h, g, h[d][keys[0]].node, r[keys[0]].fields, keys[1..], val, v, made)
    ensures Joined(h, g, d, r, keys, val, v, made)
  {
    hide IsDoc, Foot, Holds;
    var n, sub := h[d][keys[0]].node, r[keys[0]].fields;
    var e := M.Put(sub, keys[1..], v);
    SubDoc(h, d, r, keys[0]);
    WriterBelow(h, d, keys);
    WriterInside(h, n, sub, keys[1..]);
    FootIsThere(h, d, r);
    InFoot(h, d, r);
    WrittenFrame(h, g, d, val, keys, made);
    assert MadeSet(made, 0) !! h.Keys;
    InsideField(h, g, d, r, keys[0], e);
  }

  lemma PutAtMissing(h: Shape, g: Shape, d: Node, r: Record, keys: seq<string>, val: Val, v: Value, made: seq<Node>)
    requires |keys| > 1 && IsDoc(h, d, r) && keys[0] !in r
    requires Written(h, g, d, val, keys, made) && Apart(h, g, d, r, val, v, made)
    ensures Joined(h, g, d, r, keys, val, v, made)
  {
    hide IsDoc, Foot, Holds;
    DocIsThere(h, d, r);
    FootIsThere(h, d, r);
    assert Stop(h, d, keys) == 0 && Writer(h, d, keys) == d;
    NewMaps(g, val, v, keys[1..], made, 0);
    assert keys[1..][0..] == keys[1..];
    var x, inner := Sub(made[0]), Obj(M.Put(map[], keys[1..], v));
    assert M.Put(r, keys, v) == r[keys[0] := inner];
    BelowNew(g, made[0], M.Put(map[], keys[1..], v));
    SetNew(h, g, d, r, keys[0], x, inner);
  }

  lemma BelowNew(g: Shape, n: Node, r: Record)
    requires IsDoc(g, n, r)
    ensures Holds(g, Sub(n), Obj(r)) && Below(g, Sub(n), Obj(r)) == Foot(g, n, r)
  {
  }

  /** An entry of the top map, whatever it held before. */
  lemma SetNew(h: Shape, g: Shape, d: Node, r: Record, k: string, x: Val, v: Value)
    requires IsDoc(h, d, r) && d in g && g[d] == h[d][k := x] && Holds(g, x, v)
    requires Below(g, x, v) !! Foot(h, d, r) && Same(h, g, Foot(h, d, r) - {d})
    ensures IsDoc(g, d, r[k := v]) && Foot(g, d, r[k := v]) <= Foot(h, d, r) + Below(g, x, v)
  {
    forall j | j in r && j != k
      ensures Below(h, h[d][j], r[j]) !! Below(g, x, v) && Same(h, g, Below(h, h[d][j], r[j]))
    {
      BelowInFoot(h, d, r, j);
    }
    InFoot(h, d, r);
    SetEntry(h, g, d, r, k, x, v);
  }

  lemma PutAtField(h: Shape, g: Shape, d: Node, r: Record, keys: seq<string>, val: Val, v: Value, made: seq<Node>)
    requires |keys| == 1 && IsDoc(h, d, r)
    requires Written(h, g, d, val, keys, made) && Apart(h, g, d, r, val, v, made)
    ensures Joined(h, g, d, r, keys, val, v, made)
  {
    hide IsDoc, Foot, Holds;
    FootIsThere(h, d, r);
    assert Stop(h, d, keys) == 0 && Writer(h, d, keys) == d && made == [];
    SetNew(h, g, d, r, keys[0], val, v);
  }

  // -------- moving in place --------

  /** No map of a document is reached in two ways, so the laws of path updates hold of it. */
  lemma DocIsTree(h: Shape, d: Node, r: Record)
    requires IsDoc(h, d, r)
    ensures Tree(h, d)
  {
    forall p: seq<string>, q: seq<string> {:trigger Along(h, d, p), Along(h, d, q)}
      | Along(h, d, p) != null && Along(h, d, p) == Along(h, d, q)
      ensures p == q
    {
      OneWay(h, d, r, p, q);
    }
  }

  lemma {:induction false} AlongInFoot(h: Shape, d: Node, r: Record, p: seq<string>)
    requires IsDoc(h, d, r) && Along(h, d, p) != null
    ensures Along(h, d, p) in Foot(h, d, r)
    ensures p != [] ==> Field(r, p[0]).Obj? && Along(h, d, p) in Below(h, h[d][p[0]], r[p[0]])
    decreases |p|
  {
    if p != [] {
      SubDoc(h, d, r, p[0]);
      AlongInFoot(h, h[d][p[0]].node, r[p[0]].fields, p[1..]);
    }
  }

  lemma {:induction false} OneWay(h: Shape, d: Node, r: Record, p: seq<string>, q: seq<string>)
    requires IsDoc(h, d, r) && Along(h, d, p) != null && Along(h, d, p) == Along(h, d, q)
    ensures p == q
    decreases |p|
  {
    AlongInFoot(h, d, r, p);
    AlongInFoot(h, d, r, q);
    if p != [] && q != [] {
      SubDoc(h, d, r, p[0]);
      assert p[0] == q[0];
      OneWay(h, h[d][p[0]].node, r[p[0]].fields, p[1..], q[1..]);
    }
  }

  /** The heap of these maps has every map it mentions, and spells the document r at d. */
  ghost predicate Spells(nodes: set<Node>, d: Node, r: Record)
    reads nodes
  {
    Whole(Snapshot(nodes)) && IsDoc(Snapshot(nodes), d, r)
  }

  lemma CutIsWhole(h: Shape, d: Node, keys: seq<string>)
    requires Whole(h)
    ensures Whole(Cut(h, d, keys))
  {
  }

  lemma WrittenIsWhole(h: Shape, g: Shape, d: Node, val: Val, keys: seq<string>, made: seq<Node>)
    requires keys != [] && Whole(h) && Written(h, g, d, val, keys, made) && (val.Sub? ==> val.node in h)
    ensures Whole(g)
  {
    var w := Writer(h, d, keys);
    forall n, k | n in g && k in g[n] && g[n][k].Sub? ensures g[n][k].node in g {
      if n in h {
        assert (k in h[n] && h[n][k].Sub? ==> h[n][k].node in h);
        assert made != [] ==> made[0] in made;
      } else {
        var j :| 0 <= j < |made| && made[j] == n;
        assert g[made[j]] == Entry(keys[Stop(h, d, keys) + 1 + j], val, made, j);
        assert j < |made| - 1 ==> made[j + 1] in made;
      }
    }
  }

  lemma WritersAreThere(nodes: set<Node>, d: Node, keys: seq<string>)
    requires d in nodes && Whole(Snapshot(nodes))
    ensures Parent(d, keys) <= nodes && Target(d, keys) <= nodes
  {
    if keys != [] {
      SameWalk(nodes, d, keys[..|keys| - 1]);
      SameWalk(nodes, d, keys[..Depth(d, keys)]);
    }
  }

  /** What is known after the removal that a move begins with. */
  lemma Taken(h: Shape, d: Node, r: Record, from: seq<string>)
    requires Whole(h) && IsDoc(h, d, r)
    ensures Whole(Cut(h, d, from)) && IsDoc(Cut(h, d, from), d, M.Removed(r, from))
    ensures match M.Look(r, from)
      case None => ValueIn(h, d, from) == None && M.Removed(r, from) == r
      case Some(v) =>
        var g, x := Cut(h, d, from), ValueIn(h, d, from);
        x.Some? && Holds(g, x.value, v) && Below(g, x.value, v) !! Foot(g, d, M.Removed(r, from)) &&
        (x.value.Sub? ==> x.value.node in g)
  {
    hide IsDoc, Foot, Whole;
    CutIsRemoved(h, d, r, from);
    GetIsLook(h, d, r, from);
    CutIsWhole(h, d, from);
    if from != [] {
      M.LookAfterRemove(r, from);
    }
    if M.Look(r, from).Some? && ValueIn(h, d, from).value.Sub? {
      DocIsThere(Cut(h, d, from), ValueIn(h, d, from).value.node, M.Look(r, from).value.fields);
    }
  }

  /** And after the put that ends it. */
  lemma Given(h: Shape, g: Shape, d: Node, r: Record, keys: seq<string>, val: Val, v: Value, made: seq<Node>)
    requires keys != [] && Whole(h) && IsDoc(h, d, r) && !M.Blocked(r, keys)
    requires Holds(h, val, v) && Below(h, val, v) !! Foot(h, d, r) && (val.Sub? ==> val.node in h)
    requires Written(h, g, d, val, keys, made) && forall i, k :: 0 <= i < k < |made| ==> made[i] != made[k]
    ensures Whole(g) && IsDoc(g, d, M.Put(r, keys, v))
  {
    hide IsDoc, Foot, Holds, Below, Whole, Obstructed;
    WrittenIsWhole(h, g, d, val, keys, made);
    WriterInside(h, d, r, keys);
    WrittenFrame(h, g, d, val, keys, made);
    BelowIsThere(h, val, v);
    FootIsThere(h, d, r);
    SameVal(h, g, val, v);
    NewOnes(h, g, d, val, keys, made);
    PutIsPut(h, g, d, r, keys, val, v, made);
  }

  lemma NewOnes(h: Shape, g: Shape, d: Node, val: Val, keys: seq<string>, made: seq<Node>)
    requires keys != [] && Written(h, g, d, val, keys, made)
    ensures MadeSet(made, 0) !! h.Keys
  {
  }

  /** Move, on maps that are changed in place: the document is moved, and some maps may be new. */
  method MoveValue(ghost nodes: set<Node>, d: Node, from: seq<string>, to: seq<string>, ghost r: Record)
    returns (ghost nodes': set<Node>)
    requires to != [] && d in nodes && Spells(nodes, d, r)
    modifies nodes
    ensures nodes <= nodes' && fresh(nodes' - nodes)
    ensures Spells(nodes', d, M.Moved(r, from, to))
  {
    hide IsDoc, Foot, Holds, Below, Written, Obstructed, Cut, Whole;
    nodes' := nodes;
    ghost var h := Snapshot(nodes);
    Taken(h, d, r, from);
    WritersAreThere(nodes, d, from);
    var x := Remove(nodes, d, from);
    if x.Some? {
      ghost var v, left := M.Look(r, from).value, M.Removed(r, from);
      h := Snapshot(nodes);
      ObstructedIsBlocked(h, d, left, to);
      M.LookAfterPut(left, to, v);
      WritersAreThere(nodes, d, to);
      ghost var made := Put(nodes, d, x.value, to);
      if !M.Blocked(left, to) {
        nodes' := nodes + set n | n in made;
        Given(h, Snapshot(nodes'), d, left, to, x.value, v, made);
      }
    }
  }

  // -------- rebuilding the top map --------

  /** A map is put together from entries that share nothing. */
  lemma Assembled(h: Shape, g: Shape, d: Node, e: Record)
    requires d in g && g[d].Keys == e.Keys && forall n :: n in h && n != d ==> n in g && g[n] == h[n]
    requires forall k :: k in e ==> Holds(h, g[d][k], e[k]) && d !in Below(h, g[d][k], e[k])
    requires forall j, k :: j in e && k in e && j != k ==> Below(h, g[d][j], e[j]) !! Below(h, g[d][k], e[k])
    ensures IsDoc(g, d, e) && forall k :: k in e ==> Below(g, g[d][k], e[k]) == Below(h, g[d][k], e[k])
  {
    forall k | k in e ensures Holds(g, g[d][k], e[k]) && Below(g, g[d][k], e[k]) == Below(h, g[d][k], e[k]) {
      BelowIsThere(h, g[d][k], e[k]);
      SameVal(h, g, g[d][k], e[k]);
    }
  }

  function Chosen<V>(d: map<string, V>, names: set<string>): map<string, V> {
    map k | k in d && k in names :: d[k]
  }

  lemma ChosenNone<V>(d: map<string, V>)
    ensures Chosen(d, {}) == map[]
  {
  }

  lemma ChosenOneMore<V>(d: map<string, V>, names: set<string>, k: string)
    ensures Chosen(d, names + {k}) == if k in d then Chosen(d, names)[k := d[k]] else Chosen(d, names)
  {
  }

  /** What the map at a field holds; nothing where there is none. */
  function EntriesOf(h: Shape, x: Option<Val>): map<string, Val> {
    if x.Some? && x.value.Sub? && x.value.node in h then h[x.value.node] else map[]
  }

  /** Some entries of an inner map come out, and the rest of it goes. */
  lemma Unpacked(h: Shape, g: Shape, d: Node, r: Record, field: string, names: set<string>)
    requires IsDoc(h, d, r) && d in g && forall n :: n in h && n != d ==> n in g && g[n] == h[n]
    requires g[d] == h[d] + Chosen(EntriesOf(h, Find(h[d], field)), names) - {field}
    ensures IsDoc(g, d, r + Chosen(ToMap(Field(r, field)), names) - {field})
  {
    hide Holds, Below;
    var inner, sub := EntriesOf(h, Find(h[d], field)), ToMap(Field(r, field));
    var e := r + Chosen(sub, names) - {field};
    SubDoc(h, d, r, field);
    assert inner.Keys == sub.Keys by {
      if Field(r, field).Obj? { DocIsThere(h, h[d][field].node, sub); }
    }
    forall k | k in e
      ensures Holds(h, g[d][k], e[k]) && d !in Below(h, g[d][k], e[k])
      ensures if k in sub && k in names
        then g[d][k] == inner[k] && e[k] == sub[k] && Below(h, g[d][k], e[k]) <= Below(h, h[d][field], r[field])
        else k in r && k != field && g[d][k] == h[d][k] && e[k] == r[k]
    {
      if k in sub && k in names {
        BelowInFoot(h, h[d][field].node, sub, k);
      }
    }
    forall j, k | j in e && k in e && j != k ensures Below(h, g[d][j], e[j]) !! Below(h, g[d][k], e[k]) {
    }
    Assembled(h, g, d, e);
  }

  /** Some entries go into a new map. */
  lemma Packed(h: Shape, g: Shape, d: Node, r: Record, field: string, names: set<string>, s: Node)
    requires IsDoc(h, d, r) && s !in h && d in g && s in g
    requires forall n :: n in h && n != d ==> n in g && g[n] == h[n]
    requires g[s] == Chosen(h[d], names) && g[d] == (h[d] - names)[field := Sub(s)]
    ensures IsDoc(g, d, (r - names)[field := Obj(Chosen(r, names))])
    ensures Chosen(r, names).Keys == g[s].Keys
  {
    var g0 := h[d := h[d] - names];
    Rested(h, d, r, names);
    FootIsThere(h, d, r);
    PackedInner(h, g, d, r, names, s);
    SetNew(g0, g, d, r - names, field, Sub(s), Obj(Chosen(r, names)));
  }

  lemma Rested(h: Shape, d: Node, r: Record, names: set<string>)
    requires IsDoc(h, d, r)
    ensures var g := h[d := h[d] - names];
      IsDoc(g, d, r - names) && Foot(g, d, r - names) <= Foot(h, d, r) &&
      forall k :: k in r && k in names ==> Foot(g, d, r - names) !! Below(h, h[d][k], r[k])
  {
    var g := h[d := h[d] - names];
    Assembled(h, g, d, r - names);
    forall n | n in Foot(g, d, r - names) && n != d
      ensures n in Foot(h, d, r) && forall k :: k in r && k in names ==> n !in Below(h, h[d][k], r[k])
    {
      var j :| j in r - names && n in Below(g, g[d][j], r[j]);
      assert n in Below(h, h[d][j], r[j]);
    }
  }

  lemma PackedInner(h: Shape, g: Shape, d: Node, r: Record, names: set<string>, s: Node)
    requires IsDoc(h, d, r) && s !in h && s in g
    requires forall n :: n in h && n != d ==> n in g && g[n] == h[n]
    requires g[s] == Chosen(h[d], names)
    ensures var inner := Chosen(r, names);
      && IsDoc(g, s, inner) && Foot(g, s, inner) <= {s} + (Foot(h, d, r) - {d})
      && forall n :: n in Foot(g, s, inner) && n != s ==>
        exists k :: k in r && k in names && n in Below(h, h[d][k], r[k])
  {
    var inner := Chosen(r, names);
    FootIsThere(h, d, r);
    forall k | k in inner
      ensures Holds(g, g[s][k], inner[k]) && Below(g, g[s][k], inner[k]) == Below(h, h[d][k], r[k]) &&
        s !in Below(g, g[s][k], inner[k])
    {
      BelowInFoot(h, d, r, k);
      SameVal(h, g, h[d][k], r[k]);
    }
    forall n | n in Foot(g, s, inner) && n != s
      ensures n in Foot(h, d, r) - {d} && exists k :: k in r && k in names && n in Below(h, h[d][k], r[k])
    {
      var k :| k in inner && n in Below(g, g[s][k], inner[k]);
      BelowInFoot(h, d, r, k);
    }
  }

  lemma UnpackedIsWhole(h: Shape, g: Shape, d: Node, field: string, names: set<string>)
    requires Whole(h) && d in h && g.Keys == h.Keys && forall n :: n in h && n != d ==> g[n] == h[n]
    requires g[d] == h[d] + Chosen(EntriesOf(h, Find(h[d], field)), names) - {field}
    ensures Whole(g)
  {
  }

  lemma PackedIsWhole(h: Shape, g: Shape, d: Node, field: string, names: set<string>, s: Node)
    requires Whole(h) && d in h && s !in h && g.Keys == h.Keys + {s} && forall n :: n in h && n != d ==> g[n] == h[n]
    requires g[s] == Chosen(h[d], names) && g[d] == (h[d] - names)[field := Sub(s)]
    ensures Whole(g)
  {
  }

  /** None of the entries is there. */
  lemma NothingPacked(h: Shape, g: Shape, d: Node, r: Record, field: string, names: set<string>, asNull: bool)
    requires Whole(h) && IsDoc(h, d, r) && g.Keys == h.Keys && forall n :: n in h && n != d ==> g[n] == h[n]
    requires Chosen(h[d], names) == map[]
    requires g[d] == if asNull then (h[d] - names)[field := Leaf(Null)] else h[d] - names
    ensures Chosen(r, names) == map[] && Whole(g)
    ensures IsDoc(g, d, if asNull then (r - names)[field := Null] else r - names)
  {
    assert forall k :: k in Chosen(h[d], names) <==> k in h[d] && k in names;
    var g0 := h[d := h[d] - names];
    Rested(h, d, r, names);
    FootIsThere(h, d, r);
    if asNull {
      SetNew(g0, g, d, r - names, field, Leaf(Null), Null);
    } else {
      assert g == g0;
    }
  }

  /** The heap as it was, but for the top map. */
  ghost predicate OnlyTop(h: Shape, nodes: set<Node>, d: Node)
    reads nodes
  {
    h.Keys == nodes && d in nodes && forall n :: n in nodes && n != d ==> n.m == h[n]
  }

  lemma UnpackedSpells(h: Shape, nodes: set<Node>, d: Node, r: Record, field: string, names: set<string>)
    requires OnlyTop(h, nodes, d) && Whole(h) && IsDoc(h, d, r)
    requires d.m == h[d] + Chosen(EntriesOf(h, Find(h[d], field)), names) - {field}
    ensures Spells(nodes, d, r + Chosen(ToMap(Field(r, field)), names) - {field})
  {
    hide IsDoc, Whole, Chosen, EntriesOf;
    Unpacked(h, Snapshot(nodes), d, r, field, names);
    UnpackedIsWhole(h, Snapshot(nodes), d, field, names);
  }

  lemma PackedSpells(h: Shape, nodes: set<Node>, d: Node, r: Record, field: string, names: set<string>, s: Node)
    requires OnlyTop(h, nodes, d) && s !in nodes && Whole(h) && IsDoc(h, d, r)
    requires s.m == Chosen(h[d], names) && d.m == (h[d] - names)[field := Sub(s)]
    ensures Spells(nodes + {s}, d, (r - names)[field := Obj(Chosen(r, names))])
    ensures Chosen(r, names).Keys == s.m.Keys
  {
    hide IsDoc, Whole, Chosen;
    Packed(h, Snapshot(nodes + {s}), d, r, field, names, s);
    PackedIsWhole(h, Snapshot(nodes + {s}), d, field, names, s);
  }

  lemma NothingSpells(h: Shape, nodes: set<Node>, d: Node, r: Record, field: string, names: set<string>, asNull: bool)
    requires OnlyTop(h, nodes, d) && Whole(h) && IsDoc(h, d, r) && Chosen(h[d], names) == map[]
    requires d.m == if asNull then (h[d] - names)[field := Leaf(Null)] else h[d] - names
    ensures Chosen(r, names) == map[]
    ensures Spells(nodes, d, if asNull then (r - names)[field := Null] else r - names)
  {
    hide IsDoc, Whole, Chosen;
    NothingPacked(h, Snapshot(nodes), d, r, field, names, asNull);
  }

  // -------- a part of the document changes --------

  /** Every map mentioned in one of these is one of those. */
  ghost predicate Closed(h: Shape, inside: set<Node>, nodes: set<Node>) {
    forall n, k :: n in inside && n in h && k in h[n] && h[n][k].Sub? ==> h[n][k].node in nodes
  }

  lemma {:induction false} FootIsClosed(h: Shape, d: Node, r: Record)
    requires IsDoc(h, d, r)
    ensures Closed(h, Foot(h, d, r), Foot(h, d, r))
    decreases Obj(r), 1
  {
    var all := Foot(h, d, r);
    forall n, j | n in all && n in h && j in h[n] && h[n][j].Sub? ensures h[n][j].node in all {
      if n == d {
        SubDoc(h, d, r, j);
        InFoot(h, h[d][j].node, r[j].fields);
      } else {
        var k :| k in r && n in Below(h, h[d][k], r[k]);
        BelowIsClosed(h, h[d][k], r[k]);
        BelowInFoot(h, d, r, k);
      }
    }
  }

  lemma {:induction false} BelowIsClosed(h: Shape, x: Val, v: Value)
    requires Holds(h, x, v)
    ensures Closed(h, Below(h, x, v), Below(h, x, v))
    decreases v, 2
  {
    if x.Sub? {
      FootIsClosed(h, x.node, v.fields);
    } else if x.Many? {
      forall n, j | n in Below(h, x, v) && n in h && j in h[n] && h[n][j].Sub? ensures h[n][j].node in Below(h, x, v) {
        var i :| 0 <= i < |x.items| && n in Below(h, x.items[i], v.items[i]);
        BelowIsClosed(h, x.items[i], v.items[i]);
      }
    }
  }

  /** These maps are all that the value needs. */
  ghost predicate Owns(nodes: set<Node>, x: Val, v: Value)
    reads nodes
  {
    Whole(Snapshot(nodes)) && Holds(Snapshot(nodes), x, v)
  }

  lemma OwnsBelow(nodes: set<Node>, x: Val, v: Value)
    requires Holds(Snapshot(nodes), x, v)
    ensures Below(Snapshot(nodes), x, v) <= nodes && Owns(Below(Snapshot(nodes), x, v), x, v)
  {
    var h := Snapshot(nodes);
    BelowIsThere(h, x, v);
    BelowIsClosed(h, x, v);
    SameVal(h, Snapshot(Below(h, x, v)), x, v);
  }

  /** Only maps below the value have changed, or are new, and it is now another value. */
  ghost predicate Became(h: Shape, g: Shape, x: Val, v: Value, v': Value, more: set<Node>) {
    && more !! h.Keys && g.Keys == h.Keys + more
    && Same(h, g, h.Keys - Below(h, x, v))
    && Holds(g, x, v') && Below(g, x, v') <= Below(h, x, v) + more
    && Closed(g, Below(h, x, v) + more, g.Keys)
  }

  lemma EntryBecame(h: Shape, g: Shape, d: Node, r: Record, k: string, v': Value, more: set<Node>)
    requires Whole(h) && IsDoc(h, d, r) && k in r && Became(h, g, h[d][k], r[k], v', more)
    ensures Whole(g) && IsDoc(g, d, r[k := v'])
  {
    var x := h[d][k];
    FootIsThere(h, d, r);
    assert h[d][k := x] == h[d];
    forall j | j in r && j != k
      ensures Below(h, h[d][j], r[j]) !! Below(g, x, v') && Same(h, g, Below(h, h[d][j], r[j]))
    {
      BelowInFoot(h, d, r, j);
    }
    SetEntry(h, g, d, r, k, x, v');
  }

  lemma ItemBecame(h: Shape, g: Shape, x: Val, v: Value, i: nat, v': Value, more: set<Node>)
    requires Whole(h) && Holds(h, x, v) && x.Many? && i < |x.items| && Became(h, g, x.items[i], v.items[i], v', more)
    ensures Whole(g) && Holds(g, x, List(v.items[i := v']))
  {
    BelowIsThere(h, x, v);
    var items := v.items[i := v'];
    forall j | 0 <= j < |x.items|
      ensures Holds(g, x.items[j], items[j]) &&
        (j != i ==> Below(g, x.items[j], items[j]) == Below(h, x.items[j], v.items[j]))
    {
      if j != i {
        assert Below(h, x.items[j], v.items[j]) <= h.Keys by { BelowIsThere(h, x.items[j], v.items[j]); }
        SameVal(h, g, x.items[j], v.items[j]);
      }
    }
  }

  /** The value's own maps after the change, among all maps. */
  lemma BecameIn(h: Shape, g: Shape, x: Val, v: Value, inner: Shape, v': Value, more: set<Node>)
    requires Holds(h, x, v) && more !! h.Keys && g.Keys == h.Keys + more && Same(h, g, h.Keys - Below(h, x, v))
    requires Whole(inner) && Holds(inner, x, v') && inner.Keys == Below(h, x, v) + more && Same(inner, g, inner.Keys)
    ensures Became(h, g, x, v, v', more)
  {
    BelowIsThere(inner, x, v');
    BelowIsThere(h, x, v);
    SameVal(inner, g, x, v');
  }

  /** The heap as it was, but for these maps, which are other ones now. */
  ghost predicate OnlyThese(h: Shape, nodes: set<Node>, before: set<Node>, after: set<Node>)
    reads nodes
  {
    && h.Keys == nodes && before <= nodes && before <= after && (after - before) !! nodes
    && forall n :: n in nodes - before ==> n.m == h[n]
  }

  lemma InPlace(h: Shape, nodes: set<Node>, x: Val, v: Value, after: set<Node>, v': Value)
    requires Holds(h, x, v) && OnlyThese(h, nodes, Below(h, x, v), after) && Owns(after, x, v')
    ensures Became(h, Snapshot(nodes + (after - Below(h, x, v))), x, v, v', after - Below(h, x, v))
  {
    hide Holds, Below, Whole;
    BecameIn(h, Snapshot(nodes + (after - Below(h, x, v))), x, v, Snapshot(after), v', after - Below(h, x, v));
  }

  lemma EntryInPlace(h: Shape, nodes: set<Node>, d: Node, r: Record, k: string, after: set<Node>, v': Value)
    requires Whole(h) && IsDoc(h, d, r) && k in r
    requires OnlyThese(h, nodes, Below(h, h[d][k], r[k]), after) && Owns(after, h[d][k], v')
    ensures Spells(nodes + (after - Below(h, h[d][k], r[k])), d, r[k := v'])
  {
    hide Below, Became, Owns, OnlyThese;
    InPlace(h, nodes, h[d][k], r[k], after, v');
    EntryBecame(h, Snapshot(nodes + (after - Below(h, h[d][k], r[k]))), d, r, k, v', after - Below(h, h[d][k], r[k]));
  }

  lemma ItemInPlace(h: Shape, nodes: set<Node>, x: Val, v: Value, i: nat, after: set<Node>, v': Value)
    requires Whole(h) && Holds(h, x, v) && x.Many? && i < |x.items|
    requires OnlyThese(h, nodes, Below(h, x.items[i], v.items[i]), after) && Owns(after, x.items[i], v')
    ensures Owns(nodes + (after - Below(h, x.items[i], v.items[i])), x, List(v.items[i := v']))
  {
    hide Below, Became, OnlyThese;
    InPlace(h, nodes, x.items[i], v.items[i], after, v');
    ItemBecame(h, Snapshot(nodes + (after - Below(h, x.items[i], v.items[i]))), x, v, i, v',
               after - Below(h, x.items[i], v.items[i]));
  }

  // -------- maps that may be shared --------

  /** The map spells the record, whatever it shares with others or within itself. */
  ghost predicate Reads(h: Shape, d: Node, r: Record)
    decreases Obj(r), 1
  {
    d in h && h[d].Keys == r.Keys && forall k :: k in r ==> ReadsAs(h, h[d][k], r[k])
  }

  ghost predicate ReadsAs(h: Shape, x: Val, v: Value)
    decreases v, 2
  {
    match x
    case Leaf(w) => w == v && !v.Obj? && !v.List?
    case Sub(n) => v.Obj? && Reads(h, n, v.fields)
    case Many(xs) => v.List? && |xs| == |v.items| && forall i :: 0 <= i < |xs| ==> ReadsAs(h, xs[i], v.items[i])
  }

  lemma {:induction false} DocReads(h: Shape, d: Node, r: Record)
    requires IsDoc(h, d, r)
    ensures Reads(h, d, r)
    decreases Obj(r), 1
  {
    forall k | k in r ensures ReadsAs(h, h[d][k], r[k]) {
      HoldsReads(h, h[d][k], r[k]);
    }
  }

  lemma {:induction false} HoldsReads(h: Shape, x: Val, v: Value)
    requires Holds(h, x, v)
    ensures ReadsAs(h, x, v)
    decreases v, 2
  {
    match x
    case Leaf(_) =>
    case Sub(n) => DocReads(h, n, v.fields);
    case Many(xs) =>
      forall i | 0 <= i < |xs| ensures ReadsAs(h, xs[i], v.items[i]) {
        HoldsReads(h, xs[i], v.items[i]);
      }
  }

  /** Further maps make no difference. */
  lemma {:induction false} ReadsMore(h: Shape, g: Shape, x: Val, v: Value)
    requires ReadsAs(h, x, v) && Same(h, g, h.Keys)
    ensures ReadsAs(g, x, v)
    decreases v
  {
    match x
    case Leaf(_) =>
    case Sub(n) =>
      forall k | k in v.fields ensures ReadsAs(g, g[n][k], v.fields[k]) {
        ReadsMore(h, g, h[n][k], v.fields[k]);
      }
    case Many(xs) =>
      forall i | 0 <= i < |xs| ensures ReadsAs(g, xs[i], v.items[i]) {
        ReadsMore(h, g, xs[i], v.items[i]);
      }
  }
}
