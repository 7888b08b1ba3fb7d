/** Moving a value from one path of a document to another and back (mappers/move.go:20-31), with the path
    functions of pkg/data/values.go taken as functions of the document. */
module Moves {
  import opened Common
  import opened Json

  function Look(d: Record, p: seq<string>): Option<Value>
    decreases |p|
  {
    if p == [] then None
    else if |p| == 1 then Find(d, p[0])
    else Look(ToMap(Field(d, p[0])), p[1..])
  }

  function Removed(d: Record, p: seq<string>): Record
    decreases |p|
  {
    if p == [] then d
    else if |p| == 1 then d - {p[0]}
    else if Field(d, p[0]).Obj? then d[p[0] := Obj(Removed(d[p[0]].fields, p[1..]))]
    else d
  }

  function Put(d: Record, p: seq<string>, v: Value): Record
    decreases |p|
  {
    if p == [] then d
    else if |p| == 1 then d[p[0] := v]
    else if p[0] !in d || d[p[0]].Obj? then d[p[0] := Obj(Put(ToMap(Field(d, p[0])), p[1..], v))]
    else d
  }

  /** Something that is not a map stands in the way. */
  predicate Blocked(d: Record, p: seq<string>)
    decreases |p|
  {
    |p| > 1 && p[0] in d && (d[p[0]].Obj? ==> Blocked(d[p[0]].fields, p[1..]))
  }

  /** The map that holds, or would hold, the last key of the path is there. */
  predicate ParentThere(d: Record, p: seq<string>)
    decreases |p|
  {
    |p| > 1 ==> Field(d, p[0]).Obj? && ParentThere(d[p[0]].fields, p[1..])
  }

  // -------- put, look and remove --------

  lemma {:induction false} LookAfterPut(d: Record, p: seq<string>, v: Value)
    requires p != []
    ensures if Blocked(d, p) then Put(d, p, v) == d && Look(d, p) == None else Look(Put(d, p, v), p) == Some(v)
    decreases |p|
  {
    if |p| > 1 && (p[0] !in d || d[p[0]].Obj?) {
      LookAfterPut(ToMap(Field(d, p[0])), p[1..], v);
      if Blocked(d, p) {
        assert d[p[0] := d[p[0]]] == d;
      }
    } else if |p| > 1 {
      Nowhere(p[1..]);
    }
  }

  lemma {:induction false} LookAfterRemove(d: Record, p: seq<string>)
    requires p != []
    ensures Look(Removed(d, p), p) == None
    ensures Look(d, p) == None ==> Removed(d, p) == d
    decreases |p|
  {
    if |p| > 1 && Field(d, p[0]).Obj? {
      LookAfterRemove(d[p[0]].fields, p[1..]);
      assert d[p[0] := d[p[0]]] == d;
    } else if |p| > 1 {
      Nowhere(p[1..]);
    }
  }

  lemma {:induction false} Nowhere(p: seq<string>)
    ensures Look(map[], p) == None
    decreases |p|
  {
    if |p| > 1 {
      Nowhere(p[1..]);
    }
  }

  lemma {:induction false} PutBack(d: Record, p: seq<string>, v: Value)
    requires Look(d, p) == Some(v)
    ensures Put(Removed(d, p), p, v) == d
    decreases |p|
  {
    if |p| > 1 {
      if Field(d, p[0]).Obj? {
        PutBack(d[p[0]].fields, p[1..], v);
      } else {
        Nowhere(p[1..]);
      }
    }
  }

  lemma {:induction false} RemoveAgain(d: Record, p: seq<string>, v: Value)
    requires p != []
    ensures Removed(Put(d, p, v), p) == d <==> Look(d, p) == None && (Blocked(d, p) || ParentThere(d, p))
    decreases |p|
  {
    if |p| > 1 {
      if p[0] !in d || d[p[0]].Obj? {
        var sub := ToMap(Field(d, p[0]));
        RemoveAgain(sub, p[1..], v);
        var e := Removed(Put(d, p, v), p);
        assert e[p[0]] == Obj(Removed(Put(sub, p[1..], v), p[1..]));
        if p[0] in d && e[p[0]] == d[p[0]] {
          assert e == d;
        }
      } else {
        Nowhere(p[1..]);
      }
    }
  }

  // -------- moving --------

  function Moved(d: Record, f: seq<string>, t: seq<string>): Record {
    match Look(d, f)
    case None => d
    case Some(v) => Put(Removed(d, f), t, v)
  }

  /** A move is undone by the opposite move exactly when: its target is its source, or inside it; or the
      source is inside the target and makes up all of it; or, with neither inside the other, nothing is at
      the target and, where there is something to move, the map around the target is there. */
  predicate Undoable(d: Record, f: seq<string>, t: seq<string>) {
    if f <= t then true
    else if t <= f then
      Look(d, t).Some? ==>
        Look(d, f).Some? && Look(d, t) == Some(Obj(Put(map[], f[|t|..], Look(d, f).value)))
    else Look(d, t) == None && (Look(d, f).Some? ==> ParentThere(d, t))
  }

  lemma {:induction false} MoveUndoneExactlyWhen(d: Record, f: seq<string>, t: seq<string>)
    requires f != [] && t != []
    ensures Moved(Moved(d, f, t), t, f) == d <==> Undoable(d, f, t)
    decreases |f|
  {
    if f[0] != t[0] {
      Apart(d, f, t);
    } else if |f| == 1 {
      Inwards(d, f, t);
    } else if |t| == 1 {
      Outwards(d, f, t);
    } else {
      Below(d, f, t);
      if Field(d, f[0]).Obj? {
        var sub := d[f[0]].fields;
        MoveUndoneExactlyWhen(sub, f[1..], t[1..]);
        Below(Moved(d, f, t), t, f);
        UndoableBelow(d, f, t);
        assert Moved(Moved(d, f, t), t, f)[f[0]] == Obj(Moved(Moved(sub, f[1..], t[1..]), t[1..], f[1..]));
        if Moved(Moved(sub, f[1..], t[1..]), t[1..], f[1..]) == sub {
          assert Moved(Moved(d, f, t), t, f) == d;
        }
      } else {
        Nowhere(f[1..]);
        Nowhere(t[1..]);
        assert Moved(d, f, t) == d;
      }
    }
  }

  /** With the same first key, the move happens below it. */
  lemma Below(d: Record, f: seq<string>, t: seq<string>)
    requires |f| > 1 && |t| > 1 && f[0] == t[0]
    ensures Moved(d, f, t) ==
      if Field(d, f[0]).Obj? then d[f[0] := Obj(Moved(d[f[0]].fields, f[1..], t[1..]))] else d
  {
    if Field(d, f[0]).Obj? {
      var sub := d[f[0]].fields;
      assert Look(d, f) == Look(sub, f[1..]);
      if Look(sub, f[1..]) == None {
        assert d[f[0] := d[f[0]]] == d;
      } else {
        assert Removed(d, f) == d[f[0] := Obj(Removed(sub, f[1..]))];
      }
    } else {
      Nowhere(f[1..]);
    }
  }

  lemma UndoableBelow(d: Record, f: seq<string>, t: seq<string>)
    requires |f| > 1 && |t| > 1 && f[0] == t[0] && Field(d, f[0]).Obj?
    ensures Undoable(d, f, t) <==> Undoable(d[f[0]].fields, f[1..], t[1..])
  {
    assert f == [f[0]] + f[1..] && t == [t[0]] + t[1..];
    assert f <= t <==> f[1..] <= t[1..];
    assert t <= f <==> t[1..] <= f[1..];
    if t <= f {
      assert f[|t|..] == f[1..][|t[1..]|..];
    }
  }

  lemma Apart(d: Record, f: seq<string>, t: seq<string>)
    requires f != [] && t != [] && f[0] != t[0]
    ensures Moved(Moved(d, f, t), t, f) == d <==> Undoable(d, f, t)
  {
    match Look(d, f)
    case None =>
      match Look(d, t) {
        case None =>
        case Some(w) =>
          LookAfterRemove(d, t);
          SameHead(Put(Removed(d, t), f, w), Removed(d, t), t);
      }
    case Some(v) =>
      var d1 := Removed(d, f);
      LookAfterRemove(d, f);
      LookAfterPut(d1, t, v);
      SameHead(d1, d, t);
      if !Blocked(d, t) {
        var d3 := Removed(Put(d1, t, v), t);
        PutBack(d, f, v);
        RemoveAgain(d, t, v);
        SameHeadRemoved(Put(d1, t, v), Put(d, t, v), t);
        SameHeadPut(d3, d1, f, v);
        var e := Put(d3, f, v);
        assert forall k :: k != f[0] && k != t[0] ==> Find(e, k) == Find(d, k);
        assert Find(e, f[0]) == Find(d, f[0]);
        assert Find(e, t[0]) == Find(Removed(Put(d, t, v), t), t[0]);
        SameEntries(e, d);
        SameEntries(Removed(Put(d, t, v), t), d);
      } else {
        NotBoth(d, t);
      }
  }

  lemma {:induction false} NotBoth(d: Record, p: seq<string>)
    ensures !(Blocked(d, p) && ParentThere(d, p))
    decreases |p|
  {
    if |p| > 1 && Field(d, p[0]).Obj? {
      NotBoth(d[p[0]].fields, p[1..]);
    }
  }

  lemma SameEntries(a: Record, b: Record)
    ensures a == b <==> forall k :: Find(a, k) == Find(b, k)
  {
    if forall k :: Find(a, k) == Find(b, k) {
      forall k ensures k in a <==> k in b {
        assert Find(a, k) == Find(b, k);
      }
      forall k | k in a ensures a[k] == b[k] {
        assert Find(a, k) == Find(b, k);
      }
    }
  }

  /** What a path leads to depends on the entry of its first key alone. */
  lemma SameHead(a: Record, b: Record, p: seq<string>)
    requires p != [] && Find(a, p[0]) == Find(b, p[0])
    ensures Look(a, p) == Look(b, p) && Blocked(a, p) == Blocked(b, p) && ParentThere(a, p) == ParentThere(b, p)
  {
  }

  lemma SameHeadRemoved(a: Record, b: Record, p: seq<string>)
    requires p != [] && Find(a, p[0]) == Find(b, p[0])
    ensures Find(Removed(a, p), p[0]) == Find(Removed(b, p), p[0])
  {
  }

  lemma SameHeadPut(a: Record, b: Record, p: seq<string>, v: Value)
    requires p != [] && Find(a, p[0]) == Find(b, p[0])
    ensures Find(Put(a, p, v), p[0]) == Find(Put(b, p, v), p[0])
  {
  }

  /** From a key to itself or into the room it leaves. */
  lemma Inwards(d: Record, f: seq<string>, t: seq<string>)
    requires |f| == 1 && t != [] && f[0] == t[0]
    ensures Moved(Moved(d, f, t), t, f) == d && Undoable(d, f, t)
  {
    match Look(d, f)
    case None =>
      if |t| > 1 {
        Nowhere(t[1..]);
      }
    case Some(v) =>
      var d1 := Removed(d, f);
      LookAfterPut(d1, t, v);
      assert Put(Removed(Put(d1, t, v), t), f, v) == d;
  }

  /** Out of a key, in its place. */
  lemma Outwards(d: Record, f: seq<string>, t: seq<string>)
    requires |f| > 1 && |t| == 1 && f[0] == t[0]
    ensures Moved(Moved(d, f, t), t, f) == d <==> Undoable(d, f, t)
  {
    var h := f[0];
    assert f[|t|..] == f[1..] && t <= f && !(f <= t);
    match Look(d, f)
    case None =>
      if h in d {
        var e := Put(Removed(d, t), f, d[h]);
        LookAfterPut(Removed(d, t), f, d[h]);
        assert Look(e, f) == Some(d[h]);
      }
    case Some(v) =>
      if Field(d, h).Obj? {
        var d2 := Put(Removed(d, f), t, v);
        var e := Put(Removed(d2, t), f, v);
        assert e == d[h := Obj(Put(map[], f[1..], v))];
        if e[h] == d[h] {
          assert e == d;
        }
      } else {
        Nowhere(f[1..]);
      }
  }
}
