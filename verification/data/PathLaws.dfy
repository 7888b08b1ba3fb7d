/** The laws of path updates, stated about what the heap holds before and after: a shape. */
module PathLaws {
  import opened Common
  import opened Paths

  /** What each map of a heap holds. */
  type Shape = map<Node, map<string, Val>>

  function Next(h: Shape, d: Node?, key: string): Node? {
    if d != null && d in h && key in h[d] && h[d][key].Sub? then h[d][key].node else null
  }

  function Along(h: Shape, d: Node?, path: seq<string>): Node?
    decreases |path|
  {
    if d == null || path == [] then d else Along(h, Next(h, d, path[0]), path[1..])
  }

  function ValueIn(h: Shape, d: Node?, keys: seq<string>): Option<Val> {
    if keys == [] then None
    else
      var last := |keys| - 1;
      var n := Along(h, d, keys[..last]);
      if n == null || n !in h then None else Find(h[n], keys[last])
  }

  /** How many keys can be followed, short of the last one. */
  function Stop(h: Shape, d: Node, keys: seq<string>): (r: nat)
    ensures keys != [] ==> r < |keys|
    decreases |keys|
  {
    if |keys| <= 1 || Next(h, d, keys[0]) == null then 0 else 1 + Stop(h, Next(h, d, keys[0]), keys[1..])
  }

  function Writer(h: Shape, d: Node, keys: seq<string>): Node?
    requires keys != []
  {
    Along(h, d, keys[..Stop(h, d, keys)])
  }

  predicate Obstructed(h: Shape, d: Node, keys: seq<string>)
    requires keys != []
  {
    var r := Stop(h, d, keys);
    var w := Writer(h, d, keys);
    r < |keys| - 1 && w != null && w in h && keys[r] in h[w]
  }

  /** Every map that is mentioned is there. */
  ghost predicate Whole(h: Shape) {
    forall n, k :: n in h && k in h[n] && h[n][k].Sub? ==> h[n][k].node in h
  }

  /** No map is reached from d by two paths: d is a document. */
  ghost predicate Tree(h: Shape, d: Node) {
    forall p: seq<string>, q: seq<string> {:trigger Along(h, d, p), Along(h, d, q)} ::
      Along(h, d, p) != null && Along(h, d, p) == Along(h, d, q) ==> p == q
  }

  /** The shape g that a put that is not obstructed makes of h, with the maps it adds. */
  ghost predicate Written(h: Shape, g: Shape, d: Node, val: Val, keys: seq<string>, made: seq<Node>)
    requires keys != []
  {
    var r := Stop(h, d, keys);
    var w := Writer(h, d, keys);
    && w != null && w in h && d in h
    && |made| == |keys| - 1 - r
    && (forall n :: n in made ==> n !in h)
    && g.Keys == h.Keys + (set n | n in made)
    && (forall n :: n in h && n != w ==> g[n] == h[n])
    && g[w] == h[w][keys[r] := if made == [] then val else Sub(made[0])]
    && forall j {:trigger g[made[j]]} :: 0 <= j < |made| ==>
      made[j] in g && g[made[j]] == Entry(keys[r + 1 + j], val, made, j)
  }

  /** The one entry of the new map made[j]: the next new map, or the value. */
  function Entry(key: string, val: Val, made: seq<Node>, j: nat): map<string, Val>
    requires j < |made|
  {
    map[key := if j == |made| - 1 then val else Sub(made[j + 1])]
  }

  // -------- walking --------

  lemma {:induction false} AlongConcat(h: Shape, d: Node?, a: seq<string>, b: seq<string>)
    ensures Along(h, d, a + b) == Along(h, Along(h, d, a), b)
    decreases |a|
  {
    if a == [] {
      assert a + b == b;
    } else if d != null {
      assert (a + b)[1..] == a[1..] + b;
      AlongConcat(h, Next(h, d, a[0]), a[1..], b);
    }
  }

  lemma OneMore(h: Shape, d: Node?, keys: seq<string>, i: nat)
    requires i < |keys|
    ensures Along(h, d, keys[..i + 1]) == Next(h, Along(h, d, keys[..i]), keys[i])
  {
    assert keys[..i + 1] == keys[..i] + [keys[i]];
    AlongConcat(h, d, keys[..i], [keys[i]]);
  }

  lemma {:induction false} StopReaches(h: Shape, d: Node, keys: seq<string>)
    requires keys != []
    ensures Writer(h, d, keys) != null
    ensures var r := Stop(h, d, keys); r < |keys| - 1 ==> Next(h, Writer(h, d, keys), keys[r]) == null
    decreases |keys|
  {
    var r := Stop(h, d, keys);
    if r > 0 {
      assert keys[..r][1..] == keys[1..][..r - 1];
      StopReaches(h, Next(h, d, keys[0]), keys[1..]);
    }
  }

  /** The path takes no entry k of w. */
  ghost predicate Avoids(h: Shape, d: Node?, w: Node, k: string, path: seq<string>) {
    forall j {:trigger path[..j]} :: 0 <= j < |path| ==> !(Along(h, d, path[..j]) == w && path[j] == k)
  }

  /** A path that avoids the entry that changed leads where it led before. */
  lemma {:induction false} SameWay(h: Shape, g: Shape, d: Node?, w: Node, k: string, path: seq<string>)
    requires Whole(h) && h.Keys <= g.Keys && w in h && (d != null ==> d in h)
    requires forall n :: n in h && n != w ==> g[n] == h[n]
    requires forall key :: key != k ==> Find(g[w], key) == Find(h[w], key)
    requires Avoids(h, d, w, k, path)
    ensures Along(g, d, path) == Along(h, d, path)
    ensures Along(h, d, path) != null ==> Along(h, d, path) in h
    decreases |path|
  {
    if path != [] {
      var i := |path| - 1;
      forall j | 0 <= j < i ensures path[..i][..j] == path[..j] {
      }
      SameWay(h, g, d, w, k, path[..i]);
      assert path[..i + 1] == path;
      OneMore(h, d, path, i);
      OneMore(g, d, path, i);
      assert Find(g[w], path[i]) == Find(h[w], path[i]) || path[i] == k;
    }
  }

  /** In a tree no path that stops short of w, or at it, takes an entry of w. */
  lemma ShortPathsAvoid(h: Shape, d: Node, keys: seq<string>, r: nat, p: seq<string>, k: string)
    requires r <= |keys| && Tree(h, d) && Along(h, d, keys[..r]) != null
    requires |p| <= r || p[..r] != keys[..r] || p[r] != k
    ensures Avoids(h, d, Along(h, d, keys[..r]), k, p)
  {
    var w := Along(h, d, keys[..r]);
    forall j | 0 <= j < |p| ensures !(Along(h, d, p[..j]) == w && p[j] == k) {
      if Along(h, d, p[..j]) == w {
        assert p[..j] == keys[..r];
        assert j == |p[..j]| == r;
      }
    }
  }

  // -------- get after put --------

  /** Of the old maps only the writer has changed, and only in one entry. */
  lemma WrittenFrame(h: Shape, g: Shape, d: Node, val: Val, keys: seq<string>, made: seq<Node>)
    requires keys != [] && Written(h, g, d, val, keys, made)
    ensures var w := Writer(h, d, keys);
      && w != null && w in h && d in h && h.Keys <= g.Keys
      && (forall n :: n in h && n != w ==> g[n] == h[n])
      && forall key :: key != keys[Stop(h, d, keys)] ==> Find(g[w], key) == Find(h[w], key)
    ensures |made| == |keys| - 1 - Stop(h, d, keys)
    ensures Stop(h, d, keys) == |keys| - 1 ==> Find(g[Writer(h, d, keys)], keys[|keys| - 1]) == Some(val)
  {
  }

  /** From each map on the path to the next. */
  lemma WrittenLink(h: Shape, g: Shape, d: Node, val: Val, keys: seq<string>, made: seq<Node>, i: nat)
    requires keys != [] && Written(h, g, d, val, keys, made) && Stop(h, d, keys) <= i < |keys| - 1
    ensures var r := Stop(h, d, keys);
      Next(g, if i == r then Writer(h, d, keys) else made[i - r - 1], keys[i]) == made[i - r]
  {
    var r := Stop(h, d, keys);
    if i > r {
      assert g[made[i - r - 1]] == Entry(keys[r + 1 + (i - r - 1)], val, made, i - r - 1);
    }
  }

  /** After the put every map on the path is there: the writer, then the new ones. */
  lemma {:induction false} AlongThePath(h: Shape, g: Shape, d: Node, val: Val, keys: seq<string>, made: seq<Node>,
                                        i: nat)
    requires keys != [] && Whole(h) && Tree(h, d) && Written(h, g, d, val, keys, made)
    requires Stop(h, d, keys) <= i < |keys|
    ensures var r := Stop(h, d, keys); Along(g, d, keys[..i]) == if i == r then Writer(h, d, keys) else made[i - r - 1]
    decreases i
  {
    hide Written, Whole, Tree, Next;
    var r := Stop(h, d, keys);
    WrittenFrame(h, g, d, val, keys, made);
    if i == r {
      ShortPathsAvoid(h, d, keys, r, keys[..r], keys[r]);
      SameWay(h, g, d, Writer(h, d, keys), keys[r], keys[..r]);
    } else {
      AlongThePath(h, g, d, val, keys, made, i - 1);
      OneMore(g, d, keys, i - 1);
      WrittenLink(h, g, d, val, keys, made, i - 1);
    }
  }

  /** The one entry of the new map that stands before key i. */
  lemma EntryOf(h: Shape, g: Shape, d: Node, val: Val, keys: seq<string>, made: seq<Node>, i: nat)
    requires keys != [] && Written(h, g, d, val, keys, made) && Stop(h, d, keys) < i < |keys|
    ensures var n := made[i - Stop(h, d, keys) - 1];
      n in g && g[n].Keys == {keys[i]} && (i == |keys| - 1 ==> g[n][keys[i]] == val)
  {
    var j := i - Stop(h, d, keys) - 1;
    assert g[made[j]] == Entry(keys[Stop(h, d, keys) + 1 + j], val, made, j);
  }

  /** GetValue after PutValue finds the value. */
  lemma GetAfterPut(h: Shape, g: Shape, d: Node, val: Val, keys: seq<string>, made: seq<Node>)
    requires keys != [] && Whole(h) && Tree(h, d) && Written(h, g, d, val, keys, made)
    ensures ValueIn(g, d, keys) == Some(val)
  {
    hide Written, Whole, Tree;
    WrittenFrame(h, g, d, val, keys, made);
    AlongThePath(h, g, d, val, keys, made, |keys| - 1);
    if made != [] {
      EntryOf(h, g, d, val, keys, made, |keys| - 1);
    }
  }

  // -------- other paths --------

  /** Two paths part at c. */
  predicate PartAt(p: seq<string>, q: seq<string>, c: nat) {
    c < |p| && c < |q| && p[..c] == q[..c] && p[c] != q[c]
  }

  /** What a path that parts from the written one holds is unaffected. */
  lemma OtherPathsUnaffected(h: Shape, g: Shape, d: Node, val: Val, keys: seq<string>, made: seq<Node>, p: seq<string>,
                             c: nat)
    requires keys != [] && Whole(h) && Tree(h, d) && Written(h, g, d, val, keys, made) && PartAt(p, keys, c)
    ensures ValueIn(g, d, p) == ValueIn(h, d, p)
  {
    if c <= Stop(h, d, keys) {
      PartsEarly(h, g, d, val, keys, made, p, c);
    } else {
      PartsLate(h, g, d, val, keys, made, p, c);
    }
  }

  lemma PartsEarly(h: Shape, g: Shape, d: Node, val: Val, keys: seq<string>, made: seq<Node>, p: seq<string>, c: nat)
    requires keys != [] && Whole(h) && Tree(h, d) && Written(h, g, d, val, keys, made) && PartAt(p, keys, c)
    requires c <= Stop(h, d, keys)
    ensures ValueIn(g, d, p) == ValueIn(h, d, p)
  {
    hide Written, Whole, Tree;
    WrittenFrame(h, g, d, val, keys, made);
    var r := Stop(h, d, keys);
    var w := Writer(h, d, keys);
    var last := |p| - 1;
    if c < r < |p| {
      assert p[..r][c] != keys[..r][c];
    }
    ShortPathsAvoid(h, d, keys, r, p, keys[r]);
    forall j | 0 <= j < last ensures p[..last][..j] == p[..j] {
    }
    SameWay(h, g, d, w, keys[r], p[..last]);
    var n := Along(h, d, p[..last]);
    if n == w {
      assert p[last] != keys[r];
    }
  }

  /** Past the missing key there was nothing, and the new maps hold nothing but the way to the value. */
  lemma PartsLate(h: Shape, g: Shape, d: Node, val: Val, keys: seq<string>, made: seq<Node>, p: seq<string>, c: nat)
    requires keys != [] && Whole(h) && Tree(h, d) && Written(h, g, d, val, keys, made) && PartAt(p, keys, c)
    requires Stop(h, d, keys) < c
    ensures ValueIn(g, d, p) == None && ValueIn(h, d, p) == None
  {
    hide Written, Whole, Tree, Next;
    WrittenFrame(h, g, d, val, keys, made);
    NoneBefore(h, d, keys, p, c);
    AlongThePath(h, g, d, val, keys, made, c);
    EntryOf(h, g, d, val, keys, made, c);
    NoneBelow(g, d, p, c);
  }

  /** The path to p goes past a key that is missing. */
  lemma NoneBefore(h: Shape, d: Node, keys: seq<string>, p: seq<string>, c: nat)
    requires keys != [] && PartAt(p, keys, c) && Stop(h, d, keys) < c
    ensures ValueIn(h, d, p) == None
  {
    var r, last := Stop(h, d, keys), |p| - 1;
    StopReaches(h, d, keys);
    OneMore(h, d, keys, r);
    assert keys[..r + 1] == p[..c][..r + 1] == p[..last][..r + 1];
    assert p[..last] == p[..last][..r + 1] + p[..last][r + 1..];
    AlongConcat(h, d, p[..last][..r + 1], p[..last][r + 1..]);
  }

  /** The map before key c does not have that key. */
  lemma NoneBelow(g: Shape, d: Node, p: seq<string>, c: nat)
    requires c < |p|
    requires var n := Along(g, d, p[..c]); n != null && n in g && p[c] !in g[n]
    ensures ValueIn(g, d, p) == None
  {
    var last := |p| - 1;
    if c < last {
      OneMore(g, d, p, c);
      assert p[..last] == p[..c + 1] + p[..last][c + 1..];
      AlongConcat(g, d, p[..c + 1], p[..last][c + 1..]);
    }
  }

  // -------- remove after put --------

  /** The shape that a removal leaves. */
  function Cut(h: Shape, d: Node?, keys: seq<string>): Shape {
    if keys == [] then h
    else
      var last := |keys| - 1;
      var n := Along(h, d, keys[..last]);
      if n == null || n !in h then h else h[n := h[n] - {keys[last]}]
  }

  /** RemoveValue after PutValue restores the heap exactly when the parents were there and the leaf was not. */
  lemma RemoveAfterPutRestoresExactlyWhen(h: Shape, g: Shape, d: Node, val: Val, keys: seq<string>, made: seq<Node>)
    requires keys != [] && Whole(h) && Tree(h, d) && Written(h, g, d, val, keys, made)
    ensures Cut(g, d, keys) == h <==>
      Along(h, d, keys[..|keys| - 1]) != null && ValueIn(h, d, keys) == None
  {
    var last := |keys| - 1;
    var r := Stop(h, d, keys);
    AlongThePath(h, g, d, val, keys, made, last);
    StopReaches(h, d, keys);
    if r < last {
      assert made[0] in made && made[0] in Cut(g, d, keys);
      OneMore(h, d, keys, r);
      assert keys[..last] == keys[..r + 1] + keys[..last][r + 1..];
      AlongConcat(h, d, keys[..r + 1], keys[..last][r + 1..]);
    } else {
      var w := Writer(h, d, keys);
      assert keys[last] !in Cut(g, d, keys)[w];
      if keys[last] !in h[w] {
        assert Cut(g, d, keys)[w] == h[w];
      }
    }
  }

  // -------- the heap --------

  ghost function Snapshot(nodes: set<Node>): Shape
    reads nodes
  {
    map n | n in nodes :: n.m
  }

  lemma {:induction false} SameWalk(nodes: set<Node>, d: Node?, path: seq<string>)
    requires Whole(Snapshot(nodes)) && (d != null ==> d in nodes)
    ensures NodeAt(d, path) == Along(Snapshot(nodes), d, path)
    ensures NodeAt(d, path) != null ==> NodeAt(d, path) in nodes
    decreases |path|
  {
    if d != null && path != [] {
      var h := Snapshot(nodes);
      assert Child(d, path[0]) == Next(h, d, path[0]);
      assert Next(h, d, path[0]) != null ==> d in h && path[0] in h[d] && h[d][path[0]].Sub?;
      SameWalk(nodes, Child(d, path[0]), path[1..]);
    }
  }

  lemma {:induction false} SameStop(nodes: set<Node>, d: Node, keys: seq<string>)
    requires Whole(Snapshot(nodes)) && d in nodes
    ensures Depth(d, keys) == Stop(Snapshot(nodes), d, keys)
    decreases |keys|
  {
    var h := Snapshot(nodes);
    if |keys| > 1 {
      assert Child(d, keys[0]) == Next(h, d, keys[0]);
      assert Next(h, d, keys[0]) != null ==> d in h && keys[0] in h[d] && h[d][keys[0]].Sub?;
      if Child(d, keys[0]) != null {
        SameStop(nodes, Child(d, keys[0]), keys[1..]);
      }
    }
  }

  lemma NewEntries(nodes: set<Node>, made: seq<Node>, keys: seq<string>, r: nat, val: Val)
    requires r < |keys| && Links(made, keys[r + 1..], val) && forall n :: n in made ==> n in nodes
    ensures var g := Snapshot(nodes);
      forall j {:trigger g[made[j]]} :: 0 <= j < |made| ==>
        made[j] in g && g[made[j]] == Entry(keys[r + 1 + j], val, made, j)
  {
    var g := Snapshot(nodes);
    forall j | 0 <= j < |made| ensures made[j] in g && g[made[j]] == Entry(keys[r + 1 + j], val, made, j) {
      assert keys[r + 1..][j] == keys[r + 1 + j];
      assert made[j].m == Entry(keys[r + 1 + j], val, made, j);
    }
  }

  /** What PutValue does, seen as a change of shape. */
  method Put(ghost nodes: set<Node>, data: Node, val: Val, keys: seq<string>) returns (ghost made: seq<Node>)
    requires keys != [] && data in nodes && Whole(Snapshot(nodes))
    modifies Target(data, keys)
    ensures old(Obstructed(Snapshot(nodes), data, keys)) ==> made == [] && Snapshot(nodes) == old(Snapshot(nodes))
    ensures !old(Obstructed(Snapshot(nodes), data, keys)) ==>
      fresh(made) && (forall j, k :: 0 <= j < k < |made| ==> made[j] != made[k]) &&
      Written(old(Snapshot(nodes)), Snapshot(nodes + set n | n in made), data, val, keys, made)
  {
    ghost var h := Snapshot(nodes);
    SameStop(nodes, data, keys);
    SameWalk(nodes, data, keys[..Depth(data, keys)]);
    StopReaches(h, data, keys);
    made := PutValue(data, val, keys);
    if Obstructed(h, data, keys) {
      assert Snapshot(nodes) == h;
    } else {
      var g := Snapshot(nodes + set n | n in made);
      var w := Writer(h, data, keys);
      assert forall n :: n in nodes && n != w ==> n.m == h[n];
      var r := Stop(h, data, keys);
      NewEntries(nodes + (set n | n in made), made, keys, r, val);
    }
  }

  /** What RemoveValue does, seen as a change of shape. */
  method Remove(ghost nodes: set<Node>, data: Node, keys: seq<string>) returns (got: Option<Val>)
    requires data in nodes && Whole(Snapshot(nodes))
    modifies Parent(data, keys)
    ensures got == ValueIn(old(Snapshot(nodes)), data, keys)
    ensures Snapshot(nodes) == Cut(old(Snapshot(nodes)), data, keys)
  {
    ghost var h := Snapshot(nodes);
    if keys != [] {
      SameWalk(nodes, data, keys[..|keys| - 1]);
    }
    got := RemoveValue(data, keys);
  }
}
