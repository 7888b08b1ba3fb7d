/** PutValue, GetValue and RemoveValue on nested Go maps (pkg/data/values.go).  Maps are objects on the
    heap: they are changed in place, and may be shared. */
module Paths {
  import opened Common
  import opened Json

  /** A map[string]interface{}. */
  class Node {
    var m: map<string, Val>

    constructor ()
      ensures m == map[]
    {
      m := map[];
    }
  }

  /** An interface{} in such a map: another map, a list of anything, or a plain value. */
  datatype Val = Leaf(v: Value) | Sub(node: Node) | Many(items: seq<Val>)

  ghost function Child(d: Node, key: string): Node?
    reads d
  {
    if key in d.m && d.m[key].Sub? then d.m[key].node else null
  }

  /** The map a path of keys leads to; null stands for Go's nil map. */
  ghost function NodeAt(d: Node?, path: seq<string>): Node?
    reads *
    decreases |path|
  {
    if d == null || path == [] then d else NodeAt(Child(d, path[0]), path[1..])
  }

  ghost function ValueAt(d: Node?, keys: seq<string>): Option<Val>
    reads *
  {
    if keys == [] then None
    else
      var last := |keys| - 1;
      var n := NodeAt(d, keys[..last]);
      if n == null then None else Find(n.m, keys[last])
  }

  lemma {:induction false} NodeAtConcat(d: Node?, a: seq<string>, b: seq<string>)
    ensures NodeAt(d, a + b) == NodeAt(NodeAt(d, a), b)
    decreases |a|
  {
    if a == [] {
      assert a + b == b;
    } else if d != null {
      assert (a + b)[1..] == a[1..] + b;
      NodeAtConcat(Child(d, a[0]), a[1..], b);
    }
  }

  lemma NodeAtSnoc(d: Node?, path: seq<string>, key: string)
    ensures var n := NodeAt(d, path); NodeAt(d, path + [key]) == if n == null then null else Child(n, key)
  {
    NodeAtConcat(d, path, [key]);
  }

  /** One more step along existing maps. */
  lemma StepAlong(data: Node?, keys: seq<string>, i: nat)
    requires i < |keys|
    ensures var n := NodeAt(data, keys[..i]);
      NodeAt(data, keys[..i + 1]) == if n == null then null else Child(n, keys[i])
  {
    assert keys[..i + 1] == keys[..i] + [keys[i]];
    NodeAtSnoc(data, keys[..i], keys[i]);
  }

  /** The loop the three functions share: follow all keys but the last; a missing map is a nil map. */
  method Walk(data: Node?, keys: seq<string>) returns (d: Node?)
    requires keys != []
    ensures d == NodeAt(data, keys[..|keys| - 1]) == old(NodeAt(data, keys[..|keys| - 1]))
    ensures d != null ==> old(allocated(d)) && d.m == old(d.m)
  {
    d := data;
    for i := 0 to |keys| - 1
      invariant d == NodeAt(data, keys[..i])
    {
      StepAlong(data, keys, i);
      d := if d != null && keys[i] in d.m && d.m[keys[i]].Sub? then d.m[keys[i]].node else null;
    }
  }

  method GetValue(data: Node?, keys: seq<string>) returns (r: Option<Val>)
    ensures r == ValueAt(data, keys)
  {
    if keys == [] {
      return None;
    }
    var d := Walk(data, keys);
    var last := keys[|keys| - 1];
    r := if d != null && last in d.m then Some(d.m[last]) else None;
  }

  /** The one map that RemoveValue may change. */
  ghost function Parent(d: Node?, keys: seq<string>): set<Node>
    reads *
  {
    if keys == [] || NodeAt(d, keys[..|keys| - 1]) == null then {} else {NodeAt(d, keys[..|keys| - 1])}
  }

  /** RemoveValue: the value comes back, and its entry is gone from the map that held it. */
  method RemoveValue(data: Node?, keys: seq<string>) returns (r: Option<Val>)
    modifies Parent(data, keys)
    ensures r == old(ValueAt(data, keys))
    ensures forall n :: n in old(Parent(data, keys)) ==> n.m == old(n.m) - {keys[|keys| - 1]}
  {
    if keys == [] {
      return None;
    }
    ghost var before := ValueAt(data, keys);
    var d := Walk(data, keys);
    if d == null {
      return None;
    }
    var last := keys[|keys| - 1];
    r := if last in d.m then Some(d.m[last]) else None;
    assert r == before;
    d.m := d.m - {last};
  }

  // -------- putting a value --------

  /** How many keys PutValue follows before it writes or gives up. */
  ghost function Depth(d: Node, keys: seq<string>): (r: nat)
    ensures keys != [] ==> r < |keys|
    reads *
    decreases |keys|
  {
    if |keys| <= 1 || Child(d, keys[0]) == null then 0 else 1 + Depth(Child(d, keys[0]), keys[1..])
  }

  /** A value that is not a map stands in the way. */
  ghost predicate Blocked(d: Node, keys: seq<string>)
    requires keys != []
    reads *
  {
    var r := Depth(d, keys);
    r < |keys| - 1 && NodeAt(d, keys[..r]) != null && keys[r] in NodeAt(d, keys[..r]).m
  }

  /** The one old map that PutValue may change. */
  ghost function Target(d: Node?, keys: seq<string>): set<Node>
    reads *
  {
    if d == null || keys == [] || NodeAt(d, keys[..Depth(d, keys)]) == null then {}
    else {NodeAt(d, keys[..Depth(d, keys)])}
  }

  /** Depth is where the walk over existing maps ends. */
  lemma {:induction false} DepthIs(d: Node, keys: seq<string>, i: nat)
    requires i < |keys| && NodeAt(d, keys[..i]) != null
    requires i == |keys| - 1 || Child(NodeAt(d, keys[..i]), keys[i]) == null
    ensures Depth(d, keys) == i
    decreases |keys|
  {
    if i > 0 {
      var k := Child(d, keys[0]);
      assert keys[..i][1..] == keys[1..][..i - 1] && keys[..i][0] == keys[0];
      assert NodeAt(d, keys[..i]) == NodeAt(k, keys[1..][..i - 1]);
      DepthIs(k, keys[1..], i - 1);
    }
  }

  lemma {:induction false} DepthReaches(d: Node, keys: seq<string>)
    requires keys != []
    ensures NodeAt(d, keys[..Depth(d, keys)]) != null
    ensures var r := Depth(d, keys);
      r < |keys| - 1 ==> Child(NodeAt(d, keys[..r]), keys[r]) == null
    decreases |keys|
  {
    var r := Depth(d, keys);
    if r > 0 {
      assert keys[..r][1..] == keys[1..][..r - 1];
      DepthReaches(Child(d, keys[0]), keys[1..]);
    }
  }

  /** The entries PutValue makes: made are the new maps, one inside the other. */
  ghost predicate Links(made: seq<Node>, keys: seq<string>, val: Val)
    reads set n | n in made
  {
    && |made| == |keys|
    && forall j {:trigger made[j].m} :: 0 <= j < |made| ==>
        made[j].m == map[keys[j] := if j == |made| - 1 then val else Sub(made[j + 1])]
  }

  /** From the first missing key on: new maps, one inside the other, around the value. */
  method PutNew(w: Node, val: Val, keys: seq<string>) returns (ghost made: seq<Node>)
    requires keys != []
    modifies w
    ensures fresh(made) && Links(made, keys[1..], val)
    ensures forall j, k :: 0 <= j < k < |made| ==> made[j] != made[k]
    ensures w.m == old(w.m)[keys[0] := if made == [] then val else Sub(made[0])]
  {
    var d := w;
    made := [];
    for i := 0 to |keys| - 1
      invariant |made| == i && fresh(made) && w !in made
      invariant i == 0 ==> d == w && w.m == old(w.m)
      invariant i > 0 ==> d == made[i - 1] && d.m == map[] && w.m == old(w.m)[keys[0] := Sub(made[0])]
      invariant forall j, k :: 0 <= j < k < |made| ==> made[j] != made[k]
      invariant forall j :: 0 <= j < i - 1 ==> made[j].m == map[keys[1 + j] := Sub(made[j + 1])]
    {
      var n := new Node();
      d.m := d.m[keys[i] := Sub(n)];
      d := n;
      made := made + [n];
    }
    d.m := d.m[keys[|keys| - 1] := val];
  }

  /** Down through the maps that are there, until a key is missing or a value is no map. */
  method FollowExisting(data: Node, keys: seq<string>) returns (d: Node, i: nat, blocked: bool)
    requires keys != []
    ensures i == Depth(data, keys) && d == NodeAt(data, keys[..i])
    ensures blocked == Blocked(data, keys)
    ensures old(allocated(d)) && d.m == old(d.m)
    ensures i == old(Depth(data, keys)) && d == old(NodeAt(data, keys[..i])) && blocked == old(Blocked(data, keys))
  {
    d, i, blocked := data, 0, false;
    while i < |keys| - 1 && keys[i] in d.m
      invariant 0 <= i < |keys| && d == NodeAt(data, keys[..i])
    {
      if !d.m[keys[i]].Sub? {
        DepthIs(data, keys, i);
        blocked := true;
        return;
      }
      StepAlong(data, keys, i);
      d := d.m[keys[i]].node;
      i := i + 1;
    }
    DepthIs(data, keys, i);
  }

  /** PutValue: all or nothing.  Blocked, or without keys, it changes nothing; otherwise it changes one
      entry of one old map, and the missing levels are new maps that hold nothing else. */
  method PutValue(data: Node?, val: Val, keys: seq<string>) returns (ghost made: seq<Node>)
    modifies Target(data, keys)
    ensures data == null || keys == [] || old(Blocked(data, keys)) ==>
      made == [] && forall n :: n in old(Target(data, keys)) ==> n.m == old(n.m)
    ensures data != null && keys != [] && !old(Blocked(data, keys)) ==>
      && fresh(made) && (forall j, k :: 0 <= j < k < |made| ==> made[j] != made[k])
      && PutEffect(data, val, keys, made)
  {
    made := [];
    if data == null || keys == [] {
      return;
    }
    var d, i, blocked := FollowExisting(data, keys);
    if blocked {
      return;
    }
    made := PutNew(d, val, keys[i..]);
    assert keys[i..][1..] == keys[i + 1..];
  }

  /** What a PutValue that is not blocked has done. */
  twostate predicate PutEffect(data: Node, val: Val, keys: seq<string>, new made: seq<Node>)
    requires keys != []
    reads *
  {
    var r := old(Depth(data, keys));
    var w := old(NodeAt(data, keys[..r]));
    && w != null && w !in made
    && Links(made, keys[r + 1..], val)
    && w.m == old(w.m)[keys[r] := if made == [] then val else Sub(made[0])]
  }
}
