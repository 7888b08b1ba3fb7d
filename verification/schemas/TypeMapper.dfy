/** The mapper of a schema: the mappers of the schemas of its fields, and its own (mapper.go:41-116). */
module TypeMapper {
  import opened Common
  import opened Json
  import opened Mappers
  import opened Paths
  import opened PathLaws
  import opened Documents
  import TN = TypeNames

  /** A typeMapper and, below it, those of the fields that hold one object, many in a list, or many in a
      map.  A schema that does not contain itself makes a finite tree. */
  datatype Tree = Tree(mappers: seq<Mapper>,
                       subs: map<string, Tree>, arrays: map<string, Tree>, maps: map<string, Tree>)

  /** A field has one type (mapper.go:128-143). */
  predicate Separate(t: Tree) {
    && t.subs.Keys !! t.arrays.Keys && t.subs.Keys !! t.maps.Keys && t.arrays.Keys !! t.maps.Keys
    && (forall k :: k in t.subs ==> Separate(t.subs[k]))
    && (forall k :: k in t.arrays ==> Separate(t.arrays[k]))
    && (forall k :: k in t.maps ==> Separate(t.maps[k]))
  }

  /** Both directions: the inner objects come first on the way out, and last on the way back. */
  function Converted(t: Tree, d: Record, back: bool): Record
    decreases t, 3
  {
    if back then Inner(t, ChainTo(t.mappers, d), back) else ChainFrom(t.mappers, Inner(t, d, back))
  }

  function Inner(t: Tree, d: Record, back: bool): Record
    decreases t, 2
  {
    map k | k in d :: Child(t, k, d[k], back)
  }

  function Child(t: Tree, k: string, v: Value, back: bool): Value
    decreases t, 1
  {
    if k in t.subs then Element(t.subs[k], v, back)
    else if k in t.maps then EachInMap(t.maps[k], v, back)
    else if k in t.arrays then EachInList(t.arrays[k], v, back)
    else v
  }

  function EachInMap(t: Tree, v: Value, back: bool): Value
    decreases t, 5
  {
    if v.Obj? then Obj(map j | j in v.fields :: Element(t, v.fields[j], back)) else v
  }

  function EachInList(t: Tree, v: Value, back: bool): Value
    decreases t, 5
  {
    if v.List? then List(seq(|v.items|, i requires 0 <= i < |v.items| => Element(t, v.items[i], back))) else v
  }

  function Element(t: Tree, v: Value, back: bool): Value
    decreases t, 4
  {
    if v.Obj? then Obj(Converted(t, v.fields, back)) else v
  }

  /** How the objects of a field are held. */
  datatype Holding = One | InMap | InList

  function Each(how: Holding, t: Tree, v: Value, back: bool): Value
    decreases t, 6
  {
    match how
    case One => Element(t, v, back)
    case InMap => EachInMap(t, v, back)
    case InList => EachInList(t, v, back)
  }

  /** The mappers for the fields that hold their objects so. */
  function Under(t: Tree, how: Holding): map<string, Tree> {
    match how
    case One => t.subs
    case InMap => t.maps
    case InList => t.arrays
  }

  // -------- there and back --------

  predicate TreeFits(t: Tree, d: Record)
    decreases t, 3
  {
    && (forall k :: k in d ==> ChildFits(t, k, d[k]))
    && ChainFits(t.mappers, Inner(t, d, false))
  }

  predicate ChildFits(t: Tree, k: string, v: Value)
    decreases t, 1
  {
    if k in t.subs then ElementFits(t.subs[k], v)
    else if k in t.maps && v.Obj? then forall j :: j in v.fields ==> ElementFits(t.maps[k], v.fields[j])
    else if k in t.arrays && v.List? then forall i :: 0 <= i < |v.items| ==> ElementFits(t.arrays[k], v.items[i])
    else true
  }

  predicate ElementFits(t: Tree, v: Value)
    decreases t, 4
  {
    v.Obj? ==> TreeFits(t, v.fields)
  }

  /** Converting to the internal form undoes the conversion from it, at every level of the tree. */
  lemma {:induction false} TreeUndone(t: Tree, d: Record)
    requires TreeFits(t, d)
    ensures Converted(t, Converted(t, d, false), true) == d
    decreases t, 3
  {
    var e := Inner(t, d, false);
    ChainUndone(t.mappers, e);
    forall k | k in d ensures Child(t, k, e[k], true) == d[k] {
      ChildUndone(t, k, d[k]);
    }
    assert Inner(t, e, true) == d;
  }

  lemma {:induction false} ChildUndone(t: Tree, k: string, v: Value)
    requires ChildFits(t, k, v)
    ensures Child(t, k, Child(t, k, v, false), true) == v
    decreases t, 1
  {
    if k in t.subs {
      ElementUndone(t.subs[k], v);
    } else if k in t.maps && v.Obj? {
      forall j | j in v.fields ensures Element(t.maps[k], Element(t.maps[k], v.fields[j], false), true) == v.fields[j] {
        ElementUndone(t.maps[k], v.fields[j]);
      }
      assert EachInMap(t.maps[k], EachInMap(t.maps[k], v, false), true).fields == v.fields;
    } else if k in t.arrays && v.List? {
      forall i | 0 <= i < |v.items|
        ensures Element(t.arrays[k], Element(t.arrays[k], v.items[i], false), true) == v.items[i]
      {
        ElementUndone(t.arrays[k], v.items[i]);
      }
      assert EachInList(t.arrays[k], EachInList(t.arrays[k], v, false), true).items == v.items;
    }
  }

  lemma {:induction false} ElementUndone(t: Tree, v: Value)
    requires ElementFits(t, v)
    ensures Element(t, Element(t, v, false), true) == v
    decreases t, 4
  {
    if v.Obj? {
      TreeUndone(t, v.fields);
    }
  }

  /** An object is converted by the mapper, anything else stays. */
  predicate Becomes(t: Tree, before: Value, after: Value, back: bool) {
    if before.Obj? then after == Obj(Converted(t, before.fields, back)) else after == before
  }

  /** What becomes of the fields before the chain of the schema runs, or after it has run backwards: the object in a
      field, and every object held in a list or a map, is converted by the mapper of its own schema; nothing
      appears, disappears or changes place, and everything else is left alone. */
  lemma HeldConverted(t: Tree, d: Record, back: bool, k: string)
    requires Separate(t) && k in d
    ensures var e := Inner(t, d, back);
      && e.Keys == d.Keys
      && (k !in t.subs && k !in t.arrays && k !in t.maps ==> e[k] == d[k])
      && (k in t.subs ==> Becomes(t.subs[k], d[k], e[k], back))
      && (k in t.arrays && d[k].List? ==>
          && e[k].List? && |e[k].items| == |d[k].items|
          && forall i :: 0 <= i < |d[k].items| ==> Becomes(t.arrays[k], d[k].items[i], e[k].items[i], back))
      && (k in t.maps && d[k].Obj? ==>
          && e[k].Obj? && e[k].fields.Keys == d[k].fields.Keys
          && forall j :: j in d[k].fields ==> Becomes(t.maps[k], d[k].fields[j], e[k].fields[j], back))
  {
    hide Converted;
    assert Inner(t, d, back)[k] == Child(t, k, d[k], back);
    if k in t.subs {
      ElementIs(t.subs[k], d[k], back);
    } else if k in t.maps && d[k].Obj? {
      forall j | j in d[k].fields { ElementIs(t.maps[k], d[k].fields[j], back); }
    } else if k in t.arrays && d[k].List? {
      forall i | 0 <= i < |d[k].items| { ElementIs(t.arrays[k], d[k].items[i], back); }
    }
  }

  lemma ElementIs(t: Tree, v: Value, back: bool)
    ensures Becomes(t, v, Element(t, v, back), back)
  {
  }

  // -------- trees that come from schemas --------

  /** A set of schemas: their fields before and after their mappers have modified them, and the mappers. */
  datatype Registry = Registry(before: Table, chains: map<string, seq<Mapper>>, after: Table) {

    /** Strict mappers have accepted every schema; the names are not those of lists or maps. */
    ghost predicate Accepted() {
      && before.Keys == chains.Keys == after.Keys
      && forall n :: n in before ==>
          && !TN.IsArrayType(n) && !TN.IsMapType(n)
          && Plain(chains[n]) && (forall m :: m in chains[n] ==> Strict(m))
          && ModifyAll(chains[n], before[n], after).Some? && ModifyAll(chains[n], before[n], after).value.1 == after[n]
    }

    /** The fields whose values are held so, of a schema there is. */
    function Held(n: string, how: Holding): set<string>
      requires n in before
    {
      set f | f in before[n] && HowHeld(before[n][f]) == how && Inside(before[n][f]) in before
    }

    /** The tree is the one that typeMapper.ModifySchema builds for the schema. */
    ghost predicate Maps(t: Tree, n: string)
      requires Accepted()
      decreases t
    {
      && n in before && t.mappers == ModifyAll(chains[n], before[n], after).value.0
      && t.subs.Keys == Held(n, One) && t.arrays.Keys == Held(n, InList) && t.maps.Keys == Held(n, InMap)
      && (forall f :: f in t.subs ==> Maps(t.subs[f], Inside(before[n][f])))
      && (forall f :: f in t.arrays ==> Maps(t.arrays[f], Inside(before[n][f])))
      && (forall f :: f in t.maps ==> Maps(t.maps[f], Inside(before[n][f])))
    }
  }

  function HowHeld(typeName: string): Holding {
    if TN.IsArrayType(typeName) then InList else if TN.IsMapType(typeName) then InMap else One
  }

  function Inside(typeName: string): string {
    if HowHeld(typeName).One? then typeName else TN.SubType(typeName)
  }

  /** The data has only fields of its schema, at every level, and what is to be embedded is there to be.  What is
      not converted, as a list of lists never is, already looks as it should. */
  predicate Matches(reg: Registry, t: Tree, n: string, d: Record)
    decreases t, 3
  {
    && n in reg.before && d.Keys <= reg.before[n].Keys
    && (forall k :: k in d ==> ChildMatches(reg, t, k, reg.before[n][k], d[k]))
    && AllFilled(t.mappers, Inner(t, d, false))
  }

  predicate ChildMatches(reg: Registry, t: Tree, k: string, typeName: string, v: Value)
    decreases t, 2
  {
    if k in t.subs then ElementMatches(reg, t.subs[k], Inside(typeName), v)
    else if k in t.maps && v.Obj? then
      forall j :: j in v.fields ==> ElementMatches(reg, t.maps[k], Inside(typeName), v.fields[j])
    else if k in t.arrays && v.List? then
      forall i :: 0 <= i < |v.items| ==> ElementMatches(reg, t.arrays[k], Inside(typeName), v.items[i])
    else k in t.maps || k in t.arrays || ConformsTo(v, typeName, reg.after)
  }

  predicate ElementMatches(reg: Registry, t: Tree, n: string, v: Value)
    decreases t, 4
  {
    v.Obj? ==> Matches(reg, t, n, v.fields)
  }

  /** If strict mappers have accepted every schema, the mapper of a schema is undone on all data of that
      schema, through every level, and what it makes conforms to the modified schemas. */
  lemma {:induction false} AcceptedTreeFits(reg: Registry, t: Tree, n: string, d: Record)
    requires reg.Accepted() && reg.Maps(t, n) && Matches(reg, t, n, d)
    ensures TreeFits(t, d) && Converted(t, Converted(t, d, false), true) == d
    ensures Conforms(Converted(t, d, false), reg.after[n], reg.after)
    decreases t, 3
  {
    var e := Inner(t, d, false);
    forall k | k in d ensures ChildFits(t, k, d[k]) && ConformsTo(e[k], reg.before[n][k], reg.after) {
      AcceptedChildFits(reg, t, n, k, d[k]);
    }
    AcceptedChainFits(reg.chains[n], reg.before[n], reg.after, e);
    TreeUndone(t, d);
  }

  lemma {:induction false} AcceptedChildFits(reg: Registry, t: Tree, n: string, k: string, v: Value)
    requires reg.Accepted() && reg.Maps(t, n) && k in reg.before[n] && ChildMatches(reg, t, k, reg.before[n][k], v)
    ensures ChildFits(t, k, v) && ConformsTo(Child(t, k, v, false), reg.before[n][k], reg.after)
    decreases t, 2
  {
    hide reg.Accepted, ConformsTo, Element, ElementFits, ElementMatches;
    FieldTypes(reg, t, n, k);
    var typeName := reg.before[n][k];
    if k in t.subs {
      AcceptedElementFits(reg, t.subs[k], typeName, v);
    } else if k in t.maps {
      AcceptedMapFits(reg, t.maps[k], typeName, v);
    } else if k in t.arrays {
      AcceptedListFits(reg, t.arrays[k], typeName, v);
    }
  }

  lemma {:induction false} AcceptedMapFits(reg: Registry, t: Tree, typeName: string, v: Value)
    requires reg.Accepted() && reg.Maps(t, Inside(typeName)) && HowHeld(typeName).InMap? && typeName !in reg.after
    requires v.Obj? ==> forall j :: j in v.fields ==> ElementMatches(reg, t, Inside(typeName), v.fields[j])
    ensures v.Obj? ==> forall j :: j in v.fields ==> ElementFits(t, v.fields[j])
    ensures ConformsTo(EachInMap(t, v, false), typeName, reg.after)
    decreases t, 6
  {
    hide reg.Accepted, ConformsTo, Element, ElementFits, ElementMatches;
    if v.Obj? {
      forall j | j in v.fields
        ensures ElementFits(t, v.fields[j]) && ConformsTo(Element(t, v.fields[j], false), Inside(typeName), reg.after)
      {
        AcceptedElementFits(reg, t, Inside(typeName), v.fields[j]);
      }
    }
    MapConforms(EachInMap(t, v, false), typeName, reg.after);
  }

  lemma {:induction false} AcceptedListFits(reg: Registry, t: Tree, typeName: string, v: Value)
    requires reg.Accepted() && reg.Maps(t, Inside(typeName)) && HowHeld(typeName).InList? && typeName !in reg.after
    requires v.List? ==> forall i :: 0 <= i < |v.items| ==> ElementMatches(reg, t, Inside(typeName), v.items[i])
    ensures v.List? ==> forall i :: 0 <= i < |v.items| ==> ElementFits(t, v.items[i])
    ensures ConformsTo(EachInList(t, v, false), typeName, reg.after)
    decreases t, 6
  {
    hide reg.Accepted, ConformsTo, Element, ElementFits, ElementMatches;
    if v.List? {
      forall i | 0 <= i < |v.items|
        ensures ElementFits(t, v.items[i]) && ConformsTo(Element(t, v.items[i], false), Inside(typeName), reg.after)
      {
        AcceptedElementFits(reg, t, Inside(typeName), v.items[i]);
      }
    }
    ListConforms(EachInList(t, v, false), typeName, reg.after);
  }

  /** A list of lists, or any other wrapper in a wrapper, is not looked into: whatever objects it holds are left as
      they are, in both directions. */
  lemma WrappedTwiceIsLeftAlone(reg: Registry, t: Tree, n: string, d: Record, back: bool, k: string)
    requires reg.Accepted() && reg.Maps(t, n) && k in reg.before[n] && k in d && Separate(t)
    requires !HowHeld(reg.before[n][k]).One? && !HowHeld(Inside(reg.before[n][k])).One?
    ensures Inner(t, d, back)[k] == d[k]
  {
    HeldConverted(t, d, back, k);
    assert Inside(reg.before[n][k]) !in reg.before;
  }

  /** What the place of a field in the tree says of its type. */
  lemma FieldTypes(reg: Registry, t: Tree, n: string, k: string)
    requires reg.Accepted() && reg.Maps(t, n) && k in reg.before[n]
    ensures var typeName := reg.before[n][k];
      && (k in t.subs ==> reg.Maps(t.subs[k], typeName))
      && (k in t.maps ==> reg.Maps(t.maps[k], Inside(typeName)) && HowHeld(typeName).InMap? && typeName !in reg.after)
      && (k in t.arrays ==>
            reg.Maps(t.arrays[k], Inside(typeName)) && HowHeld(typeName).InList? && typeName !in reg.after)
  {
    hide ModifyAll, Plain;
  }

  lemma MapConforms(v: Value, typeName: string, table: Table)
    requires HowHeld(typeName).InMap? && typeName !in table
    requires v.Obj? ==> forall k :: k in v.fields ==> ConformsTo(v.fields[k], Inside(typeName), table)
    ensures ConformsTo(v, typeName, table)
  {
  }

  lemma ListConforms(v: Value, typeName: string, table: Table)
    requires HowHeld(typeName).InList? && typeName !in table
    requires v.List? ==> forall i :: 0 <= i < |v.items| ==> ConformsTo(v.items[i], Inside(typeName), table)
    ensures ConformsTo(v, typeName, table)
  {
  }

  lemma {:induction false} AcceptedElementFits(reg: Registry, t: Tree, n: string, v: Value)
    requires reg.Accepted() && reg.Maps(t, n) && ElementMatches(reg, t, n, v)
    ensures ElementFits(t, v) && ConformsTo(Element(t, v, false), n, reg.after)
    decreases t, 4
  {
    if v.Obj? {
      AcceptedTreeFits(reg, t, n, v.fields);
      Bridge(Converted(t, v.fields, false), n, reg.after);
    }
  }

  lemma Bridge(d: Record, n: string, table: Table)
    requires n in table && Conforms(d, table[n], table)
    ensures ConformsTo(Obj(d), n, table)
  {
  }

  // -------- the loops --------

  /** The data after the objects in some of its fields have been converted. */
  function Part(t: Tree, d: Record, back: bool, names: set<string>): Record {
    map k | k in d :: if k in names then Child(t, k, d[k], back) else d[k]
  }

  lemma PartOneMore(t: Tree, d: Record, back: bool, names: set<string>, k: string)
    requires k !in names
    ensures var p := Part(t, d, back, names);
      && p.Keys == d.Keys && (k in d ==> p[k] == d[k])
      && Part(t, d, back, names + {k}) == if k in d then p[k := Child(t, k, d[k], back)] else p
  {
  }

  lemma PartNone(t: Tree, d: Record, back: bool)
    ensures Part(t, d, back, {}) == d
  {
  }

  lemma PartAll(t: Tree, d: Record, back: bool, a: set<string>, b: set<string>, c: set<string>)
    requires a !! b && (a + b) !! c && a + b + c == t.subs.Keys + t.arrays.Keys + t.maps.Keys
    ensures Part(t, Part(t, Part(t, d, back, a), back, b), back, c) == Inner(t, d, back)
  {
    var e := Part(t, Part(t, Part(t, d, back, a), back, b), back, c);
    forall k | k in d ensures e[k] == Child(t, k, d[k], back) {
      assert k in a + b + c || (k !in t.subs && k !in t.arrays && k !in t.maps);
    }
  }

  lemma ChildIs(t: Tree, how: Holding, k: string, v: Value, back: bool)
    requires Separate(t) && k in Under(t, how)
    ensures Separate(Under(t, how)[k]) && Child(t, k, v, back) == Each(how, Under(t, how)[k], v, back)
  {
  }

  /** The objects held by a value, which belongs to nobody else, are converted where they are. */
  method ConvertEach(how: Holding, t: Tree, x: Val, ghost nodes: set<Node>, ghost v: Value, back: bool)
      returns (ghost nodes': set<Node>)
    requires Separate(t) && Owns(nodes, x, v)
    modifies nodes
    ensures nodes <= nodes' && fresh(nodes' - nodes) && Owns(nodes', x, Each(how, t, v, back))
    decreases t, if how == One then 5 else 8
  {
    match how
    case One => nodes' := ConvertElement(t, x, nodes, v, back);
    case InMap => nodes' := ConvertMap(t, x, nodes, v, back);
    case InList => nodes' := ConvertList(t, x, nodes, v, back);
  }

  method ConvertElement(t: Tree, x: Val, ghost nodes: set<Node>, ghost v: Value, back: bool)
      returns (ghost nodes': set<Node>)
    requires Separate(t) && Owns(nodes, x, v)
    modifies nodes
    ensures nodes <= nodes' && fresh(nodes' - nodes) && Owns(nodes', x, Element(t, v, back))
    decreases t, 4
  {
    hide Converted;
    nodes' := nodes;
    if x.Sub? {
      DocIsThere(Snapshot(nodes), x.node, v.fields);
      var o := new Object(x.node, nodes, v.fields);
      Convert(t, o, back);
      nodes' := o.nodes;
    }
  }

  /** The objects at one key. */
  method ConvertEntry(how: Holding, t: Tree, data: Object, k: string, back: bool)
    requires Separate(t) && data.Valid() && k in data.m
    modifies data, data.nodes
    ensures data.Valid() && data.Grown()
    ensures data.m == old(data.m)[k := Each(how, t, old(data.m)[k], back)]
    decreases t, if how == One then 6 else 9
  {
    hide Each, IsDoc, Holds, Below, Whole, Owns, Spells;
    ghost var h := data.TopOf();
    data.Entries();
    var x := data.root.m[k];
    ghost var v := data.m[k];
    data.EntryHolds(k);
    OwnsBelow(data.nodes, x, v);
    ghost var mine := Below(h, x, v);
    ghost var after := ConvertEach(how, t, x, mine, v, back);
    EntryInPlace(h, data.nodes, data.root, data.m, k, after, Each(how, t, v, back));
    data.nodes := data.nodes + (after - mine);
    data.m := data.m[k := Each(how, t, v, back)];
  }

  /** One field of the three loops. */
  method ConvertField(how: Holding, t: Tree, data: Object, k: string, ghost d: Record, ghost done: set<string>,
                      back: bool)
    requires Separate(t) && data.Valid() && k in Under(t, how) && k !in done && data.m == Part(t, d, back, done)
    modifies data, data.nodes
    ensures data.Valid() && data.Grown() && data.m == Part(t, d, back, done + {k})
    decreases t, 0
  {
    hide Part, Child, Each, Separate, Spells;
    PartOneMore(t, d, back, done, k);
    data.Entries();
    if k in data.root.m {
      ChildIs(t, how, k, data.m[k], back);
      ConvertEntry(how, Under(t, how)[k], data, k, back);
    }
  }

  /** One of the three loops over the fields that hold objects, in any order. */
  method ConvertFields(how: Holding, t: Tree, data: Object, back: bool)
    requires Separate(t) && data.Valid()
    modifies data, data.nodes
    ensures data.Valid() && data.Grown() && data.m == Part(t, old(data.m), back, Under(t, how).Keys)
    decreases t, 1
  {
    hide Part, Separate, Spells, Under;
    var todo := Under(t, how).Keys;
    ghost var all := todo;
    PartNone(t, data.m, back);
    assert all - todo == {};
    while todo != {}
      invariant data.Valid() && data.Grown()
      invariant todo <= all && data.m == Part(t, old(data.m), back, all - todo)
      decreases |todo|
    {
      var k :| k in todo;
      OneFewer(all, todo, k);
      ConvertField(how, t, data, k, old(data.m), all - todo, back);
      todo := todo - {k};
    }
    assert all - todo == all;
  }

  /** The objects in a map, in any order. */
  method ConvertMap(t: Tree, x: Val, ghost nodes: set<Node>, ghost v: Value, back: bool)
      returns (ghost nodes': set<Node>)
    requires Separate(t) && Owns(nodes, x, v)
    modifies nodes
    ensures nodes <= nodes' && fresh(nodes' - nodes) && Owns(nodes', x, EachInMap(t, v, back))
    decreases t, 7
  {
    hide Element, Separate, IsDoc, Whole;
    nodes' := nodes;
    if x.Sub? {
      DocIsThere(Snapshot(nodes), x.node, v.fields);
      var o := new Object(x.node, nodes, v.fields);
      o.Entries();
      var todo := x.node.m.Keys;
      while todo != {}
        invariant o.Valid() && nodes <= o.nodes && fresh(o.nodes - nodes) && o.root == x.node
        invariant todo <= v.fields.Keys && o.m.Keys == v.fields.Keys
        invariant forall j :: j in o.m ==> o.m[j] == if j in todo then v.fields[j] else Element(t, v.fields[j], back)
        decreases |todo|
      {
        var j :| j in todo;
        ConvertEntry(One, t, o, j, back);
        todo := todo - {j};
      }
      assert o.m == map j | j in v.fields :: Element(t, v.fields[j], back);
      nodes' := o.nodes;
    }
  }

  /** The objects in a list, from the first to the last. */
  method ConvertList(t: Tree, x: Val, ghost nodes: set<Node>, ghost v: Value, back: bool)
      returns (ghost nodes': set<Node>)
    requires Separate(t) && Owns(nodes, x, v)
    modifies nodes
    ensures nodes <= nodes' && fresh(nodes' - nodes) && Owns(nodes', x, EachInList(t, v, back))
    decreases t, 7
  {
    hide Element, Separate, IsDoc, Whole;
    nodes' := nodes;
    if x.Many? {
      ghost var items := v.items;
      for i := 0 to |x.items|
        invariant nodes <= nodes' && fresh(nodes' - nodes) && Owns(nodes', x, List(items))
        invariant |items| == |v.items| == |x.items|
        invariant forall j :: 0 <= j < |items| ==>
          items[j] == if j < i then Element(t, v.items[j], back) else v.items[j]
      {
        nodes' := ConvertItem(t, x, nodes', items, i, back);
        items := items[i := Element(t, items[i], back)];
      }
      assert items == seq(|v.items|, i requires 0 <= i < |v.items| => Element(t, v.items[i], back));
    }
  }

  method ConvertItem(t: Tree, x: Val, ghost nodes: set<Node>, ghost items: seq<Value>, i: nat, back: bool)
      returns (ghost nodes': set<Node>)
    requires Separate(t) && x.Many? && i < |x.items| == |items| && Owns(nodes, x, List(items))
    modifies nodes
    ensures nodes <= nodes' && fresh(nodes' - nodes) && Owns(nodes', x, List(items[i := Element(t, items[i], back)]))
    decreases t, 6
  {
    hide Element, Separate, IsDoc, Whole, Below;
    ghost var h := Snapshot(nodes);
    OwnsBelow(nodes, x.items[i], items[i]);
    ghost var mine := Below(h, x.items[i], items[i]);
    ghost var after := ConvertElement(t, x.items[i], mine, items[i], back);
    ItemInPlace(h, nodes, x, List(items), i, after, Element(t, items[i], back));
    nodes' := nodes + (after - mine);
  }

  /** The three loops, one after the other, as the direction wants it. */
  method ConvertInner(t: Tree, data: Object, back: bool)
    requires Separate(t) && data.Valid()
    modifies data, data.nodes
    ensures data.Valid() && data.Grown() && data.m == Inner(t, old(data.m), back)
    decreases t, 2
  {
    hide Part, Inner, Spells, Separate;
    KindsApart(t);
    var first, last := if back then InList else One, if back then One else InList;
    ConvertFields(first, t, data, back);
    ConvertFields(InMap, t, data, back);
    ConvertFields(last, t, data, back);
    PartAll(t, old(data.m), back, Under(t, first).Keys, t.maps.Keys, Under(t, last).Keys);
  }

  lemma KindsApart(t: Tree)
    requires Separate(t)
    ensures t.subs.Keys !! t.arrays.Keys && t.subs.Keys !! t.maps.Keys && t.arrays.Keys !! t.maps.Keys
  {
  }

  /** typeMapper.FromInternal and, with back, typeMapper.ToInternal. */
  method Convert(t: Tree, data: Object, back: bool)
    requires Separate(t) && data.Valid()
    modifies data, data.nodes
    ensures data.Valid() && data.Grown() && data.m == Converted(t, old(data.m), back)
    decreases t, 3
  {
    hide Inner, Spells, Separate;
    if back {
      data.AllTo(t.mappers);
      ConvertInner(t, data, back);
    } else {
      ConvertInner(t, data, back);
      data.AllFrom(t.mappers);
    }
  }

  /** Out and back in: the object that fits its schema spells the document it did. */
  method ThereAndBack(t: Tree, data: Object)
    requires Separate(t) && data.Valid() && TreeFits(t, data.m)
    modifies data, data.nodes
    ensures data.Valid() && data.Grown() && data.m == old(data.m)
  {
    hide Converted, TreeFits;
    Convert(t, data, false);
    Convert(t, data, true);
    TreeUndone(t, old(data.m));
  }
}
