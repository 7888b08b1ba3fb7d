/** Field mappers and chains of them (mapper.go:10-39, mappers/move.go:13-68, mappers/embed.go:10-107). */
module Mappers {
  import opened Common
  import opened Json
  import opened Moves
  import opened Documents
  import opened Paths
  import opened PathLaws
  import TN = TypeNames

  /** strings.Split(s, "/") */
  function Segments(s: string): (r: seq<string>)
    ensures r != []
    ensures '/' !in s ==> r == [s]
  {
    if s == [] then [""]
    else
      var rest := Segments(s[1..]);
      assert [s[0]] + s[1..] == s;
      if s[0] == '/' then [""] + rest else [[s[0]] + rest[0]] + rest[1..]
  }

  function Rejoined(parts: seq<string>): string
    requires parts != []
  {
    if |parts| == 1 then parts[0] else parts[0] + "/" + Rejoined(parts[1..])
  }

  /** The parts are what stands between the slashes. */
  lemma {:induction false} SegmentsRejoin(s: string)
    ensures Rejoined(Segments(s)) == s && forall i :: 0 <= i < |Segments(s)| ==> '/' !in Segments(s)[i]
  {
    if s != [] {
      var rest := Segments(s[1..]);
      SegmentsRejoin(s[1..]);
      assert s == [s[0]] + s[1..];
      if s[0] == '/' {
        assert ([""] + rest)[1..] == rest;
      } else {
        var parts := [[s[0]] + rest[0]] + rest[1..];
        assert parts[1..] == rest[1..];
      }
    }
  }

  /** The embedded fields are those that ModifySchema found; a mapper that has not seen its schema has none. */
  datatype Mapper =
    | Move(from: string, to: string, optional: bool, destDefined: bool, keepFromField: bool)
    | Embed(field: string, optional: bool, ignored: set<string>, emptyValueOk: bool, embedded: set<string>)

  function FromInternal(m: Mapper, d: Record): Record {
    match m
    case Move(from, to, _, _, _) => Moved(d, Segments(from), Segments(to))
    case Embed(field, _, _, _, embedded) => d + Chosen(ToMap(Field(d, field)), embedded) - {field}
  }

  function ToInternal(m: Mapper, d: Record): Record {
    match m
    case Move(from, to, _, _, _) => Moved(d, Segments(to), Segments(from))
    case Embed(field, _, _, emptyValueOk, embedded) =>
      var sub := Chosen(d, embedded);
      var rest := d - embedded;
      if sub != map[] then rest[field := Obj(sub)] else if emptyValueOk then rest[field := Null] else rest
  }

  // -------- the mappers on data that is changed in place --------

  /** A data.Object: a map that everybody who holds it sees change, with the maps inside it.  m is the
      document it spells. */
  class Object {
    const root: Node
    ghost var nodes: set<Node>
    ghost var m: Record

    ghost predicate Valid()
      reads this, nodes
    {
      root in nodes && Spells(nodes, root, m)
    }

    /** There may be new maps, besides the old ones. */
    twostate predicate Grown()
      reads this
    {
      old(nodes) <= nodes && fresh(nodes - old(nodes))
    }

    constructor (root: Node, ghost nodes: set<Node>, ghost m: Record)
      requires root in nodes && Spells(nodes, root, m)
      ensures Valid() && this.root == root && this.nodes == nodes && this.m == m
    {
      this.root, this.nodes, this.m := root, nodes, m;
    }

    lemma Entries()
      requires Valid()
      ensures root.m.Keys == m.Keys
    {
      DocIsThere(Snapshot(nodes), root, m);
    }

    lemma EntryHolds(k: string)
      requires Valid() && k in m
      ensures k in root.m && Holds(Snapshot(nodes), root.m[k], m[k])
    {
    }

    /** The heap of this document, before it is changed. */
    lemma TopOf() returns (h: Shape)
      requires Valid()
      ensures h == Snapshot(nodes) && OnlyTop(h, nodes, root) && Whole(h) && IsDoc(h, root, m)
    {
      h := Snapshot(nodes);
    }

    method MoveValue(from: string, to: string)
      requires Valid()
      modifies this, nodes
      ensures Valid() && Grown() && m == Moved(old(m), Segments(from), Segments(to))
    {
      hide Spells;
      nodes := Documents.MoveValue(nodes, root, Segments(from), Segments(to), m);
      m := Moved(m, Segments(from), Segments(to));
    }

    /** data.Map(field), as far as there is such a map. */
    method MapAt(field: string) returns (n: Node?)
      requires Valid()
      ensures n != null ==> n in nodes && n != root
      ensures (if n == null then map[] else n.m) == EntriesOf(Snapshot(nodes), Find(root.m, field))
    {
      SubDoc(Snapshot(nodes), root, m, field);
      FootIsThere(Snapshot(nodes), root, m);
      DocIsThere(Snapshot(nodes), root, m);
      n := if field in root.m && root.m[field].Sub? then root.m[field].node else null;
    }

    /** The entries of another map under these names, in any order, come in. */
    method Spread(sub: Node?, names: set<string>)
      requires sub != root
      modifies root
      ensures root.m == old(root.m) + Chosen(if sub == null then map[] else sub.m, names)
    {
      hide Chosen;
      ghost var inner := if sub == null then map[] else sub.m;
      var todo := names;
      ghost var done := {};
      ChosenNone(inner);
      while todo != {}
        invariant todo <= names && done == names - todo
        invariant root.m == old(root.m) + Chosen(inner, done)
        decreases |todo|
      {
        var k :| k in todo;
        ChosenOneMore(inner, done, k);
        if sub != null && k in sub.m {
          assert old(root.m) + Chosen(inner, done)[k := sub.m[k]] == root.m[k := sub.m[k]];
          root.m := root.m[k := sub.m[k]];
        }
        todo, done := todo - {k}, done + {k};
      }
      assert done == names;
    }

    /** Embed.FromInternal */
    method Unpack(field: string, embedded: set<string>)
      requires Valid()
      modifies this, nodes
      ensures Valid() && Grown()
      ensures m == old(m) + Chosen(ToMap(Field(old(m), field)), embedded) - {field}
    {
      hide Chosen, IsDoc, Whole, Spells, EntriesOf;
      ghost var h := TopOf();
      var sub := MapAt(field);
      Spread(sub, embedded);
      root.m := root.m - {field};
      assert OnlyTop(h, nodes, root);
      UnpackedSpells(h, nodes, root, m, field, embedded);
      m := m + Chosen(ToMap(Field(m, field)), embedded) - {field};
    }

    /** The entries under these names, in any order, go into a new map. */
    method Gather(names: set<string>) returns (sub: Node)
      modifies root
      ensures fresh(sub) && sub.m == Chosen(old(root.m), names) && root.m == old(root.m) - names
    {
      hide Chosen;
      sub := new Node();
      var todo := names;
      ghost var done := {};
      ChosenNone(root.m);
      while todo != {}
        invariant todo <= names && done == names - todo
        invariant sub.m == Chosen(old(root.m), done) && root.m == old(root.m) - done
        decreases |todo|
      {
        var k :| k in todo;
        ChosenOneMore(old(root.m), done, k);
        if k in root.m {
          sub.m := sub.m[k := root.m[k]];
        }
        assert old(root.m) - (done + {k}) == root.m - {k};
        root.m := root.m - {k};
        todo, done := todo - {k}, done + {k};
      }
      assert done == names;
    }

    /** Embed.ToInternal */
    method Pack(field: string, embedded: set<string>, emptyValueOk: bool)
      requires Valid()
      modifies this, nodes
      ensures Valid() && Grown()
      ensures m == ToInternal(Embed(field, false, {}, emptyValueOk, embedded), old(m))
    {
      hide Chosen, IsDoc, Whole, Spells;
      ghost var h := TopOf();
      var sub := Gather(embedded);
      assert OnlyTop(h, nodes, root);
      if sub.m == map[] {
        if emptyValueOk {
          root.m := root.m[field := Leaf(Null)];
        }
        NothingSpells(h, nodes, root, m, field, embedded, emptyValueOk);
      } else {
        root.m := root.m[field := Sub(sub)];
        PackedSpells(h, nodes, root, m, field, embedded, sub);
        nodes := nodes + {sub};
        assert Chosen(m, embedded).Keys != {};
      }
      m := ToInternal(Embed(field, false, {}, emptyValueOk, embedded), m);
    }

    method From(mapper: Mapper)
      requires Valid()
      modifies this, nodes
      ensures Valid() && Grown() && m == FromInternal(mapper, old(m))
    {
      match mapper
      case Move(from, to, _, _, _) => MoveValue(from, to);
      case Embed(field, _, _, _, embedded) => Unpack(field, embedded);
    }

    method To(mapper: Mapper)
      requires Valid()
      modifies this, nodes
      ensures Valid() && Grown() && m == ToInternal(mapper, old(m))
    {
      match mapper
      case Move(from, to, _, _, _) => MoveValue(to, from);
      case Embed(field, _, _, emptyValueOk, embedded) => Pack(field, embedded, emptyValueOk);
    }

    /** Mappers.FromInternal */
    method AllFrom(mappers: seq<Mapper>)
      requires Valid()
      modifies this, nodes
      ensures Valid() && Grown() && m == ChainFrom(mappers, old(m))
    {
      for i := 0 to |mappers|
        invariant Valid() && Grown()
        invariant ChainFrom(mappers, old(m)) == ChainFrom(mappers[i..], m)
      {
        From(mappers[i]);
        assert mappers[i..][1..] == mappers[i + 1..];
      }
    }

    /** Mappers.ToInternal: from the last one to the first. */
    method AllTo(mappers: seq<Mapper>)
      requires Valid()
      modifies this, nodes
      ensures Valid() && Grown() && m == ChainTo(mappers, old(m))
    {
      var i := |mappers|;
      while i > 0
        invariant Valid() && Grown()
        invariant 0 <= i <= |mappers| && m == ChainTo(mappers[i..], old(m))
      {
        i := i - 1;
        assert mappers[i..][1..] == mappers[i + 1..];
        To(mappers[i]);
      }
      assert mappers[0..] == mappers;
    }
  }

  // -------- chains --------

  function ChainFrom(ms: seq<Mapper>, d: Record): Record {
    if ms == [] then d else ChainFrom(ms[1..], FromInternal(ms[0], d))
  }

  function ChainTo(ms: seq<Mapper>, d: Record): Record {
    if ms == [] then d else ToInternal(ms[0], ChainTo(ms[1..], d))
  }

  /** What an embedded field has to hold for the embedding to be undone. */
  predicate Unpackable(d: Record, field: string, embedded: set<string>, emptyValueOk: bool) {
    if field in d then
      || (d[field].Obj? && d[field].fields != map[] && d[field].fields.Keys <= embedded - {field})
      || (d[field].Null? && emptyValueOk)
    else !emptyValueOk
  }

  predicate Fits(m: Mapper, d: Record) {
    match m
    case Move(from, to, _, _, _) => Undoable(d, Segments(from), Segments(to))
    case Embed(field, _, _, emptyValueOk, embedded) =>
      && d.Keys !! embedded - {field}
      && Unpackable(d, field, embedded, emptyValueOk)
  }

  /** ToInternal undoes FromInternal exactly when: a move is undoable; an embedded field holds a map with
      nothing but embedded fields, and at least one of them, none of which is there already. */
  lemma UndoneExactlyWhen(m: Mapper, d: Record)
    ensures ToInternal(m, FromInternal(m, d)) == d <==> Fits(m, d)
  {
    match m
    case Move(from, to, _, _, _) => MoveUndoneExactlyWhen(d, Segments(from), Segments(to));
    case Embed(_, _, _, _, _) => EmbedUndone(m, d);
  }

  lemma EmbedUndone(m: Mapper, d: Record)
    requires m.Embed?
    ensures ToInternal(m, FromInternal(m, d)) == d <==> Fits(m, d)
  {
    var s := ToMap(Field(d, m.field));
    var x := FromInternal(m, d);
    var sub := Chosen(x, m.embedded);
    var e := ToInternal(m, x);
    if e == d {
      assert sub == map[] || d[m.field] == Obj(sub);
    }
    if Fits(m, d) {
      assert sub == s;
      assert e == d;
    }
  }

  /** Every mapper fits the data that reaches it. */
  predicate ChainFits(ms: seq<Mapper>, d: Record) {
    ms != [] ==> Fits(ms[0], d) && ChainFits(ms[1..], FromInternal(ms[0], d))
  }

  /** A chain taken backwards undoes what it did. */
  lemma {:induction false} ChainUndone(ms: seq<Mapper>, d: Record)
    requires ChainFits(ms, d)
    ensures ChainTo(ms, ChainFrom(ms, d)) == d
  {
    if ms != [] {
      ChainUndone(ms[1..], FromInternal(ms[0], d));
      UndoneExactlyWhen(ms[0], d);
    }
  }

  // -------- schemas --------

  /** The fields of a schema, with the names of their types. */
  type Fields = map<string, string>

  /** The other schemas. */
  type Table = map<string, Fields>

  datatype Modified = Rejected | Accepted(mapper: Mapper, fields: Fields)

  /** ModifySchema; a move between nested schemas is not part of this model. */
  function ModifySchema(m: Mapper, fields: Fields, table: Table): Modified
    requires m.Move? ==> '/' !in m.from && '/' !in m.to
  {
    match m
    case Move(from, to, optional, destDefined, keepFromField) =>
      if from !in fields then (if optional then Accepted(m, fields) else Rejected)
      else if to in fields && !destDefined then Rejected
      else
        var left := if keepFromField then fields else fields - {from};
        Accepted(m, if destDefined then left else left[to := fields[from]])
    case Embed(field, optional, ignored, _, _) =>
      if field !in fields || fields[field] !in table then
        (if optional then Accepted(if field in fields then m.(embedded := {}) else m, fields) else Rejected)
      else
        var sub := table[fields[field]] - ignored;
        if sub.Keys !! fields.Keys - {field} then
          Accepted(m.(embedded := sub.Keys), (if field in sub then fields else fields - {field}) + sub)
        else Rejected
  }

  function MovedField(m: Mapper, fields: Fields, f: string): Option<string>
    requires m.Move?
  {
    if m.from !in fields then Find(fields, f)
    else if f == m.to && !m.destDefined then Some(fields[m.from])
    else if f == m.from && !m.keepFromField then None
    else Find(fields, f)
  }

  /** Exactly when a move accepts a schema, and what the schema has then: the moved field under its new name, with
      its type, and every other field as it was. */
  lemma MoveAcceptsExactlyWhen(m: Mapper, fields: Fields, table: Table)
    requires m.Move? && '/' !in m.from && '/' !in m.to
    ensures var r := ModifySchema(m, fields, table);
      && (r.Accepted? <==>
            (m.from in fields ==> m.to !in fields || m.destDefined) && (m.from !in fields ==> m.optional))
      && (r.Accepted? ==> r.mapper == m && forall f :: Find(r.fields, f) == MovedField(m, fields, f))
  {
  }

  /** Exactly when an embedding accepts a schema, and what the schema has then: the fields of the embedded schema
      that are not ignored, instead of the field, and every other field as it was. */
  lemma EmbedAcceptsExactlyWhen(m: Mapper, fields: Fields, table: Table)
    requires m.Embed?
    ensures var r := ModifySchema(m, fields, table);
      if m.field in fields && fields[m.field] in table then
        var sub := table[fields[m.field]];
        && (r.Accepted? <==> forall f :: f in sub && f in fields && f != m.field ==> f in m.ignored)
        && (r.Accepted? ==>
            && r.mapper == m.(embedded := sub.Keys - m.ignored)
            && forall f :: Find(r.fields, f) == EmbeddedField(m, fields, sub, f))
      else
        (r.Accepted? <==> m.optional) && (r.Accepted? ==> r.fields == fields)
  {
    if m.field in fields && fields[m.field] in table {
      var sub := table[fields[m.field]] - m.ignored;
      var clash := sub.Keys * (fields.Keys - {m.field});
      assert clash == {} <==> sub.Keys !! fields.Keys - {m.field};
      assert forall f :: f in clash <==> f in sub && f in fields && f != m.field;
    }
  }

  function EmbeddedField(m: Mapper, fields: Fields, sub: Fields, f: string): Option<string>
    requires m.Embed?
  {
    if f in sub && f !in m.ignored then Some(sub[f]) else if f == m.field then None else Find(fields, f)
  }

  /** Some of the fields of an embedded schema, put among those of another. */
  function Joined(before: Fields, sub: Fields, names: set<string>): Fields
    requires names <= sub.Keys
  {
    before + map k | k in names :: sub[k]
  }

  lemma JoinedOneMore(before: Fields, sub: Fields, names: set<string>, name: string)
    requires names <= sub.Keys && name in sub
    ensures Joined(before, sub, names)[name := sub[name]] == Joined(before, sub, names + {name})
  {
  }

  lemma JoinedAll(before: Fields, sub: Fields, ignored: set<string>, field: string)
    ensures var all := Joined(before, sub, sub.Keys - ignored);
      (if field in sub && field !in ignored then all else all - {field}) ==
        (if field in sub - ignored then before else before - {field}) + (sub - ignored)
  {
  }

  /** The fields of the embedded schema, in any order: the schema ends up with them, or with an error. */
  method EmbedFields(field: string, ignored: set<string>, sub: Fields, before: Fields)
    returns (ok: bool, fields: Fields, embedded: set<string>)
    ensures ok <==> forall k :: k in sub && k !in ignored && k in before ==> k == field
    ensures ok ==> embedded == sub.Keys - ignored
    ensures ok ==> fields == (if field in sub - ignored then before else before - {field}) + (sub - ignored)
  {
    hide Joined;
    fields, embedded := before, {};
    assert fields == Joined(before, sub, embedded) by {
      JoinedNone(before, sub);
    }
    var deleteField := true;
    var todo := sub.Keys;
    while todo != {}
      invariant todo <= sub.Keys && forall k :: k in embedded <==> k in sub && k !in todo && k !in ignored
      invariant forall k :: k in embedded && k in before ==> k == field
      invariant fields == Joined(before, sub, embedded)
      invariant forall k :: k in fields <==> k in before || k in embedded
      invariant deleteField <==> field !in embedded
      decreases |todo|
    {
      var name :| name in todo;
      todo := todo - {name};
      if name in ignored {
        continue;
      }
      if name == field {
        deleteField := false;
      } else if name in fields {
        ok := false;
        return;
      }
      JoinedOneMore(before, sub, embedded, name);
      fields := fields[name := sub[name]];
      embedded := embedded + {name};
    }
    JoinedAll(before, sub, ignored, field);
    assert embedded == sub.Keys - ignored;
    if deleteField {
      fields := fields - {field};
    }
    ok := true;
  }

  lemma JoinedNone(before: Fields, sub: Fields)
    ensures Joined(before, sub, {}) == before
  {
  }

  function ModifyAll(ms: seq<Mapper>, fields: Fields, table: Table): (r: Option<(seq<Mapper>, Fields)>)
    requires Plain(ms)
    ensures r.Some? ==> |r.value.0| == |ms|
  {
    if ms == [] then Some(([], fields))
    else
      match ModifySchema(ms[0], fields, table)
      case Rejected => None
      case Accepted(m, after) =>
        match ModifyAll(ms[1..], after, table)
        case None => None
        case Some(r) => Some(([m] + r.0, r.1))
  }

  /** Moves between single names. */
  predicate Plain(ms: seq<Mapper>) {
    forall m :: m in ms && m.Move? ==> '/' !in m.from && '/' !in m.to
  }

  /** None of the options under which a schema is accepted although the mapper does not match it, or under
      which the mapper adds a value of its own. */
  predicate Strict(m: Mapper) {
    !m.optional && (m.Move? ==> !m.destDefined) && (m.Embed? ==> !m.emptyValueOk)
  }

  predicate Conforms(d: Record, fields: Fields, table: Table)
    decreases Obj(d), 1
  {
    d.Keys <= fields.Keys && forall k :: k in d ==> ConformsTo(d[k], fields[k], table)
  }

  predicate ConformsTo(v: Value, typeName: string, table: Table)
    decreases v, 0
  {
    if typeName in table then
      v.Obj? ==>
        && v.fields.Keys <= table[typeName].Keys
        && forall k :: k in v.fields ==> ConformsTo(v.fields[k], table[typeName][k], table)
    else if TN.IsArrayType(typeName) then
      v.List? ==> forall i :: 0 <= i < |v.items| ==> ConformsTo(v.items[i], TN.SubType(typeName), table)
    else if TN.IsMapType(typeName) then
      v.Obj? ==> forall k :: k in v.fields ==> ConformsTo(v.fields[k], TN.SubType(typeName), table)
    else true
  }

  /** Where a field is to be embedded, the data has a map with something in it, nothing that is ignored, and
      no field of the same name; or nothing at all. */
  predicate Filled(m: Mapper, d: Record) {
    m.Embed? && m.field in d ==>
      && d[m.field].Obj? && d[m.field].fields != map[]
      && d[m.field].fields.Keys !! m.ignored + {m.field}
  }

  predicate AllFilled(ms: seq<Mapper>, d: Record) {
    ms != [] ==> Filled(ms[0], d) && AllFilled(ms[1..], FromInternal(ms[0], d))
  }

  /** A strict mapper that accepts the schema fits all data that conforms to it, and makes it conform to the
      modified schema. */
  lemma AcceptedFits(m: Mapper, fields: Fields, table: Table, d: Record)
    requires Plain([m]) && Strict(m) && ModifySchema(m, fields, table).Accepted?
    requires Conforms(d, fields, table) && Filled(ModifySchema(m, fields, table).mapper, d)
    ensures var r := ModifySchema(m, fields, table);
      Fits(r.mapper, d) && Conforms(FromInternal(r.mapper, d), r.fields, table)
  {
    var r := ModifySchema(m, fields, table);
    match m
    case Move(from, to, _, _, _) =>
      assert m in [m];
      assert Segments(from) == [from] && Segments(to) == [to];
    case Embed(field, _, ignored, _, _) =>
      if field in d {
        assert ConformsTo(d[field], fields[field], table);
      }
  }

  /** A chain of strict mappers that accepts a schema is undone by its reverse on all data of that schema,
      and the data in between conforms to the modified schema. */
  lemma {:induction false} AcceptedChainFits(ms: seq<Mapper>, fields: Fields, table: Table, d: Record)
    requires Plain(ms) && (forall m :: m in ms ==> Strict(m)) && ModifyAll(ms, fields, table).Some?
    requires Conforms(d, fields, table) && AllFilled(ModifyAll(ms, fields, table).value.0, d)
    ensures var (done, after) := ModifyAll(ms, fields, table).value;
      && ChainFits(done, d) && ChainTo(done, ChainFrom(done, d)) == d
      && Conforms(ChainFrom(done, d), after, table)
  {
    var (done, after) := ModifyAll(ms, fields, table).value;
    if ms != [] {
      assert ms[0] in ms && Plain([ms[0]]);
      var r := ModifySchema(ms[0], fields, table);
      assert done[0] == r.mapper && done[1..] == ModifyAll(ms[1..], r.fields, table).value.0;
      AcceptedFits(ms[0], fields, table, d);
      AcceptedChainFits(ms[1..], r.fields, table, FromInternal(r.mapper, d));
    }
    ChainUndone(done, d);
  }

  /** An optional move whose source is not in the schema is accepted, but what is at its target is taken for
      moved and carried off to the source; an optional embedding of a field without a schema loses the field. */
  lemma OptionalIsNotUndone(from: string, to: string, v: Value)
    requires from != to && '/' !in from && '/' !in to
    ensures var m := Move(from, to, true, false, false);
      && ModifySchema(m, map[to := "string"], map[]) == Accepted(m, map[to := "string"])
      && ToInternal(m, FromInternal(m, map[to := v])) == map[from := v]
    ensures var m := Embed(from, true, {}, false, {});
      && ModifySchema(m, map[from := "string"], map[]) == Accepted(m, map[from := "string"])
      && ToInternal(m, FromInternal(m, map[from := v])) == map[]
  {
    assert Segments(from) == [from] && Segments(to) == [to];
    var d: Record := map[to := v];
    assert d - {to} == map[];
  }
}
