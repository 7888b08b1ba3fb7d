/** Type names and schemas (pkg/schemas/definition, pkg/schemas/schemas.go). */
module TypeNames {
  import opened Common

  predicate Wrapped(typeName: string, prefix: string) {
    prefix <= typeName && typeName != [] && typeName[|typeName| - 1] == ']'
  }

  predicate IsMapType(typeName: string) { Wrapped(typeName, "map[") }
  predicate IsArrayType(typeName: string) { Wrapped(typeName, "array[") }
  predicate IsReferenceType(typeName: string) { Wrapped(typeName, "reference[") }

  /** strings.Index(s, "["), or the length where there is none. */
  function Bracket(s: string): (i: nat)
    ensures i <= |s| && (i < |s| ==> s[i] == '[')
    ensures forall j :: 0 <= j < i ==> s[j] != '['
  {
    if s == [] || s[0] == '[' then 0 else 1 + Bracket(s[1..])
  }

  function SubType(typeName: string): string {
    var i := Bracket(typeName);
    if i == 0 || i >= |typeName| - 1 then typeName else typeName[i + 1..|typeName| - 1]
  }

  /** What is inside a wrapper is shorter than the whole. */
  lemma SubTypeIsShorter(typeName: string)
    requires IsMapType(typeName) || IsArrayType(typeName)
    ensures |SubType(typeName)| < |typeName|
  {
    var i := Bracket(typeName);
    if IsMapType(typeName) {
      assert typeName[..4] == "map[" && typeName[3] == '[' && i <= 3;
      assert typeName[0] == 'm';
    } else {
      assert typeName[..6] == "array[" && typeName[5] == '[' && i <= 5;
      assert typeName[0] == 'a';
    }
  }

  lemma WrappingIsUndone(typeName: string)
    ensures IsMapType("map[" + typeName + "]") && SubType("map[" + typeName + "]") == typeName
    ensures IsArrayType("array[" + typeName + "]") && SubType("array[" + typeName + "]") == typeName
    ensures IsReferenceType("reference[" + typeName + "]")
  {
    BracketAt("map", typeName + "]");
    BracketAt("array", typeName + "]");
    assert "map[" + typeName + "]" == "map" + "[" + (typeName + "]");
    assert "array[" + typeName + "]" == "array" + "[" + (typeName + "]");
  }

  lemma {:induction false} BracketAt(before: string, after: string)
    requires '[' !in before
    ensures Bracket(before + "[" + after) == |before|
  {
    if before != [] {
      assert (before + "[" + after)[1..] == before[1..] + "[" + after;
      BracketAt(before[1..], after);
    }
  }

  // -------- schemas --------

  datatype Default = NoDefault | Encodes(text: string) | Unencodable

  datatype Field = Field(typeName: string, description: string, nullable: bool, required: bool,
                         minLength: Option<int>, maxLength: Option<int>, min: Option<int>, max: Option<int>,
                         options: seq<string>, validChars: string, invalidChars: string, default: Default)

  datatype Schema = Schema(id: string, pluralName: string, description: string, fields: map<string, Field>,
                           internalSchema: Option<Schema>)

  /** Schemas: by ID, and in the order in which they were added. */
  datatype Schemas = Schemas(byID: map<string, Schema>, list: seq<Schema>)

  function Small(c: char): char {
    if 'A' <= c <= 'Z' then (c as int + 32) as char else c
  }

  function Fold(s: string): string {
    if s == [] then []
    else [Small(s[0])] + Fold(s[1..])
  }

  function Search(list: seq<Schema>, name: string): Option<Schema> {
    if list == [] then None
    else if Fold(list[0].id) == Fold(name) || Fold(list[0].pluralName) == Fold(name) then Some(list[0])
    else Search(list[1..], name)
  }

  /** doSchema: by exact ID, then by ID or plural name in any case. */
  function Lookup(t: Schemas, name: string): (r: Option<Schema>)
    ensures r.Some? ==> (exists id :: id in t.byID && t.byID[id] == r.value) || r.value in t.list
  {
    if name in t.byID then Some(t.byID[name])
    else
      SearchFinds(t.list, name);
      Search(t.list, name)
  }

  lemma {:induction false} SearchFinds(list: seq<Schema>, name: string)
    ensures Search(list, name).Some? ==> Search(list, name).value in list
  {
    if list != [] {
      SearchFinds(list[1..], name);
    }
  }

  /** The ID or the plural name reads like the name, whatever the case. */
  predicate Answers(s: Schema, name: string) {
    Alike(s.id, name) || Alike(s.pluralName, name)
  }

  /** The same letters, small or capital. */
  predicate Alike(a: string, b: string) {
    |a| == |b| && forall i :: 0 <= i < |a| ==>
      || a[i] == b[i]
      || ('A' <= a[i] <= 'Z' && b[i] as int == a[i] as int + 32)
      || ('A' <= b[i] <= 'Z' && a[i] as int == b[i] as int + 32)
  }

  lemma {:induction false} FoldedAlike(a: string, b: string)
    ensures Fold(a) == Fold(b) <==> Alike(a, b)
  {
    if a != [] && b != [] {
      FoldedAlike(a[1..], b[1..]);
      assert forall i :: 0 < i < |a| ==> a[i] == a[1..][i - 1];
      assert forall i :: 0 < i < |b| ==> b[i] == b[1..][i - 1];
      assert Fold(a)[1..] == Fold(a[1..]) && Fold(b)[1..] == Fold(b[1..]);
      if Fold(a) == Fold(b) {
        assert Fold(a)[0] == Fold(b)[0];
      }
    }
  }

  /** An exact ID goes before everything; otherwise it is the first schema on the list that answers to the name. */
  lemma LookupFindsExactly(t: Schemas, name: string, s: Schema)
    ensures name in t.byID ==> Lookup(t, name) == Some(t.byID[name])
    ensures name !in t.byID ==>
      (Lookup(t, name) == Some(s) <==>
        exists i :: 0 <= i < |t.list| && t.list[i] == s && Answers(s, name) &&
          forall j :: 0 <= j < i ==> !Answers(t.list[j], name))
  {
    if name !in t.byID {
      SearchFindsExactly(t.list, name, s);
    }
  }

  lemma {:induction false} SearchFindsExactly(list: seq<Schema>, name: string, s: Schema)
    ensures Search(list, name) == Some(s) <==>
      exists i :: 0 <= i < |list| && list[i] == s && Answers(s, name) &&
        forall j :: 0 <= j < i ==> !Answers(list[j], name)
  {
    hide Fold, Alike;
    if list != [] {
      FoldedAlike(list[0].id, name);
      FoldedAlike(list[0].pluralName, name);
      SearchFindsExactly(list[1..], name, s);
      if Answers(list[0], name) {
        if s == list[0] {
          assert list[0] == s && Answers(s, name);
        }
      } else {
        if i :| 0 <= i < |list| && list[i] == s && Answers(s, name) &&
                (forall j :: 0 <= j < i ==> !Answers(list[j], name))
        {
          assert list[1..][i - 1] == s;
          assert forall j :: 0 <= j < i - 1 ==> list[1..][j] == list[j + 1];
        }
        if i :| 0 <= i < |list[1..]| && list[1..][i] == s && Answers(s, name) &&
                forall j :: 0 <= j < i ==> !Answers(list[1..][j], name) {
          assert list[i + 1] == s;
          assert forall j :: 0 < j < i + 1 ==> list[j] == list[1..][j - 1];
        }
      }
    }
  }

  function Effective(s: Schema): Schema {
    if s.internalSchema.Some? then s.internalSchema.value else s
  }

  /** Every schema a type name can lead to. */
  function Reachable(t: Schemas): set<Schema> {
    (set id | id in t.byID :: Effective(t.byID[id])) + (set s | s in t.list :: Effective(s))
  }

  function Ids(t: Schemas): set<string> {
    set s | s in Reachable(t) :: s.id
  }
}
