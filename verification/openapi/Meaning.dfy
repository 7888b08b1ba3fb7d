/** What the OpenAPI schema says: which JSON values it admits, against which values the table of schemas means. */
module Meaning {
  import opened Common
  import opened TypeNames
  import opened OpenApi
  import opened Unfolding

  /** A JSON value. */
  datatype Json =
    | Nil
    | Truth(b: bool)
    | Number(x: real)
    | Text(s: string)
    | Items(items: seq<Json>)
    | Fields(fields: map<string, Json>)

  predicate Integral(v: Json) {
    v.Number? && v.x == v.x.Floor as real
  }

  // -------- regular expressions --------

  /** What of regular expressions is needed here: which patterns match, which texts are sound classes of characters
      when they stand between brackets, and what is in those. */
  datatype Patterns = Patterns(matches: (string, string) -> bool, isClass: string -> bool,
                               inClass: (string, char) -> bool)
  {
    function Only(chars: string): string { "^[" + chars + "]*$" }

    ghost predicate Sound() {
      forall c, s {:trigger matches(Only(c), s)} ::
        isClass(c) ==> (matches(Only(c), s) <==> forall ch :: ch in s ==> inClass(c, ch))
    }

    /** The text is made of these characters; what is no class is taken at its word. */
    predicate MadeOf(chars: string, s: string) {
      if isClass(chars) then forall ch :: ch in s ==> inClass(chars, ch) else matches(Only(chars), s)
    }
  }

  // -------- what a node admits --------

  predicate AtLeast(low: Option<int>, x: real) {
    low.Some? ==> low.value as real <= x
  }

  predicate AtMost(high: Option<int>, x: real) {
    high.Some? ==> x <= high.value as real
  }

  predicate KindAdmits(p: Props, v: Json) {
    && (p.intOrString ==> v.Text? || Integral(v))
    && match p.kind
       case "" => true
       case "object" => v.Fields?
       case "array" => v.Items?
       case "string" => v.Text?
       case "boolean" => v.Truth?
       case "integer" => Integral(v)
       case "number" => v.Number?
       case _ => false
  }

  /** The value is valid for a structural schema, and nothing of it is a field the schema does not know. */
  predicate Admits(rx: Patterns, p: Props, v: Json)
    decreases v
  {
    match v
    case Nil => p.nullable
    case Truth(_) => KindAdmits(p, v) && p.enums == []
    case Number(x) => KindAdmits(p, v) && p.enums == [] && AtLeast(p.minimum, x) && AtMost(p.maximum, x)
    case Text(s) =>
      && KindAdmits(p, v) && (p.enums != [] ==> s in p.enums) && (p.pattern != "" ==> rx.matches(p.pattern, s))
      && AtLeast(p.minLength, |s| as real) && AtMost(p.maxLength, |s| as real)
    case Items(items) =>
      && KindAdmits(p, v) && p.enums == []
      && (p.items.Some? ==> forall i :: 0 <= i < |items| ==> Admits(rx, p.items.value, items[i]))
    case Fields(fields) =>
      && KindAdmits(p, v) && p.enums == [] && (forall n :: n in p.required ==> n in fields)
      && forall k :: k in fields ==>
          if p.properties.Some? && k in p.properties.value then Admits(rx, p.properties.value[k], fields[k])
          else if p.additional.Some? then Admits(rx, p.additional.value, fields[k])
          else p.preserve
  }

  // -------- what the table means --------

  /** The types that take null of themselves. */
  predicate TakesNull(typeName: string) {
    || IsReferenceType(typeName) || IsArrayType(typeName) || IsMapType(typeName)
    || typeName in {"string", "date", "enum", "base64", "password", "hostname"}
  }

  /** The value is one of the type.  The IDs above, where there are any, are those of the schemas around it: of
      an object of one of those nothing is known but that it is an object. */
  predicate IsOf(rx: Patterns, t: Schemas, typeName: string, above: Option<set<string>>, v: Json)
    decreases v, 1
  {
    if v.Nil? then TakesNull(typeName)
    else if IsReferenceType(typeName) then v.Text?
    else if IsArrayType(typeName) then
      v.Items? && forall i :: 0 <= i < |v.items| ==> IsOf(rx, t, SubType(typeName), above, v.items[i])
    else if IsMapType(typeName) then
      && v.Fields?
      && (SubType(typeName) != "json" ==>
            forall k :: k in v.fields ==> IsOf(rx, t, SubType(typeName), above, v.fields[k]))
    else match typeName
      case "int" => Integral(v)
      case "float" => v.Number?
      case "boolean" => v.Truth?
      case "intOrString" => v.Text? || Integral(v)
      case "json" => v.Fields?
      case "string" => v.Text?
      case "date" => v.Text?
      case "enum" => v.Text?
      case "base64" => v.Text?
      case "password" => v.Text?
      case "hostname" => v.Text?
      case _ =>
        match Lookup(t, typeName)
        case None => false
        case Some(s) => IsObject(rx, t, if s.internalSchema.Some? then s.internalSchema.value else s, above, v)
  }

  /** The attributes of a field that restrict its texts and its numbers. */
  predicate Allowed(rx: Patterns, f: Field, v: Json) {
    && (v.Number? ==> AtLeast(f.min, v.x) && AtMost(f.max, v.x))
    && (v.Text? ==>
        && AtLeast(f.minLength, |v.s| as real) && AtMost(f.maxLength, |v.s| as real)
        && (f.typeName == "string" && f.options != [] ==> v.s == "" || v.s in f.options)
        && if f.validChars != "" then rx.MadeOf(f.validChars, v.s)
           else f.invalidChars != "" ==> rx.MadeOf("^" + f.invalidChars, v.s))
  }

  predicate IsField(rx: Patterns, t: Schemas, f: Field, above: Option<set<string>>, v: Json)
    decreases v, 2
  {
    if v.Nil? then f.nullable || TakesNull(f.typeName)
    else IsOf(rx, t, f.typeName, above, v) && Allowed(rx, f, v)
  }

  function Under(above: Option<set<string>>, id: string): Option<set<string>> {
    if above.Some? then Some(above.value + {id}) else None
  }

  /** An object of a schema: required fields are there, known fields are as they should be, and there are no
      others, except in a schema without fields whose name says that it is a map. */
  predicate IsObject(rx: Patterns, t: Schemas, s: Schema, above: Option<set<string>>, v: Json)
    decreases v, 0
  {
    && v.Fields?
    && if above.Some? && s.id in above.value then v.fields == map[]
       else
         && (forall n :: n in s.fields && s.fields[n].required ==> n in v.fields)
         && forall k :: k in v.fields ==>
             if k in s.fields then IsField(rx, t, s.fields[k], Under(above, s.id), v.fields[k])
             else s.fields == map[] && CalledMap(s.id)
  }

  /** The name ends in "map", in small letters or capitals. */
  predicate CalledMap(name: string) {
    var n := |name|;
    n >= 3 && name[n - 3] in {'m', 'M'} && name[n - 2] in {'a', 'A'} && name[n - 1] in {'p', 'P'}
  }

  lemma {:induction false} FoldedLetters(s: string)
    ensures |Fold(s)| == |s|
    ensures forall i :: 0 <= i < |s| ==> Fold(s)[i] == Small(s[i])
  {
    if s != [] {
      FoldedLetters(s[1..]);
    }
  }

  lemma SmallLetters(c: char)
    ensures Small(c) == 'm' <==> c in {'m', 'M'}
    ensures Small(c) == 'a' <==> c in {'a', 'A'}
    ensures Small(c) == 'p' <==> c in {'p', 'P'}
  {
  }

  lemma EndIs(s: string)
    requires |s| >= 3
    ensures s[|s| - 3..] == "map" <==> s[|s| - 3] == 'm' && s[|s| - 2] == 'a' && s[|s| - 1] == 'p'
  {
    assert s[|s| - 3..] == [s[|s| - 3], s[|s| - 2], s[|s| - 1]];
    assert "map" == ['m', 'a', 'p'];
  }

  lemma CalledMapIs(name: string)
    ensures CalledMap(name) <==> EndsInMap(name)
  {
    hide Fold, Small;
    FoldedLetters(name);
    if |name| >= 3 {
      EndIs(Fold(name));
      SmallLetters(name[|name| - 3]);
      SmallLetters(name[|name| - 2]);
      SmallLetters(name[|name| - 1]);
    }
  }

  // -------- the schema admits what the table means --------

  /** A type alone restricts nothing that a field may restrict. */
  predicate Unrestricted(p: Props) {
    && p.enums == [] && p.pattern == "" && p.minimum == None && p.maximum == None
    && p.minLength == None && p.maxLength == None && p.default == None
  }

  lemma TypeIsUnrestricted(t: Schemas, typeName: string, inflight: set<string>)
    requires TypeToProps(t, typeName, inflight).Ok?
    ensures Unrestricted(TypeToProps(t, typeName, inflight).value)
  {
    hide Ids, Reachable;
  }

  lemma PlainAdmits(rx: Patterns, t: Schemas, typeName: string, above: Option<set<string>>, v: Json)
    requires TypeAndSchema(t, typeName).Plain?
    ensures Admits(rx, PlainProps(TypeAndSchema(t, typeName).kind), v) <==> IsOf(rx, t, typeName, above, v)
  {
    hide Lookup, Reachable, Ids;
    if !IsReferenceType(typeName) {
      assert typeName in SCALARS;
    }
  }

  /** One step into a wrapped type, or to the schema of its name. */
  ghost predicate Steps(rx: Patterns, t: Schemas, typeName: string, above: Option<set<string>>, v: Json) {
    match TypeAndSchema(t, typeName)
    case ArrayOf(sub) =>
      IsOf(rx, t, typeName, above, v) <==>
        v.Nil? || (v.Items? && forall i :: 0 <= i < |v.items| ==> IsOf(rx, t, sub, above, v.items[i]))
    case MapOf(sub) =>
      IsOf(rx, t, typeName, above, v) <==>
        v.Nil? || (v.Fields? && (sub != "json" ==> forall k :: k in v.fields ==> IsOf(rx, t, sub, above, v.fields[k])))
    case Of(s) => IsOf(rx, t, typeName, above, v) <==> IsObject(rx, t, s, above, v)
    case _ => true
  }

  lemma StepsInto(rx: Patterns, t: Schemas, typeName: string, above: Option<set<string>>, v: Json)
    ensures Steps(rx, t, typeName, above, v)
  {
    hide IsObject, Lookup, Reachable, Ids;
    var m := TypeAndSchema(t, typeName);
    if m.Of? {
      assert typeName !in SCALARS;
      if v.Nil? { NilIsNoObject(rx, t, m.schema, above); }
    }
  }

  lemma NilIsNoObject(rx: Patterns, t: Schemas, s: Schema, above: Option<set<string>>)
    ensures !IsObject(rx, t, s, above, Nil)
  {
  }

  /** Any table: the unfolded type admits exactly the values of the type, where an object of a schema in which it
      lies is only known to be an object. */
  lemma {:induction false} TypeAdmits(rx: Patterns, t: Schemas, typeName: string, inflight: set<string>, v: Json)
    requires rx.Sound() && TypeToProps(t, typeName, inflight).Ok?
    ensures Admits(rx, TypeToProps(t, typeName, inflight).value, v) <==> IsOf(rx, t, typeName, Some(inflight), v)
    decreases v, 1
  {
    hide Ids, Reachable, IsOf, TakesNull, SchemaToProps, TypeAndSchema, PlainProps;
    StepsInto(rx, t, typeName, Some(inflight), v);
    match TypeAndSchema(t, typeName)
    case Of(s) => SchemaAdmits(rx, t, s, inflight, v);
    case MapOf(sub) =>
      if v.Fields? && sub != "json" {
        forall k | k in v.fields
          ensures Admits(rx, TypeToProps(t, sub, inflight).value, v.fields[k]) <==>
            IsOf(rx, t, sub, Some(inflight), v.fields[k])
        {
          TypeAdmits(rx, t, sub, inflight, v.fields[k]);
        }
      }
    case ArrayOf(sub) =>
      if v.Items? {
        forall i | 0 <= i < |v.items|
          ensures Admits(rx, TypeToProps(t, sub, inflight).value, v.items[i]) <==>
            IsOf(rx, t, sub, Some(inflight), v.items[i])
        {
          TypeAdmits(rx, t, sub, inflight, v.items[i]);
        }
      }
    case Plain(_) => PlainAdmits(rx, t, typeName, Some(inflight), v);
    case Unknown =>
  }

  lemma FieldAdmits(rx: Patterns, t: Schemas, f: Field, p: Props, above: Option<set<string>>, v: Json)
    requires rx.Sound() && Unrestricted(p) && Populated(p, f).Ok?
    requires Admits(rx, p, v) <==> IsOf(rx, t, f.typeName, above, v)
    ensures Admits(rx, Populated(p, f).value, v) <==> IsField(rx, t, f, above, v)
  {
    hide IsOf, TakesNull;
    NilOf(rx, t, f.typeName, above);
    if f.typeName == "string" {
      StringIsText(rx, t, above, v);
    }
    if v.Text? {
      PatternAdmits(rx, f, v.s);
    }
  }

  lemma NilOf(rx: Patterns, t: Schemas, typeName: string, above: Option<set<string>>)
    ensures IsOf(rx, t, typeName, above, Nil) <==> TakesNull(typeName)
  {
  }

  lemma StringIsText(rx: Patterns, t: Schemas, above: Option<set<string>>, v: Json)
    ensures IsOf(rx, t, "string", above, v) <==> v.Nil? || v.Text?
  {
  }

  lemma PatternAdmits(rx: Patterns, f: Field, s: string)
    requires rx.Sound()
    ensures var pattern := Pattern(f, "");
      (pattern != "" ==> rx.matches(pattern, s)) <==>
        if f.validChars != "" then rx.MadeOf(f.validChars, s)
        else f.invalidChars != "" ==> rx.MadeOf("^" + f.invalidChars, s)
  {
    assert rx.Only(f.validChars) == "^[" + f.validChars + "]*$";
    assert rx.Only("^" + f.invalidChars) == "^[^" + f.invalidChars + "]*$";
    MadeOfIs(rx, f.validChars, s);
    MadeOfIs(rx, "^" + f.invalidChars, s);
  }

  lemma MadeOfIs(rx: Patterns, chars: string, s: string)
    requires rx.Sound()
    ensures rx.matches(rx.Only(chars), s) <==> rx.MadeOf(chars, s)
  {
  }

  lemma {:induction false} SchemaAdmits(rx: Patterns, t: Schemas, s: Schema, inflight: set<string>, v: Json)
    requires rx.Sound() && s.id in Ids(t) && SchemaToProps(t, s, inflight).Ok?
    ensures Admits(rx, SchemaToProps(t, s, inflight).value, v) <==> IsObject(rx, t, s, Some(inflight), v)
    decreases v, 0
  {
    hide Ids, Reachable, TypeToProps, IsField, Populated, EndsInMap, CalledMap;
    CalledMapIs(s.id);
    if v.Fields? && s.id !in inflight {
      var p := SchemaToProps(t, s, inflight).value;
      forall k | k in v.fields && k in s.fields
        ensures p.properties.Some? && k in p.properties.value
        ensures Admits(rx, p.properties.value[k], v.fields[k]) <==>
                IsField(rx, t, s.fields[k], Some(inflight + {s.id}), v.fields[k])
      {
        PropertyOf(t, s, inflight, k);
        var base := TypeToProps(t, s.fields[k].typeName, inflight + {s.id});
        TypeAdmits(rx, t, s.fields[k].typeName, inflight + {s.id}, v.fields[k]);
        TypeIsUnrestricted(t, s.fields[k].typeName, inflight + {s.id});
        FieldAdmits(rx, t, s.fields[k], base.value, Some(inflight + {s.id}), v.fields[k]);
      }
      PropertiesOf(t, s, inflight);
    }
  }

  /** What becomes of a field. */
  lemma PropertyOf(t: Schemas, s: Schema, inflight: set<string>, n: string)
    requires s.id in Ids(t) && s.id !in inflight && SchemaToProps(t, s, inflight).Ok? && n in s.fields
    ensures TypeToProps(t, s.fields[n].typeName, inflight + {s.id}).Ok?
    ensures var p := SchemaToProps(t, s, inflight).value;
      p.properties.Some? && n in p.properties.value &&
      Populated(TypeToProps(t, s.fields[n].typeName, inflight + {s.id}).value, s.fields[n]) == Ok(p.properties.value[n])
  {
    hide Ids, Reachable, TypeToProps, Populated;
    var fields := FieldsToProps(t, s, inflight);
    assert fields[n] == FieldToProps(t, s.fields[n], inflight + {s.id});
    assert !fields[n].Error?;
  }

  lemma PropertiesOf(t: Schemas, s: Schema, inflight: set<string>)
    requires s.id in Ids(t) && s.id !in inflight && SchemaToProps(t, s, inflight).Ok?
    ensures var p := SchemaToProps(t, s, inflight).value;
      && p.properties.Some? && p.properties.value.Keys == s.fields.Keys
      && (forall n :: n in p.required <==> n in s.fields && s.fields[n].required)
      && (p.preserve <==> s.fields == map[] && EndsInMap(s.id))
      && p.kind == "object" && !p.intOrString && p.enums == [] && p.additional.None? && !p.nullable
  {
    hide Ids, Reachable, TypeToProps, Populated, EndsInMap;
    assert SchemaToProps(t, s, inflight).value.properties.value.Keys == s.fields.Keys;
    assert s.fields == map[] <==> s.fields.Keys == {};
  }

  // -------- the other attributes --------

  /** Each field has its node, with its description and its default; the object has its own description. */
  lemma NodesSay(t: Schemas, s: Schema, inflight: set<string>, n: string)
    requires s.id in Ids(t) && s.id !in inflight && SchemaToProps(t, s, inflight).Ok? && n in s.fields
    ensures var p := SchemaToProps(t, s, inflight).value;
      && p.description == s.description && p.properties.Some? && n in p.properties.value
      && p.properties.value[n].description == s.fields[n].description
      && p.properties.value[n].default == if s.fields[n].default.Encodes? then Some(s.fields[n].default.text) else None
  {
    hide Ids, Reachable, TypeToProps;
    PropertyOf(t, s, inflight, n);
    TypeIsUnrestricted(t, s.fields[n].typeName, inflight + {s.id});
  }

  // -------- tables without circles --------

  /** Without circles no object lies in another of its schema, so nothing is cut from the meaning. */
  lemma {:induction false} UncutType(rx: Patterns, t: Schemas, rank: string -> nat, typeName: string,
                                      above: set<string>, v: Json)
    requires Acyclic(t, rank) && Above(rank, above, Height(t, rank, typeName))
    ensures IsOf(rx, t, typeName, Some(above), v) <==> IsOf(rx, t, typeName, None, v)
    decreases v, 1
  {
    hide Ids, Reachable, IsOf, TakesNull, TypeAndSchema, Acyclic;
    StepsInto(rx, t, typeName, Some(above), v);
    StepsInto(rx, t, typeName, None, v);
    match TypeAndSchema(t, typeName)
    case Of(s) =>
      assert Descends(t, rank, s) by { AllDescend(t, rank, typeName); }
      UncutObject(rx, t, rank, s, above, v);
    case MapOf(sub) =>
      if v.Fields? {
        forall k | k in v.fields
          ensures IsOf(rx, t, sub, Some(above), v.fields[k]) <==> IsOf(rx, t, sub, None, v.fields[k])
        {
          UncutType(rx, t, rank, sub, above, v.fields[k]);
        }
      }
    case ArrayOf(sub) =>
      if v.Items? {
        forall i | 0 <= i < |v.items|
          ensures IsOf(rx, t, sub, Some(above), v.items[i]) <==> IsOf(rx, t, sub, None, v.items[i])
        {
          UncutType(rx, t, rank, sub, above, v.items[i]);
        }
      }
    case Plain(_) =>
      PlainAdmits(rx, t, typeName, Some(above), v);
      PlainAdmits(rx, t, typeName, None, v);
    case Unknown =>
      UnknownIsNothing(rx, t, typeName, Some(above), v);
      UnknownIsNothing(rx, t, typeName, None, v);
  }

  lemma UnknownIsNothing(rx: Patterns, t: Schemas, typeName: string, above: Option<set<string>>, v: Json)
    requires TypeAndSchema(t, typeName).Unknown?
    ensures !IsOf(rx, t, typeName, above, v)
  {
    assert typeName !in SCALARS;
  }

  lemma AllDescend(t: Schemas, rank: string -> nat, typeName: string)
    requires Acyclic(t, rank) && TypeAndSchema(t, typeName).Of?
    ensures Descends(t, rank, TypeAndSchema(t, typeName).schema)
  {
    hide Reachable, Ids;
  }

  lemma {:induction false} UncutObject(rx: Patterns, t: Schemas, rank: string -> nat, s: Schema, above: set<string>,
                                        v: Json)
    requires Acyclic(t, rank) && Descends(t, rank, s) && Above(rank, above, rank(s.id) + 1)
    ensures IsObject(rx, t, s, Some(above), v) <==> IsObject(rx, t, s, None, v)
    decreases v, 0
  {
    hide Ids, Reachable, IsOf, TakesNull, Allowed, CalledMap, Acyclic;
    if v.Fields? {
      forall k | k in v.fields && k in s.fields
        ensures IsField(rx, t, s.fields[k], Some(above + {s.id}), v.fields[k]) <==>
          IsField(rx, t, s.fields[k], None, v.fields[k])
      {
        UncutType(rx, t, rank, s.fields[k].typeName, above + {s.id}, v.fields[k]);
      }
    }
  }

  // -------- ToOpenAPI --------

  /** The values of a named schema, at the top: the fields every Kubernetes object has are left out. */
  ghost predicate IsNamed(rx: Patterns, t: Schemas, name: string, above: Option<set<string>>, v: Json) {
    Lookup(t, name).Some? &&
    var s := Lookup(t, name).value;
    var e := if s.internalSchema.Some? then s.internalSchema.value else s;
    IsObject(rx, t, e.(fields := e.fields - {"kind", "apiVersion", "metadata"}), above, v)
  }

  /** What ToOpenAPI returns admits exactly the values of the named schema: on any table if objects inside one of
      their own schema count as unknown, and on one without circles as they stand. */
  lemma AdmitsExactly(rx: Patterns, t: Schemas, name: string, v: Json)
    requires rx.Sound() && Root(t, name).Some? && SchemaToProps(t, Root(t, name).value, {}).Ok?
    ensures var p := SchemaToProps(t, Root(t, name).value, {}).value;
      && (Admits(rx, p, v) <==> IsNamed(rx, t, name, Some({}), v))
      && forall rank: string -> nat :: Acyclic(t, rank) ==> (Admits(rx, p, v) <==> IsNamed(rx, t, name, None, v))
  {
    hide Ids, Reachable, SchemaToProps, IsObject, Admits;
    SchemaAdmits(rx, t, Root(t, name).value, {}, v);
    forall rank: string -> nat | Acyclic(t, rank)
      ensures IsNamed(rx, t, name, Some({}), v) <==> IsNamed(rx, t, name, None, v)
    {
      RootIsNaive(t, rank, name);
      UncutObject(rx, t, rank, Root(t, name).value, {}, v);
    }
  }

  // -------- errors --------

  /** The schema at the end of a path of field names. */
  function End(t: Schemas, s: Schema, path: seq<string>): Option<Schema>
    decreases |path|
  {
    if path == [] then Some(s)
    else if path[0] !in s.fields then None
    else match Core(t, s.fields[path[0]].typeName)
      case None => None
      case Some(next) => End(t, next, path[1..])
  }

  /** The type is of nothing known, inside any lists and maps. */
  predicate Undefined(t: Schemas, typeName: string)
    decreases |typeName|
  {
    if IsReferenceType(typeName) then false
    else if IsArrayType(typeName) || IsMapType(typeName) then
      SubTypeIsShorter(typeName);
      Undefined(t, SubType(typeName))
    else
      && typeName !in {"intOrString", "int", "float", "string", "date", "enum", "base64", "password", "hostname",
                       "boolean", "json"}
      && Lookup(t, typeName).None?
  }

  /** A path on which no schema repeats leads to a field that is of an unknown type, or whose default cannot be
      encoded. */
  ghost predicate LeadsToFault(t: Schemas, s: Schema, inflight: set<string>, path: seq<string>, n: string) {
    && End(t, s, path).Some? && Walk(t, s, path).Some? && !Repeats(inflight, Walk(t, s, path).value)
    && n in End(t, s, path).value.fields
    && (Undefined(t, End(t, s, path).value.fields[n].typeName) || End(t, s, path).value.fields[n].default.Unencodable?)
  }

  ghost predicate Faulty(t: Schemas, s: Schema, inflight: set<string>) {
    exists path, n :: LeadsToFault(t, s, inflight, path, n)
  }

  lemma {:induction false} TypeErrorExactlyWhen(t: Schemas, typeName: string, inflight: set<string>)
    ensures TypeToProps(t, typeName, inflight).Error? <==>
      || Undefined(t, typeName)
      || (Core(t, typeName).Some? && SchemaToProps(t, Core(t, typeName).value, inflight).Error?)
    decreases |typeName|
  {
    hide Ids, Reachable, SchemaToProps, Lookup;
    match TypeAndSchema(t, typeName)
    case MapOf(sub) => TypeErrorExactlyWhen(t, sub, inflight);
    case ArrayOf(sub) => TypeErrorExactlyWhen(t, sub, inflight);
    case _ =>
  }

  lemma FaultFurtherOn(t: Schemas, s: Schema, inflight: set<string>, path: seq<string>, n: string)
    requires path != [] && s.id !in inflight
    ensures LeadsToFault(t, s, inflight, path, n) <==>
      && path[0] in s.fields && Core(t, s.fields[path[0]].typeName).Some?
      && LeadsToFault(t, Core(t, s.fields[path[0]].typeName).value, inflight + {s.id}, path[1..], n)
  {
    hide Core, Undefined;
    if path[0] in s.fields && Core(t, s.fields[path[0]].typeName).Some? {
      var next := Core(t, s.fields[path[0]].typeName).value;
      if Walk(t, next, path[1..]).Some? {
        var tail := Walk(t, next, path[1..]).value;
        assert ([s.id] + tail)[1..] == tail;
      }
    }
  }

  lemma {:induction false} WalkStarts(t: Schemas, s: Schema, path: seq<string>)
    ensures Walk(t, s, path).Some? ==> Walk(t, s, path).value != [] && Walk(t, s, path).value[0] == s.id
  {
    hide Core;
  }

  /** The unfolding fails exactly when some field in reach, on a path without repetition, is at fault. */
  lemma {:induction false} ErrorExactlyWhen(t: Schemas, s: Schema, inflight: set<string>)
    requires s.id in Ids(t)
    ensures SchemaToProps(t, s, inflight).Error? <==> Faulty(t, s, inflight)
    decreases |Ids(t) - inflight|
  {
    hide Ids, Reachable, TypeToProps, LeadsToFault, Core, Undefined;
    if s.id in inflight {
      forall path, n ensures !LeadsToFault(t, s, inflight, path, n) {
        NoFaultBelow(t, s, inflight, path, n);
      }
    } else {
      FewerLeft(t, s.id, inflight);
      forall n | n in s.fields
        ensures FieldsToProps(t, s, inflight)[n].Error? <==> FieldAtFault(t, s, inflight, n)
      {
        var core := Core(t, s.fields[n].typeName);
        if core.Some? {
          ErrorExactlyWhen(t, core.value, inflight + {s.id});
        }
        TypeErrorExactlyWhen(t, s.fields[n].typeName, inflight + {s.id});
        assert FieldsToProps(t, s, inflight)[n] == FieldToProps(t, s.fields[n], inflight + {s.id});
      }
      FaultyFields(t, s, inflight);
    }
  }

  lemma NoFaultBelow(t: Schemas, s: Schema, inflight: set<string>, path: seq<string>, n: string)
    requires s.id in inflight
    ensures !LeadsToFault(t, s, inflight, path, n)
  {
    hide Core, Undefined;
    WalkStarts(t, s, path);
  }

  ghost predicate FieldAtFault(t: Schemas, s: Schema, inflight: set<string>, n: string)
    requires n in s.fields
  {
    || Undefined(t, s.fields[n].typeName) || s.fields[n].default.Unencodable?
    || (Core(t, s.fields[n].typeName).Some? && Faulty(t, Core(t, s.fields[n].typeName).value, inflight + {s.id}))
  }

  lemma FaultyFields(t: Schemas, s: Schema, inflight: set<string>)
    requires s.id !in inflight
    ensures Faulty(t, s, inflight) <==> exists n :: n in s.fields && FieldAtFault(t, s, inflight, n)
  {
    hide Core, Undefined, LeadsToFault;
    if path, m :| LeadsToFault(t, s, inflight, path, m) {
      if path == [] {
        FaultHere(t, s, inflight, m);
        assert FieldAtFault(t, s, inflight, m);
      } else {
        FaultFurtherOn(t, s, inflight, path, m);
        assert FieldAtFault(t, s, inflight, path[0]);
      }
    }
    if n :| n in s.fields && FieldAtFault(t, s, inflight, n) {
      FaultHere(t, s, inflight, n);
      if !LeadsToFault(t, s, inflight, [], n) {
        var next := Core(t, s.fields[n].typeName).value;
        var path, m :| LeadsToFault(t, next, inflight + {s.id}, path, m);
        assert ([n] + path)[1..] == path;
        FaultFurtherOn(t, s, inflight, [n] + path, m);
      }
    }
  }

  lemma FaultHere(t: Schemas, s: Schema, inflight: set<string>, n: string)
    requires s.id !in inflight
    ensures LeadsToFault(t, s, inflight, [], n) <==>
      n in s.fields && (Undefined(t, s.fields[n].typeName) || s.fields[n].default.Unencodable?)
  {
    hide Undefined;
    assert [s.id][1..] == [];
    assert !Repeats(inflight + {s.id}, []);
    assert !Repeats(inflight, [s.id]);
    assert Walk(t, s, []) == Some([s.id]) && End(t, s, []) == Some(s);
  }

  /** ToOpenAPI fails for an unknown name and for a fault in reach; otherwise its result admits exactly the values
      of the named schema. */
  method ToOpenAPI(t: Schemas, name: string) returns (r: Result<Props>)
    ensures r == if Root(t, name).None? then Error else SchemaToProps(t, Root(t, name).value, {})
    ensures r.Error? <==> Lookup(t, name).None? || Faulty(t, Root(t, name).value, {})
    ensures r.Ok? ==> forall rx: Patterns, v ::
      rx.Sound() ==> (Admits(rx, r.value, v) <==> IsNamed(rx, t, name, Some({}), v))
  {
    hide SchemaToProps, Faulty, Admits, IsNamed;
    var root := Root(t, name);
    if root.None? {
      return Error;
    }
    var inflight := new InFlight();
    r := SchemaToPropsOf(t, root.value, inflight);
    ErrorExactlyWhen(t, root.value, {});
    if r.Ok? {
      forall rx: Patterns, v | rx.Sound() ensures Admits(rx, r.value, v) <==> IsNamed(rx, t, name, Some({}), v) {
        AdmitsExactly(rx, t, name, v);
      }
    }
  }
}
