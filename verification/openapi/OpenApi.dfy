/** Unfolding a table of schemas, which may refer to each other in circles, into one finite OpenAPI
    schema (pkg/schemas/openapi/generate.go). */
module OpenApi {
  import opened Common
  import opened TypeNames

  datatype Props = Props(
    description: string, kind: string, nullable: bool, required: set<string>,
    properties: Option<map<string, Props>>, additional: Option<Props>, items: Option<Props>,
    preserve: bool, intOrString: bool,
    minLength: Option<int>, maxLength: Option<int>, enums: seq<string>, pattern: string,
    minimum: Option<int>, maximum: Option<int>, default: Option<string>)

  datatype Result<T> = Ok(value: T) | Error

  const BLANK := Props("", "", false, {}, None, None, None, false, false, None, None, [], "", None, None, None)

  function Object(description: string): Props {
    BLANK.(description := description, kind := "object")
  }

  // -------- typeAndSchema --------

  datatype Meaning =
    | Plain(kind: string)
    | MapOf(sub: string)
    | ArrayOf(sub: string)
    | Of(schema: Schema)
    | Unknown

  const SCALARS: map<string, string> := map[
    "intOrString" := "intOrString", "int" := "integer", "float" := "number", "string" := "string",
    "date" := "string", "enum" := "string", "base64" := "string", "password" := "string",
    "hostname" := "string", "boolean" := "boolean", "json" := "object"]

  function TypeAndSchema(t: Schemas, typeName: string): (m: Meaning)
    ensures m.Of? ==> m.schema in Reachable(t) && m.schema.id in Ids(t)
    ensures m.MapOf? || m.ArrayOf? ==> |m.sub| < |typeName|
  {
    if IsReferenceType(typeName) then Plain("string")
    else if IsArrayType(typeName) then SubTypeIsShorter(typeName); ArrayOf(SubType(typeName))
    else if IsMapType(typeName) then SubTypeIsShorter(typeName); MapOf(SubType(typeName))
    else if typeName in SCALARS then Plain(SCALARS[typeName])
    else match Lookup(t, typeName)
      case None => Unknown
      case Some(s) => Of(Effective(s))
  }

  // -------- fields --------

  function Pattern(f: Field, before: string): string {
    if f.validChars != "" then "^[" + f.validChars + "]*$"
    else if f.invalidChars != "" then "^[^" + f.invalidChars + "]*$"
    else before
  }

  /** populateField */
  function Populated(p: Props, f: Field): Result<Props> {
    if f.default.Unencodable? then Error
    else Ok(p.(description := f.description, nullable := p.nullable || f.nullable,
               minLength := f.minLength, maxLength := f.maxLength,
               enums := if f.typeName == "string" && f.options != [] then p.enums + f.options + [""] else p.enums,
               pattern := Pattern(f, p.pattern),
               minimum := if f.min.Some? then f.min else p.minimum,
               maximum := if f.max.Some? then f.max else p.maximum,
               default := if f.default.Encodes? then Some(f.default.text) else p.default))
  }

  /** A map type takes any value of its element type; a map of json takes anything at all. */
  function MapProps(sub: string, element: Props): Props {
    if sub == "json" then BLANK.(kind := "object", nullable := true, preserve := true)
    else BLANK.(kind := "object", nullable := true, additional := Some(element))
  }

  function PlainProps(kind: string): Props {
    if kind == "string" then BLANK.(kind := kind, nullable := true)
    else if kind == "intOrString" then BLANK.(intOrString := true)
    else BLANK.(kind := kind, preserve := kind == "object")
  }

  predicate EndsInMap(id: string) {
    var folded := Fold(id);
    |folded| >= 3 && folded[|folded| - 3..] == "map"
  }

  // -------- unfolding --------

  /** The finished schema of an object with these fields. */
  function Assembled(s: Schema, properties: map<string, Props>): Props {
    Object(s.description).(
      properties := Some(properties),
      required := (set n | n in s.fields && s.fields[n].required),
      preserve := properties == map[] && EndsInMap(s.id))
  }

  /** typeToProps, given the IDs on the way to this type. */
  function TypeToProps(t: Schemas, typeName: string, inflight: set<string>): Result<Props>
    decreases |Ids(t) - inflight|, |typeName|, 2
  {
    match TypeAndSchema(t, typeName)
    case Unknown => Error
    case Of(s) => SchemaToProps(t, s, inflight)
    case MapOf(sub) =>
      var element := TypeToProps(t, sub, inflight);
      if element.Error? then Error else Ok(MapProps(sub, element.value))
    case ArrayOf(sub) =>
      var element := TypeToProps(t, sub, inflight);
      if element.Error? then Error
      else Ok(BLANK.(kind := "array", nullable := true, items := Some(element.value)))
    case Plain(kind) => Ok(PlainProps(kind))
  }

  function FieldToProps(t: Schemas, f: Field, inflight: set<string>): Result<Props>
    decreases |Ids(t) - inflight|, |f.typeName|, 3
  {
    var p := TypeToProps(t, f.typeName, inflight);
    if p.Error? then Error else Populated(p.value, f)
  }

  function FieldsToProps(t: Schemas, s: Schema, inflight: set<string>): map<string, Result<Props>>
    requires s.id in Ids(t) && s.id !in inflight
    decreases |Ids(t) - inflight|, 0, 0
  {
    FewerLeft(t, s.id, inflight);
    map n | n in s.fields :: FieldToProps(t, s.fields[n], inflight + {s.id})
  }

  /** One error among the fields is an error of the whole. */
  function Combined(s: Schema, fields: map<string, Result<Props>>): Result<Props> {
    if exists n :: n in fields && fields[n].Error? then Error
    else Ok(Assembled(s, map n | n in fields :: fields[n].value))
  }

  /** schemaToProps: an ancestor is cut to a bare object, anything else is unfolded field by field. */
  function SchemaToProps(t: Schemas, s: Schema, inflight: set<string>): Result<Props>
    requires s.id in Ids(t)
    decreases |Ids(t) - inflight|, 0, 1
  {
    if s.id in inflight then Ok(Object(s.description))
    else Combined(s, FieldsToProps(t, s, inflight))
  }

  lemma FewerLeft(t: Schemas, id: string, inflight: set<string>)
    requires id in Ids(t) && id !in inflight
    ensures |Ids(t) - (inflight + {id})| < |Ids(t) - inflight|
  {
    assert Ids(t) - inflight == (Ids(t) - (inflight + {id})) + {id};
  }

  /** The set of IDs on the way, as the code shares it between all calls. */
  class InFlight {
    var ids: set<string>

    constructor ()
      ensures ids == {}
    {
      ids := {};
    }
  }

  method TypeToPropsOf(t: Schemas, typeName: string, inflight: InFlight) returns (r: Result<Props>)
    modifies inflight
    ensures inflight.ids == old(inflight.ids)
    ensures r == TypeToProps(t, typeName, old(inflight.ids))
    decreases |Ids(t) - inflight.ids|, |typeName|, 1
  {
    hide Ids, SchemaToProps;
    match TypeAndSchema(t, typeName)
    case Unknown => r := Error;
    case Of(s) => r := SchemaToPropsOf(t, s, inflight);
    case MapOf(sub) =>
      var element := TypeToPropsOf(t, sub, inflight);
      if element.Error? {
        return Error;
      }
      r := Ok(MapProps(sub, element.value));
    case ArrayOf(sub) =>
      var element := TypeToPropsOf(t, sub, inflight);
      if element.Error? {
        return Error;
      }
      r := Ok(BLANK.(kind := "array", nullable := true, items := Some(element.value)));
    case Plain(kind) => r := Ok(PlainProps(kind));
  }

  /** schemaToProps: the fields are visited in any order, the first error ends the loop, and the ID is
      taken out of the set on every way out. */
  method SchemaToPropsOf(t: Schemas, s: Schema, inflight: InFlight) returns (r: Result<Props>)
    requires s.id in Ids(t)
    modifies inflight
    ensures inflight.ids == old(inflight.ids)
    ensures r == SchemaToProps(t, s, old(inflight.ids))
    decreases |Ids(t) - inflight.ids|, 0, 0
  {
    hide Ids, TypeToProps, Populated, Assembled;
    if s.id in inflight.ids {
      return Ok(Object(s.description));
    }
    FewerLeft(t, s.id, inflight.ids);
    ghost var before := inflight.ids;
    ghost var fields := FieldsToProps(t, s, before);
    inflight.ids := inflight.ids + {s.id};
    var properties: map<string, Props> := map[];
    var todo := s.fields.Keys;
    while todo != {}
      invariant todo <= s.fields.Keys && inflight.ids == before + {s.id}
      invariant properties.Keys == s.fields.Keys - todo
      invariant forall n :: n in properties ==> fields[n] == Ok(properties[n])
      decreases |todo|
    {
      var name :| name in todo;
      todo := todo - {name};
      var f := s.fields[name];
      var p := TypeToPropsOf(t, f.typeName, inflight);
      var populated := if p.Error? then Error else Populated(p.value, f);
      assert populated == FieldToProps(t, f, before + {s.id}) == fields[name];
      if populated.Error? {
        inflight.ids := inflight.ids - {s.id};
        return Error;
      }
      properties := properties[name := populated.value];
    }
    inflight.ids := inflight.ids - {s.id};
    assert properties == map n | n in fields :: fields[n].value;
    r := Ok(Assembled(s, properties));
  }
}
