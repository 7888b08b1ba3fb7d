/** The copy of an object that is kept in its applied annotation, and the reconcilers that look at it
    (desiredset_compare.go:24-36, 64-93, 299-315, 351-403; reconcilers.go:25-153). */
module AppliedCopy {
  import opened Common
  import opened Json
  import opened Kube

  /** The fields that tell the elements of a list apart. */
  predicate KnownListKey(key: string) {
    key in {
      "apiVersion", "containerPort", "devicePath", "ip", "kind", "mountPath", "name", "port", "topologyKey", "type" }
  }

  const LONGEST := 64

  /** What holds a value: a list, or a map under a key, where the map may itself be an element of a list. */
  datatype Place = Item | Entry(key: string, inItem: bool)

  /** A leaf as it is kept: identifying fields of list elements in full, other strings cut short. */
  function Kept(v: Value, place: Place): Value {
    if place.Item? || (place.inItem && KnownListKey(place.key)) then v
    else
      match v
      case Str(s) => if |s| > LONGEST then Str(s[..LONGEST]) else v
      case Bytes(_) => Null
      case _ => v
  }

  function Pruned(v: Value, place: Place): Value
    decreases v
  {
    match v
    case Obj(fields) => Obj(map k | k in fields :: Pruned(fields[k], Entry(k, place.Item?)))
    case List(items) => List(seq(|items|, i requires 0 <= i < |items| => Pruned(items[i], Item)))
    case _ => Kept(v, place)
  }

  /** A map at the top or in another map. */
  const WHOLE := Entry("", false)

  lemma PrunedEntry(v: Value, k: string, inItem: bool)
    ensures match v
      case Obj(fields) => Pruned(v, Entry(k, inItem)) == Pruned(v, WHOLE)
      case List(items) => Pruned(v, Entry(k, inItem)) == Pruned(v, Item)
      case _ => Pruned(v, Entry(k, inItem)) == Kept(v, Entry(k, inItem))
  {
    hide KnownListKey;
    match v
    case List(items) =>
      assert Pruned(v, Entry(k, inItem)).items == Pruned(v, Item).items;
    case _ =>
  }

  lemma PrunedMap(data: Record, isList: bool, result: Record)
    requires result.Keys == data.Keys && forall k :: k in result ==> result[k] == Pruned(data[k], Entry(k, isList))
    ensures Obj(result) == Pruned(Obj(data), if isList then Item else WHOLE)
  {
    assert Pruned(Obj(data), if isList then Item else WHOLE).fields == result;
  }

  // -------- the two recursive loops --------

  method PruneList(data: seq<Value>) returns (result: seq<Value>)
    ensures List(result) == Pruned(List(data), Item)
    decreases List(data)
  {
    result := [];
    for i := 0 to |data|
      invariant |result| == i && forall j :: 0 <= j < i ==> result[j] == Pruned(data[j], Item)
    {
      var v := data[i];
      match v {
        case Obj(fields) =>
          var m := PruneValues(fields, true);
          result := result + [Obj(m)];
        case List(items) =>
          var l := PruneList(items);
          result := result + [List(l)];
        case _ =>
          result := result + [v];
      }
    }
  }

  /** The keys come in no particular order. */
  method PruneValues(data: Record, isList: bool) returns (result: Record)
    ensures Obj(result) == Pruned(Obj(data), if isList then Item else WHOLE)
    decreases Obj(data)
  {
    hide Pruned, KnownListKey;
    result := map[];
    var todo := data.Keys;
    while todo != {}
      invariant todo <= data.Keys && result.Keys == data.Keys - todo
      invariant forall k :: k in result ==> result[k] == Pruned(data[k], Entry(k, isList))
      decreases |todo|
    {
      var k :| k in todo;
      var v := data[k];
      match v {
        case Obj(fields) =>
          var m := PruneValues(fields, false);
          result := result[k := Obj(m)];
        case List(items) =>
          var l := PruneList(items);
          result := result[k := List(l)];
        case _ =>
          if isList && KnownListKey(k) {
            result := result[k := v];
          } else if v.Str? {
            result := result[k := if |v.s| > LONGEST then Str(v.s[..LONGEST]) else v];
          } else if v.Bytes? {
            result := result[k := Null];
          } else {
            result := result[k := v];
          }
      }
      PrunedEntry(v, k, isList);
      todo := todo - {k};
    }
    PrunedMap(data, isList, result);
  }

  // -------- what pruning does to a document --------

  datatype Step = Key(name: string) | Index(i: nat)

  function At(v: Value, path: seq<Step>): Option<Value>
    decreases |path|
  {
    if path == [] then Some(v)
    else
      match path[0]
      case Key(name) => if v.Obj? && name in v.fields then At(v.fields[name], path[1..]) else None
      case Index(i) => if v.List? && i < |v.items| then At(v.items[i], path[1..]) else None
  }

  /** The place of what a path leads to: its last two steps say it all. */
  function PlaceAt(path: seq<Step>, top: Place): Place {
    if path == [] then top
    else
      match path[|path| - 1]
      case Index(_) => Item
      case Key(name) => Entry(name, if |path| == 1 then top.Item? else path[|path| - 2].Index?)
  }

  /** Pruning works path by path: no path appears or disappears, and what it leads to is pruned by its place. */
  lemma {:induction false} PrunedByPaths(v: Value, place: Place, path: seq<Step>)
    ensures At(Pruned(v, place), path) ==
      match At(v, path)
      case None => None
      case Some(x) => Some(Pruned(x, PlaceAt(path, place)))
    decreases |path|
  {
    if path != [] {
      var rest := path[1..];
      match path[0]
      case Key(name) =>
        if v.Obj? && name in v.fields {
          PrunedByPaths(v.fields[name], Entry(name, place.Item?), rest);
        }
      case Index(i) =>
        if v.List? && i < |v.items| {
          PrunedByPaths(v.items[i], Item, rest);
        }
    }
  }

  /** Every leaf survives whole, except a long string or bytes in a map entry that does not identify a list element:
      of the one the first 64 bytes are kept, of the other nothing. */
  lemma LeafSurvivesExactlyWhen(v: Value, path: seq<Step>, leaf: Value)
    requires path != [] && At(v, path) == Some(leaf) && !leaf.Obj? && !leaf.List?
    ensures var whole :=
        || path[|path| - 1].Index?
        || (|path| > 1 && path[|path| - 2].Index? &&
             path[|path| - 1].name in {
               "apiVersion", "containerPort", "devicePath", "ip", "kind",
               "mountPath", "name", "port", "topologyKey", "type" })
        || (!leaf.Bytes? && (leaf.Str? ==> |leaf.s| <= 64));
      && (At(Pruned(v, WHOLE), path) == Some(leaf) <==> whole)
      && (!whole ==> At(Pruned(v, WHOLE), path) == Some(if leaf.Bytes? then Null else Str(leaf.s[..64])))
  {
    PrunedByPaths(v, WHOLE, path);
  }

  lemma {:induction false} PruningIsIdempotent(v: Value, place: Place)
    ensures Pruned(Pruned(v, place), place) == Pruned(v, place)
    decreases v
  {
    match v
    case Obj(fields) =>
      forall k | k in fields
        ensures var e := Entry(k, place.Item?); Pruned(Pruned(fields[k], e), e) == Pruned(fields[k], e)
      {
        PruningIsIdempotent(fields[k], Entry(k, place.Item?));
      }
      assert Pruned(Pruned(v, place), place).fields == Pruned(v, place).fields;
    case List(items) =>
      forall i | 0 <= i < |items| ensures Pruned(Pruned(items[i], Item), Item) == Pruned(items[i], Item) {
        PruningIsIdempotent(items[i], Item);
      }
      assert Pruned(Pruned(v, place), place).items == Pruned(v, place).items;
    case _ =>
  }

  /** Nothing in the value is too big to keep. */
  predicate Light(v: Value, place: Place)
    decreases v
  {
    match v
    case Obj(fields) => forall k :: k in fields ==> Light(fields[k], Entry(k, place.Item?))
    case List(items) => forall i :: 0 <= i < |items| ==> Light(items[i], Item)
    case _ => Kept(v, place) == v
  }

  lemma {:induction false} UnchangedExactlyWhen(v: Value, place: Place)
    ensures Pruned(v, place) == v <==> Light(v, place)
    decreases v
  {
    match v
    case Obj(fields) =>
      forall k | k in fields
        ensures var e := Entry(k, place.Item?); Pruned(fields[k], e) == fields[k] <==> Light(fields[k], e)
      {
        UnchangedExactlyWhen(fields[k], Entry(k, place.Item?));
      }
      if Light(v, place) {
        assert Pruned(v, place).fields == fields;
      }
    case List(items) =>
      forall i | 0 <= i < |items| ensures Pruned(items[i], Item) == items[i] <==> Light(items[i], Item) {
        UnchangedExactlyWhen(items[i], Item);
      }
      if Light(v, place) {
        assert Pruned(v, place).items == items;
      } else {
        var i :| 0 <= i < |items| && !Light(items[i], Item);
        assert Pruned(v, place).items[i] != items[i];
      }
    case _ =>
  }

  // -------- the copy in the annotation --------

  datatype Original = NoCopy | Unreadable | Original(o: Record)

  /** Writing and reading the annotation: JSON, gzip and base64.  A text that gives no bytes, as an empty
      or a broken one does, is no copy; bytes that are no JSON map are an error. */
  datatype Codec = Codec(encode: Record -> string, decode: string -> Original)

  /** serializeApplied: the pruned object. */
  function Copy(o: Record): Record {
    Pruned(Obj(o), WHOLE).fields
  }

  /** The copy of the object survives the annotation.  A string cut in the middle of a character, bytes in a
      list or a number of more than 64 bits may not. */
  predicate Keeps(c: Codec, o: Record) {
    c.decode(c.encode(Copy(o))) == Original(Copy(o))
  }

  function Inner(r: Record, key: string): Record {
    ToMap(Field(r, key))
  }

  function AnnotationOf(o: Record): Value {
    Field(Inner(Inner(o, "metadata"), "annotations"), LABEL_APPLIED)
  }

  /** prepareObjectForCreate: the object with its kind, and its own pruned copy in an annotation. */
  function Prepared(c: Codec, gvk: GVK, apiVersion: string, o: Record): Record {
    var meta := Inner(o, "metadata");
    var annotations := Inner(meta, "annotations")[LABEL_APPLIED := Str(c.encode(Copy(o)))];
    o["metadata" := Obj(meta["annotations" := Obj(annotations)])]
     ["apiVersion" := Str(apiVersion)]["kind" := Str(gvk.kind)]
  }

  /** getOriginalObject: the copy is taken out, loses its creation timestamp, and is prepared once more. */
  function OriginalOf(c: Codec, gvk: GVK, apiVersion: string, o: Record): Original {
    match AnnotationOf(o)
    case Str(text) =>
      (match c.decode(text)
       case NoCopy => NoCopy
       case Unreadable => Unreadable
       case Original(copy) =>
         var dated := if "metadata" in copy && copy["metadata"].Obj?
           then copy["metadata" := Obj(copy["metadata"].fields - {"creationTimestamp"})] else copy;
         Original(Prepared(c, gvk, apiVersion, dated)))
    case _ => NoCopy
  }

  // -------- the reconcilers --------

  datatype Answer = Keep | Replace | Error

  function SpecOf(o: Record, key: string): Value {
    Field(Inner(o, "spec"), key)
  }

  /** reconcileJob; typed stands for reading a template as a Go struct. */
  function ReconcileJob<T(==)>(c: Codec, gvk: GVK, apiVersion: string, typed: Value -> T, past: Record,
                          want: Record): Answer {
    match OriginalOf(c, gvk, apiVersion, want)
    case Original(pruned) =>
      if typed(SpecOf(past, "template")) == typed(SpecOf(pruned, "template")) then Keep else Replace
    case _ => Error
  }

  /** reconcileDeployment and reconcileDaemonSet, which compare with the wanted object itself; typed stands for
      reading a selector as a Go struct. */
  function ReconcileSelector<T(==)>(typed: Value -> T, past: Record, want: Record): Answer {
    if typed(SpecOf(past, "selector")) == typed(SpecOf(want, "selector")) then Keep else Replace
  }

  /** reconcileSecret */
  function ReconcileSecret(past: Record, want: Record): Answer {
    var t := Text(Field(want, "type"));
    if t != "" && Text(Field(past, "type")) != t then Replace else Keep
  }

  /** reconcileService */
  function ReconcileService(past: Record, want: Record): Answer {
    var t := Text(SpecOf(want, "type"));
    if t != "" && Text(SpecOf(past, "type")) != t then Replace else Keep
  }

  lemma CopyOfSpec(o: Record, key: string)
    ensures SpecOf(Copy(o), key) == Pruned(SpecOf(o, key), Entry(key, false))
  {
    hide KnownListKey;
    if "spec" in o {
      assert Copy(o)["spec"] == Pruned(o["spec"], Entry("spec", false));
    }
  }

  /** Going through the annotation leaves exactly the pruned object, with its kind set once more; its metadata lose
      the creation timestamp and gain an applied copy of their own. */
  lemma Recovered(c: Codec, gvk: GVK, apiVersion: string, o: Record, key: string)
    requires Keeps(c, o) && key !in {"metadata", "apiVersion", "kind"}
    ensures var r := OriginalOf(c, gvk, apiVersion, Prepared(c, gvk, apiVersion, o));
      && r.Original? && Field(r.o, key) == Field(Copy(o), key)
      && Field(r.o, "apiVersion") == Str(apiVersion) && Field(r.o, "kind") == Str(gvk.kind)
      && var before, after := Inner(Copy(o), "metadata"), Inner(r.o, "metadata");
         && (forall f :: f !in {"creationTimestamp", "annotations"} ==> Find(after, f) == Find(before, f))
         && "creationTimestamp" !in after
         && (forall a :: a != "objectset.rio.cattle.io/applied" ==>
              Find(Inner(after, "annotations"), a) == Find(Inner(before, "annotations"), a))
         && Field(Inner(after, "annotations"), "objectset.rio.cattle.io/applied").Str?
  {
    hide Pruned;
    var p := Prepared(c, gvk, apiVersion, o);
    assert AnnotationOf(p) == Str(c.encode(Copy(o)));
  }

  /** A job is replaced exactly when what can be kept of its template has changed since it was last applied;
      in particular an unchanged one never is. */
  lemma JobReplacedExactlyWhen<T>(c: Codec, gvk: GVK, apiVersion: string, typed: Value -> T, before: Record,
                                  after: Record)
    requires Keeps(c, before) && Keeps(c, after)
    ensures var past := OriginalOf(c, gvk, apiVersion, Prepared(c, gvk, apiVersion, before));
      past.Original? &&
      ReconcileJob(c, gvk, apiVersion, typed, past.o, Prepared(c, gvk, apiVersion, after)) ==
        var place := Entry("template", false);
        if typed(Pruned(SpecOf(before, "template"), place)) == typed(Pruned(SpecOf(after, "template"), place))
        then Keep else Replace
  {
    Recovered(c, gvk, apiVersion, before, "spec");
    Recovered(c, gvk, apiVersion, after, "spec");
    CopyOfSpec(before, "template");
    CopyOfSpec(after, "template");
  }

  /** The same for deployments and daemon sets, which compare what was kept of the old selector with the whole of
      the new one; for secrets, whose type is replaced only by another one; and for services. */
  lemma OthersReplacedExactlyWhen<T>(c: Codec, gvk: GVK, apiVersion: string, typed: Value -> T, before: Record,
                                     after: Record)
    requires Keeps(c, before) && Keeps(c, after)
    ensures var past := OriginalOf(c, gvk, apiVersion, Prepared(c, gvk, apiVersion, before));
      var want := Prepared(c, gvk, apiVersion, after);
      && past.Original?
      && ReconcileSelector(typed, past.o, want) ==
           (if typed(Pruned(SpecOf(before, "selector"), Entry("selector", false))) == typed(SpecOf(after, "selector"))
            then Keep else Replace)
      && ReconcileSecret(past.o, want) ==
           (if Text(Field(after, "type")) in {"", Cut(Text(Field(before, "type")))} then Keep else Replace)
      && ReconcileService(past.o, want) ==
           (if Text(SpecOf(after, "type")) in {"", Cut(Text(SpecOf(before, "type")))} then Keep else Replace)
  {
    hide Pruned, Prepared, OriginalOf, Keeps, Copy;
    Recovered(c, gvk, apiVersion, before, "spec");
    Recovered(c, gvk, apiVersion, before, "type");
    PreparedField(c, gvk, apiVersion, after, "spec");
    PreparedField(c, gvk, apiVersion, after, "type");
    CopyOfSpec(before, "selector");
    CopyOfSpec(before, "type");
    CutText(SpecOf(before, "type"), "type");
    CopyOfField(before, "type");
    CutText(Field(before, "type"), "type");
  }

  lemma PreparedField(c: Codec, gvk: GVK, apiVersion: string, o: Record, key: string)
    requires key !in {"metadata", "apiVersion", "kind"}
    ensures Field(Prepared(c, gvk, apiVersion, o), key) == Field(o, key)
  {
  }

  /** The first 64 bytes. */
  function Cut(text: string): string {
    if |text| > 64 then text[..64] else text
  }

  lemma CutText(v: Value, key: string)
    ensures Text(Pruned(v, Entry(key, false))) == Cut(Text(v))
  {
  }

  lemma CopyOfField(o: Record, key: string)
    ensures Field(Copy(o), key) == Pruned(Field(o, key), Entry(key, false))
  {
    hide KnownListKey;
    if key in o {
      assert Copy(o)[key] == Pruned(o[key], Entry(key, false));
    }
  }

  /** A live job without an applied copy, compared in full with the same job: it is replaced exactly when
      its template holds something too long to keep. */
  lemma UncopiedJobReplacedExactlyWhen(c: Codec, gvk: GVK, apiVersion: string, o: Record)
    requires Keeps(c, o)
    ensures ReconcileJob(c, gvk, apiVersion, (v: Value) => v, o, Prepared(c, gvk, apiVersion, o)) ==
      if Light(SpecOf(o, "template"), Entry("template", false)) then Keep else Replace
  {
    Recovered(c, gvk, apiVersion, o, "spec");
    CopyOfSpec(o, "template");
    UnchangedExactlyWhen(SpecOf(o, "template"), Entry("template", false));
  }

  /** Different values are read as different structs. */
  ghost predicate LosesNothing<T(!new)>(typed: Value -> T) {
    forall a, b {:trigger typed(a), typed(b)} :: typed(a) == typed(b) ==> a == b
  }

  /** A deployment or daemon set is accepted against its own applied copy exactly when its selector, pruned,
      reads as it does unpruned: these reconcilers do not prune what they compare the copy with.  Where the
      reading loses nothing, that is exactly when the selector holds nothing too long to keep. */
  lemma SelectorAcceptedExactlyWhen<T(!new)>(c: Codec, gvk: GVK, apiVersion: string, typed: Value -> T, o: Record)
    requires Keeps(c, o)
    ensures var past := OriginalOf(c, gvk, apiVersion, Prepared(c, gvk, apiVersion, o));
      var selector, place := SpecOf(o, "selector"), Entry("selector", false);
      past.Original? &&
      var answer := ReconcileSelector(typed, past.o, Prepared(c, gvk, apiVersion, o));
      && answer == (if typed(Pruned(selector, place)) == typed(selector) then Keep else Replace)
      && (Light(selector, place) ==> answer == Keep)
      && (LosesNothing(typed) && !Light(selector, place) ==> answer == Replace)
  {
    Recovered(c, gvk, apiVersion, o, "spec");
    CopyOfSpec(o, "selector");
    UnchangedExactlyWhen(SpecOf(o, "selector"), Entry("selector", false));
  }

  /** A secret is accepted against its own applied copy exactly when its type is at most 64 bytes long. */
  lemma SecretAcceptedExactlyWhen(c: Codec, gvk: GVK, apiVersion: string, o: Record)
    requires Keeps(c, o)
    ensures var past := OriginalOf(c, gvk, apiVersion, Prepared(c, gvk, apiVersion, o));
      past.Original? &&
      ReconcileSecret(past.o, Prepared(c, gvk, apiVersion, o)) ==
        if |Text(Field(o, "type"))| <= 64 then Keep else Replace
  {
    hide KnownListKey;
    Recovered(c, gvk, apiVersion, o, "type");
    if "type" in o {
      assert Copy(o)["type"] == Pruned(o["type"], Entry("type", false));
    }
  }

  const LONG: string := "abcdefghijklmnopqrstuvwxyzabcdefghijklmnopqrstuvwxyzabcdefghijklm"

  /** So a secret whose type has 65 bytes is replaced although nothing has changed. */
  lemma LongTypeIsReplaced(c: Codec, gvk: GVK, apiVersion: string)
    requires Keeps(c, map["type" := Str(LONG)])
    ensures var o: Record := map["type" := Str(LONG)];
      var past := OriginalOf(c, gvk, apiVersion, Prepared(c, gvk, apiVersion, o));
      past.Original? && ReconcileSecret(past.o, Prepared(c, gvk, apiVersion, o)) == Replace
  {
    hide OriginalOf, Prepared, ReconcileSecret;
    assert |LONG| == 65;
    SecretAcceptedExactlyWhen(c, gvk, apiVersion, map["type" := Str(LONG)]);
  }

  function LongSelector(): Record {
    map["spec" := Obj(map["selector" := Obj(map["app" := Str(LONG)])])]
  }

  /** And so is a deployment that selects by one value of 65 bytes, if reading the selector does not lose it. */
  lemma LongSelectorIsReplaced<T(!new)>(c: Codec, gvk: GVK, apiVersion: string, typed: Value -> T)
    requires Keeps(c, LongSelector()) && LosesNothing(typed)
    ensures var o := LongSelector();
      var past := OriginalOf(c, gvk, apiVersion, Prepared(c, gvk, apiVersion, o));
      past.Original? && ReconcileSelector(typed, past.o, Prepared(c, gvk, apiVersion, o)) == Replace
  {
    hide OriginalOf, Prepared, LosesNothing, ReconcileSelector;
    var o := LongSelector();
    assert SpecOf(o, "selector") == Obj(map["app" := Str(LONG)]);
    assert |LONG| == 65 && Kept(Str(LONG), Entry("app", false)) != Str(LONG);
    assert !Light(Obj(map["app" := Str(LONG)]), Entry("selector", false));
    SelectorAcceptedExactlyWhen(c, gvk, apiVersion, typed, o);
  }
}
