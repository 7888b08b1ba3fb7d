/** What is left of a computed patch before it is sent or reported (desiredset_compare.go). */
module Patches {
  import opened Common
  import opened Json
  import opened Kube

  const DROPPED: set<string> := {"kind", "apiVersion", "status"}
  const SENTINEL := "__invalid_key__"

  /** What a patch says about metadata; nothing where that is not a map. */
  function Meta(p: Record): Record {
    ToMap(Field(p, "metadata"))
  }

  function Annotations(p: Record): Record {
    ToMap(Field(Meta(p), "annotations"))
  }

  /** The patch with its metadata replaced, where it has a metadata map at all. */
  function WithMeta(p: Record, meta: Record): Record {
    if "metadata" in p && p["metadata"].Obj? then p["metadata" := Obj(meta)] else p
  }

  /** The first deletions: kind, apiVersion, status and the creation timestamp. */
  function Trimmed(p: Record): Record {
    WithMeta(p - DROPPED, Meta(p) - {"creationTimestamp"})
  }

  predicate Trims(p: Record) {
    "kind" in p || "apiVersion" in p || "status" in p || "creationTimestamp" in Meta(p)
  }

  /** The annotations that are not the object set's own bookkeeping. */
  function Foreign(annotations: Record): Record {
    map k | k in annotations && !HasPrefix(k, LABEL_PREFIX) :: annotations[k]
  }

  /** The later deletions, of bookkeeping annotations and then of the maps this leaves empty. */
  function Unbooked(p: Record, trimmed: bool): Record {
    var kept := Foreign(Annotations(p));
    var others := Meta(p) - {"annotations"};
    if kept == map[] && (trimmed || Annotations(p) != map[]) then
      if others == map[] then p - {"metadata"} else p["metadata" := Obj(others)]
    else if kept != Annotations(p) then
      p["metadata" := Obj(Meta(p)["annotations" := Obj(kept)])]
    else p
  }

  /** The patch after all deletions, before it is checked for emptiness. */
  function Cleaned(p: Record, bookkeeping: bool): Record {
    if bookkeeping then Unbooked(Trimmed(p), Trims(p)) else Trimmed(p)
  }

  /** No key but this one. */
  predicate Only(d: Record, key: string) {
    forall k :: k in d ==> k == key
  }

  predicate HollowAnnotations(meta: Record) {
    Only(meta, "annotations") && Only(ToMap(Field(meta, "annotations")), SENTINEL)
  }

  /** emptyMaps(data, "metadata", "annotations") in closed form. */
  predicate Hollow(p: Record) {
    Only(p, "metadata") && HollowAnnotations(ToMap(Field(p, "metadata")))
  }

  /** sanitizePatch on the decoded patch. */
  function Sanitized(p: Record, bookkeeping: bool): Record {
    var d := Cleaned(p, bookkeeping);
    if Hollow(d) then map[] else d
  }

  /** emptyMaps: walk down a chain of keys as long as each map holds nothing but the next key. */
  method EmptyMaps(data: Record, keys: seq<string>) returns (empty: bool)
    ensures keys == ["metadata", "annotations"] ==> empty == Hollow(data)
  {
    var chain := keys + [SENTINEL];
    var d := data;
    for i := 0 to |chain|
      invariant keys == ["metadata", "annotations"] ==>
        Hollow(data) == match i
          case 0 => Hollow(d)
          case 1 => HollowAnnotations(d)
          case 2 => Only(d, SENTINEL)
          case _ => true
    {
      KeysBySize(d, chain[i]);
      if |d| == 0 {
        return true;
      }
      if |d| > 1 {
        return false;
      }
      if chain[i] !in d {
        return false;
      }
      d := ToMap(d[chain[i]]);
    }
    return true;
  }

  lemma KeysBySize(d: Record, key: string)
    ensures |d| == 0 ==> d == map[]
    ensures |d| > 1 ==> !Only(d, key)
    ensures |d| == 1 ==> (key in d <==> Only(d, key))
  {
    assert |d.Keys| == |d|;
    if Only(d, key) {
      assert d.Keys <= {key};
      Subset(d.Keys, {key});
    }
    if |d| == 1 && key in d {
      forall k | k in d ensures k == key {
        if k != key { Subset({k, key}, d.Keys); }
      }
    }
    if |d| == 1 && Only(d, key) {
      assert d.Keys != {};
    }
  }

  lemma Subset<T>(a: set<T>, b: set<T>)
    requires a <= b
    ensures |a| <= |b|
  {
    assert |b| == |a| + |b - a| by { assert b == a + (b - a); }
  }

  method TrimPatch(patch: Record) returns (mod: bool, data: Record)
    ensures mod == Trims(patch) && data == Trimmed(patch)
  {
    mod, data := false, patch;
    if "kind" in data {
      mod, data := true, data - {"kind"};
    }
    if "apiVersion" in data {
      mod, data := true, data - {"apiVersion"};
    }
    if "status" in data {
      mod, data := true, data - {"status"};
    }
    assert data == patch - DROPPED;
    // removeCreationTimestamp
    if "metadata" in data && "creationTimestamp" in ToMap(data["metadata"]) {
      mod, data := true, data["metadata" := Obj(ToMap(data["metadata"]) - {"creationTimestamp"})];
    } else {
      assert Meta(patch) - {"creationTimestamp"} == Meta(patch);
      assert WithMeta(data, Meta(patch)) == data;
    }
  }

  method UnbookPatch(patch: Record, trimmed: bool) returns (data: Record)
    ensures data == Unbooked(patch, trimmed)
  {
    data := patch;
    var mod, metadata := trimmed, ToMap(Field(data, "metadata"));
    var annotations := ToMap(Field(metadata, "annotations"));
    var kept := Foreign(annotations);
    if kept != annotations {
      mod, metadata := true, metadata["annotations" := Obj(kept)];
      data := data["metadata" := Obj(metadata)];
    }
    if mod && kept == map[] {
      metadata := metadata - {"annotations"};
      assert metadata == Meta(patch) - {"annotations"};
      if "metadata" in data && data["metadata"].Obj? {
        data := data["metadata" := Obj(metadata)];
      }
      if metadata == map[] {
        data := data - {"metadata"};
        assert data == patch - {"metadata"};
      }
    }
  }

  /** sanitizePatch: the deletions, in the order the code makes them, and the check for emptiness. */
  method SanitizePatch(patch: Record, removeObjectSetAnnotation: bool) returns (r: Record)
    ensures r == Sanitized(patch, removeObjectSetAnnotation)
  {
    var mod, data := TrimPatch(patch);
    if removeObjectSetAnnotation {
      data := UnbookPatch(data, mod);
    }
    var empty := EmptyMaps(data, ["metadata", "annotations"]);
    r := if empty then map[] else data;
  }

  /** Whatever sanitizePatch does to a patch for the server, its labels and its annotations go
      through untouched, except that a patch of nothing else may count as empty. */
  lemma LabelsGoThrough(p: Record)
    ensures var r := Sanitized(p, false);
      && Field(Meta(r), "labels") == Field(Meta(p), "labels")
      && (r != map[] ==> Field(Meta(r), "annotations") == Field(Meta(p), "annotations"))
  {
    assert Meta(Trimmed(p)) == Meta(p) - {"creationTimestamp"};
    if "labels" in Meta(p) {
      assert "labels" in Meta(Trimmed(p));
    }
  }

  /** Which entries of a patch survive, for the server and, with bookkeeping, for a report: all but the kind, the
      API version and the status; of the metadata all but the creation timestamp and, for a report, the set's own
      annotations. */
  lemma SurvivingEntries(p: Record, bookkeeping: bool)
    ensures var r := Sanitized(p, bookkeeping);
      && (forall k :: k !in {"kind", "apiVersion", "status", "metadata"} ==> Find(r, k) == Find(p, k))
      && (forall k :: k in {"kind", "apiVersion", "status"} ==> k !in r)
      && "creationTimestamp" !in Meta(r)
      && (r != map[] ==>
          && (forall k :: k !in {"creationTimestamp", "annotations"} ==> Find(Meta(r), k) == Find(Meta(p), k))
          && (forall a :: Find(Annotations(r), a) ==
                if bookkeeping && "objectset.rio.cattle.io/" <= a then None else Find(Annotations(p), a)))
  {
    var t := Trimmed(p);
    assert Meta(t) == Meta(p) - {"creationTimestamp"};
    assert Annotations(t) == Annotations(p);
    assert forall k :: k !in DROPPED && k != "metadata" ==> Find(t, k) == Find(p, k);
    if bookkeeping {
      UnbookedFacts(t, Trims(p));
    }
  }

  /** A patch is dropped for the server exactly when, beyond kind, apiVersion, status and a creation
      timestamp, it holds at most an empty (or non-map) metadata or annotations value, or annotations that
      are none but the walk's own sentinel. */
  lemma DroppedExactlyWhen(p: Record)
    ensures Sanitized(p, false) == map[] <==>
      && (forall k :: k in p ==> k in {"kind", "apiVersion", "status", "metadata"})
      && (forall k :: k in Meta(p) ==> k == "creationTimestamp" || k == "annotations")
      && (forall a :: a in Annotations(p) ==> a == "__invalid_key__")
  {
    var d := Trimmed(p);
    assert Meta(d) == Meta(p) - {"creationTimestamp"};
    assert forall k :: k in p && k !in DROPPED <==> k in d;
    assert forall k :: k in Meta(p) && k != "creationTimestamp" <==> k in Meta(d);
    assert Annotations(d) == Annotations(p);
    assert Only(map[], SENTINEL);
  }

  lemma NothingMoreToTrim(p: Record)
    ensures var sent := Sanitized(p, false); Trimmed(sent) == sent && !Trims(sent)
  {
    assert Meta(Trimmed(p)) == Meta(p) - {"creationTimestamp"};
    assert Meta(Trimmed(p)) - {"creationTimestamp"} == Meta(Trimmed(p));
    assert Trimmed(p) - DROPPED == Trimmed(p);
  }

  /** A plan reports nothing of a patch that would be sent exactly when that is only about the set's own
      annotations (or the sentinel). */
  lemma UnreportedExactlyWhen(p: Record)
    ensures var sent := Sanitized(p, false);
      Sanitized(sent, true) == map[] <==>
        && (forall k :: k in sent ==> k == "metadata")
        && (forall k :: k in Meta(sent) ==> k == "annotations")
        && (forall a :: a in Annotations(sent) ==> "objectset.rio.cattle.io/" <= a || a == "__invalid_key__")
  {
    var sent := Sanitized(p, false);
    NothingMoreToTrim(p);
    var d := Unbooked(sent, false);
    UnbookedFacts(sent, false);
    assert forall k :: k in Meta(d) && k != "annotations" <==> k in Meta(sent) && k != "annotations";
    assert forall k :: k in d && k != "metadata" <==> k in sent && k != "metadata";
    assert forall a :: a in Annotations(d) <==> a in Annotations(sent) && !("objectset.rio.cattle.io/" <= a);
    assert Only(map[], SENTINEL) && Only(map[], "annotations");
  }

  /** What a plan reports of a patch that would be sent: the same entries and labels, and of the
      annotations those that are not the set's own; nothing else is lost, unless all of it is. */
  lemma ReportIsPartOfPatch(p: Record)
    ensures var sent := Sanitized(p, false);
      var report := Sanitized(sent, true);
      report != map[] ==>
        && (forall k :: k != "metadata" ==> Find(report, k) == Find(sent, k))
        && (forall k :: k != "annotations" ==> Find(Meta(report), k) == Find(Meta(sent), k))
        && forall a :: Find(Annotations(report), a) ==
             if "objectset.rio.cattle.io/" <= a then None else Find(Annotations(sent), a)
  {
    NothingMoreToTrim(p);
    UnbookedFacts(Sanitized(p, false), false);
  }

  lemma UnbookedFacts(sent: Record, trimmed: bool)
    ensures var report := Unbooked(sent, trimmed);
      && (forall k :: k != "metadata" ==> Find(report, k) == Find(sent, k))
      && (forall k :: k != "annotations" ==> Find(Meta(report), k) == Find(Meta(sent), k))
      && Annotations(report) == Foreign(Annotations(sent))
  {
    var kept, others := Foreign(Annotations(sent)), Meta(sent) - {"annotations"};
    if kept == map[] && (trimmed || Annotations(sent) != map[]) {
      assert forall k :: k != "annotations" ==> Find(others, k) == Find(Meta(sent), k);
      if others != map[] {
        assert "annotations" !in others;
      }
    }
  }
}
