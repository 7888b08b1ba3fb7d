/** An informer's store with the index by object-set hash (desiredset.go, desiredset_process.go). */
module HashIndex {
  import opened Kube

  /** The index function: an object is indexed by its hash label, if that is not empty. */
  predicate IndexedBy(o: Object, hash: string) {
    hash != "" && LABEL_HASH in o.labels && o.labels[LABEL_HASH] == hash
  }

  /** The right contents of one index entry. */
  function Indexed(items: Objs, hash: string): set<Key> {
    set k | k in items && IndexedBy(items[k], hash)
  }

  /** What a label selector finds in a namespace, or in all of them when the namespace is empty. */
  function Selected(items: Objs, hash: string, ns: string): Objs {
    map k | k in items && HasHash(items[k], hash) && (ns == "" || items[k].ns == ns) :: items[k]
  }

  class Indexer {
    var items: Objs
    var indexed: bool
    var index: map<string, set<Key>>

    /** Objects are filed under their own keys, and each index entry holds exactly the keys of the objects
        with that value, whatever was added, changed and removed before. */
    ghost predicate Valid()
      reads this
    {
      && WellKeyed(items)
      && (indexed ==> forall hash :: Bucket(hash) == Indexed(items, hash))
    }

    function Bucket(hash: string): set<Key>
      reads this
    {
      if hash in index then index[hash] else {}
    }

    constructor ()
      ensures Valid() && items == map[] && !indexed
    {
      items, indexed, index := map[], false, map[];
    }

    /** addIndexerByHash: refused if the index is there, otherwise built over what the store holds. */
    method AddIndexerByHash() returns (exists_: bool)
      requires Valid()
      modifies this
      ensures Valid() && indexed && items == old(items) && exists_ == old(indexed)
    {
      exists_ := indexed;
      if exists_ {
        return;
      }
      var labelled := set k | k in items && LABEL_HASH in items[k].labels :: items[k].labels[LABEL_HASH];
      index := map hash | hash in labelled :: Indexed(items, hash);
      indexed := true;
      forall hash ensures Bucket(hash) == Indexed(items, hash) {
        if k :| k in Indexed(items, hash) {
          assert items[k].labels[LABEL_HASH] in labelled;
        }
      }
    }

    /** Add and Update of the store: the old value of the object leaves the index, the new one enters. */
    method Put(o: Object)
      requires Valid()
      modifies this
      ensures Valid() && items == old(items)[o.MetaKey() := o] && indexed == old(indexed)
    {
      var k := o.MetaKey();
      Unindex(k);
      ghost var rest := items - {k};
      if indexed && LABEL_HASH in o.labels && o.labels[LABEL_HASH] != "" {
        var hash := o.labels[LABEL_HASH];
        index := index[hash := Bucket(hash) + {k}];
      }
      items := items[k := o];
      forall hash | indexed ensures Bucket(hash) == Indexed(items, hash) {
        assert Indexed(items, hash) == Indexed(rest, hash) + (if IndexedBy(o, hash) then {k} else {});
      }
    }

    method Remove(k: Key)
      requires Valid()
      modifies this
      ensures Valid() && items == old(items) - {k} && indexed == old(indexed)
    {
      Unindex(k);
      items := items - {k};
    }

    method Unindex(k: Key)
      requires Valid()
      modifies this`index
      ensures indexed ==> forall hash :: Bucket(hash) == Indexed(items - {k}, hash)
    {
      if indexed && k in items && LABEL_HASH in items[k].labels && items[k].labels[LABEL_HASH] != "" {
        var hash := items[k].labels[LABEL_HASH];
        index := index[hash := Bucket(hash) - {k}];
      }
      forall hash | indexed ensures Bucket(hash) == Indexed(items - {k}, hash) {
        assert Indexed(items - {k}, hash) == Indexed(items, hash) - {k};
        assert old(Bucket(hash)) == Indexed(items, hash);
      }
    }

    /** listByHash: the objects of one index entry, in the wanted namespace. */
    method ListByHash(hash: string, ns: string) returns (objs: Objs)
      requires Valid() && indexed
      ensures hash != "" ==> objs == Selected(items, hash, ns)
      ensures hash == "" ==> objs == map[]
    {
      objs := map[];
      var todo := Bucket(hash);
      while todo != {}
        invariant todo <= Bucket(hash)
        invariant forall k :: k in objs <==> k in Bucket(hash) && k !in todo && (ns == "" || items[k].ns == ns)
        invariant forall k :: k in objs ==> objs[k] == items[k]
        decreases |todo|
      {
        var k :| k in todo;
        todo := todo - {k};
        var o := items[k];
        if ns != "" && o.ns != ns {
          continue;
        }
        objs := objs[o.MetaKey() := o];
      }
    }

    /** cache.ListAllByNamespace with the selector for the hash. */
    method Scan(hash: string, ns: string) returns (objs: Objs)
      requires Valid()
      ensures objs == Selected(items, hash, ns)
    {
      objs := map[];
      var todo := items.Keys;
      while todo != {}
        invariant todo <= items.Keys
        invariant forall k :: k in objs <==>
          k in items && k !in todo && HasHash(items[k], hash) && (ns == "" || items[k].ns == ns)
        invariant forall k :: k in objs ==> objs[k] == items[k]
        decreases |todo|
      {
        var k :| k in todo;
        todo := todo - {k};
        var o := items[k];
        if HasHash(o, hash) && (ns == "" || o.ns == ns) {
          objs := objs[o.MetaKey() := o];
        }
      }
    }

    /** The branch in list: through the index where there is one, by scanning otherwise.  For any hash a
        set can have the caller cannot tell which. */
    method List(hash: string, ns: string) returns (objs: Objs)
      requires Valid() && hash != ""
      ensures objs == Selected(items, hash, ns)
    {
      if indexed {
        objs := ListByHash(hash, ns);
      } else {
        objs := Scan(hash, ns);
      }
    }
  }

  /** One change to the store. */
  datatype Event = Stored(o: Object) | Removed(k: Key)

  function After(items: Objs, events: seq<Event>): Objs {
    if events == [] then items
    else
      var before := After(items, events[..|events| - 1]);
      match events[|events| - 1]
      case Stored(o) => before[o.MetaKey() := o]
      case Removed(k) => before - {k}
  }

  /** For every history of the store, listing through the index and scanning give the same map. */
  method IndexAgreesWithScan(events: seq<Event>, late: nat, hash: string, ns: string)
      returns (byIndex: Objs, byScan: Objs)
    requires hash != "" && late <= |events|
    ensures byIndex == byScan == Selected(After(map[], events), hash, ns)
  {
    var store := new Indexer();
    for i := 0 to |events|
      invariant store.Valid() && fresh(store) && (i > late ==> store.indexed)
      invariant store.items == After(map[], events[..i])
    {
      if i == late {
        var _ := store.AddIndexerByHash();
      }
      assert events[..i + 1][..i] == events[..i];
      match events[i]
      case Stored(o) => store.Put(o);
      case Removed(k) => store.Remove(k);
    }
    assert events[..|events|] == events;
    byScan := store.Scan(hash, ns);
    var _ := store.AddIndexerByHash();
    byIndex := store.ListByHash(hash, ns);
  }
}
