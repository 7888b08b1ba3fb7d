/** JSON merge patches (section 2 of RFC 7396), and the three-way difference that makes them. */
module MergePatch {
  import opened Common
  import opened Json

  /** Section 2 of RFC 7396: null removes a member, a map is merged, anything else replaces. */
  function Merged(target: Value, patch: Value): Value
    decreases patch
  {
    if !patch.Obj? then patch
    else
      var t, p := ToMap(target), patch.fields;
      Obj(map k | k in t.Keys + p.Keys && !(k in p && p[k].Null?) :: if k in p then Merged(Field(t, k), p[k]) else t[k])
  }

  /** What has to change in live: what is wanted and not there, and, of what is not wanted, that which the
      original had.  Nothing else is mentioned. */
  function Difference(original: Record, want: Record, live: Record): Record
    decreases Obj(want), 0
  {
    map k | k in want.Keys + live.Keys &&
            (if k in want then Entry(Field(original, k), want[k], Find(live, k)).Some? else k in original) ::
      if k in want then Entry(Field(original, k), want[k], Find(live, k)).value else Null
  }

  /** What the patch says about one wanted entry. */
  function Entry(original: Value, want: Value, live: Option<Value>): Option<Value>
    decreases want, 1
  {
    if live == Some(want) then None
    else if want.Obj? && live.Some? && live.value.Obj? then
      var d := Difference(ToMap(original), want.fields, live.value.fields);
      if d == map[] then None else Some(Obj(d))
    else Some(want)
  }

  predicate NoNulls(v: Value)
    decreases v
  {
    match v
    case Null => false
    case Obj(fields) => forall k :: k in fields ==> NoNulls(fields[k])
    case _ => true
  }

  /** A map that is merged into nothing is there as it is. */
  lemma {:induction false} MergedFresh(v: Value, target: Value)
    requires NoNulls(v) && (v.Obj? ==> !target.Obj?)
    ensures Merged(target, v) == v
    decreases v
  {
    if v.Obj? {
      forall k | k in v.fields ensures Merged(Null, v.fields[k]) == v.fields[k] {
        MergedFresh(v.fields[k], Null);
      }
      assert Merged(target, v).fields == v.fields;
    }
  }

  /** The copy has no entry, at any depth, that is not wanted. */
  predicate Within(copy: Record, want: Record)
    decreases Obj(want)
  {
    forall k :: k in copy ==>
      k in want && (copy[k].Obj? && want[k].Obj? ==> Within(copy[k].fields, want[k].fields))
  }

  /** The entry as it is after the merge. */
  function AfterEntry(original: Value, want: Value, live: Option<Value>): Option<Value> {
    match Entry(original, want, live)
    case None => live
    case Some(p) => Some(Merged(if live.Some? then live.value else Null, p))
  }

  /** What the merge does to one entry. */
  lemma MergedAt(original: Record, want: Record, live: Record, k: string)
    requires NoNulls(Obj(want))
    ensures Merged(Obj(live), Obj(Difference(original, want, live))).Obj?
    ensures Find(Merged(Obj(live), Obj(Difference(original, want, live))).fields, k) ==
      if k in want then AfterEntry(Field(original, k), want[k], Find(live, k))
      else if k in original then None else Find(live, k)
  {
    hide Entry;
    if k in want {
      EntryNotNull(Field(original, k), want[k], Find(live, k));
    }
  }

  /** What a three-way merge is to leave: wanted values, and of what is not wanted all that the original did not
      have, map by map. */
  ghost predicate ThreeWay(original: Value, want: Value, live: Option<Value>, after: Option<Value>)
    decreases want
  {
    if !want.Obj? then after == Some(want)
    else
      var was, before := ToMap(original), if live.Some? then ToMap(live.value) else map[];
      && after.Some? && after.value.Obj?
      && (forall k :: k in want.fields ==>
            ThreeWay(Field(was, k), want.fields[k], Find(before, k), Find(after.value.fields, k)))
      && (forall k :: k !in want.fields ==>
            Find(after.value.fields, k) == if k in was then None else Find(before, k))
  }

  /** And that is what the difference, merged into what is live, leaves; but where it is wanted already nothing is
      sent, and where no map is live what is wanted stands alone. */
  lemma {:induction false} MergeIsThreeWay(original: Value, want: Value, live: Option<Value>)
    requires NoNulls(want)
    ensures ThreeWay(original, want, live, AfterEntry(original, want, live))
    decreases want
  {
    hide Merged, Difference;
    if want.Obj? {
      if live.Some? && live.value.Obj? {
        MergeIsThreeWayInMap(ToMap(original), want.fields, live.value.fields);
        MergedEmpty(live.value.fields);
        AlreadyThere(ToMap(original), want.fields);
        assert AfterEntry(original, want, live) ==
          Some(Merged(live.value, Obj(Difference(ToMap(original), want.fields, live.value.fields))));
      } else {
        MergedFresh(want, if live.Some? then live.value else Null);
        forall k | k in want.fields
          ensures ThreeWay(Field(ToMap(original), k), want.fields[k], None, Some(want.fields[k]))
        {
          MergedFresh(want.fields[k], Null);
          MergeIsThreeWay(Field(ToMap(original), k), want.fields[k], None);
        }
      }
    } else {
      MergedFresh(want, if live.Some? then live.value else Null);
    }
  }

  lemma {:induction false} MergeIsThreeWayInMap(original: Record, want: Record, live: Record)
    requires NoNulls(Obj(want))
    ensures ThreeWay(Obj(original), Obj(want), Some(Obj(live)),
      Some(Merged(Obj(live), Obj(Difference(original, want, live)))))
    decreases Obj(want), 0
  {
    hide Merged, Difference, AfterEntry;
    MergedAt(original, want, live, "");
    forall k
      ensures var after := Find(ToMap(Merged(Obj(live), Obj(Difference(original, want, live)))), k);
        if k in want then ThreeWay(Field(original, k), want[k], Find(live, k), after)
        else after == if k in original then None else Find(live, k)
    {
      MergedAt(original, want, live, k);
      if k in want {
        MergeIsThreeWay(Field(original, k), want[k], Find(live, k));
      }
    }
  }

  lemma EntryNotNull(original: Value, want: Value, live: Option<Value>)
    requires NoNulls(want)
    ensures Entry(original, want, live) != Some(Null)
  {
  }

  /** After the merge nothing is left to change, with a copy of what is wanted as the original. */
  lemma {:induction false} NothingLeft(original: Record, want: Record, live: Record, copy: Record)
    requires NoNulls(Obj(want)) && Within(copy, want)
    ensures var after := Merged(Obj(live), Obj(Difference(original, want, live)));
      after.Obj? && Difference(copy, want, after.fields) == map[]
    decreases Obj(want), 0
  {
    hide Merged, Entry, AfterEntry;
    MergedAt(original, want, live, "");
    var after := Merged(Obj(live), Obj(Difference(original, want, live))).fields;
    forall k | k in want ensures Entry(Field(copy, k), want[k], Find(after, k)) == None {
      MergedAt(original, want, live, k);
      EntrySettles(Field(original, k), want[k], Find(live, k), Field(copy, k));
    }
    assert forall k :: k in copy ==> k in want;
  }

  lemma {:induction false} EntrySettles(original: Value, want: Value, live: Option<Value>, copy: Value)
    requires NoNulls(want) && (copy.Obj? && want.Obj? ==> Within(copy.fields, want.fields))
    ensures Entry(copy, want, AfterEntry(original, want, live)) == None
    decreases want, 1
  {
    hide Merged, Difference;
    if want.Obj? && live.Some? && live.value.Obj? {
      NothingLeft(ToMap(original), want.fields, live.value.fields, ToMap(copy));
      MergedEmpty(live.value.fields);
      AlreadyThere(ToMap(copy), want.fields);
    } else {
      MergedFresh(want, if live.Some? then live.value else Null);
    }
  }

  lemma MergedEmpty(live: Record)
    ensures Merged(Obj(live), Obj(map[])) == Obj(live)
  {
    assert Merged(Obj(live), Obj(map[])).fields == live;
  }

  lemma AlreadyThere(original: Record, want: Record)
    ensures Difference(original, want, want) == map[]
  {
  }
}
