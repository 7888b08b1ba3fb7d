/** A set that undoes its own work: the filter that protects what other versions declare does not know the
    namespace an object is given by its owner. */
module OwnerNamespace {
  import opened Common
  import opened Kube
  import opened Engine
  import opened EngineFacts
  import opened Isolation
  import opened Convergence
  import opened Versions
  import opened ApplyRun
  import opened Guarantees
  import Namespaces
  import Retry
  import OS = ObjectSet

  /** One namespaced object, declared under one version of its kind without a namespace, in a set whose owner
      has another namespace than the default one; another version of the kind is processed as well. */
  predicate HomelessIn(s: Setup, o: Object, other: GVK) {
    && other != o.gvk && other.GK() == o.gvk.GK()
    && o.gvk in s.scopes && s.scopes[o.gvk] && other in s.scopes && s.scopes[other]
    && o.ns == "" && HomeNs(s) != s.defaultNs
    && ShouldPrune(o) && !Gated(s, other) && ListsEverywhere(s, other)
  }

  /** Where the object comes to live. */
  function HomeOf(s: Setup, o: Object): Key {
    Key(HomeNs(s), o.name)
  }

  function RawsOf(s: Setup, o: Object): map<GVK, Objs> {
    StampAll(s, OS.FiledByGVK([o]))
  }

  lemma RawObjects(s: Setup, o: Object, other: GVK)
    requires other != o.gvk && s.declared == DeclaredIds([o])
    ensures Raw(RawsOf(s, o), o.gvk) == map[o.MetaKey() := Stamped(s, o)] && Raw(RawsOf(s, o), other) == map[]
    ensures s.declared == {Id(o.gvk.GK(), o.MetaKey())}
  {
    assert [o][..0] == [];
    assert OS.FiledByGVK([o]) == map[o.gvk := map[o.MetaKey() := o]];
  }

  lemma HomeIsUnprotected(s: Setup, o: Object, other: GVK)
    requires HomelessIn(s, o, other) && s.declared == DeclaredIds([o])
    ensures NormalKey(s, o.gvk, o.MetaKey()) == HomeOf(s, o) && !Protected(s, other.GK(), HomeOf(s, o))
  {
    RawObjects(s, o, other);
  }

  /** What the two passes over the kind are about: the object, at home, under its own version, and nothing
      under the other. */
  lemma HomeKeys(s: Setup, o: Object, other: GVK, a: Objs, b: Objs)
    requires HomelessIn(s, o, other) && s.declared == DeclaredIds([o]) && !Refused(s, o.gvk) && !Refused(s, other)
    requires Normalised(s, o.gvk, Raw(RawsOf(s, o), o.gvk), a) && Normalised(s, other, Raw(RawsOf(s, o), other), b)
    ensures a.Keys == {HomeOf(s, o)} && b == map[]
    ensures HasHash(a[HomeOf(s, o)], s.hash) && ShouldPrune(a[HomeOf(s, o)])
  {
    hide Normalised, StampAll;
    var raw := Raw(RawsOf(s, o), o.gvk);
    RawObjects(s, o, other);
    HomeIsUnprotected(s, o, other);
    NormalKeys(s, o.gvk, raw, a);
    NormalKeys(s, other, map[], b);
    assert o.MetaKey() in raw;
    NormalisedFacts(s, o.gvk, raw, a);
    assert From(raw, a[HomeOf(s, o)]);
  }

  lemma TwoPasses(s: Setup, o: Object, other: GVK, choices: seq<Choice>, states: seq<Engine.Run>, i: nat)
    requires AppliesTo(s, [o], [other], [o.gvk, other], choices, states) && states[2].errs == states[0].errs && i < 2
    ensures var gvk := [o.gvk, other][i];
      && |choices| == 2 && |states| == 3
      && !Refused(s, gvk) && Normalised(s, gvk, Raw(RawsOf(s, o), gvk), choices[i].objs)
      && KindEffect(s, gvk, choices[i], states[i], states[i + 1]) && states[i + 1].errs == states[i].errs
      && UpToDate(s, gvk, states[i].w)
  {
    hide ProcessKind, Legal, Normalised, UpToDate, StampAll, KindEffect, Stored, DeclaredIds;
    var order := [o.gvk, other];
    AppliesCleanly(s, [o], [other], order, choices, states);
    ErrorFreeKind(s, order, RawsOf(s, o), choices, states, i);
    StoredAlong(s, order, RawsOf(s, o), choices, states, i);
    NoErrors(s, order, RawsOf(s, o), choices, states, i);
  }

  lemma DeclaredInRun(s: Setup, o: Object, other: GVK, choices: seq<Choice>, states: seq<Engine.Run>)
    requires AppliesTo(s, [o], [other], [o.gvk, other], choices, states)
    ensures s.declared == DeclaredIds([o])
  {
  }

  /** The pass over the object's own version creates it, and the pass over the other version, in the same
      error-free run, prunes it. */
  lemma CreatedAndPruned(s: Setup, o: Object, other: GVK, choices: seq<Choice>, states: seq<Engine.Run>)
    requires HomelessIn(s, o, other)
    requires AppliesTo(s, [o], [other], [o.gvk, other], choices, states) && states[2].errs == states[0].errs
    requires Id(o.gvk.GK(), HomeOf(s, o)) !in states[0].w.objects
    ensures var id := Id(o.gvk.GK(), HomeOf(s, o));
      && id.key in choices[0].objs && Find(states[1].w.objects, id) == Some(Prepare(s, o.gvk, choices[0].objs[id.key]))
      && id !in states[2].w.objects
  {
    hide AppliesTo, IsRun, ProcessKind, Normalised, UpToDate, RawsOf, KindEffect, Refused, HomelessIn, DeclaredIds,
         HomeOf, GVK.GK;
    assert s.declared == DeclaredIds([o]) by { DeclaredInRun(s, o, other, choices, states); }
    TwoPasses(s, o, other, choices, states, 0);
    TwoPasses(s, o, other, choices, states, 1);
    HomeKeys(s, o, other, choices[0].objs, choices[1].objs);
    Comes(s, o, choices[0], states[0], states[1]);
    PreparedStamps(s, o.gvk, choices[0].objs[HomeOf(s, o)]);
    Goes(s, o, other, choices[1], states[1], states[2]);
  }

  lemma PreparedStamps(s: Setup, gvk: GVK, want: Object)
    ensures Prepare(s, gvk, want).labels == want.labels
  {
  }

  lemma Comes(s: Setup, o: Object, c: Choice, r: Engine.Run, r': Engine.Run)
    requires KindEffect(s, o.gvk, c, r, r') && r'.errs == r.errs && HomeOf(s, o) in c.objs
    requires Id(o.gvk.GK(), HomeOf(s, o)) !in r.w.objects
    ensures Find(r'.w.objects, Id(o.gvk.GK(), HomeOf(s, o))) == Some(Prepare(s, o.gvk, c.objs[HomeOf(s, o)]))
  {
    hide KindEffect, Prepare;
    Retry.WantedIsLive(s, o.gvk, c, r, r', HomeOf(s, o));
  }

  lemma Goes(s: Setup, o: Object, other: GVK, c: Choice, r: Engine.Run, r': Engine.Run)
    requires HomelessIn(s, o, other) && s.declared == DeclaredIds([o])
    requires KindEffect(s, other, c, r, r') && r'.errs == r.errs && UpToDate(s, other, r.w) && c.objs == map[]
    requires var id := Id(o.gvk.GK(), HomeOf(s, o));
      id in r.w.objects && HasHash(r.w.objects[id], s.hash) && ShouldPrune(r.w.objects[id])
    ensures Id(o.gvk.GK(), HomeOf(s, o)) !in r'.w.objects
  {
    hide KindEffect, UpToDate, DeclaredIds;
    HomeIsUnprotected(s, o, other);
    SurvivesExactlyWhen(s, other, c, r, r', HomeOf(s, o));
  }

  // -------- there are such runs --------

  /** Nothing stands in the way of the two passes. */
  ghost predicate Undisturbed(s: Setup, o: Object, other: GVK) {
    && !Refused(s, o.gvk) && !Refused(s, other)
    && o.gvk !in s.informers && other !in s.informers
    && forall n :: s.outcome(n) == Outcome.Served
  }

  function Normal(s: Setup, gvk: GVK, raw: Objs): Objs
    requires !Refused(s, gvk)
  {
    Namespaces.Defaulting(s.defaultNs).All(Adopted(s, gvk, raw))
  }

  lemma NormalIsNormalised(s: Setup, gvk: GVK, raw: Objs)
    requires !Refused(s, gvk) && s.scopes[gvk]
    ensures Normalised(s, gvk, raw, Normal(s, gvk, raw))
  {
  }

  /** Whatever the two passes normalise to. */
  lemma NormalKeysOfBoth(s: Setup, o: Object, other: GVK)
    requires HomelessIn(s, o, other) && s.declared == DeclaredIds([o]) && Undisturbed(s, o, other)
    ensures var a := Normal(s, o.gvk, Raw(RawsOf(s, o), o.gvk));
      && a.Keys == {HomeOf(s, o)} && HasHash(a[HomeOf(s, o)], s.hash) && ShouldPrune(a[HomeOf(s, o)])
      && Normalised(s, o.gvk, Raw(RawsOf(s, o), o.gvk), a)
    ensures Raw(RawsOf(s, o), other) == map[] && Normalised(s, other, map[], map[])
  {
    hide Refused, DeclaredIds, RawsOf, HomeOf, Normal, Normalised;
    RawObjects(s, o, other);
    NormalIsNormalised(s, o.gvk, Raw(RawsOf(s, o), o.gvk));
    NormalIsNormalised(s, other, map[]);
    HomeKeys(s, o, other, Normal(s, o.gvk, Raw(RawsOf(s, o), o.gvk)), Normal(s, other, map[]));
  }

  /** The listing of a kind of which at most one object is there. */
  lemma ListsOne(s: Setup, gvk: GVK, c: Choice, w: World, k: Key)
    requires !Refused(s, gvk) && gvk !in s.informers && ListsEverywhere(s, gvk) && s.scopes[gvk]
    requires s.outcome(|w.calls|) == Outcome.Served
    requires forall id :: id in w.objects ==> id == Id(gvk.GK(), k) && HasHash(w.objects[id], s.hash)
    ensures Found(s, gvk, c, w).Some?
    ensures forall j :: j in Found(s, gvk, c, w).value <==> j == k && Id(gvk.GK(), k) in w.objects
    ensures k in Found(s, gvk, c, w).value ==> Found(s, gvk, c, w).value[k] == w.objects[Id(gvk.GK(), k)].As(gvk)
  {
    hide Refused;
    forall j ensures j in Found(s, gvk, c, w).value <==> j == k && Id(gvk.GK(), k) in w.objects {
      ListsAll(s, gvk, c, w, j);
    }
    ListsAll(s, gvk, c, w, k);
  }

  lemma OneOrdered(k: Key)
    ensures Ordered([k], {k}) && Ordered([], {})
  {
  }

  function FirstChoice(s: Setup, o: Object): Choice
    requires !Refused(s, o.gvk)
  {
    Choice(Normal(s, o.gvk, Raw(RawsOf(s, o), o.gvk)), [HomeOf(s, o)], [], [])
  }

  function SecondChoice(s: Setup, o: Object): Choice {
    Choice(map[], [], [], [HomeOf(s, o)])
  }

  /** The choice is legal, and the kind can be listed. */
  ghost predicate Possible(s: Setup, gvk: GVK, raw: Objs, c: Choice, w: World) {
    Legal(s, gvk, raw, w, c) && UpToDate(s, gvk, w) && Found(s, gvk, c, w).Some?
  }

  lemma PossibleIf(s: Setup, gvk: GVK, raw: Objs, c: Choice, w: World)
    requires !Refused(s, gvk) && gvk !in s.informers && Normalised(s, gvk, raw, c.objs)
    requires Found(s, gvk, c, w).Some? && Lists(s, gvk, c, Found(s, gvk, c, w).value)
    ensures Possible(s, gvk, raw, c, w)
  {
    hide Normalised, Lists, Listing, Refused;
  }

  /** One object is to be created, or one to be deleted. */
  lemma OneKey(s: Setup, gvk: GVK, c: Choice, existing: Objs, k: Key)
    requires || (c == Choice(c.objs, [k], [], []) && c.objs.Keys == {k} && existing == map[])
             || (c == Choice(map[], [], [], [k]) && existing.Keys == {k} && ShouldPrune(existing[k]) &&
               !Protected(s, gvk.GK(), k))
    ensures Lists(s, gvk, c, existing)
  {
    hide Protected, ShouldPrune;
    OneOrdered(k);
    assert c.objs.Keys * existing.Keys == {};
    assert c.objs.Keys - existing.Keys == if existing == map[] then {k} else {};
    assert ToDelete(s, gvk, c.objs.Keys, existing) == if existing == map[] then {} else {k};
  }

  lemma FirstIsPossible(s: Setup, o: Object, other: GVK, w: World)
    requires HomelessIn(s, o, other) && s.declared == DeclaredIds([o]) && Undisturbed(s, o, other)
    requires w.objects == map[]
    ensures Possible(s, o.gvk, Raw(RawsOf(s, o), o.gvk), FirstChoice(s, o), w)
    ensures FirstChoice(s, o).objs.Keys == {HomeOf(s, o)}
  {
    hide Refused, DeclaredIds, RawsOf, HomeOf, Normal, Normalised, Found, Lists;
    var c, k := FirstChoice(s, o), HomeOf(s, o);
    NormalKeysOfBoth(s, o, other);
    ListsOne(s, o.gvk, c, w, k);
    assert Found(s, o.gvk, c, w).value == map[];
    OneKey(s, o.gvk, c, map[], k);
    PossibleIf(s, o.gvk, Raw(RawsOf(s, o), o.gvk), c, w);
  }

  lemma SecondIsPossible(s: Setup, o: Object, other: GVK, w: World)
    requires HomelessIn(s, o, other) && s.declared == DeclaredIds([o]) && Undisturbed(s, o, other)
    requires forall id :: id in w.objects <==> id == Id(other.GK(), HomeOf(s, o))
    requires forall id :: id in w.objects ==> HasHash(w.objects[id], s.hash) && ShouldPrune(w.objects[id])
    ensures Possible(s, other, Raw(RawsOf(s, o), other), SecondChoice(s, o), w)
  {
    hide Refused, DeclaredIds, RawsOf, HomeOf, Protected, Normal, Normalised, Found, Lists;
    var c, k := SecondChoice(s, o), HomeOf(s, o);
    NormalKeysOfBoth(s, o, other);
    HomeIsUnprotected(s, o, other);
    ListsOne(s, other, c, w, k);
    var found := Found(s, other, c, w).value;
    assert found.Keys == {k} && found[k].labels == w.objects[Id(other.GK(), k)].labels;
    OneKey(s, other, c, found, k);
    PossibleIf(s, other, map[], c, w);
  }

  /** A pass over a kind of which nothing wanted is there yet meets no error. */
  lemma NoErrorsYet(s: Setup, gvk: GVK, raw: Objs, c: Choice, r: Engine.Run)
    requires Possible(s, gvk, raw, c, r.w) && WellKeyed(raw) && Stored(r.w.objects)
    requires forall n :: s.outcome(n) == Outcome.Served
    requires forall k :: k in c.objs ==> Id(gvk.GK(), k) !in r.w.objects
    ensures var r' := ProcessKind(s, false, gvk, raw, c, r);
      r'.errs == r.errs && Stored(r'.w.objects) && KindEffect(s, gvk, c, r, r')
  {
    hide ProcessKind, Legal, Found, KindEffect, UpToDate;
    Retry.QuietKind(s, gvk, raw, c, r);
    KindDoes(s, gvk, raw, c, r);
  }

  /** What is there after the first pass. */
  lemma OnlyHome(s: Setup, o: Object, c: Choice, r: Engine.Run, r': Engine.Run)
    requires KindEffect(s, o.gvk, c, r, r') && r'.errs == r.errs && r.w.objects == map[]
    requires c.objs.Keys == {HomeOf(s, o)}
    ensures forall id :: id in r'.w.objects ==> id == Id(o.gvk.GK(), HomeOf(s, o))
  {
    hide Becomes, MayBecome, Lists;
    forall id | id in r'.w.objects ensures id == Id(o.gvk.GK(), HomeOf(s, o)) {
      assert Find(r'.w.objects, id) != Find(r.w.objects, id);
    }
  }

  lemma FirstPass(s: Setup, o: Object, other: GVK, r: Engine.Run)
    requires HomelessIn(s, o, other) && s.declared == DeclaredIds([o]) && Undisturbed(s, o, other)
    requires r.w.objects == map[]
    ensures Possible(s, o.gvk, Raw(RawsOf(s, o), o.gvk), FirstChoice(s, o), r.w)
    ensures var r' := ProcessKind(s, false, o.gvk, Raw(RawsOf(s, o), o.gvk), FirstChoice(s, o), r);
      && r'.errs == r.errs && Stored(r'.w.objects)
      && (forall id :: id in r'.w.objects <==> id == Id(o.gvk.GK(), HomeOf(s, o)))
      && forall id :: id in r'.w.objects ==> HasHash(r'.w.objects[id], s.hash) && ShouldPrune(r'.w.objects[id])
  {
    hide ProcessKind, KindEffect, Found, DeclaredIds, RawsOf, HomeOf, Legal, Normalised;
    var raw, c := Raw(RawsOf(s, o), o.gvk), FirstChoice(s, o);
    FirstIsPossible(s, o, other, r.w);
    assert WellKeyed(raw) by { RawObjects(s, o, other); }
    NoErrorsYet(s, o.gvk, raw, c, r);
    var r' := ProcessKind(s, false, o.gvk, raw, c, r);
    OnlyHome(s, o, c, r, r');
    Comes(s, o, c, r, r');
    FirstStamps(s, o, other);
    PreparedStamps(s, o.gvk, c.objs[HomeOf(s, o)]);
  }

  lemma FirstStamps(s: Setup, o: Object, other: GVK)
    requires HomelessIn(s, o, other) && s.declared == DeclaredIds([o]) && Undisturbed(s, o, other)
    ensures HomeOf(s, o) in FirstChoice(s, o).objs
    ensures var want := FirstChoice(s, o).objs[HomeOf(s, o)]; HasHash(want, s.hash) && ShouldPrune(want)
  {
    NormalKeysOfBoth(s, o, other);
  }

  lemma SecondPass(s: Setup, o: Object, other: GVK, r: Engine.Run)
    requires HomelessIn(s, o, other) && s.declared == DeclaredIds([o]) && Undisturbed(s, o, other) &&
      Stored(r.w.objects)
    requires forall id :: id in r.w.objects <==> id == Id(other.GK(), HomeOf(s, o))
    requires forall id :: id in r.w.objects ==> HasHash(r.w.objects[id], s.hash) && ShouldPrune(r.w.objects[id])
    ensures Possible(s, other, Raw(RawsOf(s, o), other), SecondChoice(s, o), r.w)
    ensures ProcessKind(s, false, other, Raw(RawsOf(s, o), other), SecondChoice(s, o), r).errs == r.errs
  {
    hide ProcessKind, Found, DeclaredIds, RawsOf, HomeOf, Legal;
    SecondIsPossible(s, o, other, r.w);
    assert WellKeyed(Raw(RawsOf(s, o), other)) by { RawObjects(s, o, other); }
    NoErrorsYet(s, other, Raw(RawsOf(s, o), other), SecondChoice(s, o), r);
  }

  lemma TwoKinds(o: Object, other: GVK)
    requires other != o.gvk
    ensures OS.ProcessingOrder([o], [other], [o.gvk, other])
  {
    assert [o][..0] == [];
    assert OS.FirstSeen([o]) == [o.gvk];
    assert [o.gvk, other][1..] == [other];
  }

  /** From an empty cluster there is such a run: it creates the object, ends without an error, and leaves
      nothing. */
  lemma SomeRunPrunes(s: Setup, o: Object, other: GVK) returns (choices: seq<Choice>, states: seq<Engine.Run>)
    requires HomelessIn(s, o, other) && s.declared == DeclaredIds([o]) && Undisturbed(s, o, other)
    ensures AppliesTo(s, [o], [other], [o.gvk, other], choices, states)
    ensures states[0].w.objects == map[] && states[2].errs == states[0].errs
    ensures Id(o.gvk.GK(), HomeOf(s, o)) in states[1].w.objects && Id(o.gvk.GK(), HomeOf(s, o)) !in states[2].w.objects
  {
    hide ProcessKind, Legal, Found, DeclaredIds, StampAll, FirstChoice, SecondChoice, HomeOf, OS.ProcessingOrder,
         OS.FiledByGVK, UpToDate;
    var r0 := Engine.Run(World(map[], []), [], Plan(map[], map[], map[], []));
    FirstPass(s, o, other, r0);
    var r1 := ProcessKind(s, false, o.gvk, Raw(RawsOf(s, o), o.gvk), FirstChoice(s, o), r0);
    SecondPass(s, o, other, r1);
    var r2 := ProcessKind(s, false, other, Raw(RawsOf(s, o), other), SecondChoice(s, o), r1);
    choices, states := [FirstChoice(s, o), SecondChoice(s, o)], [r0, r1, r2];
    TwoKinds(o, other);
    assert IsRun(s, false, [o.gvk, other], RawsOf(s, o), choices, states);
    CreatedAndPruned(s, o, other, choices, states);
  }
}
