/** The theorems about runs, for the runs that Apply actually makes. */
module Guarantees {
  import opened Kube
  import opened Engine
  import opened EngineFacts
  import opened Isolation
  import opened Convergence
  import opened Versions
  import opened ApplyRun
  import OS = ObjectSet

  /** The run of Apply on a set whose objects were added in the given order. */
  ghost predicate AppliesTo(s: Setup, added: seq<Object>, known: seq<GVK>, order: seq<GVK>,
                            choices: seq<Choice>, states: seq<Engine.Run>)
  {
    && s.declared == DeclaredIds(added)
    && OS.ProcessingOrder(added, known, order)
    && IsRun(s, false, order, StampAll(s, OS.FiledByGVK(added)), choices, states)
    && Stored(states[0].w.objects)
    && forall i :: 0 <= i < |order| ==> UpToDate(s, order[i], states[i].w)
  }

  /** What process is given carries the set's hash, is filed under its own keys, and is declared. */
  lemma StampedInputs(s: Setup, added: seq<Object>)
    requires s.declared == DeclaredIds(added)
    ensures var raws := StampAll(s, OS.FiledByGVK(added));
      forall gvk :: gvk in raws ==>
        && WellKeyed(raws[gvk]) && AllStamped(s, raws[gvk])
        && forall k :: k in raws[gvk] ==> Id(gvk.GK(), k) in s.declared
  {
    var filed := OS.FiledByGVK(added);
    FiledRight(added);
    OS.FiledFacts(added);
    forall gvk, k | gvk in filed && k in filed[gvk] ensures Id(gvk.GK(), k) in s.declared {
      assert OS.At(filed, gvk, k).Some?;
      assert filed[gvk][k] in added;
    }
  }

  lemma AppliesCleanly(s: Setup, added: seq<Object>, known: seq<GVK>, order: seq<GVK>,
                       choices: seq<Choice>, states: seq<Engine.Run>)
    requires AppliesTo(s, added, known, order, choices, states)
    ensures CleanRun(s, order, StampAll(s, OS.FiledByGVK(added)), choices, states)
  {
    hide ProcessKind, Legal, StampAll;
    StampedInputs(s, added);
  }

  /** No run without errors refuses a kind, and each kind is normalised. */
  lemma ErrorFreeKind(s: Setup, order: seq<GVK>, raws: map<GVK, Objs>, choices: seq<Choice>, states: seq<Engine.Run>,
                      i: nat)
    requires CleanRun(s, order, raws, choices, states) && i < |order| && states[|order|].errs == states[0].errs
    ensures !Refused(s, order[i]) && Normalised(s, order[i], Raw(raws, order[i]), choices[i].objs)
  {
    hide KindEffect, UpToDate, Normalised, Stored;
    NoErrors(s, order, raws, choices, states, i);
    assert Legal(s, order[i], Raw(raws, order[i]), states[i].w, choices[i]);
  }

  /** Whether the versions of every kind agree can be told from the declared keys, the default namespace and
      the owner's. */
  lemma AgreementKnownBeforehand(s: Setup, added: seq<Object>, known: seq<GVK>, order: seq<GVK>,
                                 choices: seq<Choice>, states: seq<Engine.Run>)
    requires AppliesTo(s, added, known, order, choices, states) && states[|order|].errs == states[0].errs
    ensures VersionsAgree(s, order, choices) <==> KeysAgree(s, order, StampAll(s, OS.FiledByGVK(added)))
  {
    hide ProcessKind, Legal, Normalised, UpToDate, Stored, StampAll, Protected, KeysAgree, VersionsAgree;
    var raws := StampAll(s, OS.FiledByGVK(added));
    AppliesCleanly(s, added, known, order, choices, states);
    forall i | 0 <= i < |order|
      ensures !Refused(s, order[i]) && Normalised(s, order[i], Raw(raws, order[i]), choices[i].objs)
    {
      ErrorFreeKind(s, order, raws, choices, states, i);
    }
    VersionsAgreeExactlyWhen(s, order, raws, choices);
  }

  /** The object will be found under a key that its own declaration tells the filter. */
  predicate Plain(s: Setup, o: Object) {
    o.gvk in s.scopes ==> if s.scopes[o.gvk] then o.ns != "" || HomeNs(s) == s.defaultNs else o.ns == ""
  }

  /** They agree if no namespaced object is to get its namespace from an owner, and no cluster-scoped one is
      declared with a namespace. */
  lemma VersionsDoAgree(s: Setup, added: seq<Object>, known: seq<GVK>, order: seq<GVK>,
                        choices: seq<Choice>, states: seq<Engine.Run>)
    requires AppliesTo(s, added, known, order, choices, states) && states[|order|].errs == states[0].errs
    requires forall o :: o in added && o.gvk in order ==> Plain(s, o)
    ensures VersionsAgree(s, order, choices)
  {
    hide ProcessKind, Legal, Normalised, UpToDate, Stored, StampAll, Protected, NormalKey;
    var raws := StampAll(s, OS.FiledByGVK(added));
    AgreementKnownBeforehand(s, added, known, order, choices, states);
    AppliesCleanly(s, added, known, order, choices, states);
    forall i, k | 0 <= i < |order| && k in Raw(raws, order[i])
      ensures Protected(s, order[i].GK(), NormalKey(s, order[i], k))
    {
      ErrorFreeKind(s, order, raws, choices, states, i);
      DeclaredObject(s, added, order[i], k);
      ProtectedExactlyWhen(s, order[i], k);
    }
  }

  lemma DeclaredObject(s: Setup, added: seq<Object>, gvk: GVK, k: Key)
    requires s.declared == DeclaredIds(added) && k in Raw(StampAll(s, OS.FiledByGVK(added)), gvk)
    ensures Id(gvk.GK(), k) in s.declared && exists o :: o in added && o.gvk == gvk && o.MetaKey() == k
  {
    OS.FiledFacts(added);
    var filed := OS.FiledByGVK(added);
    assert OS.At(filed, gvk, k).Some?;
    assert filed[gvk][k] in added;
  }

  /** The keys of the normalised objects do not depend on the order of any range. */
  lemma SameKeys(s: Setup, gvk: GVK, raw: Objs, a: Objs, b: Objs)
    requires !Refused(s, gvk) && Normalised(s, gvk, raw, a) && Normalised(s, gvk, raw, b)
    ensures a.Keys == b.Keys
  {
  }

  lemma AppliesInFull(s: Setup, added: seq<Object>, known: seq<GVK>, order: seq<GVK>,
                      choices: seq<Choice>, states: seq<Engine.Run>)
    requires AppliesTo(s, added, known, order, choices, states) && states[|order|].errs == states[0].errs
    requires AllPatchable(s, order, choices)
    requires forall gvk :: gvk in order ==> !Gated(s, gvk) && ListsEverywhere(s, gvk)
    ensures FullRun(s, order, StampAll(s, OS.FiledByGVK(added)), choices, states)
  {
    hide ProcessKind, Legal, UpToDate, Stored, StampAll, AllPatchable;
    AppliesCleanly(s, added, known, order, choices, states);
    StampedInputs(s, added);
  }

  /** Convergence of Apply: an error-free run leaves every kind as wanted; applying the same set again,
      without errors, finds nothing to create and nothing to delete, whatever was desired or live. */
  lemma ApplyConverges(s: Setup, added: seq<Object>, known: seq<GVK>, order: seq<GVK>,
                       choices: seq<Choice>, states: seq<Engine.Run>,
                       choices': seq<Choice>, states': seq<Engine.Run>, i: nat)
    requires AppliesTo(s, added, known, order, choices, states) && states[|order|].errs == states[0].errs
    requires AppliesTo(s, added, known, order, choices', states') && states'[|order|].errs == states'[0].errs
    requires states'[0].w.objects == states[|order|].w.objects
    requires AllPatchable(s, order, choices) && AllPatchable(s, order, choices')
    requires KeysAgree(s, order, StampAll(s, OS.FiledByGVK(added)))
    requires forall gvk :: gvk in order ==> !Gated(s, gvk) && ListsEverywhere(s, gvk)
    requires i < |order|
    ensures Converged(s, order[i].GK(), choices[i].objs.Keys, states[|order|].w.objects)
    ensures choices'[i].create == [] && choices'[i].delete == []
  {
    hide ProcessKind, Legal, Normalised, UpToDate, Stored, StampAll, Protected, AllPatchable, Converged, KeysAgree;
    var raws := StampAll(s, OS.FiledByGVK(added));
    AppliesCleanly(s, added, known, order, choices, states);
    AppliesCleanly(s, added, known, order, choices', states');
    StampedInputs(s, added);
    AgreementKnownBeforehand(s, added, known, order, choices, states);
    AgreementKnownBeforehand(s, added, known, order, choices', states');
    forall j | 0 <= j < |order|
      ensures Converged(s, order[j].GK(), choices[j].objs.Keys, states[|order|].w.objects)
      ensures choices'[j].objs.Keys == choices[j].objs.Keys
    {
      RunConverges(s, order, raws, choices, states, |order|, j);
      ErrorFreeKind(s, order, raws, choices, states, j);
      ErrorFreeKind(s, order, raws, choices', states', j);
      SameKeys(s, order[j], Raw(raws, order[j]), choices[j].objs, choices'[j].objs);
    }
    SecondApplyIsQuiet(s, order, raws, choices', states', i);
  }

  /** And exactly when: after an error-free Apply every kind is as wanted if and only if the versions agree
      about all objects that do not end up marked prune "false". */
  lemma ApplyConvergesExactlyWhen(s: Setup, added: seq<Object>, known: seq<GVK>, order: seq<GVK>,
                                  choices: seq<Choice>, states: seq<Engine.Run>)
    requires AppliesTo(s, added, known, order, choices, states) && states[|order|].errs == states[0].errs
    requires AllPatchable(s, order, choices)
    requires forall gvk :: gvk in order ==> !Gated(s, gvk) && ListsEverywhere(s, gvk)
    ensures AllConverged(s, order, choices, states[|order|].w.objects) <==>
            Agreed(s, order, choices, states[|order|].w.objects)
    ensures (forall id: Id :: id in states[|order|].w.objects ==> ShouldPrune(states[|order|].w.objects[id])) ==>
            (AllConverged(s, order, choices, states[|order|].w.objects) <==>
             KeysAgree(s, order, StampAll(s, OS.FiledByGVK(added))))
  {
    hide ProcessKind, Legal, Normalised, UpToDate, Stored, StampAll, Protected, ShouldPrune, AllPatchable, Converged,
         KeysAgree;
    AppliesInFull(s, added, known, order, choices, states);
    ConvergesExactlyWhen(s, order, StampAll(s, OS.FiledByGVK(added)), choices, states);
    AgreementKnownBeforehand(s, added, known, order, choices, states);
  }
}
