/** Several versions of one kind in one run: when processing one version prunes what another desires. */
module Versions {
  import opened Common
  import opened Kube
  import opened Engine
  import opened EngineFacts
  import opened Isolation
  import opened Convergence
  import opened Namespaces

  // -------- at the end of a run --------

  /** The object is live and marked not to be pruned. */
  ghost predicate KeptByLabel(objects: map<Id, Object>, id: Id) {
    id in objects && !ShouldPrune(objects[id])
  }

  /** What one version desires is desired, protected, or marked, under every other. */
  ghost predicate Agreed(s: Setup, order: seq<GVK>, choices: seq<Choice>, objects: map<Id, Object>)
    requires |order| == |choices|
  {
    forall i, j, k :: 0 <= i < |order| && 0 <= j < |order| && order[i].GK() == order[j].GK() && k in choices[i].objs ==>
      k in choices[j].objs || Protected(s, order[j].GK(), k) || KeptByLabel(objects, Id(order[i].GK(), k))
  }

  ghost predicate AllConverged(s: Setup, order: seq<GVK>, choices: seq<Choice>, objects: map<Id, Object>)
    requires |order| == |choices|
  {
    forall i :: 0 <= i < |order| ==> Converged(s, order[i].GK(), choices[i].objs.Keys, objects)
  }

  /** An error-free run under which every kind could converge. */
  ghost predicate FullRun(s: Setup, order: seq<GVK>, raws: map<GVK, Objs>, choices: seq<Choice>, states: seq<Run>) {
    && CleanRun(s, order, raws, choices, states) && states[|order|].errs == states[0].errs
    && AllPatchable(s, order, choices)
    && (forall gvk :: gvk in raws ==> AllStamped(s, raws[gvk]))
    && forall gvk :: gvk in order ==> !Gated(s, gvk) && ListsEverywhere(s, gvk)
  }

  /** One step of the run, with everything known of it. */
  lemma StepOf(s: Setup, order: seq<GVK>, raws: map<GVK, Objs>, choices: seq<Choice>, states: seq<Run>, i: nat)
    requires FullRun(s, order, raws, choices, states) && i < |order|
    ensures KindEffect(s, order[i], choices[i], states[i], states[i + 1]) && states[i + 1].errs == states[i].errs
    ensures AllStamped(s, choices[i].objs) && Patchable(s, order[i], choices[i].objs)
    ensures UpToDate(s, order[i], states[i].w) && !Gated(s, order[i]) && ListsEverywhere(s, order[i])
  {
    hide ProcessKind, Legal, KindEffect, UpToDate, Patchable;
    NoErrors(s, order, raws, choices, states, i);
    StoredAlong(s, order, raws, choices, states, i);
    ChoiceStamped(s, order, raws, choices, states, i);
    assert order[i] in order;
  }

  /** A desired object is gone, or live with the hash; it is live if no version can prune it. */
  lemma {:induction false} DesiredStays(s: Setup, order: seq<GVK>, raws: map<GVK, Objs>, choices: seq<Choice>,
                                        states: seq<Run>, i: nat, k: Key, n: nat)
    requires FullRun(s, order, raws, choices, states) && i < n <= |order| && k in choices[i].objs
    ensures var id := Id(order[i].GK(), k);
      && (id in states[n].w.objects ==> HasHash(states[n].w.objects[id], s.hash))
      && ((forall j :: 0 <= j < |order| && order[j].GK() == id.gk ==>
             k in choices[j].objs || Protected(s, id.gk, k)) ==>
          id in states[n].w.objects)
    decreases n
  {
    hide ProcessKind, Legal, KindEffect, UpToDate, Patchable, Becomes, MayBecome, Protected, HasLabels;
    var id, j := Id(order[i].GK(), k), n - 1;
    StepOf(s, order, raws, choices, states, j);
    if i < j {
      DesiredStays(s, order, raws, choices, states, i, k, j);
    }
    if order[j].GK() == id.gk && k in choices[j].objs {
      Arrives(s, order[j], choices[j], states[j], states[n], k);
    } else {
      KeyKept(s, order[j], choices[j], states[j], states[n], id);
      assert order[j].GK() != id.gk ==> Find(states[n].w.objects, id) == Find(states[j].w.objects, id) by {
        OtherKindKeeps(s, order[j], choices[j], states[j], states[n], id);
      }
    }
  }

  lemma Arrives(s: Setup, gvk: GVK, c: Choice, r: Run, r': Run, k: Key)
    requires KindEffect(s, gvk, c, r, r') && r'.errs == r.errs && k in c.objs
    requires Patchable(s, gvk, c.objs) && AllStamped(s, c.objs)
    ensures Live(r'.w, gvk, k).Some? && HasHash(Live(r'.w, gvk, k).value, s.hash)
  {
    hide Becomes, MayBecome, Patchable, Fresh, Lists;
    ArrivesWithHash(s, gvk, c.objs, k, Live(r.w, gvk, k), Live(r'.w, gvk, k));
  }

  /** What no version desires is, from any point of the run on, as it was or gone. */
  lemma {:induction false} UndesiredStays(s: Setup, order: seq<GVK>, raws: map<GVK, Objs>, choices: seq<Choice>,
                                          states: seq<Run>, id: Id, m: nat, n: nat)
    requires FullRun(s, order, raws, choices, states) && m <= n <= |order|
    requires !Desired(order, choices, id)
    ensures Find(states[n].w.objects, id) == Find(states[m].w.objects, id) || id !in states[n].w.objects
    decreases n
  {
    hide ProcessKind, Legal, KindEffect, UpToDate, Patchable, Protected;
    if m < n {
      UndesiredStays(s, order, raws, choices, states, id, m, n - 1);
      StepOf(s, order, raws, choices, states, n - 1);
      assert order[n - 1].GK() == id.gk ==> id.key !in choices[n - 1].objs;
      KeyKept(s, order[n - 1], choices[n - 1], states[n - 1], states[n], id);
    }
  }

  /** Exactly when an error-free run leaves every kind as the set wants it: when what one version desires
      is desired or protected under every other, but for objects that are marked prune "false". */
  lemma ConvergesExactlyWhen(s: Setup, order: seq<GVK>, raws: map<GVK, Objs>, choices: seq<Choice>, states: seq<Run>)
    requires FullRun(s, order, raws, choices, states)
    ensures AllConverged(s, order, choices, states[|order|].w.objects) <==>
            Agreed(s, order, choices, states[|order|].w.objects)
  {
    hide ProcessKind, Legal, Converged, Protected, ShouldPrune;
    var n := |order|;
    var objects := states[n].w.objects;
    if AllConverged(s, order, choices, objects) {
      ConvergedAgree(s, order, choices, objects);
    }
    if Agreed(s, order, choices, objects) {
      forall i | 0 <= i < n ensures Converged(s, order[i].GK(), choices[i].objs.Keys, objects) {
        AgreedConverges(s, order, raws, choices, states, i);
      }
    }
  }

  lemma ConvergedAgree(s: Setup, order: seq<GVK>, choices: seq<Choice>, objects: map<Id, Object>)
    requires |order| == |choices| && AllConverged(s, order, choices, objects)
    ensures Agreed(s, order, choices, objects)
  {
    hide Protected, ShouldPrune;
    forall i, j, k | 0 <= i < |order| && 0 <= j < |order| && order[i].GK() == order[j].GK() && k in choices[i].objs
      ensures k in choices[j].objs || Protected(s, order[j].GK(), k) || KeptByLabel(objects, Id(order[i].GK(), k))
    {
      assert Converged(s, order[i].GK(), choices[i].objs.Keys, objects);
      assert Converged(s, order[j].GK(), choices[j].objs.Keys, objects);
      assert k in choices[i].objs.Keys;
    }
  }

  lemma AgreedConverges(s: Setup, order: seq<GVK>, raws: map<GVK, Objs>, choices: seq<Choice>, states: seq<Run>, i: nat)
    requires FullRun(s, order, raws, choices, states) && i < |order|
    requires Agreed(s, order, choices, states[|order|].w.objects)
    ensures Converged(s, order[i].GK(), choices[i].objs.Keys, states[|order|].w.objects)
  {
    hide ProcessKind, Legal, Protected, ShouldPrune, Excused;
    var n, gk, objects := |order|, order[i].GK(), states[|order|].w.objects;
    forall k | k in choices[i].objs ensures Id(gk, k) in objects && HasHash(objects[Id(gk, k)], s.hash) {
      DesiredStays(s, order, raws, choices, states, i, k, n);
    }
    forall id: Id | id in objects && id.gk == gk && id.key !in choices[i].objs ensures Excused(s, id, objects[id]) {
      if Desired(order, choices, id) {
        var j :| 0 <= j < n && order[j].GK() == gk && id.key in choices[j].objs;
        Marked(s, id, objects);
      } else {
        NotDesired(s, order, raws, choices, states, i, id);
      }
    }
  }

  lemma Marked(s: Setup, id: Id, objects: map<Id, Object>)
    ensures Protected(s, id.gk, id.key) || KeptByLabel(objects, id) ==> id in objects ==> Excused(s, id, objects[id])
  {
  }

  lemma NotDesired(s: Setup, order: seq<GVK>, raws: map<GVK, Objs>, choices: seq<Choice>, states: seq<Run>, i: nat,
                   id: Id)
    requires FullRun(s, order, raws, choices, states) && i < |order|
    requires id.gk == order[i].GK() && !Desired(order, choices, id) && id in states[|order|].w.objects
    ensures Excused(s, id, states[|order|].w.objects[id])
  {
    hide ProcessKind, Legal, KindEffect, UpToDate, Patchable, Protected, ShouldPrune, Excused, AllStamped;
    UndesiredStays(s, order, raws, choices, states, id, i + 1, |order|);
    StepOf(s, order, raws, choices, states, i);
    assert id.key !in choices[i].objs;
    NotPruned(s, order[i], choices[i], states[i], states[i + 1], id);
  }

  // -------- before the run --------

  /** The namespace that a namespaced object declared without one ends up in. */
  function HomeNs(s: Setup): string {
    if s.setOwnerReference && s.owner.Some? && s.owner.value.ns != "" then s.owner.value.ns else s.defaultNs
  }

  /** The key under which a declared object is looked for in the cluster. */
  function NormalKey(s: Setup, gvk: GVK, k: Key): Key {
    if gvk in s.scopes && !s.scopes[gvk] then Key("", k.name)
    else if k.ns == "" then Key(HomeNs(s), k.name)
    else k
  }

  lemma AdoptedKeys(s: Setup, gvk: GVK, raw: Objs, v: Visit)
    requires !Refused(s, gvk)
    requires v.moves == (s.setOwnerReference && s.owner.Some? && s.scopes[gvk])
    requires v.dest == if s.owner.Some? then s.owner.value.ns else ""
    ensures forall q :: q in Adopted(s, gvk, raw) <==> exists k :: k in raw && v.Target(k) == q
  {
    if s.setOwnerReference && s.owner.Some? {
      var a := Adoption(OwnershipOf(s), s.scopes[gvk]);
      forall q ensures q in a.All(raw) <==> exists k :: k in raw && v.Target(k) == q {
        forall k ensures a.Target(k) == v.Target(k) {}
        assert q in a.All(raw) <==> exists k :: k in raw && a.Target(k) == q;
        if k :| k in raw && v.Target(k) == q {
          assert a.Target(k) == q;
        }
      }
    } else {
      forall q ensures v.Target(q) == q {}
    }
  }

  lemma NormalKeys(s: Setup, gvk: GVK, raw: Objs, objs: Objs)
    requires !Refused(s, gvk) && Normalised(s, gvk, raw, objs)
    ensures forall q :: q in objs <==> exists k :: k in raw && NormalKey(s, gvk, k) == q
  {
    var mid := Adopted(s, gvk, raw);
    var adopts := s.setOwnerReference && s.owner.Some? && s.scopes[gvk];
    var v := Visit((k, o: Object) => o, adopts, if s.owner.Some? then s.owner.value.ns else "");
    AdoptedKeys(s, gvk, raw, v);
    forall q ensures q in objs <==> exists k :: k in raw && NormalKey(s, gvk, k) == q {
      if s.scopes[gvk] {
        var d := Defaulting(s.defaultNs);
        assert forall k :: d.Target(v.Target(k)) == NormalKey(s, gvk, k);
        assert q in objs <==> exists j :: j in mid && d.Target(j) == q;
        if q in objs {
          var j :| j in mid && d.Target(j) == q;
          var k :| k in raw && v.Target(k) == j;
          assert NormalKey(s, gvk, k) == q;
        }
        if k :| k in raw && NormalKey(s, gvk, k) == q {
          assert v.Target(k) in mid && d.Target(v.Target(k)) == q;
        }
      } else {
        assert forall k :: v.Target(k) == k;
        assert q in objs <==> q.ns == "" && exists k :: k in raw && k.name == q.name;
        if k :| k in raw && q.ns == "" && k.name == q.name {
          assert NormalKey(s, gvk, k) == q;
        }
      }
    }
  }

  /** What a caller can check beforehand: the key of each declared object is one that the filter knows, or
      one that every other version of its kind that is processed declares as well. */
  ghost predicate KeysAgree(s: Setup, order: seq<GVK>, raws: map<GVK, Objs>) {
    forall i, j, k :: 0 <= i < |order| && 0 <= j < |order| && order[i].GK() == order[j].GK() &&
                      k in Raw(raws, order[i]) ==>
      || Protected(s, order[i].GK(), NormalKey(s, order[i], k))
      || exists k' :: k' in Raw(raws, order[j]) && NormalKey(s, order[j], k') == NormalKey(s, order[i], k)
  }

  /** The filter knows the key of a declared object exactly when: the object is namespaced and was declared
      with a namespace, or goes to the default one; or it is cluster-scoped and was declared without; or its
      key is declared a second time, as it will be. */
  lemma ProtectedExactlyWhen(s: Setup, gvk: GVK, k: Key)
    requires gvk in s.scopes && Id(gvk.GK(), k) in s.declared
    ensures Protected(s, gvk.GK(), NormalKey(s, gvk, k)) <==>
      || (if s.scopes[gvk] then k.ns != "" || HomeNs(s) == s.defaultNs else k.ns == "")
      || Id(gvk.GK(), NormalKey(s, gvk, k)) in s.declared
  {
    assert k.ns == "" ==> Key("", k.name) == k;
  }

  /** The versions of every kind agree exactly when their declared keys do. */
  lemma VersionsAgreeExactlyWhen(s: Setup, order: seq<GVK>, raws: map<GVK, Objs>, choices: seq<Choice>)
    requires |choices| == |order|
    requires forall i :: 0 <= i < |order| ==>
      !Refused(s, order[i]) && Normalised(s, order[i], Raw(raws, order[i]), choices[i].objs)
    ensures VersionsAgree(s, order, choices) <==> KeysAgree(s, order, raws)
  {
    hide Normalised, Protected, NormalKey;
    forall i | 0 <= i < |order|
      ensures forall q :: q in choices[i].objs <==>
        exists k :: k in Raw(raws, order[i]) && NormalKey(s, order[i], k) == q
    {
      NormalKeys(s, order[i], Raw(raws, order[i]), choices[i].objs);
    }
    if KeysAgree(s, order, raws) {
      forall i, j, q | 0 <= i < |order| && 0 <= j < |order| && order[i].GK() == order[j].GK() && q in choices[i].objs
        ensures q in choices[j].objs || Protected(s, order[j].GK(), q)
      {
        var k :| k in Raw(raws, order[i]) && NormalKey(s, order[i], k) == q;
      }
    }
    if VersionsAgree(s, order, choices) {
      forall i, j, k | 0 <= i < |order| && 0 <= j < |order| && order[i].GK() == order[j].GK() &&
                       k in Raw(raws, order[i])
        ensures Protected(s, order[i].GK(), NormalKey(s, order[i], k)) ||
          exists k' :: k' in Raw(raws, order[j]) && NormalKey(s, order[j], k') == NormalKey(s, order[i], k)
      {
        assert NormalKey(s, order[i], k) in choices[i].objs;
      }
    }
  }
}
