/** One Apply or DryRun, as functions of the state of the cluster (desiredset_process.go,
    desiredset_crud.go, desiredset_compare.go, desiredset_apply.go).

    Nothing here is random.  Whether an API call is served is asked of an arbitrary oracle, and the
    choices Go leaves open (the order of a range over a map, ties in a sort) are arguments. */
module Engine {
  import opened Common
  import opened Json
  import opened Kube
  import opened Patches
  import opened Namespaces

  // -------- the world outside --------

  /** What becomes of one API call.  A lost call reports an error; it may have taken effect all the same. */
  datatype Outcome = Served | Lost(applied: bool)

  datatype Call =
    | ListCall(gvk: GVK)
    | CreateCall(id: Id)
    | GetCall(id: Id)
    | PatchCall(id: Id)
    | DeleteCall(id: Id, forced: bool)

  datatype World = World(objects: map<Id, Object>, calls: seq<Call>)

  datatype Status = Done | AlreadyExists | NotFound | Invalid | Unavailable

  datatype Reply = Reply(w: World, status: Status)

  // -------- one desired set --------

  datatype Owner = Owner(gvk: GVK, ns: string, name: string, uid: string)

  /** What a reconciler answers: it leaves the change to the patch, makes it itself, demands that the
      object be replaced, or fails. */
  datatype Verdict = Accept | Handled | Replace | Refuse

  /** What the applied annotation of a live object decodes to. */
  datatype Past = Never | Corrupt | Was(copy: Object)

  datatype Setup = Setup(
    // the fields of desiredSet
    hash: string, stamps: map<string, string>,
    owner: Option<Owner>, setOwnerReference: bool, controller: bool, block: bool,
    defaultNs: string, listerNs: string,
    restrictClusterScoped: bool, strictCaching: bool,
    noDelete: bool, noDeleteKinds: set<GVK>, ignorePreviousApplied: bool,
    reconcilers: map<GVK, (Object, Object) -> Verdict>, replaceOnChange: set<GVK>,
    declared: set<Id>,
    // discovery, informers, and the contents of an informer's store after so many API calls
    scopes: map<GVK, bool>, informers: set<GVK>, cache: (GVK, nat) -> Objs,
    outcome: nat -> Outcome,
    // the applied annotation and the patch library
    encode: Object -> string, decode: string -> Past,
    diff: (Option<Object>, Object, Object) -> Option<Record>,
    merge: (Object, Record) -> Object)

  datatype Err =
    | Refusal(gvk: GVK)
    | Unlisted(gvk: GVK)
    | CreateFailed(gvk: GVK, key: Key)
    | UpdateFailed(gvk: GVK, key: Key)
    | DeleteFailed(gvk: GVK, key: Key)
    | ReplaceWait(gvk: GVK, key: Key)
    | NoIdentity

  datatype Plan = Plan(create: map<GVK, seq<Key>>, delete: map<GVK, seq<Key>>,
                       update: map<GVK, map<Key, Record>>, seen: seq<Object>)

  datatype Run = Run(w: World, errs: seq<Err>, plan: Plan)

  // -------- API calls --------

  function Answer(s: Setup, w: World, call: Call, status: Status, objects: map<Id, Object>): Reply {
    var calls := w.calls + [call];
    match s.outcome(|w.calls|)
    case Served => Reply(World(if status.Done? then objects else w.objects, calls), status)
    case Lost(applied) =>
      Reply(World(if status.Done? && applied then objects else w.objects, calls), Unavailable)
  }

  function Create(s: Setup, w: World, id: Id, o: Object): Reply {
    Answer(s, w, CreateCall(id), if id in w.objects then AlreadyExists else Done, w.objects[id := o])
  }

  function Get(s: Setup, w: World, id: Id): Reply {
    Answer(s, w, GetCall(id), if id in w.objects then Done else NotFound, w.objects)
  }

  function Delete(s: Setup, w: World, id: Id, forced: bool): Reply {
    Answer(s, w, DeleteCall(id, forced), if id in w.objects then Done else NotFound, w.objects - {id})
  }

  /** The server merges a patch into the object as the patching version shows it, and refuses one that
      would rename or move the object. */
  function Patch(s: Setup, w: World, gvk: GVK, id: Id, patch: Record): Reply {
    if id !in w.objects then Answer(s, w, PatchCall(id), NotFound, w.objects)
    else
      var merged := s.merge(w.objects[id].As(gvk), patch);
      Answer(s, w, PatchCall(id), if merged.MetaKey() == id.key then Done else Invalid, w.objects[id := merged])
  }

  // -------- what is live --------

  /** The stored objects of a kind, read through one of its versions. */
  function View(objects: map<Id, Object>, gvk: GVK): Objs {
    map k | k in (set id | id in objects && id.gk == gvk.GK() :: id.key) :: objects[Id(gvk.GK(), k)].As(gvk)
  }

  /** Which namespaces the listing looks into. */
  predicate Visible(s: Setup, gvk: GVK, desired: set<Key>, k: Key)
    requires gvk in s.scopes
  {
    if gvk in s.informers then !s.scopes[gvk] || s.listerNs == "" || k.ns == s.listerNs
    else if s.listerNs != "" then k.ns == s.listerNs
    else s.owner.Some? || exists d :: d in desired && (d.ns == "" || d.ns == k.ns)
  }

  /** list: the objects with the set's hash, from the informer's store or from the server. */
  function Listing(s: Setup, gvk: GVK, desired: set<Key>, w: World): (r: (World, Option<Objs>))
    requires gvk in s.scopes
  {
    var source := if gvk in s.informers then s.cache(gvk, |w.calls|) else View(w.objects, gvk);
    var found := map k | k in source && HasHash(source[k], s.hash) && Visible(s, gvk, desired, k) :: source[k];
    if gvk in s.informers || (s.listerNs == "" && s.owner.None? && desired == {}) then (w, Some(found))
    else
      // a cluster-scoped kind cannot be listed inside a namespace
      var reply := Answer(s, w, ListCall(gvk), if s.scopes[gvk] || s.listerNs == "" then Done else NotFound, w.objects);
      (reply.w, if reply.status.Done? then Some(found) else None)
  }

  // -------- what a change comes to --------

  /** injectLabelsAndAnnotations, for one object. */
  function Stamped(s: Setup, o: Object): Object {
    o.(labels := o.labels[LABEL_HASH := s.hash], annotations := (o.annotations - {LABEL_APPLIED}) + s.stamps)
  }

  function Prepare(s: Setup, gvk: GVK, o: Object): Object {
    o.(gvk := gvk, annotations := o.annotations[LABEL_APPLIED := s.encode(o)])
  }

  function PastOf(s: Setup, live: Object): Past {
    if LABEL_APPLIED in live.annotations then s.decode(live.annotations[LABEL_APPLIED]) else Never
  }

  /** The patch that would be sent, or nothing where computing it fails. */
  function Change(s: Setup, gvk: GVK, live: Object, want: Object): Option<Record> {
    var past := PastOf(s, live);
    if past.Corrupt? then None
    else
      var original := if past.Was? && !s.ignorePreviousApplied then Some(Prepare(s, gvk, past.copy)) else None;
      match s.diff(original, Prepare(s, gvk, want), live)
      case None => None
      case Some(patch) => Some(Sanitized(patch, false))
  }

  datatype Decision = Unchanged | Failed | Settled | Replaced | Send(patch: Record)

  function VerdictOn(s: Setup, gvk: GVK, live: Object, want: Object): Verdict {
    if gvk !in s.reconcilers then Accept
    else
      var past := PastOf(s, live);
      s.reconcilers[gvk](if past.Was? then Prepare(s, gvk, past.copy) else live, Prepare(s, gvk, want))
  }

  /** applyPatch, up to the patch call itself. */
  function Decide(s: Setup, gvk: GVK, live: Object, want: Object): Decision {
    match Change(s, gvk, live, want)
    case None => Failed
    case Some(patch) =>
      if patch == map[] then Unchanged
      else match VerdictOn(s, gvk, live, want)
        case Refuse => Failed
        case Replace => Replaced
        case Handled => Settled
        case Accept => if gvk in s.replaceOnChange then Replaced else Send(patch)
  }

  // -------- the phases of process --------

  datatype Progress = Progress(w: World, errs: seq<Err>)

  function Failure(p: Progress, w: World, e: Err): Progress {
    Progress(w, p.errs + [e])
  }

  /** The create phase also collects the objects it finds to be there already. */
  datatype Creating = Creating(p: Progress, existing: Objs, updates: seq<Key>)

  function CreateOne(s: Setup, gvk: GVK, objs: Objs, k: Key, c: Creating): Creating
    requires k in objs
  {
    var id := Id(gvk.GK(), k);
    var made := Create(s, c.p.w, id, Prepare(s, gvk, objs[k]));
    match made.status
    case Done => c.(p := c.p.(w := made.w))
    case AlreadyExists =>
      var got := Get(s, made.w, id);
      if got.status.Done? then
        Creating(c.p.(w := got.w), c.existing[k := got.w.objects[id].As(gvk)], c.updates + [k])
      else c.(p := Failure(c.p, got.w, CreateFailed(gvk, k)))
    case _ => c.(p := Failure(c.p, made.w, CreateFailed(gvk, k)))
  }

  function CreateAll(s: Setup, gvk: GVK, objs: Objs, keys: seq<Key>, c: Creating): (r: Creating)
    requires forall k :: k in keys ==> k in objs
    ensures c.updates <= r.updates && c.existing.Keys <= r.existing.Keys
    ensures forall i :: |c.updates| <= i < |r.updates| ==> r.updates[i] in r.existing && r.updates[i] in keys
  {
    if keys == [] then c
    else
      var n := |keys| - 1;
      CreateOne(s, gvk, objs, keys[n], CreateAll(s, gvk, objs, keys[..n], c))
  }

  function DeleteOne(s: Setup, gvk: GVK, k: Key, force: bool, p: Progress): Progress {
    if !force && (s.noDelete || gvk in s.noDeleteKinds) then p
    else
      var gone := Delete(s, p.w, Id(gvk.GK(), k), force);
      if gone.status.Done? then p.(w := gone.w) else Failure(p, gone.w, DeleteFailed(gvk, k))
  }

  function DeleteAll(s: Setup, gvk: GVK, keys: seq<Key>, p: Progress): Progress {
    if keys == [] then p
    else
      var n := |keys| - 1;
      DeleteOne(s, gvk, keys[n], false, DeleteAll(s, gvk, keys[..n], p))
  }

  function UpdateOne(s: Setup, gvk: GVK, live: Object, want: Object, k: Key, p: Progress): Progress {
    match Decide(s, gvk, live, want)
    case Unchanged => p
    case Settled => p
    case Failed => Failure(p, p.w, UpdateFailed(gvk, k))
    case Replaced =>
      var q := DeleteOne(s, gvk, k, true, p);
      Failure(q, q.w, ReplaceWait(gvk, k))
    case Send(patch) =>
      var sent := Patch(s, p.w, gvk, Id(gvk.GK(), live.MetaKey()), patch);
      if sent.status.Done? then p.(w := sent.w) else Failure(p, sent.w, UpdateFailed(gvk, k))
  }

  function UpdateAll(s: Setup, gvk: GVK, objs: Objs, existing: Objs, keys: seq<Key>, p: Progress): Progress
    requires forall k :: k in keys ==> k in objs && k in existing
  {
    if keys == [] then p
    else
      var n := |keys| - 1;
      UpdateOne(s, gvk, existing[keys[n]], objs[keys[n]], keys[n],
                UpdateAll(s, gvk, objs, existing, keys[..n], p))
  }

  /** The patcher of a dry run: it notes a patch that is more than the set's own bookkeeping. */
  function PlanOne(s: Setup, gvk: GVK, live: Object, want: Object, k: Key, r: Run): Run {
    var r' := r.(plan := r.plan.(seen := r.plan.seen + [live]));
    match Change(s, gvk, live, want)
    case None => r'.(errs := r.errs + [UpdateFailed(gvk, k)])
    case Some(patch) =>
      var reported := Sanitized(patch, true);
      if patch == map[] || reported == map[] then r'
      else
        var updates := if gvk in r.plan.update then r.plan.update[gvk] else map[];
        r'.(plan := r'.plan.(update := r.plan.update[gvk := updates[live.MetaKey() := reported]]))
  }

  function PlanAll(s: Setup, gvk: GVK, objs: Objs, existing: Objs, keys: seq<Key>, r: Run): Run
    requires forall k :: k in keys ==> k in objs && k in existing
  {
    if keys == [] then r
    else
      var n := |keys| - 1;
      PlanOne(s, gvk, existing[keys[n]], objs[keys[n]], keys[n], PlanAll(s, gvk, objs, existing, keys[..n], r))
  }

  // -------- one kind --------

  /** Everything that stops process before it looks at the objects. */
  predicate Refused(s: Setup, gvk: GVK) {
    || gvk !in s.scopes
    || (gvk !in s.informers && s.strictCaching)
    || (!s.scopes[gvk] && s.restrictClusterScoped)
    || (s.setOwnerReference && s.owner.Some? && s.owner.value.gvk !in s.scopes)
  }

  function GroupVersion(gvk: GVK): string {
    if gvk.group == "" then gvk.version else gvk.group + "/" + gvk.version
  }

  function OwnershipOf(s: Setup): Ownership
    requires s.owner.Some? && s.owner.value.gvk in s.scopes
  {
    var o := s.owner.value;
    Ownership(o.ns, s.scopes[o.gvk],
              OwnerRef(GroupVersion(o.gvk), o.gvk.kind, o.name, o.uid, s.controller, s.block))
  }

  function Adopted(s: Setup, gvk: GVK, raw: Objs): Objs
    requires !Refused(s, gvk)
  {
    if s.setOwnerReference && s.owner.Some? then Adoption(OwnershipOf(s), s.scopes[gvk]).All(raw) else raw
  }

  ghost predicate Normalised(s: Setup, gvk: GVK, raw: Objs, objs: Objs)
    requires !Refused(s, gvk)
  {
    if s.scopes[gvk] then objs == Defaulting(s.defaultNs).All(Adopted(s, gvk, raw))
    else Cleared(Adopted(s, gvk, raw), objs)
  }

  /** The rule of filterCrossVersion. */
  predicate Protected(s: Setup, gk: GroupKind, k: Key) {
    Id(gk, k) in s.declared || (k.ns == s.defaultNs && Id(gk, Key("", k.name)) in s.declared)
  }

  function ToDelete(s: Setup, gvk: GVK, desired: set<Key>, existing: Objs): set<Key> {
    set k | k in existing && k !in desired && ShouldPrune(existing[k]) && !Protected(s, gvk.GK(), k)
  }

  predicate NotAfter(a: Key, b: Key) { !StringLess(b.Text(), a.Text()) }

  /** The keys of a set, once each, in the order of their text; ties may fall either way. */
  ghost predicate Ordered(keys: seq<Key>, all: set<Key>) {
    && Distinct(keys)
    && Elements(keys) == all
    && forall i, j :: 0 <= i < j < |keys| ==> NotAfter(keys[i], keys[j])
  }

  /** What Go leaves open while one kind is processed. */
  datatype Choice = Choice(objs: Objs, create: seq<Key>, update: seq<Key>, delete: seq<Key>)

  ghost predicate Lists(s: Setup, gvk: GVK, c: Choice, existing: Objs) {
    && Ordered(c.create, c.objs.Keys - existing.Keys)
    && Ordered(c.update, c.objs.Keys * existing.Keys)
    && Ordered(c.delete, ToDelete(s, gvk, c.objs.Keys, existing))
  }

  ghost predicate Legal(s: Setup, gvk: GVK, raw: Objs, w: World, c: Choice) {
    Refused(s, gvk) || (
      && Normalised(s, gvk, raw, c.objs)
      && var found := Listing(s, gvk, c.objs.Keys, w).1;
      found.Some? ==> Lists(s, gvk, c, found.value))
  }

  /** The create phase of a kind. */
  function Made(s: Setup, gvk: GVK, c: Choice, existing: Objs, p: Progress): (r: Creating)
    requires Lists(s, gvk, c, existing)
    ensures forall k :: k in r.updates ==> k in c.objs && k in r.existing
  {
    var made := CreateAll(s, gvk, c.objs, c.create, Creating(p, existing, c.update));
    assert forall i :: 0 <= i < |c.update| ==> made.updates[i] == c.update[i] && c.update[i] in c.update;
    assert forall k :: k in c.create ==> k in Elements(c.create);
    assert forall k :: k in c.update ==> k in Elements(c.update) && k in existing;
    made
  }

  /** The three phases of a kind that change the cluster. */
  function Write(s: Setup, gvk: GVK, c: Choice, existing: Objs, p: Progress): Progress
    requires Lists(s, gvk, c, existing)
  {
    var made := Made(s, gvk, c, existing, p);
    DeleteAll(s, gvk, c.delete, UpdateAll(s, gvk, c.objs, made.existing, made.updates, made.p))
  }

  /** What a dry run does instead. */
  function PlanKind(s: Setup, gvk: GVK, c: Choice, existing: Objs, r: Run): Run
    requires Lists(s, gvk, c, existing)
  {
    var plan := r.plan.(create := r.plan.create[gvk := c.create], delete := r.plan.delete[gvk := c.delete]);
    PlanAll(s, gvk, c.objs, existing, c.update, r.(plan := plan))
  }

  function ProcessKind(s: Setup, dry: bool, gvk: GVK, raw: Objs, c: Choice, r: Run): Run
    requires Legal(s, gvk, raw, r.w, c)
  {
    if Refused(s, gvk) then r.(errs := r.errs + [Refusal(gvk)])
    else
      var (w, found) := Listing(s, gvk, c.objs.Keys, r.w);
      match found
      case None => r.(w := w, errs := r.errs + [Unlisted(gvk)])
      case Some(existing) =>
        if dry then PlanKind(s, gvk, c, existing, r.(w := w))
        else
          var p := Write(s, gvk, c, existing, Progress(w, r.errs));
          Run(p.w, p.errs, r.plan)
  }

  // -------- a whole run --------

  function Raw(raws: map<GVK, Objs>, gvk: GVK): Objs {
    if gvk in raws then raws[gvk] else map[]
  }

  /** states lists the run's state before the first kind and after each. */
  ghost predicate IsRun(s: Setup, dry: bool, order: seq<GVK>, raws: map<GVK, Objs>,
                        choices: seq<Choice>, states: seq<Run>)
  {
    && |choices| == |order| && |states| == |order| + 1
    && forall i :: 0 <= i < |order| ==>
        && Legal(s, order[i], Raw(raws, order[i]), states[i].w, choices[i])
        && states[i + 1] == ProcessKind(s, dry, order[i], Raw(raws, order[i]), choices[i], states[i])
  }
}
