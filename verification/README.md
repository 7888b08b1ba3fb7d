# Wrangler: a model of its reconciling core

Wrangler is a Go library for writing Kubernetes controllers. Its centre is *apply*: given a set of desired
objects, make the cluster hold exactly those, and prune what earlier versions of the set left behind. This
project models that engine in Dafny and proves what it promises over whole runs. It also covers four smaller
pieces of the library whose correctness is not obvious from reading them: the broadcaster, the finalizer
lifecycle, the handling of nested data and schema mappers, and the unfolding of schemas into OpenAPI.

Code that changes state is modelled by classes and methods with loops; each method is proved equal to a
function of the old state, and the properties are proved about those functions. Whatever Go leaves open is left
open: a range over a map takes its keys in any order (and, where entries are inserted meanwhile, may come back
to any of them), ties in a sort fall either way, goroutines interleave freely, and every call to the API server,
every handler and every connection may fail, with or without having taken effect.

## How the parts fit together

| directory | what it models |
|---|---|
| `apply/` | `Engine` describes one apply as functions of the cluster (`World`), with the outcome of each API call asked of an arbitrary oracle. `DesiredSet` and `ApplyRun` are the methods of the engine, proved equal to it. `EngineFacts` says what each phase does; `Isolation`, `Convergence`, `Versions`, `Retry`, `DryRun` and `Guarantees` are the theorems about whole runs, `Delivery` and `Renewal` what a run makes of a new object and of one that is there, field by field, and `OwnerNamespace` a run that undoes its own work. `Namespaces`, `HashIndex`, `ObjectSet`, `Patches` and `AppliedCopy` are its parts. `Shipped` has the library's own reconcilers in the engine; `PatchContract` derives what the theorems ask of a patch library from what a merge patch is, and `MergePatch` and `PatchLibrary` are one that meets it. |
| `broadcast/` | `Broadcast` is the protocol as a state machine with one step per critical section; `Broadcaster` is the class, each of whose methods is a path of that machine. |
| `finalizer/` | `FinalizerList` is the in-place removal loop, `Lifecycle` the protocol of several adapters sharing one object, `Adapter` the adapter itself. |
| `data/` | `Paths` changes nested maps on the heap, `PathLaws` states the laws of these changes about snapshots of the heap, `Documents` ties the heap to the documents it spells, `Merge` is the deep merge. |
| `schemas/` | `Moves` takes the path functions as functions of a whole document, for moving a value there and back; `Mappers` are single mappers and chains, which change maps on the heap, and `TypeMapper` the mappers of a tree of schemas. |
| `openapi/` | `OpenApi` is the mutual recursion with its in-flight set, `Unfolding` relates it to plain substitution and says where it cuts, and `Meaning` says which JSON values a schema means and that the result admits exactly these. |

The computation of patches is a library of its own. The engine takes it as two functions (`diff`, `merge`), and each
theorem asks of it, and of the reconcilers, only what it needs, about the objects that the run at hand wants:
convergence, that labels arrive (`Convergence.LabelsArrive`); retry, that a patch that is sent brings the applied
copy, and that the reconciler of the kind accepts a wanted object against its own copy (`Retry.Steady`).
`PatchContract` shows that patches which are merged into labels and annotations entry by entry always bring labels and
copy, whatever sanitizePatch drops (`MergePatchesSuffice`); what a patch with no map there does, null for one, is left
open. `PatchLibrary` shows that everything holds together of JSON merge patches (section 2 of RFC 7396) of whole
documents, with a three-way difference that mentions nothing without need, an applied copy that is cut after 64 bytes
and need not be readable, and the reconciler of jobs, which does demand replacement (`LibraryServes`,
`JobIsDemandedExactlyWhen`, `LibraryRetries`).

Some properties one would expect do not hold of the code as it stands. For these the exact condition is
proved:

- removing a finalizer shifts the list while ranging over it, and is right if and only if there is one copy
  (`FinalizerList.RemovesExactlyWhen`); the lifecycle keeps it that way (`Lifecycle.FinalizersStaySingle`);
- clearing namespaces of cluster-scoped objects has one outcome if and only if no two namespaced entries
  compete for one name (`Namespaces.ClearingIsDeterminedExactlyWhen`);
- the filter that protects an object desired under another version looks only at declared keys and the default
  namespace, so an object that gets another namespace from its owner is not protected: a run that processes a second
  version of the kind creates it, deletes it again, and reports no error (`OwnerNamespace.CreatedAndPruned`,
  `OwnerNamespace.SomeRunPrunes`); an error-free run over several versions leaves everything as wanted if and only if
  the versions agree (`Versions.ConvergesExactlyWhen`), which can be told from the declared keys, the default
  namespace and the owner's (`Versions.VersionsAgreeExactlyWhen`, `Versions.ProtectedExactlyWhen`);
- the hash of a set concatenates its fields without separators, so different owners share it if and only if these run
  together alike (`ApplyRun.HashSharedExactlyWhen`, `ApplyRun.NeighbouringOwnersShareAHash`); isolation is stated
  between hashes;
- keys to be replaced become fewer from run to run, but where two versions of a kind desire the same key this takes
  that each puts up with what the other writes (`Retry.SharedKeysTolerated`), which for jobs is so if and only if the
  same is kept of their templates (`PatchLibrary.JobToleratesExactlyWhen`);
- a patch is dropped although it has content if that is no more than an annotation of a certain name
  (`Patches.DroppedExactlyWhen`), which is why convergence is about labels and retry about patches that are sent;
- the reconcilers of deployments, daemon sets and secrets compare the cut-short applied copy with the full
  object, and so accept an unchanged object if and only if what they compare did not have to be cut
  (`AppliedCopy.SelectorAcceptedExactlyWhen`, `AppliedCopy.SecretAcceptedExactlyWhen`; a type or a selected value of 65
  bytes is enough, `AppliedCopy.LongTypeIsReplaced`, `AppliedCopy.LongSelectorIsReplaced`); the one of jobs cuts both
  sides and has no such gap (`AppliedCopy.JobReplacedExactlyWhen`); retry works under the library's own reconcilers
  for runs whose wanted objects are accepted so (`Shipped.DefaultsAreSteady`);
- the mapper of a tree of schemas does not look into a wrapper inside a wrapper: objects in a list of lists stay as they
  are although their schema has mappers (`TypeMapper.WrappedTwiceIsLeftAlone`);
- a move is undone by the opposite move, an embedding by its reverse, and merging is associative, each under a
  condition on the data that is stated exactly (`Moves.MoveUndoneExactlyWhen`, `Mappers.UndoneExactlyWhen`,
  `Merge.AssociativeExactlyWhen`).

## Model

| member | source | states |
|---|---|---|
| `Guarantees.ApplyConverges` | pkg/apply/desiredset_apply.go:75-121 | Convergence: from any state of the cluster, an error-free Apply whose declared keys agree leaves every desired key of every processed kind live with the set's hash and no prunable, unprotected, undesired key with that hash; applying the same set again computes empty create and delete lists for every kind |
| `Guarantees.ApplyConvergesExactlyWhen` | pkg/apply/desiredset_apply.go:75-121 | An error-free Apply leaves every kind as wanted if and only if its versions agree, but for objects marked prune "false"; without such objects, if and only if the declared keys agree, which a caller can check beforehand |
| `Guarantees.AgreementKnownBeforehand` | pkg/apply/desiredset_process.go:143-208 | For every range order, whether the versions agree is determined by declared keys, default namespace and owner's namespace |
| `Guarantees.VersionsDoAgree` | pkg/apply/desiredset_process.go:195-208 | Versions agree if every added object of a processed kind is namespaced and has a namespace or goes to the default one, or is cluster-scoped and declared without; other kinds that discovery knows do not matter |
| `Guarantees.StampedInputs` | pkg/apply/desiredset_apply.go:89-109 | Everything handed to process carries the hash, is filed under its own key, and counts as declared; what else it carries is `Delivery.StampedSays` |
| `Delivery.StampedSays` | pkg/apply/desiredset_apply.go:201-273 | What a declared object is when process gets it, field by field: kind, namespace, name, owners and body are its own; every label but the hash label is its own; an annotation is that of the set (ID and owner, by their names) or else its own, and an old applied copy is left behind |
| `Delivery.WantedComesFromAdded` | pkg/apply/desiredset_process.go:59-184 | Every object that process wants is, field by field, the last one added under its key, under the key that namespaces and owner give it, with its own owner references and at most the one to the owner of the set, which is spelled out |
| `Delivery.ArrivesInFull` | pkg/apply/desiredset_apply.go:75-121 | End to end: after an error-free Apply whose versions agree, an added object that was not live, the last under its key and alone with it, is live with its own body, labels, annotations and owner references, those of the set, and its applied copy |
| `Renewal.RenewedInFull` | pkg/apply/desiredset_compare.go:188-282 | End to end, where patches are merge patches of documents: an added object that was live before has, after an error-free Apply whose versions agree, all of its own body, labels and annotations and those of the set, nothing that the copy of the last apply had and that it no longer has (unless that copy is to be ignored), and for the rest what was live; body values map by map |
| `Renewal.PatchedIsThreeWay` | pkg/apply/desiredset_compare.go:188-246 | The same of one patch, sent or dropped, for every entry of the body |
| `Renewal.PatchedStrings` | pkg/apply/desiredset_compare.go:188-246 | And for every label and annotation; the applied copy afterwards is that of what is wanted |
| `MergePatch.MergeIsThreeWay` | pkg/apply/desiredset_compare.go:453-480 | Merging the difference into what is live leaves the three-way merge, at every depth |
| `Guarantees.SameKeys` | pkg/apply/desiredset_process.go:228-245 | The keys of the normalised objects are the same for every order of the ranges over maps |
| `Convergence.RunConverges` | pkg/apply/desiredset_process.go:210-339 | In an error-free run over many kinds, a kind that has been processed stays as the set wants it until the end of the run, whatever is processed after it |
| `Convergence.KindConverges` | pkg/apply/desiredset_process.go:254-339 | One error-free pass over a kind, from any cluster state, leaves it as the set wants it, every desired object with all its labels |
| `Convergence.KindKeeps` | pkg/apply/desiredset_process.go:195-208 | Processing another kind, or another version of the same kind whose keys are declared, undoes none of this |
| `Convergence.SurvivesExactlyWhen` | pkg/apply/desiredset_process.go:195-208 | An undesired object survives an error-free pass if and only if it lacks the hash label of the set, or its prune label says "false", or its key is declared (as it stands or in the default namespace), or the listing does not look into its namespace, or deleting the kind is switched off; labels, declared keys and the rules for namespaces are spelled out |
| `Versions.ConvergesExactlyWhen` | pkg/apply/desiredset_process.go:195-208 | After an error-free run every kind is as wanted if and only if what one version desires is desired or protected under every other, or marked prune "false" |
| `Versions.ProtectedExactlyWhen` | pkg/apply/desiredset_process.go:195-208 | Exactly when filterCrossVersion recognises a declared object under the key it ends up with |
| `Versions.VersionsAgreeExactlyWhen` | pkg/apply/desiredset_process.go:143-208 | The normalised versions agree if and only if the declared keys do |
| `OwnerNamespace.CreatedAndPruned` | pkg/apply/desiredset_process.go:97-208 | An object declared without a namespace, under an owner whose namespace is not the default one, is created by the pass over its version and pruned by the pass over another version, in every error-free run |
| `OwnerNamespace.SomeRunPrunes` | pkg/apply/desiredset_process.go:97-208 | There are such runs: from an empty cluster, with every call served, one ends without error and without the object |
| `Convergence.NothingLeftToDo` | pkg/apply/desiredset_process.go:415-437 | In a converged cluster the next listing finds nothing to create and nothing to delete |
| `Convergence.SecondApplyIsQuiet` | pkg/apply/desiredset_process.go:210-339 | A whole second run over a converged cluster computes empty create and delete lists for every kind |
| `Isolation.PruneSafety` | pkg/apply/desiredset_process.go:407-437 | Over a whole run with any failing calls, an object that no version of its kind desires is exactly as it was, or it is gone and carried the hash label of the set, was not marked prune "false", was not declared under another version, and deleting was not switched off |
| `Isolation.OtherSetsUntouched` | pkg/apply/desiredset_process.go:341-383 | An object with another hash whose key is not desired is unchanged by a whole run |
| `Isolation.KindCalls` | pkg/apply/desiredset_process.go:285-338 | However stale the informer it listed from, a pass over a kind issues only allowed calls: creates and gets for desired keys that were not listed, patches for desired keys, deletes for listed, own, prunable, unprotected, undesired keys, and forced deletes only where replacement was demanded against the listed object or, where none was listed, the stored one |
| `Isolation.RunCalls` | pkg/apply/desiredset_apply.go:75-121 | The same for the call log of a whole run, with every informer as stale as it likes: each call belongs to one kind and is allowed to it |
| `Retry.DemandIsMet` | pkg/apply/desiredset_process.go:318-326 | Where a reconciler demands replacement the run reports an error and issues a forced delete even under a no-delete switch; served, the object is gone |
| `Retry.NoNewDemands` | pkg/apply/desiredset_compare.go:227-246 | Where sent patches bring the applied copy and the reconciler accepts each wanted object of the run against its own, a pass creates no new demand, whatever calls fail |
| `Retry.DemandsFall` | pkg/apply/desiredset_process.go:285-338 | Between any two points of a run, over any versions of any kinds: every key still to be replaced was one before and its object was not touched, given that versions which desire the same key put up with what the other writes there |
| `Retry.DemandsStrictlyFall` | pkg/apply/desiredset_process.go:318-326 | Under the same condition, as soon as one object to be replaced has been deleted or rewritten, the number of keys to replace is strictly smaller |
| `Retry.CopyTolerated` | pkg/apply/desiredset_compare.go:227-246 | A version puts up with what another writes under its key if its reconciler accepts its object against the other's applied copy |
| `Retry.KindMeetsDemands` | pkg/apply/desiredset_process.go:318-338 | A pass that reported nothing but replacement, or whose calls were all served, leaves the kind without any demand |
| `Retry.SettledIsWorkable` | pkg/apply/desiredset_compare.go:188-252 | After a run whose only trouble was replacement, no decision of the next run leads to an error, if nothing is left to change in an object that was created or patched as wanted, and versions that desire the same key cope with what the other writes there; where no key is desired under two versions that asks nothing |
| `Retry.RetrySucceeds` | pkg/apply/desiredset_process.go:285-338 | Under the same condition on shared keys: after a run whose only new errors were about replacement, one more run over the same objects whose calls are served reports no error; if the versions agree it also leaves every wanted key live, and has created every object that was to be replaced and is desired under no other version |
| `DryRun.DryRunOnlyLists` | pkg/apply/desiredset_apply.go:66-73 | A dry run makes no create, get, patch or delete call and changes no object, for any number of kinds |
| `DryRun.SameLists` | pkg/apply/desiredset_process.go:260-267 | On one snapshot, the create and delete lists of two runs hold the same keys, in the same order wherever no two keys read alike |
| `DryRun.OneOrder` | pkg/apply/desiredset_process.go:439-443 | Keys with distinct texts have exactly one sorted listing |
| `DryRun.DryRunPredicts` | pkg/apply/desiredset_process.go:265-283 | From one state, dry run and real run have the same create and delete lists; a key is reported as updated if and only if it is desired and listed and its patch has more than the bookkeeping of the set, and for every such key the real run, whatever calls fail, calls patch, or a forced delete where replacement is demanded, or reports an error where the reconciler fails; only a reconciler that makes the change itself leads to no call; the plan names the listed desired objects as seen |
| `DryRun.PlanOneDoes` | pkg/apply/desiredset_process.go:269-279 | In a dry run an object is noted as seen and adds the patch that would be sent, less bookkeeping, to the plan, under its own key, if and only if something of it is left; a patch that cannot be computed is an error; nothing else changes |
| `DesiredSet.CompareSets` | pkg/apply/desiredset_process.go:415-437 | The three lists: sorted, each key once, create = desired and not listed, update = desired and listed, delete = listed, not desired and prunable |
| `DesiredSet.FilterCrossVersion` | pkg/apply/desiredset_process.go:195-208 | What is left is sorted as before and is exactly what is not declared under another version |
| `DesiredSet.SortObjectKeys` | pkg/apply/desiredset_process.go:439-443 | The same keys, sorted by their text |
| `DesiredSet.DesiredSet.CreateF` | pkg/apply/desiredset_process.go:285-308 | Is the engine's create step |
| `DesiredSet.DesiredSet.UpdateF` | pkg/apply/desiredset_process.go:318-326 | Is the engine's update step |
| `DesiredSet.DesiredSet.PlanF` | pkg/apply/desiredset_process.go:269-279 | Is the engine's planning step |
| `DesiredSet.DesiredSet.DeleteF` | pkg/apply/desiredset_crud.go:55-72 | Is the engine's delete step; force overrides the switches |
| `DesiredSet.DesiredSet.Normalise` | pkg/apply/desiredset_process.go:211-245 | Refuses unknown and forbidden kinds; otherwise owner references, then namespaces, with any outcome a range order allows |
| `DesiredSet.DesiredSet.Work` | pkg/apply/desiredset_process.go:254-339 | The lists, and the create, update and delete loops over them, or the plan |
| `DesiredSet.DesiredSet.Process` | pkg/apply/desiredset_process.go:210-339 | The whole of process is one step of the engine that all theorems about runs are about |
| `ApplyRun.Applier.Run` | pkg/apply/desiredset_apply.go:75-121 | With earlier errors or without identity nothing is touched; otherwise the outcome is a run over the stamped objects, desired kinds first; `Delivery` says what the stamped objects are |
| `ApplyRun.Applier.DryRun` | pkg/apply/desiredset_apply.go:66-73 | The same run, with fresh plan lists and plan mode on |
| `ApplyRun.InjectLabelsAndAnnotations` | pkg/apply/desiredset_apply.go:231-250 | Every declared object is copied and stamped exactly once, whatever the order; what a stamp does is `Delivery.StampedSays` |
| `ApplyRun.CollectedIsStamped` | pkg/apply/desiredset_apply.go:145-151 | Filing the stamped copies gives every kind exactly its declared objects, stamped, whatever the order |
| `ApplyRun.HashSharedExactlyWhen` | pkg/apply/desiredset_apply.go:201-281 | For an injective digest two sets share their hash if and only if their texts run together alike |
| `ApplyRun.NeighbouringOwnersShareAHash` | pkg/apply/desiredset_apply.go:275-281 | Owners whose names and namespaces run together the same way have the same hash, for any digest |
| `EngineFacts.KindDoes` | pkg/apply/desiredset_process.go:210-339 | What one pass over a kind does to every object, error list and call log, with any failures |
| `EngineFacts.RefusedOrListed` | pkg/apply/desiredset_process.go:210-258 | A kind is refused, which is reported and nothing else, exactly if it or the owner's kind is unknown where that matters, if only informers will do and it has none, or if it is cluster-scoped where that is forbidden; any other kind of an owned set without informer is listed first |
| `EngineFacts.CreateOneDoes` | pkg/apply/desiredset_process.go:285-308 | Creates the object, or takes the stored one over into the updates as it is; any other failure is an error; nothing else changes, and without a lost call there is no error |
| `EngineFacts.UpdateOneDoes` | pkg/apply/desiredset_process.go:318-326 | Leaves the object as it is, patches it, or deletes it by force and reports it where replacement is demanded; no other object changes |
| `EngineFacts.UpdateCallsExactly` | pkg/apply/desiredset_compare.go:211-252 | Which call is made for an object that is there: none where nothing is to change or the reconciler, asked about the last copy or else the live object, handles it or fails; a forced delete where it demands replacement, or accepts and the kind is to be replaced on change; a patch otherwise, which leaves the merge |
| `EngineFacts.DeleteOneDoes` | pkg/apply/desiredset_crud.go:55-72 | The object is gone or as it was: untouched if a switch forbids it, gone if no error was reported and no switch does |
| `EngineFacts.CreateAllDoes` | pkg/apply/desiredset_process.go:328-330 | What the create loop does: each key ends up created, taken over into the updates, or reported |
| `EngineFacts.UpdateAllDoes` | pkg/apply/desiredset_process.go:332-334 | What the update loop does to each of its keys, and that it touches no other |
| `EngineFacts.DeleteAllDoes` | pkg/apply/desiredset_process.go:336-338 | What the delete loop does to each of its keys, and that it touches no other |
| `EngineFacts.NormalisedFacts` | pkg/apply/desiredset_process.go:228-245 | Normalised objects are filed under their own keys and each comes from a declared one, changed in namespace and owners alone |
| `Namespaces.AssignOwnerReference` | pkg/apply/desiredset_process.go:59-141 | For every order of the range, and with entries inserted on the way visited again any number of times, the same map results |
| `Namespaces.OwnersAfter` | pkg/apply/desiredset_process.go:59-141 | In it, an object within the owner's boundary keeps its references in order and has the owner's UID once more exactly if it had none; one across the boundary is untouched; keys match metadata |
| `Namespaces.AdoptionSettles` | pkg/apply/desiredset_process.go:75-138 | Visiting an object a second time changes nothing |
| `Namespaces.AppendOwner` | pkg/apply/desiredset_process.go:110-132 | The owner is appended unless a reference already has its UID |
| `Namespaces.AdjustNamespace` | pkg/apply/desiredset_process.go:143-162 | For every order, every object without a namespace moves to the default one |
| `Namespaces.ClearNamespace` | pkg/apply/desiredset_process.go:164-184 | Every result is a legal clearing: each name is held by one of its candidates, without namespace |
| `Namespaces.ClearingIsDeterminedExactlyWhen` | pkg/apply/desiredset_process.go:164-184 | There is one possible result if and only if no two namespaced objects compete for a name with different contents |
| `HashIndex.IndexAgreesWithScan` | pkg/apply/desiredset_process.go:385-404 | For every history of adds, updates and deletes, before or after the index is added, and every non-empty hash and namespace filter, listing by index and by selector give the same map |
| `HashIndex.Indexer.ListByHash` | pkg/apply/desiredset_process.go:524-542 | The index yields exactly the stored objects with that hash in the wanted namespace, and nothing for an empty hash |
| `HashIndex.Indexer.Put` | pkg/apply/desiredset.go:184-202 | An add or update moves the object between index entries and keeps the index exact |
| `HashIndex.Indexer.AddIndexerByHash` | pkg/apply/desiredset.go:184-202 | Refused if the index is there already; otherwise exact for what is stored |
| `ObjectSet.FirstSeenFacts` | pkg/objectset/objectset.go:108-130 | The order of kinds has no duplicate and equals the domain of the objects |
| `ObjectSet.FirstSeenInOrder` | pkg/objectset/objectset.go:118-129 | Kinds stand in the order of their first objects |
| `ObjectSet.IndexIsUnion` | pkg/objectset/objectset.go:191-218 | A key is filed under a group and kind if and only if it is under one of its versions, and the object is one of those |
| `ObjectSet.IndexHolds` | pkg/objectset/objectset.go:92-95 | A group, kind and key is in the index if and only if such an object was added |
| `ObjectSet.FiledFacts` | pkg/objectset/objectset.go:41-64 | What is filed was added, under its own kind and key, and everything added is filed |
| `ObjectSet.LastOneIsFiled` | pkg/objectset/objectset.go:41-64 | An object is filed under a kind and key if and only if it is the last one added there |
| `ObjectSet.ObjectSet.Add` | pkg/objectset/objectset.go:101-130 | After any sequence of adds all five fields agree with the list of added objects, and there is one more error for each broken object |
| `ObjectSet.ObjectSet.Contains` | pkg/objectset/objectset.go:92-95 | True if and only if such an object was added under any version |
| `ObjectSet.ObjectSet.GVKOrder` | pkg/objectset/objectset.go:153-169 | Every desired or known kind exactly once, the desired ones first and in insertion order, the others sorted |
| `Patches.SanitizePatch` | pkg/apply/desiredset_compare.go:133-186 | The deletions in place amount to the closed form that the lemmas are about |
| `Patches.SurvivingEntries` | pkg/apply/desiredset_compare.go:133-186 | Entry by entry: all but kind, apiVersion, status and metadata survive as they are, the first three never; of the metadata of a patch that is not dropped, all but the creation timestamp, and in a report those of the annotations whose name does not begin with that of the set |
| `Patches.EmptyMaps` | pkg/apply/desiredset_compare.go:111-131 | On the path metadata, annotations: true if and only if nothing else is in the patch and neither holds anything, a value that is no map counting as empty |
| `Patches.DroppedExactlyWhen` | pkg/apply/desiredset_compare.go:133-186 | A patch is not sent if and only if, beyond kind, apiVersion, status and a creation timestamp, it holds at most an empty metadata or annotations value, or no annotation but "__invalid_key__" |
| `Patches.LabelsGoThrough` | pkg/apply/desiredset_compare.go:133-186 | Labels and annotations of a patch reach the server unchanged |
| `Patches.ReportIsPartOfPatch` | pkg/apply/desiredset_process.go:270-279 | What a plan reports is what would be sent, less exactly the annotations whose name begins with "objectset.rio.cattle.io/" |
| `Patches.UnreportedExactlyWhen` | pkg/apply/desiredset_process.go:270-279 | Nothing of a patch that would be sent is reported if and only if it is about the annotations of the set alone, or the sentinel |
| `PatchContract.MergePatchesSuffice` | pkg/apply/desiredset_compare.go:133-186 | With patches that are merged into labels and annotations entry by entry, sanitizePatch never keeps a label of a stamped object from arriving, nor the applied copy where a patch is sent |
| `PatchLibrary.LibraryServes` | pkg/apply/desiredset_compare.go:188-252 | With JSON merge patches of documents, a copy cut after 64 bytes and the reconciler of jobs, all that convergence and retry ask for holds of every stamped object a manifest can spell |
| `PatchLibrary.JobIsDemandedExactlyWhen` | pkg/apply/reconcilers.go:119-153 | There a live job, created or patched under whatever version, is to be replaced if and only if what its copy kept of the template differs from what is kept of the wanted one's |
| `PatchLibrary.JobToleratesExactlyWhen` | pkg/apply/reconcilers.go:119-153 | There a job puts up with what another version writes under its key if and only if the same is kept of both templates |
| `PatchLibrary.LibraryRetries` | pkg/apply/desiredset_process.go:285-338 | So there the run after one whose only trouble was replacement succeeds, without further assumptions about live objects, if what two versions desire under one key is the same but for the version |
| `AppliedCopy.PruneValues` | pkg/apply/desiredset_compare.go:366-394 | Both recursive loops compute the pruned value, for any order of the keys |
| `AppliedCopy.PrunedByPaths` | pkg/apply/desiredset_compare.go:351-394 | No path appears or disappears (so keys, list lengths and nesting stay), and what stands at a path is pruned by its last two steps alone |
| `AppliedCopy.LeafSurvivesExactlyWhen` | pkg/apply/desiredset_compare.go:351-394 | A leaf is kept whole if and only if it is directly in a list, stands in a map of a list under one of the keys that identify elements (all of them named), or is neither bytes nor a string over 64 bytes; otherwise the first 64 bytes are kept of a string and null of bytes |
| `AppliedCopy.PruningIsIdempotent` | pkg/apply/desiredset_compare.go:351-394 | Pruning twice is pruning once |
| `AppliedCopy.UnchangedExactlyWhen` | pkg/apply/desiredset_compare.go:351-394 | A value survives whole if and only if nothing in it is too big to keep |
| `AppliedCopy.Recovered` | pkg/apply/desiredset_compare.go:299-315 | Preparing an object and reading its applied copy back gives the pruned object with its kind set again; its metadata have lost the creation timestamp and gained an applied copy, and are otherwise the pruned ones |
| `AppliedCopy.JobReplacedExactlyWhen` | pkg/apply/reconcilers.go:119-153 | A job is replaced if and only if its pruned template has changed since it was last applied; an unchanged one never is |
| `AppliedCopy.OthersReplacedExactlyWhen` | pkg/apply/reconcilers.go:27-117 | For an object last applied in one form and wanted in another: a deployment or daemon set is replaced if and only if what was kept of its old selector reads differently from the whole of the new one, a secret or a service if and only if its new type is neither empty nor what was kept of the old one |
| `AppliedCopy.UncopiedJobReplacedExactlyWhen` | pkg/apply/reconcilers.go:136-150 | A live job without an applied copy, though equal to the wanted one, is replaced if and only if its template holds something too big to keep |
| `AppliedCopy.SelectorAcceptedExactlyWhen` | pkg/apply/reconcilers.go:50-71 | For any reading of selectors as Go structs, a deployment is accepted against its own applied copy if and only if its selector reads the same pruned; where the reading loses nothing, if and only if the selector holds nothing too big to keep |
| `AppliedCopy.SecretAcceptedExactlyWhen` | pkg/apply/reconcilers.go:73-94 | A secret is accepted against its own applied copy if and only if its type has at most 64 bytes |
| `AppliedCopy.LongTypeIsReplaced` | pkg/apply/reconcilers.go:73-94 | A secret whose type has 65 bytes is replaced although nothing has changed |
| `AppliedCopy.LongSelectorIsReplaced` | pkg/apply/reconcilers.go:50-71 | So is a deployment that selects by a value of 65 bytes |
| `Shipped.AcceptedExactlyWhen` | pkg/apply/reconcilers.go:17-153 | In the engine, the reconcilers that every new desired set has accept a wanted object against its own applied copy if and only if what they compare reads the same cut short: a type of at most 64 bytes for secrets and services, a selector that reads the same for deployments and daemon sets, always for jobs and other kinds |
| `Shipped.VerdictsAre` | pkg/apply/reconcilers.go:17-153 | In the engine, for any live object and any wanted one: which of the five kinds with a reconciler is accepted or to be replaced, by the fields compared, against the copy of the last apply or else the live object; every other kind is accepted |
| `Shipped.DefaultsAreSteady` | pkg/apply/apply.go:190-199 | So what the retry theorems ask of a run's wanted objects holds of stamped objects under a new desired set, with merge patches, if and only if that is so for each |
| `Broadcast.NextHolds` | pkg/broadcast/generic.go:16-83 | Every critical section, of any goroutine, keeps the invariant of channels, streams and deliveries |
| `Broadcast.StepsDo` | pkg/broadcast/generic.go:16-83 | What each critical section does: a subscription that can be served opens a watched empty channel of its own, one that cannot changes nothing; a cancelled or dropped subscriber is closed and forgotten; a consumer takes the oldest item; a round of sends is for everybody subscribed and gives the item to whoever has room among 100 |
| `Broadcast.OpenIsWatched` | pkg/broadcast/generic.go:31-34 | In every interleaving each open channel has a watcher that will close it when its context is cancelled |
| `Broadcast.Safety` | pkg/broadcast/generic.go:16-83 | In every interleaving: no send on a closed channel, no second close, a channel is in subs exactly while open, at most one stream alive and exactly while running, no subscribers without it |
| `Broadcast.Delivery` | pkg/broadcast/generic.go:63-75 | In every interleaving: received plus buffer (at most 100) is an in-order subsequence of the items since joining; an open subscriber lacks something if and only if its dropper is still to run |
| `Broadcast.NothingMissing` | pkg/broadcast/generic.go:63-75 | A subscriber that nobody is about to drop holds exactly the contiguous suffix since it joined |
| `Broadcast.ClosedIsFinal` | pkg/broadcast/generic.go:39-50 | A closed channel stays closed and delivers nothing more |
| `Broadcast.EndLeavesNobody` | pkg/broadcast/generic.go:77-83 | When a stream ends nobody is left subscribed, including those who came while it was ending |
| `Broadcaster.Broadcaster.Subscribe` | pkg/broadcast/generic.go:16-37 | Is the protocol's step; fails exactly if there was no stream and connecting failed |
| `Broadcaster.Broadcaster.Unsub` | pkg/broadcast/generic.go:39-50 | Closes and removes a registered channel, and leaves any other alone |
| `Broadcaster.Broadcaster.Offer` | pkg/broadcast/generic.go:67-71 | The non-blocking send, with a dropper for a full channel |
| `Broadcaster.Broadcaster.Deliver` | pkg/broadcast/generic.go:63-75 | One round is a path of the protocol that offers the item to every subscriber exactly once, in any order |
| `Broadcaster.Broadcaster.End` | pkg/broadcast/generic.go:77-83 | The end is a path of the protocol after which every channel is closed and no delivery has changed |
| `FinalizerList.RemoveInPlace` | pkg/generic/remove.go:94-100 | The loop that shifts the slice while ranging over it, on an array |
| `FinalizerList.RemovesExactlyWhen` | pkg/generic/remove.go:94-100 | Its result is the old list without the finalizer, all else in order, if and only if there was exactly one copy |
| `FinalizerList.TwoCopiesGoWrong` | pkg/generic/remove.go:94-100 | With two copies another finalizer can end up doubled |
| `Lifecycle.NextHolds` | pkg/generic/remove.go:29-119 | Every step of every adapter, of the API server and of other clients keeps the invariant |
| `Lifecycle.NotRemovedEarly` | pkg/generic/remove.go:29-57 | In every interleaving, with handlers that return any object that has the other adapters' finalizers of some stored version: an object on which an adapter's finalizer was stored is not physically removed before that adapter's handler succeeded after deletion was requested |
| `Lifecycle.HeldByAll` | pkg/generic/remove.go:29-57 | Once every adapter's finalizer has been stored on an object, it is not physically removed before all their handlers have succeeded on it |
| `Lifecycle.FinalizersStaySingle` | pkg/generic/remove.go:80-119 | No stored version ever has an adapter's finalizer twice, so every removal by the in-place loop is exact |
| `Lifecycle.HandledAfterRequest` | pkg/generic/remove.go:34-51 | A handler runs only on a stored version that was marked for deletion |
| `Adapter.ObjectLifecycleAdapter.Sync` | pkg/generic/remove.go:29-57 | Which update it sends, and whether it calls the handler, in every branch |
| `Adapter.ObjectLifecycleAdapter.AddFinalizer` | pkg/generic/remove.go:106-119 | Appends the finalizer once |
| `Adapter.ObjectLifecycleAdapter.RemoveFinalizer` | pkg/generic/remove.go:80-104 | Sends the shifted list, on a copy |
| `Adapter.SyncAdds` | pkg/generic/remove.go:39-41 | One sync of an undeleted newest version stores the old finalizers with "wrangler.cattle.io/" and the adapter's name at the end, and changes nothing else; where it is there already nothing is sent |
| `Adapter.SyncStores` | pkg/generic/remove.go:29-41 | So any run in which an adapter syncs such a version goes on to a point where its finalizer has been stored, from where `Lifecycle.HeldByAll` applies |
| `Adapter.SyncHolds` | pkg/generic/remove.go:34-57 | Without a successful handler, without the finalizer, on an old version or with a lost call, the sync of an object that is being deleted leaves the server as it is |
| `Adapter.SyncReleases` | pkg/generic/remove.go:29-57 | After a successful handler the adapter's finalizer is gone and the others are in order, in what the handler returned or else the object itself, and an object with no other finalizer is removed |
| `Adapter.SyncIsAPath` | pkg/generic/remove.go:29-57 | One sync is a path of that state machine, which begins, looks, waits for the handler where it calls it and sends its update where it has one, and leaves the server with what Sync leaves |
| `OpenApi.TypeToPropsOf` | pkg/schemas/openapi/generate.go:104-154 | Terminates on every finite table, cyclic or not (fewer IDs not in flight, then shorter types), restores the in-flight set on every way out, errors included, and unfolds the type; what the result says is `Meaning.TypeAdmits` |
| `OpenApi.SchemaToPropsOf` | pkg/schemas/openapi/generate.go:156-190 | The same for schemas, with the fields in any order; what the result says is `Meaning.SchemaAdmits` |
| `OpenApi.TypeAndSchema` | pkg/schemas/openapi/generate.go:192-238 | A type means a known schema or a wrapper around a shorter type; which, and what scalars mean, is `Meaning.TypeAdmits` and `TypeNames.LookupFindsExactly` |
| `Meaning.ToOpenAPI` | pkg/schemas/openapi/generate.go:35-50 | Fails exactly for an unknown name or a fault in reach; otherwise the result admits exactly the JSON values of the named schema |
| `Meaning.AdmitsExactly` | pkg/schemas/openapi/generate.go:35-238 | On any table what ToOpenAPI returns admits exactly the values of the named schema, where an object inside one of its own schema is only known to be an object; on an acyclic one exactly the values of the schema as it stands. What a value of a schema is, is defined by the table alone: scalars by name, arrays and maps element by element, required fields, bounds, options, character classes, nullability |
| `Meaning.TypeAdmits` | pkg/schemas/openapi/generate.go:104-154 | The same for every type and every set of schemas in flight |
| `Meaning.SchemaAdmits` | pkg/schemas/openapi/generate.go:52-190 | The same for every schema |
| `Meaning.NodesSay` | pkg/schemas/openapi/generate.go:52-190 | Each field has a node with its description and its default as JSON |
| `Meaning.ErrorExactlyWhen` | pkg/schemas/openapi/generate.go:52-190 | The unfolding fails if and only if some field in reach, on a path without repetition, has an unknown type or a default that cannot be encoded |
| `Unfolding.RootIsNaive` | pkg/schemas/openapi/generate.go:35-50 | On an acyclic table the result equals plain substitution, which has no in-flight set; what both say is `Meaning.AdmitsExactly` |
| `Unfolding.CutsAtAncestors` | pkg/schemas/openapi/generate.go:156-190 | A path of the table is there in the unfolding if and only if no schema repeats before its end, and its end is cut if and only if its schema is an ancestor on the path |
| `TypeNames.WrappingIsUndone` | pkg/schemas/definition/definition.go:9-32 | Taking the sub-type undoes wrapping a type as a map or an array; what is wrapped as a reference is one |
| `TypeNames.LookupFindsExactly` | pkg/schemas/schemas.go:172-191 | An exact ID goes before everything; otherwise the first schema on the list whose ID or plural name is the name, in small letters or capitals |
| `TypeNames.SubTypeIsShorter` | pkg/schemas/definition/definition.go:25-32 | A sub-type is shorter than the wrapped type |
| `Paths.GetValue` | pkg/data/values.go:33-42 | Finds what the path of maps leads to, on the heap |
| `Paths.RemoveValue` | pkg/data/values.go:13-24 | Returns the old value and changes one map, in that key |
| `Paths.PutValue` | pkg/data/values.go:92-117 | All or nothing: blocked by a value that is no map it changes nothing; otherwise one entry of one old map, and new maps for the missing levels |
| `PathLaws.Put` | pkg/data/values.go:92-117 | The same, as a change of the whole heap's shape |
| `PathLaws.Remove` | pkg/data/values.go:13-24 | The same for removal |
| `PathLaws.GetAfterPut` | pkg/data/values.go:33-117 | In a document, the value that was put is found |
| `PathLaws.OtherPathsUnaffected` | pkg/data/values.go:33-117 | What any path that parts from the written one holds is unaffected |
| `PathLaws.RemoveAfterPutRestoresExactlyWhen` | pkg/data/values.go:13-117 | Removing what was put restores every map if and only if the parents were there and the leaf was not |
| `Documents.GetIsLook` | pkg/data/values.go:33-42 | What the maps hold at a path is what the document they spell holds there |
| `Documents.CutIsRemoved` | pkg/data/values.go:13-24 | After RemoveValue in place the maps spell the document without the value, and share nothing with the value |
| `Documents.ObstructedIsBlocked` | pkg/data/values.go:92-117 | PutValue is blocked on the heap if and only if it is in the document |
| `Documents.PutIsPut` | pkg/data/values.go:92-117 | After PutValue in place the maps, old and new, spell the document with the value |
| `Documents.DocIsTree` | pkg/data/values.go:13-117 | In a document every map is reached in one way, so that all the laws above apply |
| `Documents.MoveValue` | pkg/schemas/mappers/move.go:20-31 | RemoveValue and PutValue, one after the other and in place, move the value in the document; new maps are fresh |
| `Merge.MergeMaps` | pkg/data/merge.go:3-15 | On the heap, with inputs that may be nil and may share maps: the recursive loops, for any order of the keys, spell the deep merge, write to maps of their own only, and take over every entry that is not a merge of two maps as it is |
| `Merge.MergedByPaths` | pkg/data/merge.go:3-24 | What the merge holds at any path: the overlay's value (merged where both hold maps), the base's where the overlay says nothing, nothing below a value of the overlay that is no map |
| `Merge.EmptyIsIdentity` | pkg/data/merge.go:3-15 | The empty map is an identity on both sides |
| `Merge.Absorbing` | pkg/data/merge.go:3-24 | Merging the same overlay twice is merging it once |
| `Merge.HidesExactlyWhen` | pkg/data/merge.go:3-24 | The overlay alone results if and only if it covers the base |
| `Merge.AssociativeExactlyWhen` | pkg/data/merge.go:3-24 | Merging is associative if and only if, wherever the outer values are maps and the middle one is not, the last covers the first |
| `Merge.AssociativeThroughMaps` | pkg/data/merge.go:3-24 | In particular if the middle value is a map wherever both outer ones are |
| `Moves.MoveUndoneExactlyWhen` | pkg/schemas/mappers/move.go:20-31 | For any two paths, a move is undone by the opposite move if and only if the stated condition on the two paths and the data holds |
| `Moves.RemoveAgain` | pkg/data/values.go:13-117 | On documents: removing what was put restores it if and only if nothing was there and the put was blocked or had its parents |
| `Moves.PutBack` | pkg/data/values.go:13-117 | Putting back what was removed restores the document |
| `Mappers.Object.MoveValue` | pkg/schemas/mappers/move.go:20-31 | The nested maps on the heap, changed in place, spell the moved document |
| `Mappers.Object.Unpack` | pkg/schemas/mappers/embed.go:20-28 | The entries of the inner map join the outer one, in place and in any order, and the inner map leaves it |
| `Mappers.Object.Pack` | pkg/schemas/mappers/embed.go:30-51 | They are gathered again in a new map, with a null where nothing was found and that is allowed |
| `Mappers.Object.AllFrom` | pkg/schemas/mapper.go:18-22 | A chain in place, first to last |
| `Mappers.Object.AllTo` | pkg/schemas/mapper.go:24-30 | A chain in place, last to first |
| `Mappers.UndoneExactlyWhen` | pkg/schemas/mappers/embed.go:20-51 | ToInternal undoes FromInternal if and only if the data fits the mapper: for an embedding, the field holds a non-empty map of embedded fields only, none of which is outside already |
| `Mappers.ChainUndone` | pkg/schemas/mapper.go:18-30 | For any chain whose mappers fit the data that reaches them, the reverse chain restores the data |
| `Mappers.EmbedFields` | pkg/schemas/mappers/embed.go:73-106 | For any order of the fields: an error exactly on a clash, otherwise the schema with the embedded fields in place of the field |
| `Mappers.MoveAcceptsExactlyWhen` | pkg/schemas/mappers/move.go:33-68 | Exactly when a move inside one schema accepts it, and the schema then: the field under its new name with its type, every other as it was |
| `Mappers.EmbedAcceptsExactlyWhen` | pkg/schemas/mappers/embed.go:53-107 | Exactly when an embedding accepts a schema, and the schema then: the embedded fields that are not ignored instead of the field, every other as it was |
| `Mappers.SegmentsRejoin` | pkg/schemas/mappers/move.go:20-31 | The parts of a path are what stands between its slashes |
| `Mappers.AcceptedFits` | pkg/schemas/mappers/embed.go:53-107 | A strict mapper that accepted a schema fits all data of that schema, which then conforms to the modified schema |
| `Mappers.AcceptedChainFits` | pkg/schemas/mapper.go:32-39 | A chain of strict moves and embeddings accepted by ModifySchema is undone by its reverse on all data of that schema |
| `Mappers.OptionalIsNotUndone` | pkg/schemas/mappers/move.go:38-43 | Optional mappers that are accepted without their field are not undone: a value is carried off, or lost |
| `TypeMapper.Convert` | pkg/schemas/mapper.go:50-116 | Both directions of typeMapper, on maps on the heap: every inner object, in fields, maps and lists, is converted where it is, for any order of the fields and of the objects in a map; what each becomes is `TypeMapper.HeldConverted` |
| `TypeMapper.HeldConverted` | pkg/schemas/mapper.go:50-116 | The object in a field, and each object held in a list or a map, becomes what the mapper of its own schema makes of it; nothing appears, disappears or changes place, and everything else is left alone |
| `TypeMapper.TreeUndone` | pkg/schemas/mapper.go:50-116 | Through any tree of schemas with objects, lists and maps of objects, ToInternal undoes FromInternal if at each level the data fits the chain there |
| `TypeMapper.AcceptedTreeFits` | pkg/schemas/mapper.go:118-146 | If strict mappers have accepted every schema, the mapper that typeMapper.ModifySchema builds for one is undone on all data of that schema, through every level, and what it makes conforms to the modified schemas, element by element in lists and entry by entry in maps |
| `TypeMapper.WrappedTwiceIsLeftAlone` | pkg/schemas/mapper.go:118-146 | Objects in a list of lists, or in any other wrapper in a wrapper, are converted in neither direction |
| `TypeMapper.ThereAndBack` | pkg/schemas/mapper.go:50-116 | Out and back in, in place, leaves maps that spell the document they did |

## Left out

- The computation of three-way and strategic patches, patches that ignore fields, and the encodings of the applied annotation: library code, taken as functions with a contract.
- SHA-1 is an arbitrary function; rate limiting, logging, contexts, discovery caching and the creation of informers do nothing.
- Injectors, and patchers other than the one that always demands replacement.
- What the API server adds of its own: defaulting, conversion between versions beyond the version's name, graceful deletion, finalizers during an apply, admission.
- Other clients that change the cluster while an apply runs.
- The concurrent listing of several namespaces counts as one call.
- Retry.NoNewDemands: assumes that reconcilers accept the run's wanted objects against their own applied copies; Shipped.AcceptedExactlyWhen says exactly when those of the library do.
- ObjectSet.ObjectSet.GVKOrder: the Go function may append to the backing array of the set's own order; here it works on a copy.
- Namespaces.AssignOwnerReference: a revisit may come to any entry, which is more than Go allows.
- Merge.MergeMaps: the variant that concatenates slices is missing.
- Moves.MoveUndoneExactlyWhen: takes data as documents; Documents ties them to maps on the heap as long as no map is shared between two places, which Paths does allow.
- Mappers.AcceptedChainFits: moves between nested schemas, and the code names and access rights of fields, are not part of this model; a schema does not embed itself.
- TypeMapper.AcceptedTreeFits: schemas that contain themselves, for which ToInternal need not end; schemas are found by their exact names here, not by plural names or other case, and are registered inner ones first.
- TypeMapper.Convert: the data is a document, in which no map is reached in two ways; a list is a value that holds maps.
- Paths.PutValue: the one loop of the source is two here, one along the maps that are there and one that makes new ones.
- Unfolding.CutsAtAncestors: the list of required fields, which the source sorts, is a set here.
- Meaning.AdmitsExactly: what a regular expression matches is a parameter, of which no more is known than what a repeated class of characters matches; characters that make no class are taken as the pattern they give; a null is admitted exactly where the type or the field takes one; titles, formats and other annotations of a node restrict nothing.
- Renewal.RenewedInFull: strategic merge patches, which merge some lists by key, are not part of this model; a body with a null in it is not either.
- Delivery.ArrivesInFull: says nothing of an object that shares its final key with another added one, of its kind or of another version; `Retry` and `Versions` do.
- Mappers.MoveAcceptsExactlyWhen: moves between the fields of one schema.
- Lifecycle.NotRemovedEarly: a handler that returns an object from which it has taken another adapter's finalizer, or in which it has doubled its own, is outside the model; sync stores what it returns, and would release the object early.
- TypeNames.Lookup: case folding is that of ASCII.
- Lookups in slices (GetValueFromAny), SliceToMap, the summary tables, FindOwner and PurgeOrphan, kv.Split, the fluent builders, generated code, webhooks and leader election.
