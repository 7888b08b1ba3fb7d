/** Kubernetes identities and objects, as far as the apply engine looks at them. */
module Kube {
  import opened Json

  datatype GroupKind = GroupKind(group: string, kind: string)

  datatype GVK = GVK(group: string, version: string, kind: string) {
    function GK(): GroupKind { GroupKind(group, kind) }

    /** schema.GroupVersionKind.String */
    function Text(): string { group + "/" + version + ", Kind=" + kind }
  }

  /** objectset.ObjectKey: the namespace is empty for a cluster-scoped object. */
  datatype Key = Key(ns: string, name: string) {
    function Text(): string {
      if ns == "" then name else ns + "/" + name
    }
  }

  /** Where the API server stores an object: every version of a kind is a view of one place. */
  datatype Id = Id(gk: GroupKind, key: Key)

  datatype OwnerRef = OwnerRef(apiVersion: string, kind: string, name: string, uid: string,
                               controller: bool, block: bool)

  datatype Object = Object(gvk: GVK, ns: string, name: string,
                           labels: map<string, string>, annotations: map<string, string>,
                           owners: seq<OwnerRef>, body: Record)
  {
    function MetaKey(): Key { Key(ns, name) }

    /** The same stored object, read through another version of its kind. */
    function As(v: GVK): Object { this.(gvk := v) }
  }

  type Objs = map<Key, Object>

  const JOB := GVK("batch", "v1", "Job")

  const LABEL_PREFIX := "objectset.rio.cattle.io/"
  const LABEL_ID := "objectset.rio.cattle.io/id"
  const LABEL_GVK := "objectset.rio.cattle.io/owner-gvk"
  const LABEL_NAME := "objectset.rio.cattle.io/owner-name"
  const LABEL_NAMESPACE := "objectset.rio.cattle.io/owner-namespace"
  const LABEL_HASH := "objectset.rio.cattle.io/hash"
  const LABEL_PRUNE := "objectset.rio.cattle.io/prune"
  const LABEL_APPLIED := "objectset.rio.cattle.io/applied"

  // -------- objects as documents --------

  function Strings(m: map<string, string>): Value {
    Obj(map l | l in m :: Str(m[l]))
  }

  function StringsIn(v: Value): map<string, string> {
    var m := ToMap(v);
    map l | l in m && m[l].Str? :: m[l].s
  }

  /** The metadata of an object's document; owner references are left out. */
  function MetadataOf(o: Object): Record {
    map["name" := Str(o.name), "namespace" := Str(o.ns),
        "labels" := Strings(o.labels), "annotations" := Strings(o.annotations)]
  }

  // -------- keys and labels --------

  /** Every object is filed under the key its own metadata spells. */
  ghost predicate WellKeyed(objs: Objs) {
    forall k :: k in objs ==> objs[k].MetaKey() == k
  }

  predicate HasHash(o: Object, hash: string) {
    LABEL_HASH in o.labels && o.labels[LABEL_HASH] == hash
  }

  /** shouldPrune: only the exact value "false" of the prune label protects an object. */
  predicate ShouldPrune(o: Object) {
    !(LABEL_PRUNE in o.labels && o.labels[LABEL_PRUNE] == "false")
  }

  /** Every label of m is on o, with the same value. */
  ghost predicate HasLabels(o: Object, m: Object) {
    forall l :: l in m.labels ==> l in o.labels && o.labels[l] == m.labels[l]
  }

  /** The byte order that sort.Slice is given through Go's < on strings. */
  predicate StringLess(a: string, b: string) {
    b != [] && (a == [] || a[0] < b[0] || (a[0] == b[0] && StringLess(a[1..], b[1..])))
  }
}
