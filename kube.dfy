/**
 * The object shapes of the orchestration system that the install-job
 * completion logic reads and writes: type coordinates, references, labels,
 * generic (unstructured) objects, cluster roles and pods.
 * Only the metadata the completion logic touches is modelled; every other
 * part of a decoded document is kept as an opaque `content` string.
 */
module Kube {

  type Labels = map<string, string>

  /**
   * Simple case folding of one character onto an ASCII letter: the upper-case
   * ASCII letters, and the two other letters whose case orbit holds an ASCII
   * letter, LATIN SMALL LETTER LONG S (U+017F, folds with 's') and KELVIN SIGN
   * (U+212A, folds with 'k'). Every other character is left as it is.
   */
  function Lower(c: char): char
  {
    if 'A' <= c <= 'Z' then (c as int + 32) as char
    else if c == '\U{17F}' then 's'
    else if c == '\U{212A}' then 'k'
    else c
  }

  /**
   * Case-insensitive string equality, as the modelled code's `strings.EqualFold`:
   * same length in characters, and each pair of characters in one case orbit.
   * It agrees with `strings.EqualFold` whenever one side is ASCII.
   */
  predicate EqualFold(a: string, b: string)
  {
    |a| == |b| && forall i :: 0 <= i < |a| ==> Lower(a[i]) == Lower(b[i])
  }

  /** Group, version and kind of an object. */
  datatype GroupVersionKind = GroupVersionKind(group: string, version: string, kind: string)

  /** The `apiVersion` string of an object: "group/version", or just the version for the core group. */
  function APIVersion(gvk: GroupVersionKind): string
  {
    if gvk.group == "" then gvk.version else gvk.group + "/" + gvk.version
  }

  /** An owner reference, built from the owner's type, name and identity token. */
  datatype OwnerReference = OwnerReference(apiVersion: string, kind: string, name: string, uid: string)

  /** A reference to another object (the installer's back-reference to its Stack record). */
  datatype ObjectReference = ObjectReference(apiVersion: string, kind: string, name: string, namespace: string, uid: string)

  /** A generic decoded object. */
  datatype Unstructured = Unstructured(
    gvk: GroupVersionKind,
    name: string,
    namespace: string,
    uid: string,
    labels: Labels,
    ownerReferences: seq<OwnerReference>,
    content: string)

  /** A cluster-scoped permission role aggregated from other roles by label selectors. */
  datatype ClusterRole = ClusterRole(
    apiVersion: string,
    kind: string,
    name: string,
    labels: Labels,
    aggregationSelectors: seq<Labels>)

  /** A worker instance of a job, found through its labels. */
  datatype Pod = Pod(name: string, namespace: string, labels: Labels)

  /**
   * The label merge of the runtime's `AddLabels` helper: every given key is set
   * to its given value, every other existing label is kept.
   */
  function AddLabels(current: Labels, added: Labels): (r: Labels)
    ensures r.Keys == current.Keys + added.Keys
    ensures forall k :: k in added ==> r[k] == added[k]
    ensures forall k :: k in current && k !in added ==> r[k] == current[k]
  {
    current + added
  }
}
