/**
 * An abstract in-memory object store standing in for the cluster client.
 * Objects are keyed by (kind, namespace, name). `Create` never replaces a
 * stored object: it answers Created, AlreadyExists or a failure; `Get`
 * returns what is stored; `List` filters the pods by namespace and the
 * `job-name` label. Which requests the server refuses is fixed up front by a
 * `Faults` value, so that every run of the model is deterministic.
 */
module Store {
  import opened Wrappers
  import opened Kube

  /** The label the job controller puts on the pods of a job. */
  const JobNameLabel := "job-name"

  /** The API group of the cluster roles the store holds. */
  const RBACGroup := "rbac.authorization.k8s.io"

  /**
   * Where an object is stored: its API group, kind, namespace and name. Two
   * objects of the same kind in different groups are different resources;
   * the version is not part of the key, as every version of a group and
   * kind serves the same objects.
   */
  datatype Key = Key(group: string, kind: string, namespace: string, name: string)

  /** What the store holds: a generic object or a cluster role. */
  datatype Object = Resource(u: Unstructured) | Role(r: ClusterRole)

  function KeyOf(o: Object): Key
  {
    match o
    case Resource(u) => Key(u.gvk.group, u.gvk.kind, u.namespace, u.name)
    case Role(r) => Key(RBACGroup, r.kind, "", r.name)
  }

  /** The requests the server refuses with an error other than AlreadyExists. */
  datatype Faults = Faults(create: set<Key>, get: set<Key>, list: bool)

  datatype CreateResult = Created | AlreadyExists | CreateFailed

  datatype StoreError = NotFound | RequestFailed

  /**
   * The store's objects, and every object the engine has asked the store to
   * create, in order (whatever the answer was).
   */
  datatype World = World(objects: map<Key, Object>, attempts: seq<Object>)

  /** Every object of `m1` is in `m2`, unchanged. */
  ghost predicate Extends(m1: map<Key, Object>, m2: map<Key, Object>)
  {
    forall k :: k in m1 ==> k in m2 && m2[k] == m1[k]
  }

  /** The answer of the store to a create request. */
  function CreateOutcome(objects: map<Key, Object>, f: Faults, o: Object): CreateResult
  {
    if KeyOf(o) in f.create then CreateFailed
    else if KeyOf(o) in objects then AlreadyExists
    else Created
  }

  /** The world after a create request. */
  function AfterCreate(w: World, f: Faults, o: Object): (r: World)
    ensures r.attempts == w.attempts + [o]
    ensures Extends(w.objects, r.objects)
    ensures CreateOutcome(w.objects, f, o) != CreateFailed ==> KeyOf(o) in r.objects
    ensures CreateOutcome(w.objects, f, o) == Created ==> r.objects == w.objects[KeyOf(o) := o]
    ensures CreateOutcome(w.objects, f, o) != Created ==> r.objects == w.objects
  {
    var objects := if CreateOutcome(w.objects, f, o) == Created then w.objects[KeyOf(o) := o] else w.objects;
    World(objects, w.attempts + [o])
  }

  /** The answer of the store to a get request. */
  function Fetch(objects: map<Key, Object>, f: Faults, k: Key): (r: Result<Object, StoreError>)
    ensures r.Ok? <==> k !in f.get && k in objects
    ensures r.Ok? ==> r.value == objects[k]
  {
    if k in f.get then Err(RequestFailed)
    else if k !in objects then Err(NotFound)
    else Ok(objects[k])
  }

  /** Whether a pod belongs to the job of the given name in the given namespace. */
  predicate OfJob(p: Pod, namespace: string, jobName: string)
  {
    p.namespace == namespace && JobNameLabel in p.labels && p.labels[JobNameLabel] == jobName
  }

  /** The pods of a job, in store order: each pod of the job as often as the store lists it, and no other pod. */
  function PodsOfJob(pods: seq<Pod>, namespace: string, jobName: string): (r: seq<Pod>)
    ensures |r| <= |pods|
    ensures forall p :: p in r <==> p in pods && OfJob(p, namespace, jobName)
    ensures forall p :: multiset(r)[p] == if OfJob(p, namespace, jobName) then multiset(pods)[p] else 0
  {
    if pods == [] then []
    else
      assert pods == [pods[0]] + pods[1..];
      (if OfJob(pods[0], namespace, jobName) then [pods[0]] else []) + PodsOfJob(pods[1..], namespace, jobName)
  }

  /** The answer of the store to a list request for the pods of a job. */
  function ListPods(pods: seq<Pod>, f: Faults, namespace: string, jobName: string): Result<seq<Pod>, StoreError>
  {
    if f.list then Err(RequestFailed) else Ok(PodsOfJob(pods, namespace, jobName))
  }

  /** The client: the store's state and its three requests. */
  class Client {
    var objects: map<Key, Object>
    ghost var attempts: seq<Object>
    const pods: seq<Pod>
    const faults: Faults

    constructor (objects: map<Key, Object>, pods: seq<Pod>, faults: Faults)
      ensures this.objects == objects && this.attempts == []
      ensures this.pods == pods && this.faults == faults
    {
      this.objects := objects;
      this.attempts := [];
      this.pods := pods;
      this.faults := faults;
    }

    ghost function State(): World
      reads this
    {
      World(objects, attempts)
    }

    method Create(o: Object) returns (r: CreateResult)
      modifies this
      ensures r == CreateOutcome(old(objects), faults, o)
      ensures State() == AfterCreate(old(State()), faults, o)
    {
      r := CreateOutcome(objects, faults, o);
      if r == Created {
        objects := objects[KeyOf(o) := o];
      }
      attempts := attempts + [o];
    }

    method Get(k: Key) returns (r: Result<Object, StoreError>)
      ensures r == Fetch(objects, faults, k)
    {
      r := Fetch(objects, faults, k);
    }

    method List(namespace: string, jobName: string) returns (r: Result<seq<Pod>, StoreError>)
      ensures r == ListPods(pods, faults, namespace, jobName)
    {
      r := ListPods(pods, faults, namespace, jobName);
    }
  }
}
