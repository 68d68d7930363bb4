/**
 * The install-job completion logic of the stack installer: building the
 * unpack job, finding the job's single pod, decoding the pod's output into
 * objects, labelling and owning each object, provisioning the namespace
 * persona roles before a CRD is created, and pointing the installer at the
 * Stack record the job produced.
 *
 * Each operation appears twice: as a specification function over a `World`
 * value (ProvisionRoles, Materialize, DecodeLoop, CompleteJob) and as an
 * imperative method that works the way the Go code does (loops, early
 * returns, requests to a `Client`) and is proved to have exactly the effect
 * the specification function describes.
 */
module InstallJob {
  import opened Wrappers
  import opened Kube
  import opened Store

  // Labels that record the installer that produced an object, so that the
  // object can be cleaned up by label where native ownership cannot be used.
  const LabelParentGroup := "core.crossplane.io/parent-group"
  const LabelParentVersion := "core.crossplane.io/parent-version"
  const LabelParentKind := "core.crossplane.io/parent-kind"
  const LabelParentNamespace := "core.crossplane.io/parent-namespace"
  const LabelParentName := "core.crossplane.io/parent-name"
  const LabelParentUID := "core.crossplane.io/parent-uid"

  /** The label marking an object as owned by a namespace: "namespace.crossplane.io/<ns>". */
  function NamespaceLabel(namespace: string): string
  {
    "namespace.crossplane.io/" + namespace
  }

  const JobBackoff := 0
  const RegistryDirName := ".registry"
  const PackageContentsVolumeName := "package-contents"
  const PackageMountPath := "/ext-pkg"
  /** The package content directory: the mount path joined with the registry directory. */
  const ContentDir := PackageMountPath + "/" + RegistryDirName

  // Type coordinates of the Stack record and of CRDs, and the namespaced
  // permission scope (defined by the API packages the core imports).
  const StacksGroup := "stacks.crossplane.io"
  const StacksVersion := "v1alpha1"
  const StackKind := "Stack"
  const CRDGroup := "apiextensions.k8s.io"
  const CRDVersion := "v1beta1"
  const CRDKind := "CustomResourceDefinition"
  const NamespaceScoped := "Namespaced"

  const ClusterRoleKind := "ClusterRole"
  const ClusterRoleAPIVersion := RBACGroup + "/v1"

  /** The persona roles provisioned for a namespaced install, in order. */
  const Personas: seq<string> := ["admin", "edit", "view"]

  /** The identity and settings of an install request (a StackInstall or a ClusterStackInstall). */
  datatype InstallerMeta = InstallerMeta(
    gvk: GroupVersionKind,
    name: string,
    namespace: string,
    uid: string,
    image: string,
    permissionScope: string)

  /** The install request; the back-reference to its Stack record is the only field the engine changes. */
  class StackInstaller {
    const meta: InstallerMeta
    var stackRecord: Option<ObjectReference>

    constructor (meta: InstallerMeta)
      ensures this.meta == meta && stackRecord == None
    {
      this.meta := meta;
      stackRecord := None;
    }

    method SetStackRecord(ref: ObjectReference)
      modifies this
      ensures stackRecord == Some(ref)
    {
      stackRecord := Some(ref);
    }
  }

  /** The owner reference to an installer (the runtime's `AsOwner(ReferenceTo(i, gvk))`). */
  function OwnerRefTo(m: InstallerMeta): OwnerReference
  {
    OwnerReference(APIVersion(m.gvk), m.gvk.kind, m.name, m.uid)
  }

  // ---------------------------------------------------------------------
  // The unpack job
  // ---------------------------------------------------------------------

  datatype VolumeMount = VolumeMount(name: string, mountPath: string)

  datatype Container = Container(
    name: string,
    image: string,
    command: seq<string>,
    args: seq<string>,
    volumeMounts: seq<VolumeMount>)

  /** A volume; the only kind the job uses is a scratch (EmptyDir) volume. */
  datatype Volume = EmptyDirVolume(name: string)

  datatype Job = Job(
    name: string,
    namespace: string,
    ownerReferences: seq<OwnerReference>,
    backoffLimit: int,
    restartPolicy: string,
    initContainers: seq<Container>,
    containers: seq<Container>,
    volumes: seq<Volume>)

  /**
   * The one-shot job that copies the package contents out of the package
   * image into a scratch volume and runs the executor's unpack command on them.
   */
  function CreateInstallJob(m: InstallerMeta, executorImage: string): (job: Job)
    ensures job.name == m.name && job.namespace == m.namespace
    ensures job.ownerReferences == [OwnerRefTo(m)]
    ensures job.backoffLimit == 0 && job.restartPolicy == "Never"
    ensures |job.initContainers| == 1 && job.initContainers[0].image == m.image
    ensures |job.containers| == 1 && job.containers[0].image == executorImage
    ensures job.containers[0].args
         == ["stack", "unpack", "--content-dir=" + ContentDir, "--permission-scope=" + m.permissionScope]
    // the init step copies the registry directory to the mount path, which is
    // where the unpack step reads it from: both steps mount the one scratch
    // volume there
    ensures job.initContainers[0].command == ["cp", "-R", RegistryDirName, PackageMountPath + "/"]
    ensures ContentDir == PackageMountPath + "/" + job.initContainers[0].command[2]
    ensures |job.volumes| == 1
    ensures job.initContainers[0].volumeMounts == job.containers[0].volumeMounts
         == [VolumeMount(job.volumes[0].name, PackageMountPath)]
  {
    var mounts := [VolumeMount(PackageContentsVolumeName, PackageMountPath)];
    Job(
      m.name,
      m.namespace,
      [OwnerRefTo(m)],
      JobBackoff,
      "Never",
      [Container("stack-package", m.image, ["cp", "-R", RegistryDirName, PackageMountPath + "/"], [], mounts)],
      [Container("stack-executor", executorImage, [],
                 ["stack", "unpack", "--content-dir=" + ContentDir, "--permission-scope=" + m.permissionScope],
                 mounts)],
      [EmptyDirVolume(PackageContentsVolumeName)])
  }

  // ---------------------------------------------------------------------
  // Errors and decoder outcomes
  // ---------------------------------------------------------------------

  datatype Error =
    | PodListFailed(namespace: string)
    | WrongPodCount(job: string, count: nat)
    | PodLogsFailed(pod: string, reason: string)
    | ParseFailed(job: string, reason: string)
    | ClusterRoleCreateFailed(role: string, installer: string)
    | PersonaRolesFailed(installer: string, job: string, cause: Error)
    | ObjectCreateFailed(object: string, job: string)
    | StackRecordFetchFailed(namespace: string, name: string, job: string)
    | NoStackRecord(job: string)

  /** One answer of the multi-document decoder: a document (possibly null), the end of the stream, or a parse error. */
  datatype Decoded = Document(obj: Option<Unstructured>) | EndOfStream | DecodeError(reason: string)

  /**
   * Reading a pod's output and decoding it: given the namespace and the pod's
   * name, the decoder's successive answers, or the reason reading failed.
   */
  type LogReader = (string, string) -> Result<seq<Decoded>, string>

  /** The decoder's next answer: once its input is used up it reports the end of the stream. */
  function NextDecoded(docs: seq<Decoded>): Decoded
  {
    if docs == [] then EndOfStream else docs[0]
  }

  // ---------------------------------------------------------------------
  // Object kinds
  // ---------------------------------------------------------------------

  /** A Stack record: exact group and version, kind compared case-insensitively. */
  predicate IsStackObject(obj: Option<Unstructured>)
  {
    obj.Some?
    && obj.value.gvk.group == StacksGroup
    && obj.value.gvk.version == StacksVersion
    && EqualFold(obj.value.gvk.kind, StackKind)
  }

  /** A CRD: exact group and version, kind compared case-insensitively. No object is both a CRD and a Stack record. */
  function IsCRDObject(obj: Option<Unstructured>): (r: bool)
    ensures r ==> obj.Some? && !IsStackObject(obj)
  {
    assert StacksGroup[0] != CRDGroup[0];
    obj.Some?
    && obj.value.gvk.group == CRDGroup
    && obj.value.gvk.version == CRDVersion
    && EqualFold(obj.value.gvk.kind, CRDKind)
  }

  // ---------------------------------------------------------------------
  // Persona roles
  // ---------------------------------------------------------------------

  function AggregateLabel(persona: string): string
  {
    "rbac.crossplane.io/aggregate-to-namespace-" + persona
  }

  function DefaultAggregateLabel(persona: string): string
  {
    "rbac.crossplane.io/aggregate-to-namespace-default-" + persona
  }

  function PersonaRoleName(namespace: string, persona: string): string
  {
    "crossplane:ns:" + namespace + ":" + persona
  }

  /** The aggregated role of one persona in one namespace. */
  function PersonaRole(namespace: string, persona: string): ClusterRole
  {
    ClusterRole(
      ClusterRoleAPIVersion,
      ClusterRoleKind,
      PersonaRoleName(namespace, persona),
      map[NamespaceLabel(namespace) := "true"],
      [ map[AggregateLabel(persona) := "true", NamespaceLabel(namespace) := "true"],
        map[DefaultAggregateLabel(persona) := "true"] ])
  }

  /** The persona roles of an install: one per persona for a namespaced install, none otherwise. */
  function NamespaceRoles(m: InstallerMeta): seq<ClusterRole>
  {
    if m.permissionScope != NamespaceScoped then []
    else seq(|Personas|, k requires 0 <= k < |Personas| => PersonaRole(m.namespace, Personas[k]))
  }

  /** Builds the persona roles of an install, one persona at a time. */
  method GenerateNamespaceClusterRoles(m: InstallerMeta) returns (roles: seq<ClusterRole>)
    ensures roles == NamespaceRoles(m)
    ensures |roles| == if m.permissionScope == NamespaceScoped then 3 else 0
    ensures forall k :: 0 <= k < |roles| ==>
      && roles[k].kind == ClusterRoleKind
      && roles[k].apiVersion == ClusterRoleAPIVersion
      && roles[k].name == "crossplane:ns:" + m.namespace + ":" + Personas[k]
      && roles[k].labels == map[NamespaceLabel(m.namespace) := "true"]
    ensures forall k :: 0 <= k < |roles| ==>
      roles[k].aggregationSelectors
        == [ map[AggregateLabel(Personas[k]) := "true", NamespaceLabel(m.namespace) := "true"],
             map[DefaultAggregateLabel(Personas[k]) := "true"] ]
  {
    var personas := ["admin", "edit", "view"];
    roles := [];
    var namespaced := m.permissionScope == NamespaceScoped;
    if !namespaced {
      return;
    }
    var ns := m.namespace;
    for k := 0 to |personas|
      invariant |roles| == k
      invariant forall j :: 0 <= j < k ==> roles[j] == PersonaRole(ns, Personas[j])
    {
      var persona := personas[k];
      var name := "crossplane:ns:" + ns + ":" + persona;
      var noLabels: Labels := map[];
      var role := ClusterRole(
        ClusterRoleAPIVersion,
        ClusterRoleKind,
        name,
        noLabels,
        [ map[AggregateLabel(persona) := "true", NamespaceLabel(ns) := "true"],
          map[DefaultAggregateLabel(persona) := "true"] ]);
      if namespaced {
        role := role.(labels := role.labels[NamespaceLabel(ns) := "true"]);
      }
      roles := roles + [role];
    }
  }

  // ---------------------------------------------------------------------
  // Materialisation policy
  // ---------------------------------------------------------------------

  /** The six provenance labels of an installer. */
  function ProvenanceLabels(m: InstallerMeta): Labels
  {
    map[
      LabelParentGroup := m.gvk.group,
      LabelParentVersion := m.gvk.version,
      LabelParentKind := m.gvk.kind,
      LabelParentNamespace := m.namespace,
      LabelParentName := m.name,
      LabelParentUID := m.uid ]
  }

  /** The labels carry all six provenance labels with the installer's values. */
  predicate HasProvenance(labels: Labels, m: InstallerMeta)
  {
    && LabelParentGroup in labels && labels[LabelParentGroup] == m.gvk.group
    && LabelParentVersion in labels && labels[LabelParentVersion] == m.gvk.version
    && LabelParentKind in labels && labels[LabelParentKind] == m.gvk.kind
    && LabelParentNamespace in labels && labels[LabelParentNamespace] == m.namespace
    && LabelParentName in labels && labels[LabelParentName] == m.name
    && LabelParentUID in labels && labels[LabelParentUID] == m.uid
  }

  /** The six provenance keys differ from each other and from every namespace label. */
  lemma ProvenanceKeysDistinct(namespace: string)
    ensures |{LabelParentGroup, LabelParentVersion, LabelParentKind,
              LabelParentNamespace, LabelParentName, LabelParentUID}| == 6
    ensures NamespaceLabel(namespace) !in
              {LabelParentGroup, LabelParentVersion, LabelParentKind,
               LabelParentNamespace, LabelParentName, LabelParentUID}
  {
    assert LabelParentGroup[26] == 'g' && LabelParentVersion[26] == 'v' && LabelParentKind[26] == 'k';
    assert LabelParentNamespace[26] == 'n' && LabelParentName[26] == 'n' && LabelParentUID[26] == 'u';
    assert |LabelParentName| == 30 && |LabelParentNamespace| == 35;
    assert NamespaceLabel(namespace)[0] == 'n' && LabelParentGroup[0] == 'c';
  }

  /** The labels the engine sets on an object of an installer. */
  function OutputLabels(m: InstallerMeta, crd: bool): Labels
  {
    if crd then ProvenanceLabels(m)[NamespaceLabel(m.namespace) := "true"] else ProvenanceLabels(m)
  }

  /** A decoded object as the engine creates it. */
  function Prepared(u: Unstructured, m: InstallerMeta): (r: Unstructured)
    ensures r.gvk == u.gvk && r.uid == u.uid && r.content == u.content
    ensures IsStackObject(Some(u)) ==>
      && r.name == (if u.name == "" then m.name else u.name)
      && r.namespace == (if u.namespace == "" then m.namespace else u.namespace)
      && r.ownerReferences == [OwnerRefTo(m)]
    ensures !IsStackObject(Some(u)) ==>
      r.name == u.name && r.namespace == u.namespace && r.ownerReferences == u.ownerReferences
    ensures HasProvenance(r.labels, m)
    ensures IsCRDObject(Some(u)) ==>
      NamespaceLabel(m.namespace) in r.labels && r.labels[NamespaceLabel(m.namespace)] == "true"
    ensures forall k :: k in r.labels <==> k in u.labels || k in OutputLabels(m, IsCRDObject(Some(u)))
    ensures forall k :: k in u.labels && k !in OutputLabels(m, IsCRDObject(Some(u))) ==> r.labels[k] == u.labels[k]
  {
    var owned :=
      if IsStackObject(Some(u)) then
        u.(name := if u.name == "" then m.name else u.name,
           namespace := if u.namespace == "" then m.namespace else u.namespace,
           ownerReferences := [OwnerRefTo(m)])
      else u;
    ProvenanceKeysDistinct(m.namespace);
    owned.(labels := AddLabels(owned.labels, OutputLabels(m, IsCRDObject(Some(owned)))))
  }

  // ---------------------------------------------------------------------
  // Specification of the engine, over a World value
  // ---------------------------------------------------------------------

  /** The world after a step, and the error that ended it, if any. */
  datatype Step = Step(world: World, err: Option<Error>)

  /** Creating the given roles one by one; AlreadyExists is success, the first other failure ends the batch. */
  function ProvisionRoles(w: World, f: Faults, roles: seq<ClusterRole>, installer: string): Step
    decreases |roles|
  {
    if roles == [] then Step(w, None)
    else
      var w1 := AfterCreate(w, f, Role(roles[0]));
      if CreateOutcome(w.objects, f, Role(roles[0])) == CreateFailed then
        Step(w1, Some(ClusterRoleCreateFailed(roles[0].name, installer)))
      else
        ProvisionRoles(w1, f, roles[1..], installer)
  }

  /** Creating one decoded object; a CRD's persona roles are provisioned first. */
  function Materialize(w: World, f: Faults, obj: Option<Unstructured>, m: InstallerMeta, job: string): Step
  {
    if obj.None? then Step(w, None)
    else
      var p := Prepared(obj.value, m);
      var roles := if IsCRDObject(Some(p)) then ProvisionRoles(w, f, NamespaceRoles(m), m.name) else Step(w, None);
      if roles.err.Some? then
        Step(roles.world, Some(PersonaRolesFailed(m.name, job, roles.err.value)))
      else
        var w2 := AfterCreate(roles.world, f, Resource(p));
        if CreateOutcome(roles.world.objects, f, Resource(p)) == CreateFailed then
          Step(w2, Some(ObjectCreateFailed(p.name, job)))
        else
          Step(w2, None)
  }

  /** The key under which a created Stack record is fetched back: the typed get reads the stacks group's Stack resource. */
  function StackKey(p: Unstructured): Key
  {
    Key(StacksGroup, StackKind, p.namespace, p.name)
  }

  /** The back-reference to a Stack record. */
  function RecordReference(s: Unstructured): ObjectReference
  {
    ObjectReference(APIVersion(s.gvk), s.gvk.kind, s.name, s.namespace, s.uid)
  }

  /** The world at the end of the decode loop, the error that ended it, and the last Stack record fetched. */
  datatype LoopEnd = LoopEnd(world: World, err: Option<Error>, record: Option<Unstructured>)

  /** The decode loop: materialise every document in stream order until the end of the stream or the first error. */
  function DecodeLoop(w: World, f: Faults, docs: seq<Decoded>, m: InstallerMeta, job: string,
                      record: Option<Unstructured>): LoopEnd
    decreases |docs|
  {
    match NextDecoded(docs)
    case EndOfStream => LoopEnd(w, None, record)
    case DecodeError(reason) => LoopEnd(w, Some(ParseFailed(job, reason)), record)
    case Document(obj) =>
      var s := Materialize(w, f, obj, m, job);
      if s.err.Some? then LoopEnd(s.world, s.err, record)
      else if IsStackObject(obj) then
        var p := Prepared(obj.value, m);
        match Fetch(s.world.objects, f, StackKey(p))
        case Ok(Resource(stack)) => DecodeLoop(s.world, f, docs[1..], m, job, Some(stack))
        case _ => LoopEnd(s.world, Some(StackRecordFetchFailed(p.namespace, p.name, job)), record)
      else DecodeLoop(s.world, f, docs[1..], m, job, record)
  }

  /** The name of the job's pod: exactly one pod must carry the job's name. */
  function PodNameFor(pods: seq<Pod>, f: Faults, job: Job): Result<string, Error>
  {
    match ListPods(pods, f, job.namespace, job.name)
    case Err(_) => Err(PodListFailed(job.namespace))
    case Ok(items) =>
      if |items| != 1 then Err(WrongPodCount(job.name, |items|)) else Ok(items[0].name)
  }

  /** The outcome of a completion run: the world, the error, and the back-reference set on the installer. */
  datatype Completed = Completed(world: World, err: Option<Error>, stackRecord: Option<ObjectReference>)

  /** A whole completion run. */
  function CompleteJob(w: World, f: Faults, pods: seq<Pod>, logs: LogReader, m: InstallerMeta, job: Job): Completed
  {
    match PodNameFor(pods, f, job)
    case Err(e) => Completed(w, Some(e), None)
    case Ok(pod) =>
      match logs(job.namespace, pod)
      case Err(reason) => Completed(w, Some(PodLogsFailed(pod, reason)), None)
      case Ok(docs) =>
        var end := DecodeLoop(w, f, docs, m, job.name, None);
        if end.err.Some? then Completed(end.world, end.err, None)
        else if end.record.None? then Completed(end.world, Some(NoStackRecord(job.name)), None)
        else Completed(end.world, None, Some(RecordReference(end.record.value)))
  }

  // ---------------------------------------------------------------------
  // The engine
  // ---------------------------------------------------------------------

  class StackInstallJobCompleter {
    const client: Client
    const podLogReader: LogReader

    constructor (client: Client, podLogReader: LogReader)
      ensures this.client == client && this.podLogReader == podLogReader
    {
      this.client := client;
      this.podLogReader := podLogReader;
    }

    /** Lists the pods carrying the job's name in the job's namespace; exactly one is required. */
    method FindPodNameForJob(job: Job) returns (r: Result<string, Error>)
      ensures r == PodNameFor(client.pods, client.faults, job)
      ensures r.Ok? <==> !client.faults.list && |PodsOfJob(client.pods, job.namespace, job.name)| == 1
      ensures r.Ok? ==> exists p :: p in client.pods && OfJob(p, job.namespace, job.name) && p.name == r.value
      ensures !client.faults.list && |PodsOfJob(client.pods, job.namespace, job.name)| != 1 ==>
        r == Err(WrongPodCount(job.name, |PodsOfJob(client.pods, job.namespace, job.name)|))
    {
      var podList := client.List(job.namespace, job.name);
      if podList.Err? {
        return Err(PodListFailed(job.namespace));
      }
      if |podList.value| != 1 {
        return Err(WrongPodCount(job.name, |podList.value|));
      }
      assert podList.value[0] in podList.value;
      return Ok(podList.value[0].name);
    }

    /** Creates the installer's persona roles, tolerating AlreadyExists and stopping at the first other failure. */
    method CreateNamespaceClusterRoles(inst: StackInstaller) returns (err: Option<Error>)
      modifies client
      ensures Step(client.State(), err)
           == ProvisionRoles(old(client.State()), client.faults, NamespaceRoles(inst.meta), inst.meta.name)
    {
      var roles := GenerateNamespaceClusterRoles(inst.meta);
      ghost var w0 := client.State();
      for i := 0 to |roles|
        invariant ProvisionRoles(w0, client.faults, roles, inst.meta.name)
               == ProvisionRoles(client.State(), client.faults, roles[i..], inst.meta.name)
      {
        var r := client.Create(Role(roles[i]));
        if r == CreateFailed {
          return Some(ClusterRoleCreateFailed(roles[i].name, inst.meta.name));
        }
        assert roles[i..][1..] == roles[i + 1..];
      }
      return None;
    }

    /**
     * Names, labels and owns one decoded object and creates it. `updated` is
     * the object after the in-place changes the Go code makes to it.
     */
    method CreateJobOutputObject(obj: Option<Unstructured>, inst: StackInstaller, job: Job)
      returns (updated: Option<Unstructured>, err: Option<Error>)
      modifies client
      ensures Step(client.State(), err) == Materialize(old(client.State()), client.faults, obj, inst.meta, job.name)
      ensures obj.None? ==> updated.None?
      ensures obj.Some? && err.None? ==> updated == Some(Prepared(obj.value, inst.meta))
    {
      if obj.None? {
        return None, None;
      }
      var o := obj.value;
      if IsStackObject(obj) {
        if o.name == "" {
          o := o.(name := inst.meta.name);
        }
        if o.namespace == "" {
          o := o.(namespace := inst.meta.namespace);
        }
        o := o.(ownerReferences := [OwnerRefTo(inst.meta)]);
      }

      var gvk := inst.meta.gvk;
      var labels := map[
        LabelParentGroup := gvk.group,
        LabelParentVersion := gvk.version,
        LabelParentKind := gvk.kind,
        LabelParentNamespace := inst.meta.namespace,
        LabelParentName := inst.meta.name,
        LabelParentUID := inst.meta.uid ];

      if IsCRDObject(Some(o)) {
        labels := labels[NamespaceLabel(inst.meta.namespace) := "true"];
        var e := CreateNamespaceClusterRoles(inst);
        if e.Some? {
          return Some(o), Some(PersonaRolesFailed(inst.meta.name, job.name, e.value));
        }
      }

      o := o.(labels := AddLabels(o.labels, labels));
      assert o == Prepared(obj.value, inst.meta);
      var r := client.Create(Resource(o));
      if r == CreateFailed {
        return Some(o), Some(ObjectCreateFailed(o.name, job.name));
      }
      return Some(o), None;
    }

    /**
     * Finds the job's pod, reads and decodes its output, creates every decoded
     * object in stream order, and on success points the installer at the last
     * Stack record fetched back from the store.
     */
    method HandleJobCompletion(inst: StackInstaller, job: Job) returns (err: Option<Error>)
      modifies client, inst
      ensures var c := CompleteJob(old(client.State()), client.faults, client.pods, podLogReader, inst.meta, job);
              && client.State() == c.world
              && err == c.err
              && inst.stackRecord == if c.stackRecord.Some? then c.stackRecord else old(inst.stackRecord)
    {
      var stackRecord: Option<Unstructured> := None;
      ghost var w0 := client.State();

      var podName := FindPodNameForJob(job);
      if podName.Err? {
        return Some(podName.error);
      }

      var b := podLogReader(job.namespace, podName.value);
      if b.Err? {
        return Some(PodLogsFailed(podName.value, b.error));
      }

      var d := b.value;
      while true
        invariant DecodeLoop(w0, client.faults, b.value, inst.meta, job.name, None)
               == DecodeLoop(client.State(), client.faults, d, inst.meta, job.name, stackRecord)
        invariant inst.stackRecord == old(inst.stackRecord)
        decreases |d|
      {
        var next := NextDecoded(d);
        if next.EndOfStream? {
          break;
        }
        if next.DecodeError? {
          return Some(ParseFailed(job.name, next.reason));
        }
        d := d[1..];

        var obj, e := CreateJobOutputObject(next.obj, inst, job);
        if e.Some? {
          return e;
        }

        if IsStackObject(obj) {
          var got := client.Get(StackKey(obj.value));
          if got.Err? || !got.value.Resource? {
            return Some(StackRecordFetchFailed(obj.value.namespace, obj.value.name, job.name));
          }
          stackRecord := Some(got.value.u);
        }
      }

      if stackRecord.None? {
        return Some(NoStackRecord(job.name));
      }

      inst.SetStackRecord(RecordReference(stackRecord.value));
      return None;
    }
  }
}
