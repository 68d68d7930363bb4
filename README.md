# Stack install-job completion, modelled in Dafny

This project models the install-job logic of the Crossplane stack manager,
`pkg/controller/stacks/install/installjob.go`. A StackInstall (namespaced) or
ClusterStackInstall (cluster-scoped) asks for a package to be installed. The
installer runs a one-shot Kubernetes Job that unpacks the package and prints
the package's resources on its pod's output: CustomResourceDefinitions (CRDs)
and one Stack record. When the job completes, the completion logic does the
following, in order:

- finds the job's single pod;
- reads and decodes the pod's output, one document at a time;
- labels each decoded object with its provenance (the installer's group,
  version, kind, namespace, name and uid);
- for a Stack record, fills in an empty name and namespace and makes the
  installer its owner;
- for a CRD of a namespaced install, first creates the install's
  `admin`/`edit`/`view` aggregated ClusterRoles;
- creates each object, treating AlreadyExists as success;
- fetches the created Stack record back, stopping at the first failure;
- finally points the installer at that record.

The project has five modules:

- `Wrappers` (`wrappers.dfy`): Option and Result.
- `Kube` (`kube.dfy`): the object shapes the logic touches: type
  coordinates, owner and object references, labels, unstructured objects,
  ClusterRoles, pods, case-insensitive comparison and the label merge.
- `Store` (`store.dfy`): an abstract cluster client, described below.
- `InstallJob` (`installjob.dfy`): the core file.
- `InstallJobProperties` (`properties.dfy`): lemmas about the specification
  functions.

The store is a map from `(group, kind, namespace, name)` to objects, so objects of
the same kind in different API groups are different resources. It also keeps
a ghost trace of every create request, in order, whatever the answer was.
Which requests the server refuses is fixed by a `Faults` value, so every run
is deterministic. `Client` is a class whose `Create`, `Get` and `List`
change or read that state.

Each operation of the core has two forms:

- A specification function over a `World` value: `NamespaceRoles`,
  `Prepared`, `ProvisionRoles`, `Materialize`, `DecodeLoop`, `PodNameFor`
  and `CompleteJob`.
- An imperative method on `StackInstallJobCompleter` that works as the Go
  code does: loops, early returns, requests to the client, and the
  installer's back-reference field updated in place. Each method is proved to
  have exactly the effect its specification function describes.

The properties the code promises are proved as lemmas about the specification
functions:

- role provisioning is fail-fast and tolerates AlreadyExists;
- every create request carries its labels;
- every CRD request is immediately preceded by the persona-role requests;
- the decode loop stops at the first error and never reads past the end of
  the stream;
- the installer's back-reference is the last Stack record fetched;
- re-running a successful completion changes nothing.

The specification functions without contracts of their own are these:

| function | source lines |
|---|---|
| `InstallJob.NamespaceRoles` | 237-283 |
| `InstallJob.ProvisionRoles` | 285-294 |
| `InstallJob.Materialize` | 299-370 |
| `InstallJob.DecodeLoop` | 151-176 |
| `InstallJob.PodNameFor` | 196-207 |
| `InstallJob.CompleteJob` | 136-192 |
| `InstallJob.IsStackObject`: exact group and version, kind compared with EqualFold | 372-380 |
| `InstallJob.NextDecoded`: the decoder's next answer, end of stream once the input is used up | 155-159 |

The lemmas and methods in the table below are what describe them.

Where the description of the system and the code differ, the model follows
the code:

- **ClusterRole labels.** The system's description says every object the
  installer creates carries the provenance labels. In the code, the persona
  ClusterRoles carry only the `namespace.crossplane.io/<ns>` label
  (installjob.go:268-278, which has a TODO about parent labels).
  `InstallJobProperties.Labelled` states that split.
- **`labelNamespaceFmt`.** The code declares it twice with the same value
  (installjob.go:54 and :61) and again locally at :338. The model defines it
  once, as `InstallJob.NamespaceLabel`.

## Model

| member | source | states |
|---|---|---|
| Kube.AddLabels | pkg/controller/stacks/install/installjob.go:348 | the merged labels have exactly the union of the keys; every added key has its added value; every other existing label keeps its value |
| Store.AfterCreate | pkg/controller/stacks/install/installjob.go:365-367 | a create request is appended to the trace; no stored object changes; unless the request failed, the key is then present; only a Created answer stores the new object |
| Store.Fetch | pkg/controller/stacks/install/installjob.go:170-174 | a get succeeds exactly when the key is stored and the request is not refused, and then returns the stored object |
| Store.PodsOfJob | pkg/controller/stacks/install/installjob.go:209-220 | the listed pods are exactly those in the job's namespace whose `job-name` label is the job's name, each as many times as the store holds it, so the count tested at line 202 is the number of the job's pods |
| Store.Client.Create | pkg/controller/stacks/install/installjob.go:365 | the answer is Created, AlreadyExists or failure, as the store's state and faults determine; the new client state is AfterCreate of the old one |
| Store.Client.Get | pkg/controller/stacks/install/installjob.go:172 | the answer is Fetch of the current objects |
| Store.Client.List | pkg/controller/stacks/install/installjob.go:215 | the answer is the job's pods, or a failure when listing is refused |
| InstallJob.StackInstaller.SetStackRecord | pkg/controller/stacks/install/installjob.go:183-189 | the installer's back-reference becomes the given reference |
| InstallJob.CreateInstallJob | pkg/controller/stacks/install/installjob.go:75-134 | the job has the installer's name and namespace and is owned by it; backoff limit 0, restart policy Never; the init step runs the package image and copies `.registry` to `/ext-pkg/`; the executor step runs `stack unpack --content-dir=/ext-pkg/.registry --permission-scope=<scope>`; both steps mount the job's one scratch volume at `/ext-pkg`, which is where the copy lands and where the unpack step reads |
| InstallJob.IsCRDObject | pkg/controller/stacks/install/installjob.go:382-390 | a CRD is never a null document and never a Stack record, so the two branches of object handling are exclusive |
| InstallJob.GenerateNamespaceClusterRoles | pkg/controller/stacks/install/installjob.go:237-283 | no roles unless the permission scope is Namespaced; otherwise three roles, for `admin`, `edit` and `view` in that order, each a `rbac.authorization.k8s.io/v1` ClusterRole named `crossplane:ns:<ns>:<persona>`, labelled only with the namespace label, and aggregating the persona's namespace and default selectors; the method's result equals NamespaceRoles |
| InstallJob.ProvenanceKeysDistinct | pkg/controller/stacks/install/installjob.go:47-54 | the six provenance keys are pairwise distinct and differ from every namespace label, so adding them never overwrites one another |
| InstallJob.Prepared | pkg/controller/stacks/install/installjob.go:307-348 | the type, uid and content are kept; a Stack record gets the installer's name and namespace where it has none and the installer as its only owner; other objects keep their name, namespace and owners; the result carries all six provenance labels with the installer's values; a CRD also carries the namespace label set to "true"; the label keys are exactly the old ones plus the added ones; every other label is kept |
| InstallJob.StackInstallJobCompleter.FindPodNameForJob | pkg/controller/stacks/install/installjob.go:196-207 | succeeds exactly when listing succeeds and exactly one pod carries the job's name, and then returns that pod's name; with zero or several pods it fails naming the count |
| InstallJob.StackInstallJobCompleter.CreateNamespaceClusterRoles | pkg/controller/stacks/install/installjob.go:285-294 | the new store state and the error are those of ProvisionRoles on the installer's persona roles |
| InstallJob.StackInstallJobCompleter.CreateJobOutputObject | pkg/controller/stacks/install/installjob.go:299-370 | the new store state and the error are those of Materialize; a null document does nothing; on success the object as created is Prepared of the decoded one |
| InstallJob.StackInstallJobCompleter.HandleJobCompletion | pkg/controller/stacks/install/installjob.go:136-192 | the new store state, the error and the installer's back-reference are those of CompleteJob; on failure the back-reference is left as it was |
| InstallJobProperties.StackKindCaseInsensitive | pkg/controller/stacks/install/installjob.go:372-380 | the Stack check compares the kind case-insensitively: changing the kind to a case variant does not change the answer, and `Stack`, `stack` and `STACK` are all accepted |
| InstallJobProperties.StackKindFoldsUnicodeLetters | pkg/controller/stacks/install/installjob.go:377-379 | a decoded kind spelled with a long s (U+017F) or a Kelvin sign (U+212A) is still a Stack record, as `strings.EqualFold` folds them with s and k; an s with cedilla does not fold |
| InstallJobProperties.CRDKindFoldsUnicodeLetters | pkg/controller/stacks/install/installjob.go:386-389 | a decoded kind `CustomResourceDefinition` with a long s for its first s is still a CRD |
| InstallJobProperties.PersonaRoleKeysDistinct | pkg/controller/stacks/install/installjob.go:246-247 | a namespaced install has three persona roles, with pairwise distinct store keys |
| InstallJobProperties.ProvisionGrows | pkg/controller/stacks/install/installjob.go:288-292 | provisioning never removes or changes a stored object |
| InstallJobProperties.ProvisionAllAccepted | pkg/controller/stacks/install/installjob.go:288-293 | when the store refuses no role, provisioning succeeds, requests every role in order, and every role is then stored (whether Created or AlreadyExists) |
| InstallJobProperties.ProvisionStopsAtRefused | pkg/controller/stacks/install/installjob.go:289-290 | the error names the first refused role and the installer |
| InstallJobProperties.ProvisionRefusedAttempts | pkg/controller/stacks/install/installjob.go:288-291 | the roles up to and including the first refused one are requested, in order, and no later role is |
| InstallJobProperties.ProvisionFailFast | pkg/controller/stacks/install/installjob.go:285-294 | the whole fail-fast contract of role provisioning: stored objects are kept; with no refusal there is no error, every role is requested and stored; otherwise the batch stops at the first refused role, with that role's error |
| InstallJobProperties.ProvisionSucceedsIff | pkg/controller/stacks/install/installjob.go:288-293 | provisioning succeeds if and only if the store refuses none of the roles |
| InstallJobProperties.MaterializeOutcome | pkg/controller/stacks/install/installjob.go:302-369 | the requests and the error for one document: a null document does nothing; any other non-CRD object is requested alone and fails only if refused; a CRD's roles are requested first; a refused role ends the step with a wrapped error before the CRD is requested; otherwise the CRD follows the roles; stored objects are never changed |
| InstallJobProperties.MaterializeLabels | pkg/controller/stacks/install/installjob.go:327-348 | every request made for a document is labelled: objects carry the provenance labels (CRDs also the namespace label), and roles are the install's persona roles |
| InstallJobProperties.MaterializeKeepsRoleOrder | pkg/controller/stacks/install/installjob.go:337-346 | if every CRD request so far was immediately preceded by the full batch of persona-role requests, that stays true after one more document |
| InstallJobProperties.OtherKeepsRoleOrder | pkg/controller/stacks/install/installjob.go:348-367 | the same, for a document that is not a CRD |
| InstallJobProperties.RefusedRoleKeepsRoleOrder | pkg/controller/stacks/install/installjob.go:343-345 | the same, for a CRD whose role batch is refused part-way, so that the CRD is never requested |
| InstallJobProperties.CRDKeepsRoleOrder | pkg/controller/stacks/install/installjob.go:337-367 | the same, for a CRD whose roles are all accepted, so that the CRD request follows them directly |
| InstallJobProperties.LoopGrows | pkg/controller/stacks/install/installjob.go:153-176 | the decode loop never removes or changes a stored object, and only appends requests |
| InstallJobProperties.ErrorIsFinal | pkg/controller/stacks/install/installjob.go:160-174 | once the loop has failed, documents after the failure are never read: appending to the stream changes nothing |
| InstallJobProperties.EndOfStreamIsFinal | pkg/controller/stacks/install/installjob.go:155-159 | nothing after an end-of-stream marker is processed |
| InstallJobProperties.LoopAppend | pkg/controller/stacks/install/installjob.go:153-176 | processing a stream without an end marker and without error, then more documents, is the same as processing it all in one go |
| InstallJobProperties.DecodeErrorStopsStream | pkg/controller/stacks/install/installjob.go:155-161 | a parse error ends the loop with a ParseFailed error naming the job, after the documents before it were processed and before any after it is read |
| InstallJobProperties.LoopLabels | pkg/controller/stacks/install/installjob.go:163-166 | every request the loop makes is labelled (see MaterializeLabels) |
| InstallJobProperties.ClusterScopeCreatesNoRoles | pkg/controller/stacks/install/installjob.go:240-243 | a cluster-scoped install never requests a ClusterRole |
| InstallJobProperties.LoopKeepsRoleOrder | pkg/controller/stacks/install/installjob.go:337-346 | the loop keeps every CRD request immediately preceded by the full batch of persona-role requests |
| InstallJobProperties.LoopRecordIsLastStack | pkg/controller/stacks/install/installjob.go:168-175 | after a successful loop, a record is kept exactly when the stream held a Stack document; it is the object stored under the key of the last such document, so the last one fetched wins |
| InstallJobProperties.OtherGroupStackDoesNotShadowRecord | pkg/controller/stacks/install/installjob.go:164-175 | a Stack-kind object of another API group, created first under the same namespace and name, neither blocks the Stack record's creation nor is fetched back as the record: the loop keeps the stacks-group record |
| InstallJobProperties.RerunProvision | pkg/controller/stacks/install/installjob.go:289 | provisioning again into a store holding what a successful batch left behind succeeds (every answer is AlreadyExists) and changes no object |
| InstallJobProperties.RerunMaterialize | pkg/controller/stacks/install/installjob.go:343-367 | the same, for one document |
| InstallJobProperties.RerunLoop | pkg/controller/stacks/install/installjob.go:153-176 | the same, for the whole decode loop, which also keeps the same record |
| InstallJobProperties.WrongPodCountCreatesNothing | pkg/controller/stacks/install/installjob.go:202-204 | with zero or several pods the run fails naming the count, creates nothing and sets no back-reference |
| InstallJobProperties.CompletionBackReference | pkg/controller/stacks/install/installjob.go:178-189 | after a successful loop, the run fails with a "no stack record" error exactly when the stream held no Stack document; otherwise it succeeds, and the back-reference is built from the stored record of the last Stack document (apiVersion, kind, name, namespace, uid) |
| InstallJobProperties.SingleStackRecordIsAdopted | pkg/controller/stacks/install/installjob.go:168-189 | one Stack document with no name and no namespace is stored under the installer's name and namespace, owned by the installer, and the back-reference points at it |
| InstallJobProperties.NamespacedCRDProvisionsRolesFirst | pkg/controller/stacks/install/installjob.go:337-367 | for a CRD of a namespaced install, the three persona roles are requested, in order, before the CRD; when the store refuses none, all of them are stored and the step succeeds |
| InstallJobProperties.RerunIsIdempotent | pkg/controller/stacks/install/installjob.go:136-192 | re-running a successful completion against the store it left behind succeeds again, changes no object and sets the same back-reference |

## Left out

- Reading the pod's logs (`readPodLogs`, the log stream, the buffer copy) and
  the YAML/JSON tokenisation. Both are foreign I/O. The model replaces them
  with an injected `LogReader` that returns either the decoder's successive
  answers (a document, possibly null; end of stream; a parse error) or the
  reason reading failed.
- The Kubernetes client's semantics beyond what the code relies on. The store
  keys objects by `(group, kind, namespace, name)` with the kind exactly as
  written, so kinds are not normalised to the registered spelling. A Stack document whose kind is spelled in another case is
  stored under that spelling but fetched back as `Stack`, so the model
  reports a fetch failure for it.
- The internals of `meta.AsOwner`/`meta.ReferenceTo`. They are modelled by
  their result, `OwnerRefTo`: apiVersion, kind, name and uid of the
  installer. Whether the reference is marked as controller or blocks owner
  deletion is not modelled.
- The debug logging in `createJobOutputObject` has no effect on state, so it
  is not modelled.
- The context argument and cancellation, and concurrency. The engine is
  modelled as one sequential run.
- The container names and environment of the unpack job beyond its images,
  command, arguments, mounts and volume. These are constants of the job
  template with no bearing on the completion logic.
- Kube.EqualFold: folds only the ASCII letters and the two non-ASCII letters
  whose case orbit holds an ASCII letter (U+017F with s, U+212A with k),
  where Go's `strings.EqualFold` applies full Unicode simple case folding.
  The two agree whenever one side is ASCII, which holds at both uses
  (lines 379 and 389 compare a decoded kind with the ASCII constants `Stack`
  and `CustomResourceDefinition`). Two non-ASCII strings that differ only in
  case, such as `É` and `é`, are not equal in the model.
- The in-place changes `createJobOutputObject` makes to the decoded object.
  They are modelled by returning the updated object, because a fresh object
  is decoded on every iteration and nothing else holds it.
- The concrete text of wrapped errors. Errors are a datatype that keeps the
  names the messages carry (pod, job, role, object, installer, the count of
  pods).
- The exact integer type of the job's backoff limit (an `int32` set to 0).
  No arithmetic is done on it.
