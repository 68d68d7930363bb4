/**
 * Properties of the install-job completion logic, proved about the
 * specification functions of module InstallJob (which the imperative engine
 * is proved to follow).
 */
module InstallJobProperties {
  import opened Wrappers
  import opened Kube
  import opened Store
  import opened InstallJob

  /** Concatenation is associative (proved once, generically). */
  lemma ConcatAssoc<T>(a: seq<T>, b: seq<T>, c: seq<T>)
    ensures (a + b) + c == a + (b + c)
  {
  }

  // ---------------------------------------------------------------------
  // Object kinds and persona roles
  // ---------------------------------------------------------------------

  /** Stack detection ignores the case of the kind and nothing else. */
  lemma StackKindCaseInsensitive(u: Unstructured, kind: string)
    requires EqualFold(kind, u.gvk.kind)
    ensures IsStackObject(Some(u.(gvk := u.gvk.(kind := kind)))) == IsStackObject(Some(u))
    ensures u.gvk.group == StacksGroup && u.gvk.version == StacksVersion && u.gvk.kind in {"Stack", "stack", "STACK"}
            ==> IsStackObject(Some(u))
  {
    if u.gvk.kind == "stack" {
      assert EqualFold(u.gvk.kind, StackKind);
    } else if u.gvk.kind == "STACK" {
      assert forall i :: 0 <= i < 5 ==> Lower(u.gvk.kind[i]) == Lower(StackKind[i]);
    }
  }

  /**
   * The kind comparison folds the non-ASCII letters that fold onto ASCII ones:
   * a long s or a Kelvin sign in a decoded kind still names a Stack record,
   * and a non-folding look-alike (s with cedilla) does not.
   */
  lemma StackKindFoldsUnicodeLetters(u: Unstructured)
    requires u.gvk.group == StacksGroup && u.gvk.version == StacksVersion
    ensures u.gvk.kind == "\U{17F}tack" ==> IsStackObject(Some(u))
    ensures u.gvk.kind == "Stac\U{212A}" ==> IsStackObject(Some(u))
    ensures u.gvk.kind == "\U{15F}tack" ==> !IsStackObject(Some(u))
  {
    var k := u.gvk.kind;
    if k == "\U{17F}tack" || k == "Stac\U{212A}" {
      assert forall i :: 0 <= i < 5 ==> Lower(k[i]) == Lower(StackKind[i]);
    } else if k == "\U{15F}tack" {
      assert Lower(k[0]) != Lower(StackKind[0]);
    }
  }

  /** Replacing one character by another of its case orbit keeps a string case-insensitively equal. */
  lemma EqualFoldReplace(s: string, i: nat, c: char)
    requires i < |s| && Lower(c) == Lower(s[i])
    ensures EqualFold(s[..i] + [c] + s[i + 1..], s)
  {
    var t := s[..i] + [c] + s[i + 1..];
    forall j | 0 <= j < |t| ensures Lower(t[j]) == Lower(s[j]) {
      if j < i {
        assert t[j] == s[..i][j];
      } else if j > i {
        assert t[j] == s[i + 1..][j - i - 1];
      }
    }
  }

  /** The same for CRDs: "Cu\U{17F}tomResourceDefinition", with a long s for the first s, still names a CRD. */
  lemma CRDKindFoldsUnicodeLetters(u: Unstructured)
    requires u.gvk.group == CRDGroup && u.gvk.version == CRDVersion
    requires u.gvk.kind == CRDKind[..2] + ['\U{17F}'] + CRDKind[3..]
    ensures IsCRDObject(Some(u))
  {
    assert CRDKind[2] == 's';
    EqualFoldReplace(CRDKind, 2, '\U{17F}');
  }

  /** The persona roles of a namespaced install have three distinct store keys. */
  lemma PersonaRoleKeysDistinct(m: InstallerMeta)
    requires m.permissionScope == NamespaceScoped
    ensures |NamespaceRoles(m)| == 3
    ensures forall i, j :: 0 <= i < j < 3 ==> KeyOf(Role(NamespaceRoles(m)[i])) != KeyOf(Role(NamespaceRoles(m)[j]))
  {
    var roles := NamespaceRoles(m);
    var l := |"crossplane:ns:" + m.namespace + ":"|;
    assert roles[0].name[l] == 'a';
    assert roles[1].name[l] == 'e';
    assert roles[2].name[l] == 'v';
  }

  // ---------------------------------------------------------------------
  // Provisioning the persona roles
  // ---------------------------------------------------------------------

  /** The create requests of a batch of roles. */
  function RoleObjects(roles: seq<ClusterRole>): (r: seq<Object>)
    ensures |r| == |roles|
    ensures forall i :: 0 <= i < |roles| ==> r[i] == Role(roles[i])
    decreases |roles|
  {
    if roles == [] then [] else [Role(roles[0])] + RoleObjects(roles[1..])
  }

  /** How many roles at the front of the batch the store accepts (the first refused one, if any, is at this index). */
  function LeadingAccepted(roles: seq<ClusterRole>, f: Faults): (k: nat)
    ensures k <= |roles|
    ensures forall i :: 0 <= i < k ==> KeyOf(Role(roles[i])) !in f.create
    ensures k < |roles| ==> KeyOf(Role(roles[k])) in f.create
    decreases |roles|
  {
    if roles == [] || KeyOf(Role(roles[0])) in f.create then 0
    else 1 + LeadingAccepted(roles[1..], f)
  }

  /** Provisioning only adds objects to the store. */
  lemma {:induction false} ProvisionGrows(w: World, f: Faults, roles: seq<ClusterRole>, installer: string)
    ensures Extends(w.objects, ProvisionRoles(w, f, roles, installer).world.objects)
    decreases |roles|
  {
    if roles != [] && CreateOutcome(w.objects, f, Role(roles[0])) != CreateFailed {
      ProvisionGrows(AfterCreate(w, f, Role(roles[0])), f, roles[1..], installer);
    }
  }

  /** When the store refuses no role, every role is requested in order and is then in the store. */
  lemma {:induction false} ProvisionAllAccepted(w: World, f: Faults, roles: seq<ClusterRole>, installer: string)
    requires LeadingAccepted(roles, f) == |roles|
    ensures var s := ProvisionRoles(w, f, roles, installer);
      && s.err == None
      && s.world.attempts == w.attempts + RoleObjects(roles)
      && forall i :: 0 <= i < |roles| ==> KeyOf(Role(roles[i])) in s.world.objects
    decreases |roles|
  {
    if roles != [] {
      var head := [Role(roles[0])];
      var w1 := AfterCreate(w, f, Role(roles[0]));
      var r1 := roles[1..];
      var s1 := ProvisionRoles(w1, f, r1, installer);
      assert ProvisionRoles(w, f, roles, installer) == s1 by {
        assert KeyOf(Role(roles[0])) !in f.create;
      }
      assert && s1.err == None
             && s1.world.attempts == w1.attempts + RoleObjects(r1)
             && (forall i :: 0 <= i < |r1| ==> KeyOf(Role(r1[i])) in s1.world.objects)
             && Extends(w1.objects, s1.world.objects) by {
        assert LeadingAccepted(r1, f) == |r1|;
        ProvisionAllAccepted(w1, f, r1, installer);
        ProvisionGrows(w1, f, r1, installer);
      }
      assert RoleObjects(roles) == head + RoleObjects(r1);
      ConcatAssoc(w.attempts, head, RoleObjects(r1));
      assert KeyOf(Role(roles[0])) in s1.world.objects by {
        assert KeyOf(Role(roles[0])) !in f.create;
      }
      forall i | 1 <= i < |roles| ensures KeyOf(Role(roles[i])) in s1.world.objects {
        assert roles[i] == r1[i - 1];
      }
    }
  }

  lemma RoleObjectsOfPrefix(roles: seq<ClusterRole>, k: nat)
    requires 0 < k <= |roles|
    ensures RoleObjects(roles[..k]) == [Role(roles[0])] + RoleObjects(roles[1..][..k - 1])
  {
    var a := RoleObjects(roles[..k]);
    var b := [Role(roles[0])] + RoleObjects(roles[1..][..k - 1]);
    assert |a| == |b|;
    forall i | 0 <= i < |a| ensures a[i] == b[i] {
      if i > 0 {
        assert roles[1..][..k - 1][i - 1] == roles[i];
      }
    }
  }

  /** The first refused role ends the batch, and the error names it. */
  lemma {:induction false} ProvisionStopsAtRefused(w: World, f: Faults, roles: seq<ClusterRole>, installer: string)
    requires LeadingAccepted(roles, f) < |roles|
    ensures ProvisionRoles(w, f, roles, installer).err
         == Some(ClusterRoleCreateFailed(roles[LeadingAccepted(roles, f)].name, installer))
    decreases |roles|
  {
    var k := LeadingAccepted(roles, f);
    if k > 0 {
      var w1 := AfterCreate(w, f, Role(roles[0]));
      assert ProvisionRoles(w, f, roles, installer) == ProvisionRoles(w1, f, roles[1..], installer);
      assert LeadingAccepted(roles[1..], f) == k - 1;
      ProvisionStopsAtRefused(w1, f, roles[1..], installer);
      assert roles[1..][k - 1] == roles[k];
    }
  }

  /** The roles up to and including the first refused one are requested, and no later one. */
  lemma {:induction false} ProvisionRefusedAttempts(w: World, f: Faults, roles: seq<ClusterRole>, installer: string)
    requires LeadingAccepted(roles, f) < |roles|
    ensures ProvisionRoles(w, f, roles, installer).world.attempts
         == w.attempts + RoleObjects(roles[..LeadingAccepted(roles, f) + 1])
    decreases |roles|
  {
    var k := LeadingAccepted(roles, f);
    var head := [Role(roles[0])];
    if k == 0 {
      assert ProvisionRoles(w, f, roles, installer).world.attempts == w.attempts + head by {
        assert KeyOf(Role(roles[0])) in f.create;
      }
      assert RoleObjects(roles[..1]) == head;
    } else {
      var w1 := AfterCreate(w, f, Role(roles[0]));
      var r1 := roles[1..];
      var tail := RoleObjects(r1[..k]);
      assert ProvisionRoles(w, f, roles, installer).world.attempts
          == ProvisionRoles(w1, f, r1, installer).world.attempts by {
        assert KeyOf(Role(roles[0])) !in f.create;
      }
      assert ProvisionRoles(w1, f, r1, installer).world.attempts == w1.attempts + tail by {
        assert LeadingAccepted(r1, f) == k - 1;
        ProvisionRefusedAttempts(w1, f, r1, installer);
      }
      assert RoleObjects(roles[..k + 1]) == head + tail by {
        RoleObjectsOfPrefix(roles, k + 1);
      }
      ConcatAssoc(w.attempts, head, tail);
    }
  }

  /**
   * Provisioning is fail-fast: the roles are requested in order up to and
   * including the first refused one, whose name the error carries; when none
   * is refused (AlreadyExists counts as accepted) every role is in the store.
   * Nothing stored before is changed.
   */
  lemma ProvisionFailFast(w: World, f: Faults, roles: seq<ClusterRole>, installer: string)
    ensures var s := ProvisionRoles(w, f, roles, installer); var k := LeadingAccepted(roles, f);
      && Extends(w.objects, s.world.objects)
      && (k == |roles| ==>
            && s.err == None
            && s.world.attempts == w.attempts + RoleObjects(roles)
            && forall i :: 0 <= i < |roles| ==> KeyOf(Role(roles[i])) in s.world.objects)
      && (k < |roles| ==>
            && s.err == Some(ClusterRoleCreateFailed(roles[k].name, installer))
            && s.world.attempts == w.attempts + RoleObjects(roles[..k + 1]))
  {
    ProvisionGrows(w, f, roles, installer);
    if LeadingAccepted(roles, f) == |roles| {
      ProvisionAllAccepted(w, f, roles, installer);
    } else {
      ProvisionStopsAtRefused(w, f, roles, installer);
      ProvisionRefusedAttempts(w, f, roles, installer);
    }
  }

  /** Provisioning succeeds exactly when the store refuses none of the roles. */
  lemma ProvisionSucceedsIff(w: World, f: Faults, roles: seq<ClusterRole>, installer: string)
    ensures ProvisionRoles(w, f, roles, installer).err.None?
        <==> forall i :: 0 <= i < |roles| ==> KeyOf(Role(roles[i])) !in f.create
  {
    ProvisionFailFast(w, f, roles, installer);
  }

  // ---------------------------------------------------------------------
  // Materialising one object
  // ---------------------------------------------------------------------

  /**
   * The create requests one decoded object causes: none for a null document;
   * the object alone when it is not a CRD; for a CRD, the persona roles up to
   * the first refused one (and then not the CRD), or all of them followed by
   * the CRD. AlreadyExists from the store is success.
   */
  lemma MaterializeOutcome(w: World, f: Faults, obj: Option<Unstructured>, m: InstallerMeta, job: string)
    ensures Extends(w.objects, Materialize(w, f, obj, m, job).world.objects)
    ensures obj.None? ==> Materialize(w, f, obj, m, job) == Step(w, None)
    ensures obj.Some? && !IsCRDObject(obj) ==>
      var p := Prepared(obj.value, m); var s := Materialize(w, f, obj, m, job);
      && s.world.attempts == w.attempts + [Resource(p)]
      && s.err == (if KeyOf(Resource(p)) in f.create then Some(ObjectCreateFailed(p.name, job)) else None)
      && (s.err.None? ==> KeyOf(Resource(p)) in s.world.objects)
    ensures IsCRDObject(obj) ==>
      var p := Prepared(obj.value, m); var s := Materialize(w, f, obj, m, job);
      var roles := NamespaceRoles(m); var k := LeadingAccepted(roles, f);
      && (k < |roles| ==>
            && s.err == Some(PersonaRolesFailed(m.name, job, ClusterRoleCreateFailed(roles[k].name, m.name)))
            && s.world.attempts == w.attempts + RoleObjects(roles[..k + 1]))
      && (k == |roles| ==>
            && s.world.attempts == w.attempts + RoleObjects(roles) + [Resource(p)]
            && s.err == (if KeyOf(Resource(p)) in f.create then Some(ObjectCreateFailed(p.name, job)) else None)
            && (s.err.None? ==> KeyOf(Resource(p)) in s.world.objects))
  {
    if obj.Some? && IsCRDObject(obj) {
      ProvisionFailFast(w, f, NamespaceRoles(m), m.name);
    }
  }

  /** What the engine asks the store to create carries its labels: provenance (and, for a CRD, the namespace label) or is a persona role. */
  ghost predicate Labelled(o: Object, m: InstallerMeta)
  {
    match o
    case Resource(u) =>
      && HasProvenance(u.labels, m)
      && (IsCRDObject(Some(u)) ==> NamespaceLabel(m.namespace) in u.labels && u.labels[NamespaceLabel(m.namespace)] == "true")
    case Role(r) => r in NamespaceRoles(m)
  }

  lemma MaterializeLabels(w: World, f: Faults, obj: Option<Unstructured>, m: InstallerMeta, job: string)
    ensures var s := Materialize(w, f, obj, m, job);
      && w.attempts <= s.world.attempts
      && forall i :: |w.attempts| <= i < |s.world.attempts| ==> Labelled(s.world.attempts[i], m)
  {
    MaterializeOutcome(w, f, obj, m, job);
    var s := Materialize(w, f, obj, m, job);
    if obj.Some? && IsCRDObject(obj) {
      var roles := NamespaceRoles(m);
      var k := LeadingAccepted(roles, f);
      forall i | |w.attempts| <= i < |s.world.attempts| ensures Labelled(s.world.attempts[i], m) {
        var j := i - |w.attempts|;
        if j < |roles| && j <= k {
          assert roles[j] in roles;
        }
      }
    }
  }

  /** The CRDs in a sequence of create requests are each immediately preceded by the given roles. */
  ghost predicate RolesBeforeEachCRD(t: seq<Object>, roles: seq<ClusterRole>)
  {
    forall j :: 0 <= j < |t| && t[j].Resource? && IsCRDObject(Some(t[j].u)) ==>
      |roles| <= j && t[j - |roles|..j] == RoleObjects(roles)
  }

  lemma RolesBeforeEachCRDAppend(t: seq<Object>, s: seq<Object>, roles: seq<ClusterRole>)
    requires RolesBeforeEachCRD(t, roles) && RolesBeforeEachCRD(s, roles)
    ensures RolesBeforeEachCRD(t + s, roles)
  {
    forall j | 0 <= j < |t + s| && (t + s)[j].Resource? && IsCRDObject(Some((t + s)[j].u))
      ensures |roles| <= j && (t + s)[j - |roles|..j] == RoleObjects(roles)
    {
      if j >= |t| {
        var i := j - |t|;
        assert s[i] == (t + s)[j];
        assert (t + s)[j - |roles|..j] == s[i - |roles|..i];
      } else {
        assert t[j] == (t + s)[j];
        assert (t + s)[j - |roles|..j] == t[j - |roles|..j];
      }
    }
  }

  /** A run of role requests holds no CRD, so it breaks no ordering. */
  lemma RoleRunKeepsOrder(run: seq<ClusterRole>, roles: seq<ClusterRole>)
    ensures RolesBeforeEachCRD(RoleObjects(run), roles)
  {
    var t := RoleObjects(run);
    assert forall j :: 0 <= j < |t| ==> t[j].Role?;
  }

  /** The full batch of roles followed by the CRD keeps the ordering. */
  lemma BatchThenCRDKeepsOrder(roles: seq<ClusterRole>, p: Unstructured)
    ensures RolesBeforeEachCRD(RoleObjects(roles) + [Resource(p)], roles)
  {
    var t := RoleObjects(roles) + [Resource(p)];
    forall j | 0 <= j < |t| && t[j].Resource? && IsCRDObject(Some(t[j].u))
      ensures |roles| <= j && t[j - |roles|..j] == RoleObjects(roles)
    {
      if j == |roles| {
        assert t[..|roles|] == RoleObjects(roles);
      }
    }
  }

  lemma MaterializeKeepsRoleOrder(w: World, f: Faults, obj: Option<Unstructured>, m: InstallerMeta, job: string)
    requires RolesBeforeEachCRD(w.attempts, NamespaceRoles(m))
    ensures RolesBeforeEachCRD(Materialize(w, f, obj, m, job).world.attempts, NamespaceRoles(m))
  {
    if obj.Some? {
      if !IsCRDObject(obj) {
        OtherKeepsRoleOrder(w, f, obj, m, job);
      } else if LeadingAccepted(NamespaceRoles(m), f) < |NamespaceRoles(m)| {
        RefusedRoleKeepsRoleOrder(w, f, obj, m, job);
      } else {
        CRDKeepsRoleOrder(w, f, obj, m, job);
      }
    }
  }

  lemma OtherKeepsRoleOrder(w: World, f: Faults, obj: Option<Unstructured>, m: InstallerMeta, job: string)
    requires obj.Some? && !IsCRDObject(obj)
    requires RolesBeforeEachCRD(w.attempts, NamespaceRoles(m))
    ensures RolesBeforeEachCRD(Materialize(w, f, obj, m, job).world.attempts, NamespaceRoles(m))
  {
    var p := Prepared(obj.value, m);
    assert Materialize(w, f, obj, m, job).world.attempts == w.attempts + [Resource(p)] by {
      MaterializeOutcome(w, f, obj, m, job);
    }
    assert !IsCRDObject(Some(p));
    assert RolesBeforeEachCRD([Resource(p)], NamespaceRoles(m));
    RolesBeforeEachCRDAppend(w.attempts, [Resource(p)], NamespaceRoles(m));
  }

  lemma RefusedRoleKeepsRoleOrder(w: World, f: Faults, obj: Option<Unstructured>, m: InstallerMeta, job: string)
    requires IsCRDObject(obj) && LeadingAccepted(NamespaceRoles(m), f) < |NamespaceRoles(m)|
    requires RolesBeforeEachCRD(w.attempts, NamespaceRoles(m))
    ensures RolesBeforeEachCRD(Materialize(w, f, obj, m, job).world.attempts, NamespaceRoles(m))
  {
    var roles := NamespaceRoles(m);
    var run := roles[..LeadingAccepted(roles, f) + 1];
    assert Materialize(w, f, obj, m, job).world.attempts == w.attempts + RoleObjects(run) by {
      MaterializeOutcome(w, f, obj, m, job);
    }
    RoleRunKeepsOrder(run, roles);
    RolesBeforeEachCRDAppend(w.attempts, RoleObjects(run), roles);
  }

  lemma CRDKeepsRoleOrder(w: World, f: Faults, obj: Option<Unstructured>, m: InstallerMeta, job: string)
    requires IsCRDObject(obj) && LeadingAccepted(NamespaceRoles(m), f) == |NamespaceRoles(m)|
    requires RolesBeforeEachCRD(w.attempts, NamespaceRoles(m))
    ensures RolesBeforeEachCRD(Materialize(w, f, obj, m, job).world.attempts, NamespaceRoles(m))
  {
    var roles := NamespaceRoles(m);
    var seg := RoleObjects(roles) + [Resource(Prepared(obj.value, m))];
    assert Materialize(w, f, obj, m, job).world.attempts == w.attempts + seg by {
      MaterializeOutcome(w, f, obj, m, job);
      ConcatAssoc(w.attempts, RoleObjects(roles), [Resource(Prepared(obj.value, m))]);
    }
    BatchThenCRDKeepsOrder(roles, Prepared(obj.value, m));
    RolesBeforeEachCRDAppend(w.attempts, seg, roles);
  }

  // ---------------------------------------------------------------------
  // The decode loop
  // ---------------------------------------------------------------------

  /** The loop only adds objects to the store and only appends create requests. */
  lemma {:induction false} LoopGrows(w: World, f: Faults, docs: seq<Decoded>, m: InstallerMeta, job: string,
                                     record: Option<Unstructured>)
    ensures var e := DecodeLoop(w, f, docs, m, job, record);
      Extends(w.objects, e.world.objects) && w.attempts <= e.world.attempts
    decreases |docs|
  {
    if docs != [] && docs[0].Document? {
      var obj := docs[0].obj;
      MaterializeOutcome(w, f, obj, m, job);
      MaterializeLabels(w, f, obj, m, job);
      var s := Materialize(w, f, obj, m, job);
      if s.err.None? {
        if IsStackObject(obj) {
          match Fetch(s.world.objects, f, StackKey(Prepared(obj.value, m)))
          case Ok(Resource(stack)) =>
            LoopGrows(s.world, f, docs[1..], m, job, Some(stack));
          case _ =>
        } else {
          LoopGrows(s.world, f, docs[1..], m, job, record);
        }
      }
    }
  }

  /** Once the loop fails, later documents are never read: appending to the stream changes nothing. */
  lemma {:induction false} ErrorIsFinal(w: World, f: Faults, docs: seq<Decoded>, more: seq<Decoded>,
                                        m: InstallerMeta, job: string, record: Option<Unstructured>)
    requires DecodeLoop(w, f, docs, m, job, record).err.Some?
    ensures DecodeLoop(w, f, docs + more, m, job, record) == DecodeLoop(w, f, docs, m, job, record)
    decreases |docs|
  {
    assert docs != [];
    assert (docs + more)[0] == docs[0];
    assert (docs + more)[1..] == docs[1..] + more;
    if docs[0].Document? {
      var s := Materialize(w, f, docs[0].obj, m, job);
      if s.err.None? {
        if IsStackObject(docs[0].obj) {
          match Fetch(s.world.objects, f, StackKey(Prepared(docs[0].obj.value, m)))
          case Ok(Resource(stack)) =>
            ErrorIsFinal(s.world, f, docs[1..], more, m, job, Some(stack));
          case _ =>
        } else {
          ErrorIsFinal(s.world, f, docs[1..], more, m, job, record);
        }
      }
    }
  }

  /** Nothing after an end-of-stream marker is read. */
  lemma {:induction false} EndOfStreamIsFinal(w: World, f: Faults, docs: seq<Decoded>, j: nat,
                                              m: InstallerMeta, job: string, record: Option<Unstructured>)
    requires j < |docs| && docs[j] == EndOfStream
    ensures DecodeLoop(w, f, docs, m, job, record) == DecodeLoop(w, f, docs[..j], m, job, record)
    decreases j
  {
    if j > 0 {
      assert docs[..j][0] == docs[0];
      assert docs[..j][1..] == docs[1..][..j - 1];
      if docs[0].Document? {
        var s := Materialize(w, f, docs[0].obj, m, job);
        if s.err.None? {
          if IsStackObject(docs[0].obj) {
            match Fetch(s.world.objects, f, StackKey(Prepared(docs[0].obj.value, m)))
            case Ok(Resource(stack)) =>
              EndOfStreamIsFinal(s.world, f, docs[1..], j - 1, m, job, Some(stack));
            case _ =>
          } else {
            EndOfStreamIsFinal(s.world, f, docs[1..], j - 1, m, job, record);
          }
        }
      }
    }
  }

  /** A stream without an end marker that is processed without error can be continued: the loop composes. */
  lemma {:induction false} LoopAppend(w: World, f: Faults, a: seq<Decoded>, b: seq<Decoded>,
                                      m: InstallerMeta, job: string, record: Option<Unstructured>)
    requires EndOfStream !in a
    requires DecodeLoop(w, f, a, m, job, record).err.None?
    ensures var e := DecodeLoop(w, f, a, m, job, record);
      DecodeLoop(w, f, a + b, m, job, record) == DecodeLoop(e.world, f, b, m, job, e.record)
    decreases |a|
  {
    if a != [] {
      assert a[0] in a;
      assert (a + b)[0] == a[0];
      assert (a + b)[1..] == a[1..] + b;
      assert forall d :: d in a[1..] ==> d in a;
      var s := Materialize(w, f, a[0].obj, m, job);
      if IsStackObject(a[0].obj) {
        match Fetch(s.world.objects, f, StackKey(Prepared(a[0].obj.value, m)))
        case Ok(Resource(stack)) =>
          LoopAppend(s.world, f, a[1..], b, m, job, Some(stack));
        case _ =>
      } else {
        LoopAppend(s.world, f, a[1..], b, m, job, record);
      }
    } else {
      assert a + b == b;
    }
  }

  /**
   * A decode error aborts the loop at once, after the documents before it
   * were materialised, and the documents after it are never read.
   */
  lemma DecodeErrorStopsStream(w: World, f: Faults, docs: seq<Decoded>, j: nat,
                               m: InstallerMeta, job: string, record: Option<Unstructured>)
    requires j < |docs| && docs[j].DecodeError?
    requires EndOfStream !in docs[..j]
    requires DecodeLoop(w, f, docs[..j], m, job, record).err.None?
    ensures var e := DecodeLoop(w, f, docs[..j], m, job, record);
      DecodeLoop(w, f, docs, m, job, record) == LoopEnd(e.world, Some(ParseFailed(job, docs[j].reason)), e.record)
  {
    assert docs == docs[..j] + docs[j..];
    LoopAppend(w, f, docs[..j], docs[j..], m, job, record);
  }

  /** Every create request the loop makes is labelled (see Labelled). */
  lemma {:induction false} LoopLabels(w: World, f: Faults, docs: seq<Decoded>, m: InstallerMeta, job: string,
                                      record: Option<Unstructured>)
    ensures var e := DecodeLoop(w, f, docs, m, job, record);
      && w.attempts <= e.world.attempts
      && forall i :: |w.attempts| <= i < |e.world.attempts| ==> Labelled(e.world.attempts[i], m)
    decreases |docs|
  {
    LoopGrows(w, f, docs, m, job, record);
    if docs != [] && docs[0].Document? {
      var obj := docs[0].obj;
      MaterializeLabels(w, f, obj, m, job);
      var s := Materialize(w, f, obj, m, job);
      if s.err.None? {
        if IsStackObject(obj) {
          match Fetch(s.world.objects, f, StackKey(Prepared(obj.value, m)))
          case Ok(Resource(stack)) =>
            LoopLabels(s.world, f, docs[1..], m, job, Some(stack));
          case _ =>
        } else {
          LoopLabels(s.world, f, docs[1..], m, job, record);
        }
      }
    }
  }

  /** A cluster-scoped install never asks for a role. */
  lemma ClusterScopeCreatesNoRoles(w: World, f: Faults, docs: seq<Decoded>, m: InstallerMeta, job: string,
                                   record: Option<Unstructured>)
    requires m.permissionScope != NamespaceScoped
    ensures var e := DecodeLoop(w, f, docs, m, job, record);
      forall i :: |w.attempts| <= i < |e.world.attempts| ==> e.world.attempts[i].Resource?
  {
    LoopLabels(w, f, docs, m, job, record);
  }

  /** Every CRD the loop asks for is immediately preceded by the requests for the persona roles. */
  lemma {:induction false} LoopKeepsRoleOrder(w: World, f: Faults, docs: seq<Decoded>, m: InstallerMeta, job: string,
                                              record: Option<Unstructured>)
    requires RolesBeforeEachCRD(w.attempts, NamespaceRoles(m))
    ensures RolesBeforeEachCRD(DecodeLoop(w, f, docs, m, job, record).world.attempts, NamespaceRoles(m))
    decreases |docs|
  {
    if docs != [] && docs[0].Document? {
      var obj := docs[0].obj;
      MaterializeKeepsRoleOrder(w, f, obj, m, job);
      var s := Materialize(w, f, obj, m, job);
      if s.err.None? {
        if IsStackObject(obj) {
          match Fetch(s.world.objects, f, StackKey(Prepared(obj.value, m)))
          case Ok(Resource(stack)) =>
            LoopKeepsRoleOrder(s.world, f, docs[1..], m, job, Some(stack));
          case _ =>
        } else {
          LoopKeepsRoleOrder(s.world, f, docs[1..], m, job, record);
        }
      }
    }
  }

  /** The last Stack document before the end of the stream (a reference definition that ignores the store). */
  function LastStackDoc(docs: seq<Decoded>, last: Option<Unstructured>): Option<Unstructured>
    decreases |docs|
  {
    match NextDecoded(docs)
    case Document(obj) => LastStackDoc(docs[1..], if IsStackObject(obj) then obj else last)
    case _ => last
  }

  /**
   * When the loop succeeds, the record it keeps is the stored object at the
   * key of the last Stack document of the stream: the last one fetched wins.
   */
  lemma {:induction false} LoopRecordIsLastStack(w: World, f: Faults, docs: seq<Decoded>, m: InstallerMeta, job: string,
                                                 record: Option<Unstructured>, last: Option<Unstructured>)
    requires record.None? <==> last.None?
    requires last.Some? ==>
      StackKey(Prepared(last.value, m)) in w.objects && w.objects[StackKey(Prepared(last.value, m))] == Resource(record.value)
    requires DecodeLoop(w, f, docs, m, job, record).err.None?
    ensures var e := DecodeLoop(w, f, docs, m, job, record); var l := LastStackDoc(docs, last);
      && (e.record.None? <==> l.None?)
      && (l.Some? ==>
            StackKey(Prepared(l.value, m)) in e.world.objects
            && e.world.objects[StackKey(Prepared(l.value, m))] == Resource(e.record.value))
    decreases |docs|
  {
    if docs != [] && docs[0].Document? {
      var obj := docs[0].obj;
      MaterializeOutcome(w, f, obj, m, job);
      var s := Materialize(w, f, obj, m, job);
      if IsStackObject(obj) {
        match Fetch(s.world.objects, f, StackKey(Prepared(obj.value, m)))
        case Ok(Resource(stack)) =>
          LoopRecordIsLastStack(s.world, f, docs[1..], m, job, Some(stack), obj);
        case _ =>
      } else {
        LoopRecordIsLastStack(s.world, f, docs[1..], m, job, record, last);
      }
    }
  }

  /**
   * An object of kind Stack from another API group is a different resource:
   * created before the Stack record under the same namespace and name, it
   * neither blocks the record's creation nor is fetched back as the record.
   */
  lemma OtherGroupStackDoesNotShadowRecord(a: Unstructured, b: Unstructured, m: InstallerMeta, job: string)
    requires a.gvk == GroupVersionKind("other.io", "v1", StackKind)
    requires b.gvk == GroupVersionKind(StacksGroup, StacksVersion, StackKind)
    requires a.namespace == b.namespace != "" && a.name == b.name != ""
    ensures var e := DecodeLoop(World(map[], []), Faults({}, {}, false), [Document(Some(a)), Document(Some(b))], m, job, None);
      && e.err.None?
      && e.record == Some(Prepared(b, m))
  {
    var w := World(map[], []);
    var f := Faults({}, {}, false);
    var docs := [Document(Some(a)), Document(Some(b))];
    assert !IsStackObject(Some(a)) && !IsCRDObject(Some(a));
    assert EqualFold(StackKind, StackKind);
    assert IsStackObject(Some(b)) && !IsCRDObject(Some(b));
    var pa := Prepared(a, m);
    var pb := Prepared(b, m);
    var s1 := Materialize(w, f, Some(a), m, job);
    assert s1.world.objects == map[KeyOf(Resource(pa)) := Resource(pa)];
    assert DecodeLoop(w, f, docs, m, job, None) == DecodeLoop(s1.world, f, docs[1..], m, job, None);
    var s2 := Materialize(s1.world, f, Some(b), m, job);
    assert KeyOf(Resource(pb)) == StackKey(pb) != KeyOf(Resource(pa));
    assert s2.err.None? && s2.world.objects == s1.world.objects[StackKey(pb) := Resource(pb)];
    assert Fetch(s2.world.objects, f, StackKey(pb)) == Ok(Resource(pb));
    assert docs[1..][1..] == [];
    assert DecodeLoop(s1.world, f, docs[1..], m, job, None) == DecodeLoop(s2.world, f, [], m, job, Some(pb));
  }

  // ---------------------------------------------------------------------
  // Re-running a completion
  // ---------------------------------------------------------------------

  /** Provisioning again into a store that holds what a successful batch left behind succeeds and changes nothing. */
  lemma {:induction false} RerunProvision(w: World, v: World, f: Faults, roles: seq<ClusterRole>, installer: string)
    requires ProvisionRoles(w, f, roles, installer).err.None?
    requires Extends(ProvisionRoles(w, f, roles, installer).world.objects, v.objects)
    ensures ProvisionRoles(v, f, roles, installer).err.None?
    ensures ProvisionRoles(v, f, roles, installer).world.objects == v.objects
    decreases |roles|
  {
    if roles != [] {
      var w1 := AfterCreate(w, f, Role(roles[0]));
      ProvisionFailFast(w1, f, roles[1..], installer);
      var v1 := AfterCreate(v, f, Role(roles[0]));
      RerunProvision(w1, v1, f, roles[1..], installer);
    }
  }

  /** Materialising an object again into a store that holds what the first time left behind succeeds and changes nothing. */
  lemma RerunMaterialize(w: World, v: World, f: Faults, obj: Option<Unstructured>, m: InstallerMeta, job: string)
    requires Materialize(w, f, obj, m, job).err.None?
    requires Extends(Materialize(w, f, obj, m, job).world.objects, v.objects)
    ensures Materialize(v, f, obj, m, job).err.None?
    ensures Materialize(v, f, obj, m, job).world.objects == v.objects
  {
    if obj.Some? {
      var p := Prepared(obj.value, m);
      if IsCRDObject(Some(p)) {
        var r := ProvisionRoles(w, f, NamespaceRoles(m), m.name);
        assert Extends(r.world.objects, AfterCreate(r.world, f, Resource(p)).objects);
        RerunProvision(w, v, f, NamespaceRoles(m), m.name);
      }
    }
  }

  /** Re-running a successful loop into such a store succeeds, changes nothing and fetches the same record. */
  lemma {:induction false} RerunLoop(w: World, v: World, f: Faults, docs: seq<Decoded>, m: InstallerMeta, job: string,
                                     record: Option<Unstructured>)
    requires DecodeLoop(w, f, docs, m, job, record).err.None?
    requires Extends(DecodeLoop(w, f, docs, m, job, record).world.objects, v.objects)
    ensures DecodeLoop(v, f, docs, m, job, record).err.None?
    ensures DecodeLoop(v, f, docs, m, job, record).world.objects == v.objects
    ensures DecodeLoop(v, f, docs, m, job, record).record == DecodeLoop(w, f, docs, m, job, record).record
    decreases |docs|
  {
    if docs != [] && docs[0].Document? {
      var obj := docs[0].obj;
      var s := Materialize(w, f, obj, m, job);
      var sv := Materialize(v, f, obj, m, job);
      if IsStackObject(obj) {
        match Fetch(s.world.objects, f, StackKey(Prepared(obj.value, m)))
        case Ok(Resource(stack)) =>
          LoopGrows(s.world, f, docs[1..], m, job, Some(stack));
          RerunMaterialize(w, v, f, obj, m, job);
          RerunLoop(s.world, sv.world, f, docs[1..], m, job, Some(stack));
        case _ =>
      } else {
        LoopGrows(s.world, f, docs[1..], m, job, record);
        RerunMaterialize(w, v, f, obj, m, job);
        RerunLoop(s.world, sv.world, f, docs[1..], m, job, record);
      }
    }
  }

  // ---------------------------------------------------------------------
  // A whole completion run
  // ---------------------------------------------------------------------

  /** Zero or several pods for the job: the run fails naming the count, and nothing is created. */
  lemma WrongPodCountCreatesNothing(w: World, f: Faults, pods: seq<Pod>, logs: LogReader, m: InstallerMeta, job: Job)
    requires !f.list && |PodsOfJob(pods, job.namespace, job.name)| != 1
    ensures CompleteJob(w, f, pods, logs, m, job)
         == Completed(w, Some(WrongPodCount(job.name, |PodsOfJob(pods, job.namespace, job.name)|)), None)
  {
  }

  /**
   * After a loop without error the run fails exactly when the stream held
   * no Stack document; otherwise the installer's back-reference is the
   * stored record of the last Stack document.
   */
  lemma CompletionBackReference(w: World, f: Faults, pods: seq<Pod>, logs: LogReader, m: InstallerMeta, job: Job,
                                pod: string, docs: seq<Decoded>)
    requires PodNameFor(pods, f, job) == Ok(pod)
    requires logs(job.namespace, pod) == Ok(docs)
    requires DecodeLoop(w, f, docs, m, job.name, None).err.None?
    ensures var c := CompleteJob(w, f, pods, logs, m, job); var last := LastStackDoc(docs, None);
      && (last.None? ==> c.err == Some(NoStackRecord(job.name)) && c.stackRecord.None?)
      && (last.Some? ==>
            var key := StackKey(Prepared(last.value, m));
            && c.err.None?
            && key in c.world.objects && c.world.objects[key].Resource?
            && c.stackRecord == Some(RecordReference(c.world.objects[key].u)))
  {
    LoopRecordIsLastStack(w, f, docs, m, job.name, None, None);
  }

  /**
   * With one pod and one Stack document that leaves name and namespace
   * empty, the record is created under the installer's name and namespace,
   * owned by the installer, and the back-reference points at it.
   */
  lemma SingleStackRecordIsAdopted(w: World, f: Faults, pods: seq<Pod>, logs: LogReader, m: InstallerMeta, job: Job,
                                   pod: string, u: Unstructured)
    requires PodNameFor(pods, f, job) == Ok(pod)
    requires logs(job.namespace, pod) == Ok([Document(Some(u))])
    requires u.gvk == GroupVersionKind(StacksGroup, StacksVersion, StackKind) && u.name == "" && u.namespace == ""
    requires Key(StacksGroup, StackKind, m.namespace, m.name) !in w.objects
    requires Key(StacksGroup, StackKind, m.namespace, m.name) !in f.create && Key(StacksGroup, StackKind, m.namespace, m.name) !in f.get
    ensures var c := CompleteJob(w, f, pods, logs, m, job);
      && c.err.None?
      && c.stackRecord == Some(ObjectReference(StacksGroup + "/" + StacksVersion, StackKind, m.name, m.namespace, u.uid))
      && Key(StacksGroup, StackKind, m.namespace, m.name) in c.world.objects
      && c.world.objects[Key(StacksGroup, StackKind, m.namespace, m.name)] == Resource(Prepared(u, m))
      && Prepared(u, m).ownerReferences == [OwnerRefTo(m)]
  {
    var p := Prepared(u, m);
    var key := Key(StacksGroup, StackKind, m.namespace, m.name);
    assert IsStackObject(Some(u)) && !IsCRDObject(Some(u)) by {
      assert EqualFold(StackKind, StackKind);
    }
    assert KeyOf(Resource(p)) == key == StackKey(p);
    var s := Materialize(w, f, Some(u), m, job.name);
    assert s.err.None? && s.world.objects == w.objects[key := Resource(p)];
    assert Fetch(s.world.objects, f, key) == Ok(Resource(p));
    assert DecodeLoop(w, f, [Document(Some(u))], m, job.name, None) == LoopEnd(s.world, None, Some(p)) by {
      assert [Document(Some(u))][1..] == [];
    }
  }

  /**
   * A CRD in a namespaced install: the three persona roles are requested
   * first, in order, then the CRD; when the store refuses none, the run goes on.
   */
  lemma NamespacedCRDProvisionsRolesFirst(w: World, f: Faults, u: Unstructured, m: InstallerMeta, job: string)
    requires IsCRDObject(Some(u)) && m.permissionScope == NamespaceScoped
    requires forall r :: r in NamespaceRoles(m) ==> KeyOf(Role(r)) !in f.create
    requires KeyOf(Resource(Prepared(u, m))) !in f.create
    ensures var s := Materialize(w, f, Some(u), m, job);
      && s.err.None?
      && |NamespaceRoles(m)| == 3
      && s.world.attempts == w.attempts + RoleObjects(NamespaceRoles(m)) + [Resource(Prepared(u, m))]
      && forall r :: r in NamespaceRoles(m) ==> KeyOf(Role(r)) in s.world.objects
  {
    MaterializeOutcome(w, f, Some(u), m, job);
    var roles := NamespaceRoles(m);
    forall i | 0 <= i < |roles| ensures KeyOf(Role(roles[i])) !in f.create {
      assert roles[i] in roles;
    }
    ProvisionFailFast(w, f, roles, m.name);
  }

  /**
   * Re-running a successful completion against the store it left behind
   * succeeds again (every create answers AlreadyExists), changes no object
   * and sets the same back-reference.
   */
  lemma RerunIsIdempotent(w: World, f: Faults, pods: seq<Pod>, logs: LogReader, m: InstallerMeta, job: Job)
    requires CompleteJob(w, f, pods, logs, m, job).err.None?
    ensures var c1 := CompleteJob(w, f, pods, logs, m, job);
      var c2 := CompleteJob(c1.world, f, pods, logs, m, job);
      && c2.err.None?
      && c2.world.objects == c1.world.objects
      && c2.stackRecord == c1.stackRecord
  {
    var c1 := CompleteJob(w, f, pods, logs, m, job);
    var pod := PodNameFor(pods, f, job).value;
    var docs := logs(job.namespace, pod).value;
    RerunLoop(w, c1.world, f, docs, m, job.name, None);
  }
}
