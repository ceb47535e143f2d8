/** Admitted specs and stores for the cases that defeat what one would expect, each with the reconcile that shows it. */
module Examples {
  import opened Wrappers
  import opened SiteTypes
  import opened Environment
  import opened Objects
  import opened Machine
  import opened Settling
  import opened Recovery
  import opened Runs
  import opened Provenance
  import opened Convergence
  import opened Secrets
  import opened Claims
  import opened Stepwise

  /** Spec of a plain Site; the examples vary it. */
  const PLAIN := SiteSpec("example.com", None, None, DatabaseSpec("db", "wp", None, None, Some("u"), Some("p")),
                          None, map[], None, None, "", None, None)

  /** A Site and one object of its own. */
  function SiteWith(id: SiteId, spec: SiteSpec, part: Part, body: Body): World {
    SiteAlone(id, spec)[KeyOf(id, part) := [Some(Object(Some(SiteOwner(id)), true, body))]]
  }

  lemma SiteWithHolds(id: SiteId, spec: SiteSpec, part: Part, body: Body, other: Part)
    ensures var w := SiteWith(id, spec, part, body);
            Current(w, KeyOf(id, other)) == if other == part then Some(Object(Some(SiteOwner(id)), true, body)) else None
  {
    KeysApart(id, part, id, other);
  }

  lemma SiteAloneHolds(id: SiteId, spec: SiteSpec, part: Part)
    ensures CellOf(SiteAlone(id, spec), KeyOf(id, part)) == [None]
  {
    KeysApart(id, part, id, part);
  }

  lemma SiteWithReady(job: Job, part: Part, body: Body)
    requires !ProvisionEnabled(job.site.spec)
    ensures var w := SiteWith(job.site.id, job.site.spec, part, body);
            && Serves(w, job) && Unhindered(job, w) && ControlledBy(Stored(w, job, part), job.site.id)
            && Stored(w, job, part).value.body == body
  {
    var id, w := job.site.id, SiteWith(job.site.id, job.site.spec, part, body);
    KeysApart(id, part, id, part);
    forall other
      ensures !ControlledByOther(Stored(w, job, other), id)
    {
      SiteWithHolds(id, job.site.spec, part, body, other);
    }
    SiteWithHolds(id, job.site.spec, part, body, part);
  }

  lemma SiteAloneReady(job: Job)
    requires !ProvisionEnabled(job.site.spec)
    ensures Serves(SiteAlone(job.site.id, job.site.spec), job) && Unhindered(job, SiteAlone(job.site.id, job.site.spec))
  {
    forall part
      ensures !ControlledByOther(Stored(SiteAlone(job.site.id, job.site.spec), job, part), job.site.id)
    {
      SiteAloneHolds(job.site.id, job.site.spec, part);
    }
  }

  /** An undisturbed, unhindered reconcile settles each part as if on its own. */
  lemma Settles(job: Job, w0: World, inputs: seq<Input>)
    requires Serves(w0, job) && Unhindered(job, w0) && AllClean(inputs) && |inputs| >= CALLS
    ensures var r := Solo(w0, Begin(job), inputs);
            && r.1 == Finished(job.site.id, None)
            && forall m: nat :: m < PARTS ==> CellAt(job, r.0, m) == Target(job, w0, m)
  {
    SucceedsIff(job, w0, inputs);
    FinishedSucceeds(job, w0, inputs);
  }

  // ---- A claim brought by the name of the operator's own ----

  function OwnNameSpec(id: SiteId): SiteSpec {
    PLAIN.(persistence := Some(PersistenceSpec(true, ClaimName(id), "", None)))
  }

  function OwnClaimBody(id: SiteId): Body {
    PvcBody(Labels(id), ["ReadWriteOnce"], map[], None)
  }

  /** The reconcile reports success, the claim is gone, and the Deployment mounts it. */
  lemma OwnNameExample(id: SiteId, cfg: OperatorConfig, draw: string -> string, inputs: seq<Input>)
    requires AllClean(inputs) && |inputs| >= CALLS
    ensures var job := Job(Site(id, OwnNameSpec(id)), cfg, draw);
            var r := Solo(SiteWith(id, OwnNameSpec(id), PvcPart, OwnClaimBody(id)), Begin(job), inputs);
            && Admitted(job.site.spec) && r.1 == Finished(id, None)
            && Stored(r.0, job, PvcPart) == None && Mounts(Stored(r.0, job, DeploymentPart), ClaimName(id))
  {
    var job := Job(Site(id, OwnNameSpec(id)), cfg, draw);
    SiteWithReady(job, PvcPart, OwnClaimBody(id));
    SuccessDeletesMounted(job, SiteWith(id, OwnNameSpec(id), PvcPart, OwnClaimBody(id)), inputs);
  }

  // ---- A reference to a key that is not generated ----

  const TYPO := "TYPO"

  /** The password is to come from the Site's own generated Secret, under a key that nothing generates. */
  function DanglingSpec(id: SiteId): SiteSpec {
    PLAIN.(database := DatabaseSpec("db", "wp", None, Some(SecretKeyRef(SecretName(id), TYPO)), Some("u"), None))
  }

  lemma TypoNamed(id: SiteId)
    ensures TYPO in UserKeys(Site(id, DanglingSpec(id))) && TYPO !in WantedKeys(DanglingSpec(id))
  {
    var spec := DanglingSpec(id);
    assert SecretKeyRef(SecretName(id), TYPO) in UserRefs(spec);
    forall s | s in SALTS
      ensures s != TYPO
    {
      assert TYPO[0] == 'T' && s[0] != 'T';
    }
  }

  lemma FirstSecret(job: Job, c: Cell)
    requires c == [None]
    ensures Settle(job, 0, c).Success? && OldSecrets(Now(Settle(job, 0, c).value)).Keys == WantedKeys(job.site.spec)
  {
  }

  lemma BuiltReads(job: Job, x: Option<Object>)
    requires Settled(job, DeploymentPart, x)
    ensures DeploymentKeys(job.site.id, x) == WantedKeys(job.site.spec) + UserKeys(job.site)
  {
    DeploymentSettled(job, x);
    KeysOf(job.site.id, x, BuildDeploymentSpec(job.site));
    BuiltKeys(job.site);
    OwnKeysExact(job.site);
  }

  lemma SettlesDeployment(job: Job, w0: World, inputs: seq<Input>)
    requires Serves(w0, job) && Unhindered(job, w0) && AllClean(inputs) && |inputs| >= CALLS
    ensures Settled(job, DeploymentPart, Stored(Solo(w0, Begin(job), inputs).0, job, DeploymentPart))
  {
    SucceedsIff(job, w0, inputs);
    FinishedSucceeds(job, w0, inputs);
    SucceededSettled(job, w0, Solo(w0, Begin(job), inputs).0, {DeploymentPart});
  }

  /** The reconcile reports success, and the Deployment names a key that the Secret lacks. */
  lemma DanglingExample(id: SiteId, cfg: OperatorConfig, draw: string -> string, inputs: seq<Input>)
    requires AllClean(inputs) && |inputs| >= CALLS
    ensures var job := Job(Site(id, DanglingSpec(id)), cfg, draw);
            var r := Solo(SiteAlone(id, DanglingSpec(id)), Begin(job), inputs);
            && Admitted(job.site.spec) && r.1 == Finished(id, None)
            && TYPO in DeploymentKeys(id, Stored(r.0, job, DeploymentPart)) && TYPO !in StoredKeys(r.0, id)
  {
    var job, w0 := Job(Site(id, DanglingSpec(id)), cfg, draw), SiteAlone(id, DanglingSpec(id));
    var w := Solo(w0, Begin(job), inputs).0;
    SiteAloneReady(job);
    Settles(job, w0, inputs);
    TypoNamed(id);
    SettlesDeployment(job, w0, inputs);
    BuiltReads(job, Stored(w, job, DeploymentPart));
    SiteAloneHolds(id, DanglingSpec(id), SecretPart);
    FirstSecret(job, CellAt(job, w0, 0));
    assert CellAt(job, w, 0) == Target(job, w0, 0);
  }

  // ---- A class that is not cleared ----

  /** An ingress without a class, where the stored one has a class from an earlier spec. */
  const CLASSLESS := PLAIN.(ingress := Some(IngressSpec(true, "/", None, map[], "")))

  function ClassedBody(id: SiteId): Body {
    IngressBody(Labels(id), map[], Some("nginx"), "example.com", [], [])
  }

  lemma ClassKept(job: Job, c: Cell)
    requires IngressOn(job.site.spec) && NamedClass(job.site.spec).None? && ControlledBy(Now(c), job.site.id)
    ensures Settle(job, 8, c).Success? && OldClass(Now(Settle(job, 8, c).value)) == OldClass(Now(c))
  {
  }

  lemma SettlesClass(job: Job, w0: World, inputs: seq<Input>)
    requires Serves(w0, job) && Unhindered(job, w0) && AllClean(inputs) && |inputs| >= CALLS
    requires IngressOn(job.site.spec) && NamedClass(job.site.spec).None? && ControlledBy(Stored(w0, job, IngressPart), job.site.id)
    ensures var r := Solo(w0, Begin(job), inputs);
            r.1 == Finished(job.site.id, None) && OldClass(Stored(r.0, job, IngressPart)) == OldClass(Stored(w0, job, IngressPart))
  {
    Settles(job, w0, inputs);
    ClassKept(job, CellAt(job, w0, 8));
    assert CellAt(job, Solo(w0, Begin(job), inputs).0, 8) == Target(job, w0, 8);
  }

  /** The reconcile reports success, the spec names no class, and the Ingress still has one. */
  lemma ClassStaysExample(id: SiteId, cfg: OperatorConfig, draw: string -> string, inputs: seq<Input>)
    requires AllClean(inputs) && |inputs| >= CALLS
    ensures var job := Job(Site(id, CLASSLESS), cfg, draw);
            var r := Solo(SiteWith(id, CLASSLESS, IngressPart, ClassedBody(id)), Begin(job), inputs);
            && Admitted(job.site.spec) && r.1 == Finished(id, None)
            && NamedClass(job.site.spec) == None && OldClass(Stored(r.0, job, IngressPart)) == Some("nginx")
  {
    var job := Job(Site(id, CLASSLESS), cfg, draw);
    SiteWithReady(job, IngressPart, ClassedBody(id));
    SettlesClass(job, SiteWith(id, CLASSLESS, IngressPart, ClassedBody(id)), inputs);
  }
}
