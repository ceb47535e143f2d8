/** When the operator deletes the claim <site>-data, and who mounts it then. */
module Claims {
  import opened Wrappers
  import opened SiteTypes
  import opened Objects
  import opened Machine
  import opened Settling
  import opened Recovery
  import opened Runs
  import opened Provenance
  import opened Convergence

  predicate Mounts(x: Option<Object>, claim: string) {
    x.Some? && x.value.body.DeploymentBody?
    && exists v :: v in x.value.body.deployment.volumes && v.source == ClaimVolume(claim)
  }

  /** The spec brings a claim that has the name of the operator's own. */
  predicate BringsOwnName(id: SiteId, spec: SiteSpec) {
    BringsNamed(spec, ClaimName(id))
  }

  lemma ClaimNamed(id: SiteId)
    ensures ClaimName(id) != ""
  {
    assert |ClaimName(id)| == |id.name| + 5;
  }

  lemma BuiltMountsIff(site: Site, x: Option<Object>, claim: string)
    requires x.Some? && x.value.body.DeploymentBody? && x.value.body.deployment == BuildDeploymentSpec(site)
    ensures Mounts(x, claim) <==> SiteDataVolume(site).source == ClaimVolume(claim)
  {
    var volumes := Volumes(site);
    assert volumes[0] in volumes && volumes[0] == SiteDataVolume(site);
  }

  lemma MountsIff(job: Job, x: Option<Object>)
    requires Settled(job, DeploymentPart, x) && !OwnClaim(job.site.spec)
    ensures Mounts(x, ClaimName(job.site.id)) <==> BringsOwnName(job.site.id, job.site.spec)
  {
    DeploymentSettled(job, x);
    BuiltMountsIff(job.site, x, ClaimName(job.site.id));
    ClaimNamed(job.site.id);
  }

  /** The call deletes the claim of the Site. */
  predicate Deletes(w: World, t: Thread, inp: Input, id: SiteId) {
    Current(w, KeyOf(id, PvcPart)).Some? && Current(Step(w, t, inp).0, KeyOf(id, PvcPart)).None?
  }

  /** Only a worker at the last part deletes the claim. */
  lemma DeletesAtLast(w: World, t: Thread, inp: Input, id: SiteId)
    requires Sound(w, t) && Deletes(w, t, inp, id)
    ensures t.Working? && t.job.site.id == id && t.pc == 9 && !OwnClaim(t.job.site.spec)
  {
    if t.Working? && t.job.site.id == id && t.pc == 9 {
      WorkEffect(w, t.job, t.pc, t.io, t.tries, inp);
    } else {
      StepSpares(w, t, inp, id, PvcPart);
    }
  }

  /**
   * Claim safety: in every run of a single worker, among edits, aborts, rollouts and other Sites, when a call
   * deletes the claim <site>-data the stored Deployment is the one the reconciled spec asks for, so it mounts that
   * claim exactly when the spec brings it by that name.
   */
  lemma DeletedClaimMountedIff(s: State, events: seq<Event>, id: SiteId, tid: nat, inp: Input)
    requires AllSound(s) && Idle(s, id, tid) && OneWorker(s, id, tid) && AllOrderly(events, id, tid, {DeploymentPart})
    requires var s' := Run(s, events); tid in s'.threads && Deletes(s'.world, s'.threads[tid], inp, id)
    ensures var s' := Run(s, events);
            var t, x := s'.threads[tid], Current(s'.world, KeyOf(id, DeploymentPart));
            && t.Working? && t.job.site.id == id && Settled(t.job, DeploymentPart, x)
            && (Mounts(x, ClaimName(id)) <==> BringsOwnName(id, t.job.site.spec))
  {
    var s' := Run(s, events);
    var t := s'.threads[tid];
    RunSound(s, events);
    DeletesAtLast(s'.world, t, inp, id);
    RunFits(s, events, tid);
    RunSeen(s, events, id, tid);
    RunBehind(s, events, id, tid, DeploymentPart);
    MountsIff(t.job, Current(s'.world, KeyOf(id, DeploymentPart)));
  }

  /** The spec brings a claim by that name. */
  predicate BringsNamed(spec: SiteSpec, claim: string) {
    PersistenceOn(spec) && spec.persistence.value.existingClaim == claim
  }

  /** Two Sites that can mount each other's claims. */
  predicate Neighbours(a: SiteId, b: SiteId) {
    a.ns == b.ns && a != b
  }

  lemma OwnNamesDiffer(a: SiteId, b: SiteId)
    requires Neighbours(a, b)
    ensures ClaimName(a) != ClaimName(b)
  {
    if ClaimName(a) == ClaimName(b) {
      SuffixCancels(a.name, b.name, "-data");
    }
  }

  lemma DeletionSpares(w: World, t: Thread, inp: Input, id: SiteId, other: SiteId)
    requires Sound(w, t) && Deletes(w, t, inp, id)
    ensures Current(Step(w, t, inp).0, KeyOf(other, DeploymentPart)) == Current(w, KeyOf(other, DeploymentPart))
  {
    DeletesAtLast(w, t, inp, id);
    StepSpares(w, t, inp, other, DeploymentPart);
  }

  lemma GrownMountsIff(x: Option<Object>, writers: seq<Job>, id: SiteId, other: SiteId)
    requires Grown(x, writers, other, DeploymentPart) && Neighbours(id, other)
    ensures Mounts(x, ClaimName(id)) <==> |writers| > 0 && BringsNamed(writers[|writers| - 1].site.spec, ClaimName(id))
  {
    OwnNamesDiffer(id, other);
    ClaimNamed(id);
    if |writers| > 0 {
      BuiltMountsIff(writers[|writers| - 1].site, x, ClaimName(id));
    }
  }

  /** The claim is gone, and the other Site mounts it exactly when the job that wrote its Deployment brought it. */
  ghost predicate GoneUnder(w: World, id: SiteId, other: SiteId, writers: seq<Job>) {
    && Current(w, KeyOf(id, PvcPart)).None?
    && (Mounts(Current(w, KeyOf(other, DeploymentPart)), ClaimName(id)) <==>
          |writers| > 0 && BringsNamed(writers[|writers| - 1].site.spec, ClaimName(id)))
  }

  lemma DeletionElsewhere(w: World, t: Thread, inp: Input, id: SiteId, other: SiteId, writers: seq<Job>)
    requires Sound(w, t) && Deletes(w, t, inp, id) && Neighbours(id, other)
    requires Grown(Current(w, KeyOf(other, DeploymentPart)), writers, other, DeploymentPart)
    ensures GoneUnder(Step(w, t, inp).0, id, other, writers)
  {
    DeletionSpares(w, t, inp, id, other);
    GrownMountsIff(Current(w, KeyOf(other, DeploymentPart)), writers, id, other);
  }

  /**
   * Across Sites: in every run of any number of threads, when a call deletes the claim of one Site, the Deployment
   * of another in its namespace goes on mounting it exactly when the job that wrote that Deployment last brought it
   * by name.
   */
  lemma DeletedClaimMountedElsewhereIff(s: State, events: seq<Event>, tid: nat, inp: Input, id: SiteId, other: SiteId)
    requires AllSound(s) && Neighbours(id, other) && Current(s.world, KeyOf(other, DeploymentPart)).None?
    requires forall i :: 0 <= i < |events| ==> !(events[i].Meddle? && events[i].key == KeyOf(other, DeploymentPart))
    requires var s' := Run(s, events); tid in s'.threads && Deletes(s'.world, s'.threads[tid], inp, id)
    ensures var s' := Run(s, events);
            GoneUnder(Step(s'.world, s'.threads[tid], inp).0, id, other, Writers(s, events, other, DeploymentPart))
  {
    var s' := Run(s, events);
    RunSound(s, events);
    RunGrows(s, events, other, DeploymentPart);
    var t := s'.threads[tid];
    assert Sound(s'.world, t);
    var writers := Writers(s, events, other, DeploymentPart);
    DeletionElsewhere(s'.world, t, inp, id, other, writers);
  }

  /**
   * Where it goes wrong: in every such run, under a claim name that was free or the Site's own, once the worker is
   * through a job whose spec brings a claim of that name, there is no such claim and the Deployment mounts it.
   */
  lemma MountedClaimDeleted(s: State, events: seq<Event>, id: SiteId, tid: nat, job: Job)
    requires AllSound(s) && OneWorker(s, id, tid) && AllOrderly(events, id, tid, {DeploymentPart, PvcPart})
    requires OursOrNone(Current(s.world, KeyOf(id, PvcPart)), id)
    requires Through(s, events, id, tid, job) && BringsOwnName(id, job.site.spec)
    ensures var w := Run(s, events).world;
            Current(w, KeyOf(id, PvcPart)).None? && Mounts(Current(w, KeyOf(id, DeploymentPart)), ClaimName(id))
  {
    ThroughAllSettled(s, events, id, tid, job, {DeploymentPart, PvcPart});
    RunOurs(s, events, id, PvcPart);
    ClaimNamed(id);
    MountsIff(job, Current(Run(s, events).world, KeyOf(id, DeploymentPart)));
    NotOurs(job, Current(Run(s, events).world, KeyOf(id, PvcPart)));
  }

  lemma NotOurs(job: Job, x: Option<Object>)
    requires Settled(job, PvcPart, x) && !OwnClaim(job.site.spec) && OursOrNone(x, job.site.id)
    ensures x.None?
  {
  }

  /** An undisturbed reconcile that nothing hinders reports success, deletes the claim, and mounts it. */
  lemma SuccessDeletesMounted(job: Job, w0: World, inputs: seq<Input>)
    requires Serves(w0, job) && Unhindered(job, w0) && AllClean(inputs) && |inputs| >= CALLS
    requires BringsOwnName(job.site.id, job.site.spec) && ControlledBy(Stored(w0, job, PvcPart), job.site.id)
    ensures var r := Solo(w0, Begin(job), inputs);
            && r.1 == Finished(job.site.id, None)
            && Stored(r.0, job, PvcPart) == None && Mounts(Stored(r.0, job, DeploymentPart), ClaimName(job.site.id))
  {
    var w := Solo(w0, Begin(job), inputs).0;
    SucceedsIff(job, w0, inputs);
    FinishedSucceeds(job, w0, inputs);
    SucceededSettled(job, w0, w, {DeploymentPart});
    ClaimNamed(job.site.id);
    MountsIff(job, Stored(w, job, DeploymentPart));
    ClaimGone(job, w0, w);
  }

  lemma TargetReached(job: Job, w0: World, w: World, part: Part)
    requires Succeeded(job, w0, w)
    ensures Stored(w, job, part) == Now(Target(job, w0, IndexOf(part)))
  {
    assert CellAt(job, w, IndexOf(part)) == Target(job, w0, IndexOf(part));
  }

  lemma ClaimGone(job: Job, w0: World, w: World)
    requires Succeeded(job, w0, w) && !OwnClaim(job.site.spec) && ControlledBy(Stored(w0, job, PvcPart), job.site.id)
    ensures Stored(w, job, PvcPart) == None
  {
    TargetReached(job, w0, w, PvcPart);
    DeletedTarget(job, w0);
  }

  lemma DeletedTarget(job: Job, w0: World)
    requires !OwnClaim(job.site.spec) && ControlledBy(Stored(w0, job, PvcPart), job.site.id)
    ensures Now(Target(job, w0, IndexOf(PvcPart))) == None
  {
  }
}
