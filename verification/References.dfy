/** Every reference to a Secret that the operator makes up leads to a stored Secret that holds the key. */
module References {
  import opened Wrappers
  import opened SiteTypes
  import opened Environment
  import opened Variables
  import opened Objects
  import opened Machine
  import opened Provenance
  import opened Secrets

  /** The keys that the last writer of an object wants are stored. */
  ghost predicate Backed(w: World, id: SiteId, writers: seq<Job>) {
    |writers| > 0 ==> WantedKeys(writers[|writers| - 1].site.spec) <= StoredKeys(w, id)
  }

  lemma WriterStocked(w: World, t: Thread, inp: Input, id: SiteId, part: Part)
    requires Sound(w, t) && ThreadStocked(w, t, id) && part != SecretPart
    requires CellOf(Step(w, t, inp).0, KeyOf(id, part)) != CellOf(w, KeyOf(id, part))
    ensures t.Working? && t.job.site.id == id && WantedKeys(t.job.site.spec) <= StoredKeys(w, id)
  {
    if t.Working? && t.job.site.id == id && PartAt(t.pc) == part {
      assert t.pc != 0;
    } else {
      StepSpares(w, t, inp, id, part);
    }
  }

  /** In every run of any threads, whoever wrote an object has all the keys it wants in the store, and for good. */
  lemma {:induction false} RunBacked(s: State, events: seq<Event>, id: SiteId, part: Part)
    requires Stocked(s, id) && part != SecretPart && forall i :: 0 <= i < |events| ==> SparesSecret(events[i], id)
    ensures Stocked(Run(s, events), id) && Backed(Run(s, events).world, id, Writers(s, events, id, part))
  {
    if events == [] {
    } else {
      var before, last := events[..|events| - 1], events[|events| - 1];
      var mid := Run(s, before);
      RunBacked(s, before, id, part);
      StockedNext(mid, last, id);
      NextBacked(mid, last, id, part, Writers(s, before, id, part), Writers(s, events, id, part));
    }
  }

  lemma StillBacked(w: World, w': World, id: SiteId, writers: seq<Job>)
    requires Backed(w, id, writers) && StoredKeys(w, id) <= StoredKeys(w', id)
    ensures Backed(w', id, writers)
  {
  }

  lemma MoreBacked(w: World, w': World, id: SiteId, writers: seq<Job>, job: Job)
    requires WantedKeys(job.site.spec) <= StoredKeys(w, id) && StoredKeys(w, id) <= StoredKeys(w', id)
    ensures Backed(w', id, writers + [job]) && Backed(w', id, [])
  {
  }

  lemma NextBacked(mid: State, e: Event, id: SiteId, part: Part, writers: seq<Job>, writers': seq<Job>)
    requires Stocked(mid, id) && Backed(mid.world, id, writers) && part != SecretPart
    requires StoredKeys(mid.world, id) <= StoredKeys(Next(mid, e).world, id)
    requires var c, c' := CellOf(mid.world, KeyOf(id, part)), CellOf(Next(mid, e).world, KeyOf(id, part));
             writers' == if !e.Call? || e.tid !in mid.threads || !mid.threads[e.tid].Working? || c' == c then writers
                         else if Now(c').None? then [] else writers + [mid.threads[e.tid].job]
    ensures Backed(Next(mid, e).world, id, writers')
  {
    var w, w' := mid.world, Next(mid, e).world;
    StillBacked(w, w', id, writers);
    if e.Call? && e.tid in mid.threads && CellOf(w', KeyOf(id, part)) != CellOf(w, KeyOf(id, part)) {
      var t := mid.threads[e.tid];
      assert Sound(w, t) && ThreadStocked(w, t, id);
      WriterStocked(w, t, e.input, id, part);
      MoreBacked(w, w', id, writers, t.job);
    }
  }

  // ---- Looking references up ----

  lemma ContainersRead(site: Site, c: Container, e: EnvVar)
    requires c in BuildDeploymentSpec(site).initContainers + BuildDeploymentSpec(site).containers && e in c.env
    ensures e.source.FromSecret? ==> e in AllEnvs(site)
  {
  }

  /** If the user did not write the reference, what it names is found, under the variable's own key. */
  predicate Finds(w: World, ns: string, spec: SiteSpec, e: EnvVar) {
    e.source.FromSecret? && !WrittenByUser(spec, e.source.ref) ==> Found(w, ns, e.source.ref) && e.source.ref.key == e.name
  }

  lemma MadeUpFound(w: World, site: Site, c: Container, e: EnvVar)
    requires WantedKeys(site.spec) <= StoredKeys(w, site.id)
    requires c in BuildDeploymentSpec(site).initContainers + BuildDeploymentSpec(site).containers && e in c.env
    ensures Finds(w, site.id.ns, site.spec, e)
  {
    if e.source.FromSecret? && !WrittenByUser(site.spec, e.source.ref) {
      ContainersRead(site, c, e);
      AllGenerated(site, e);
      StoredIsFound(w, site.id, e.name);
    }
  }

  ghost predicate PodsFind(w: World, ns: string, spec: SiteSpec, pods: DeploymentSpec) {
    forall c, e :: c in pods.initContainers + pods.containers && e in c.env ==> Finds(w, ns, spec, e)
  }

  ghost predicate DeploymentFinds(w: World, id: SiteId, spec: SiteSpec) {
    var x := Current(w, KeyOf(id, DeploymentPart));
    x.Some? ==> x.value.body.DeploymentBody? && PodsFind(w, id.ns, spec, x.value.body.deployment)
  }

  ghost predicate UserFinds(w: World, id: SiteId) {
    var x := Current(w, KeyOf(id, UserPart));
    x.Some? ==> x.value.body.UserBody? && Found(w, id.ns, x.value.body.passwordRef)
  }

  lemma BuiltFinds(w: World, site: Site)
    requires WantedKeys(site.spec) <= StoredKeys(w, site.id)
    ensures PodsFind(w, site.id.ns, site.spec, BuildDeploymentSpec(site))
  {
    forall c, e | c in BuildDeploymentSpec(site).initContainers + BuildDeploymentSpec(site).containers && e in c.env
      ensures Finds(w, site.id.ns, site.spec, e)
    {
      MadeUpFound(w, site, c, e);
    }
  }

  lemma DeploymentBacked(w: World, id: SiteId, writers: seq<Job>)
    requires Grown(Current(w, KeyOf(id, DeploymentPart)), writers, id, DeploymentPart) && Backed(w, id, writers) && |writers| > 0
    ensures DeploymentFinds(w, id, writers[|writers| - 1].site.spec)
  {
    BuiltFinds(w, writers[|writers| - 1].site);
  }

  lemma UserBacked(w: World, id: SiteId, writers: seq<Job>)
    requires Grown(Current(w, KeyOf(id, UserPart)), writers, id, UserPart) && Backed(w, id, writers)
    ensures UserFinds(w, id)
  {
    if |writers| > 0 {
      var job := writers[|writers| - 1];
      assert ProvisionEnabled(job.site.spec) && DB_PASSWORD in ProvisionKeys(job.site.spec);
      StoredIsFound(w, id, DB_PASSWORD);
    }
  }

  /** Nobody else writes the three objects. */
  predicate SparesThree(e: Event, id: SiteId) {
    e.Meddle? ==> e.key != KeyOf(id, SecretPart) && e.key != KeyOf(id, DeploymentPart) && e.key != KeyOf(id, UserPart)
  }

  /** All references of the operator's own are found, given the writers of the Deployment. */
  ghost predicate AllFound(w: World, id: SiteId, writers: seq<Job>) {
    && (Current(w, KeyOf(id, DeploymentPart)).Some? ==> |writers| > 0 && DeploymentFinds(w, id, writers[|writers| - 1].site.spec))
    && UserFinds(w, id)
  }

  lemma BackedFinds(w: World, id: SiteId, writers: seq<Job>, userWriters: seq<Job>)
    requires Grown(Current(w, KeyOf(id, DeploymentPart)), writers, id, DeploymentPart) && Backed(w, id, writers)
    requires Grown(Current(w, KeyOf(id, UserPart)), userWriters, id, UserPart) && Backed(w, id, userWriters)
    ensures AllFound(w, id, writers)
  {
    if |writers| > 0 {
      DeploymentBacked(w, id, writers);
    }
    UserBacked(w, id, userWriters);
  }

  /**
   * At every point of every run of any threads, with lagging reads, faults, restarts and edits: every reference in
   * the stored Deployment that the user did not write into the spec it was made from, and the password reference of
   * the stored MariaDB User, name a Secret that is stored under that very name and holds the key.
   */
  lemma ReferencesFound(s: State, events: seq<Event>, id: SiteId)
    requires Stocked(s, id) && Current(s.world, KeyOf(id, DeploymentPart)).None? && Current(s.world, KeyOf(id, UserPart)).None?
    requires forall i :: 0 <= i < |events| ==> SparesThree(events[i], id)
    ensures AllFound(Run(s, events).world, id, Writers(s, events, id, DeploymentPart))
  {
    var w := Run(s, events).world;
    RunGrows(s, events, id, DeploymentPart);
    RunGrows(s, events, id, UserPart);
    RunBacked(s, events, id, DeploymentPart);
    RunBacked(s, events, id, UserPart);
    BackedFinds(w, id, Writers(s, events, id, DeploymentPart), Writers(s, events, id, UserPart));
  }
}
