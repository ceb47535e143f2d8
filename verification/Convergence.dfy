/** What a successful reconcile guarantees about the store, from whatever state it started. */
module Convergence {
  import opened Wrappers
  import opened SiteTypes
  import opened Environment
  import opened Objects
  import opened Machine
  import opened Settling
  import opened Recovery
  import opened Runs
  import opened Provenance
  import opened Secrets

  /** The store w was left by a reconcile of w0 that got through all its parts. */
  ghost predicate Succeeded(job: Job, w0: World, w: World) {
    CleanOutcome(job, w0) == None && At(job, w0, w, PARTS)
  }

  function Stored(w: World, job: Job, part: Part): Option<Object> {
    Current(w, KeyOf(job.site.id, part))
  }

  lemma SettledOnce(job: Job, m: nat, c: Cell)
    requires m < PARTS && Settle(job, m, c).Success?
    ensures Settled(job, PartAt(m), Now(Settle(job, m, c).value))
  {
    if OpFor(job, PartAt(m)).Upsert? {
      WrittenSettled(job, PartAt(m), Now(c));
    }
  }

  /** A successful reconcile leaves every part settled. */
  lemma SucceededSettled(job: Job, w0: World, w: World, parts: set<Part>)
    requires Succeeded(job, w0, w)
    ensures AllSettled(job, w, parts)
  {
    ReachMeans(job, w0, Reach(job, w0));
    CleanOutcomeMeans(job, w0);
    forall part | part in parts
      ensures Settled(job, part, Stored(w, job, part))
    {
      var m := IndexOf(part);
      assert !Stops(job, w0, m);
      SettledOnce(job, m, CellAt(job, w0, m));
      assert CellAt(job, w, m) == Target(job, w0, m);
    }
  }

  /** An undisturbed reconcile reports no error exactly when it has succeeded. */
  lemma FinishedSucceeds(job: Job, w0: World, inputs: seq<Input>)
    requires Serves(w0, job) && AllClean(inputs) && |inputs| >= CALLS
    ensures var r := Solo(w0, Begin(job), inputs);
            r.1 == Finished(job.site.id, None) <==> Succeeded(job, w0, r.0)
  {
    var now := FinishedLeaves(job, w0, inputs);
    CleanOutcomeMeans(job, w0);
  }

  lemma CleanOutcomeMeans(job: Job, w0: World)
    ensures CleanOutcome(job, w0) == None <==> Reach(job, w0) == PARTS
  {
    ReachMeans(job, w0, Reach(job, w0));
    assert Reach(job, w0) < PARTS ==> Stops(job, w0, Reach(job, w0));
  }

  /** Nothing stands in the way of a reconcile: the cluster is known if asked for, and no object is someone else's. */
  ghost predicate Unhindered(job: Job, w: World) {
    && (ProvisionEnabled(job.site.spec) ==> ResolveMariaDBRef(job).Some?)
    && forall part :: OpFor(job, part).Upsert? ==> !ControlledByOther(Stored(w, job, part), job.site.id)
  }

  lemma StopsIff(job: Job, w: World, part: Part)
    ensures Stops(job, w, IndexOf(part)) <==>
              || OpFor(job, part).Refuse?
              || (OpFor(job, part).Upsert? && ControlledByOther(Stored(w, job, part), job.site.id))
  {
  }

  lemma RefusesIff(job: Job, part: Part)
    ensures OpFor(job, part).Refuse? <==> part == DatabasePart && ProvisionEnabled(job.site.spec) && ResolveMariaDBRef(job).None?
  {
  }

  lemma ReachesEnd(job: Job, w: World)
    ensures Reach(job, w) == PARTS <==> Unhindered(job, w)
  {
    ReachMeans(job, w, Reach(job, w));
    if Reach(job, w) == PARTS {
      forall part
        ensures !OpFor(job, part).Refuse? && (OpFor(job, part).Upsert? ==> !ControlledByOther(Stored(w, job, part), job.site.id))
      {
        assert !Stops(job, w, IndexOf(part));
        StopsIff(job, w, part);
      }
      RefusesIff(job, DatabasePart);
    } else {
      var part := PartAt(Reach(job, w));
      StopsIff(job, w, part);
      RefusesIff(job, part);
    }
  }

  /** An undisturbed reconcile succeeds exactly when nothing stands in its way. */
  lemma SucceedsIff(job: Job, w0: World, inputs: seq<Input>)
    requires Serves(w0, job) && AllClean(inputs) && |inputs| >= CALLS
    ensures Solo(w0, Begin(job), inputs).1 == Finished(job.site.id, None) <==> Unhindered(job, w0)
  {
    var now := FinishedLeaves(job, w0, inputs);
    CleanOutcomeMeans(job, w0);
    ReachesEnd(job, w0);
  }

  // ---- Every reference resolves ----

  /** A port of the Service leads to a container that listens there. */
  ghost predicate Listens(ports: seq<ServicePort>, pods: DeploymentSpec, number: int) {
    exists port, c :: port in ports && port.port == number && c in pods.containers && port.targetPort in c.ports
  }

  /** An Ingress path leads to a stored Service, one of its ports, and a container listening there. */
  ghost predicate PathResolves(w: World, ns: string, p: IngressPath, pods: DeploymentSpec) {
    var service := Current(w, Key(ServiceKind, ns, p.service));
    && service.Some? && service.value.body.ServiceBody?
    && Includes(service.value.body.selector, pods.podLabels)
    && Listens(service.value.body.ports, pods, p.port)
  }

  /** A volume's object is stored, unless the volume is empty or a claim the user brought. */
  predicate VolumeResolves(w: World, ns: string, v: Volume, brought: string) {
    match v.source
    case EmptyDir => true
    case ConfigMapVolume(name) =>
      var x := Current(w, Key(ConfigMapKind, ns, name));
      x.Some? && x.value.body.ConfigMapBody?
    case ClaimVolume(claim) => claim == brought || Current(w, Key(PvcKind, ns, claim)).Some?
  }

  /** A mount names a volume of the pod, and a file of it that is there. */
  ghost predicate MountResolves(w: World, ns: string, m: Mount, pods: DeploymentSpec) {
    exists v :: v in pods.volumes && v.name == m.volume
                && (v.source.ConfigMapVolume? ==>
                      var x := Current(w, Key(ConfigMapKind, ns, v.source.name));
                      x.Some? && x.value.body.ConfigMapBody? && m.subPath in x.value.body.data)
  }

  ghost predicate PodsResolve(w: World, ns: string, pods: DeploymentSpec, brought: string) {
    && Includes(pods.selector, pods.podLabels)
    && (forall v :: v in pods.volumes ==> VolumeResolves(w, ns, v, brought))
    && (forall c, m :: c in pods.initContainers + pods.containers && m in c.mounts ==> MountResolves(w, ns, m, pods))
  }

  ghost predicate AllResolve(w: World, id: SiteId, brought: string) {
    var ingress, deploy := Current(w, KeyOf(id, IngressPart)), Current(w, KeyOf(id, DeploymentPart));
    && ingress.Some? && ingress.value.body.IngressBody? && deploy.Some? && deploy.value.body.DeploymentBody?
    && (forall p :: p in ingress.value.body.paths ==> PathResolves(w, id.ns, p, deploy.value.body.deployment))
    && PodsResolve(w, id.ns, deploy.value.body.deployment, brought)
  }

  /** The claim the user brought, if any; a claim name is never empty. */
  function BroughtClaim(spec: SiteSpec): string {
    if PersistenceOn(spec) then spec.persistence.value.existingClaim else ""
  }

  lemma ServiceKeyIs(id: SiteId)
    ensures KeyOf(id, ServicePart) == Key(ServiceKind, id.ns, id.name)
    ensures KeyOf(id, NginxPart) == Key(ConfigMapKind, id.ns, id.name + "-nginx")
    ensures KeyOf(id, PhpPart) == Key(ConfigMapKind, id.ns, id.name + "-php")
    ensures KeyOf(id, PvcPart) == Key(PvcKind, id.ns, ClaimName(id))
  {
    assert id.name + "" == id.name;
  }

  lemma HttpListens(site: Site)
    ensures Listens(ServicePorts(site.spec), BuildDeploymentSpec(site), 80)
  {
    var port, c := ServicePorts(site.spec)[0], Containers(site)[1];
    assert c == NginxContainer(site) && c.ports[0] == 80;
    assert port in ServicePorts(site.spec) && port.port == 80 && c in BuildDeploymentSpec(site).containers && port.targetPort in c.ports;
  }

  lemma FileBrowserListens(site: Site)
    requires FileBrowserOn(site.spec)
    ensures Listens(ServicePorts(site.spec), BuildDeploymentSpec(site), 8080)
  {
    var port, c := ServicePorts(site.spec)[1], Containers(site)[2];
    assert c == FileBrowserContainer(site) && c.ports[0] == 8080;
    assert port in ServicePorts(site.spec) && port.port == 8080 && c in BuildDeploymentSpec(site).containers && port.targetPort in c.ports;
  }

  lemma PathsLead(site: Site, p: IngressPath, ingress: IngressSpec)
    requires p in IngressPaths(site, ingress)
    ensures p.service == site.id.name && (p.port == 80 || (p.port == 8080 && FileBrowserOn(site.spec)))
  {
  }

  /** The Service selects the pods of the Site and offers its ports. */
  ghost predicate Selects(x: Option<Object>, site: Site) {
    && x.Some? && x.value.body.ServiceBody?
    && Includes(x.value.body.selector, BuildDeploymentSpec(site).podLabels) && x.value.body.ports == ServicePorts(site.spec)
  }

  lemma SiteListens(site: Site, p: IngressPath, ingress: IngressSpec)
    requires p in IngressPaths(site, ingress)
    ensures p.service == site.id.name && Listens(ServicePorts(site.spec), BuildDeploymentSpec(site), p.port)
  {
    PathsLead(site, p, ingress);
    if p.port == 80 {
      HttpListens(site);
    } else {
      FileBrowserListens(site);
    }
  }

  lemma PathsResolve(site: Site, w: World, p: IngressPath, ingress: IngressSpec)
    requires p in IngressPaths(site, ingress) && Selects(Current(w, KeyOf(site.id, ServicePart)), site)
    ensures PathResolves(w, site.id.ns, p, BuildDeploymentSpec(site))
  {
    ServiceKeyIs(site.id);
    SiteListens(site, p, ingress);
  }

  /** The parts a pod and its visitors depend on. */
  const SERVING := {NginxPart, PhpPart, DeploymentPart, ServicePart, IngressPart, PvcPart}

  lemma ConfigMapSettled(job: Job, part: Part, x: Option<Object>)
    requires part == NginxPart || part == PhpPart
    requires Settled(job, part, x)
    ensures x.Some? && x.value.body.ConfigMapBody? && (if part == NginxPart then "default.conf" else PHP_INI) in x.value.body.data
  {
  }

  lemma ClaimSettled(job: Job, x: Option<Object>)
    requires OwnClaim(job.site.spec) && Settled(job, PvcPart, x)
    ensures x.Some?
  {
  }

  /** The objects the pods of a Site mount are stored. */
  ghost predicate Mountable(w: World, job: Job) {
    var nginx, php := Stored(w, job, NginxPart), Stored(w, job, PhpPart);
    && nginx.Some? && nginx.value.body.ConfigMapBody? && "default.conf" in nginx.value.body.data
    && php.Some? && php.value.body.ConfigMapBody? && PHP_INI in php.value.body.data
    && (OwnClaim(job.site.spec) ==> Stored(w, job, PvcPart).Some?)
  }

  lemma NowMountable(job: Job, w: World)
    requires AllSettled(job, w, SERVING)
    ensures Mountable(w, job)
  {
    ConfigMapSettled(job, NginxPart, Stored(w, job, NginxPart));
    ConfigMapSettled(job, PhpPart, Stored(w, job, PhpPart));
    if OwnClaim(job.site.spec) {
      ClaimSettled(job, Stored(w, job, PvcPart));
    }
  }

  lemma VolumesResolve(job: Job, w: World, v: Volume)
    requires Mountable(w, job) && v in Volumes(job.site)
    ensures VolumeResolves(w, job.site.id.ns, v, BroughtClaim(job.site.spec))
  {
    ServiceKeyIs(job.site.id);
  }

  lemma VolumeMounts(w: World, ns: string, m: Mount, pods: DeploymentSpec, i: nat)
    requires i < |pods.volumes| && pods.volumes[i].name == m.volume
    requires pods.volumes[i].source.ConfigMapVolume? ==>
               var x := Current(w, Key(ConfigMapKind, ns, pods.volumes[i].source.name));
               x.Some? && x.value.body.ConfigMapBody? && m.subPath in x.value.body.data
    ensures MountResolves(w, ns, m, pods)
  {
    assert pods.volumes[i] in pods.volumes;
  }

  lemma SiteDataNotConfig(site: Site)
    ensures SiteDataVolume(site).name == DATA_VOLUME && !SiteDataVolume(site).source.ConfigMapVolume?
  {
  }

  lemma MountsResolve(job: Job, w: World, m: Mount)
    requires Mountable(w, job)
    requires m in [ Mount(DATA_VOLUME, SITE_ROOT, ""), Mount("fb-config", "/config", ""),
                    Mount("php-config", "/usr/local/etc/php/conf.d/" + PHP_INI, PHP_INI),
                    Mount("nginx-config", "/etc/nginx/conf.d/default.conf", "default.conf") ]
    ensures MountResolves(w, job.site.id.ns, m, BuildDeploymentSpec(job.site))
  {
    ServiceKeyIs(job.site.id);
    SiteDataNotConfig(job.site);
    var i := if m.volume == DATA_VOLUME then 0 else if m.volume == "nginx-config" then 1
             else if m.volume == "php-config" then 2 else 3;
    VolumeMounts(w, job.site.id.ns, m, BuildDeploymentSpec(job.site), i);
  }

  lemma MountsAre(site: Site, c: Container, m: Mount)
    requires c in [WPInitContainer(site)] + Containers(site) && m in c.mounts
    ensures m in [ Mount(DATA_VOLUME, SITE_ROOT, ""), Mount("fb-config", "/config", ""),
                   Mount("php-config", "/usr/local/etc/php/conf.d/" + PHP_INI, PHP_INI),
                   Mount("nginx-config", "/etc/nginx/conf.d/default.conf", "default.conf") ]
  {
  }

  lemma SettledResolve(job: Job, w: World)
    requires AllSettled(job, w, SERVING) && IngressOn(job.site.spec)
    ensures AllResolve(w, job.site.id, BroughtClaim(job.site.spec))
  {
    NowMountable(job, w);
    ServiceSettled(job, Stored(w, job, ServicePart));
    IngressSettled(job, Stored(w, job, IngressPart));
    DeploymentSettled(job, Stored(w, job, DeploymentPart));
    PodsAllResolve(job, w);
    forall p | p in Stored(w, job, IngressPart).value.body.paths
      ensures PathResolves(w, job.site.id.ns, p, BuildDeploymentSpec(job.site))
    {
      PathsResolve(job.site, w, p, job.site.spec.ingress.value);
    }
  }

  /**
   * Reference closure: in every run of a single worker, among rollouts, edits, aborts, status writers and other
   * Sites' workers, whenever it has got through a job with ingress on, every path of the stored Ingress reaches a
   * listening container through a stored Service that selects the pods, and every volume and mounted file of the
   * pods is stored, but for a claim the user brought.
   */
  lemma ReferencesResolve(s: State, events: seq<Event>, id: SiteId, tid: nat, job: Job)
    requires AllSound(s) && OneWorker(s, id, tid) && AllOrderly(events, id, tid, SERVING)
    requires Through(s, events, id, tid, job) && IngressOn(job.site.spec)
    ensures AllResolve(Run(s, events).world, id, BroughtClaim(job.site.spec))
  {
    ThroughAllSettled(s, events, id, tid, job, SERVING);
    SettledResolve(job, Run(s, events).world);
  }

  lemma PodsAllResolve(job: Job, w: World)
    requires Mountable(w, job)
    ensures PodsResolve(w, job.site.id.ns, BuildDeploymentSpec(job.site), BroughtClaim(job.site.spec))
  {
    forall v | v in Volumes(job.site)
      ensures VolumeResolves(w, job.site.id.ns, v, BroughtClaim(job.site.spec))
    {
      VolumesResolve(job, w, v);
    }
    forall c, m | c in [WPInitContainer(job.site)] + Containers(job.site) && m in c.mounts
      ensures MountResolves(w, job.site.id.ns, m, BuildDeploymentSpec(job.site))
    {
      MountsAre(job.site, c, m);
      MountsResolve(job, w, m);
    }
  }

  lemma ServiceSettled(job: Job, x: Option<Object>)
    requires Settled(job, ServicePart, x)
    ensures Selects(x, job.site)
  {
  }

  lemma IngressSettled(job: Job, x: Option<Object>)
    requires Settled(job, IngressPart, x) && IngressOn(job.site.spec)
    ensures x.Some? && x.value.body.IngressBody? && x.value.body.paths == IngressPaths(job.site, job.site.spec.ingress.value)
    ensures NamedClass(job.site.spec).Some? ==> OldClass(x) == NamedClass(job.site.spec)
  {
  }

  lemma DeploymentSettled(job: Job, x: Option<Object>)
    requires Settled(job, DeploymentPart, x)
    ensures x.Some? && x.value.body.DeploymentBody? && x.value.body.deployment == BuildDeploymentSpec(job.site)
  {
  }

  // ---- Agreement up to named exceptions ----

  const EVERY := {SecretPart, DatabasePart, UserPart, GrantPart, NginxPart, PhpPart, DeploymentPart, ServicePart,
                  IngressPart, PvcPart}

  /** Two stored objects of one part agree on all that the spec determines. */
  ghost predicate PartsAgree(job: Job, part: Part, x: Option<Object>, y: Option<Object>) {
    match OpFor(job, part)
    case Upsert(_) =>
      && x.Some? && y.Some? && x.value.controller == y.value.controller
      && var a, b := x.value.body, y.value.body;
         (match part
          case SecretPart =>
            a.SecretBody? && b.SecretBody? && WantedKeys(job.site.spec) <= a.secrets.Keys * b.secrets.Keys
          case DeploymentPart =>
            a.DeploymentBody? && b.DeploymentBody? && a.labels == b.labels && a.deployment == b.deployment
          case IngressPart =>
            && a.IngressBody? && b.IngressBody? && a.(className := None) == b.(className := None)
            && (NamedClass(job.site.spec).Some? ==> x == y)
          case PvcPart => a.PvcBody? && b.PvcBody? && a.(storageClass := None) == b.(storageClass := None)
          case _ => x == y)
    case DeleteOwned => x.None? && y.None?
    case _ => true
  }

  lemma PlainAgree(a: Job, b: Job, part: Part, x: Option<Object>, y: Option<Object>, xs: seq<Job>, ys: seq<Job>)
    requires part != IngressPart && part != PvcPart
    requires SameJob(a, b) && Settled(a, part, x) && Settled(b, part, y)
    requires Grown(x, xs, a.site.id, part) && Grown(y, ys, a.site.id, part)
    ensures PartsAgree(a, part, x, y)
  {
    OpsAgree(a, b, part);
  }

  lemma IngressAgrees(a: Job, b: Job, x: Option<Object>, y: Option<Object>, xs: seq<Job>, ys: seq<Job>)
    requires SameJob(a, b) && Settled(a, IngressPart, x) && Settled(b, IngressPart, y)
    requires Grown(x, xs, a.site.id, IngressPart) && Grown(y, ys, a.site.id, IngressPart)
    ensures PartsAgree(a, IngressPart, x, y)
  {
  }

  lemma ClaimAgrees(a: Job, b: Job, x: Option<Object>, y: Option<Object>, xs: seq<Job>, ys: seq<Job>)
    requires SameJob(a, b) && Settled(a, PvcPart, x) && Settled(b, PvcPart, y)
    requires Grown(x, xs, a.site.id, PvcPart) && Grown(y, ys, a.site.id, PvcPart)
    ensures PartsAgree(a, PvcPart, x, y)
  {
  }

  /** A cluster in which the Site has no objects yet and no work under way. */
  ghost predicate Bare(s: State, id: SiteId, tid: nat) {
    AllSound(s) && OneWorker(s, id, tid) && forall part :: Current(s.world, KeyOf(id, part)).None?
  }

  lemma SettledAndGrown(s: State, events: seq<Event>, id: SiteId, tid: nat, job: Job, part: Part)
    requires Bare(s, id, tid) && AllOrderly(events, id, tid, EVERY) && Through(s, events, id, tid, job)
    ensures var x := Current(Run(s, events).world, KeyOf(id, part));
            Settled(job, part, x) && Grown(x, Writers(s, events, id, part), id, part)
  {
    assert part in EVERY;
    OrderlyForPart(events, id, tid, EVERY, part);
    ThroughSettled(s, events, id, tid, job, part);
    RunGrows(s, events, id, part);
  }

  lemma GrownAgree(a: Job, b: Job, part: Part, x: Option<Object>, y: Option<Object>, xs: seq<Job>, ys: seq<Job>)
    requires SameJob(a, b) && Settled(a, part, x) && Settled(b, part, y)
    requires Grown(x, xs, a.site.id, part) && Grown(y, ys, b.site.id, part)
    ensures PartsAgree(a, part, x, y)
  {
    if part == IngressPart {
      IngressAgrees(a, b, x, y, xs, ys);
    } else if part == PvcPart {
      ClaimAgrees(a, b, x, y, xs, ys);
    } else {
      PlainAgree(a, b, part, x, y, xs, ys);
    }
  }

  /**
   * Confluence: two runs from clusters without the Site's objects, with whatever edits, aborts, rollouts, status
   * writers and other Sites, that both end with the worker through the same spec under the same flags, agree on
   * every managed object: unwanted ones are gone from both, wanted ones are there and equal, but for the class of
   * the Ingress, which is the one last named since it was created, the storage class of the claim, which is that
   * of the job that created it, the accumulated secrets, and MariaDB objects left after opting out.
   */
  lemma Confluence(s1: State, events1: seq<Event>, tid1: nat, a: Job, s2: State, events2: seq<Event>, tid2: nat, b: Job,
                   id: SiteId, part: Part)
    requires Bare(s1, id, tid1) && AllOrderly(events1, id, tid1, EVERY) && Through(s1, events1, id, tid1, a)
    requires Bare(s2, id, tid2) && AllOrderly(events2, id, tid2, EVERY) && Through(s2, events2, id, tid2, b)
    requires SameJob(a, b)
    ensures var x, y := Current(Run(s1, events1).world, KeyOf(id, part)), Current(Run(s2, events2).world, KeyOf(id, part));
            && PartsAgree(a, part, x, y)
            && Grown(x, Writers(s1, events1, id, part), id, part) && Grown(y, Writers(s2, events2, id, part), id, part)
  {
    var x, y := Current(Run(s1, events1).world, KeyOf(id, part)), Current(Run(s2, events2).world, KeyOf(id, part));
    var xs, ys := Writers(s1, events1, id, part), Writers(s2, events2, id, part);
    SettledAndGrown(s1, events1, id, tid1, a, part);
    SettledAndGrown(s2, events2, id, tid2, b, part);
    GrownAgree(a, b, part, x, y, xs, ys);
  }

  /**
   * In every run of a single worker, once it is through a job with ingress on, the stored class is the one named
   * last since the Ingress was created; so it is what the spec says exactly when the spec names a class, or none
   * of the jobs that wrote the Ingress did.
   */
  lemma ClassFollowsSpecIff(s: State, events: seq<Event>, id: SiteId, tid: nat, job: Job)
    requires AllSound(s) && OneWorker(s, id, tid) && AllOrderly(events, id, tid, {IngressPart})
    requires Current(s.world, KeyOf(id, IngressPart)).None?
    requires Through(s, events, id, tid, job) && IngressOn(job.site.spec)
    ensures var x, writers := Current(Run(s, events).world, KeyOf(id, IngressPart)), Writers(s, events, id, IngressPart);
            && x.Some? && OldClass(x) == LastNamed(writers)
            && (OldClass(x) == NamedClass(job.site.spec) <==>
                  || NamedClass(job.site.spec).Some?
                  || forall i :: 0 <= i < |writers| ==> NamedClass(writers[i].site.spec).None?)
  {
    var x := Current(Run(s, events).world, KeyOf(id, IngressPart));
    ThroughSettled(s, events, id, tid, job, IngressPart);
    IngressSettled(job, x);
    RunGrows(s, events, id, IngressPart);
    LastNamedIff(Writers(s, events, id, IngressPart));
  }

  /** Likewise the claim's storage class is that of the job that created it, which may differ from the job's own. */
  lemma StorageClassIsTheFirst(s: State, events: seq<Event>, id: SiteId, tid: nat, job: Job)
    requires AllSound(s) && OneWorker(s, id, tid) && AllOrderly(events, id, tid, {PvcPart})
    requires Current(s.world, KeyOf(id, PvcPart)).None?
    requires Through(s, events, id, tid, job) && OwnClaim(job.site.spec)
    ensures var x, writers := Current(Run(s, events).world, KeyOf(id, PvcPart)), Writers(s, events, id, PvcPart);
            && x.Some? && |writers| > 0 && OldStorageClass(x) == WantedStorageClass(writers[0])
            && OldRequests(x) == map["storage" := ClaimSize(job.site.spec)]
  {
    var x := Current(Run(s, events).world, KeyOf(id, PvcPart));
    ThroughSettled(s, events, id, tid, job, PvcPart);
    ClaimSettled(job, x);
    RunGrows(s, events, id, PvcPart);
  }

  // ---- Credentials as stored ----

  const PROVISIONED := {SecretPart, DatabasePart, UserPart, GrantPart, DeploymentPart}

  /**
   * User name, password, database name and cluster agree in the Database, User, Grant and Deployment, and the
   * password is in the Secret that the User and the Deployment name.
   */
  ghost predicate Coherent(w: World, ns: string, db: Option<Object>, user: Option<Object>, grant: Option<Object>,
                           deploy: Option<Object>) {
    && db.Some? && db.value.body.DatabaseBody? && user.Some? && user.value.body.UserBody?
    && grant.Some? && grant.value.body.GrantBody?
    && deploy.Some? && deploy.value.body.DeploymentBody? && |deploy.value.body.deployment.containers| > 0
    && var u, g, d, env :=
         user.value.body, grant.value.body, db.value.body, deploy.value.body.deployment.containers[0].env;
       && EnvVar(DB_USER, Plain(u.userName)) in env && u.userName == g.userName
       && EnvVar(DB_PASSWORD, FromSecret(u.passwordRef)) in env && Found(w, ns, u.passwordRef)
       && EnvVar("DB_NAME", Plain(d.dbName)) in env && d.dbName == g.dbName
       && d.ref == u.ref == g.ref
  }

  lemma MariaDBSettled(job: Job, part: Part, x: Option<Object>)
    requires part == DatabasePart || part == UserPart || part == GrantPart
    requires ProvisionEnabled(job.site.spec) && Settled(job, part, x)
    ensures x.Some? && x.value.body == Desired(job, part, None)
  {
  }

  lemma SecretSettled(job: Job, x: Option<Object>)
    requires Settled(job, SecretPart, x)
    ensures x.Some? && x.value.body.SecretBody? && WantedKeys(job.site.spec) <= x.value.body.secrets.Keys
  {
  }

  lemma PhpEnvsFirst(site: Site)
    ensures var d := BuildDeploymentSpec(site); |d.containers| > 0 && d.containers[0].env == PhpEnvs(site)
  {
  }

  lemma PasswordFound(job: Job, w: World)
    requires ProvisionEnabled(job.site.spec) && Settled(job, SecretPart, Stored(w, job, SecretPart))
    ensures Found(w, job.site.id.ns, SecretKeyRef(SecretName(job.site.id), DB_PASSWORD))
  {
    SecretSettled(job, Stored(w, job, SecretPart));
    assert DB_PASSWORD in ProvisionKeys(job.site.spec);
    StoredIsFound(w, job.site.id, DB_PASSWORD);
  }

  lemma SettledCoherent(job: Job, w: World, db: Option<Object>, user: Option<Object>, grant: Option<Object>, deploy: Option<Object>)
    requires ProvisionEnabled(job.site.spec)
    requires Found(w, job.site.id.ns, SecretKeyRef(SecretName(job.site.id), DB_PASSWORD))
    requires Settled(job, DatabasePart, db) && Settled(job, UserPart, user)
    requires Settled(job, GrantPart, grant) && Settled(job, DeploymentPart, deploy)
    ensures Coherent(w, job.site.id.ns, db, user, grant, deploy)
  {
    MariaDBSettled(job, DatabasePart, db);
    MariaDBSettled(job, UserPart, user);
    MariaDBSettled(job, GrantPart, grant);
    DeploymentSettled(job, deploy);
    PhpEnvsFirst(job.site);
    CredentialsAgree(job, None, None, None);
  }

  /** Whenever the worker is through a job that provisions, the stored credentials are coherent. */
  lemma CredentialsCoherent(s: State, events: seq<Event>, id: SiteId, tid: nat, job: Job)
    requires AllSound(s) && OneWorker(s, id, tid) && AllOrderly(events, id, tid, PROVISIONED)
    requires Through(s, events, id, tid, job) && ProvisionEnabled(job.site.spec)
    ensures var w := Run(s, events).world;
            Coherent(w, id.ns, Current(w, KeyOf(id, DatabasePart)), Current(w, KeyOf(id, UserPart)),
                     Current(w, KeyOf(id, GrantPart)), Current(w, KeyOf(id, DeploymentPart)))
  {
    var w := Run(s, events).world;
    ThroughAllSettled(s, events, id, tid, job, PROVISIONED);
    PasswordFound(job, w);
    SettledCoherent(job, w, Stored(w, job, DatabasePart), Stored(w, job, UserPart), Stored(w, job, GrantPart),
                    Stored(w, job, DeploymentPart));
  }

  // ---- Fields that only move one way, in any run of any threads ----

  /** Between neighbouring versions a class is kept or replaced, never dropped, and a claim's class is frozen. */
  predicate Follows(x: Option<Object>, y: Option<Object>) {
    x.Some? && y.Some? ==>
      && (OldClass(x).Some? ==> OldClass(y).Some?)
      && OldStorageClass(y) == OldStorageClass(x) && OldAccessModes(y) == OldAccessModes(x)
  }

  predicate Sticky(c: Cell) {
    forall i :: 0 < i < |c| ==> Follows(c[i - 1], c[i])
  }

  lemma WrittenFollows(job: Job, part: Part, c: Cell)
    requires (part == IngressPart || part == PvcPart) && Mutate(job, part, Now(c)).Success? && Sticky(c)
    requires Now(c).Some? ==> (if part == IngressPart then Now(c).value.body.IngressBody? else Now(c).value.body.PvcBody?)
    ensures Sticky(Written(c, job, part))
    ensures var y := Now(Written(c, job, part));
            y.Some? && (if part == IngressPart then y.value.body.IngressBody? else y.value.body.PvcBody?)
  {
    var c' := Written(c, job, part);
    assert Follows(Now(c), Now(c'));
  }

  /** The cell holds objects of its own kind. */
  predicate Typed(part: Part, c: Cell) {
    Now(c).Some? ==> (if part == IngressPart then Now(c).value.body.IngressBody? else Now(c).value.body.PvcBody?)
  }

  lemma StickyCall(w: World, t: Thread, inp: Input, id: SiteId, part: Part)
    requires Sound(w, t) && (part == IngressPart || part == PvcPart)
    requires Sticky(CellOf(w, KeyOf(id, part))) && Typed(part, CellOf(w, KeyOf(id, part)))
    ensures var c := CellOf(Step(w, t, inp).0, KeyOf(id, part)); Sticky(c) && Typed(part, c)
  {
    if t.Working? && t.job.site.id == id && PartAt(t.pc) == part {
      WorkEffect(w, t.job, t.pc, t.io, t.tries, inp);
      var c := CellOf(w, KeyOf(id, part));
      if Mutate(t.job, part, Now(c)).Success? {
        WrittenFollows(t.job, part, c);
      }
    } else {
      StepSpares(w, t, inp, id, part);
    }
  }

  /**
   * In every run of any number of threads, from one version to the next the Ingress never loses its class and
   * the claim never changes storage class or access modes, until the object is deleted.
   */
  lemma {:induction false} FieldsStick(s: State, events: seq<Event>, id: SiteId, part: Part)
    requires AllSound(s) && (part == IngressPart || part == PvcPart)
    requires Sticky(CellOf(s.world, KeyOf(id, part))) && Typed(part, CellOf(s.world, KeyOf(id, part)))
    requires forall i :: 0 <= i < |events| ==> !(events[i].Meddle? && events[i].key == KeyOf(id, part))
    ensures var c := CellOf(Run(s, events).world, KeyOf(id, part)); Sticky(c) && Typed(part, c)
  {
    if events == [] {
    } else {
      var before, last := events[..|events| - 1], events[|events| - 1];
      RunSound(s, before);
      FieldsStick(s, before, id, part);
      var mid := Run(s, before);
      if !last.Call? {
        OutsideSpares(mid, last, id, part);
      } else if last.tid in mid.threads {
        StickyCall(mid.world, mid.threads[last.tid], last.input, id, part);
      }
    }
  }
}
