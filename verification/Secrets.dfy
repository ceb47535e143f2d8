/** Generated secrets are written once, and nothing stored ever refers to a missing one. */
module Secrets {
  import opened Wrappers
  import opened SiteTypes
  import opened Environment
  import opened Status
  import opened Objects
  import opened Machine

  /** Each version of a Secret keeps what any earlier version held, and none is ever missing after one. */
  predicate Accumulates(c: Cell) {
    forall i, j :: 0 <= i <= j < |c| ==> Includes(OldSecrets(c[i]), OldSecrets(c[j])) && (c[i].Some? ==> c[j].Some?)
  }

  lemma SecretWork(w: World, job: Job, pc: nat, io: Io, tries: nat, inp: Input)
    requires Sound(w, Working(job, pc, io, tries)) && PartAt(pc) == SecretPart
    ensures var c := CellOf(w, KeyOf(job.site.id, SecretPart));
            var c' := WorkOn(c, job, pc, io, tries, inp).0;
            c' == c || (|c'| == |c| + 1 && c <= c' && Now(c').Some? && Includes(OldSecrets(Now(c)), OldSecrets(Now(c'))))
  {
    WorkEffect(w, job, pc, io, tries, inp);
  }

  /** No event other than a foreign write to the Secret itself removes or changes a stored key. */
  lemma SecretNext(s: State, e: Event, k: Key)
    requires AllSound(s) && k.kind == SecretKind && !(e.Meddle? && e.key == k)
    ensures var c, c' := CellOf(s.world, k), CellOf(Next(s, e).world, k);
            c' == c || (|c'| == |c| + 1 && c <= c' && Now(c').Some? && Includes(OldSecrets(Now(c)), OldSecrets(Now(c'))))
  {
    if e.Call? && e.tid in s.threads {
      var t := s.threads[e.tid];
      if t.Working? && KeyOf(t.job.site.id, PartAt(t.pc)) == k {
        SecretWork(s.world, t.job, t.pc, t.io, t.tries, e.input);
      }
    }
  }

  /**
   * Write-once: with any number of threads, lagging reads, lost and unanswered calls, conflicts, restarts and
   * spec edits, a key once stored in a Secret keeps its value for ever.
   */
  lemma {:induction false} WriteOnce(s: State, events: seq<Event>, k: Key, key: string)
    requires AllSound(s) && k.kind == SecretKind
    requires forall e :: e in events ==> !(e.Meddle? && e.key == k)
    requires key in OldSecrets(Current(s.world, k))
    ensures var x := Current(Run(s, events).world, k);
            x.Some? && key in OldSecrets(x) && OldSecrets(x)[key] == OldSecrets(Current(s.world, k))[key]
  {
    if events == [] {
    } else {
      var before := events[..|events| - 1];
      RunSound(s, before);
      WriteOnce(s, before, k, key);
      SecretNext(Run(s, before), events[|events| - 1], k);
    }
  }

  // ---- References ----

  /** Keys of the Site's generated Secret that a list of containers reads. */
  function ContainerKeys(id: SiteId, cs: seq<Container>): set<string> {
    set c, e | c in cs && e in c.env && e.source.FromSecret? && e.source.ref.name == SecretName(id) :: e.source.ref.key
  }

  function DeploymentKeys(id: SiteId, x: Option<Object>): set<string> {
    if x.Some? && x.value.body.DeploymentBody? then
      ContainerKeys(id, x.value.body.deployment.initContainers) + ContainerKeys(id, x.value.body.deployment.containers)
    else {}
  }

  function UserObjectKeys(id: SiteId, x: Option<Object>): set<string> {
    if x.Some? && x.value.body.UserBody? && x.value.body.passwordRef.name == SecretName(id)
    then {x.value.body.passwordRef.key} else {}
  }

  function StoredKeys(w: World, id: SiteId): set<string> {
    OldSecrets(Current(w, KeyOf(id, SecretPart))).Keys
  }

  /** Every key of the generated Secret that the stored Deployment or MariaDB User names is there. */
  predicate NoDangling(w: World, id: SiteId) {
    && DeploymentKeys(id, Current(w, KeyOf(id, DeploymentPart))) <= StoredKeys(w, id)
    && UserObjectKeys(id, Current(w, KeyOf(id, UserPart))) <= StoredKeys(w, id)
  }

  /** The Secret that a reference names, in the namespace of the one who refers, is stored and holds the key. */
  predicate Found(w: World, ns: string, ref: SecretKeyRef) {
    var x := Current(w, Key(SecretKind, ns, ref.name));
    x.Some? && x.value.body.SecretBody? && ref.key in x.value.body.secrets
  }

  /** The name by which the operator refers to the generated Secret is the one it writes it under. */
  lemma SecretNamed(id: SiteId)
    ensures Key(SecretKind, id.ns, SecretName(id)) == KeyOf(id, SecretPart)
  {
  }

  lemma StoredIsFound(w: World, id: SiteId, key: string)
    requires key in StoredKeys(w, id)
    ensures Found(w, id.ns, SecretKeyRef(SecretName(id), key))
  {
    SecretNamed(id);
  }

  lemma BuiltKeys(site: Site)
    ensures var d := BuildDeploymentSpec(site);
            ContainerKeys(site.id, d.initContainers) + ContainerKeys(site.id, d.containers) == OwnKeys(site.id, AllEnvs(site))
  {
    var id := site.id;
    var d := BuildDeploymentSpec(site);
    var all := AllEnvs(site);
    assert d.initContainers == [WPInitContainer(site)];
    assert d.containers[0] == PhpFpmContainer(site) && d.containers[1] == NginxContainer(site);
    assert FileBrowserOn(site.spec) ==> d.containers[2] == FileBrowserContainer(site);
    forall e | e in all
      ensures exists c :: c in d.containers && e in c.env
    {
      if e in PhpEnvs(site) {
        assert e in d.containers[0].env;
      } else {
        assert e in d.containers[2].env;
      }
    }
    forall c, e | c in d.containers && e in c.env
      ensures e in all
    {
    }
    forall c, e | c in d.initContainers && e in c.env
      ensures e.source.Plain?
    {
    }
  }

  // ---- Stored keys ----

  /** A thread past its first part has all the keys it wants in the store. */
  predicate ThreadStocked(w: World, t: Thread, id: SiteId) {
    t.Working? && t.job.site.id == id && t.pc > 0 ==> WantedKeys(t.job.site.spec) <= StoredKeys(w, id)
  }

  ghost predicate Stocked(s: State, id: SiteId) {
    && AllSound(s) && Accumulates(CellOf(s.world, KeyOf(id, SecretPart)))
    && forall tid :: tid in s.threads ==> ThreadStocked(s.world, s.threads[tid], id)
  }

  predicate SparesSecret(e: Event, id: SiteId) {
    !(e.Meddle? && e.key == KeyOf(id, SecretPart))
  }

  lemma Appended(c: Cell, c': Cell)
    requires Accumulates(c)
    requires c' == c || (|c'| == |c| + 1 && c <= c' && Now(c').Some? && Includes(OldSecrets(Now(c)), OldSecrets(Now(c'))))
    ensures Accumulates(c')
  {
    if c' != c {
      forall i, j | 0 <= i <= j < |c'|
        ensures Includes(OldSecrets(c'[i]), OldSecrets(c'[j])) && (c'[i].Some? ==> c'[j].Some?)
      {
        if j == |c| && i < |c| {
          assert Includes(OldSecrets(c[i]), OldSecrets(c[|c| - 1]));
        }
      }
    }
  }

  lemma WrittenKeys(job: Job, x: Option<Object>)
    requires Mutate(job, SecretPart, x).Success?
    ensures var o := Mutate(job, SecretPart, x).value;
            WantedKeys(job.site.spec) <= OldSecrets(Some(o)).Keys && WantedKeys(job.site.spec) <= OldSecrets(Some(Admit(x, o))).Keys
  {
  }

  lemma SecretRead(c: Cell, job: Job, tries: nat, inp: Input)
    requires Accumulates(c)
    ensures var t := WorkOn(c, job, 0, Reading, tries, inp).1;
            t.Working? && t.pc > 0 ==> WantedKeys(job.site.spec) <= OldSecrets(Now(c)).Keys
  {
    var v := Observed(c, inp.lag);
    assert Includes(OldSecrets(c[v]), OldSecrets(c[|c| - 1]));
    if Mutate(job, SecretPart, c[v]).Success? {
      WrittenKeys(job, c[v]);
    }
  }

  lemma SecretWrite(c: Cell, job: Job, version: nat, create: bool, o: Object, tries: nat, inp: Input)
    requires version < |c| && Mutate(job, SecretPart, c[version]) == Success(o) && create == c[version].None?
    ensures var r := WorkOn(c, job, 0, Writing(version, create, o), tries, inp);
            r.1.Working? && r.1.pc > 0 ==> WantedKeys(job.site.spec) <= OldSecrets(Now(r.0)).Keys
  {
    WrittenKeys(job, c[version]);
  }

  /** Leaving the first part means that every wanted key is stored, even if the read was old. */
  lemma SecretDone(w: World, job: Job, io: Io, tries: nat, inp: Input)
    requires Sound(w, Working(job, 0, io, tries)) && Accumulates(CellOf(w, KeyOf(job.site.id, SecretPart)))
    ensures var r := WorkOn(CellOf(w, KeyOf(job.site.id, SecretPart)), job, 0, io, tries, inp);
            r.1.Working? && r.1.pc > 0 ==> WantedKeys(job.site.spec) <= OldSecrets(Now(r.0)).Keys
  {
    var c := CellOf(w, KeyOf(job.site.id, SecretPart));
    match io
    case Reading => SecretRead(c, job, tries, inp);
    case Writing(version, create, o) => SecretWrite(c, job, version, create, o, tries, inp);
    case Deleting(_) =>
  }

  lemma WorkThread(c: Cell, job: Job, pc: nat, io: Io, tries: nat, inp: Input)
    requires pc < PARTS
    ensures var t := WorkOn(c, job, pc, io, tries, inp).1;
            t.Reporting? || (t.Working? && t.job == job && pc <= t.pc)
  {
    GotoForward(job, pc + 1);
  }

  lemma SecretCellNext(s: State, e: Event, id: SiteId)
    requires Stocked(s, id) && SparesSecret(e, id)
    ensures Accumulates(CellOf(Next(s, e).world, KeyOf(id, SecretPart)))
    ensures StoredKeys(s.world, id) <= StoredKeys(Next(s, e).world, id)
  {
    SecretNext(s, e, KeyOf(id, SecretPart));
    Appended(CellOf(s.world, KeyOf(id, SecretPart)), CellOf(Next(s, e).world, KeyOf(id, SecretPart)));
  }

  lemma WorkerStocked(w: World, job: Job, pc: nat, io: Io, tries: nat, inp: Input)
    requires Sound(w, Working(job, pc, io, tries)) && ThreadStocked(w, Working(job, pc, io, tries), job.site.id)
    requires Accumulates(CellOf(w, KeyOf(job.site.id, SecretPart)))
    requires StoredKeys(w, job.site.id) <= StoredKeys(Step(w, Working(job, pc, io, tries), inp).0, job.site.id)
    ensures var r := Step(w, Working(job, pc, io, tries), inp); ThreadStocked(r.0, r.1, job.site.id)
  {
    WorkThread(CellOf(w, KeyOf(job.site.id, PartAt(pc))), job, pc, io, tries, inp);
    if pc == 0 {
      SecretDone(w, job, io, tries, inp);
    }
  }

  lemma ReportsOn(w: World, t: Thread, inp: Input)
    requires t.Reporting?
    ensures !Step(w, t, inp).1.Working?
  {
  }

  /** A fetched job starts at the first part, with a spec the Site really had. */
  lemma FetchStarts(c: Cell, t: Thread, inp: Input)
    requires t.Fetching?
    ensures var t' := FetchOn(c, t.id, t.cfg, t.draw, inp);
            t'.Working? ==> t'.pc == 0 && exists i :: 0 <= i < |c| && SpecAt(c, i) == Some(t'.job.site.spec) && t'.job.site.id == t.id
  {
    assert SpecAt(c, Observed(c, inp.lag)) == SpecAt(c, Observed(c, inp.lag));
  }

  function SpecAt(c: Cell, i: nat): Option<SiteSpec>
    requires i < |c|
  {
    if c[i].Some? && c[i].value.body.SiteBody? then Some(c[i].value.body.spec) else None
  }

  /** The thread that made a call is still stocked. */
  lemma CallerStocked(s: State, tid: nat, inp: Input, id: SiteId)
    requires Stocked(s, id) && tid in s.threads && s.threads[tid].Id() == id
    requires StoredKeys(s.world, id) <= StoredKeys(Step(s.world, s.threads[tid], inp).0, id)
    ensures var r := Step(s.world, s.threads[tid], inp); ThreadStocked(r.0, r.1, id)
  {
    var t := s.threads[tid];
    if t.Working? {
      WorkerStocked(s.world, t.job, t.pc, t.io, t.tries, inp);
    } else if t.Fetching? {
      FetchStarts(CellOf(s.world, SiteKey(id)), t, inp);
    } else if t.Reporting? {
      ReportsOn(s.world, t, inp);
    }
  }

  lemma ThreadStockedNext(s: State, e: Event, id: SiteId, tid: nat)
    requires Stocked(s, id) && SparesSecret(e, id) && tid in Next(s, e).threads
    requires StoredKeys(s.world, id) <= StoredKeys(Next(s, e).world, id)
    ensures ThreadStocked(Next(s, e).world, Next(s, e).threads[tid], id)
  {
    if e.Call? && e.tid == tid {
      StepSound(s.world, s.threads[tid], e.input);
      if s.threads[tid].Id() == id {
        CallerStocked(s, tid, e.input, id);
      }
    } else if !(e.Start? && e.tid == tid) {
      assert ThreadStocked(s.world, s.threads[tid], id);
    }
  }

  lemma StockedNext(s: State, e: Event, id: SiteId)
    requires Stocked(s, id) && SparesSecret(e, id)
    ensures Stocked(Next(s, e), id) && StoredKeys(s.world, id) <= StoredKeys(Next(s, e).world, id)
  {
    NextSound(s, e);
    SecretCellNext(s, e, id);
    forall tid | tid in Next(s, e).threads
      ensures ThreadStocked(Next(s, e).world, Next(s, e).threads[tid], id)
    {
      ThreadStockedNext(s, e, id, tid);
    }
  }

  /** In every run no thread gets past its first part without its keys, and keys only accumulate. */
  lemma {:induction false} RunStocked(s: State, events: seq<Event>, id: SiteId)
    requires Stocked(s, id) && forall i :: 0 <= i < |events| ==> SparesSecret(events[i], id)
    ensures Stocked(Run(s, events), id)
  {
    if events == [] {
    } else {
      RunStocked(s, events[..|events| - 1], id);
      StockedNext(Run(s, events[..|events| - 1]), events[|events| - 1], id);
    }
  }

  // ---- What a written Deployment refers to ----

  lemma WrittenDeployment(c: Cell, job: Job)
    requires Mutate(job, DeploymentPart, Now(c)).Success?
    ensures var x := Now(Written(c, job, DeploymentPart));
            x.Some? && x.value.body.DeploymentBody? && x.value.body.deployment == BuildDeploymentSpec(job.site)
  {
  }

  lemma KeysOf(id: SiteId, x: Option<Object>, d: DeploymentSpec)
    requires x.Some? && x.value.body.DeploymentBody? && x.value.body.deployment == d
    ensures DeploymentKeys(id, x) == ContainerKeys(id, d.initContainers) + ContainerKeys(id, d.containers)
  {
  }

  lemma DeploymentReads(c: Cell, job: Job)
    requires Mutate(job, DeploymentPart, Now(c)).Success?
    ensures DeploymentKeys(job.site.id, Now(Written(c, job, DeploymentPart))) == WantedKeys(job.site.spec) + UserKeys(job.site)
  {
    WrittenDeployment(c, job);
    KeysOf(job.site.id, Now(Written(c, job, DeploymentPart)), BuildDeploymentSpec(job.site));
    BuiltKeys(job.site);
    OwnKeysExact(job.site);
  }

  /** A write of the Deployment that takes effect makes it read the generated keys and those the user names. */
  lemma DeploymentWork(w: World, job: Job, pc: nat, io: Io, tries: nat, inp: Input)
    requires Sound(w, Working(job, pc, io, tries)) && PartAt(pc) == DeploymentPart
    ensures var c := CellOf(w, KeyOf(job.site.id, DeploymentPart));
            var c' := WorkOn(c, job, pc, io, tries, inp).0;
            c' == c || DeploymentKeys(job.site.id, Now(c')) == WantedKeys(job.site.spec) + UserKeys(job.site)
  {
    var c := CellOf(w, KeyOf(job.site.id, DeploymentPart));
    WorkEffect(w, job, pc, io, tries, inp);
    if Mutate(job, DeploymentPart, Now(c)).Success? {
      DeploymentReads(c, job);
    }
  }

  /** The call writes the Site's Deployment. */
  ghost predicate WritesDeployment(w: World, t: Thread, inp: Input, id: SiteId) {
    CellOf(Step(w, t, inp).0, KeyOf(id, DeploymentPart)) != CellOf(w, KeyOf(id, DeploymentPart))
  }

  lemma WritesAsWorker(w: World, t: Thread, inp: Input, id: SiteId)
    requires Sound(w, t) && WritesDeployment(w, t, inp, id)
    ensures t.Working? && t.job.site.id == id && PartAt(t.pc) == DeploymentPart
    ensures DeploymentKeys(id, Current(Step(w, t, inp).0, KeyOf(id, DeploymentPart)))
            == WantedKeys(t.job.site.spec) + UserKeys(t.job.site)
  {
    if t.Working? && t.job.site.id == id && PartAt(t.pc) == DeploymentPart {
      DeploymentWork(w, t.job, t.pc, t.io, t.tries, inp);
    } else {
      StepSpares(w, t, inp, id, DeploymentPart);
    }
  }

  /** The Deployment in the store reads nothing that the Secret in the store lacks. */
  predicate DeploymentServed(w: World, id: SiteId) {
    DeploymentKeys(id, Current(w, KeyOf(id, DeploymentPart))) <= StoredKeys(w, id)
  }

  lemma WrittenServedIff(w: World, t: Thread, inp: Input, id: SiteId)
    requires Sound(w, t) && WritesDeployment(w, t, inp, id) && ThreadStocked(w, t, id)
    ensures t.Working? && t.job.site.id == id
    ensures DeploymentServed(Step(w, t, inp).0, id) <==> UserKeys(t.job.site) <= StoredKeys(w, id)
  {
    WritesAsWorker(w, t, inp, id);
    StepSpares(w, t, inp, id, SecretPart);
  }

  /**
   * The exact condition, at every write in every run of any threads, with lagging reads, faults, restarts and
   * edits: a Deployment that has just been written names no missing key exactly when the user's own references
   * into the generated Secret name keys stored there by then.
   */
  lemma DeploymentServedIff(s: State, events: seq<Event>, id: SiteId, tid: nat, inp: Input)
    requires Stocked(s, id) && forall i :: 0 <= i < |events| ==> SparesSecret(events[i], id)
    requires var s' := Run(s, events); tid in s'.threads && WritesDeployment(s'.world, s'.threads[tid], inp, id)
    ensures var s' := Run(s, events);
            var t := s'.threads[tid];
            && t.Working? && t.job.site.id == id
            && (DeploymentServed(Step(s'.world, t, inp).0, id) <==> UserKeys(t.job.site) <= StoredKeys(s'.world, id))
  {
    var s' := Run(s, events);
    RunStocked(s, events, id);
    assert Sound(s'.world, s'.threads[tid]) && ThreadStocked(s'.world, s'.threads[tid], id);
    WrittenServedIff(s'.world, s'.threads[tid], inp, id);
  }

  // ---- The invariant ----

  /** The user's references into the generated Secret name keys that the spec wants or that are stored already. */
  predicate Covered(site: Site, keys: set<string>) {
    UserKeys(site) <= WantedKeys(site.spec) + keys
  }

  predicate ThreadCovered(t: Thread, id: SiteId, keys: set<string>) {
    t.Working? && t.job.site.id == id ==> Covered(t.job.site, keys)
  }

  predicate SiteCovered(c: Cell, id: SiteId, keys: set<string>) {
    forall i :: 0 <= i < |c| && SpecAt(c, i).Some? ==> Covered(Site(id, SpecAt(c, i).value), keys)
  }

  ghost predicate Referential(s: State, id: SiteId) {
    var keys := StoredKeys(s.world, id);
    && Stocked(s, id) && SiteCovered(CellOf(s.world, SiteKey(id)), id, keys)
    && (forall tid :: tid in s.threads ==> ThreadCovered(s.threads[tid], id, keys))
    && NoDangling(s.world, id)
  }

  /** The environment leaves the operator's own objects alone, and no edit names a key neither wanted nor stored. */
  predicate Considerate(s: State, e: Event, id: SiteId) {
    && (e.Edit? && e.id == id ==> Covered(Site(id, e.spec), StoredKeys(s.world, id)))
    && (e.Meddle? ==> e.key != SiteKey(id) && e.key != KeyOf(id, SecretPart)
                      && e.key != KeyOf(id, DeploymentPart) && e.key != KeyOf(id, UserPart))
  }

  ghost predicate AllConsiderate(s: State, events: seq<Event>, id: SiteId) {
    forall i :: 0 <= i < |events| ==> Considerate(Run(s, events[..i]), events[i], id)
  }

  lemma SiteCoveredMore(c: Cell, id: SiteId, keys: set<string>, more: set<string>)
    requires SiteCovered(c, id, keys) && keys <= more
    ensures SiteCovered(c, id, more)
  {
  }

  lemma AppendCovered(c: Cell, x: Option<Object>, id: SiteId, keys: set<string>)
    requires SiteCovered(c, id, keys)
    requires x.Some? && x.value.body.SiteBody? ==> Covered(Site(id, x.value.body.spec), keys)
    ensures SiteCovered(c + [x], id, keys)
  {
    forall i | 0 <= i < |c + [x]| && SpecAt(c + [x], i).Some?
      ensures Covered(Site(id, SpecAt(c + [x], i).value), keys)
    {
      if i < |c| {
        assert SpecAt(c + [x], i) == SpecAt(c, i);
      }
    }
  }

  lemma SiteCellCall(w: World, t: Thread, inp: Input, id: SiteId, keys: set<string>)
    requires Sound(w, t) && SiteCovered(CellOf(w, SiteKey(id)), id, keys)
    ensures SiteCovered(CellOf(Step(w, t, inp).0, SiteKey(id)), id, keys)
  {
    var c := CellOf(w, SiteKey(id));
    StepOnSite(w, t, inp, id);
    if CellOf(Step(w, t, inp).0, SiteKey(id)) != c {
      assert SpecAt(c, |c| - 1) == Some(Now(c).value.body.spec);
      AppendCovered(c, Current(Step(w, t, inp).0, SiteKey(id)), id, keys);
    }
  }

  lemma EditCovered(c: Cell, id: SiteId, spec: SiteSpec, keys: set<string>)
    requires SiteCovered(c, id, keys) && Covered(Site(id, spec), keys)
    ensures SiteCovered(EditCell(c, spec), id, keys)
  {
    if EditCell(c, spec) != c {
      AppendCovered(c, Now(EditCell(c, spec)), id, keys);
    }
  }

  lemma AnnotateCovered(c: Cell, id: SiteId, conditions: seq<Condition>, keys: set<string>)
    requires SiteCovered(c, id, keys)
    ensures SiteCovered(AnnotateCell(c, conditions), id, keys)
  {
    if AnnotateCell(c, conditions) != c {
      assert SpecAt(c, |c| - 1) == Some(Now(c).value.body.spec);
      AppendCovered(c, Now(AnnotateCell(c, conditions)), id, keys);
    }
  }

  lemma SiteCellNext(s: State, e: Event, id: SiteId, keys: set<string>)
    requires AllSound(s) && SiteCovered(CellOf(s.world, SiteKey(id)), id, keys)
    requires keys == StoredKeys(s.world, id) && Considerate(s, e, id)
    ensures SiteCovered(CellOf(Next(s, e).world, SiteKey(id)), id, keys)
  {
    var c := CellOf(s.world, SiteKey(id));
    if e.Call? {
      if e.tid in s.threads {
        SiteCellCall(s.world, s.threads[e.tid], e.input, id, keys);
      }
    } else {
      OutsideOnSite(s, e, id);
      if e.Edit? && e.id == id {
        EditCovered(c, id, e.spec, keys);
      } else if e.Annotate? && e.id == id {
        AnnotateCovered(c, id, e.conditions, keys);
      }
    }
  }

  lemma DeploymentCall(s: State, tid: nat, inp: Input, id: SiteId)
    requires Referential(s, id) && tid in s.threads
    ensures DeploymentKeys(id, Current(Step(s.world, s.threads[tid], inp).0, KeyOf(id, DeploymentPart)))
         <= StoredKeys(s.world, id)
  {
    var t := s.threads[tid];
    if WritesDeployment(s.world, t, inp, id) {
      WritesAsWorker(s.world, t, inp, id);
      assert ThreadStocked(s.world, t, id) && ThreadCovered(t, id, StoredKeys(s.world, id));
    }
  }

  lemma RolloutReads(c: Cell, status: DeploymentStatus, id: SiteId)
    ensures DeploymentKeys(id, Now(RolloutCell(c, status))) == DeploymentKeys(id, Now(c))
  {
  }

  /** A Deployment is only ever written by a thread whose keys are already stored. */
  lemma DeploymentNext(s: State, e: Event, id: SiteId)
    requires Referential(s, id) && Considerate(s, e, id)
    ensures DeploymentKeys(id, Current(Next(s, e).world, KeyOf(id, DeploymentPart))) <= StoredKeys(s.world, id)
  {
    if e.Call? {
      if e.tid in s.threads {
        DeploymentCall(s, e.tid, e.input, id);
      }
    } else if e.Rollout? && e.id == id {
      RolloutReads(CellOf(s.world, KeyOf(id, DeploymentPart)), e.status, id);
    } else {
      OutsideSpares(s, e, id, DeploymentPart);
    }
  }

  /** A MariaDB User is only written when provisioning is on, which asks for its key. */
  lemma UserWork(w: World, job: Job, pc: nat, io: Io, tries: nat, inp: Input)
    requires Sound(w, Working(job, pc, io, tries)) && PartAt(pc) == UserPart
    ensures var c := CellOf(w, KeyOf(job.site.id, UserPart));
            var c' := WorkOn(c, job, pc, io, tries, inp).0;
            c' == c || UserObjectKeys(job.site.id, Now(c')) <= WantedKeys(job.site.spec)
  {
    WorkEffect(w, job, pc, io, tries, inp);
    assert OpFor(job, UserPart).Upsert? ==> DB_PASSWORD in ProvisionKeys(job.site.spec);
  }

  lemma UserCall(s: State, tid: nat, inp: Input, id: SiteId)
    requires Referential(s, id) && tid in s.threads
    ensures UserObjectKeys(id, Current(Step(s.world, s.threads[tid], inp).0, KeyOf(id, UserPart))) <= StoredKeys(s.world, id)
  {
    var t := s.threads[tid];
    if t.Working? && t.job.site.id == id && PartAt(t.pc) == UserPart {
      UserWork(s.world, t.job, t.pc, t.io, t.tries, inp);
      assert ThreadStocked(s.world, t, id);
    } else {
      StepSpares(s.world, t, inp, id, UserPart);
    }
  }

  lemma UserNext(s: State, e: Event, id: SiteId)
    requires Referential(s, id) && Considerate(s, e, id)
    ensures UserObjectKeys(id, Current(Next(s, e).world, KeyOf(id, UserPart))) <= StoredKeys(s.world, id)
  {
    if e.Call? {
      if e.tid in s.threads {
        UserCall(s, e.tid, e.input, id);
      }
    } else {
      OutsideSpares(s, e, id, UserPart);
    }
  }

  /** A thread stays covered, and one that has just fetched is. */
  lemma CallerCovered(w: World, t: Thread, inp: Input, id: SiteId, keys: set<string>)
    requires Sound(w, t) && ThreadCovered(t, id, keys) && SiteCovered(CellOf(w, SiteKey(id)), id, keys) && t.Id() == id
    ensures ThreadCovered(Step(w, t, inp).1, id, keys)
  {
    if t.Working? {
      WorkThread(CellOf(w, KeyOf(t.job.site.id, PartAt(t.pc))), t.job, t.pc, t.io, t.tries, inp);
    } else if t.Fetching? {
      FetchStarts(CellOf(w, SiteKey(id)), t, inp);
    } else if t.Reporting? {
      ReportsOn(w, t, inp);
    }
  }

  lemma ThreadCoveredNext(s: State, e: Event, id: SiteId, tid: nat, keys: set<string>)
    requires Referential(s, id) && tid in Next(s, e).threads && StoredKeys(s.world, id) <= keys
    ensures ThreadCovered(Next(s, e).threads[tid], id, keys)
  {
    if e.Call? && e.tid == tid {
      StepSound(s.world, s.threads[tid], e.input);
      if s.threads[tid].Id() == id {
        CallerCovered(s.world, s.threads[tid], e.input, id, StoredKeys(s.world, id));
      }
    } else if !(e.Start? && e.tid == tid) {
      assert ThreadCovered(s.threads[tid], id, StoredKeys(s.world, id));
    }
  }

  lemma ReferentialNext(s: State, e: Event, id: SiteId)
    requires Referential(s, id) && Considerate(s, e, id)
    ensures Referential(Next(s, e), id)
  {
    var keys, more := StoredKeys(s.world, id), StoredKeys(Next(s, e).world, id);
    StockedNext(s, e, id);
    SiteCellNext(s, e, id, keys);
    SiteCoveredMore(CellOf(Next(s, e).world, SiteKey(id)), id, keys, more);
    DeploymentNext(s, e, id);
    UserNext(s, e, id);
    forall tid | tid in Next(s, e).threads
      ensures ThreadCovered(Next(s, e).threads[tid], id, more)
    {
      ThreadCoveredNext(s, e, id, tid, more);
    }
  }

  lemma ConsiderateBefore(s: State, events: seq<Event>, id: SiteId)
    requires AllConsiderate(s, events, id) && events != []
    ensures var before := events[..|events| - 1];
            AllConsiderate(s, before, id) && Considerate(Run(s, before), events[|events| - 1], id)
  {
    var n := |events| - 1;
    var before := events[..n];
    forall i | 0 <= i < n
      ensures Considerate(Run(s, before[..i]), before[i], id)
    {
      assert before[..i] == events[..i];
      assert Considerate(Run(s, events[..i]), events[i], id);
    }
    assert Considerate(Run(s, events[..n]), events[n], id);
  }

  /**
   * No dangling secret reference in any reachable state: with any number of threads, lagging reads, faults,
   * restarts at any point and spec edits, as long as no edit names a key of the generated Secret that its spec does
   * not want and the Secret does not hold.
   */
  lemma {:induction false} NeverDangling(s: State, events: seq<Event>, id: SiteId)
    requires Referential(s, id) && AllConsiderate(s, events, id)
    ensures Referential(Run(s, events), id) && NoDangling(Run(s, events).world, id)
  {
    if events == [] {
    } else {
      var before, last := events[..|events| - 1], events[|events| - 1];
      ConsiderateBefore(s, events, id);
      NeverDangling(s, before, id);
      ReferentialNext(Run(s, before), last, id);
    }
  }

  /** An empty cluster is a start for every Site. */
  lemma EmptyReferential(id: SiteId)
    ensures Referential(State(map[], map[]), id)
  {
  }
}
