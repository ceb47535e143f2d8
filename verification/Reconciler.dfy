/**
 * Reconcile as the source runs it: early exits, retry loops and a deferred status write over API calls. Each
 * call is one event of the step machine, so a whole Reconcile is one thread of a run of the machine.
 */
module Reconciler {
  import opened Wrappers
  import opened SiteTypes
  import opened Environment
  import opened NginxConfig
  import opened Checksum
  import opened Status
  import opened Objects
  import Machine
  import Schedule
  import opened Drafts

  type State = Machine.State
  type Thread = Machine.Thread
  type Event = Machine.Event
  type Input = Machine.Input

  // ---- Runs in which one thread is ours ----

  /** The event is not one of thread tid. */
  predicate ByOthers(e: Event, tid: nat) {
    !(e.Call? && e.tid == tid) && !(e.Start? && e.tid == tid)
  }

  lemma {:induction false} OthersKeepThread(s: State, events: seq<Event>, tid: nat)
    requires tid in s.threads && forall i :: 0 <= i < |events| ==> ByOthers(events[i], tid)
    ensures tid in Machine.Run(s, events).threads && Machine.Run(s, events).threads[tid] == s.threads[tid]
  {
    if events == [] {
    } else {
      OthersKeepThread(s, events[..|events| - 1], tid);
    }
  }

  /** The events are a start of thread tid and then its calls only. */
  predicate OnlyOurs(trace: seq<Event>, tid: nat) {
    forall i :: 1 <= i < |trace| ==> trace[i].Call? && trace[i].tid == tid
  }

  /** A reconcile that nobody disturbs is the machine's thread running alone. */
  lemma {:induction false} UndisturbedIsSolo(s: State, trace: seq<Event>, tid: nat)
    requires trace != [] && trace[0].Start? && trace[0].tid == tid && OnlyOurs(trace, tid)
    ensures var begin := Machine.Fetching(trace[0].id, trace[0].cfg, trace[0].draw);
            var r, alone := Machine.Run(s, trace), Machine.Solo(s.world, begin, Schedule.Inputs(trace, tid));
            tid in r.threads && r.world == alone.0 && r.threads[tid] == alone.1
  {
    var before, last := trace[..|trace| - 1], trace[|trace| - 1];
    if |trace| == 1 {
      assert Machine.Run(s, before) == s && Schedule.Inputs(before, tid) == [];
    } else {
      UndisturbedIsSolo(s, before, tid);
      var begin := Machine.Fetching(trace[0].id, trace[0].cfg, trace[0].draw);
      Schedule.SoloMore(s.world, begin, Schedule.Inputs(before, tid), last.input);
    }
  }

  // ---- What a thread makes of the replies to its calls ----

  /** The key a reading thread is about to read. */
  predicate Awaits(t: Thread, key: Key) {
    match t
    case Fetching(id, _, _) => key == SiteKey(id)
    case Working(job, pc, io, _) => pc < PARTS && io.Reading? && key == KeyOf(job.site.id, PartAt(pc))
    case Reporting(id, _, sio, _) =>
      (sio.ReadSite? && key == SiteKey(id)) || (sio.ReadDeployment? && key == KeyOf(id, DeploymentPart))
    case Finished(_, _) => false
  }

  /** Where a read leaves the thread, given the version and object, or the error, that came back. */
  function Answered(t: Thread, version: nat, x: Option<Object>, error: Option<Error>, now: int): Thread {
    match t
    case Fetching(id, cfg, draw) =>
      if error.Some? then Machine.Finished(id, error)
      else if x.Some? && x.value.body.SiteBody? then Machine.Goto(Job(Site(id, x.value.body.spec), cfg, draw), 0)
      else Machine.Finished(id, None)
    case Working(job, pc, _, tries) =>
      if pc >= PARTS then t
      else if error.Some? then Machine.Report(job.site.id, error)
      else Machine.AfterRead(x, job, pc, tries, version)
    case Reporting(id, outcome, ReadSite, tries) =>
      if error.Some? then Machine.Finished(id, Machine.Join(outcome, error))
      else if x.Some? && x.value.body.SiteBody? then
        Machine.Reporting(id, outcome, Machine.ReadDeployment(version, x.value.body), tries)
      else Machine.Finished(id, outcome)
    case Reporting(id, outcome, ReadDeployment(v, body), tries) =>
      var verdict := Machine.Verdicts(if error.None? then x else None, outcome);
      var conditions := if body.SiteBody? then Applied(body.conditions, body.generation, verdict, now) else [];
      Machine.Reporting(id, outcome, Machine.WriteStatus(v, conditions), tries)
    case _ => t
  }

  function Failed(fault: Machine.Fault): Option<Error> {
    if fault.NoFault? then None else Some(Transport(fault.text))
  }

  lemma StepAnswers(w: Machine.World, t: Thread, inp: Input, key: Key)
    requires Awaits(t, key)
    ensures var c := Machine.CellOf(w, key);
            var v := Machine.Observed(c, inp.lag);
            Machine.Step(w, t, inp)
            == (w, Answered(t, v, if inp.fault.NoFault? then c[v] else None, Failed(inp.fault), inp.now))
  {
  }

  lemma StepWrites(w: Machine.World, t: Thread, inp: Input)
    requires t.Working? && t.pc < PARTS && t.io.Writing?
    ensures var c := Machine.CellOf(w, KeyOf(t.job.site.id, PartAt(t.pc)));
            var r := if t.io.create then Machine.CreateCell(c, t.io.draft) else Machine.UpdateCell(c, t.io.version, t.io.draft);
            Machine.Step(w, t, inp).1 == Machine.AfterWrite(t.job, t.pc, t.tries, Machine.Seen(inp.fault, r.1))
  {
  }

  function IgnoreNotFound(error: Option<Error>): Option<Error> {
    if error == Some(NotFound) then None else error
  }

  lemma StepDeletes(w: Machine.World, t: Thread, inp: Input)
    requires t.Working? && t.pc < PARTS && t.io.Deleting?
    ensures var r := Machine.DeleteCell(Machine.CellOf(w, KeyOf(t.job.site.id, PartAt(t.pc))));
            Machine.Step(w, t, inp).1
            == Machine.AfterWrite(t.job, t.pc, t.tries, IgnoreNotFound(Machine.Seen(inp.fault, r.1)))
  {
  }

  lemma StepReports(w: Machine.World, t: Thread, inp: Input)
    requires t.Reporting? && t.sio.WriteStatus?
    ensures var r := Machine.StatusCell(Machine.CellOf(w, SiteKey(t.id)), t.sio.version, t.sio.conditions);
            Machine.Step(w, t, inp).1 == Machine.AfterStatus(t.id, t.outcome, t.tries, Machine.Seen(inp.fault, r.1))
  {
  }

  /** Only a conflict is ever tried again. */
  lemma GivesUp(job: Job, pc: nat, tries: nat, e: Error)
    requires pc < PARTS && e != Conflict
    ensures Machine.AfterWrite(job, pc, tries, Some(e)) == Machine.Report(job.site.id, Some(e))
  {
  }

  lemma SkipsProvision(job: Job)
    requires !ProvisionEnabled(job.site.spec)
    ensures Machine.Goto(job, 1) == Machine.Goto(job, 4)
  {
    assert Machine.Goto(job, 1) == Machine.Goto(job, 2) == Machine.Goto(job, 3) == Machine.Goto(job, 4);
  }

  /** The part is one to create or update, with retries, by what this closure makes of it. */
  ghost predicate Treats(f: Closure, job: Job, pc: nat) {
    pc < PARTS && OpFor(job, PartAt(pc)) == Upsert(RETRIES) && Captures(f, job, PartAt(pc))
  }

  lemma TreatsStarts(f: Closure, job: Job, pc: nat)
    requires Treats(f, job, pc)
    ensures Machine.Goto(job, pc) == Machine.Working(job, pc, Machine.Reading, 0)
  {
  }

  lemma TreatsMariaDB(job: Job, ref: MariaDBRef, username: string)
    requires ProvisionEnabled(job.site.spec) && ResolveMariaDBRef(job).Some?
    requires ref == ObjectRef(job) && username == ProvisionedUsername(job.site.id)
    ensures Treats(ForDatabase(ref), job, 1) && Treats(ForUser(ref, username), job, 2) && Treats(ForGrant(ref, username), job, 3)
  {
  }

  lemma TreatsConfigMaps(job: Job)
    ensures Treats(ForConfigMap(NginxPart, "default.conf", NginxContent(job.site.spec)), job, 4)
    ensures Treats(ForConfigMap(PhpPart, PHP_INI, PhpIniContent(job.site.spec)), job, 5)
  {
  }

  lemma TreatsDeployment(job: Job, configHash: Digest)
    requires configHash == Sha256(Frame([NginxContent(job.site.spec), PhpIniContent(job.site.spec)]))
    ensures Treats(ForDeployment(Labels(job.site.id), PhpEnvs(job.site), configHash), job, 6)
  {
  }

  lemma TreatsNetwork(job: Job)
    ensures Treats(ForService(Labels(job.site.id)), job, 7)
    ensures IngressOn(job.site.spec) ==> Treats(ForIngress(Labels(job.site.id)), job, 8)
    ensures OwnClaim(job.site.spec) ==> Treats(ForClaim(ClaimSize(job.site.spec), WantedStorageClass(job)), job, 9)
  {
  }

  class SiteReconciler {
    const defaults: OperatorConfig
    const tid: nat                            // this worker among the cluster's threads
    const script: nat -> Input                // what befalls its n-th API call
    const meanwhile: nat -> seq<Event>        // what everyone else does before that call
    var cluster: State
    var calls: nat
    var clock: int
    ghost var origin: State                   // the cluster when the present reconcile began
    ghost var first: Event                    // and the event that began it
    ghost var trace: seq<Event>               // all that has happened since

    constructor (defaults: OperatorConfig, tid: nat, script: nat -> Input, meanwhile: nat -> seq<Event>, cluster: State)
      ensures this.defaults == defaults && this.tid == tid && this.script == script && this.meanwhile == meanwhile
      ensures this.cluster == cluster && calls == 0
    {
      this.defaults, this.tid, this.script, this.meanwhile := defaults, tid, script, meanwhile;
      this.cluster, calls, clock := cluster, 0, 0;
      origin, first, trace := cluster, Machine.Start(tid, SiteId("", ""), defaults, (k: string) => ""), [];
    }

    ghost predicate Valid()
      reads this
    {
      && tid in cluster.threads && cluster == Machine.Run(origin, trace)
      && trace != [] && trace[0] == first
      && (forall i :: 1 <= i < |trace| ==> ByOthers(trace[i], tid) || trace[i].Call?)
      && (forall n, i :: 0 <= i < |meanwhile(n)| ==> ByOthers(meanwhile(n)[i], tid))
      && ((forall n :: |meanwhile(n)| == 0) ==> OnlyOurs(trace, tid))
    }

    ghost function Own(): Thread
      reads this
      requires tid in cluster.threads
    {
      cluster.threads[tid]
    }

    /** The worker goes on with a part, or is about to report an error. */
    ghost predicate Stands(job: Job, pc: nat, error: Option<Error>)
      reads this
      requires tid in cluster.threads
    {
      Own() == if error.None? then Machine.Goto(job, pc) else Machine.Report(job.site.id, error)
    }

    // ---- The API client ----

    /** Everyone else goes on until the next call. */
    method Wait()
      requires Valid()
      modifies this`cluster, this`trace
      ensures Valid() && Own() == old(Own())
    {
      OthersKeepThread(cluster, meanwhile(calls), tid);
      Machine.RunJoin(origin, trace, meanwhile(calls));
      cluster := Machine.Run(cluster, meanwhile(calls));
      trace := trace + meanwhile(calls);
    }

    /** One call of this worker reaches the server. */
    method Advance(inp: Input)
      requires Valid()
      modifies this`cluster, this`trace, this`calls, this`clock
      ensures Valid() && Own() == Machine.Step(old(cluster.world), old(Own()), inp).1 && clock == inp.now
    {
      var e := Machine.Call(tid, inp);
      assert (trace + [e])[..|trace|] == trace;
      cluster := Machine.Next(cluster, e);
      trace := trace + [e];
      calls := calls + 1;
      clock := inp.now;
    }

    method Get(key: Key) returns (version: nat, x: Option<Object>, error: Option<Error>)
      requires Valid() && Awaits(Own(), key)
      modifies this`cluster, this`trace, this`calls, this`clock
      ensures Valid() && Own() == Answered(old(Own()), version, x, error, clock)
      ensures error.Some? ==> error.value.Transport? && x.None?
    {
      Wait();
      var inp := script(calls);
      var c := Machine.CellOf(cluster.world, key);
      version := Machine.Observed(c, inp.lag);
      x := if inp.fault.NoFault? then c[version] else None;
      error := Failed(inp.fault);
      StepAnswers(cluster.world, Own(), inp, key);
      Advance(inp);
    }

    method Create(key: Key, o: Object) returns (error: Option<Error>)
      requires Valid() && Own().Working? && Own().pc < PARTS && key == KeyOf(Own().job.site.id, PartAt(Own().pc))
      requires Own().io.Writing? && Own().io.create && Own().io.draft == o
      modifies this`cluster, this`trace, this`calls, this`clock
      ensures Valid() && Own() == Machine.AfterWrite(old(Own().job), old(Own().pc), old(Own().tries), error)
    {
      Wait();
      var inp := script(calls);
      error := Machine.Seen(inp.fault, Machine.CreateCell(Machine.CellOf(cluster.world, key), o).1);
      StepWrites(cluster.world, Own(), inp);
      Advance(inp);
    }

    method Update(key: Key, version: nat, o: Object) returns (error: Option<Error>)
      requires Valid() && Own().Working? && Own().pc < PARTS && key == KeyOf(Own().job.site.id, PartAt(Own().pc))
      requires Own().io == Machine.Writing(version, false, o)
      modifies this`cluster, this`trace, this`calls, this`clock
      ensures Valid() && Own() == Machine.AfterWrite(old(Own().job), old(Own().pc), old(Own().tries), error)
    {
      Wait();
      var inp := script(calls);
      error := Machine.Seen(inp.fault, Machine.UpdateCell(Machine.CellOf(cluster.world, key), version, o).1);
      StepWrites(cluster.world, Own(), inp);
      Advance(inp);
    }

    method Delete(key: Key) returns (error: Option<Error>)
      requires Valid() && Own().Working? && Own().pc < PARTS && key == KeyOf(Own().job.site.id, PartAt(Own().pc))
      requires Own().io.Deleting?
      modifies this`cluster, this`trace, this`calls, this`clock
      ensures Valid()
      ensures Own() == Machine.AfterWrite(old(Own().job), old(Own().pc), old(Own().tries), IgnoreNotFound(error))
    {
      Wait();
      var inp := script(calls);
      error := Machine.Seen(inp.fault, Machine.DeleteCell(Machine.CellOf(cluster.world, key)).1);
      StepDeletes(cluster.world, Own(), inp);
      Advance(inp);
    }

    method StatusUpdate(id: SiteId, version: nat, conditions: seq<Condition>) returns (error: Option<Error>)
      requires Valid() && Own().Reporting? && Own().id == id && Own().sio == Machine.WriteStatus(version, conditions)
      modifies this`cluster, this`trace, this`calls, this`clock
      ensures Valid() && Own() == Machine.AfterStatus(id, old(Own().outcome), old(Own().tries), error)
    {
      Wait();
      var inp := script(calls);
      error := Machine.Seen(inp.fault, Machine.StatusCell(Machine.CellOf(cluster.world, SiteKey(id)), version, conditions).1);
      StepReports(cluster.world, Own(), inp);
      Advance(inp);
    }

    // ---- Helpers of the client libraries ----

    /** Get; mutate in memory; then create, update, or leave alone what already equals the result. */
    method CreateOrUpdate(f: Closure, job: Job, pc: nat, ghost tries: nat) returns (error: Option<Error>)
      requires Valid() && pc < PARTS && Own() == Machine.Working(job, pc, Machine.Reading, tries)
      requires OpFor(job, PartAt(pc)).Upsert? && Captures(f, job, PartAt(pc))
      modifies this`cluster, this`trace, this`calls, this`clock
      ensures Valid() && Own() == Machine.AfterWrite(job, pc, tries, error)
    {
      var part := PartAt(pc);
      var key := KeyOf(job.site.id, part);
      var version, x, getError := Get(key);
      if getError.Some? {
        GivesUp(job, pc, tries, getError.value);
        return getError;
      }
      var draft := new Draft(x, part);
      error := draft.Mutate(f, job, part, x);
      if error.Some? {
        GivesUp(job, pc, tries, error.value);
        return error;
      }
      var o := Object(draft.controller, draft.defaulted, draft.body);
      if x.None? {
        error := Create(key, o);
      } else if x == Some(o) {
        return None;
      } else {
        error := Update(key, version, o);
      }
    }

    /** Start over on a conflict, a bounded number of times. */
    method RetryOnConflict(f: Closure, job: Job, pc: nat) returns (error: Option<Error>)
      requires Valid() && Own() == Machine.Goto(job, pc) && Treats(f, job, pc)
      modifies this`cluster, this`trace, this`calls, this`clock
      ensures Valid() && Stands(job, pc + 1, error)
    {
      var tries := 0;
      TreatsStarts(f, job, pc);
      while true
        invariant Valid() && tries < RETRIES && Own() == Machine.Working(job, pc, Machine.Reading, tries)
        decreases RETRIES - tries
      {
        error := CreateOrUpdate(f, job, pc, tries);
        if error != Some(Conflict) || tries + 1 == RETRIES {
          return;
        }
        tries := tries + 1;
      }
    }

    /** Get, and delete what this Site controls. */
    method DeleteOwned(job: Job, pc: nat) returns (error: Option<Error>)
      requires Valid() && pc < PARTS && Own() == Machine.Working(job, pc, Machine.Reading, 0) && OpFor(job, PartAt(pc)).DeleteOwned?
      modifies this`cluster, this`trace, this`calls, this`clock
      ensures Valid() && Stands(job, pc + 1, error)
    {
      var key := KeyOf(job.site.id, PartAt(pc));
      var version, x, getError := Get(key);
      if getError.Some? {
        return getError;
      }
      if !ControlledBy(x, job.site.id) {
        return None;
      }
      error := Delete(key);
      error := IgnoreNotFound(error);
    }

    // ---- The ten objects ----

    method ReconcileSecret(job: Job) returns (error: Option<Error>)
      requires Valid() && Own() == Machine.Goto(job, 0)
      modifies this`cluster, this`trace, this`calls, this`clock
      ensures Valid() && Stands(job, 1, error)
    {
      error := CreateOrUpdate(ForSecret, job, 0, 0);
    }

    method ReconcileDatabaseProvision(job: Job) returns (error: Option<Error>)
      requires Valid() && Own() == Machine.Goto(job, 1)
      modifies this`cluster, this`trace, this`calls, this`clock
      ensures Valid() && Stands(job, 4, error)
    {
      if !ProvisionEnabled(job.site.spec) {
        SkipsProvision(job);
        return None;
      }
      var cluster := ResolveMariaDBRef(job);
      if cluster.None? {
        return Some(NoCluster);
      }
      var ref := MariaDBRef(cluster.value.name, cluster.value.namespace, true);
      error := ProvisionWith(job, ref, ProvisionedUsername(job.site.id));
    }

    method ProvisionWith(job: Job, ref: MariaDBRef, username: string) returns (error: Option<Error>)
      requires ProvisionEnabled(job.site.spec) && ResolveMariaDBRef(job).Some?
      requires ref == ObjectRef(job) && username == ProvisionedUsername(job.site.id)
      requires Valid() && Own() == Machine.Goto(job, 1)
      modifies this`cluster, this`trace, this`calls, this`clock
      ensures Valid() && Stands(job, 4, error)
    {
      TreatsMariaDB(job, ref, username);
      error := RetryOnConflict(ForDatabase(ref), job, 1);
      if error.Some? {
        return;
      }
      error := RetryOnConflict(ForUser(ref, username), job, 2);
      if error.Some? {
        return;
      }
      error := RetryOnConflict(ForGrant(ref, username), job, 3);
    }

    method ReconcileDeployment(job: Job, labels: map<string, string>, envs: seq<EnvVar>) returns (error: Option<Error>)
      requires Valid() && Own() == Machine.Goto(job, 4) && labels == Labels(job.site.id) && envs == PhpEnvs(job.site)
      modifies this`cluster, this`trace, this`calls, this`clock
      ensures Valid() && Stands(job, 7, error)
    {
      var nginxContent := BuildNginxConfigContent(job.site.spec);
      var phpIniContent := PhpIniContent(job.site.spec);
      TreatsConfigMaps(job);
      error := ReconcileConfigMaps(job, nginxContent, phpIniContent);
      if error.Some? {
        return;
      }
      var configHash := ConfigChecksum([nginxContent, phpIniContent]);
      TreatsDeployment(job, configHash);
      error := RetryOnConflict(ForDeployment(labels, envs, configHash), job, 6);
    }

    method ReconcileConfigMaps(job: Job, nginxContent: string, phpIniContent: string) returns (error: Option<Error>)
      requires Valid() && Own() == Machine.Goto(job, 4)
      requires Treats(ForConfigMap(NginxPart, "default.conf", nginxContent), job, 4)
      requires Treats(ForConfigMap(PhpPart, PHP_INI, phpIniContent), job, 5)
      modifies this`cluster, this`trace, this`calls, this`clock
      ensures Valid() && Stands(job, 6, error)
    {
      error := RetryOnConflict(ForConfigMap(NginxPart, "default.conf", nginxContent), job, 4);
      if error.Some? {
        return;
      }
      error := RetryOnConflict(ForConfigMap(PhpPart, PHP_INI, phpIniContent), job, 5);
    }

    method ReconcileService(job: Job, labels: map<string, string>) returns (error: Option<Error>)
      requires Valid() && Own() == Machine.Goto(job, 7) && labels == Labels(job.site.id)
      modifies this`cluster, this`trace, this`calls, this`clock
      ensures Valid() && Stands(job, 8, error)
    {
      TreatsNetwork(job);
      error := RetryOnConflict(ForService(labels), job, 7);
    }

    method ReconcileIngress(job: Job, labels: map<string, string>) returns (error: Option<Error>)
      requires Valid() && Own() == Machine.Goto(job, 8) && labels == Labels(job.site.id)
      modifies this`cluster, this`trace, this`calls, this`clock
      ensures Valid() && Stands(job, 9, error)
    {
      var ingress := job.site.spec.ingress;
      if ingress.None? || !ingress.value.enabled {
        error := DeleteOwned(job, 8);
      } else {
        TreatsNetwork(job);
        error := RetryOnConflict(ForIngress(labels), job, 8);
      }
    }

    method ReconcilePVC(job: Job) returns (error: Option<Error>)
      requires Valid() && Own() == Machine.Goto(job, 9)
      modifies this`cluster, this`trace, this`calls, this`clock
      ensures Valid() && Own() == Machine.Report(job.site.id, error)
    {
      var persistence := job.site.spec.persistence;
      if persistence.None? || !persistence.value.enabled {
        error := DeleteOwned(job, 9);
        return;
      }
      if persistence.value.existingClaim != "" {
        error := DeleteOwned(job, 9);
        return;
      }
      var size := persistence.value.size;
      if size == "" {
        size := "1Gi";
      }
      var storageClassName := persistence.value.storageClassName;
      if storageClassName.None? && job.cfg.defaultStorageClassName != "" {
        storageClassName := Some(job.cfg.defaultStorageClassName);
      }
      TreatsNetwork(job);
      error := RetryOnConflict(ForClaim(size, storageClassName), job, 9);
    }

    // ---- Status ----

    /** Re-read the Site, set its conditions and write them back, starting over on a conflict. */
    method UpdateSiteStatus(id: SiteId, reconcileErr: Option<Error>) returns (statusErr: Option<Error>)
      requires Valid() && Own() == Machine.Report(id, reconcileErr)
      modifies this`cluster, this`trace, this`calls, this`clock
      ensures Valid() && Own() == Machine.Finished(id, Machine.Join(reconcileErr, statusErr))
    {
      var tries := 0;
      while true
        invariant Valid() && tries < RETRIES && Own() == Machine.Reporting(id, reconcileErr, Machine.ReadSite, tries)
        decreases RETRIES - tries
      {
        statusErr := UpdateStatusOnce(id, reconcileErr, tries);
        if statusErr != Some(Conflict) || tries + 1 == RETRIES {
          return;
        }
        tries := tries + 1;
      }
    }

    method UpdateStatusOnce(id: SiteId, reconcileErr: Option<Error>, ghost tries: nat) returns (error: Option<Error>)
      requires Valid() && Own() == Machine.Reporting(id, reconcileErr, Machine.ReadSite, tries)
      modifies this`cluster, this`trace, this`calls, this`clock
      ensures Valid() && Own() == Machine.AfterStatus(id, reconcileErr, tries, error)
    {
      var version, current, getError := Get(SiteKey(id));
      if getError.Some? {
        return getError;
      }
      if current.None? || !current.value.body.SiteBody? {
        return None;
      }
      var body := current.value.body;
      var _, deploy, deployErr := Get(KeyOf(id, DeploymentPart));
      var conditions := new ConditionList(body.conditions);
      var message := if reconcileErr.Some? then Some(Message(reconcileErr.value)) else None;
      conditions.SetSiteConditions(body.generation, Machine.View(deploy), message, clock);
      error := StatusUpdate(id, version, conditions.items);
    }

    // ---- Reconcile ----

    method ReconcileParts(job: Job) returns (reconcileErr: Option<Error>)
      requires Valid() && Own() == Machine.Goto(job, 0)
      modifies this`cluster, this`trace, this`calls, this`clock
      ensures Valid() && Own() == Machine.Report(job.site.id, reconcileErr)
    {
      var labels := map["app" := job.site.id.name];
      reconcileErr := ReconcileSecret(job);
      if reconcileErr.Some? {
        return;
      }
      reconcileErr := ReconcileDatabaseProvision(job);
      if reconcileErr.Some? {
        return;
      }
      var wpEnvs := BuildWPEnvs(job.site);
      var databaseEnvs := BuildDatabaseEnvs(job.site);
      reconcileErr := ReconcileDeployment(job, labels, wpEnvs + databaseEnvs);
      if reconcileErr.Some? {
        return;
      }
      reconcileErr := ReconcileService(job, labels);
      if reconcileErr.Some? {
        return;
      }
      reconcileErr := ReconcileIngress(job, labels);
      if reconcileErr.Some? {
        return;
      }
      reconcileErr := ReconcilePVC(job);
    }

    /** The worker takes up a request for a Site: an event of the machine too. */
    method Begin(id: SiteId, draw: string -> string)
      requires forall n, i :: 0 <= i < |meanwhile(n)| ==> ByOthers(meanwhile(n)[i], tid)
      modifies this`cluster, this`origin, this`first, this`trace
      ensures Valid() && Own() == Machine.Fetching(id, defaults, draw)
      ensures origin == old(cluster) && first == Machine.Start(tid, id, defaults, draw)
    {
      var e := Machine.Start(tid, id, defaults, draw);
      origin, first, trace := cluster, e, [e];
      cluster := Machine.Next(cluster, e);
      assert trace[..0] == [];
    }

    /**
     * The whole of Reconcile is one thread of the step machine, from its start to its end, in a run in which
     * everyone else does as they like between its calls. So whatever holds of all runs holds of it.
     */
    method Reconcile(id: SiteId, draw: string -> string) returns (reconcileErr: Option<Error>)
      requires forall n, i :: 0 <= i < |meanwhile(n)| ==> ByOthers(meanwhile(n)[i], tid)
      modifies this
      ensures cluster == Machine.Run(old(cluster), trace) && trace != []
      ensures trace[0] == Machine.Start(tid, id, defaults, draw)
      ensures forall i :: 1 <= i < |trace| ==> ByOthers(trace[i], tid) || trace[i].Call?
      ensures (forall n :: |meanwhile(n)| == 0) ==> OnlyOurs(trace, tid)
      ensures tid in cluster.threads && cluster.threads[tid] == Machine.Finished(id, reconcileErr)
    {
      Begin(id, draw);
      var _, site, getError := Get(SiteKey(id));
      if getError.Some? {
        return getError;
      }
      if site.None? || !site.value.body.SiteBody? {
        return None;
      }
      reconcileErr := ReconcileParts(Job(Site(id, site.value.body.spec), defaults, draw));
      var statusErr := UpdateSiteStatus(id, reconcileErr);
      if statusErr.Some? && reconcileErr.None? {
        reconcileErr := statusErr;
      }
    }
  }
}
