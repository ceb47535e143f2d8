/**
 * The reconciler as a step machine. The store keeps, per key, the whole history of an object; its length is the
 * resource version and an older entry is what a lagging cache may return. One step is one API call.
 */
module Machine {
  import opened Wrappers
  import opened SiteTypes
  import opened Status
  import opened Objects

  type Cell = c: seq<Option<Object>> | |c| > 0 witness [None]

  type World = map<Key, Cell>

  function CellOf(w: World, k: Key): Cell {
    if k in w then w[k] else [None]
  }

  function Now(c: Cell): Option<Object> {
    c[|c| - 1]
  }

  function Current(w: World, k: Key): Option<Object> {
    Now(CellOf(w, k))
  }

  function Put(w: World, k: Key, c: Cell): World {
    if c == CellOf(w, k) then w else w[k := c]
  }

  // ---- The API server, on one cell ----

  /** What the server stores for a write: defaults filled in, a Deployment's revision counted, its status kept. */
  function Admit(prior: Option<Object>, o: Object): Object {
    var body :=
      if o.body.DeploymentBody? then
        if prior.Some? && prior.value.body.DeploymentBody? then
          var was := prior.value.body;
          o.body.(revision := if o.body.deployment == was.deployment then was.revision else was.revision + 1,
                  status := was.status)
        else o.body.(revision := 1, status := NO_STATUS)
      else o.body;
    o.(defaulted := true, body := body)
  }

  /** Store a new state, unless it is the present one: an identical update makes no new version. */
  function Store(c: Cell, x: Option<Object>): Cell {
    if Now(c) == x then c else c + [x]
  }

  function CreateCell(c: Cell, o: Object): (Cell, Option<Error>) {
    if Now(c).Some? then (c, Some(AlreadyExists)) else (c + [Some(Admit(None, o))], None)
  }

  function UpdateCell(c: Cell, version: nat, o: Object): (Cell, Option<Error>) {
    if Now(c).None? then (c, Some(NotFound))
    else if version != |c| - 1 then (c, Some(Conflict))
    else (Store(c, Some(Admit(Now(c), o))), None)
  }

  /** Delete carries no precondition. */
  function DeleteCell(c: Cell): (Cell, Option<Error>) {
    if Now(c).None? then (c, Some(NotFound)) else (c + [None], None)
  }

  function StatusCell(c: Cell, version: nat, conditions: seq<Condition>): (Cell, Option<Error>) {
    if Now(c).None? || !Now(c).value.body.SiteBody? then (c, Some(NotFound))
    else if version != |c| - 1 then (c, Some(Conflict))
    else (Store(c, Some(Now(c).value.(body := Now(c).value.body.(conditions := conditions)))), None)
  }

  // ---- Threads ----

  datatype Io = Reading | Writing(version: nat, create: bool, draft: Object) | Deleting(version: nat)

  datatype StatusIo =
    | ReadSite
    | ReadDeployment(version: nat, site: Body)
    | WriteStatus(version: nat, conditions: seq<Condition>)

  /** One run of Reconcile. */
  datatype Thread =
    | Fetching(id: SiteId, cfg: OperatorConfig, draw: string -> string)
    | Working(job: Job, pc: nat, io: Io, tries: nat)
    | Reporting(id: SiteId, outcome: Option<Error>, sio: StatusIo, tries: nat)
    | Finished(id: SiteId, outcome: Option<Error>)
  {
    function Id(): SiteId {
      if Working? then job.site.id else id
    }
  }

  /** What befalls one API call: it may get lost, or take effect and still look failed. */
  datatype Fault = NoFault | Lost(text: string) | Unanswered(text: string)

  /** A call's fault, how many versions its read lags behind, and the clock. */
  datatype Input = Input(fault: Fault, lag: nat, now: int)

  /** A call that goes well. */
  const OK := Input(NoFault, 0, 0)

  predicate Fresh(inp: Input) {
    inp.lag == 0
  }

  predicate Clean(inp: Input) {
    inp.fault == NoFault && inp.lag == 0
  }

  function Observed(c: Cell, lag: nat): nat
    ensures Observed(c, lag) < |c|
    ensures lag == 0 ==> Observed(c, lag) == |c| - 1
  {
    if lag < |c| then |c| - 1 - lag else 0
  }

  function Report(id: SiteId, outcome: Option<Error>): Thread {
    Reporting(id, outcome, ReadSite, 0)
  }

  /** Go on with part pc: skip what the spec does not ask for, refuse, or start the next read. */
  function Goto(job: Job, pc: nat): Thread
    decreases PARTS - pc, job
  {
    if pc >= PARTS then Report(job.site.id, None)
    else
      match OpFor(job, PartAt(pc))
      case Skip => Goto(job, pc + 1)
      case Refuse(e) => Report(job.site.id, Some(e))
      case _ => Working(job, pc, Reading, 0)
  }

  /** After a write or delete: go on, try again on a conflict while attempts last, or give up. */
  function AfterWrite(job: Job, pc: nat, tries: nat, reply: Option<Error>): Thread
    requires pc < PARTS
  {
    if reply.None? then Goto(job, pc + 1)
    else
      match OpFor(job, PartAt(pc))
      case Upsert(attempts) =>
        if reply == Some(Conflict) && tries + 1 < attempts then Working(job, pc, Reading, tries + 1)
        else Report(job.site.id, reply)
      case _ => Report(job.site.id, reply)
  }

  /** The client sees the server's reply, or an error of the transport. */
  function Seen(fault: Fault, reply: Option<Error>): Option<Error> {
    if fault.NoFault? then reply else Some(Transport(fault.text))
  }

  /** After a read: nothing to do, a write of what Mutate makes of the object, or a delete of an owned one. */
  function AfterRead(x: Option<Object>, job: Job, pc: nat, tries: nat, version: nat): Thread
    requires pc < PARTS
  {
    match OpFor(job, PartAt(pc))
    case Upsert(_) =>
      (match Mutate(job, PartAt(pc), x)
       case Failure(e) => Report(job.site.id, Some(e))
       case Success(o) =>
         if x == Some(o) then Goto(job, pc + 1) else Working(job, pc, Writing(version, x.None?, o), tries))
    case DeleteOwned =>
      if ControlledBy(x, job.site.id) then Working(job, pc, Deleting(version), tries) else Goto(job, pc + 1)
    case _ => Goto(job, pc + 1)
  }

  /** One API call of a working thread, on the cell of its part. */
  function WorkOn(c: Cell, job: Job, pc: nat, io: Io, tries: nat, inp: Input): (Cell, Thread)
    requires pc < PARTS
  {
    match io
    case Reading =>
      if !inp.fault.NoFault? then (c, Report(job.site.id, Some(Transport(inp.fault.text))))
      else (c, AfterRead(c[Observed(c, inp.lag)], job, pc, tries, Observed(c, inp.lag)))
    case Writing(version, create, o) =>
      var r := if create then CreateCell(c, o) else UpdateCell(c, version, o);
      (if inp.fault.Lost? then c else r.0, AfterWrite(job, pc, tries, Seen(inp.fault, r.1)))
    case Deleting(_) =>
      var r := DeleteCell(c);
      var reply := if r.1 == Some(NotFound) then None else r.1;
      (if inp.fault.Lost? then c else r.0, AfterWrite(job, pc, tries, Seen(inp.fault, reply)))
  }

  /** The reconcile's own error wins over one of the status update. */
  function Join(outcome: Option<Error>, later: Option<Error>): Option<Error> {
    if outcome.Some? then outcome else later
  }

  function View(x: Option<Object>): Option<DeploymentView> {
    if x.Some? && x.value.body.DeploymentBody? then
      Some(DeploymentView(x.value.body.revision, Some(x.value.body.deployment.replicas), x.value.body.status))
    else None
  }

  function Verdicts(deploy: Option<Object>, outcome: Option<Error>): Verdict {
    VerdictOn(View(deploy), if outcome.Some? then Some(Message(outcome.value)) else None)
  }

  function AfterStatus(id: SiteId, outcome: Option<Error>, tries: nat, reply: Option<Error>): Thread {
    if reply == Some(Conflict) && tries + 1 < RETRIES then Reporting(id, outcome, ReadSite, tries + 1)
    else Finished(id, Join(outcome, reply))
  }

  /** One API call of the deferred status update, on the cells of the Site and of its Deployment. */
  function ReportOn(site: Cell, deploy: Cell, id: SiteId, outcome: Option<Error>, sio: StatusIo, tries: nat, inp: Input)
    : (Cell, Thread)
  {
    match sio
    case ReadSite =>
      if !inp.fault.NoFault? then (site, Finished(id, Join(outcome, Some(Transport(inp.fault.text)))))
      else
        var v := Observed(site, inp.lag);
        (site, if site[v].Some? && site[v].value.body.SiteBody?
               then Reporting(id, outcome, ReadDeployment(v, site[v].value.body), tries)
               else Finished(id, outcome))
    case ReadDeployment(v, body) =>
      var seen := if inp.fault.NoFault? then deploy[Observed(deploy, inp.lag)] else None;
      var conditions :=
        if body.SiteBody? then Applied(body.conditions, body.generation, Verdicts(seen, outcome), inp.now) else [];
      (site, Reporting(id, outcome, WriteStatus(v, conditions), tries))
    case WriteStatus(v, conditions) =>
      var r := StatusCell(site, v, conditions);
      (if inp.fault.Lost? then site else r.0, AfterStatus(id, outcome, tries, Seen(inp.fault, r.1)))
  }

  /** Fetching the Site; an error here returns before the status update is deferred. */
  function FetchOn(site: Cell, id: SiteId, cfg: OperatorConfig, draw: string -> string, inp: Input): Thread {
    if !inp.fault.NoFault? then Finished(id, Some(Transport(inp.fault.text)))
    else
      var x := site[Observed(site, inp.lag)];
      if x.Some? && x.value.body.SiteBody? then Goto(Job(Site(id, x.value.body.spec), cfg, draw), 0)
      else Finished(id, None)
  }

  /** One API call of one thread. */
  function Step(w: World, t: Thread, inp: Input): (World, Thread) {
    match t
    case Fetching(id, cfg, draw) => (w, FetchOn(CellOf(w, SiteKey(id)), id, cfg, draw, inp))
    case Working(job, pc, io, tries) =>
      if pc >= PARTS then (w, t)
      else
        var k := KeyOf(job.site.id, PartAt(pc));
        var r := WorkOn(CellOf(w, k), job, pc, io, tries, inp);
        (Put(w, k, r.0), r.1)
    case Reporting(id, outcome, sio, tries) =>
      var r := ReportOn(CellOf(w, SiteKey(id)), CellOf(w, KeyOf(id, DeploymentPart)), id, outcome, sio, tries, inp);
      (Put(w, SiteKey(id), r.0), r.1)
    case Finished(_, _) => (w, t)
  }

  /** A thread running alone. */
  function Solo(w: World, t: Thread, inputs: seq<Input>): (World, Thread) {
    if inputs == [] then (w, t)
    else
      var r := Solo(w, t, inputs[..|inputs| - 1]);
      Step(r.0, r.1, inputs[|inputs| - 1])
  }

  // ---- Many threads and their environment ----

  datatype Event =
    | Call(tid: nat, input: Input)                                                  // a thread makes its next API call
    | Start(tid: nat, id: SiteId, cfg: OperatorConfig, draw: string -> string)      // a manager starts (or restarts) a reconcile
    | Edit(id: SiteId, spec: SiteSpec)                                              // someone creates a Site or changes its spec
    | Annotate(id: SiteId, conditions: seq<Condition>)                              // another writer of the Site's status
    | Rollout(id: SiteId, status: DeploymentStatus)                                 // the Deployment controller
    | Meddle(key: Key, to: Option<Object>)                                          // anything else in the cluster

  datatype State = State(world: World, threads: map<nat, Thread>)

  function EditCell(c: Cell, spec: SiteSpec): Cell {
    match Now(c)
    case Some(Object(owner, d, SiteBody(was, generation, conditions))) =>
      Store(c, Some(Object(owner, d, SiteBody(spec, if spec == was then generation else generation + 1, conditions))))
    case Some(_) => c
    case None => c + [Some(Object(None, true, SiteBody(spec, 1, [])))]
  }

  function AnnotateCell(c: Cell, conditions: seq<Condition>): Cell {
    if Now(c).Some? && Now(c).value.body.SiteBody? then
      Store(c, Some(Now(c).value.(body := Now(c).value.body.(conditions := conditions))))
    else c
  }

  function RolloutCell(c: Cell, status: DeploymentStatus): Cell {
    if Now(c).Some? && Now(c).value.body.DeploymentBody? then
      Store(c, Some(Now(c).value.(body := Now(c).value.body.(status := status))))
    else c
  }

  function Next(s: State, e: Event): State {
    var w := s.world;
    match e
    case Call(tid, input) =>
      if tid !in s.threads then s
      else var r := Step(w, s.threads[tid], input); State(r.0, s.threads[tid := r.1])
    case Start(tid, id, cfg, draw) => s.(threads := s.threads[tid := Fetching(id, cfg, draw)])
    case Edit(id, spec) => s.(world := Put(w, SiteKey(id), EditCell(CellOf(w, SiteKey(id)), spec)))
    case Annotate(id, conditions) =>
      s.(world := Put(w, SiteKey(id), AnnotateCell(CellOf(w, SiteKey(id)), conditions)))
    case Rollout(id, status) =>
      var k := KeyOf(id, DeploymentPart);
      s.(world := Put(w, k, RolloutCell(CellOf(w, k), status)))
    case Meddle(key, to) => s.(world := Put(w, key, Store(CellOf(w, key), to)))
  }

  function Run(s: State, events: seq<Event>): State {
    if events == [] then s
    else Next(Run(s, events[..|events| - 1]), events[|events| - 1])
  }

  lemma {:induction false} RunJoin(s: State, a: seq<Event>, b: seq<Event>)
    ensures Run(s, a + b) == Run(Run(s, a), b)
  {
    if b == [] {
      assert a + b == a;
    } else {
      assert (a + b)[..|a + b| - 1] == a + b[..|b| - 1];
      RunJoin(s, a, b[..|b| - 1]);
    }
  }

  // ---- What every thread in flight knows ----

  /** The conditions about to be written are one update of those read, stamped with the generation read. */
  ghost predicate OneUpdate(read: Body, conditions: seq<Condition>) {
    && read.SiteBody?
    && exists v: Verdict, now: int :: conditions == Applied(read.conditions, read.generation, v, now)
  }

  /** What a thread holds in memory was computed from a version its key really had. */
  ghost predicate Sound(w: World, t: Thread) {
    match t
    case Working(job, pc, io, _) =>
      && pc < PARTS
      && var part := PartAt(pc);
         var c := CellOf(w, KeyOf(job.site.id, part));
         && (OpFor(job, part).Upsert? || OpFor(job, part).DeleteOwned?)
         && (match io
             case Reading => true
             case Writing(version, create, o) =>
               && OpFor(job, part).Upsert? && version < |c|
               && Mutate(job, part, c[version]) == Success(o) && create == c[version].None?
             case Deleting(version) =>
               OpFor(job, part).DeleteOwned? && version < |c| && ControlledBy(c[version], job.site.id))
    case Reporting(id, _, sio, _) =>
      var c := CellOf(w, SiteKey(id));
      (match sio
       case ReadSite => true
       case ReadDeployment(version, body) =>
         version < |c| && c[version].Some? && c[version].value.body == body && body.SiteBody?
       case WriteStatus(version, conditions) =>
         version < |c| && c[version].Some? && OneUpdate(c[version].value.body, conditions))
    case _ => true
  }

  ghost predicate AllSound(s: State) {
    forall tid :: tid in s.threads ==> Sound(s.world, s.threads[tid])
  }

  /** Histories only grow. */
  ghost predicate Grows(w: World, w': World) {
    forall k :: CellOf(w, k) <= CellOf(w', k)
  }

  lemma GotoSound(w: World, job: Job, pc: nat)
    ensures Sound(w, Goto(job, pc))
    ensures Goto(job, pc).Id() == job.site.id
    decreases PARTS - pc
  {
    if pc < PARTS && OpFor(job, PartAt(pc)).Skip? {
      GotoSound(w, job, pc + 1);
    }
  }

  lemma SoundGrows(w: World, w': World, t: Thread)
    requires Sound(w, t) && Grows(w, w')
    ensures Sound(w', t)
  {
    if t.Working? {
      assert CellOf(w, KeyOf(t.job.site.id, PartAt(t.pc))) <= CellOf(w', KeyOf(t.job.site.id, PartAt(t.pc)));
    } else if t.Reporting? {
      assert CellOf(w, SiteKey(t.id)) <= CellOf(w', SiteKey(t.id));
    }
  }

  lemma ReadSound(w: World, job: Job, pc: nat, tries: nat, version: nat)
    requires Sound(w, Working(job, pc, Reading, tries)) && version < |CellOf(w, KeyOf(job.site.id, PartAt(pc)))|
    ensures var t := AfterRead(CellOf(w, KeyOf(job.site.id, PartAt(pc)))[version], job, pc, tries, version);
            Sound(w, t) && t.Id() == job.site.id
  {
    GotoSound(w, job, pc + 1);
  }

  lemma WriteSound(w: World, job: Job, pc: nat, tries: nat, reply: Option<Error>)
    requires pc < PARTS && Sound(w, Working(job, pc, Reading, tries))
    ensures var t := AfterWrite(job, pc, tries, reply); Sound(w, t) && t.Id() == job.site.id
  {
    GotoSound(w, job, pc + 1);
  }

  lemma WorkSound(w: World, job: Job, pc: nat, io: Io, tries: nat, inp: Input)
    requires Sound(w, Working(job, pc, io, tries))
    ensures var k := KeyOf(job.site.id, PartAt(pc));
            var r := WorkOn(CellOf(w, k), job, pc, io, tries, inp);
            CellOf(w, k) <= r.0 && Sound(w, r.1) && r.1.Id() == job.site.id
  {
    var c := CellOf(w, KeyOf(job.site.id, PartAt(pc)));
    match io
    case Reading => ReadSound(w, job, pc, tries, Observed(c, inp.lag));
    case Writing(version, create, o) =>
      var r := if create then CreateCell(c, o) else UpdateCell(c, version, o);
      WriteSound(w, job, pc, tries, Seen(inp.fault, r.1));
    case Deleting(_) =>
      var r := DeleteCell(c);
      WriteSound(w, job, pc, tries, Seen(inp.fault, if r.1 == Some(NotFound) then None else r.1));
  }

  lemma ReportSound(w: World, id: SiteId, outcome: Option<Error>, sio: StatusIo, tries: nat, inp: Input)
    requires Sound(w, Reporting(id, outcome, sio, tries))
    ensures var site := CellOf(w, SiteKey(id));
            var r := ReportOn(site, CellOf(w, KeyOf(id, DeploymentPart)), id, outcome, sio, tries, inp);
            site <= r.0 && Sound(w, r.1) && r.1.Id() == id
  {
  }

  lemma StepSound(w: World, t: Thread, inp: Input)
    requires Sound(w, t)
    ensures var r := Step(w, t, inp); Grows(w, r.0) && Sound(r.0, r.1) && r.1.Id() == t.Id()
  {
    var r := Step(w, t, inp);
    match t
    case Fetching(id, cfg, draw) =>
      var x := CellOf(w, SiteKey(id))[Observed(CellOf(w, SiteKey(id)), inp.lag)];
      if x.Some? && x.value.body.SiteBody? {
        GotoSound(w, Job(Site(id, x.value.body.spec), cfg, draw), 0);
      }
    case Working(job, pc, io, tries) =>
      WorkSound(w, job, pc, io, tries, inp);
      SoundGrows(w, r.0, r.1);
    case Reporting(id, outcome, sio, tries) =>
      ReportSound(w, id, outcome, sio, tries, inp);
      SoundGrows(w, r.0, r.1);
    case Finished(_, _) =>
  }

  /** Every event only appends to histories and leaves all threads sound. */
  lemma NextSound(s: State, e: Event)
    requires AllSound(s)
    ensures Grows(s.world, Next(s, e).world) && AllSound(Next(s, e))
  {
    var s' := Next(s, e);
    if e.Call? && e.tid in s.threads {
      StepSound(s.world, s.threads[e.tid], e.input);
    }
    assert Grows(s.world, s'.world);
    forall tid | tid in s'.threads && tid in s.threads && s'.threads[tid] == s.threads[tid]
      ensures Sound(s'.world, s'.threads[tid])
    {
      SoundGrows(s.world, s'.world, s.threads[tid]);
    }
  }

  lemma {:induction false} RunSound(s: State, events: seq<Event>)
    requires AllSound(s)
    ensures AllSound(Run(s, events)) && Grows(s.world, Run(s, events).world)
  {
    if events == [] {
    } else {
      var mid := Run(s, events[..|events| - 1]);
      RunSound(s, events[..|events| - 1]);
      NextSound(mid, events[|events| - 1]);
      forall k
        ensures CellOf(s.world, k) <= CellOf(Run(s, events).world, k)
      {
        assert CellOf(s.world, k) <= CellOf(mid.world, k) <= CellOf(Run(s, events).world, k);
      }
    }
  }

  /** Goto never goes back. */
  lemma GotoForward(job: Job, pc: nat)
    ensures var t := Goto(job, pc);
            && (t.Reporting? || (t.Working? && t.job == job && pc <= t.pc < PARTS && t.io == Reading))
            && (t.Reporting? ==> t.sio.ReadSite?) && t.tries == 0
    decreases PARTS - pc
  {
    if pc < PARTS && OpFor(job, PartAt(pc)).Skip? {
      GotoForward(job, pc + 1);
    }
  }

  /** The cell after a successful write of what Mutate makes of its present state. */
  function Written(c: Cell, job: Job, part: Part): Cell
    requires Mutate(job, part, Now(c)).Success?
  {
    c + [Some(Admit(Now(c), Mutate(job, part, Now(c)).value))]
  }

  /**
   * Whatever a sound thread read, and whenever, a write that takes effect is the mutation of the object's
   * present state: that is what the version check buys. Only an owned object is ever asked to be deleted.
   */
  lemma WorkEffect(w: World, job: Job, pc: nat, io: Io, tries: nat, inp: Input)
    requires Sound(w, Working(job, pc, io, tries))
    ensures var part := PartAt(pc);
            var c := CellOf(w, KeyOf(job.site.id, part));
            var c' := WorkOn(c, job, pc, io, tries, inp).0;
            || c' == c
            || (io.Writing? && OpFor(job, part).Upsert? && Mutate(job, part, Now(c)).Success? && c' == Written(c, job, part))
            || (io.Deleting? && OpFor(job, part).DeleteOwned? && Now(c).Some? && c' == c + [None])
  {
  }

  /** A call changes no cell but the one its thread is working on. */
  lemma StepFrame(w: World, t: Thread, inp: Input, k: Key)
    requires t.Working? && t.pc < PARTS ==> k != KeyOf(t.job.site.id, PartAt(t.pc))
    requires t.Reporting? ==> k != SiteKey(t.id)
    ensures CellOf(Step(w, t, inp).0, k) == CellOf(w, k)
  {
  }

  /** A call changes no object of another Site, and no other part of its own. */
  lemma StepSpares(w: World, t: Thread, inp: Input, id: SiteId, part: Part)
    requires !(t.Working? && t.pc < PARTS && t.job.site.id == id && PartAt(t.pc) == part)
    ensures CellOf(Step(w, t, inp).0, KeyOf(id, part)) == CellOf(w, KeyOf(id, part))
  {
    if t.Working? && t.pc < PARTS {
      KeysApart(t.job.site.id, PartAt(t.pc), id, part);
    } else if t.Reporting? {
      KeysApart(id, part, t.id, part);
    }
    StepFrame(w, t, inp, KeyOf(id, part));
  }

  /** What a call does to a Site object: at most a new list of conditions on its present state. */
  lemma StepOnSite(w: World, t: Thread, inp: Input, id: SiteId)
    requires Sound(w, t)
    ensures var c, c' := CellOf(w, SiteKey(id)), CellOf(Step(w, t, inp).0, SiteKey(id));
            || c' == c
            || (&& t.Reporting? && t.id == id && t.sio.WriteStatus? && !inp.fault.Lost?
                && Now(c).Some? && OneUpdate(Now(c).value.body, t.sio.conditions)
                && c' == c + [Some(Now(c).value.(body := Now(c).value.body.(conditions := t.sio.conditions)))])
  {
    if t.Working? {
      KeysApart(t.job.site.id, PartAt(t.pc), id, PartAt(t.pc));
      StepFrame(w, t, inp, SiteKey(id));
    } else if t.Reporting? && t.id != id {
      StepFrame(w, t, inp, SiteKey(id));
    }
  }

  /** What happens outside the threads spares an object, but for its own status or someone meddling with it. */
  lemma OutsideSpares(s: State, e: Event, id: SiteId, part: Part)
    requires !e.Call? && !(e.Meddle? && e.key == KeyOf(id, part)) && !(e.Rollout? && e.id == id && part == DeploymentPart)
    ensures CellOf(Next(s, e).world, KeyOf(id, part)) == CellOf(s.world, KeyOf(id, part))
  {
    if e.Rollout? {
      KeysApart(e.id, DeploymentPart, id, part);
    } else if e.Edit? || e.Annotate? {
      KeysApart(id, part, e.id, part);
    }
  }

  /** What happens outside the threads to a Site: an edit, other conditions, or someone meddling with it. */
  lemma OutsideOnSite(s: State, e: Event, id: SiteId)
    requires !e.Call? && !(e.Meddle? && e.key == SiteKey(id))
    ensures CellOf(Next(s, e).world, SiteKey(id))
            == var c := CellOf(s.world, SiteKey(id));
               if e.Edit? && e.id == id then EditCell(c, e.spec)
               else if e.Annotate? && e.id == id then AnnotateCell(c, e.conditions)
               else c
  {
    if e.Rollout? {
      KeysApart(e.id, DeploymentPart, id, DeploymentPart);
    }
  }
}
