/**
 * Runs seen from one Site's worker: what it fetched last, how far it has come, and what it leaves behind it while
 * the Deployment controller, spec editors, other writers and other Sites' workers go on.
 */
module Runs {
  import opened Wrappers
  import opened SiteTypes
  import opened Status
  import opened Objects
  import opened Machine
  import opened Settling

  // ---- What a thread works from ----

  /** The outcome of a fetch: the job made of it, and the version of the Site it saw. */
  datatype Fetch = Fetch(job: Job, version: nat)

  function FetchOf(w: World, t: Thread, inp: Input): Option<Fetch>
    requires t.Fetching?
  {
    var c := CellOf(w, SiteKey(t.id));
    var v := Observed(c, inp.lag);
    if inp.fault.NoFault? && c[v].Some? && c[v].value.body.SiteBody?
    then Some(Fetch(Job(Site(t.id, c[v].value.body.spec), t.cfg, t.draw), v))
    else None
  }

  /** What thread tid has fetched since it was last started, if anything. */
  function LastFetch(s: State, events: seq<Event>, tid: nat): Option<Fetch> {
    if events == [] then None
    else
      var before, last := events[..|events| - 1], events[|events| - 1];
      var mid := Run(s, before);
      if last.Start? && last.tid == tid then None
      else if last.Call? && last.tid == tid && tid in mid.threads && mid.threads[tid].Fetching?
      then FetchOf(mid.world, mid.threads[tid], last.input)
      else LastFetch(s, before, tid)
  }

  /** The thread is on the job it fetched, if it fetched one in this run. */
  ghost predicate Fits(t: Thread, f: Option<Fetch>) {
    f.Some? ==> (t.Working? ==> f.value.job == t.job) && f.value.job.site.id == t.Id() && !t.Fetching?
  }

  /** The version fetched is one the Site really had. */
  ghost predicate Fetched(w: World, f: Option<Fetch>) {
    f.Some? ==>
      var c := CellOf(w, SiteKey(f.value.job.site.id));
      && f.value.version < |c| && c[f.value.version].Some? && c[f.value.version].value.body.SiteBody?
      && c[f.value.version].value.body.spec == f.value.job.site.spec
  }

  /** The thread has no work under way for the Site that this run has not seen begin. */
  predicate Idle(s: State, id: SiteId, tid: nat) {
    tid in s.threads && s.threads[tid].Id() == id ==> !s.threads[tid].Working? && !s.threads[tid].Reporting?
  }

  lemma FetchFits(w: World, t: Thread, inp: Input)
    requires t.Fetching?
    ensures Fits(Step(w, t, inp).1, FetchOf(w, t, inp)) && Fetched(w, FetchOf(w, t, inp))
  {
    var f := FetchOf(w, t, inp);
    if f.Some? {
      GotoFits(f.value.job, 0);
    }
  }

  lemma GotoFits(job: Job, pc: nat)
    ensures var t := Goto(job, pc);
            t.Id() == job.site.id && !t.Fetching? && !t.Finished? && (t.Working? ==> t.job == job && pc <= t.pc)
    decreases PARTS - pc
  {
    if pc < PARTS && OpFor(job, PartAt(pc)).Skip? {
      GotoFits(job, pc + 1);
    }
  }

  /** A call of a working thread fails, stays with its part, or goes on to the next. */
  lemma WorkMoves(c: Cell, job: Job, pc: nat, io: Io, tries: nat, inp: Input)
    requires pc < PARTS
    ensures var t := WorkOn(c, job, pc, io, tries, inp).1;
            || (t.Reporting? && t.id == job.site.id && t.outcome.Some?)
            || (t.Working? && t.job == job && t.pc == pc)
            || t == Goto(job, pc + 1)
  {
  }

  lemma WorkFits(c: Cell, job: Job, pc: nat, io: Io, tries: nat, inp: Input, f: Option<Fetch>)
    requires pc < PARTS && (f.Some? ==> f.value.job == job)
    ensures Fits(WorkOn(c, job, pc, io, tries, inp).1, f)
  {
    WorkMoves(c, job, pc, io, tries, inp);
    GotoFits(job, pc + 1);
  }

  lemma StepFits(w: World, t: Thread, inp: Input, f: Option<Fetch>)
    requires Fits(t, f) && !t.Fetching?
    ensures Fits(Step(w, t, inp).1, f)
  {
    if t.Working? && t.pc < PARTS {
      WorkFits(CellAt(t.job, w, t.pc), t.job, t.pc, t.io, t.tries, inp, f);
    }
  }

  /** In every run each thread is on the job it fetched, and that is what the Site was at the version it saw. */
  lemma {:induction false} RunFits(s: State, events: seq<Event>, tid: nat)
    requires AllSound(s)
    ensures var s', f := Run(s, events), LastFetch(s, events, tid);
            AllSound(s') && (tid in s'.threads ==> Fits(s'.threads[tid], f)) && Fetched(s'.world, f) && (f.Some? ==> tid in s'.threads)
  {
    if events == [] {
    } else {
      var before, last := events[..|events| - 1], events[|events| - 1];
      var mid := Run(s, before);
      RunFits(s, before, tid);
      RunSound(s, events);
      NextSound(mid, last);
      NextFits(mid, last, tid, LastFetch(s, before, tid), LastFetch(s, events, tid));
    }
  }

  lemma NextFits(mid: State, e: Event, tid: nat, f: Option<Fetch>, f': Option<Fetch>)
    requires AllSound(mid) && (tid in mid.threads ==> Fits(mid.threads[tid], f)) && Fetched(mid.world, f)
    requires f.Some? ==> tid in mid.threads
    requires f' == if e.Start? && e.tid == tid then None
                   else if e.Call? && e.tid == tid && tid in mid.threads && mid.threads[tid].Fetching?
                   then FetchOf(mid.world, mid.threads[tid], e.input)
                   else f
    ensures var s' := Next(mid, e);
            (tid in s'.threads ==> Fits(s'.threads[tid], f')) && Fetched(s'.world, f') && (f'.Some? ==> tid in s'.threads)
  {
    if e.Call? && e.tid == tid && tid in mid.threads {
      var t := mid.threads[tid];
      if t.Fetching? {
        FetchFits(mid.world, t, e.input);
      } else {
        StepFits(mid.world, t, e.input, f);
      }
    }
    NextSound(mid, e);
    if f'.Some? {
      FetchedGrows(mid.world, Next(mid, e).world, f');
    }
  }

  lemma FetchedGrows(w: World, w': World, f: Option<Fetch>)
    requires Fetched(w, f) && Grows(w, w')
    ensures Fetched(w', f)
  {
    if f.Some? {
      assert CellOf(w, SiteKey(f.value.job.site.id)) <= CellOf(w', SiteKey(f.value.job.site.id));
    }
  }

  // ---- What a worker leaves behind it ----

  /** The object is as the job wants it, so that settling it again would change nothing. */
  predicate Settled(job: Job, part: Part, x: Option<Object>) {
    match OpFor(job, part)
    case Skip => true
    case Refuse(_) => false
    case Upsert(_) => ControlledBy(x, job.site.id) && x.value.body == Desired(job, part, x)
    case DeleteOwned => !ControlledBy(x, job.site.id)
  }

  /** The thread has got past the part, or through all of them. */
  predicate Past(t: Thread, part: Part) {
    (t.Working? && IndexOf(part) < t.pc) || ((t.Reporting? || t.Finished?) && t.outcome.None?)
  }

  lemma WrittenSettled(job: Job, part: Part, x: Option<Object>)
    requires OpFor(job, part).Upsert? && Mutate(job, part, x).Success?
    ensures var o := Mutate(job, part, x).value;
            Settled(job, part, Some(Admit(x, o))) && (x == Some(o) ==> Settled(job, part, x))
  {
    StoredTwice(job, job, part, x);
  }

  /** Whatever Goto passes over is not wanted. */
  lemma GotoPasses(job: Job, pc: nat, part: Part)
    requires pc <= IndexOf(part) && Past(Goto(job, pc), part)
    ensures OpFor(job, part).Skip?
    decreases PARTS - pc
  {
    if OpFor(job, PartAt(pc)).Skip? && pc < IndexOf(part) {
      GotoPasses(job, pc + 1, part);
    }
  }

  /** A part that wants work is not passed by giving up or trying again. */
  lemma NotPast(job: Job, pc: nat, tries: nat, reply: Option<Error>)
    requires pc < PARTS && reply.Some?
    ensures !Past(AfterWrite(job, pc, tries, reply), PartAt(pc))
  {
    IndexAt(pc);
  }

  lemma ReadPasses(job: Job, pc: nat, tries: nat, version: nat, x: Option<Object>)
    requires pc < PARTS && Past(AfterRead(x, job, pc, tries, version), PartAt(pc))
    ensures match OpFor(job, PartAt(pc))
            case Upsert(_) => Mutate(job, PartAt(pc), x).Success? && x == Some(Mutate(job, PartAt(pc), x).value)
            case DeleteOwned => !ControlledBy(x, job.site.id)
            case _ => true
  {
    IndexAt(pc);
  }

  lemma ReadSettles(c: Cell, job: Job, pc: nat, tries: nat, inp: Input)
    requires pc < PARTS && Fresh(inp) && !OpFor(job, PartAt(pc)).Refuse?
    ensures var t := WorkOn(c, job, pc, Reading, tries, inp).1;
            Past(t, PartAt(pc)) ==> Settled(job, PartAt(pc), Now(c))
  {
    var part := PartAt(pc);
    if inp.fault.NoFault? && Past(AfterRead(Now(c), job, pc, tries, |c| - 1), part) {
      ReadPasses(job, pc, tries, |c| - 1, Now(c));
      if OpFor(job, part).Upsert? {
        WrittenSettled(job, part, Now(c));
      }
    }
  }

  lemma WriteLands(c: Cell, version: nat, create: bool, o: Object)
    requires version < |c| && create == c[version].None?
    ensures var r := if create then CreateCell(c, o) else UpdateCell(c, version, o);
            r.1.None? ==> Now(r.0) == Some(Admit(c[version], o))
  {
  }

  lemma WriteSettles(c: Cell, job: Job, pc: nat, version: nat, create: bool, o: Object, tries: nat, inp: Input)
    requires pc < PARTS && version < |c| && OpFor(job, PartAt(pc)).Upsert?
    requires Mutate(job, PartAt(pc), c[version]) == Success(o) && create == c[version].None?
    ensures var r := WorkOn(c, job, pc, Writing(version, create, o), tries, inp);
            Past(r.1, PartAt(pc)) ==> Settled(job, PartAt(pc), Now(r.0))
  {
    var r := if create then CreateCell(c, o) else UpdateCell(c, version, o);
    var reply := Seen(inp.fault, r.1);
    if reply.Some? {
      NotPast(job, pc, tries, reply);
    } else {
      WriteLands(c, version, create, o);
      WrittenSettled(job, PartAt(pc), c[version]);
    }
  }

  /** A fresh call of a working thread gets past its part only over a settled object. */
  lemma WorkSettles(w: World, job: Job, pc: nat, io: Io, tries: nat, inp: Input)
    requires Sound(w, Working(job, pc, io, tries)) && Fresh(inp)
    ensures var r := WorkOn(CellAt(job, w, pc), job, pc, io, tries, inp);
            Past(r.1, PartAt(pc)) ==> Settled(job, PartAt(pc), Now(r.0))
  {
    var c := CellAt(job, w, pc);
    match io
    case Reading => ReadSettles(c, job, pc, tries, inp);
    case Writing(version, create, o) => WriteSettles(c, job, pc, version, create, o, tries, inp);
    case Deleting(_) =>
  }

  /** If the worker of the Site has got past the part, the stored object is settled for its job. */
  ghost predicate Behind(w: World, t: Thread, f: Option<Fetch>, id: SiteId, part: Part) {
    f.Some? && f.value.job.site.id == id && Past(t, part) ==> Settled(f.value.job, part, Current(w, KeyOf(id, part)))
  }

  lemma FetchBehind(w: World, t: Thread, inp: Input, id: SiteId, part: Part)
    requires t.Fetching?
    ensures Behind(w, Step(w, t, inp).1, FetchOf(w, t, inp), id, part)
  {
    var f := FetchOf(w, t, inp);
    if f.Some? && Past(Goto(f.value.job, 0), part) {
      GotoPasses(f.value.job, 0, part);
    }
  }

  /** The part the thread is working on. */
  lemma HereBehind(w: World, t: Thread, inp: Input, f: Option<Fetch>)
    requires Sound(w, t) && Fits(t, f) && t.Working? && Fresh(inp)
    ensures var r := Step(w, t, inp); Behind(r.0, r.1, f, t.Id(), PartAt(t.pc))
  {
    WorkSettles(w, t.job, t.pc, t.io, t.tries, inp);
  }

  /** Having passed another part after a call, the thread had passed it before, or nothing is wanted of it. */
  lemma PassedBefore(c: Cell, job: Job, pc: nat, io: Io, tries: nat, inp: Input, part: Part)
    requires pc < PARTS && IndexOf(part) != pc && Past(WorkOn(c, job, pc, io, tries, inp).1, part)
    ensures IndexOf(part) < pc || OpFor(job, part).Skip?
  {
    WorkMoves(c, job, pc, io, tries, inp);
    if pc < IndexOf(part) {
      GotoPasses(job, pc + 1, part);
    }
  }

  lemma ThereBehind(w: World, t: Thread, inp: Input, f: Option<Fetch>, part: Part)
    requires Sound(w, t) && Fits(t, f) && t.Working? && part != PartAt(t.pc) && Behind(w, t, f, t.Id(), part)
    ensures var r := Step(w, t, inp); Behind(r.0, r.1, f, t.Id(), part)
  {
    StepSpares(w, t, inp, t.Id(), part);
    if Past(Step(w, t, inp).1, part) {
      PassedBefore(CellAt(t.job, w, t.pc), t.job, t.pc, t.io, t.tries, inp, part);
    }
  }

  lemma ReportMoves(w: World, t: Thread, inp: Input)
    requires t.Reporting?
    ensures var t' := Step(w, t, inp).1;
            && t'.Id() == t.id && (t'.Reporting? || t'.Finished?)
            && (t'.outcome.None? ==> t.outcome.None?) && (t'.Reporting? ==> t'.outcome == t.outcome)
  {
  }

  lemma ReportBehind(w: World, t: Thread, inp: Input, f: Option<Fetch>, id: SiteId, part: Part)
    requires t.Reporting? && Behind(w, t, f, id, part)
    ensures var r := Step(w, t, inp); Behind(r.0, r.1, f, id, part)
  {
    ReportMoves(w, t, inp);
    StepSpares(w, t, inp, id, part);
  }

  /** One fresh call of the worker. */
  lemma OwnBehind(w: World, t: Thread, inp: Input, f: Option<Fetch>, part: Part)
    requires Sound(w, t) && Fits(t, f) && !t.Fetching? && Fresh(inp) && Behind(w, t, f, t.Id(), part)
    ensures var r := Step(w, t, inp); Behind(r.0, r.1, f, t.Id(), part)
  {
    if t.Working? {
      if part == PartAt(t.pc) {
        HereBehind(w, t, inp, f);
      } else {
        ThereBehind(w, t, inp, f, part);
      }
    } else if t.Reporting? {
      ReportBehind(w, t, inp, f, t.Id(), part);
    }
  }

  // ---- Runs of one worker per Site ----

  /** Only thread tid works for the Site. */
  ghost predicate OneWorker(s: State, id: SiteId, tid: nat) {
    forall other :: other in s.threads && s.threads[other].Id() == id ==> other == tid
  }

  /** The worker reads fresh, no second one starts, and nobody else writes the given objects of the Site. */
  ghost predicate Orderly(e: Event, id: SiteId, tid: nat, parts: set<Part>) {
    match e
    case Call(t, input) => t == tid ==> Fresh(input)
    case Start(t, other, _, _) => other == id ==> t == tid
    case Meddle(key, _) => forall p :: p in parts ==> key != KeyOf(id, p)
    case _ => true
  }

  ghost predicate AllOrderly(events: seq<Event>, id: SiteId, tid: nat, parts: set<Part>) {
    forall i :: 0 <= i < |events| ==> Orderly(events[i], id, tid, parts)
  }

  lemma OneWorkerNext(s: State, e: Event, id: SiteId, tid: nat, parts: set<Part>)
    requires AllSound(s) && OneWorker(s, id, tid) && Orderly(e, id, tid, parts)
    ensures OneWorker(Next(s, e), id, tid)
  {
    if e.Call? && e.tid in s.threads {
      StepSound(s.world, s.threads[e.tid], e.input);
    }
  }

  /** The status of a Deployment is not the operator's business. */
  lemma RolloutSettled(job: Job, c: Cell, status: DeploymentStatus)
    requires Settled(job, DeploymentPart, Now(c))
    ensures Settled(job, DeploymentPart, Now(RolloutCell(c, status)))
  {
  }

  lemma OutsideBehind(s: State, e: Event, t: Thread, f: Option<Fetch>, id: SiteId, part: Part)
    requires !e.Call? && !(e.Meddle? && e.key == KeyOf(id, part)) && Behind(s.world, t, f, id, part)
    ensures Behind(Next(s, e).world, t, f, id, part)
  {
    if e.Rollout? && e.id == id && part == DeploymentPart {
      var c := CellOf(s.world, KeyOf(id, part));
      if f.Some? && Settled(f.value.job, part, Now(c)) {
        RolloutSettled(f.value.job, c, e.status);
      }
    } else {
      OutsideSpares(s, e, id, part);
    }
  }

  lemma CallBehind(s: State, e: Event, f: Option<Fetch>, f': Option<Fetch>, id: SiteId, tid: nat, part: Part)
    requires AllSound(s) && OneWorker(s, id, tid) && e.Call? && (e.tid == tid ==> Fresh(e.input)) && tid in s.threads
    requires Fits(s.threads[tid], f) && Behind(s.world, s.threads[tid], f, id, part)
    requires f' == if e.tid == tid && s.threads[tid].Fetching? then FetchOf(s.world, s.threads[tid], e.input) else f
    ensures var s' := Next(s, e); tid in s'.threads && Behind(s'.world, s'.threads[tid], f', id, part)
  {
    var w, t := s.world, s.threads[tid];
    if e.tid == tid {
      if t.Fetching? {
        FetchBehind(w, t, e.input, id, part);
      } else if t.Id() == id {
        OwnBehind(w, t, e.input, f, part);
      }
    } else if e.tid in s.threads {
      StepSpares(w, s.threads[e.tid], e.input, id, part);
    }
  }

  /**
   * In every run of a single fresh-reading worker, among rollouts, edits, aborts and other Sites' workers, whatever
   * the worker has got past is settled for the job it fetched.
   */
  lemma {:induction false} RunBehind(s: State, events: seq<Event>, id: SiteId, tid: nat, part: Part)
    requires AllSound(s) && OneWorker(s, id, tid) && AllOrderly(events, id, tid, {part})
    ensures var s' := Run(s, events);
            && OneWorker(s', id, tid)
            && (tid in s'.threads ==> Behind(s'.world, s'.threads[tid], LastFetch(s, events, tid), id, part))
  {
    if events == [] {
    } else {
      var before, last := events[..|events| - 1], events[|events| - 1];
      var mid, f := Run(s, before), LastFetch(s, before, tid);
      RunBehind(s, before, id, tid, part);
      RunFits(s, before, tid);
      OneWorkerNext(mid, last, id, tid, {part});
      if last.Call? && tid in mid.threads {
        CallBehind(mid, last, f, LastFetch(s, events, tid), id, tid, part);
      } else if !last.Call? && tid in mid.threads && !(last.Start? && last.tid == tid) {
        OutsideBehind(mid, last, mid.threads[tid], f, id, part);
      }
    }
  }

  /** The run ends with the worker through all parts of the job it fetched for the Site. */
  ghost predicate Through(s: State, events: seq<Event>, id: SiteId, tid: nat, job: Job) {
    var s', f := Run(s, events), LastFetch(s, events, tid);
    && tid in s'.threads && f.Some? && f.value.job == job && job.site.id == id
    && (s'.threads[tid].Reporting? || s'.threads[tid].Finished?) && s'.threads[tid].outcome.None?
  }

  lemma ThroughSettled(s: State, events: seq<Event>, id: SiteId, tid: nat, job: Job, part: Part)
    requires AllSound(s) && OneWorker(s, id, tid) && AllOrderly(events, id, tid, {part})
    requires Through(s, events, id, tid, job)
    ensures Settled(job, part, Current(Run(s, events).world, KeyOf(id, part)))
  {
    RunBehind(s, events, id, tid, part);
  }

  /** The objects of a set of parts are settled for the job. */
  ghost predicate AllSettled(job: Job, w: World, parts: set<Part>) {
    forall part :: part in parts ==> Settled(job, part, Current(w, KeyOf(job.site.id, part)))
  }

  lemma OrderlyForPart(events: seq<Event>, id: SiteId, tid: nat, parts: set<Part>, part: Part)
    requires AllOrderly(events, id, tid, parts) && part in parts
    ensures AllOrderly(events, id, tid, {part})
  {
    forall i | 0 <= i < |events|
      ensures Orderly(events[i], id, tid, {part})
    {
      assert Orderly(events[i], id, tid, parts);
    }
  }

  lemma ThroughAllSettled(s: State, events: seq<Event>, id: SiteId, tid: nat, job: Job, parts: set<Part>)
    requires AllSound(s) && OneWorker(s, id, tid) && AllOrderly(events, id, tid, parts)
    requires Through(s, events, id, tid, job)
    ensures AllSettled(job, Run(s, events).world, parts)
  {
    forall part | part in parts
      ensures Settled(job, part, Current(Run(s, events).world, KeyOf(id, part)))
    {
      OrderlyForPart(events, id, tid, parts, part);
      ThroughSettled(s, events, id, tid, job, part);
    }
  }

  /** Once idle, all that a thread does for a Site comes of a fetch in this run. */
  lemma {:induction false} RunSeen(s: State, events: seq<Event>, id: SiteId, tid: nat)
    requires AllSound(s) && Idle(s, id, tid)
    ensures var s' := Run(s, events);
            tid in s'.threads && s'.threads[tid].Id() == id && (s'.threads[tid].Working? || s'.threads[tid].Reporting?) ==>
              LastFetch(s, events, tid).Some?
  {
    if events == [] {
    } else {
      var before, last := events[..|events| - 1], events[|events| - 1];
      var mid := Run(s, before);
      RunSeen(s, before, id, tid);
      RunSound(s, before);
      if last.Call? && last.tid == tid && tid in mid.threads {
        StepSound(mid.world, mid.threads[tid], last.input);
        StepSeen(mid.world, mid.threads[tid], last.input);
      }
    }
  }

  lemma StepSeen(w: World, t: Thread, inp: Input)
    ensures var t' := Step(w, t, inp).1;
            && (t.Finished? ==> t' == t)
            && (t.Fetching? && (t'.Working? || t'.Reporting?) ==> FetchOf(w, t, inp).Some?)
  {
  }
}
