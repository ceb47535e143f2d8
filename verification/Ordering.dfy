/**
 * One worker for a Site, reading fresh, among spec edits, cut reconciles, other Sites' workers and the
 * Deployment controller: configuration reaches the store in order.
 */
module Ordering {
  import opened Wrappers
  import opened SiteTypes
  import NginxConfig
  import opened Checksum
  import opened Status
  import opened Objects
  import opened Machine
  import opened Settling
  import opened Runs
  import opened Convergence

  const CONFIG := {NginxPart, PhpPart, DeploymentPart}

  predicate OneOfThree(part: Part) {
    part == NginxPart || part == PhpPart || part == DeploymentPart
  }

  /** The spec that the Site had at a version. */
  predicate HadSpec(site: Cell, version: nat, spec: SiteSpec) {
    version < |site| && site[version].Some? && site[version].value.body.SiteBody? && site[version].value.body.spec == spec
  }

  /** The object says what the spec asks of it. */
  predicate Renders(x: Option<Object>, id: SiteId, spec: SiteSpec, part: Part) {
    x.Some? &&
    var body := x.value.body;
    match part
    case NginxPart => body == ConfigMapBody(map["default.conf" := NginxConfig.NginxContent(spec)])
    case PhpPart => body == ConfigMapBody(map[PHP_INI := PhpIniContent(spec)])
    case DeploymentPart => body.DeploymentBody? && body.deployment == BuildDeploymentSpec(Site(id, spec))
    case _ => true
  }

  lemma MutatedRenders(job: Job, part: Part, x: Option<Object>)
    requires OneOfThree(part)
    requires Mutate(job, part, x).Success?
    ensures var o := Mutate(job, part, x).value;
            Renders(Some(o), job.site.id, job.site.spec, part) && Renders(Some(Admit(x, o)), job.site.id, job.site.spec, part)
  {
  }

  lemma SettledRenders(job: Job, part: Part, x: Option<Object>)
    requires OneOfThree(part) && Settled(job, part, x)
    ensures Renders(x, job.site.id, job.site.spec, part)
  {
  }

  /** A write of one of the three objects that takes effect renders the worker's spec. */
  lemma EffectRenders(w: World, job: Job, pc: nat, io: Io, tries: nat, inp: Input)
    requires Sound(w, Working(job, pc, io, tries)) && OneOfThree(PartAt(pc))
    ensures var c := CellAt(job, w, pc);
            var c' := WorkOn(c, job, pc, io, tries, inp).0;
            c' == c || Renders(Now(c'), job.site.id, job.site.spec, PartAt(pc))
  {
    var c := CellAt(job, w, pc);
    WorkEffect(w, job, pc, io, tries, inp);
    if Mutate(job, PartAt(pc), Now(c)).Success? {
      MutatedRenders(job, PartAt(pc), Now(c));
    }
  }

  // ---- When an object was last brought up, and to which version ----

  /** The call brings an object of the Site up: it writes it, or finds it as it should be and gets past it. */
  ghost predicate BringsUp(w: World, t: Thread, inp: Input, id: SiteId, part: Part) {
    && t.Working? && t.pc < PARTS && t.job.site.id == id && PartAt(t.pc) == part
    && var r := Step(w, t, inp);
       CellOf(r.0, KeyOf(id, part)) != CellOf(w, KeyOf(id, part)) || Past(r.1, part)
  }

  function VersionOf(f: Option<Fetch>): Option<nat> {
    if f.Some? then Some(f.value.version) else None
  }

  /** The version of the Site that its worker had fetched when it last brought the object up, if it ever did. */
  ghost function Mark(s: State, events: seq<Event>, id: SiteId, tid: nat, part: Part): Option<nat> {
    if events == [] then None
    else
      var before, last := events[..|events| - 1], events[|events| - 1];
      var mid := Run(s, before);
      if last.Call? && last.tid == tid && tid in mid.threads && BringsUp(mid.world, mid.threads[tid], last.input, id, part)
      then VersionOf(LastFetch(s, before, tid))
      else Mark(s, before, id, tid, part)
  }

  // ---- What a worker has got past carries its own version ----

  /** Parts that every reconcile visits. */
  predicate Always(part: Part) {
    part == SecretPart || part == ServicePart || OneOfThree(part)
  }

  lemma NeverSkipped(job: Job, part: Part)
    requires Always(part)
    ensures OpFor(job, part).Upsert?
  {
  }

  /** If the thread works for the Site and has got past the part, the mark is the version it fetched. */
  ghost predicate MarkedPast(t: Thread, f: Option<Fetch>, id: SiteId, part: Part, mark: Option<nat>) {
    f.Some? && f.value.job.site.id == id && Past(t, part) ==> mark == Some(f.value.version)
  }

  lemma FetchMarked(w: World, t: Thread, inp: Input, id: SiteId, part: Part, mark: Option<nat>)
    requires t.Fetching? && Always(part)
    ensures MarkedPast(Step(w, t, inp).1, FetchOf(w, t, inp), id, part, mark)
  {
    var f := FetchOf(w, t, inp);
    if f.Some? && Past(Goto(f.value.job, 0), part) {
      GotoPasses(f.value.job, 0, part);
      NeverSkipped(f.value.job, part);
    }
  }

  lemma WorkMarked(w: World, t: Thread, inp: Input, f: Option<Fetch>, id: SiteId, part: Part, mark: Option<nat>)
    requires t.Working? && t.pc < PARTS && Fits(t, f) && Always(part) && MarkedPast(t, f, id, part, mark)
    ensures MarkedPast(Step(w, t, inp).1, f, id, part, if BringsUp(w, t, inp, id, part) then VersionOf(f) else mark)
  {
    if f.Some? && f.value.job.site.id == id && PartAt(t.pc) != part && Past(Step(w, t, inp).1, part) {
      PassedBefore(CellAt(t.job, w, t.pc), t.job, t.pc, t.io, t.tries, inp, part);
      NeverSkipped(t.job, part);
    }
  }

  lemma ReportMarked(w: World, t: Thread, inp: Input, f: Option<Fetch>, id: SiteId, part: Part, mark: Option<nat>)
    requires t.Reporting? && MarkedPast(t, f, id, part, mark)
    ensures MarkedPast(Step(w, t, inp).1, f, id, part, mark)
  {
    ReportMoves(w, t, inp);
  }

  lemma CallMarked(w: World, t: Thread, inp: Input, f: Option<Fetch>, f': Option<Fetch>, id: SiteId, part: Part, mark: Option<nat>)
    requires Sound(w, t) && Fits(t, f) && Always(part) && MarkedPast(t, f, id, part, mark)
    requires f' == if t.Fetching? then FetchOf(w, t, inp) else f
    ensures MarkedPast(Step(w, t, inp).1, f', id, part, if BringsUp(w, t, inp, id, part) then VersionOf(f) else mark)
  {
    match t
    case Fetching(_, _, _) => FetchMarked(w, t, inp, id, part, mark);
    case Working(_, _, _, _) => WorkMarked(w, t, inp, f, id, part, mark);
    case Reporting(_, _, _, _) => ReportMarked(w, t, inp, f, id, part, mark);
    case Finished(_, _) =>
  }

  lemma {:induction false} RunMarked(s: State, events: seq<Event>, id: SiteId, tid: nat, part: Part)
    requires AllSound(s) && Always(part)
    ensures var s' := Run(s, events);
            tid in s'.threads ==>
              MarkedPast(s'.threads[tid], LastFetch(s, events, tid), id, part, Mark(s, events, id, tid, part))
  {
    if events == [] {
    } else {
      var before, last := events[..|events| - 1], events[|events| - 1];
      var mid := Run(s, before);
      RunMarked(s, before, id, tid, part);
      RunFits(s, before, tid);
      if last.Call? && last.tid == tid && tid in mid.threads {
        CallMarked(mid.world, mid.threads[tid], last.input, LastFetch(s, before, tid), LastFetch(s, events, tid), id, part,
                   Mark(s, before, id, tid, part));
      }
    }
  }

  // ---- The marks are true ----

  /** The object is absent, or was rendered from the version of the Site that its mark gives. */
  ghost predicate Dated(w: World, id: SiteId, part: Part, mark: Option<nat>) {
    var x := Current(w, KeyOf(id, part));
    match mark
    case None => x.None?
    case Some(version) => exists spec :: HadSpec(CellOf(w, SiteKey(id)), version, spec) && Renders(x, id, spec, part)
  }

  lemma DatedBy(w: World, id: SiteId, part: Part, version: nat, spec: SiteSpec)
    requires HadSpec(CellOf(w, SiteKey(id)), version, spec) && Renders(Current(w, KeyOf(id, part)), id, spec, part)
    ensures Dated(w, id, part, Some(version))
  {
  }

  /** The same texts and pod template, whatever the status. */
  predicate SameRendering(x: Option<Object>, y: Option<Object>) {
    || x == y
    || (&& x.Some? && y.Some? && x.value.body.DeploymentBody? && y.value.body.DeploymentBody?
        && x.value.body.deployment == y.value.body.deployment)
  }

  lemma StillRenders(x: Option<Object>, y: Option<Object>, id: SiteId, spec: SiteSpec, part: Part)
    requires SameRendering(x, y) && OneOfThree(part) && Renders(x, id, spec, part)
    ensures Renders(y, id, spec, part)
  {
  }

  lemma StillDated(w: World, w': World, id: SiteId, part: Part, mark: Option<nat>)
    requires Dated(w, id, part, mark) && OneOfThree(part) && CellOf(w, SiteKey(id)) <= CellOf(w', SiteKey(id))
    requires SameRendering(Current(w, KeyOf(id, part)), Current(w', KeyOf(id, part)))
    ensures Dated(w', id, part, mark)
  {
    if mark.Some? {
      var x, y := Current(w, KeyOf(id, part)), Current(w', KeyOf(id, part));
      var spec :| HadSpec(CellOf(w, SiteKey(id)), mark.value, spec) && Renders(x, id, spec, part);
      StillRenders(x, y, id, spec, part);
      assert HadSpec(CellOf(w', SiteKey(id)), mark.value, spec);
      DatedBy(w', id, part, mark.value, spec);
    }
  }

  /** A fresh call that brings an object up leaves it rendering the spec fetched. */
  lemma BroughtRenders(w: World, t: Thread, inp: Input, part: Part)
    requires Sound(w, t) && Fresh(inp) && OneOfThree(part) && BringsUp(w, t, inp, t.Id(), part)
    ensures Renders(Current(Step(w, t, inp).0, KeyOf(t.Id(), part)), t.Id(), t.job.site.spec, part)
  {
    var r := WorkOn(CellAt(t.job, w, t.pc), t.job, t.pc, t.io, t.tries, inp);
    if r.0 != CellAt(t.job, w, t.pc) {
      EffectRenders(w, t.job, t.pc, t.io, t.tries, inp);
    } else {
      WorkSettles(w, t.job, t.pc, t.io, t.tries, inp);
      SettledRenders(t.job, part, Now(r.0));
    }
  }

  lemma SiteGrows(w: World, t: Thread, inp: Input, id: SiteId)
    requires Sound(w, t)
    ensures CellOf(w, SiteKey(id)) <= CellOf(Step(w, t, inp).0, SiteKey(id))
  {
    StepOnSite(w, t, inp, id);
  }

  lemma BroughtDated(w: World, t: Thread, inp: Input, f: Option<Fetch>, part: Part)
    requires Sound(w, t) && Fresh(inp) && OneOfThree(part) && BringsUp(w, t, inp, t.Id(), part)
    requires Fits(t, f) && Fetched(w, f) && f.Some?
    ensures Dated(Step(w, t, inp).0, t.Id(), part, Some(f.value.version))
  {
    BroughtRenders(w, t, inp, part);
    SiteGrows(w, t, inp, t.Id());
    assert HadSpec(CellOf(w, SiteKey(t.Id())), f.value.version, t.job.site.spec);
    assert HadSpec(CellOf(Step(w, t, inp).0, SiteKey(t.Id())), f.value.version, t.job.site.spec);
    DatedBy(Step(w, t, inp).0, t.Id(), part, f.value.version, t.job.site.spec);
  }

  lemma NotBrought(w: World, t: Thread, inp: Input, id: SiteId, part: Part)
    requires Sound(w, t) && !BringsUp(w, t, inp, id, part)
    ensures CellOf(Step(w, t, inp).0, KeyOf(id, part)) == CellOf(w, KeyOf(id, part))
  {
    if !(t.Working? && t.job.site.id == id && PartAt(t.pc) == part) {
      StepSpares(w, t, inp, id, part);
    }
  }

  /** One call of any thread. */
  lemma CallDated(w: World, t: Thread, inp: Input, f: Option<Fetch>, id: SiteId, part: Part, mark: Option<nat>)
    requires Sound(w, t) && OneOfThree(part) && Dated(w, id, part, mark) && Fits(t, f) && Fetched(w, f)
    requires BringsUp(w, t, inp, id, part) ==> Fresh(inp) && f.Some?
    ensures Dated(Step(w, t, inp).0, id, part, if BringsUp(w, t, inp, id, part) then VersionOf(f) else mark)
  {
    if BringsUp(w, t, inp, id, part) {
      BroughtDated(w, t, inp, f, part);
    } else {
      NotBrought(w, t, inp, id, part);
      SiteGrows(w, t, inp, id);
      StillDated(w, Step(w, t, inp).0, id, part, mark);
    }
  }

  lemma RolloutSame(c: Cell, status: DeploymentStatus)
    ensures SameRendering(Now(c), Now(RolloutCell(c, status)))
  {
  }

  lemma OutsideDated(s: State, e: Event, id: SiteId, part: Part, mark: Option<nat>)
    requires AllSound(s) && !e.Call? && !(e.Meddle? && e.key == KeyOf(id, part))
    requires OneOfThree(part) && Dated(s.world, id, part, mark)
    ensures Dated(Next(s, e).world, id, part, mark)
  {
    NextSound(s, e);
    assert CellOf(s.world, SiteKey(id)) <= CellOf(Next(s, e).world, SiteKey(id));
    if e.Rollout? && e.id == id && part == DeploymentPart {
      RolloutSame(CellOf(s.world, KeyOf(id, part)), e.status);
    } else {
      OutsideSpares(s, e, id, part);
    }
    StillDated(s.world, Next(s, e).world, id, part, mark);
  }

  /** Nothing of the Site's configuration is stored yet, and nobody works for it. */
  ghost predicate Untouched(s: State, id: SiteId) {
    && AllSound(s) && (forall part :: OneOfThree(part) ==> Current(s.world, KeyOf(id, part)).None?)
    && forall tid :: tid in s.threads ==> s.threads[tid].Id() != id
  }

  /** What an orderly event does to the marks: only a call of the worker that brings a part up moves one. */
  lemma NextDated(s: State, e: Event, id: SiteId, tid: nat, part: Part, f: Option<Fetch>, mark: Option<nat>, mark': Option<nat>)
    requires AllSound(s) && OneWorker(s, id, tid) && Orderly(e, id, tid, {part}) && OneOfThree(part)
    requires Dated(s.world, id, part, mark) && Fetched(s.world, f)
    requires tid in s.threads ==> Fits(s.threads[tid], f)
    requires tid in s.threads && s.threads[tid].Id() == id && s.threads[tid].Working? ==> f.Some?
    requires mark' == if e.Call? && e.tid == tid && tid in s.threads && BringsUp(s.world, s.threads[tid], e.input, id, part)
                      then VersionOf(f) else mark
    ensures Dated(Next(s, e).world, id, part, mark')
  {
    if !e.Call? {
      OutsideDated(s, e, id, part, mark);
    } else if e.tid == tid && tid in s.threads {
      CallDated(s.world, s.threads[tid], e.input, f, id, part, mark);
    } else if e.tid in s.threads {
      CallDated(s.world, s.threads[e.tid], e.input, None, id, part, mark);
    }
  }

  lemma {:induction false} RunDated(s: State, events: seq<Event>, id: SiteId, tid: nat, part: Part)
    requires Untouched(s, id) && AllOrderly(events, id, tid, {part}) && OneOfThree(part)
    ensures Dated(Run(s, events).world, id, part, Mark(s, events, id, tid, part))
  {
    if events == [] {
    } else {
      var before, last := events[..|events| - 1], events[|events| - 1];
      RunDated(s, before, id, tid, part);
      RunBehind(s, before, id, tid, part);
      RunFits(s, before, tid);
      RunSeen(s, before, id, tid);
      NextDated(Run(s, before), last, id, tid, part, LastFetch(s, before, tid), Mark(s, before, id, tid, part),
                Mark(s, events, id, tid, part));
    }
  }

  // ---- The marks are ordered ----

  /** No mark is ahead of what the worker has fetched, nor of the Site. */
  ghost predicate NotAheadOf(w: World, f: Option<Fetch>, id: SiteId, mark: Option<nat>) {
    mark.Some? ==>
      && mark.value < |CellOf(w, SiteKey(id))|
      && (f.Some? && f.value.job.site.id == id ==> mark.value <= f.value.version)
  }

  lemma NextNotAhead(s: State, e: Event, id: SiteId, tid: nat, part: Part, f: Option<Fetch>, f': Option<Fetch>,
                     mark: Option<nat>, mark': Option<nat>)
    requires AllSound(s) && Orderly(e, id, tid, {part}) && NotAheadOf(s.world, f, id, mark) && Fetched(s.world, f)
    requires tid in s.threads ==> Fits(s.threads[tid], f)
    requires f' == if e.Start? && e.tid == tid then None
                   else if e.Call? && e.tid == tid && tid in s.threads && s.threads[tid].Fetching?
                   then FetchOf(s.world, s.threads[tid], e.input) else f
    requires mark' == if e.Call? && e.tid == tid && tid in s.threads && BringsUp(s.world, s.threads[tid], e.input, id, part)
                      then VersionOf(f) else mark
    ensures NotAheadOf(Next(s, e).world, f', id, mark')
  {
    NextSound(s, e);
    assert CellOf(s.world, SiteKey(id)) <= CellOf(Next(s, e).world, SiteKey(id));
  }

  lemma {:induction false} RunNotAhead(s: State, events: seq<Event>, id: SiteId, tid: nat, part: Part)
    requires AllSound(s) && AllOrderly(events, id, tid, {part})
    ensures NotAheadOf(Run(s, events).world, LastFetch(s, events, tid), id, Mark(s, events, id, tid, part))
  {
    if events == [] {
    } else {
      var before, last := events[..|events| - 1], events[|events| - 1];
      RunNotAhead(s, before, id, tid, part);
      RunFits(s, before, tid);
      NextNotAhead(Run(s, before), last, id, tid, part, LastFetch(s, before, tid), LastFetch(s, events, tid),
                   Mark(s, before, id, tid, part), Mark(s, events, id, tid, part));
    }
  }

  /** The later part has no mark, or one that the earlier part's mark reaches. */
  predicate Reaches(later: Option<nat>, earlier: Option<nat>) {
    later.Some? ==> earlier.Some? && later.value <= earlier.value
  }

  /** In every orderly run an object that is visited earlier is never older than one visited later. */
  lemma {:induction false} RunReaches(s: State, events: seq<Event>, id: SiteId, tid: nat, earlier: Part, later: Part)
    requires AllSound(s) && Idle(s, id, tid) && AllOrderly(events, id, tid, {earlier})
    requires Always(earlier) && IndexOf(earlier) < IndexOf(later)
    ensures Reaches(Mark(s, events, id, tid, later), Mark(s, events, id, tid, earlier))
  {
    if events == [] {
    } else {
      var before, last := events[..|events| - 1], events[|events| - 1];
      var mid := Run(s, before);
      RunReaches(s, before, id, tid, earlier, later);
      RunMarked(s, before, id, tid, earlier);
      RunNotAhead(s, before, id, tid, earlier);
      RunFits(s, before, tid);
      RunSeen(s, before, id, tid);
      if last.Call? && last.tid == tid && tid in mid.threads {
        CallReaches(mid.world, mid.threads[tid], last.input, LastFetch(s, before, tid), id, earlier, later,
                    Mark(s, before, id, tid, earlier), Mark(s, before, id, tid, later));
      }
    }
  }

  lemma CallReaches(w: World, t: Thread, inp: Input, f: Option<Fetch>, id: SiteId, earlier: Part, later: Part,
                    early: Option<nat>, late: Option<nat>)
    requires Fits(t, f) && IndexOf(earlier) < IndexOf(later) && Reaches(late, early)
    requires MarkedPast(t, f, id, earlier, early) && NotAheadOf(w, f, id, early)
    requires t.Id() == id && t.Working? ==> f.Some?
    ensures Reaches(if BringsUp(w, t, inp, id, later) then VersionOf(f) else late,
                    if BringsUp(w, t, inp, id, earlier) then VersionOf(f) else early)
  {
    if BringsUp(w, t, inp, id, later) {
      IndexAt(t.pc);
    }
  }

  // ---- What follows for every run ----

  /** Each object renders its mark's version, and no ConfigMap's mark is behind the Deployment's. */
  ghost predicate InOrder(w: World, id: SiteId, deployment: Option<nat>, php: Option<nat>, nginx: Option<nat>) {
    && Dated(w, id, DeploymentPart, deployment) && Dated(w, id, PhpPart, php) && Dated(w, id, NginxPart, nginx)
    && Reaches(deployment, php) && Reaches(php, nginx)
  }

  /**
   * Config ordering: at every point of every run of a single worker, among edits, aborts and other Sites, each of
   * the Deployment and its ConfigMaps renders the version of the Site that the worker had fetched when it last
   * brought that object up, and these versions are in order: no text is older than the one the annotation hashes.
   */
  lemma ConfigsInOrder(s: State, events: seq<Event>, id: SiteId, tid: nat)
    requires Untouched(s, id) && AllOrderly(events, id, tid, CONFIG)
    ensures InOrder(Run(s, events).world, id, Mark(s, events, id, tid, DeploymentPart), Mark(s, events, id, tid, PhpPart),
                    Mark(s, events, id, tid, NginxPart))
  {
    forall part | part in CONFIG
      ensures Dated(Run(s, events).world, id, part, Mark(s, events, id, tid, part))
      ensures AllOrderly(events, id, tid, {part})
    {
      OrderlyForPart(events, id, tid, CONFIG, part);
      RunDated(s, events, id, tid, part);
    }
    RunReaches(s, events, id, tid, PhpPart, DeploymentPart);
    RunReaches(s, events, id, tid, NginxPart, PhpPart);
  }

  /** The annotation of the stored Deployment is the checksum of the two stored texts. */
  ghost predicate HashFits(w: World, id: SiteId) {
    var nginx, php := Current(w, KeyOf(id, NginxPart)), Current(w, KeyOf(id, PhpPart));
    var deployment := Current(w, KeyOf(id, DeploymentPart));
    && nginx.Some? && nginx.value.body.ConfigMapBody? && php.Some? && php.value.body.ConfigMapBody?
    && deployment.Some? && deployment.value.body.DeploymentBody?
    && "default.conf" in nginx.value.body.data && PHP_INI in php.value.body.data
    && deployment.value.body.deployment.configHash
       == Sha256(Frame([nginx.value.body.data["default.conf"], php.value.body.data[PHP_INI]]))
  }

  lemma SettledFits(job: Job, w: World)
    requires AllSettled(job, w, CONFIG)
    ensures HashFits(w, job.site.id)
  {
    DeploymentSettled(job, Stored(w, job, DeploymentPart));
    TextsSettled(job, Stored(w, job, NginxPart), Stored(w, job, PhpPart));
  }

  lemma TextsSettled(job: Job, nginx: Option<Object>, php: Option<Object>)
    requires Settled(job, NginxPart, nginx) && Settled(job, PhpPart, php)
    ensures Renders(nginx, job.site.id, job.site.spec, NginxPart) && Renders(php, job.site.id, job.site.spec, PhpPart)
  {
  }

  /**
   * And from whatever state it began, once the worker is through all parts of a job, and for as long as it has not
   * started anew, the annotation is the checksum of exactly the stored texts.
   */
  lemma HashFitsTexts(s: State, events: seq<Event>, id: SiteId, tid: nat, job: Job)
    requires AllSound(s) && OneWorker(s, id, tid) && AllOrderly(events, id, tid, CONFIG)
    requires Through(s, events, id, tid, job)
    ensures HashFits(Run(s, events).world, id)
  {
    ThroughAllSettled(s, events, id, tid, job, CONFIG);
    SettledFits(job, Run(s, events).world);
  }
}
