/** A Site that does not provision a database is blind to MariaDB, its objects and the operator's default cluster. */
module Provisioning {
  import opened Wrappers
  import opened SiteTypes
  import opened Objects
  import opened Machine
  import opened Schedule

  predicate IsMariaDB(k: Key) {
    k.kind == DatabaseKind || k.kind == UserKind || k.kind == GrantKind
  }

  predicate MariaDBPart(part: Part) {
    part == DatabasePart || part == UserPart || part == GrantPart
  }

  // ---- Forgetting the default cluster ----

  function BlindConfig(cfg: OperatorConfig): OperatorConfig {
    cfg.(defaultMariaDBRef := None)
  }

  /** The same job under no default cluster. */
  function BlindJob(job: Job): Job {
    job.(cfg := BlindConfig(job.cfg))
  }

  function BlindThread(t: Thread): Thread {
    match t
    case Fetching(id, cfg, draw) => Fetching(id, BlindConfig(cfg), draw)
    case Working(job, pc, io, tries) => Working(BlindJob(job), pc, io, tries)
    case _ => t
  }

  function BlindEvent(e: Event): Event {
    match e
    case Start(tid, id, cfg, draw) => Start(tid, id, BlindConfig(cfg), draw)
    case _ => e
  }

  // ---- One call ----

  /** If the thread works at a part, its Site does not provision, and the part is one it may be at. */
  predicate Unprovisioned(t: Thread) {
    t.Working? ==> t.pc < PARTS && !ProvisionEnabled(t.job.site.spec) && !OpFor(t.job, PartAt(t.pc)).Skip?
  }

  lemma NotMariaDB(t: Thread)
    requires Unprovisioned(t) && t.Working?
    ensures !MariaDBPart(PartAt(t.pc))
  {
  }

  lemma GotoBlind(job: Job, pc: nat)
    requires !ProvisionEnabled(job.site.spec)
    ensures Goto(BlindJob(job), pc) == BlindThread(Goto(job, pc)) && Unprovisioned(Goto(job, pc))
    decreases PARTS - pc
  {
    if pc < PARTS && OpFor(job, PartAt(pc)).Skip? {
      GotoBlind(job, pc + 1);
    }
  }

  lemma MutateBlind(job: Job, pc: nat, x: Option<Object>)
    requires Unprovisioned(Working(job, pc, Reading, 0))
    ensures Mutate(BlindJob(job), PartAt(pc), x) == Mutate(job, PartAt(pc), x)
    ensures OpFor(BlindJob(job), PartAt(pc)) == OpFor(job, PartAt(pc))
  {
  }

  /** What a read leads to, put in terms of the treatment and the mutation alone. */
  function Leads(op: Op, r: Result<Object, Error>, x: Option<Object>, job: Job, pc: nat, tries: nat, version: nat): Thread {
    if op.Upsert? then
      if r.Failure? then Report(job.site.id, Some(r.error))
      else if x == Some(r.value) then Goto(job, pc + 1)
      else Working(job, pc, Writing(version, x.None?, r.value), tries)
    else if op.DeleteOwned? && ControlledBy(x, job.site.id) then Working(job, pc, Deleting(version), tries)
    else Goto(job, pc + 1)
  }

  lemma AfterReadIs(x: Option<Object>, job: Job, pc: nat, tries: nat, version: nat, op: Op, r: Result<Object, Error>)
    requires pc < PARTS && op == OpFor(job, PartAt(pc)) && r == Mutate(job, PartAt(pc), x)
    ensures AfterRead(x, job, pc, tries, version) == Leads(op, r, x, job, pc, tries, version)
  {
  }

  lemma LeadsBlind(op: Op, r: Result<Object, Error>, x: Option<Object>, job: Job, pc: nat, tries: nat, version: nat)
    requires Unprovisioned(Working(job, pc, Reading, tries))
    ensures var t := Leads(op, r, x, job, pc, tries, version);
            Leads(op, r, x, BlindJob(job), pc, tries, version) == BlindThread(t) && Unprovisioned(t)
  {
    GotoBlind(job, pc + 1);
  }

  lemma AfterReadBlind(x: Option<Object>, job: Job, pc: nat, tries: nat, version: nat)
    requires Unprovisioned(Working(job, pc, Reading, tries))
    ensures var t := AfterRead(x, job, pc, tries, version);
            AfterRead(x, BlindJob(job), pc, tries, version) == BlindThread(t) && Unprovisioned(t)
  {
    var op, r := OpFor(job, PartAt(pc)), Mutate(job, PartAt(pc), x);
    MutateBlind(job, pc, x);
    AfterReadIs(x, job, pc, tries, version, op, r);
    AfterReadIs(x, BlindJob(job), pc, tries, version, op, r);
    LeadsBlind(op, r, x, job, pc, tries, version);
  }

  lemma AfterWriteBlind(job: Job, pc: nat, tries: nat, reply: Option<Error>)
    requires Unprovisioned(Working(job, pc, Reading, tries))
    ensures var t := AfterWrite(job, pc, tries, reply);
            AfterWrite(BlindJob(job), pc, tries, reply) == BlindThread(t) && Unprovisioned(t)
  {
    MutateBlind(job, pc, None);
    if reply.None? {
      GotoBlind(job, pc + 1);
    }
  }

  lemma WorkBlind(c: Cell, job: Job, pc: nat, io: Io, tries: nat, inp: Input)
    requires Unprovisioned(Working(job, pc, io, tries))
    ensures var r, r' := WorkOn(c, job, pc, io, tries, inp), WorkOn(c, BlindJob(job), pc, io, tries, inp);
            r'.0 == r.0 && r'.1 == BlindThread(r.1) && Unprovisioned(r.1)
  {
    match io
    case Reading => AfterReadBlind(c[Observed(c, inp.lag)], job, pc, tries, Observed(c, inp.lag));
    case Writing(version, create, o) =>
      var r := if create then CreateCell(c, o) else UpdateCell(c, version, o);
      AfterWriteBlind(job, pc, tries, Seen(inp.fault, r.1));
    case Deleting(_) =>
      var r := DeleteCell(c);
      AfterWriteBlind(job, pc, tries, Seen(inp.fault, if r.1 == Some(NotFound) then None else r.1));
  }

  /** From some version on the Site does not provision. */
  predicate NeverProvisions(c: Cell, from: nat) {
    from < |c| && forall i :: from <= i < |c| && c[i].Some? && c[i].value.body.SiteBody? ==> !ProvisionEnabled(c[i].value.body.spec)
  }

  /** A read cannot fall behind that version: there is none before it, or the read is fresh. */
  predicate SeesFrom(inp: Input, from: nat) {
    from == 0 || Fresh(inp)
  }

  lemma FetchBlind(c: Cell, id: SiteId, cfg: OperatorConfig, draw: string -> string, inp: Input, from: nat)
    requires NeverProvisions(c, from) && SeesFrom(inp, from)
    ensures var t := FetchOn(c, id, cfg, draw, inp);
            FetchOn(c, id, BlindConfig(cfg), draw, inp) == BlindThread(t) && Unprovisioned(t)
  {
    var x := c[Observed(c, inp.lag)];
    if x.Some? && x.value.body.SiteBody? {
      GotoBlind(Job(Site(id, x.value.body.spec), cfg, draw), 0);
    }
  }

  /** The stores agree on the Site and all its objects but those of MariaDB. */
  ghost predicate AgreeBlind(w1: World, w2: World, id: SiteId) {
    && CellOf(w1, SiteKey(id)) == CellOf(w2, SiteKey(id))
    && forall part :: !MariaDBPart(part) ==> CellOf(w1, KeyOf(id, part)) == CellOf(w2, KeyOf(id, part))
  }

  lemma PutBlind(w1: World, w2: World, id: SiteId, k: Key, c: Cell)
    requires AgreeBlind(w1, w2, id)
    ensures AgreeBlind(Put(w1, k, c), Put(w2, k, c), id)
  {
  }

  /** One call, in two stores that agree but for MariaDB objects, with and without the default cluster. */
  lemma StepBlind(w1: World, w2: World, t: Thread, inp: Input, from: nat)
    requires AgreeBlind(w1, w2, t.Id()) && Unprovisioned(t)
    requires NeverProvisions(CellOf(w1, SiteKey(t.Id())), from) && SeesFrom(inp, from)
    ensures var r1, r2 := Step(w1, t, inp), Step(w2, BlindThread(t), inp);
            r2.1 == BlindThread(r1.1) && Unprovisioned(r1.1) && AgreeBlind(r1.0, r2.0, t.Id())
  {
    match t
    case Fetching(id, cfg, draw) => FetchBlind(CellOf(w1, SiteKey(id)), id, cfg, draw, inp, from);
    case Working(job, pc, io, tries) =>
      var k := KeyOf(job.site.id, PartAt(pc));
      NotMariaDB(t);
      WorkBlind(CellOf(w1, k), job, pc, io, tries, inp);
      PutBlind(w1, w2, job.site.id, k, WorkOn(CellOf(w1, k), job, pc, io, tries, inp).0);
    case Reporting(id, outcome, sio, tries) =>
      assert !MariaDBPart(DeploymentPart);
      var r := ReportOn(CellOf(w1, SiteKey(id)), CellOf(w1, KeyOf(id, DeploymentPart)), id, outcome, sio, tries, inp);
      PutBlind(w1, w2, id, SiteKey(id), r.0);
    case Finished(_, _) =>
  }

  // ---- Runs ----

  /** The Site does not provision, at no version from the given one on, and none of its threads thinks so. */
  ghost predicate Plain(s: State, id: SiteId, crew: Crew, from: nat) {
    && Staffed(s, crew) && NeverProvisions(CellOf(s.world, SiteKey(id)), from)
    && forall tid :: WorksFor(tid, id, crew) && tid in s.threads ==> Unprovisioned(s.threads[tid])
  }

  /** Nobody makes the Site provision, and its threads do not read versions at which it still did. */
  ghost predicate KeepsPlain(e: Event, id: SiteId, crew: Crew, from: nat) {
    && Rostered(e, crew)
    && (e.Call? && WorksFor(e.tid, id, crew) ==> SeesFrom(e.input, from))
    && (e.Edit? && e.id == id ==> !ProvisionEnabled(e.spec))
    && (e.Meddle? && e.key == SiteKey(id) && e.to.Some? && e.to.value.body.SiteBody? ==> !ProvisionEnabled(e.to.value.body.spec))
  }

  ghost predicate AllKeepPlain(events: seq<Event>, id: SiteId, crew: Crew, from: nat) {
    forall i :: 0 <= i < |events| ==> KeepsPlain(events[i], id, crew, from)
  }

  /** The states agree on the Site but for MariaDB objects and what its threads know of a default cluster. */
  ghost predicate SameBlind(s1: State, s2: State, id: SiteId, crew: Crew) {
    && AgreeBlind(s1.world, s2.world, id)
    && forall tid :: WorksFor(tid, id, crew) ==>
         && (tid in s1.threads <==> tid in s2.threads)
         && (tid in s1.threads ==> BlindThread(s1.threads[tid]) == BlindThread(s2.threads[tid]))
  }

  /** What the Site can notice: its own events but for meddling with MariaDB objects. */
  ghost predicate Noticed(e: Event, id: SiteId, crew: Crew) {
    Concerns(e, id, crew) && !(e.Meddle? && IsMariaDB(e.key))
  }

  /** The events a Site can notice, in order, without default clusters. */
  ghost function Share(events: seq<Event>, id: SiteId, crew: Crew): seq<Event> {
    if events == [] then []
    else
      var last := events[|events| - 1];
      Share(events[..|events| - 1], id, crew) + if Noticed(last, id, crew) then [BlindEvent(last)] else []
  }

  lemma SitePlain(c: Cell, e: Event, from: nat)
    requires NeverProvisions(c, from)
    ensures e.Edit? && !ProvisionEnabled(e.spec) ==> NeverProvisions(EditCell(c, e.spec), from)
    ensures e.Annotate? ==> NeverProvisions(AnnotateCell(c, e.conditions), from)
  {
  }

  lemma CallPlainSite(w: World, t: Thread, inp: Input, id: SiteId, from: nat)
    requires NeverProvisions(CellOf(w, SiteKey(id)), from)
    ensures NeverProvisions(CellOf(Step(w, t, inp).0, SiteKey(id)), from)
  {
    if t.Working? && t.pc < PARTS {
      KeysApart(t.job.site.id, PartAt(t.pc), id, PartAt(t.pc));
      StepFrame(w, t, inp, SiteKey(id));
    } else if t.Reporting? && t.id != id {
      StepFrame(w, t, inp, SiteKey(id));
    }
  }

  lemma OutsidePlainSite(s: State, e: Event, id: SiteId, crew: Crew, from: nat)
    requires !e.Call? && KeepsPlain(e, id, crew, from) && NeverProvisions(CellOf(s.world, SiteKey(id)), from)
    ensures NeverProvisions(CellOf(Next(s, e).world, SiteKey(id)), from)
  {
    SitePlain(CellOf(s.world, SiteKey(id)), e, from);
    if !(e.Meddle? && e.key == SiteKey(id)) {
      OutsideOnSite(s, e, id);
    }
  }

  lemma PlainNext(s: State, e: Event, id: SiteId, crew: Crew, from: nat)
    requires Plain(s, id, crew, from) && KeepsPlain(e, id, crew, from)
    ensures Plain(Next(s, e), id, crew, from)
  {
    StaffedNext(s, e, crew);
    if e.Call? {
      if e.tid in s.threads {
        CallPlainSite(s.world, s.threads[e.tid], e.input, id, from);
        if WorksFor(e.tid, id, crew) {
          StepBlind(s.world, s.world, s.threads[e.tid], e.input, from);
        }
      }
    } else {
      OutsidePlainSite(s, e, id, crew, from);
    }
  }

  lemma {:induction false} RunPlain(s: State, events: seq<Event>, id: SiteId, crew: Crew, from: nat)
    requires Plain(s, id, crew, from) && AllKeepPlain(events, id, crew, from)
    ensures Plain(Run(s, events), id, crew, from)
  {
    if events == [] {
    } else {
      RunPlain(s, events[..|events| - 1], id, crew, from);
      PlainNext(Run(s, events[..|events| - 1]), events[|events| - 1], id, crew, from);
    }
  }

  lemma CallBlind(s1: State, s2: State, e: Event, id: SiteId, crew: Crew, from: nat)
    requires Plain(s1, id, crew, from) && Plain(s2, id, crew, from) && SameBlind(s1, s2, id, crew)
    requires e.Call? && WorksFor(e.tid, id, crew) && SeesFrom(e.input, from)
    ensures SameBlind(Next(s1, e), Next(s2, e), id, crew)
  {
    if e.tid in s1.threads {
      var t1, t2 := s1.threads[e.tid], s2.threads[e.tid];
      StepBlind(s1.world, s2.world, t1, e.input, from);
      StepBlind(s2.world, s2.world, t2, e.input, from);
    }
  }

  lemma OutsideBlind(s1: State, s2: State, e: Event, id: SiteId)
    requires !e.Call? && AgreeBlind(s1.world, s2.world, id)
    ensures AgreeBlind(Next(s1, e).world, Next(s2, BlindEvent(e)).world, id)
  {
    OutsideCell(s1, s2, e, SiteKey(id));
    forall part | !MariaDBPart(part)
      ensures CellOf(Next(s1, e).world, KeyOf(id, part)) == CellOf(Next(s2, BlindEvent(e)).world, KeyOf(id, part))
    {
      OutsideCell(s1, s2, e, KeyOf(id, part));
    }
  }

  /** An event the Site notices does the same to it in states that agree blindly. */
  lemma NextBlind(s1: State, s2: State, e: Event, id: SiteId, crew: Crew, from: nat)
    requires Plain(s1, id, crew, from) && Plain(s2, id, crew, from) && SameBlind(s1, s2, id, crew) && Noticed(e, id, crew)
    requires KeepsPlain(e, id, crew, from)
    ensures SameBlind(Next(s1, e), Next(s2, BlindEvent(e)), id, crew)
  {
    if e.Call? {
      CallBlind(s1, s2, e, id, crew, from);
    } else {
      OutsideBlind(s1, s2, e, id);
    }
  }

  lemma AgreeIsBlind(w1: World, w2: World, id: SiteId)
    requires Agree(w1, w2, id)
    ensures AgreeBlind(w1, w2, id)
  {
    forall part
      ensures CellOf(w1, KeyOf(id, part)) == CellOf(w2, KeyOf(id, part))
    {
      assert PartAt(IndexOf(part)) == part;
    }
  }

  /** What it does not notice leaves it the same. */
  lemma NextUnnoticed(s: State, e: Event, id: SiteId, crew: Crew)
    requires Staffed(s, crew) && Rostered(e, crew) && !Noticed(e, id, crew)
    ensures SameBlind(s, Next(s, e), id, crew)
  {
    if Concerns(e, id, crew) {
      assert AgreeBlind(s.world, Next(s, e).world, id);
    } else {
      NextElsewhere(s, e, id, crew);
      AgreeIsBlind(s.world, Next(s, e).world, id);
    }
  }

  lemma {:induction false} ShareKeepsPlain(events: seq<Event>, id: SiteId, crew: Crew, from: nat)
    requires AllKeepPlain(events, id, crew, from)
    ensures AllKeepPlain(Share(events, id, crew), id, crew, from)
  {
    if events == [] {
    } else {
      ShareKeepsPlain(events[..|events| - 1], id, crew, from);
    }
  }

  lemma SameBlindTrans(a: State, b: State, c: State, id: SiteId, crew: Crew)
    requires SameBlind(b, a, id, crew) && SameBlind(b, c, id, crew)
    ensures SameBlind(a, c, id, crew)
  {
  }

  /** For a Site that does not provision, a run is as good as what it notices of it. */
  lemma {:induction false} RunShare(s: State, s': State, events: seq<Event>, id: SiteId, crew: Crew, from: nat)
    requires Plain(s, id, crew, from) && Plain(s', id, crew, from) && SameBlind(s, s', id, crew) && AllKeepPlain(events, id, crew, from)
    ensures SameBlind(Run(s, events), Run(s', Share(events, id, crew)), id, crew)
  {
    if events == [] {
    } else {
      var before, last := events[..|events| - 1], events[|events| - 1];
      var mid, share := Run(s, before), Share(before, id, crew);
      RunShare(s, s', before, id, crew, from);
      RunPlain(s, before, id, crew, from);
      ShareKeepsPlain(before, id, crew, from);
      RunPlain(s', share, id, crew, from);
      if Noticed(last, id, crew) {
        NextBlind(mid, Run(s', share), last, id, crew, from);
        RunMore(s', share, BlindEvent(last));
      } else {
        NextUnnoticed(mid, last, id, crew);
        SameBlindTrans(Next(mid, last), mid, Run(s', share), id, crew);
        assert share + [] == share;
      }
    }
  }

  /**
   * Non-interference: take two runs, with any threads for any Sites, restarts, edits, rollouts, other writers and
   * meddling, in which a Site notices the same events and does not provision: either at no version of its history,
   * whatever its threads read, or from some version on, if they read fresh. However the runs differ in MariaDB
   * objects, in default clusters and in all that concerns other Sites, the Site's threads make the same calls and
   * reach the same outcomes, and the histories of the Site and of all its objects but MariaDB's are the same.
   */
  lemma NonInterference(s1: State, events1: seq<Event>, s2: State, events2: seq<Event>, id: SiteId, crew: Crew, from: nat)
    requires Plain(s1, id, crew, from) && Plain(s2, id, crew, from) && SameBlind(s1, s2, id, crew)
    requires AllKeepPlain(events1, id, crew, from) && AllKeepPlain(events2, id, crew, from)
    requires Share(events1, id, crew) == Share(events2, id, crew)
    ensures SameBlind(Run(s1, events1), Run(s2, events2), id, crew)
  {
    RunShare(s1, s2, events1, id, crew, from);
    RunShare(s2, s2, events2, id, crew, from);
    SameBlindFlip(Run(s2, events2), Run(s2, Share(events2, id, crew)), id, crew);
    SameBlindFlip(Run(s1, events1), Run(s2, Share(events1, id, crew)), id, crew);
    SameBlindTrans(Run(s1, events1), Run(s2, Share(events1, id, crew)), Run(s2, events2), id, crew);
  }

  lemma SameBlindFlip(a: State, b: State, id: SiteId, crew: Crew)
    requires SameBlind(a, b, id, crew)
    ensures SameBlind(b, a, id, crew)
  {
  }

  /** A call of one of the Site's threads never touches a MariaDB object. */
  lemma CallSparesMariaDB(w: World, t: Thread, inp: Input, k: Key)
    requires Unprovisioned(t) && IsMariaDB(k)
    ensures CellOf(Step(w, t, inp).0, k) == CellOf(w, k)
  {
    if t.Working? {
      NotMariaDB(t);
    }
    StepFrame(w, t, inp, k);
  }

  lemma NextSparesMariaDB(s: State, e: Event, id: SiteId, crew: Crew, from: nat, part: Part)
    requires Plain(s, id, crew, from) && KeepsPlain(e, id, crew, from) && MariaDBPart(part)
    requires !(e.Meddle? && e.key == KeyOf(id, part))
    ensures CellOf(Next(s, e).world, KeyOf(id, part)) == CellOf(s.world, KeyOf(id, part))
  {
    if !e.Call? {
      OutsideSpares(s, e, id, part);
    } else if e.tid in s.threads {
      if WorksFor(e.tid, id, crew) {
        CallSparesMariaDB(s.world, s.threads[e.tid], e.input, KeyOf(id, part));
      } else {
        StepSpares(s.world, s.threads[e.tid], e.input, id, part);
      }
    }
  }

  /** In every such run the Site's MariaDB objects, if others made some, are as others left them. */
  lemma {:induction false} NeverWritesMariaDB(s: State, events: seq<Event>, id: SiteId, crew: Crew, from: nat, part: Part)
    requires Plain(s, id, crew, from) && AllKeepPlain(events, id, crew, from) && MariaDBPart(part)
    requires forall i :: 0 <= i < |events| ==> !(events[i].Meddle? && events[i].key == KeyOf(id, part))
    ensures CellOf(Run(s, events).world, KeyOf(id, part)) == CellOf(s.world, KeyOf(id, part))
  {
    if events == [] {
    } else {
      var before := events[..|events| - 1];
      RunPlain(s, before, id, crew, from);
      NeverWritesMariaDB(s, before, id, crew, from, part);
      NextSparesMariaDB(Run(s, before), events[|events| - 1], id, crew, from, part);
    }
  }
}
