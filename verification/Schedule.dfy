/** Reconciles of different Sites do not interfere, whatever the schedule. */
module Schedule {
  import opened SiteTypes
  import opened Objects
  import opened Machine

  /** Two stores agree on everything that belongs to a Site. */
  predicate Agree(w1: World, w2: World, id: SiteId) {
    && CellOf(w1, SiteKey(id)) == CellOf(w2, SiteKey(id))
    && forall pc: nat :: pc < PARTS ==> CellOf(w1, KeyOf(id, PartAt(pc))) == CellOf(w2, KeyOf(id, PartAt(pc)))
  }

  /** Two stores hold the same history under every key. */
  ghost predicate SameStore(w1: World, w2: World) {
    forall k :: CellOf(w1, k) == CellOf(w2, k)
  }

  ghost predicate Belongs(k: Key, id: SiteId) {
    k == SiteKey(id) || exists pc: nat :: pc < PARTS && k == KeyOf(id, PartAt(pc))
  }

  lemma GotoId(job: Job, pc: nat)
    ensures Goto(job, pc).Id() == job.site.id
    decreases PARTS - pc
  {
    if pc < PARTS && OpFor(job, PartAt(pc)).Skip? {
      GotoId(job, pc + 1);
    }
  }

  lemma WorkId(c: Cell, job: Job, pc: nat, io: Io, tries: nat, inp: Input)
    requires pc < PARTS
    ensures WorkOn(c, job, pc, io, tries, inp).1.Id() == job.site.id
  {
    GotoId(job, pc + 1);
  }

  lemma FetchId(c: Cell, id: SiteId, cfg: OperatorConfig, draw: string -> string, inp: Input)
    ensures FetchOn(c, id, cfg, draw, inp).Id() == id
  {
    var x := c[Observed(c, inp.lag)];
    if x.Some? && x.value.body.SiteBody? {
      GotoId(Job(Site(id, x.value.body.spec), cfg, draw), 0);
    }
  }

  lemma StepId(w: World, t: Thread, inp: Input)
    ensures Step(w, t, inp).1.Id() == t.Id()
  {
    if t.Fetching? {
      FetchId(CellOf(w, SiteKey(t.id)), t.id, t.cfg, t.draw, inp);
    } else if t.Working? && t.pc < PARTS {
      WorkId(CellOf(w, KeyOf(t.job.site.id, PartAt(t.pc))), t.job, t.pc, t.io, t.tries, inp);
    }
  }

  lemma BelongsToOne(k: Key, a: SiteId, b: SiteId)
    requires Belongs(k, a) && Belongs(k, b)
    ensures a == b
  {
    if pc: nat, pc': nat :| pc < PARTS && pc' < PARTS && k == KeyOf(a, PartAt(pc)) && k == KeyOf(b, PartAt(pc')) {
      KeysApart(a, PartAt(pc), b, PartAt(pc'));
    }
    forall pc: nat | pc < PARTS
      ensures KeyOf(a, PartAt(pc)) != SiteKey(b) && KeyOf(b, PartAt(pc)) != SiteKey(a)
    {
      KeysApart(a, PartAt(pc), b, PartAt(pc));
      KeysApart(b, PartAt(pc), a, PartAt(pc));
    }
  }

  /** A call leaves alone whatever does not belong to its Site. */
  lemma StepElsewhere(w: World, t: Thread, inp: Input, k: Key)
    requires !Belongs(k, t.Id())
    ensures CellOf(Step(w, t, inp).0, k) == CellOf(w, k)
  {
    StepFrame(w, t, inp, k);
  }

  lemma StepSparesSite(w: World, t: Thread, inp: Input, id: SiteId)
    requires t.Id() != id
    ensures Agree(w, Step(w, t, inp).0, id)
  {
    var w' := Step(w, t, inp).0;
    forall k | Belongs(k, id)
      ensures CellOf(w', k) == CellOf(w, k)
    {
      if Belongs(k, t.Id()) {
        BelongsToOne(k, id, t.Id());
      }
      StepElsewhere(w, t, inp, k);
    }
    assert Belongs(SiteKey(id), id);
    forall pc: nat | pc < PARTS
      ensures Belongs(KeyOf(id, PartAt(pc)), id)
    {
    }
  }

  /** A call depends on nothing but what belongs to its Site. */
  lemma StepLocal(w1: World, w2: World, t: Thread, inp: Input)
    requires Agree(w1, w2, t.Id())
    ensures Step(w1, t, inp).1 == Step(w2, t, inp).1
    ensures Agree(Step(w1, t, inp).0, Step(w2, t, inp).0, t.Id())
  {
    if t.Reporting? {
      assert PartAt(6) == DeploymentPart;
    }
  }

  // ---- Threads running alone ----

  /** The inputs one thread meets in a schedule, in order. */
  function Inputs(events: seq<Event>, tid: nat): seq<Input> {
    if events == [] then []
    else
      var last := events[|events| - 1];
      Inputs(events[..|events| - 1], tid) + if last.Call? && last.tid == tid then [last.input] else []
  }

  lemma SoloMore(w: World, t: Thread, inputs: seq<Input>, inp: Input)
    ensures Solo(w, t, inputs + [inp]) == Step(Solo(w, t, inputs).0, Solo(w, t, inputs).1, inp)
  {
    assert (inputs + [inp])[..|inputs|] == inputs;
  }

  // ---- Which Site an event concerns ----

  /** Which Site each thread works for, for good. */
  type Crew = map<nat, SiteId>

  ghost predicate Staffed(s: State, crew: Crew) {
    forall tid :: tid in s.threads ==> tid in crew && s.threads[tid].Id() == crew[tid]
  }

  predicate Rostered(e: Event, crew: Crew) {
    e.Start? ==> e.tid in crew && crew[e.tid] == e.id
  }

  ghost predicate AllRostered(events: seq<Event>, crew: Crew) {
    forall i :: 0 <= i < |events| ==> Rostered(events[i], crew)
  }

  predicate WorksFor(tid: nat, id: SiteId, crew: Crew) {
    tid in crew && crew[tid] == id
  }

  ghost predicate Concerns(e: Event, id: SiteId, crew: Crew) {
    match e
    case Call(tid, _) => WorksFor(tid, id, crew)
    case Start(tid, _, _, _) => WorksFor(tid, id, crew)
    case Edit(other, _) => other == id
    case Annotate(other, _) => other == id
    case Rollout(other, _) => other == id
    case Meddle(key, _) => Belongs(key, id)
  }

  /** The events of a run that concern a Site, in order. */
  ghost function Project(events: seq<Event>, id: SiteId, crew: Crew): seq<Event> {
    if events == [] then []
    else
      var last := events[|events| - 1];
      Project(events[..|events| - 1], id, crew) + if Concerns(last, id, crew) then [last] else []
  }

  lemma ConcernsOne(e: Event, a: SiteId, b: SiteId, crew: Crew)
    requires Concerns(e, a, crew) && Concerns(e, b, crew)
    ensures a == b
  {
    if e.Meddle? {
      BelongsToOne(e.key, a, b);
    }
  }

  // ---- A Site's share of a run ----

  /** Two states agree on a Site: on all its objects, and on the threads that work for it. */
  ghost predicate SameSite(s1: State, s2: State, id: SiteId, crew: Crew) {
    && Agree(s1.world, s2.world, id)
    && forall tid :: WorksFor(tid, id, crew) ==>
         (tid in s1.threads <==> tid in s2.threads) && (tid in s1.threads ==> s1.threads[tid] == s2.threads[tid])
  }

  lemma StaffedNext(s: State, e: Event, crew: Crew)
    requires Staffed(s, crew) && Rostered(e, crew)
    ensures Staffed(Next(s, e), crew)
  {
    if e.Call? && e.tid in s.threads {
      StepId(s.world, s.threads[e.tid], e.input);
    }
  }

  lemma {:induction false} RunStaffed(s: State, events: seq<Event>, crew: Crew)
    requires Staffed(s, crew) && AllRostered(events, crew)
    ensures Staffed(Run(s, events), crew)
  {
    if events == [] {
    } else {
      RunStaffed(s, events[..|events| - 1], crew);
      StaffedNext(Run(s, events[..|events| - 1]), events[|events| - 1], crew);
    }
  }

  /** Agreement is a matter of the Site's keys. */
  lemma AgreeByKeys(w1: World, w2: World, id: SiteId)
    requires forall k :: Belongs(k, id) ==> CellOf(w1, k) == CellOf(w2, k)
    ensures Agree(w1, w2, id)
  {
    assert Belongs(SiteKey(id), id);
    forall pc: nat | pc < PARTS
      ensures Belongs(KeyOf(id, PartAt(pc)), id)
    {
    }
  }

  /** Where an event outside the threads may write. */
  lemma OutsideFrame(s: State, e: Event, k: Key)
    requires !e.Call?
    requires e.Edit? || e.Annotate? ==> k != SiteKey(e.id)
    requires e.Rollout? ==> k != KeyOf(e.id, DeploymentPart)
    requires e.Meddle? ==> k != e.key
    ensures CellOf(Next(s, e).world, k) == CellOf(s.world, k)
  {
  }

  lemma SiteKeysBelong(id: SiteId)
    ensures Belongs(SiteKey(id), id) && Belongs(KeyOf(id, DeploymentPart), id)
  {
    assert PartAt(6) == DeploymentPart;
  }

  lemma OutsideElsewhere(s: State, e: Event, id: SiteId, crew: Crew)
    requires !e.Call? && !Concerns(e, id, crew)
    ensures Agree(s.world, Next(s, e).world, id)
  {
    forall k | Belongs(k, id)
      ensures CellOf(s.world, k) == CellOf(Next(s, e).world, k)
    {
      if e.Edit? || e.Annotate? || e.Rollout? {
        SiteKeysBelong(e.id);
        if Belongs(k, e.id) {
          BelongsToOne(k, id, e.id);
        }
      }
      OutsideFrame(s, e, k);
    }
    AgreeByKeys(s.world, Next(s, e).world, id);
  }

  /** An event that does not concern a Site leaves it alone. */
  lemma NextElsewhere(s: State, e: Event, id: SiteId, crew: Crew)
    requires Staffed(s, crew) && Rostered(e, crew) && !Concerns(e, id, crew)
    ensures SameSite(s, Next(s, e), id, crew)
  {
    if e.Call? {
      if e.tid in s.threads {
        StepSparesSite(s.world, s.threads[e.tid], e.input, id);
      }
    } else {
      OutsideElsewhere(s, e, id, crew);
    }
  }

  lemma OutsideLocal(s1: State, s2: State, e: Event, id: SiteId)
    requires !e.Call? && Agree(s1.world, s2.world, id)
    requires e.Edit? || e.Annotate? || e.Rollout? ==> e.id == id
    ensures Agree(Next(s1, e).world, Next(s2, e).world, id)
  {
    AgreeKeys(s1.world, s2.world, id);
    forall k | Belongs(k, id)
      ensures CellOf(Next(s1, e).world, k) == CellOf(Next(s2, e).world, k)
    {
      OutsideCell(s1, s2, e, k);
    }
    AgreeByKeys(Next(s1, e).world, Next(s2, e).world, id);
  }

  lemma AgreeKeys(w1: World, w2: World, id: SiteId)
    requires Agree(w1, w2, id)
    ensures forall k :: Belongs(k, id) ==> CellOf(w1, k) == CellOf(w2, k)
  {
  }

  lemma OutsideCell(s1: State, s2: State, e: Event, k: Key)
    requires !e.Call? && CellOf(s1.world, k) == CellOf(s2.world, k)
    ensures CellOf(Next(s1, e).world, k) == CellOf(Next(s2, e).world, k)
  {
  }

  /** An event that concerns a Site does the same to it in states that agree on it. */
  lemma NextLocal(s1: State, s2: State, e: Event, id: SiteId, crew: Crew)
    requires SameSite(s1, s2, id, crew) && Staffed(s1, crew) && Staffed(s2, crew) && Concerns(e, id, crew)
    ensures SameSite(Next(s1, e), Next(s2, e), id, crew)
  {
    if e.Call? {
      if e.tid in s1.threads {
        StepLocal(s1.world, s2.world, s1.threads[e.tid], e.input);
      }
    } else {
      OutsideLocal(s1, s2, e, id);
    }
  }

  lemma RunMore(s: State, events: seq<Event>, e: Event)
    ensures Run(s, events + [e]) == Next(Run(s, events), e)
  {
    assert (events + [e])[..|events|] == events;
  }

  lemma {:induction false} ProjectRostered(events: seq<Event>, id: SiteId, crew: Crew)
    requires AllRostered(events, crew)
    ensures AllRostered(Project(events, id, crew), crew)
  {
    if events == [] {
    } else {
      ProjectRostered(events[..|events| - 1], id, crew);
    }
  }

  lemma SameSiteTrans(a: State, b: State, c: State, id: SiteId, crew: Crew)
    requires SameSite(b, a, id, crew) && SameSite(b, c, id, crew)
    ensures SameSite(a, c, id, crew)
  {
  }

  /** For a Site a run is as good as its share of the events. */
  lemma {:induction false} RunProject(s: State, events: seq<Event>, id: SiteId, crew: Crew)
    requires Staffed(s, crew) && AllRostered(events, crew)
    ensures SameSite(Run(s, events), Run(s, Project(events, id, crew)), id, crew)
  {
    if events == [] {
    } else {
      var before, last := events[..|events| - 1], events[|events| - 1];
      var mid, share := Run(s, before), Project(before, id, crew);
      RunProject(s, before, id, crew);
      RunStaffed(s, before, crew);
      ProjectRostered(before, id, crew);
      RunStaffed(s, share, crew);
      if Concerns(last, id, crew) {
        NextLocal(mid, Run(s, share), last, id, crew);
        RunMore(s, share, last);
      } else {
        NextElsewhere(mid, last, id, crew);
        SameSiteTrans(Next(mid, last), mid, Run(s, share), id, crew);
        assert share + [] == share;
      }
    }
  }

  /** Nobody meddles with keys that no Site derives. */
  ghost predicate NoStrays(events: seq<Event>) {
    forall i :: 0 <= i < |events| && events[i].Meddle? ==> exists id :: Belongs(events[i].key, id)
  }

  lemma StrayNext(s: State, e: Event, k: Key)
    requires (forall id :: !Belongs(k, id)) && (e.Meddle? ==> e.key != k)
    ensures CellOf(Next(s, e).world, k) == CellOf(s.world, k)
  {
    if e.Call? {
      if e.tid in s.threads {
        StepElsewhere(s.world, s.threads[e.tid], e.input, k);
      }
    } else {
      if e.Edit? || e.Annotate? || e.Rollout? {
        SiteKeysBelong(e.id);
      }
      OutsideFrame(s, e, k);
    }
  }

  lemma {:induction false} StrayUntouched(s: State, events: seq<Event>, k: Key)
    requires NoStrays(events) && forall id :: !Belongs(k, id)
    ensures CellOf(Run(s, events).world, k) == CellOf(s.world, k)
  {
    if events == [] {
    } else {
      StrayUntouched(s, events[..|events| - 1], k);
      StrayNext(Run(s, events[..|events| - 1]), events[|events| - 1], k);
    }
  }

  /** Two runs with the same share for a Site leave it the same. */
  lemma SameShare(s: State, events: seq<Event>, others: seq<Event>, id: SiteId, crew: Crew)
    requires Staffed(s, crew) && AllRostered(events, crew) && AllRostered(others, crew)
    requires Project(events, id, crew) == Project(others, id, crew)
    ensures SameSite(Run(s, events), Run(s, others), id, crew)
  {
    RunProject(s, events, id, crew);
    RunProject(s, others, id, crew);
  }

  /**
   * Schedule independence: for any number of Sites, each with any number of threads, restarts, edits, rollouts and
   * other writers, two interleavings that show each Site the same events in the same order, with the same faults,
   * lags, draws and clock readings, end in the same store and with the same threads.
   */
  lemma ScheduleIndependence(s: State, events: seq<Event>, others: seq<Event>, crew: Crew)
    requires Staffed(s, crew) && AllRostered(events, crew) && AllRostered(others, crew) && NoStrays(events) && NoStrays(others)
    requires forall id :: Project(events, id, crew) == Project(others, id, crew)
    ensures Run(s, events).threads == Run(s, others).threads
    ensures SameStore(Run(s, events).world, Run(s, others).world)
  {
    var a, b := Run(s, events), Run(s, others);
    forall k
      ensures CellOf(a.world, k) == CellOf(b.world, k)
    {
      if id :| Belongs(k, id) {
        SameShare(s, events, others, id, crew);
        AgreeKeys(a.world, b.world, id);
      } else {
        StrayUntouched(s, events, k);
        StrayUntouched(s, others, k);
      }
    }
    RunStaffed(s, events, crew);
    RunStaffed(s, others, crew);
    forall tid
      ensures tid in a.threads <==> tid in b.threads
      ensures tid in a.threads ==> a.threads[tid] == b.threads[tid]
    {
      if tid in crew {
        SameShare(s, events, others, crew[tid], crew);
        assert WorksFor(tid, crew[tid], crew);
      }
    }
    assert a.threads.Keys == b.threads.Keys;
  }

  // ---- One after another ----

  /** Each Site in turn meets all the events that concern it. */
  ghost function OneByOne(events: seq<Event>, order: seq<SiteId>, crew: Crew): seq<Event> {
    if order == [] then []
    else
      var last := order[|order| - 1];
      OneByOne(events, order[..|order| - 1], crew) + Project(events, last, crew)
  }

  lemma {:induction false} ProjectJoin(a: seq<Event>, b: seq<Event>, id: SiteId, crew: Crew)
    ensures Project(a + b, id, crew) == Project(a, id, crew) + Project(b, id, crew)
  {
    if b == [] {
      assert a + b == a;
    } else {
      assert (a + b)[..|a + b| - 1] == a + b[..|b| - 1];
      ProjectJoin(a, b[..|b| - 1], id, crew);
    }
  }

  lemma {:induction false} ProjectTwice(events: seq<Event>, a: SiteId, b: SiteId, crew: Crew)
    ensures Project(Project(events, a, crew), b, crew) == if a == b then Project(events, a, crew) else []
  {
    if events == [] {
    } else {
      var before, last := events[..|events| - 1], events[|events| - 1];
      ProjectTwice(before, a, b, crew);
      if Concerns(last, a, crew) {
        ProjectJoin(Project(before, a, crew), [last], b, crew);
        assert [last][..0] == [];
        assert Project([last], b, crew) == if Concerns(last, b, crew) then [last] else [];
        if Concerns(last, b, crew) {
          ConcernsOne(last, a, b, crew);
        }
      } else {
        assert Project(before, a, crew) + [] == Project(before, a, crew);
      }
    }
  }

  ghost predicate EachOnce(order: seq<SiteId>) {
    forall i, j :: 0 <= i < j < |order| ==> order[i] != order[j]
  }

  lemma {:induction false} OneByOneShares(events: seq<Event>, order: seq<SiteId>, id: SiteId, crew: Crew)
    requires EachOnce(order)
    ensures Project(OneByOne(events, order, crew), id, crew) == if id in order then Project(events, id, crew) else []
  {
    if order == [] {
    } else {
      var before, last := order[..|order| - 1], order[|order| - 1];
      var a, b := OneByOne(events, before, crew), Project(events, last, crew);
      OneByOneShares(events, before, id, crew);
      ProjectJoin(a, b, id, crew);
      ProjectTwice(events, last, id, crew);
      assert forall x :: x in order <==> x in before || x == last;
    }
  }

  lemma {:induction false} ProjectFrom(events: seq<Event>, id: SiteId, crew: Crew, i: nat)
    requires i < |Project(events, id, crew)|
    ensures exists j :: 0 <= j < |events| && events[j] == Project(events, id, crew)[i]
  {
    var n := |events| - 1;
    if i < |Project(events[..n], id, crew)| {
      ProjectFrom(events[..n], id, crew, i);
      var j :| 0 <= j < n && events[..n][j] == Project(events[..n], id, crew)[i];
      assert events[j] == Project(events, id, crew)[i];
    } else {
      assert events[n] == Project(events, id, crew)[i];
    }
  }

  lemma {:induction false} OneByOneFrom(events: seq<Event>, order: seq<SiteId>, crew: Crew, i: nat)
    requires i < |OneByOne(events, order, crew)|
    ensures exists j :: 0 <= j < |events| && events[j] == OneByOne(events, order, crew)[i]
  {
    var before, last := order[..|order| - 1], order[|order| - 1];
    var a := OneByOne(events, before, crew);
    if i < |a| {
      OneByOneFrom(events, before, crew, i);
    } else {
      ProjectFrom(events, last, crew, i - |a|);
    }
  }

  lemma OneByOneOrderly(events: seq<Event>, order: seq<SiteId>, crew: Crew)
    requires AllRostered(events, crew) && NoStrays(events)
    ensures AllRostered(OneByOne(events, order, crew), crew) && NoStrays(OneByOne(events, order, crew))
  {
    var all := OneByOne(events, order, crew);
    forall i | 0 <= i < |all|
      ensures Rostered(all[i], crew) && (all[i].Meddle? ==> exists id :: Belongs(all[i].key, id))
    {
      OneByOneFrom(events, order, crew, i);
    }
  }

  /** Any interleaving leaves what running the Sites one after another, in any order, leaves. */
  lemma AsIfOneByOne(s: State, events: seq<Event>, order: seq<SiteId>, crew: Crew)
    requires Staffed(s, crew) && AllRostered(events, crew) && NoStrays(events) && EachOnce(order)
    requires forall id :: id !in order ==> Project(events, id, crew) == []
    ensures Run(s, events).threads == Run(s, OneByOne(events, order, crew)).threads
    ensures SameStore(Run(s, events).world, Run(s, OneByOne(events, order, crew)).world)
  {
    OneByOneOrderly(events, order, crew);
    forall id
      ensures Project(events, id, crew) == Project(OneByOne(events, order, crew), id, crew)
    {
      OneByOneShares(events, order, id, crew);
    }
    ScheduleIndependence(s, events, OneByOne(events, order, crew), crew);
  }
}

