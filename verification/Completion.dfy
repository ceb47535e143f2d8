/** What the status says once a reconcile has completed, and that two runs ending alike say the same. */
module Completion {
  import opened Wrappers
  import opened SiteTypes
  import opened Status
  import opened Objects
  import opened Machine
  import opened Settling
  import opened StatusWrites
  import opened Runs

  /** The thread's next call reads the Deployment for the status. */
  predicate Judging(t: Thread) {
    t.Reporting? && t.sio.ReadDeployment?
  }

  function Sees(w: World, t: Thread, inp: Input): Option<DeploymentView>
    requires Judging(t)
  {
    var c := CellOf(w, KeyOf(t.id, DeploymentPart));
    View(if inp.fault.NoFault? then c[Observed(c, inp.lag)] else None)
  }

  /** The Deployment as thread tid last saw it for a status update. */
  function Judged(s: State, events: seq<Event>, tid: nat): Option<DeploymentView> {
    if events == [] then None
    else
      var before, last := events[..|events| - 1], events[|events| - 1];
      var mid := Run(s, before);
      if last.Call? && last.tid == tid && tid in mid.threads && Judging(mid.threads[tid])
      then Sees(mid.world, mid.threads[tid], last.input)
      else Judged(s, before, tid)
  }

  /** The conditions about to be written are the verdict on what was seen, on the version of the Site that was read. */
  ghost predicate Judges(w: World, t: Thread, seen: Option<DeploymentView>) {
    t.Reporting? && t.sio.WriteStatus? ==>
      var c, v := CellOf(w, SiteKey(t.id)), t.sio.version;
      && v < |c| && IsSite(c[v])
      && exists now :: t.sio.conditions
                       == Applied(c[v].value.body.conditions, c[v].value.body.generation, VerdictOn(seen, Said(t.outcome)), now)
  }

  /** What an outcome says. */
  function Said(outcome: Option<Error>): Option<string> {
    if outcome.Some? then Some(Message(outcome.value)) else None
  }

  lemma JudgesGrows(w: World, w': World, t: Thread, seen: Option<DeploymentView>)
    requires Judges(w, t, seen) && Grows(w, w')
    ensures Judges(w', t, seen)
  {
    if t.Reporting? {
      assert CellOf(w, SiteKey(t.id)) <= CellOf(w', SiteKey(t.id));
    }
  }

  /** One call of the thread itself. */
  lemma StepJudges(w: World, t: Thread, inp: Input, seen: Option<DeploymentView>)
    requires Sound(w, t) && Judges(w, t, seen)
    ensures var r := Step(w, t, inp); Judges(w, r.1, if Judging(t) then Sees(w, t, inp) else seen)
  {
    if t.Working? && t.pc < PARTS {
      WorkMoves(CellAt(t.job, w, t.pc), t.job, t.pc, t.io, t.tries, inp);
      GotoForward(t.job, t.pc + 1);
    } else if t.Fetching? {
      var f := FetchOf(w, t, inp);
      if f.Some? {
        GotoForward(f.value.job, 0);
      }
    } else if Judging(t) {
      JudgingJudges(w, t, inp);
    }
  }

  lemma JudgingJudges(w: World, t: Thread, inp: Input)
    requires Sound(w, t) && Judging(t)
    ensures Judges(w, Step(w, t, inp).1, Sees(w, t, inp))
  {
    var body := t.sio.site;
    var deploy := CellOf(w, KeyOf(t.id, DeploymentPart));
    var x := if inp.fault.NoFault? then deploy[Observed(deploy, inp.lag)] else None;
    var conditions := Applied(body.conditions, body.generation, Verdicts(x, t.outcome), inp.now);
    assert Step(w, t, inp).1 == Reporting(t.id, t.outcome, WriteStatus(t.sio.version, conditions), t.tries);
    assert conditions == Applied(body.conditions, body.generation, VerdictOn(Sees(w, t, inp), Said(t.outcome)), inp.now);
  }

  lemma {:induction false} RunJudges(s: State, events: seq<Event>, id: SiteId, tid: nat)
    requires AllSound(s) && Idle(s, id, tid)
    ensures var s' := Run(s, events);
            tid in s'.threads && s'.threads[tid].Id() == id ==> Judges(s'.world, s'.threads[tid], Judged(s, events, tid))
  {
    if events == [] {
    } else {
      var before, last := events[..|events| - 1], events[|events| - 1];
      var mid := Run(s, before);
      RunSound(s, before);
      RunJudges(s, before, id, tid);
      NextJudges(mid, last, id, tid, Judged(s, before, tid), Judged(s, events, tid));
    }
  }

  lemma NextJudges(mid: State, e: Event, id: SiteId, tid: nat, seen: Option<DeploymentView>, seen': Option<DeploymentView>)
    requires AllSound(mid)
    requires tid in mid.threads && mid.threads[tid].Id() == id ==> Judges(mid.world, mid.threads[tid], seen)
    requires seen' == if e.Call? && e.tid == tid && tid in mid.threads && Judging(mid.threads[tid])
                      then Sees(mid.world, mid.threads[tid], e.input) else seen
    ensures var s' := Next(mid, e);
            tid in s'.threads && s'.threads[tid].Id() == id ==> Judges(s'.world, s'.threads[tid], seen')
  {
    NextSound(mid, e);
    if tid in mid.threads && !(e.Start? && e.tid == tid) {
      var t, s' := mid.threads[tid], Next(mid, e);
      if e.Call? && e.tid == tid {
        StepSound(mid.world, t, e.input);
        if t.Id() == id {
          StepJudges(mid.world, t, e.input, seen);
          JudgesGrows(mid.world, s'.world, s'.threads[tid], seen');
        }
      } else if t.Id() == id {
        JudgesGrows(mid.world, s'.world, t, seen);
      }
    }
  }

  // ---- Completed reconciles ----

  /** The last event is the status write with which thread tid completes a reconcile of the Site without error. */
  ghost predicate Completes(s: State, events: seq<Event>, id: SiteId, tid: nat) {
    events != [] &&
    var before, last := events[..|events| - 1], events[|events| - 1];
    var mid, s' := Run(s, before), Run(s, events);
    && last.Call? && last.tid == tid && tid in mid.threads && tid in s'.threads
    && mid.threads[tid].Reporting? && mid.threads[tid].id == id && mid.threads[tid].sio.WriteStatus?
    && s'.threads[tid] == Finished(id, None)
  }

  /** The operator's three types say the verdict, stamped with the Site's generation, and nothing else but the time. */
  ghost predicate Says(w: World, id: SiteId, v: Verdict) {
    IsSite(Current(w, SiteKey(id))) &&
    forall t :: Ours(t) ==>
      Timeless(Lookup(ConditionsOf(w, id), t)) == Some(v.AsCondition(t, GenerationOf(w, id)))
  }

  lemma AppliedSays(cs: seq<Condition>, generation: nat, v: Verdict, now: int, t: string)
    requires Ours(t)
    ensures Timeless(Lookup(Applied(cs, generation, v, now), t)) == Some(v.AsCondition(t, generation))
  {
    AppliedLookup(cs, generation, v, now, t);
  }

  /** The call is a status write that reaches the newest version of the Site, whatever the thread hears of it. */
  predicate Lands(w: World, t: Thread, inp: Input) {
    && t.Reporting? && t.sio.WriteStatus? && !inp.fault.Lost?
    && StatusCell(CellOf(w, SiteKey(t.id)), t.sio.version, t.sio.conditions).1.None?
  }

  lemma LandsOn(w: World, t: Thread, inp: Input)
    requires Sound(w, t) && Lands(w, t, inp)
    ensures var c, w' := CellOf(w, SiteKey(t.id)), Step(w, t, inp).0;
            && t.sio.version == |c| - 1 && IsSite(Now(c)) && IsSite(Current(w', SiteKey(t.id)))
            && ConditionsOf(w', t.id) == t.sio.conditions && GenerationOf(w', t.id) == Now(c).value.body.generation
  {
  }

  lemma WriteSays(w: World, t: Thread, inp: Input, seen: Option<DeploymentView>)
    requires Sound(w, t) && Judges(w, t, seen) && Lands(w, t, inp)
    ensures Says(Step(w, t, inp).0, t.id, VerdictOn(seen, Said(t.outcome)))
  {
    var c, conditions := CellOf(w, SiteKey(t.id)), t.sio.conditions;
    var v := VerdictOn(seen, Said(t.outcome));
    LandsOn(w, t, inp);
    var body := Now(c).value.body;
    var now :| conditions == Applied(body.conditions, body.generation, v, now);
    forall ctype | Ours(ctype)
      ensures Timeless(Lookup(conditions, ctype)) == Some(v.AsCondition(ctype, body.generation))
    {
      AppliedSays(body.conditions, body.generation, v, now, ctype);
    }
  }

  /** A status write that is seen to succeed was on the newest version. */
  lemma SuccessLands(w: World, t: Thread, inp: Input)
    requires t.Reporting? && t.sio.WriteStatus? && Step(w, t, inp).1 == Finished(t.id, None)
    ensures Lands(w, t, inp) && t.outcome.None?
  {
  }

  /** The last event is a status write of thread tid for the Site, with the outcome of its reconcile, that lands. */
  ghost predicate Reports(s: State, events: seq<Event>, id: SiteId, tid: nat, outcome: Option<Error>) {
    events != [] &&
    var before, last := events[..|events| - 1], events[|events| - 1];
    var mid := Run(s, before);
    && last.Call? && last.tid == tid && tid in mid.threads && Lands(mid.world, mid.threads[tid], last.input)
    && mid.threads[tid].id == id && mid.threads[tid].outcome == outcome
  }

  /** When a status write lands, the status says the verdict on the outcome and the Deployment as it was last seen. */
  lemma ReportSays(s: State, events: seq<Event>, id: SiteId, tid: nat, outcome: Option<Error>)
    requires AllSound(s) && Idle(s, id, tid) && Reports(s, events, id, tid, outcome)
    ensures Says(Run(s, events).world, id, VerdictOn(Judged(s, events, tid), Said(outcome)))
  {
    var before, last := events[..|events| - 1], events[|events| - 1];
    var mid := Run(s, before);
    RunSound(s, before);
    RunJudges(s, before, id, tid);
    WriteSays(mid.world, mid.threads[tid], last.input, Judged(s, before, tid));
  }

  /** When a reconcile completes, the status says the verdict on the Deployment as the reconcile last saw it. */
  lemma CompletionSays(s: State, events: seq<Event>, id: SiteId, tid: nat)
    requires AllSound(s) && Idle(s, id, tid) && Completes(s, events, id, tid)
    ensures Says(Run(s, events).world, id, VerdictOn(Judged(s, events, tid), None))
  {
    var before, last := events[..|events| - 1], events[|events| - 1];
    var mid := Run(s, before);
    SuccessLands(mid.world, mid.threads[tid], last.input);
    ReportSays(s, events, id, tid, None);
  }

  // ---- What the stored conditions mean ----

  /** A condition of that type is there, with that status, for that generation. */
  predicate Shows(cs: seq<Condition>, ctype: string, holds: bool, generation: nat) {
    var c := Lookup(cs, ctype);
    c.Some? && c.value.status == (if holds then IsTrue else IsFalse) && c.value.observedGeneration == generation
  }

  lemma SaysShows(w: World, id: SiteId, v: Verdict, ctype: string, holds: bool)
    requires Says(w, id, v) && Ours(ctype) && v.Of(ctype) == if holds then IsTrue else IsFalse
    ensures Shows(ConditionsOf(w, id), ctype, holds, GenerationOf(w, id))
    ensures Lookup(ConditionsOf(w, id), ctype).value.message == v.message
  {
    assert Timeless(Lookup(ConditionsOf(w, id), ctype)) == Some(v.AsCondition(ctype, GenerationOf(w, id)));
  }

  /**
   * In every run of any threads, edits and other writers, when the status write of a reconcile that ended with an
   * error lands, the Site is Degraded with the error's message, and neither Available nor Progressing, for the
   * generation it has then; and the thread has finished with that error.
   */
  lemma ErrorShows(s: State, events: seq<Event>, id: SiteId, tid: nat, e: Error)
    requires AllSound(s) && Idle(s, id, tid) && Reports(s, events, id, tid, Some(e))
    ensures var w := Run(s, events).world;
            var cs, generation := ConditionsOf(w, id), GenerationOf(w, id);
            && Shows(cs, "Available", false, generation) && Shows(cs, "Progressing", false, generation)
            && Shows(cs, "Degraded", true, generation) && Lookup(cs, "Degraded").value.message == Message(e)
    ensures tid in Run(s, events).threads && Run(s, events).threads[tid] == Finished(id, Some(e))
  {
    var w, v := Run(s, events).world, VerdictOn(Judged(s, events, tid), Some(Message(e)));
    ReportSays(s, events, id, tid, Some(e));
    TypesDiffer();
    SaysShows(w, id, v, AVAILABLE, false);
    SaysShows(w, id, v, PROGRESSING, false);
    SaysShows(w, id, v, DEGRADED, true);
    LandedFinishes(s, events, id, tid, e);
  }

  lemma LandedFinishes(s: State, events: seq<Event>, id: SiteId, tid: nat, e: Error)
    requires Reports(s, events, id, tid, Some(e))
    ensures tid in Run(s, events).threads && Run(s, events).threads[tid] == Finished(id, Some(e))
  {
  }

  /**
   * And when one that ended without an error lands, Available says whether pods of the Deployment last seen serve,
   * Degraded whether its rollout is stuck, and Progressing whether it is neither stuck nor through.
   */
  lemma SuccessShows(s: State, events: seq<Event>, id: SiteId, tid: nat, pods: seq<Pod>)
    requires AllSound(s) && Idle(s, id, tid) && Reports(s, events, id, tid, None)
    requires Judged(s, events, tid).Some? ==> CountsFrom(Judged(s, events, tid).value.status, pods)
    ensures var w, deploy := Run(s, events).world, Judged(s, events, tid);
            var cs, generation := ConditionsOf(w, id), GenerationOf(w, id);
            && Shows(cs, "Available", PodsServe(deploy, pods), generation)
            && Shows(cs, "Progressing", !AllRolledOut(deploy) && !Stuck(deploy), generation)
            && Shows(cs, "Degraded", Stuck(deploy), generation)
  {
    var w, deploy := Run(s, events).world, Judged(s, events, tid);
    var v := VerdictOn(deploy, None);
    ReportSays(s, events, id, tid, None);
    VerdictExact(deploy, None, pods);
    TypesDiffer();
    SaysShows(w, id, v, AVAILABLE, PodsServe(deploy, pods));
    SaysShows(w, id, v, PROGRESSING, !AllRolledOut(deploy) && !Stuck(deploy));
    SaysShows(w, id, v, DEGRADED, Stuck(deploy));
  }

  /** Two views of a Deployment that differ at most in how often its spec was changed. */
  predicate Alike(a: Option<DeploymentView>, b: Option<DeploymentView>) {
    match (a, b)
    case (Some(x), Some(y)) =>
      && x.replicas == y.replicas
      && x.status.(observedGeneration := 0) == y.status.(observedGeneration := 0)
      && (x.status.observedGeneration >= x.generation <==> y.status.observedGeneration >= y.generation)
    case (None, None) => true
    case _ => false
  }

  lemma AlikeVerdicts(a: Option<DeploymentView>, b: Option<DeploymentView>)
    requires Alike(a, b)
    ensures VerdictOn(a, None) == VerdictOn(b, None)
  {
  }

  /**
   * Confluence of the status: two runs of whatever threads, edits and other writers that end with the completion of
   * a reconcile, having seen Deployments of like status, leave conditions that agree up to transition times, and
   * the generation stamped is that of the Site in each.
   */
  lemma ConditionsAgree(s1: State, events1: seq<Event>, tid1: nat, s2: State, events2: seq<Event>, tid2: nat, id: SiteId, t: string)
    requires AllSound(s1) && Idle(s1, id, tid1) && Completes(s1, events1, id, tid1)
    requires AllSound(s2) && Idle(s2, id, tid2) && Completes(s2, events2, id, tid2)
    requires Alike(Judged(s1, events1, tid1), Judged(s2, events2, tid2)) && Ours(t)
    ensures var w1, w2 := Run(s1, events1).world, Run(s2, events2).world;
            var c1, c2 := Timeless(Lookup(ConditionsOf(w1, id), t)), Timeless(Lookup(ConditionsOf(w2, id), t));
            && c1.Some? && c2.Some?
            && c1.value.observedGeneration == GenerationOf(w1, id) && c2.value.observedGeneration == GenerationOf(w2, id)
            && c1.value.(observedGeneration := 0) == c2.value.(observedGeneration := 0)
  {
    CompletionSays(s1, events1, id, tid1);
    CompletionSays(s2, events2, id, tid2);
    AlikeVerdicts(Judged(s1, events1, tid1), Judged(s2, events2, tid2));
  }
}
