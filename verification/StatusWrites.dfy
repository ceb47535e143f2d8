/** Status updates under interleaving: nothing of other writers is lost, generations never go back. */
module StatusWrites {
  import opened Wrappers
  import opened SiteTypes
  import opened Status
  import opened Objects
  import opened Machine
  import opened Runs

  /** The operator's three types are all there and carry the generation of the object they stand on. */
  ghost predicate Stamped(b: Body) {
    b.SiteBody? && forall t :: Ours(t) ==> Lookup(b.conditions, t).Some? && Lookup(b.conditions, t).value.observedGeneration == b.generation
  }

  lemma UpdateStamps(read: Body, conditions: seq<Condition>)
    requires OneUpdate(read, conditions)
    ensures Foreign(conditions) == Foreign(read.conditions)
    ensures Stamped(read.(conditions := conditions))
  {
    var v: Verdict, now: int :| conditions == Applied(read.conditions, read.generation, v, now);
    AppliedKeeps(read.conditions, read.generation, v, now);
    forall t | Ours(t)
      ensures Lookup(conditions, t).Some? && Lookup(conditions, t).value.observedGeneration == read.generation
    {
      AppliedLookup(read.conditions, read.generation, v, now, t);
    }
  }

  /**
   * A call that changes a Site changes its conditions only: spec and generation stay, the entries of other
   * writers stay, and the three types are stamped with the generation the Site has at that moment.
   */
  lemma StatusCall(w: World, t: Thread, inp: Input, id: SiteId)
    requires Sound(w, t)
    ensures var x, x' := Current(w, SiteKey(id)), Current(Step(w, t, inp).0, SiteKey(id));
            x' != x ==>
              && x.Some? && x'.Some? && x.value.body.SiteBody?
              && x'.value == x.value.(body := x.value.body.(conditions := x'.value.body.conditions))
              && Foreign(x'.value.body.conditions) == Foreign(x.value.body.conditions)
              && Stamped(x'.value.body)
  {
    StepOnSite(w, t, inp, id);
    var x := Current(w, SiteKey(id));
    if Current(Step(w, t, inp).0, SiteKey(id)) != x {
      UpdateStamps(x.value.body, t.sio.conditions);
    }
  }

  // ---- Runs ----

  predicate IsSite(x: Option<Object>) {
    x.Some? && x.value.body.SiteBody?
  }

  function ConditionsOf(w: World, id: SiteId): seq<Condition> {
    var x := Current(w, SiteKey(id));
    if IsSite(x) then x.value.body.conditions else []
  }

  function GenerationOf(w: World, id: SiteId): nat {
    var x := Current(w, SiteKey(id));
    if IsSite(x) then x.value.body.generation else 0
  }

  /** Other writers keep the operator's three types as they are, and nobody else touches the Site object. */
  ghost predicate Polite(w: World, e: Event, id: SiteId) {
    && !(e.Meddle? && e.key == SiteKey(id))
    && (e.Annotate? && e.id == id ==>
          forall t :: Ours(t) ==> Lookup(e.conditions, t) == Lookup(ConditionsOf(w, id), t))
  }

  ghost predicate AllPolite(s: State, events: seq<Event>, id: SiteId) {
    forall i :: 0 <= i < |events| ==> Polite(Run(s, events[..i]).world, events[i], id)
  }

  /** What the other writers last left in the list. */
  function LastForeign(first: seq<Condition>, events: seq<Event>, id: SiteId): seq<Condition> {
    if events == [] then first
    else
      var last := events[|events| - 1];
      if last.Annotate? && last.id == id then Foreign(last.conditions)
      else LastForeign(first, events[..|events| - 1], id)
  }

  /** What the operator has stamped is not ahead of the Site's generation. */
  ghost predicate NotAhead(w: World, id: SiteId) {
    forall t :: Ours(t) && Lookup(ConditionsOf(w, id), t).Some? ==>
      Lookup(ConditionsOf(w, id), t).value.observedGeneration <= GenerationOf(w, id)
  }

  /** A type once reported stays reported, with a generation that does not go back. */
  ghost predicate Advances(w: World, w': World, id: SiteId) {
    && GenerationOf(w, id) <= GenerationOf(w', id)
    && forall t :: Ours(t) && Lookup(ConditionsOf(w, id), t).Some? ==>
         && Lookup(ConditionsOf(w', id), t).Some?
         && Lookup(ConditionsOf(w, id), t).value.observedGeneration
            <= Lookup(ConditionsOf(w', id), t).value.observedGeneration
  }

  lemma CallAdvances(w: World, t: Thread, inp: Input, id: SiteId)
    requires Sound(w, t) && IsSite(Current(w, SiteKey(id))) && NotAhead(w, id)
    ensures var w' := Step(w, t, inp).0;
            && IsSite(Current(w', SiteKey(id))) && NotAhead(w', id) && Advances(w, w', id)
            && Foreign(ConditionsOf(w', id)) == Foreign(ConditionsOf(w, id))
  {
    StatusCall(w, t, inp, id);
  }

  lemma EnvironmentAdvances(s: State, e: Event, id: SiteId)
    requires IsSite(Current(s.world, SiteKey(id))) && NotAhead(s.world, id) && Polite(s.world, e, id) && !e.Call?
    ensures var w' := Next(s, e).world;
            && IsSite(Current(w', SiteKey(id))) && NotAhead(w', id) && Advances(s.world, w', id)
            && Foreign(ConditionsOf(w', id))
               == if e.Annotate? && e.id == id then Foreign(e.conditions) else Foreign(ConditionsOf(s.world, id))
  {
    OutsideOnSite(s, e, id);
  }

  /** The Site is still there, nothing of it went back, and these are the entries of the others. */
  ghost predicate Keeps(w: World, w': World, id: SiteId, others: seq<Condition>) {
    && IsSite(Current(w', SiteKey(id))) && NotAhead(w', id) && Advances(w, w', id)
    && Foreign(ConditionsOf(w', id)) == others
  }

  lemma EventKeeps(s: State, e: Event, id: SiteId)
    requires AllSound(s) && IsSite(Current(s.world, SiteKey(id))) && NotAhead(s.world, id) && Polite(s.world, e, id)
    ensures Keeps(s.world, Next(s, e).world, id,
                  if e.Annotate? && e.id == id then Foreign(e.conditions) else Foreign(ConditionsOf(s.world, id)))
  {
    if !e.Call? {
      EnvironmentAdvances(s, e, id);
    } else if e.tid in s.threads {
      CallAdvances(s.world, s.threads[e.tid], e.input, id);
    }
  }

  lemma KeepsOn(w: World, w': World, w'': World, id: SiteId, others: seq<Condition>, others': seq<Condition>)
    requires Keeps(w, w', id, others) && Keeps(w', w'', id, others')
    ensures Keeps(w, w'', id, others')
  {
  }

  /**
   * Status writes lose nothing: over any run of threads, spec edits and other status writers, the entries of the
   * others are those they last left, and the operator's observed generations and the Site's own never go back.
   */
  lemma {:induction false} StatusLosesNothing(s: State, events: seq<Event>, id: SiteId)
    requires AllSound(s) && IsSite(Current(s.world, SiteKey(id))) && NotAhead(s.world, id)
    requires AllPolite(s, events, id)
    ensures Keeps(s.world, Run(s, events).world, id, LastForeign(Foreign(ConditionsOf(s.world, id)), events, id))
  {
    if events == [] {
    } else {
      var n := |events| - 1;
      var before, last := events[..n], events[n];
      assert forall i :: 0 <= i < n ==> before[..i] == events[..i];
      RunSound(s, before);
      StatusLosesNothing(s, before, id);
      var first, mid := Foreign(ConditionsOf(s.world, id)), Run(s, before);
      assert Polite(mid.world, last, id);
      EventKeeps(mid, last, id);
      KeepsOn(s.world, mid.world, Next(mid, last).world, id, LastForeign(first, before, id), LastForeign(first, events, id));
    }
  }

  // ---- The observed generation and the reconciled one ----

  function SpecOf(x: Option<Object>): Option<SiteSpec> {
    if IsSite(x) then Some(x.value.body.spec) else None
  }

  function GenerationAt(x: Option<Object>): nat {
    if IsSite(x) then x.value.body.generation else 0
  }

  /** How many versions after the given one changed the spec. */
  function SpecChanges(c: Cell, from: nat): nat {
    if |c| <= from + 1 then 0
    else SpecChanges(c[..|c| - 1], from) + if SpecOf(c[|c| - 1]) == SpecOf(c[|c| - 2]) then 0 else 1
  }

  lemma {:induction false} UnchangedIff(c: Cell, from: nat)
    ensures SpecChanges(c, from) == 0 <==> forall i :: from < i < |c| ==> SpecOf(c[i]) == SpecOf(c[i - 1])
  {
    if |c| <= from + 1 {
    } else {
      UnchangedIff(c[..|c| - 1], from);
    }
  }

  /** The next version of a Site has the same spec and generation, or another spec and the next generation. */
  predicate CountsOn(x: Option<Object>, y: Option<Object>) {
    IsSite(x) ==> IsSite(y) && GenerationAt(y) == GenerationAt(x) + if SpecOf(y) == SpecOf(x) then 0 else 1
  }

  predicate Counted(c: Cell) {
    forall i :: 0 < i < |c| ==> CountsOn(c[i - 1], c[i])
  }

  lemma {:induction false} GenerationCounts(c: Cell, from: nat)
    requires Counted(c) && from < |c| && IsSite(c[from])
    ensures IsSite(Now(c)) && GenerationAt(Now(c)) == GenerationAt(c[from]) + SpecChanges(c, from)
  {
    if |c| <= from + 1 {
    } else {
      GenerationCounts(c[..|c| - 1], from);
      assert CountsOn(c[|c| - 2], c[|c| - 1]);
    }
  }

  lemma AppendCounts(c: Cell, x: Option<Object>)
    requires Counted(c) && CountsOn(Now(c), x)
    ensures Counted(c + [x])
  {
    forall i | 0 < i < |c + [x]|
      ensures CountsOn((c + [x])[i - 1], (c + [x])[i])
    {
      if i < |c| {
        assert CountsOn(c[i - 1], c[i]);
      }
    }
  }

  lemma EditCounts(c: Cell, spec: SiteSpec)
    requires Counted(c)
    ensures Counted(EditCell(c, spec))
  {
    if EditCell(c, spec) != c {
      AppendCounts(c, Now(EditCell(c, spec)));
    }
  }

  lemma AnnotateCounts(c: Cell, conditions: seq<Condition>)
    requires Counted(c)
    ensures Counted(AnnotateCell(c, conditions))
  {
    if AnnotateCell(c, conditions) != c {
      AppendCounts(c, Now(AnnotateCell(c, conditions)));
    }
  }

  lemma CallCounts(w: World, t: Thread, inp: Input, id: SiteId)
    requires Sound(w, t) && Counted(CellOf(w, SiteKey(id)))
    ensures Counted(CellOf(Step(w, t, inp).0, SiteKey(id)))
  {
    var c, c' := CellOf(w, SiteKey(id)), CellOf(Step(w, t, inp).0, SiteKey(id));
    StepOnSite(w, t, inp, id);
    if c' != c {
      AppendCounts(c, Now(c'));
    }
  }

  predicate LeavesSite(e: Event, id: SiteId) {
    !(e.Meddle? && e.key == SiteKey(id))
  }

  lemma OutsideCounts(s: State, e: Event, id: SiteId)
    requires !e.Call? && LeavesSite(e, id) && Counted(CellOf(s.world, SiteKey(id)))
    ensures Counted(CellOf(Next(s, e).world, SiteKey(id)))
  {
    var c := CellOf(s.world, SiteKey(id));
    OutsideOnSite(s, e, id);
    if e.Edit? && e.id == id {
      EditCounts(c, e.spec);
    } else if e.Annotate? && e.id == id {
      AnnotateCounts(c, e.conditions);
    }
  }

  lemma {:induction false} RunCounts(s: State, events: seq<Event>, id: SiteId)
    requires AllSound(s) && Counted(CellOf(s.world, SiteKey(id)))
    requires forall i :: 0 <= i < |events| ==> LeavesSite(events[i], id)
    ensures Counted(CellOf(Run(s, events).world, SiteKey(id)))
  {
    if events == [] {
    } else {
      var before, last := events[..|events| - 1], events[|events| - 1];
      var mid := Run(s, before);
      RunSound(s, before);
      RunCounts(s, before, id);
      if !last.Call? {
        OutsideCounts(mid, last, id);
      } else if last.tid in mid.threads {
        CallCounts(mid.world, mid.threads[last.tid], last.input, id);
      }
    }
  }

  /** The event is an edit that changes the spec the Site has. */
  predicate Changes(s: State, e: Event, id: SiteId) {
    e.Edit? && e.id == id && SpecOf(Current(s.world, SiteKey(id))) != Some(e.spec)
  }

  function Edits(s: State, events: seq<Event>, id: SiteId): nat {
    if events == [] then 0
    else
      var before, last := events[..|events| - 1], events[|events| - 1];
      Edits(s, before, id) + if Changes(Run(s, before), last, id) then 1 else 0
  }

  lemma MoreChanges(c: Cell, x: Option<Object>, from: nat)
    requires from < |c|
    ensures SpecChanges(c + [x], from) == SpecChanges(c, from) + if SpecOf(x) == SpecOf(Now(c)) then 0 else 1
  {
    assert (c + [x])[..|c|] == c;
  }

  lemma EventChanges(s: State, e: Event, id: SiteId, from: nat)
    requires AllSound(s) && LeavesSite(e, id) && IsSite(Current(s.world, SiteKey(id))) && from < |CellOf(s.world, SiteKey(id))|
    ensures var c, c' := CellOf(s.world, SiteKey(id)), CellOf(Next(s, e).world, SiteKey(id));
            && IsSite(Now(c'))
            && SpecChanges(c', from) == SpecChanges(c, from) + if Changes(s, e, id) then 1 else 0
  {
    var c, c' := CellOf(s.world, SiteKey(id)), CellOf(Next(s, e).world, SiteKey(id));
    if !e.Call? {
      OutsideOnSite(s, e, id);
    } else if e.tid in s.threads {
      StepOnSite(s.world, s.threads[e.tid], e.input, id);
    }
    if c' != c {
      assert c' == c + [Now(c')];
      MoreChanges(c, Now(c'), from);
    }
  }

  ghost predicate ChangedBy(c: Cell, c': Cell, edits: nat) {
    c <= c' && IsSite(Now(c')) && SpecChanges(c', |c| - 1) == edits
  }

  lemma ChangedOn(c: Cell, d: Cell, d': Cell, edits: nat, more: nat)
    requires ChangedBy(c, d, edits) && d <= d' && IsSite(Now(d'))
    requires SpecChanges(d', |c| - 1) == SpecChanges(d, |c| - 1) + more
    ensures ChangedBy(c, d', edits + more)
  {
    assert c == d[..|c|] == d'[..|c|];
  }

  lemma ChangedOnce(c: Cell, s: State, e: Event, id: SiteId, edits: nat)
    requires AllSound(s) && LeavesSite(e, id) && ChangedBy(c, CellOf(s.world, SiteKey(id)), edits)
    ensures ChangedBy(c, CellOf(Next(s, e).world, SiteKey(id)), edits + if Changes(s, e, id) then 1 else 0)
  {
    NextSound(s, e);
    EventChanges(s, e, id, |c| - 1);
    ChangedOn(c, CellOf(s.world, SiteKey(id)), CellOf(Next(s, e).world, SiteKey(id)), edits, if Changes(s, e, id) then 1 else 0);
  }

  /** Counting changes in the history is counting the edits that made them. */
  lemma {:induction false} ChangesAreEdits(s: State, events: seq<Event>, id: SiteId)
    requires AllSound(s) && IsSite(Current(s.world, SiteKey(id)))
    requires forall i :: 0 <= i < |events| ==> LeavesSite(events[i], id)
    ensures ChangedBy(CellOf(s.world, SiteKey(id)), CellOf(Run(s, events).world, SiteKey(id)), Edits(s, events, id))
  {
    if events == [] {
    } else {
      var before, last := events[..|events| - 1], events[|events| - 1];
      RunSound(s, before);
      ChangesAreEdits(s, before, id);
      ChangedOnce(CellOf(s.world, SiteKey(id)), Run(s, before), last, id, Edits(s, before, id));
    }
  }

  /** The condition carries the generation fetched plus the changes of spec since. */
  ghost predicate StampedSince(c: Cell, f: Fetch, condition: Option<Condition>) {
    && f.version < |c| && IsSite(c[f.version]) && SpecOf(c[f.version]) == Some(f.job.site.spec)
    && condition.Some?
    && var stamp, fetched := condition.value.observedGeneration, GenerationAt(c[f.version]);
       && stamp == fetched + SpecChanges(c, f.version)
       && (stamp == fetched <==> forall i :: f.version < i < |c| ==> SpecOf(c[i]) == SpecOf(c[i - 1]))
  }

  /**
   * What a status write stamps, in every run of any threads, with lagging reads and edits: the generation that the
   * reconcile fetched plus the number of changes of spec since; so it is the generation reconciled exactly when no
   * version after the one fetched changed the spec.
   */
  lemma ObservedIsReconciledIff(s: State, events: seq<Event>, id: SiteId, tid: nat, inp: Input, ctype: string)
    requires AllSound(s) && Idle(s, id, tid) && Counted(CellOf(s.world, SiteKey(id))) && Ours(ctype)
    requires forall i :: 0 <= i < |events| ==> LeavesSite(events[i], id)
    requires var s' := Run(s, events);
             && tid in s'.threads
             && Current(Step(s'.world, s'.threads[tid], inp).0, SiteKey(id)) != Current(s'.world, SiteKey(id))
    ensures var s', f := Run(s, events), LastFetch(s, events, tid);
            && f.Some?
            && StampedSince(CellOf(s'.world, SiteKey(id)), f.value,
                            Lookup(ConditionsOf(Step(s'.world, s'.threads[tid], inp).0, id), ctype))
  {
    RunSound(s, events);
    RunFits(s, events, tid);
    RunSeen(s, events, id, tid);
    RunCounts(s, events, id);
    var s' := Run(s, events);
    StatusStamps(s'.world, s'.threads[tid], inp, id, LastFetch(s, events, tid), ctype);
  }

  lemma StatusStamps(w: World, t: Thread, inp: Input, id: SiteId, f: Option<Fetch>, ctype: string)
    requires Sound(w, t) && Fits(t, f) && Fetched(w, f) && Counted(CellOf(w, SiteKey(id))) && Ours(ctype)
    requires t.Id() == id && t.Reporting? ==> f.Some?
    requires Current(Step(w, t, inp).0, SiteKey(id)) != Current(w, SiteKey(id))
    ensures f.Some? && StampedSince(CellOf(w, SiteKey(id)), f.value, Lookup(ConditionsOf(Step(w, t, inp).0, id), ctype))
  {
    var c := CellOf(w, SiteKey(id));
    StepOnSite(w, t, inp, id);
    StatusCall(w, t, inp, id);
    GenerationCounts(c, f.value.version);
    UnchangedIff(c, f.value.version);
  }

  // ---- A run in which they differ ----

  lemma SiteFetched(s: State, id: SiteId, cfg: OperatorConfig, draw: string -> string)
    requires IsSite(Current(s.world, SiteKey(id)))
    ensures var s1 := Next(Next(s, Start(0, id, cfg, draw)), Call(0, OK));
            var job := Job(Site(id, Current(s.world, SiteKey(id)).value.body.spec), cfg, draw);
            s1.world == s.world && 0 in s1.threads && s1.threads[0] == Working(job, 0, Reading, 0)
  {
  }

  lemma FirstCallLost(s: State, job: Job, text: string)
    requires 0 in s.threads && s.threads[0] == Working(job, 0, Reading, 0)
    ensures var s1 := Next(s, Call(0, Input(Lost(text), 0, 0)));
            s1.world == s.world && 0 in s1.threads && s1.threads[0] == Report(job.site.id, Some(Transport(text)))
  {
  }

  lemma SiteRead(s: State, id: SiteId, outcome: Option<Error>)
    requires 0 in s.threads && s.threads[0] == Report(id, outcome) && IsSite(Current(s.world, SiteKey(id)))
    ensures var s1 := Next(s, Call(0, OK));
            var site := CellOf(s.world, SiteKey(id));
            && s1.world == s.world && 0 in s1.threads
            && s1.threads[0] == Reporting(id, outcome, ReadDeployment(|site| - 1, Now(site).value.body), 0)
  {
  }

  lemma ReportGoesOn(site: Cell, deploy: Cell, id: SiteId, outcome: Option<Error>, version: nat, body: Body)
    requires body.SiteBody?
    ensures var conditions := Applied(body.conditions, body.generation, Verdicts(Now(deploy), outcome), 0);
            ReportOn(site, deploy, id, outcome, ReadDeployment(version, body), 0, OK)
            == (site, Reporting(id, outcome, WriteStatus(version, conditions), 0))
  {
  }

  lemma DeploymentRead(s: State, id: SiteId, outcome: Option<Error>, version: nat, body: Body)
    requires 0 in s.threads && s.threads[0] == Reporting(id, outcome, ReadDeployment(version, body), 0) && body.SiteBody?
    ensures var s1 := Next(s, Call(0, OK));
            var conditions := Applied(body.conditions, body.generation,
                                      Verdicts(Current(s.world, KeyOf(id, DeploymentPart)), outcome), 0);
            && s1.world == s.world && 0 in s1.threads
            && s1.threads[0] == Reporting(id, outcome, WriteStatus(version, conditions), 0)
  {
    ReportGoesOn(CellOf(s.world, SiteKey(id)), CellOf(s.world, KeyOf(id, DeploymentPart)), id, outcome, version, body);
  }

  lemma StatusWritten(s: State, id: SiteId, outcome: Option<Error>, conditions: seq<Condition>)
    requires IsSite(Current(s.world, SiteKey(id)))
    requires 0 in s.threads
    requires s.threads[0] == Reporting(id, outcome, WriteStatus(|CellOf(s.world, SiteKey(id))| - 1, conditions), 0)
    ensures var s1 := Next(s, Call(0, OK));
            && 0 in s1.threads && s1.threads[0] == Finished(id, outcome)
            && GenerationOf(s1.world, id) == GenerationOf(s.world, id)
            && ConditionsOf(s1.world, id) == conditions
  {
  }

  /** An undisturbed status update reports the outcome on the Site as it is. */
  lemma Reported(s: State, id: SiteId, outcome: Option<Error>)
    requires 0 in s.threads && s.threads[0] == Report(id, outcome) && IsSite(Current(s.world, SiteKey(id)))
    ensures var s1 := Next(Next(Next(s, Call(0, OK)), Call(0, OK)), Call(0, OK));
            var deploy := Current(s.world, KeyOf(id, DeploymentPart));
            && 0 in s1.threads && s1.threads[0] == Finished(id, outcome)
            && GenerationOf(s1.world, id) == GenerationOf(s.world, id)
            && ConditionsOf(s1.world, id)
               == Applied(ConditionsOf(s.world, id), GenerationOf(s.world, id), Verdicts(deploy, outcome), 0)
  {
    var site := CellOf(s.world, SiteKey(id));
    SiteRead(s, id, outcome);
    var a := Next(s, Call(0, OK));
    DeploymentRead(a, id, outcome, |site| - 1, Now(site).value.body);
    var b := Next(a, Call(0, OK));
    StatusWritten(b, id, outcome, b.threads[0].sio.conditions);
  }

  /**
   * A reconcile of one spec may report another: the Site is edited after the fetch, the reconcile fails on its
   * first call, and its status update stamps the edited generation on the outcome.
   */
  lemma ObservedAheadOfReconciled(s: State, id: SiteId, cfg: OperatorConfig, draw: string -> string, spec: SiteSpec)
    requires IsSite(Current(s.world, SiteKey(id))) && Current(s.world, SiteKey(id)).value.body.spec != spec
    ensures var reconciled := Current(s.world, SiteKey(id)).value.body;
            var s1 := Next(Next(s, Start(0, id, cfg, draw)), Call(0, OK));
            var s2 := Next(Next(s1, Edit(id, spec)), Call(0, Input(Lost("boom"), 0, 0)));
            var s3 := Next(Next(Next(s2, Call(0, OK)), Call(0, OK)), Call(0, OK));
            && 0 in s1.threads && s1.threads[0].Working? && s1.threads[0].job.site.spec == reconciled.spec
            && 0 in s3.threads && s3.threads[0] == Finished(id, Some(Transport("boom")))
            && Lookup(ConditionsOf(s3.world, id), DEGRADED).Some?
            && Lookup(ConditionsOf(s3.world, id), DEGRADED).value.status == IsTrue
            && Lookup(ConditionsOf(s3.world, id), DEGRADED).value.observedGeneration == reconciled.generation + 1
  {
    var reconciled := Current(s.world, SiteKey(id)).value.body;
    SiteFetched(s, id, cfg, draw);
    var s1 := Next(Next(s, Start(0, id, cfg, draw)), Call(0, OK));
    var edited := Next(s1, Edit(id, spec));
    assert IsSite(Current(edited.world, SiteKey(id))) && GenerationOf(edited.world, id) == reconciled.generation + 1;
    FirstCallLost(edited, s1.threads[0].job, "boom");
    var s2 := Next(edited, Call(0, Input(Lost("boom"), 0, 0)));
    Reported(s2, id, Some(Transport("boom")));
    DegradedOnError(s2.world, id, Transport("boom"));
  }

  lemma DegradedOnError(w: World, id: SiteId, e: Error)
    ensures var deploy := Current(w, KeyOf(id, DeploymentPart));
            var c := Lookup(Applied(ConditionsOf(w, id), GenerationOf(w, id), Verdicts(deploy, Some(e)), 0), DEGRADED);
            c.Some? && c.value.status == IsTrue && c.value.observedGeneration == GenerationOf(w, id)
  {
    TypesDiffer();
    AppliedLookup(ConditionsOf(w, id), GenerationOf(w, id), Verdicts(Current(w, KeyOf(id, DeploymentPart)), Some(e)), 0, DEGRADED);
  }
}
