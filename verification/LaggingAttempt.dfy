/** Why recovery asks for fresh reads: an attempt with one lagging read leaves what no undisturbed reconcile undoes. */
module LaggingAttempt {
  import opened Wrappers
  import opened SiteTypes
  import opened Objects
  import opened Machine
  import opened Settling
  import opened Recovery
  import opened Stepwise
  import opened LaggingRun

  /** Someone else's object under the name of the nginx ConfigMap. */
  const INTRUDER := Object(Some(OtherOwner("intruder")), true, ConfigMapBody(map[]))

  /** A Site whose nginx ConfigMap, as the spec wants it, someone else has replaced by an object of their own. */
  function Taken(id: SiteId, spec: SiteSpec): World {
    SiteAlone(id, spec)[KeyOf(id, NginxPart) := [NginxMap(id, spec)] + [Some(INTRUDER)]]
  }

  lemma TakenCells(job: Job, m: nat)
    requires m < PARTS
    ensures CellAt(job, Taken(job.site.id, job.site.spec), m)
            == if m == 4 then [NginxMap(job.site.id, job.site.spec)] + [Some(INTRUDER)] else [None]
    ensures Serves(Taken(job.site.id, job.site.spec), job)
  {
    PartKeysApart(job, m, 4);
    PartKeysApart(job, m, m);
    PartKeysApart(job, 4, 4);
  }

  lemma TakenSettles(job: Job, m: nat)
    requires m < PARTS && !ProvisionEnabled(job.site.spec)
    ensures Settle(job, m, CellAt(job, Taken(job.site.id, job.site.spec), m)).Success? <==> m != 4
  {
    TakenCells(job, m);
    if m != 4 {
      OursSettle(job, m, [None]);
    }
  }

  /** Where someone else's ConfigMap is in the way, an undisturbed reconcile leaves all later parts alone. */
  lemma StopsAtNginx(job: Job, w: World, inputs: seq<Input>)
    requires Serves(w, job) && Settle(job, 4, CellAt(job, w, 4)).Failure? && AllClean(inputs) && |inputs| >= CALLS
    ensures CellAt(job, Solo(w, Begin(job), inputs).0, 5) == CellAt(job, w, 5)
  {
    var now := FinishedLeaves(job, w, inputs);
    assert Stops(job, w, 4);
    ReachMeans(job, w, Reach(job, w));
  }

  lemma PhpAppends(job: Job)
    ensures Settle(job, 5, [None]).Success? && |Settle(job, 5, [None]).value| == 2
  {
  }

  /** A lagging read of the ConfigMap finds the Site's own, as wanted. */
  lemma PassesTaken(job: Job, w: World)
    requires CellAt(job, w, 4) == [NginxMap(job.site.id, job.site.spec)] + [Some(INTRUDER)]
    ensures Solo(w, Goto(job, 4), [LAGGING]) == (w, Goto(job, 5))
  {
    LaggingReadSkips(job, w, job.site.spec);
    GotoStops(job, 4);
    GotoStops(job, 5);
    SoloOne(w, Goto(job, 4), LAGGING);
  }

  /** The attempt: up to the ConfigMap, past it on a lagging read, and cut after the next one. */
  lemma Passes(job: Job) returns (first: seq<Input>, rest: seq<Input>, w: World)
    requires !ProvisionEnabled(job.site.spec)
    ensures AllClean(first) && AllClean(rest)
    ensures var w0 := Taken(job.site.id, job.site.spec);
            && Solo(w0, Begin(job), first + [LAGGING] + rest).0 == w && Serves(w, job)
            && CellAt(job, w, 4) == CellAt(job, w0, 4) && |CellAt(job, w, 5)| == 2
  {
    var w0 := Taken(job.site.id, job.site.spec);
    forall i: nat | i < PARTS
      ensures Settle(job, i, CellAt(job, w0, i)).Success? <==> i != 4
    {
      TakenSettles(job, i);
    }
    TakenCells(job, 4);
    TakenCells(job, 5);
    var stretch, w1 := RunsTo(job, w0, 0, 4);
    SiteBetween(job, w0, w1, 0, 4);
    PassesTaken(job, w1);
    PhpAppends(job);
    assert CellAt(job, w1, 5) == [None];
    rest, w := RunsTo(job, w1, 5, 6);
    SiteBetween(job, w1, w, 5, 6);
    assert CellAt(job, w, 4) == CellAt(job, w1, 4);
    first := [OK] + stretch;
    AttemptSolo(job, w0, stretch, w1, rest, w);
  }

  lemma AttemptSolo(job: Job, w0: World, stretch: seq<Input>, w1: World, rest: seq<Input>, w: World)
    requires Serves(w0, job) && Leads(job, w0, 0, stretch, w1, 4)
    requires Solo(w1, Goto(job, 4), [LAGGING]) == (w1, Goto(job, 5)) && Leads(job, w1, 5, rest, w, 6)
    ensures Solo(w0, Begin(job), [OK] + stretch + [LAGGING] + rest) == (w, Goto(job, 6))
  {
    SoloOne(w0, Begin(job), OK);
    SoloJoin(w0, Begin(job), [OK], stretch);
    SoloJoin(w0, Begin(job), [OK] + stretch, [LAGGING]);
    SoloJoin(w0, Begin(job), [OK] + stretch + [LAGGING], rest);
  }

  /**
   * With one lagging read in an attempt that is cut, the undisturbed reconcile that follows does not end as it would
   * have without the attempt: the php ConfigMap is there, which that reconcile alone never writes.
   */
  lemma LaggingAttemptBreaks(id: SiteId, spec: SiteSpec, cfg: OperatorConfig, draw: string -> string,
                             last: seq<Input>, only: seq<Input>)
    returns (first: seq<Input>, rest: seq<Input>)
    requires !ProvisionEnabled(spec)
    requires AllClean(last) && AllClean(only) && |last| >= CALLS && |only| >= CALLS
    ensures AllClean(first) && AllClean(rest)
    ensures var job, w0 := Job(Site(id, spec), cfg, draw), Taken(id, spec);
            !SameOutcome(job, Solo(After(w0, job, [first + [LAGGING] + rest]), Begin(job), last).0, Solo(w0, Begin(job), only).0)
  {
    var job, w0 := Job(Site(id, spec), cfg, draw), Taken(id, spec);
    var w;
    first, rest, w := Passes(job);
    var attempt := first + [LAGGING] + rest;
    assert [attempt][..0] == [];
    assert After(w0, job, [attempt]) == w;
    TakenCells(job, 5);
    TakenSettles(job, 4);
    StopsAtNginx(job, w, last);
    StopsAtNginx(job, w0, only);
  }
}
