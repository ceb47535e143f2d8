/** Reconciles made call by call, to exhibit runs. */
module Stepwise {
  import opened Wrappers
  import opened SiteTypes
  import opened Objects
  import opened Machine
  import opened Settling
  import opened Provenance
  import opened Recovery

  /** A Site as created. */
  function Created(spec: SiteSpec): Cell {
    [Some(Object(None, true, SiteBody(spec, 1, [])))]
  }

  /** A store that holds but a Site. */
  function SiteAlone(id: SiteId, spec: SiteSpec): World {
    map[SiteKey(id) := Created(spec)]
  }

  lemma {:induction false} SoloJoin(w: World, t: Thread, a: seq<Input>, b: seq<Input>)
    ensures Solo(w, t, a + b) == Solo(Solo(w, t, a).0, Solo(w, t, a).1, b)
  {
    if b == [] {
      assert a + b == a;
    } else {
      assert (a + b)[..|a + b| - 1] == a + b[..|b| - 1];
      SoloJoin(w, t, a, b[..|b| - 1]);
    }
  }

  lemma SoloOne(w: World, t: Thread, inp: Input)
    ensures Solo(w, t, [inp]) == Step(w, t, inp)
  {
    assert [inp][..0] == [];
  }

  /** The store after one part is settled. */
  function SettledWorld(job: Job, m: nat, w: World): World
    requires m < PARTS && Settle(job, m, CellAt(job, w, m)).Success?
  {
    Put(w, PartKey(job, m), Settle(job, m, CellAt(job, w, m)).value)
  }

  lemma GotoStops(job: Job, pc: nat)
    ensures var t := Goto(job, pc);
            if pc < 4 then (t.Reporting? && t.outcome.Some?) || (t.Working? && t.job == job && t.pc <= 4)
            else if pc < PARTS then t == Working(job, pc, Reading, 0)
            else t == Report(job.site.id, None)
    decreases PARTS - pc
  {
    if pc < 4 && OpFor(job, PartAt(pc)).Skip? {
      GotoStops(job, pc + 1);
    }
  }

  lemma ReadOk(job: Job, m: nat, w: World)
    requires m < PARTS && !OpFor(job, PartAt(m)).Skip? && Settle(job, m, CellAt(job, w, m)).Success?
    ensures var c, t := CellAt(job, w, m), Step(w, Working(job, m, Reading, 0), OK);
            t.0 == w && t.1 == if OpFor(job, PartAt(m)).Upsert? then
                                 var o := Mutate(job, PartAt(m), Now(c)).value;
                                 if Now(c) == Some(o) then Goto(job, m + 1)
                                 else Working(job, m, Writing(|c| - 1, Now(c).None?, o), 0)
                               else if ControlledBy(Now(c), job.site.id) then Working(job, m, Deleting(|c| - 1), 0)
                               else Goto(job, m + 1)
  {
  }

  lemma WriteOk(job: Job, m: nat, w: World, io: Io)
    requires m < PARTS && Settle(job, m, CellAt(job, w, m)).Success?
    requires var c := CellAt(job, w, m);
             if OpFor(job, PartAt(m)).Upsert? then
               && Mutate(job, PartAt(m), Now(c)).Success? && Now(c) != Some(Mutate(job, PartAt(m), Now(c)).value)
               && io == Writing(|c| - 1, Now(c).None?, Mutate(job, PartAt(m), Now(c)).value)
             else OpFor(job, PartAt(m)).DeleteOwned? && ControlledBy(Now(c), job.site.id) && io == Deleting(|c| - 1)
    ensures Step(w, Working(job, m, io, 0), OK) == (SettledWorld(job, m, w), Goto(job, m + 1))
  {
  }

  /** Clean calls settle one part. */
  lemma PartRuns(job: Job, m: nat, w: World) returns (inputs: seq<Input>)
    requires m < PARTS && !OpFor(job, PartAt(m)).Skip? && Settle(job, m, CellAt(job, w, m)).Success?
    ensures AllClean(inputs)
    ensures Solo(w, Working(job, m, Reading, 0), inputs) == (SettledWorld(job, m, w), Goto(job, m + 1))
  {
    var t := Working(job, m, Reading, 0);
    var r := Step(w, t, OK);
    SoloOne(w, t, OK);
    if r.1.Working? && r.1.pc == m {
      WriteFollows(job, m, w);
      SoloJoin(w, t, [OK], [OK]);
      SoloOne(w, r.1, OK);
      return [OK] + [OK];
    }
    PassedIsSettled(job, m, w);
    return [OK];
  }

  lemma WriteFollows(job: Job, m: nat, w: World)
    requires m < PARTS && !OpFor(job, PartAt(m)).Skip? && Settle(job, m, CellAt(job, w, m)).Success?
    requires var t := Step(w, Working(job, m, Reading, 0), OK).1; t.Working? && t.pc == m
    ensures var r := Step(w, Working(job, m, Reading, 0), OK);
            r.0 == w && Step(w, r.1, OK) == (SettledWorld(job, m, w), Goto(job, m + 1))
  {
    var t := Step(w, Working(job, m, Reading, 0), OK).1;
    ReadOk(job, m, w);
    GotoForward(job, m + 1);
    WriteOk(job, m, w, t.io);
  }

  lemma PassedIsSettled(job: Job, m: nat, w: World)
    requires m < PARTS && !OpFor(job, PartAt(m)).Skip? && Settle(job, m, CellAt(job, w, m)).Success?
    requires var t := Step(w, Working(job, m, Reading, 0), OK).1; !(t.Working? && t.pc == m)
    ensures SettledWorld(job, m, w) == w && Step(w, Working(job, m, Reading, 0), OK) == (w, Goto(job, m + 1))
  {
    ReadOk(job, m, w);
    PutSame(w, PartKey(job, m));
  }

  /** From one store to the other the parts from m to n have been settled and nothing else has changed. */
  ghost predicate Between(job: Job, w: World, w': World, m: nat, n: nat) {
    && (forall i: nat :: m <= i < n && i < PARTS ==> Settle(job, i, CellAt(job, w, i)) == Success(CellAt(job, w', i)))
    && (forall i: nat :: i < PARTS && !(m <= i < n) ==> CellAt(job, w', i) == CellAt(job, w, i))
    && (forall k :: (forall i: nat :: i < PARTS ==> k != PartKey(job, i)) ==> CellOf(w', k) == CellOf(w, k))
  }

  lemma BetweenFirst(job: Job, w: World, w': World, m: nat, n: nat)
    requires m < n <= PARTS && Settle(job, m, CellAt(job, w, m)).Success? && Between(job, SettledWorld(job, m, w), w', m + 1, n)
    ensures Between(job, w, w', m, n)
  {
    forall i: nat | i < PARTS
      ensures CellAt(job, SettledWorld(job, m, w), i) == if i == m then Settle(job, m, CellAt(job, w, m)).value else CellAt(job, w, i)
    {
      PartKeysApart(job, i, m);
    }
  }

  /** Clean calls take the thread and the store from one part to another. */
  ghost predicate Leads(job: Job, w: World, m: nat, inputs: seq<Input>, w': World, n: nat) {
    AllClean(inputs) && Solo(w, Goto(job, m), inputs) == (w', Goto(job, n))
  }

  lemma LeadsOn(job: Job, w: World, m: nat, a: seq<Input>, w1: World, k: nat, b: seq<Input>, w2: World, n: nat)
    requires Leads(job, w, m, a, w1, k) && Leads(job, w1, k, b, w2, n)
    ensures Leads(job, w, m, a + b, w2, n)
  {
    SoloJoin(w, Goto(job, m), a, b);
  }

  lemma GotoRuns(job: Job, m: nat, w: World) returns (inputs: seq<Input>)
    requires m < PARTS && Settle(job, m, CellAt(job, w, m)).Success?
    ensures Leads(job, w, m, inputs, SettledWorld(job, m, w), m + 1)
  {
    if OpFor(job, PartAt(m)).Skip? {
      PutSame(w, PartKey(job, m));
      return [];
    }
    inputs := PartRuns(job, m, w);
    GotoWorks(job, m, w);
  }

  lemma GotoWorks(job: Job, m: nat, w: World)
    requires m < PARTS && !OpFor(job, PartAt(m)).Skip? && Settle(job, m, CellAt(job, w, m)).Success?
    ensures Goto(job, m) == Working(job, m, Reading, 0)
  {
  }

  /** All parts from m to n can be settled. */
  ghost predicate Settleable(job: Job, w: World, m: nat, n: nat) {
    forall i: nat :: m <= i < n && i < PARTS ==> Settle(job, i, CellAt(job, w, i)).Success?
  }

  lemma StillSettleable(job: Job, w: World, m: nat, n: nat)
    requires m < n <= PARTS && Settleable(job, w, m, n)
    ensures Settle(job, m, CellAt(job, w, m)).Success? && Settleable(job, SettledWorld(job, m, w), m + 1, n)
  {
    forall i: nat | m < i < n
      ensures CellAt(job, SettledWorld(job, m, w), i) == CellAt(job, w, i)
    {
      PartKeysApart(job, i, m);
    }
  }

  /** A stretch of a reconcile: clean calls from one part on to another. */
  lemma RunsTo(job: Job, w: World, m: nat, n: nat) returns (inputs: seq<Input>, w': World)
    requires m <= n <= PARTS && Settleable(job, w, m, n)
    ensures Leads(job, w, m, inputs, w', n) && Between(job, w, w', m, n)
    decreases n - m
  {
    if m == n {
      return [], w;
    }
    StillSettleable(job, w, m, n);
    var w1 := SettledWorld(job, m, w);
    var first := GotoRuns(job, m, w);
    var rest;
    rest, w' := RunsTo(job, w1, m + 1, n);
    LeadsOn(job, w, m, first, w1, m + 1, rest, w', n);
    BetweenFirst(job, w, w', m, n);
    inputs := first + rest;
  }

  /** Objects that are the Site's own or absent stand in no reconcile's way, and stay so. */
  lemma OursSettle(job: Job, m: nat, c: Cell)
    requires m < PARTS && OursOrNone(Now(c), job.site.id) && !OpFor(job, PartAt(m)).Refuse?
    ensures Settle(job, m, c).Success? && OursOrNone(Now(Settle(job, m, c).value), job.site.id)
  {
  }
}
