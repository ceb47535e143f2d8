/** One worker on one Site, reading fresh: crashes leave nothing to repair, and success leaves nothing to do. */
module Recovery {
  import opened Wrappers
  import opened SiteTypes
  import opened Status
  import opened Objects
  import opened Machine
  import opened Settling
  import opened StatusWrites
  import opened Schedule

  // ---- One call of a working thread ----

  /** What the thread read is still so, and differs from what it is about to write. */
  ghost predicate Steady(w: World, t: Thread) {
    match t
    case Working(job, pc, io, _) =>
      pc < PARTS &&
      var c := CellAt(job, w, pc);
      (match io
       case Reading => true
       case Writing(version, _, draft) => version == |c| - 1 && Now(c) != Some(draft)
       case Deleting(version) => version == |c| - 1)
    case Reporting(id, _, sio, _) =>
      var c := CellOf(w, SiteKey(id));
      (match sio
       case ReadSite => true
       case ReadDeployment(version, _) => version == |c| - 1
       case WriteStatus(version, _) => version == |c| - 1)
    case _ => true
  }

  /** The ways a fresh call on a part can end. */
  datatype Ending = Died(text: string) | Stopped(error: Error) | Moved | Holding

  ghost predicate Ends(w: World, job: Job, pc: nat, c': Cell, t': Thread, e: Ending)
    requires pc < PARTS
  {
    var c := CellAt(job, w, pc);
    match e
    case Died(text) => t' == Report(job.site.id, Some(Transport(text))) && (c' == c || Settle(job, pc, c) == Success(c'))
    case Stopped(error) => t' == Report(job.site.id, Some(error)) && c' == c && Settle(job, pc, c) == Failure(error)
    case Moved => t' == Goto(job, pc + 1) && Settle(job, pc, c) == Success(c')
    case Holding => c' == c && t'.Working? && t'.job == job && t'.pc == pc && !t'.io.Reading? && Sound(w, t') && Steady(w, t')
  }

  lemma ReadEnds(w: World, job: Job, pc: nat, tries: nat, inp: Input) returns (e: Ending)
    requires Sound(w, Working(job, pc, Reading, tries)) && Fresh(inp)
    ensures var r := WorkOn(CellAt(job, w, pc), job, pc, Reading, tries, inp); Ends(w, job, pc, r.0, r.1, e)
    ensures Clean(inp) ==> !e.Died?
  {
    var c := CellAt(job, w, pc);
    if !inp.fault.NoFault? {
      return Died(inp.fault.text);
    }
    if OpFor(job, PartAt(pc)).Upsert? {
      match Mutate(job, PartAt(pc), Now(c))
      case Failure(error) => return Stopped(error);
      case Success(o) => return if Now(c) == Some(o) then Moved else Holding;
    }
    return if ControlledBy(Now(c), job.site.id) then Holding else Moved;
  }

  lemma WriteEnds(w: World, job: Job, pc: nat, io: Io, tries: nat, inp: Input) returns (e: Ending)
    requires Sound(w, Working(job, pc, io, tries)) && Steady(w, Working(job, pc, io, tries)) && !io.Reading?
    ensures var r := WorkOn(CellAt(job, w, pc), job, pc, io, tries, inp); Ends(w, job, pc, r.0, r.1, e)
    ensures inp.fault.NoFault? ==> e.Moved?
  {
    e := if inp.fault.NoFault? then Moved else Died(inp.fault.text);
  }

  lemma WorkEnds(w: World, job: Job, pc: nat, io: Io, tries: nat, inp: Input) returns (e: Ending)
    requires Sound(w, Working(job, pc, io, tries)) && Steady(w, Working(job, pc, io, tries)) && Fresh(inp)
    ensures var r := WorkOn(CellAt(job, w, pc), job, pc, io, tries, inp); Ends(w, job, pc, r.0, r.1, e)
    ensures Clean(inp) ==> !e.Died?
    ensures e.Holding? ==> io.Reading?
  {
    if io.Reading? {
      e := ReadEnds(w, job, pc, tries, inp);
    } else {
      e := WriteEnds(w, job, pc, io, tries, inp);
    }
  }

  // ---- Progress along a job ----

  /** The thread has stopped where an undisturbed reconcile of the store w0 stops. */
  ghost predicate StoppedClean(job: Job, w0: World, t: Thread, n: nat) {
    (t.Reporting? || t.Finished?) ==> n == Reach(job, w0) && t.outcome == CleanOutcome(job, w0)
  }

  ghost predicate PcWithin(t: Thread, n: nat) {
    t.Working? ==> t.pc <= n
  }

  lemma SettleHere(job: Job, w0: World, w: World, n: nat, pc: nat, c: Cell)
    requires At(job, w0, w, n) && pc <= n && pc < PARTS && Settle(job, pc, CellAt(job, w, pc)) == Success(c)
    ensures At(job, w0, Put(w, PartKey(job, pc), c), if pc < n then n else n + 1)
  {
    if pc < n {
      SettledAgain(job, job, w0, w, n, pc);
    } else {
      AtNext(job, w0, w, n, c);
    }
  }

  lemma StopsHere(job: Job, w0: World, w: World, n: nat, pc: nat)
    requires At(job, w0, w, n) && pc <= n && pc < PARTS && Settle(job, pc, CellAt(job, w, pc)).Failure?
    ensures pc == n == Reach(job, w0) && CleanOutcome(job, w0) == Some(Settle(job, pc, CellAt(job, w, pc)).error)
  {
    if pc < n {
      SettledAgain(job, job, w0, w, n, pc);
    }
    assert Stops(job, w0, n);
    ReachMeans(job, w0, Reach(job, w0));
  }

  lemma SkipHere(job: Job, w0: World, w: World, n: nat, pc: nat)
    requires At(job, w0, w, n) && pc <= n && pc < PARTS && OpFor(job, PartAt(pc)).Skip?
    ensures At(job, w0, w, if pc < n then n else n + 1)
  {
    SettleHere(job, w0, w, n, pc, CellAt(job, w, pc));
  }

  /** Nothing is wanted of the parts in between. */
  ghost predicate SkipsTo(job: Job, pc: nat, m: nat) {
    forall i: nat :: pc <= i < m && i < PARTS ==> OpFor(job, PartAt(i)).Skip?
  }

  /** The thread has come to part m: it is past the end, refused, or about to read. */
  ghost predicate StopsAt(job: Job, t: Thread, m: nat) {
    if m >= PARTS then t == Report(job.site.id, None)
    else
      match OpFor(job, PartAt(m))
      case Skip => false
      case Refuse(e) => t == Report(job.site.id, Some(e))
      case _ => t == Working(job, m, Reading, 0)
  }

  lemma GotoStopsAt(job: Job, pc: nat) returns (m: nat)
    requires pc <= PARTS
    ensures pc <= m <= PARTS && SkipsTo(job, pc, m) && StopsAt(job, Goto(job, pc), m)
    decreases PARTS - pc
  {
    m := pc;
    if pc < PARTS && OpFor(job, PartAt(pc)).Skip? {
      m := GotoStopsAt(job, pc + 1);
    }
  }

  lemma SkipsAlong(job: Job, w0: World, w: World, n: nat, pc: nat, m: nat)
    requires At(job, w0, w, n) && pc <= n && pc <= m <= PARTS && SkipsTo(job, pc, m)
    ensures At(job, w0, w, if m < n then n else m)
    decreases m - pc
  {
    if pc == m {
    } else {
      SkipHere(job, w0, w, n, pc);
      SkipsAlong(job, w0, w, if pc < n then n else n + 1, pc + 1, m);
    }
  }

  lemma StopClean(job: Job, w0: World, w: World, n: nat, t: Thread, m: nat)
    requires At(job, w0, w, n) && m <= n && StopsAt(job, t, m)
    ensures PcWithin(t, n) && StoppedClean(job, w0, t, n)
  {
    if m >= PARTS {
      ReachMeans(job, w0, n);
    } else if OpFor(job, PartAt(m)).Refuse? {
      StopsHere(job, w0, w, n, m);
    }
  }

  lemma PutSame(w: World, k: Key)
    ensures Put(w, k, CellOf(w, k)) == w
  {
  }

  lemma SettledTo(job: Job, w0: World, w: World, n: nat, pc: nat, c: Cell, w': World) returns (k: nat)
    requires At(job, w0, w, n) && pc <= n && pc < PARTS && Settle(job, pc, CellAt(job, w, pc)) == Success(c)
    requires w' == Put(w, PartKey(job, pc), c)
    ensures At(job, w0, w', k) && n <= k && pc + 1 <= k
  {
    SettleHere(job, w0, w, n, pc, c);
    k := if pc < n then n else n + 1;
  }

  lemma DiedAlong(job: Job, w0: World, w: World, n: nat, pc: nat, c: Cell) returns (n': nat)
    requires At(job, w0, w, n) && pc <= n && pc < PARTS
    requires c == CellAt(job, w, pc) || Settle(job, pc, CellAt(job, w, pc)) == Success(c)
    ensures n <= n' && At(job, w0, Put(w, PartKey(job, pc), c), n')
  {
    if c == CellAt(job, w, pc) {
      PutSame(w, PartKey(job, pc));
      n' := n;
    } else {
      if pc < n {
        SettledAgain(job, job, w0, w, n, pc);
      }
      SettleHere(job, w0, w, n, pc, c);
      n' := n + 1;
    }
  }

  lemma StoppedAlong(job: Job, w0: World, w: World, n: nat, pc: nat, t: Thread, error: Error)
    requires At(job, w0, w, n) && pc <= n && pc < PARTS && Settle(job, pc, CellAt(job, w, pc)) == Failure(error)
    requires t == Report(job.site.id, Some(error))
    ensures StoppedClean(job, w0, t, n)
  {
    StopsHere(job, w0, w, n, pc);
  }

  ghost predicate AlongClean(job: Job, w0: World, w: World, t: Thread, n: nat) {
    At(job, w0, w, n) && PcWithin(t, n) && StoppedClean(job, w0, t, n)
  }

  /** So many parts are settled, and the thread has come to one of them or the next. */
  ghost predicate Arrived(job: Job, w0: World, w: World, t: Thread, n: nat, m: nat) {
    At(job, w0, w, n) && m <= n && StopsAt(job, t, m)
  }

  lemma Arrives(job: Job, w0: World, w: World, n: nat, pc: nat, t: Thread) returns (n': nat, m: nat)
    requires At(job, w0, w, n) && pc <= n && pc <= PARTS && t == Goto(job, pc)
    ensures n <= n' && Arrived(job, w0, w, t, n', m)
  {
    m := GotoStopsAt(job, pc);
    SkipsAlong(job, w0, w, n, pc, m);
    n' := if m < n then n else m;
  }

  lemma ArrivedClean(job: Job, w0: World, w: World, t: Thread, n: nat, m: nat)
    requires Arrived(job, w0, w, t, n, m)
    ensures AlongClean(job, w0, w, t, n)
  {
    StopClean(job, w0, w, n, t, m);
  }

  lemma ArrivesClean(job: Job, w0: World, w: World, n: nat, pc: nat, t: Thread) returns (n': nat)
    requires At(job, w0, w, n) && pc <= n && pc <= PARTS && t == Goto(job, pc)
    ensures n <= n' && AlongClean(job, w0, w, t, n')
  {
    var m;
    n', m := Arrives(job, w0, w, n, pc, t);
    ArrivedClean(job, w0, w, t, n', m);
  }

  lemma MovedAlong(job: Job, w0: World, w: World, n: nat, pc: nat, c: Cell, w': World, t: Thread) returns (n': nat)
    requires At(job, w0, w, n) && pc <= n && pc < PARTS && Settle(job, pc, CellAt(job, w, pc)) == Success(c)
    requires w' == Put(w, PartKey(job, pc), c) && t == Goto(job, pc + 1)
    ensures n <= n' && AlongClean(job, w0, w', t, n')
  {
    var k := SettledTo(job, w0, w, n, pc, c, w');
    n' := ArrivesClean(job, w0, w', k, pc + 1, t);
  }

  /** However a call ends, some number of parts is settled and the thread is not past it. */
  lemma EndAlong(job: Job, w0: World, w: World, n: nat, pc: nat, c: Cell, t: Thread, e: Ending) returns (n': nat)
    requires At(job, w0, w, n) && pc <= n && pc < PARTS && Ends(w, job, pc, c, t, e)
    ensures n <= n' && At(job, w0, Put(w, PartKey(job, pc), c), n') && PcWithin(t, n')
    ensures !e.Died? ==> StoppedClean(job, w0, t, n')
  {
    match e
    case Died(_) => n' := DiedAlong(job, w0, w, n, pc, c);
    case Moved =>
      n' := MovedAlong(job, w0, w, n, pc, c, Put(w, PartKey(job, pc), c), t);
    case Stopped(error) =>
      PutSame(w, PartKey(job, pc));
      StoppedAlong(job, w0, w, n, pc, t, error);
      n' := n;
    case Holding =>
      PutSame(w, PartKey(job, pc));
      n' := n;
  }

  lemma GotoSteady(w: World, job: Job, pc: nat)
    requires pc <= PARTS
    ensures Steady(w, Goto(job, pc)) && Rank(Goto(job, pc)) <= 2 * (PARTS - pc) + 3
    ensures Goto(job, pc).Working? ==> Goto(job, pc).job == job
  {
    GotoRank(job, pc);
    GotoForward(job, pc);
  }

  /** However a call ends, the thread is as well informed as before. */
  lemma EndSteady(w: World, job: Job, pc: nat, c: Cell, t: Thread, e: Ending)
    requires pc < PARTS && Ends(w, job, pc, c, t, e)
    ensures Steady(Put(w, PartKey(job, pc), c), t)
    ensures t.Working? ==> t.job == job
  {
    if e.Moved? {
      GotoSteady(Put(w, PartKey(job, pc), c), job, pc + 1);
    } else if e.Holding? {
      PutSame(w, PartKey(job, pc));
    }
  }

  /** And it has less to do. */
  lemma EndRank(w: World, job: Job, pc: nat, io: Io, tries: nat, c: Cell, t: Thread, e: Ending)
    requires pc < PARTS && Ends(w, job, pc, c, t, e) && (e.Holding? ==> io.Reading?)
    ensures Rank(t) < Rank(Working(job, pc, io, tries))
  {
    if e.Moved? {
      GotoRank(job, pc + 1);
    }
  }

  lemma WorkAlong(job: Job, w0: World, w: World, n: nat, pc: nat, io: Io, tries: nat, inp: Input) returns (n': nat)
    requires Sound(w, Working(job, pc, io, tries)) && Steady(w, Working(job, pc, io, tries)) && Fresh(inp)
    requires At(job, w0, w, n) && pc <= n
    ensures var t := Working(job, pc, io, tries);
            var r := Step(w, t, inp);
            && n <= n' && At(job, w0, r.0, n') && PcWithin(r.1, n') && Steady(r.0, r.1)
            && (Clean(inp) ==> StoppedClean(job, w0, r.1, n')) && Rank(r.1) < Rank(t)
            && (r.1.Working? ==> r.1.job == job)
  {
    var e := WorkEnds(w, job, pc, io, tries, inp);
    var r := WorkOn(CellAt(job, w, pc), job, pc, io, tries, inp);
    n' := EndAlong(job, w0, w, n, pc, r.0, r.1, e);
    EndSteady(w, job, pc, r.0, r.1, e);
    EndRank(w, job, pc, io, tries, r.0, r.1, e);
  }

  /** Calls left to make, at most, when nothing goes wrong. */
  function Rank(t: Thread): nat {
    match t
    case Fetching(_, _, _) => 2 * PARTS + 4
    case Working(_, pc, io, _) => if pc < PARTS then 2 * (PARTS - pc) + (if io.Reading? then 3 else 2) else 3
    case Reporting(_, _, sio, _) => (match sio case ReadSite => 3 case ReadDeployment(_, _) => 2 case WriteStatus(_, _) => 1)
    case Finished(_, _) => 0
  }

  lemma GotoRank(job: Job, pc: nat)
    requires pc <= PARTS
    ensures Rank(Goto(job, pc)) <= 2 * (PARTS - pc) + 3
    decreases PARTS - pc
  {
    if pc < PARTS && OpFor(job, PartAt(pc)).Skip? {
      GotoRank(job, pc + 1);
    }
  }

  // ---- Whole runs of one worker ----

  /** The Site is as it was, but for what status updates may have written. */
  ghost predicate SiteAlong(w0: World, w: World, id: SiteId) {
    && IsSite(Current(w0, SiteKey(id))) && IsSite(Current(w, SiteKey(id)))
    && Current(w, SiteKey(id)).value.body.spec == Current(w0, SiteKey(id)).value.body.spec
    && GenerationOf(w, id) == GenerationOf(w0, id)
    && forall t :: !Ours(t) ==> Lookup(ConditionsOf(w, id), t) == Lookup(ConditionsOf(w0, id), t)
  }

  ghost predicate Serves(w: World, job: Job) {
    var x := Current(w, SiteKey(job.site.id));
    IsSite(x) && x.value.body.spec == job.site.spec
  }

  ghost predicate OnJob(job: Job, t: Thread) {
    && t.Id() == job.site.id
    && (t.Fetching? ==> t.cfg == job.cfg && t.draw == job.draw)
    && (t.Working? ==> t.job == job)
  }

  /** A worker alone on a job that began in the store w0, with n parts settled. */
  ghost predicate Alone(job: Job, w0: World, w: World, t: Thread, n: nat) {
    && Sound(w, t) && Steady(w, t) && OnJob(job, t) && PcWithin(t, n)
    && At(job, w0, w, n) && SiteAlong(w0, w, job.site.id) && Serves(w0, job)
  }

  function Begin(job: Job): Thread {
    Fetching(job.site.id, job.cfg, job.draw)
  }

  lemma ReportSpares(w: World, t: Thread, inp: Input, job: Job, m: nat)
    requires !t.Working? && m < PARTS
    ensures CellAt(job, Step(w, t, inp).0, m) == CellAt(job, w, m)
  {
    StepSpares(w, t, inp, job.site.id, PartAt(m));
  }

  lemma SiteStep(w0: World, w: World, t: Thread, inp: Input, id: SiteId)
    requires Sound(w, t) && SiteAlong(w0, w, id)
    ensures SiteAlong(w0, Step(w, t, inp).0, id)
  {
    StepOnSite(w, t, inp, id);
    var x := Current(w, SiteKey(id));
    if Current(Step(w, t, inp).0, SiteKey(id)) != x {
      OthersKept(x.value.body, t.sio.conditions);
    }
  }

  lemma OthersKept(read: Body, conditions: seq<Condition>)
    requires OneUpdate(read, conditions)
    ensures forall t :: !Ours(t) ==> Lookup(conditions, t) == Lookup(read.conditions, t)
  {
    var v: Verdict, now: int :| conditions == Applied(read.conditions, read.generation, v, now);
    forall t | !Ours(t)
      ensures Lookup(conditions, t) == Lookup(read.conditions, t)
    {
      AppliedLookup(read.conditions, read.generation, v, now, t);
    }
  }

  lemma ReportSteady(w: World, id: SiteId, outcome: Option<Error>, sio: StatusIo, tries: nat, inp: Input)
    requires Steady(w, Reporting(id, outcome, sio, tries)) && Fresh(inp)
    ensures var t := Reporting(id, outcome, sio, tries);
            var r := Step(w, t, inp);
            Steady(r.0, r.1) && Rank(r.1) < Rank(t) && (r.1.Reporting? || r.1.Finished?) && r.1.Id() == id
  {
  }

  lemma FetchAlong(job: Job, w0: World, w: World, inp: Input, n: nat) returns (n': nat)
    requires Alone(job, w0, w, Begin(job), n) && Fresh(inp)
    ensures var r := Step(w, Begin(job), inp);
            && r.0 == w && n <= n' && At(job, w0, w, n') && PcWithin(r.1, n') && Steady(w, r.1) && OnJob(job, r.1)
            && (Clean(inp) ==> StoppedClean(job, w0, r.1, n')) && Rank(r.1) < Rank(Begin(job))
  {
    n' := n;
    if inp.fault.NoFault? {
      n' := ArrivesClean(job, w0, w, n, 0, Goto(job, 0));
      GotoSteady(w, job, 0);
      GotoId(job, 0);
    }
  }

  /** One fresh call of a lone worker. */
  lemma StepAlone(job: Job, w0: World, w: World, t: Thread, inp: Input, n: nat) returns (n': nat)
    requires Alone(job, w0, w, t, n) && Fresh(inp)
    ensures n <= n' && Alone(job, w0, Step(w, t, inp).0, Step(w, t, inp).1, n')
    ensures !t.Finished? ==> Rank(Step(w, t, inp).1) < Rank(t)
    ensures Clean(inp) && (t.Fetching? || t.Working?) ==> StoppedClean(job, w0, Step(w, t, inp).1, n')
  {
    StepSound(w, t, inp);
    SiteStep(w0, w, t, inp, job.site.id);
    if t.Fetching? {
      n' := FetchAlong(job, w0, w, inp, n);
    } else if t.Working? {
      n' := WorkAlong(job, w0, w, n, t.pc, t.io, t.tries, inp);
    } else {
      if t.Reporting? {
        ReportSteady(w, t.id, t.outcome, t.sio, t.tries, inp);
      }
      forall m: nat | m < PARTS
        ensures CellAt(job, Step(w, t, inp).0, m) == CellAt(job, w, m)
      {
        ReportSpares(w, t, inp, job, m);
      }
      n' := n;
    }
  }

  ghost predicate AllFresh(inputs: seq<Input>) {
    forall i :: 0 <= i < |inputs| ==> Fresh(inputs[i])
  }

  lemma {:induction false} SoloAlone(job: Job, w0: World, w: World, t: Thread, inputs: seq<Input>, n: nat) returns (n': nat)
    requires Alone(job, w0, w, t, n) && AllFresh(inputs)
    ensures var r := Solo(w, t, inputs); n <= n' && Alone(job, w0, r.0, r.1, n')
  {
    n' := n;
    if inputs == [] {
    } else {
      var r := Solo(w, t, inputs[..|inputs| - 1]);
      n' := SoloAlone(job, w0, w, t, inputs[..|inputs| - 1], n);
      n' := StepAlone(job, w0, r.0, r.1, inputs[|inputs| - 1], n');
    }
  }

  /** Reconciles of one spec, one after another, each cut after any number of calls. */
  function After(w: World, job: Job, attempts: seq<seq<Input>>): World {
    if attempts == [] then w
    else Solo(After(w, job, attempts[..|attempts| - 1]), Begin(job), attempts[|attempts| - 1]).0
  }

  lemma {:induction false} AttemptsAlong(job: Job, w0: World, attempts: seq<seq<Input>>) returns (n: nat)
    requires Serves(w0, job) && forall i :: 0 <= i < |attempts| ==> AllFresh(attempts[i])
    ensures Alone(job, w0, After(w0, job, attempts), Begin(job), n)
  {
    n := 0;
    if attempts == [] {
    } else {
      var before, last := attempts[..|attempts| - 1], attempts[|attempts| - 1];
      n := AttemptsAlong(job, w0, before);
      n := SoloAlone(job, w0, After(w0, job, before), Begin(job), last, n);
    }
  }

  // ---- Undisturbed runs ----

  ghost predicate AllClean(inputs: seq<Input>) {
    forall i :: 0 <= i < |inputs| ==> Clean(inputs[i])
  }

  function DeployKey(job: Job): Key {
    KeyOf(job.site.id, DeploymentPart)
  }

  /** The conditions an undisturbed reconcile of w0 writes, with the Deployment as it is in w. */
  function CleanConditions(job: Job, w0: World, w: World, now: int): seq<Condition> {
    Applied(ConditionsOf(w0, job.site.id), GenerationOf(w0, job.site.id),
            Verdicts(Current(w, DeployKey(job)), CleanOutcome(job, w0)), now)
  }

  function WithConditions(c: Cell, conditions: seq<Condition>): Cell {
    if IsSite(Now(c)) then Store(c, Some(Now(c).value.(body := Now(c).value.body.(conditions := conditions)))) else c
  }

  /** How far an undisturbed run has come with the Site's status. */
  ghost predicate CleanStatus(job: Job, w0: World, w: World, t: Thread) {
    var k := SiteKey(job.site.id);
    match t
    case Reporting(_, _, WriteStatus(_, conditions), _) =>
      CellOf(w, k) == CellOf(w0, k) && exists now :: conditions == CleanConditions(job, w0, w, now)
    case Finished(_, _) =>
      exists now :: CellOf(w, k) == WithConditions(CellOf(w0, k), CleanConditions(job, w0, w, now))
    case _ => CellOf(w, k) == CellOf(w0, k)
  }

  ghost predicate CleanSoFar(job: Job, w0: World, w: World, t: Thread, n: nat) {
    Alone(job, w0, w, t, n) && StoppedClean(job, w0, t, n) && CleanStatus(job, w0, w, t)
  }

  lemma WorkReports(c: Cell, job: Job, pc: nat, io: Io, tries: nat, inp: Input)
    requires pc < PARTS
    ensures var t := WorkOn(c, job, pc, io, tries, inp).1; t.Working? || (t.Reporting? && t.sio.ReadSite?)
  {
    GotoForward(job, pc + 1);
  }

  lemma WorkingClean(job: Job, w: World, t: Thread, inp: Input)
    requires t.Working? && t.pc < PARTS && t.job == job
    ensures var r := Step(w, t, inp);
            && CellOf(r.0, SiteKey(job.site.id)) == CellOf(w, SiteKey(job.site.id))
            && (r.1.Working? || (r.1.Reporting? && r.1.sio.ReadSite?))
  {
    PartKeysApart(job, t.pc, t.pc);
    StepFrame(w, t, inp, SiteKey(job.site.id));
    WorkReports(CellAt(job, w, t.pc), job, t.pc, t.io, t.tries, inp);
  }

  lemma FetchingClean(job: Job, w: World, inp: Input)
    requires Clean(inp) && Serves(w, job)
    ensures var r := Step(w, Begin(job), inp); r.0 == w && (r.1.Working? || (r.1.Reporting? && r.1.sio.ReadSite?))
  {
    GotoForward(job, 0);
  }

  lemma ReadSiteClean(w: World, id: SiteId, outcome: Option<Error>, tries: nat, inp: Input)
    requires Clean(inp) && IsSite(Current(w, SiteKey(id)))
    ensures var r := Step(w, Reporting(id, outcome, ReadSite, tries), inp);
            r.0 == w && r.1.Reporting? && r.1.sio.ReadDeployment? && r.1.outcome == outcome
  {
  }

  lemma ReadDeploymentClean(w: World, id: SiteId, outcome: Option<Error>, v: nat, tries: nat, inp: Input)
    requires Clean(inp) && v == |CellOf(w, SiteKey(id))| - 1 && IsSite(Current(w, SiteKey(id)))
    ensures var body := Current(w, SiteKey(id)).value.body;
            var conditions := Applied(body.conditions, body.generation,
                                      Verdicts(Current(w, KeyOf(id, DeploymentPart)), outcome), inp.now);
            Step(w, Reporting(id, outcome, ReadDeployment(v, body), tries), inp)
            == (w, Reporting(id, outcome, WriteStatus(v, conditions), tries))
  {
  }

  lemma WriteStatusClean(w: World, id: SiteId, outcome: Option<Error>, v: nat, conditions: seq<Condition>, tries: nat, inp: Input)
    requires Clean(inp) && v == |CellOf(w, SiteKey(id))| - 1 && IsSite(Current(w, SiteKey(id)))
    ensures Step(w, Reporting(id, outcome, WriteStatus(v, conditions), tries), inp)
            == (Put(w, SiteKey(id), WithConditions(CellOf(w, SiteKey(id)), conditions)), Finished(id, outcome))
  {
  }

  lemma WrittenClean(job: Job, w0: World, w: World, t: Thread, inp: Input)
    requires t.Reporting? && t.sio.WriteStatus? && Sound(w, t) && Steady(w, t) && OnJob(job, t) && Clean(inp)
    requires CleanStatus(job, w0, w, t) && Serves(w0, job)
    ensures var r := Step(w, t, inp); CleanStatus(job, w0, r.0, r.1) && r.1 == Finished(t.id, t.outcome)
  {
    var id := job.site.id;
    WriteStatusClean(w, id, t.outcome, t.sio.version, t.sio.conditions, t.tries, inp);
    var now :| t.sio.conditions == CleanConditions(job, w0, w, now);
    var w' := Step(w, t, inp).0;
    StepSpares(w, t, inp, id, DeploymentPart);
    assert CleanConditions(job, w0, w', now) == t.sio.conditions;
  }

  lemma ComputedClean(job: Job, w0: World, w: World, t: Thread, inp: Input)
    requires t.Reporting? && t.sio.ReadDeployment? && Sound(w, t) && Steady(w, t) && OnJob(job, t) && Clean(inp)
    requires t.outcome == CleanOutcome(job, w0) && CleanStatus(job, w0, w, t) && Serves(w0, job)
    ensures var r := Step(w, t, inp);
            CleanStatus(job, w0, r.0, r.1) && r.1.Reporting? && r.1.outcome == t.outcome
  {
    ReadDeploymentClean(w, job.site.id, t.outcome, t.sio.version, t.tries, inp);
    var r := Step(w, t, inp);
    assert r.1.sio == WriteStatus(t.sio.version, CleanConditions(job, w0, w, inp.now));
  }

  lemma ReportingClean(job: Job, w0: World, w: World, t: Thread, inp: Input)
    requires t.Reporting? && Sound(w, t) && Steady(w, t) && OnJob(job, t) && Clean(inp)
    requires t.outcome == CleanOutcome(job, w0) && CleanStatus(job, w0, w, t) && Serves(w0, job)
    ensures var r := Step(w, t, inp);
            && CleanStatus(job, w0, r.0, r.1) && (r.1.Reporting? || r.1.Finished?) && r.1.outcome == t.outcome
  {
    if t.sio.ReadSite? {
      ReadSiteClean(w, job.site.id, t.outcome, t.tries, inp);
    } else if t.sio.ReadDeployment? {
      ComputedClean(job, w0, w, t, inp);
    } else {
      WrittenClean(job, w0, w, t, inp);
    }
  }

  lemma StepClean(job: Job, w0: World, w: World, t: Thread, inp: Input, n: nat) returns (n': nat)
    requires CleanSoFar(job, w0, w, t, n) && Clean(inp)
    ensures CleanSoFar(job, w0, Step(w, t, inp).0, Step(w, t, inp).1, n')
    ensures !t.Finished? ==> Rank(Step(w, t, inp).1) < Rank(t)
  {
    n' := StepAlone(job, w0, w, t, inp, n);
    if t.Fetching? {
      FetchingClean(job, w, inp);
    } else if t.Working? {
      WorkingClean(job, w, t, inp);
    } else if t.Reporting? {
      ReportingClean(job, w0, w, t, inp);
    }
  }

  const CALLS := 2 * PARTS + 4

  /** An undisturbed reconcile keeps to its course, and is done after so many calls. */
  lemma {:induction false} CleanRun(job: Job, w0: World, inputs: seq<Input>) returns (n: nat)
    requires Serves(w0, job) && AllClean(inputs)
    ensures var r := Solo(w0, Begin(job), inputs);
            && CleanSoFar(job, w0, r.0, r.1, n)
            && (|inputs| >= CALLS ==> r.1.Finished?) && (!r.1.Finished? ==> Rank(r.1) <= CALLS - |inputs|)
  {
    n := 0;
    if inputs == [] {
    } else {
      var before, last := inputs[..|inputs| - 1], inputs[|inputs| - 1];
      var r := Solo(w0, Begin(job), before);
      n := CleanRun(job, w0, before);
      n := StepClean(job, w0, r.0, r.1, last, n);
    }
  }

  lemma {:induction false} SoloElsewhere(w: World, t: Thread, inputs: seq<Input>, k: Key)
    requires !Belongs(k, t.Id())
    ensures CellOf(Solo(w, t, inputs).0, k) == CellOf(w, k) && Solo(w, t, inputs).1.Id() == t.Id()
  {
    if inputs == [] {
    } else {
      var r := Solo(w, t, inputs[..|inputs| - 1]);
      SoloElsewhere(w, t, inputs[..|inputs| - 1], k);
      StepElsewhere(r.0, r.1, inputs[|inputs| - 1], k);
      StepId(r.0, r.1, inputs[|inputs| - 1]);
    }
  }

  // ---- Crash recovery ----

  /** Two stores agree on all of a Site's objects with their histories, and on its status but for transition times. */
  ghost predicate SameOutcome(job: Job, w1: World, w2: World) {
    && (forall m: nat :: m < PARTS ==> CellAt(job, w1, m) == CellAt(job, w2, m))
    && SiteSpecsAgree(job, w1, w2)
    && forall t :: Timeless(Lookup(ConditionsOf(w1, job.site.id), t)) == Timeless(Lookup(ConditionsOf(w2, job.site.id), t))
  }

  ghost predicate SiteSpecsAgree(job: Job, w1: World, w2: World) {
    var x1, x2 := Current(w1, SiteKey(job.site.id)), Current(w2, SiteKey(job.site.id));
    && IsSite(x1) && IsSite(x2)
    && x1.value.body.spec == x2.value.body.spec && x1.value.body.generation == x2.value.body.generation
  }

  lemma VerdictsTimeless(cs1: seq<Condition>, cs2: seq<Condition>, generation: nat, v: Verdict, now1: int, now2: int, t: string)
    requires !Ours(t) ==> Lookup(cs1, t) == Lookup(cs2, t)
    ensures Timeless(Lookup(Applied(cs1, generation, v, now1), t)) == Timeless(Lookup(Applied(cs2, generation, v, now2), t))
  {
    AppliedLookup(cs1, generation, v, now1, t);
    AppliedLookup(cs2, generation, v, now2, t);
  }

  lemma ConditionsWritten(c: Cell, conditions: seq<Condition>)
    requires IsSite(Now(c))
    ensures IsSite(Now(WithConditions(c, conditions))) && Now(WithConditions(c, conditions)).value.body.conditions == conditions
  {
  }

  /** What an undisturbed, finished reconcile leaves. */
  lemma FinishedLeaves(job: Job, w0: World, inputs: seq<Input>) returns (now: int)
    requires Serves(w0, job) && AllClean(inputs) && |inputs| >= CALLS
    ensures var r := Solo(w0, Begin(job), inputs);
            && r.1 == Finished(job.site.id, CleanOutcome(job, w0))
            && At(job, w0, r.0, Reach(job, w0)) && SiteAlong(w0, r.0, job.site.id)
            && CellOf(r.0, SiteKey(job.site.id))
               == WithConditions(CellOf(w0, SiteKey(job.site.id)), CleanConditions(job, w0, r.0, now))
            && ConditionsOf(r.0, job.site.id) == CleanConditions(job, w0, r.0, now)
  {
    var n := CleanRun(job, w0, inputs);
    var w := Solo(w0, Begin(job), inputs).0;
    var k := SiteKey(job.site.id);
    now :| CellOf(w, k) == WithConditions(CellOf(w0, k), CleanConditions(job, w0, w, now));
    ConditionsWritten(CellOf(w0, k), CleanConditions(job, w0, w, now));
  }

  lemma DeployCell(job: Job, w: World)
    ensures CellAt(job, w, 6) == CellOf(w, DeployKey(job))
  {
  }

  /**
   * Crash recovery: after any number of reconciles of a spec, each failing or cut after any API call, one
   * undisturbed reconcile ends as it would have ended without them: same outcome, same histories of all ten
   * objects, same status but for the clock.
   */
  lemma CrashRecovery(job: Job, w0: World, attempts: seq<seq<Input>>, last: seq<Input>, only: seq<Input>)
    requires Serves(w0, job)
    requires forall i :: 0 <= i < |attempts| ==> AllFresh(attempts[i])
    requires AllClean(last) && AllClean(only) && |last| >= CALLS && |only| >= CALLS
    ensures var recovered := Solo(After(w0, job, attempts), Begin(job), last);
            var direct := Solo(w0, Begin(job), only);
            && recovered.1.Finished? && recovered.1 == direct.1
            && SameOutcome(job, recovered.0, direct.0)
  {
    var n := AttemptsAlong(job, w0, attempts);
    var w1 := After(w0, job, attempts);
    var now1 := FinishedLeaves(job, w1, last);
    var now2 := FinishedLeaves(job, w0, only);
    var w2, w3 := Solo(w1, Begin(job), last).0, Solo(w0, Begin(job), only).0;
    Absorbed(job, job, w0, w1, n);
    SameTargets(job, job, w0, w1, n, w2);
    assert forall m: nat :: m < PARTS ==> CellAt(job, w2, m) == CellAt(job, w3, m);
    SameStatus(job, w0, w1, w2, w3, now1, now2);
  }

  lemma SameStatus(job: Job, w0: World, w1: World, w2: World, w3: World, now1: int, now2: int)
    requires forall m: nat :: m < PARTS ==> CellAt(job, w2, m) == CellAt(job, w3, m)
    requires SiteAlong(w0, w1, job.site.id) && CleanOutcome(job, w1) == CleanOutcome(job, w0)
    requires ConditionsOf(w2, job.site.id) == CleanConditions(job, w1, w2, now1)
    requires ConditionsOf(w3, job.site.id) == CleanConditions(job, w0, w3, now2)
    ensures forall t :: Timeless(Lookup(ConditionsOf(w2, job.site.id), t)) == Timeless(Lookup(ConditionsOf(w3, job.site.id), t))
  {
    var id := job.site.id;
    DeployCell(job, w2);
    DeployCell(job, w3);
    var v := Verdicts(Current(w2, DeployKey(job)), CleanOutcome(job, w0));
    forall t
      ensures Timeless(Lookup(ConditionsOf(w2, id), t)) == Timeless(Lookup(ConditionsOf(w3, id), t))
    {
      VerdictsTimeless(ConditionsOf(w1, id), ConditionsOf(w0, id), GenerationOf(w0, id), v, now1, now2, t);
    }
  }

  // ---- Quiescence ----

  /** Settling what is settled changes no cell. */
  lemma NothingToSettle(job: Job, again: Job, w0: World, w1: World, w: World, n: nat)
    requires SameJob(job, again) && At(job, w0, w1, Reach(job, w0)) && At(again, w1, w, n)
    ensures forall m: nat :: m < PARTS ==> CellAt(job, w, m) == CellAt(job, w1, m)
  {
    forall m: nat | m < PARTS
      ensures CellAt(job, w, m) == CellAt(job, w1, m)
    {
      assert CellAt(again, w, m) == CellAt(job, w, m) && CellAt(again, w1, m) == CellAt(job, w1, m);
      if m < n {
        Absorbed(job, again, w0, w1, Reach(job, w0));
        SettledAgain(job, again, w0, w1, Reach(job, w0), m);
      }
    }
  }

  /** The second status update writes what the first one wrote. */
  lemma NothingToReport(job: Job, again: Job, w0: World, w1: World, w: World, now1: int, now2: int)
    requires SameJob(job, again) && At(job, w0, w1, Reach(job, w0)) && Serves(w0, job) && SiteAlong(w0, w1, job.site.id)
    requires ConditionsOf(w1, job.site.id) == CleanConditions(job, w0, w1, now1)
    requires Current(w, DeployKey(job)) == Current(w1, DeployKey(job))
    ensures WithConditions(CellOf(w1, SiteKey(job.site.id)), CleanConditions(again, w1, w, now2)) == CellOf(w1, SiteKey(job.site.id))
  {
    var id := job.site.id;
    Absorbed(job, again, w0, w1, Reach(job, w0));
    var v := Verdicts(Current(w1, DeployKey(job)), CleanOutcome(job, w0));
    AppliedTwice(ConditionsOf(w0, id), GenerationOf(w0, id), v, now1, now2);
    assert CleanConditions(again, w1, w, now2) == ConditionsOf(w1, id);
  }

  /**
   * Quiescence: once an undisturbed reconcile has finished, another one in an otherwise static cluster writes
   * nothing at all, at no point of its run, whatever it would draw and whatever the clock says.
   */
  lemma Quiescence(job: Job, again: Job, w0: World, first: seq<Input>, second: seq<Input>)
    requires Serves(w0, job) && SameJob(job, again)
    requires AllClean(first) && |first| >= CALLS && AllClean(second)
    ensures var w1 := Solo(w0, Begin(job), first).0;
            SameStore(Solo(w1, Begin(again), second).0, w1)
  {
    var id := job.site.id;
    var now := FinishedLeaves(job, w0, first);
    var w1 := Solo(w0, Begin(job), first).0;
    var n := CleanRun(again, w1, second);
    var r := Solo(w1, Begin(again), second);
    NothingToSettle(job, again, w0, w1, r.0, n);
    QuietSite(job, again, w0, w1, r.0, r.1, now);
    forall k
      ensures CellOf(r.0, k) == CellOf(w1, k)
    {
      if !Belongs(k, id) {
        SoloElsewhere(w1, Begin(again), second, k);
      } else if k != SiteKey(id) {
        var m: nat :| m < PARTS && k == KeyOf(id, PartAt(m));
        assert CellAt(job, r.0, m) == CellAt(job, w1, m);
      }
    }
  }

  lemma QuietSite(job: Job, again: Job, w0: World, w1: World, w: World, t: Thread, now: int)
    requires SameJob(job, again) && At(job, w0, w1, Reach(job, w0)) && Serves(w0, job) && SiteAlong(w0, w1, job.site.id)
    requires ConditionsOf(w1, job.site.id) == CleanConditions(job, w0, w1, now)
    requires forall m: nat :: m < PARTS ==> CellAt(job, w, m) == CellAt(job, w1, m)
    requires CleanStatus(again, w1, w, t)
    ensures CellOf(w, SiteKey(job.site.id)) == CellOf(w1, SiteKey(job.site.id))
  {
    var k := SiteKey(job.site.id);
    DeployCell(job, w);
    DeployCell(job, w1);
    if t.Finished? {
      var later :| CellOf(w, k) == WithConditions(CellOf(w1, k), CleanConditions(again, w1, w, later));
      NothingToReport(job, again, w0, w1, w, now, later);
    }
  }
}
