/** How often a reconcile tries a write, and how many API calls it can take. */
module Attempts {
  import opened Wrappers
  import opened SiteTypes
  import opened Objects
  import opened Machine

  /** What a write is for: one of the Site's objects, or the Site's status. */
  datatype Target = OfPart(part: Part) | OfStatus

  /** The thread's next call is a write of the target. */
  predicate Writes(t: Thread, target: Target) {
    match target
    case OfPart(part) => t.Working? && t.pc == IndexOf(part) && t.io.Writing?
    case OfStatus => t.Reporting? && t.sio.WriteStatus?
  }

  /** The generated Secret is written once, everything else up to five times. */
  function Allowed(target: Target): nat {
    if target == OfPart(SecretPart) then 1 else 5
  }

  /** The writes of the target that the thread's present reconcile has sent. */
  function Sent(s: State, events: seq<Event>, tid: nat, target: Target): nat {
    if events == [] then 0
    else
      var before, e := events[..|events| - 1], events[|events| - 1];
      var n, threads := Sent(s, before, tid, target), Run(s, before).threads;
      if e.Start? && e.tid == tid then 0
      else if e.Call? && e.tid == tid && tid in threads && Writes(threads[tid], target) then n + 1
      else n
  }

  /** The API calls of every kind that the thread's present reconcile has made. */
  function Made(s: State, events: seq<Event>, tid: nat): nat {
    if events == [] then 0
    else
      var before, e := events[..|events| - 1], events[|events| - 1];
      var n, threads := Made(s, before, tid), Run(s, before).threads;
      if e.Start? && e.tid == tid then 0
      else if e.Call? && e.tid == tid && tid in threads && !threads[tid].Finished? then n + 1
      else n
  }

  // ---- Attempts at one write ----

  /** The thread's count of tries is that of the writes sent. */
  predicate Counted(t: Thread, n: nat, target: Target) {
    match t
    case Fetching(_, _, _) => n == 0
    case Working(job, pc, io, tries) =>
      (match target
       case OfStatus => n == 0
       case OfPart(part) =>
         if pc < IndexOf(part) then n == 0
         else if pc == IndexOf(part) then
           n == tries && n < Allowed(target) && (io.Writing? ==> OpFor(job, part).Upsert?)
         else n <= Allowed(target))
    case Reporting(_, _, _, tries) =>
      (match target
       case OfStatus => n == tries && n < Allowed(target)
       case OfPart(_) => n <= Allowed(target))
    case Finished(_, _) => n <= Allowed(target)
  }

  lemma AttemptsAllowed(job: Job, part: Part)
    requires OpFor(job, part).Upsert?
    ensures OpFor(job, part).attempts == Allowed(OfPart(part))
  {
  }

  lemma GotoCounts(job: Job, pc: nat, n: nat, target: Target)
    requires n <= Allowed(target)
    requires match target case OfStatus => n == 0 case OfPart(part) => pc > IndexOf(part) || n == 0
    ensures Counted(Goto(job, pc), n, target)
  {
    GotoForward(job, pc);
  }

  lemma WorkCounts(c: Cell, job: Job, pc: nat, io: Io, tries: nat, inp: Input, n: nat, target: Target)
    requires pc < PARTS && Counted(Working(job, pc, io, tries), n, target)
    ensures var m := if Writes(Working(job, pc, io, tries), target) then n + 1 else n;
            Counted(WorkOn(c, job, pc, io, tries, inp).1, m, target)
  {
    var m := if Writes(Working(job, pc, io, tries), target) then n + 1 else n;
    IndexAt(pc);
    GotoCounts(job, pc + 1, m, target);
    if OpFor(job, PartAt(pc)).Upsert? {
      AttemptsAllowed(job, PartAt(pc));
    }
  }

  lemma StepCounts(w: World, t: Thread, inp: Input, n: nat, target: Target)
    requires Counted(t, n, target)
    ensures Counted(Step(w, t, inp).1, if Writes(t, target) then n + 1 else n, target)
  {
    match t
    case Fetching(id, cfg, draw) =>
      var x := CellOf(w, SiteKey(id))[Observed(CellOf(w, SiteKey(id)), inp.lag)];
      if x.Some? && x.value.body.SiteBody? {
        GotoCounts(Job(Site(id, x.value.body.spec), cfg, draw), 0, 0, target);
      }
    case Working(job, pc, io, tries) =>
      if pc < PARTS {
        WorkCounts(CellOf(w, KeyOf(job.site.id, PartAt(pc))), job, pc, io, tries, inp, n, target);
      }
    case _ =>
  }

  lemma {:induction false} RunCounts(s: State, events: seq<Event>, tid: nat, target: Target)
    requires tid !in s.threads
    ensures var threads := Run(s, events).threads;
            tid in threads ==> Counted(threads[tid], Sent(s, events, tid, target), target)
  {
    if events == [] {
    } else {
      var before, e := events[..|events| - 1], events[|events| - 1];
      var was := Run(s, before);
      RunCounts(s, before, tid, target);
      if e.Call? && e.tid == tid && tid in was.threads {
        StepCounts(was.world, was.threads[tid], e.input, Sent(s, before, tid, target), target);
      }
    }
  }

  /** No reconcile of any run sends the generated Secret twice, or another object or the status more than five times. */
  lemma FiveAttempts(s: State, events: seq<Event>, tid: nat, part: Part)
    requires tid !in s.threads && tid in Run(s, events).threads
    ensures Sent(s, events, tid, OfPart(part)) <= (if part == SecretPart then 1 else 5)
    ensures Sent(s, events, tid, OfStatus) <= 5
  {
    RunCounts(s, events, tid, OfPart(part));
    RunCounts(s, events, tid, OfStatus);
  }

  /** What the server answers to the thread's write, as the client sees it. */
  function Answer(w: World, t: Thread, inp: Input): Option<Error>
    requires t.Working? ==> t.pc < PARTS
  {
    match t
    case Working(job, pc, Writing(version, create, o), _) =>
      var c := CellOf(w, KeyOf(job.site.id, PartAt(pc)));
      Seen(inp.fault, if create then CreateCell(c, o).1 else UpdateCell(c, version, o).1)
    case Reporting(id, _, WriteStatus(version, conditions), _) =>
      Seen(inp.fault, StatusCell(CellOf(w, SiteKey(id)), version, conditions).1)
    case _ => None
  }

  /** The thread is back to reading for the target. */
  predicate ReadsFor(t: Thread, target: Target) {
    match target
    case OfPart(part) => t.Working? && t.pc == IndexOf(part) && t.io == Reading
    case OfStatus => t.Reporting? && t.sio == ReadSite
  }

  lemma WriteRetries(w: World, t: Thread, inp: Input, n: nat, target: Target)
    requires Writes(t, target) && Counted(t, n, target) && (t.Working? ==> t.pc < PARTS)
    ensures ReadsFor(Step(w, t, inp).1, target) <==> Answer(w, t, inp) == Some(Conflict) && n + 1 < Allowed(target)
  {
    if target.OfPart? {
      IndexAt(t.pc);
      GotoForward(t.job, t.pc + 1);
      AttemptsAllowed(t.job, target.part);
    }
  }

  /**
   * In every run, a write is tried again exactly when it is answered with a conflict and, with this one, fewer than
   * five have been sent; the generated Secret never is.
   */
  lemma RetriesIff(s: State, events: seq<Event>, tid: nat, target: Target, inp: Input)
    requires tid !in s.threads && tid in Run(s, events).threads && Writes(Run(s, events).threads[tid], target)
    ensures var w, t := Run(s, events).world, Run(s, events).threads[tid];
            && (t.Working? ==> t.pc < PARTS)
            && (ReadsFor(Step(w, t, inp).1, target)
                <==> Answer(w, t, inp) == Some(Conflict) && target != OfPart(SecretPart)
                     && Sent(s, events, tid, target) + 1 < 5)
  {
    RunCounts(s, events, tid, target);
    WriteRetries(Run(s, events).world, Run(s, events).threads[tid], inp, Sent(s, events, tid, target), target);
  }

  // ---- Calls of a whole reconcile ----

  /** Tries are within bounds. */
  predicate Tame(t: Thread) {
    match t
    case Working(_, pc, _, tries) => pc < PARTS && tries < if pc == 0 then 1 else 5
    case Reporting(_, _, _, tries) => tries < 5
    case _ => true
  }

  /** The calls a thread has left at most: 15 for the status, 10 for a part and 2 for the generated Secret. */
  function Left(t: Thread): int {
    match t
    case Fetching(_, _, _) => 108
    case Working(_, pc, io, tries) =>
      15 + 10 * (9 - pc) + 2 * ((if pc == 0 then 1 else 5) - tries) - (if io == Reading then 0 else 1)
    case Reporting(_, _, sio, tries) =>
      3 * (5 - tries) - (match sio case ReadSite => 0 case ReadDeployment(_, _) => 1 case WriteStatus(_, _) => 2)
    case Finished(_, _) => 0
  }

  lemma GotoLeft(job: Job, pc: nat)
    requires 0 < pc <= PARTS
    ensures Tame(Goto(job, pc)) && 0 < Left(Goto(job, pc)) <= 15 + 10 * (PARTS - pc)
  {
    GotoForward(job, pc);
  }

  lemma StartLeft(job: Job)
    ensures Tame(Goto(job, 0)) && 0 < Left(Goto(job, 0)) < 108
  {
    GotoForward(job, 0);
  }

  lemma AttemptsLeft(job: Job, pc: nat)
    requires pc < PARTS && OpFor(job, PartAt(pc)).Upsert?
    ensures OpFor(job, PartAt(pc)).attempts == if pc == 0 then 1 else 5
  {
  }

  lemma WriteLeft(job: Job, pc: nat, tries: nat, reply: Option<Error>)
    requires Tame(Working(job, pc, Reading, tries))
    ensures var t := AfterWrite(job, pc, tries, reply);
            Tame(t) && Left(t) < Left(Working(job, pc, Reading, tries)) - 1
  {
    GotoLeft(job, pc + 1);
    if OpFor(job, PartAt(pc)).Upsert? {
      AttemptsLeft(job, pc);
    }
  }

  lemma ReadLeft(x: Option<Object>, job: Job, pc: nat, tries: nat, version: nat)
    requires Tame(Working(job, pc, Reading, tries))
    ensures var t := AfterRead(x, job, pc, tries, version);
            Tame(t) && Left(t) < Left(Working(job, pc, Reading, tries))
  {
    GotoLeft(job, pc + 1);
  }

  lemma WorkLeft(c: Cell, job: Job, pc: nat, io: Io, tries: nat, inp: Input)
    requires Tame(Working(job, pc, io, tries))
    ensures var t := WorkOn(c, job, pc, io, tries, inp).1;
            Tame(t) && Left(t) < Left(Working(job, pc, io, tries))
  {
    match io
    case Reading =>
      ReadLeft(c[Observed(c, inp.lag)], job, pc, tries, Observed(c, inp.lag));
    case Writing(version, create, o) =>
      WriteLeft(job, pc, tries, Seen(inp.fault, if create then CreateCell(c, o).1 else UpdateCell(c, version, o).1));
    case Deleting(_) =>
      var reply := DeleteCell(c).1;
      WriteLeft(job, pc, tries, Seen(inp.fault, if reply == Some(NotFound) then None else reply));
  }

  lemma StepLeft(w: World, t: Thread, inp: Input)
    requires Tame(t) && !t.Finished?
    ensures Tame(Step(w, t, inp).1) && Left(Step(w, t, inp).1) < Left(t)
  {
    match t
    case Fetching(id, cfg, draw) =>
      var x := CellOf(w, SiteKey(id))[Observed(CellOf(w, SiteKey(id)), inp.lag)];
      if x.Some? && x.value.body.SiteBody? {
        StartLeft(Job(Site(id, x.value.body.spec), cfg, draw));
      }
    case Working(job, pc, io, tries) =>
      WorkLeft(CellOf(w, KeyOf(job.site.id, PartAt(pc))), job, pc, io, tries, inp);
    case _ =>
  }

  lemma LeftIsPositive(t: Thread)
    requires Tame(t)
    ensures 0 <= Left(t) && (Left(t) == 0 ==> t.Finished?)
  {
  }

  lemma {:induction false} RunLeft(s: State, events: seq<Event>, tid: nat)
    requires tid !in s.threads
    ensures var threads := Run(s, events).threads;
            tid in threads ==> Tame(threads[tid]) && Made(s, events, tid) + Left(threads[tid]) <= 108
  {
    if events == [] {
    } else {
      var before, e := events[..|events| - 1], events[|events| - 1];
      var was := Run(s, before);
      RunLeft(s, before, tid);
      if e.Call? && e.tid == tid && tid in was.threads && !was.threads[tid].Finished? {
        StepLeft(was.world, was.threads[tid], e.input);
      }
    }
  }

  /** In every run, whatever conflicts and faults it meets, a reconcile makes at most 108 calls and has then finished. */
  lemma CallsBounded(s: State, events: seq<Event>, tid: nat)
    requires tid !in s.threads && tid in Run(s, events).threads
    ensures Made(s, events, tid) <= 108
    ensures Made(s, events, tid) == 108 ==> Run(s, events).threads[tid].Finished?
  {
    RunLeft(s, events, tid);
    LeftIsPositive(Run(s, events).threads[tid]);
  }
}
