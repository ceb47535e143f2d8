/** The operator writes and deletes only what its Site controls, or what nobody does. */
module Ownership {
  import opened Wrappers
  import opened SiteTypes
  import opened Objects
  import opened Machine

  /**
   * A call that changes a managed object: it was not controlled by another, and is controlled by the caller's
   * Site afterwards; a deletion hits the Site's own object if nothing happened since the thread read it.
   */
  lemma CallRespectsOwners(w: World, t: Thread, inp: Input, id: SiteId, part: Part)
    requires Sound(w, t)
    ensures var c, c' := CellOf(w, KeyOf(id, part)), CellOf(Step(w, t, inp).0, KeyOf(id, part));
            c' != c ==>
              && t.Working? && t.job.site.id == id
              && (Now(c').Some? ==> !ControlledByOther(Now(c), id) && ControlledBy(Now(c'), id))
              && (Now(c').None? ==> t.io.Deleting? && (t.io.version == |c| - 1 ==> ControlledBy(Now(c), id)))
  {
    if t.Working? && t.job.site.id == id && PartAt(t.pc) == part {
      WorkOwners(w, t.job, t.pc, t.io, t.tries, inp);
    } else {
      StepSpares(w, t, inp, id, part);
    }
  }

  lemma WorkOwners(w: World, job: Job, pc: nat, io: Io, tries: nat, inp: Input)
    requires Sound(w, Working(job, pc, io, tries))
    ensures var c := CellOf(w, KeyOf(job.site.id, PartAt(pc)));
            var c' := WorkOn(c, job, pc, io, tries, inp).0;
            c' != c ==>
              && (Now(c').Some? ==> !ControlledByOther(Now(c), job.site.id) && ControlledBy(Now(c'), job.site.id))
              && (Now(c').None? ==> io.Deleting? && (io.version == |c| - 1 ==> ControlledBy(Now(c), job.site.id)))
  {
    WorkEffect(w, job, pc, io, tries, inp);
  }

  /** No version of the object was ever controlled by the Site. */
  predicate NeverOurs(c: Cell, id: SiteId) {
    forall i :: 0 <= i < |c| ==> !ControlledBy(c[i], id)
  }

  predicate MayDelete(part: Part) {
    part == IngressPart || part == PvcPart
  }

  /** Everything in the cluster except writers of the object itself. */
  predicate Bystander(e: Event, id: SiteId, part: Part) {
    && !(e.Meddle? && e.key == KeyOf(id, part))
    && !(e.Rollout? && e.id == id && part == DeploymentPart)
  }

  lemma ForeignNext(s: State, e: Event, id: SiteId, part: Part)
    requires AllSound(s) && Bystander(e, id, part)
    requires ControlledByOther(Current(s.world, KeyOf(id, part)), id)
    requires MayDelete(part) ==> NeverOurs(CellOf(s.world, KeyOf(id, part)), id)
    ensures CellOf(Next(s, e).world, KeyOf(id, part)) == CellOf(s.world, KeyOf(id, part))
  {
    if !e.Call? {
      OutsideSpares(s, e, id, part);
    } else if e.tid in s.threads {
      ForeignCall(s.world, s.threads[e.tid], e.input, id, part);
    }
  }

  lemma ForeignCall(w: World, t: Thread, inp: Input, id: SiteId, part: Part)
    requires Sound(w, t) && ControlledByOther(Current(w, KeyOf(id, part)), id)
    requires MayDelete(part) ==> NeverOurs(CellOf(w, KeyOf(id, part)), id)
    ensures CellOf(Step(w, t, inp).0, KeyOf(id, part)) == CellOf(w, KeyOf(id, part))
  {
    CallRespectsOwners(w, t, inp, id, part);
    DeletesOnlyOwned(w, t, id, part);
  }

  lemma DeletesOnlyOwned(w: World, t: Thread, id: SiteId, part: Part)
    requires Sound(w, t)
    ensures t.Working? && t.job.site.id == id && PartAt(t.pc) == part && t.io.Deleting? ==>
              MayDelete(part) && !NeverOurs(CellOf(w, KeyOf(id, part)), id)
  {
  }

  /**
   * An object that another owner controls under a Site's name is left exactly as it is by any run of any number
   * of threads; for the two kinds that are also deleted, provided it did not replace an object of the Site.
   */
  lemma {:induction false} ForeignObjectUntouched(s: State, events: seq<Event>, id: SiteId, part: Part)
    requires AllSound(s)
    requires forall e :: e in events ==> Bystander(e, id, part)
    requires ControlledByOther(Current(s.world, KeyOf(id, part)), id)
    requires MayDelete(part) ==> NeverOurs(CellOf(s.world, KeyOf(id, part)), id)
    ensures CellOf(Run(s, events).world, KeyOf(id, part)) == CellOf(s.world, KeyOf(id, part))
  {
    if events == [] {
    } else {
      var before := events[..|events| - 1];
      RunSound(s, before);
      ForeignObjectUntouched(s, before, id, part);
      ForeignNext(Run(s, before), events[|events| - 1], id, part);
    }
  }

  /**
   * The delete call asks nothing about the version: it takes whatever is there. That is an object of the Site
   * for as long as nobody has written it since it was read.
   */
  lemma DeleteTakesWhatIsThere(w: World, job: Job, pc: nat, version: nat, tries: nat, inp: Input)
    requires Sound(w, Working(job, pc, Deleting(version), tries)) && !inp.fault.Lost?
    ensures var c := CellOf(w, KeyOf(job.site.id, PartAt(pc)));
            && WorkOn(c, job, pc, Deleting(version), tries, inp).0 == (if Now(c).Some? then c + [None] else c)
            && (!ControlledBy(Now(c), job.site.id) ==> version < |c| - 1)
  {
  }

  /** The race itself: between the operator's Get and its Delete someone replaces the ingress, and loses it. */
  lemma DeleteRace(s: State, tid: nat, job: Job, tries: nat, intruder: Object)
    requires tid in s.threads && s.threads[tid] == Working(job, 8, Reading, tries) && !IngressOn(job.site.spec)
    requires ControlledBy(Current(s.world, KeyOf(job.site.id, IngressPart)), job.site.id)
    requires intruder.controller.Some? && intruder.controller != Some(SiteOwner(job.site.id))
    ensures var k := KeyOf(job.site.id, IngressPart);
            var ok := Call(tid, Input(NoFault, 0, 0));
            var replaced := Next(Next(s, ok), Meddle(k, Some(intruder)));
            && Current(replaced.world, k) == Some(intruder)
            && Current(Next(replaced, ok).world, k) == None
  {
    var k := KeyOf(job.site.id, IngressPart);
    var ok := Call(tid, Input(NoFault, 0, 0));
    var s1 := Next(s, ok);
    assert s1.threads[tid] == Working(job, 8, Deleting(|CellOf(s.world, k)| - 1), tries);
    var s2 := Next(s1, Meddle(k, Some(intruder)));
    assert s2.threads[tid] == s1.threads[tid];
  }
}
