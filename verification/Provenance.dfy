/** Where the fields come from that a write keeps of the object it finds: the writes since the object was created. */
module Provenance {
  import opened Wrappers
  import opened SiteTypes
  import opened Environment
  import opened Status
  import opened Objects
  import opened Machine

  /** The jobs whose writes to a part took effect since the object was last created, in order. */
  function Writers(s: State, events: seq<Event>, id: SiteId, part: Part): seq<Job> {
    if events == [] then []
    else
      var before, last := events[..|events| - 1], events[|events| - 1];
      var mid, k := Run(s, before), KeyOf(id, part);
      var c, c' := CellOf(mid.world, k), CellOf(Next(mid, last).world, k);
      if !last.Call? || last.tid !in mid.threads || !mid.threads[last.tid].Working? || c' == c then Writers(s, before, id, part)
      else if Now(c').None? then []
      else Writers(s, before, id, part) + [mid.threads[last.tid].job]
  }

  /** The class a spec names, if it names one. */
  function NamedClass(spec: SiteSpec): Option<string> {
    if spec.ingress.Some? && spec.ingress.value.ingressClassName != "" then Some(spec.ingress.value.ingressClassName) else None
  }

  /** The class named last. */
  function LastNamed(writers: seq<Job>): Option<string> {
    if |writers| == 0 then None
    else
      var named := NamedClass(writers[|writers| - 1].site.spec);
      if named.Some? then named else LastNamed(writers[..|writers| - 1])
  }

  lemma {:induction false} LastNamedIff(writers: seq<Job>)
    ensures LastNamed(writers).Some? <==> exists i :: 0 <= i < |writers| && NamedClass(writers[i].site.spec).Some?
  {
    if |writers| == 0 {
    } else {
      var n := |writers| - 1;
      LastNamedIff(writers[..n]);
      assert forall i :: 0 <= i < n ==> writers[..n][i] == writers[i];
    }
  }

  predicate Wants(writers: seq<Job>, i: nat, key: string)
    requires i < |writers|
  {
    key in WantedKeys(writers[i].site.spec)
  }

  predicate WantsFirst(writers: seq<Job>, i: nat, key: string)
    requires i < |writers|
  {
    Wants(writers, i, key) && forall j :: 0 <= j < i ==> !Wants(writers, j, key)
  }

  /** The key is there exactly when some writer wanted it, with what the first such writer drew. */
  ghost predicate DrawnFirst(secrets: map<string, string>, writers: seq<Job>, key: string) {
    && (key in secrets <==> exists i :: 0 <= i < |writers| && Wants(writers, i, key))
    && (forall i :: 0 <= i < |writers| && WantsFirst(writers, i, key) ==>
          key in secrets && secrets[key] == writers[i].draw(key))
  }

  ghost predicate FirstDrawn(secrets: map<string, string>, writers: seq<Job>) {
    forall key :: DrawnFirst(secrets, writers, key)
  }

  /** The object is what its writers made of it, starting from nothing. */
  ghost predicate Grown(x: Option<Object>, writers: seq<Job>, id: SiteId, part: Part) {
    && (x.None? <==> |writers| == 0)
    && (|writers| > 0 ==> writers[|writers| - 1].site.id == id && OpFor(writers[|writers| - 1], part).Upsert?)
    && (x.Some? ==>
          && x.value.controller == Some(SiteOwner(id)) && x.value.defaulted && OfType(x.value.body, part)
          && (match part
              case SecretPart => FirstDrawn(x.value.body.secrets, writers)
              case DeploymentPart => x.value.body.deployment == BuildDeploymentSpec(writers[|writers| - 1].site)
              case IngressPart => x.value.body.className == LastNamed(writers)
              case PvcPart =>
                && x.value.body.accessModes == ["ReadWriteOnce"]
                && x.value.body.requests == map["storage" := ClaimSize(writers[|writers| - 1].site.spec)]
                && x.value.body.storageClass == WantedStorageClass(writers[0])
              case _ => x.value.body == Desired(writers[|writers| - 1], part, None)))
  }

  lemma MoreDrawn(secrets: map<string, string>, writers: seq<Job>, job: Job, key: string)
    requires DrawnFirst(secrets, writers, key)
    ensures DrawnFirst(WithKeys(secrets, WantedKeys(job.site.spec), job.draw), writers + [job], key)
  {
    var n, more := |writers|, writers + [job];
    assert forall i :: 0 <= i < n ==> Wants(more, i, key) == Wants(writers, i, key);
    assert Wants(more, n, key) == (key in WantedKeys(job.site.spec));
    forall i | 0 <= i <= n && WantsFirst(more, i, key)
      ensures i < n ==> WantsFirst(writers, i, key)
      ensures i == n ==> key !in secrets
    {
    }
  }

  lemma MoreSecrets(secrets: map<string, string>, writers: seq<Job>, job: Job)
    requires FirstDrawn(secrets, writers)
    ensures FirstDrawn(WithKeys(secrets, WantedKeys(job.site.spec), job.draw), writers + [job])
  {
    forall key
      ensures DrawnFirst(WithKeys(secrets, WantedKeys(job.site.spec), job.draw), writers + [job], key)
    {
      assert DrawnFirst(secrets, writers, key);
      MoreDrawn(secrets, writers, job, key);
    }
  }

  lemma SecretGrows(x: Option<Object>, writers: seq<Job>, job: Job)
    requires Grown(x, writers, job.site.id, SecretPart) && Mutate(job, SecretPart, x).Success? && OpFor(job, SecretPart).Upsert?
    ensures Grown(Some(Admit(x, Mutate(job, SecretPart, x).value)), writers + [job], job.site.id, SecretPart)
  {
    if x.None? {
      assert FirstDrawn(map[], writers);
    }
    MoreSecrets(OldSecrets(x), writers, job);
  }

  lemma IngressGrows(x: Option<Object>, writers: seq<Job>, job: Job)
    requires Grown(x, writers, job.site.id, IngressPart) && Mutate(job, IngressPart, x).Success? && OpFor(job, IngressPart).Upsert?
    ensures Grown(Some(Admit(x, Mutate(job, IngressPart, x).value)), writers + [job], job.site.id, IngressPart)
  {
    assert (writers + [job])[..|writers|] == writers;
  }

  lemma ClaimGrows(x: Option<Object>, writers: seq<Job>, job: Job)
    requires Grown(x, writers, job.site.id, PvcPart) && Mutate(job, PvcPart, x).Success? && OpFor(job, PvcPart).Upsert?
    ensures Grown(Some(Admit(x, Mutate(job, PvcPart, x).value)), writers + [job], job.site.id, PvcPart)
  {
  }

  lemma DeploymentWritten(x: Option<Object>, job: Job)
    requires Mutate(job, DeploymentPart, x).Success?
    ensures var y := Admit(x, Mutate(job, DeploymentPart, x).value);
            && y.controller == Some(SiteOwner(job.site.id)) && y.defaulted && y.body.DeploymentBody?
            && y.body.deployment == BuildDeploymentSpec(job.site)
  {
  }

  lemma DeploymentGrows(x: Option<Object>, writers: seq<Job>, job: Job)
    requires Grown(x, writers, job.site.id, DeploymentPart) && Mutate(job, DeploymentPart, x).Success? && OpFor(job, DeploymentPart).Upsert?
    ensures Grown(Some(Admit(x, Mutate(job, DeploymentPart, x).value)), writers + [job], job.site.id, DeploymentPart)
  {
    DeploymentWritten(x, job);
    assert (writers + [job])[|writers|] == job;
  }

  lemma PlainGrows(x: Option<Object>, writers: seq<Job>, job: Job, part: Part)
    requires part != SecretPart && part != IngressPart && part != PvcPart && part != DeploymentPart
    requires Grown(x, writers, job.site.id, part) && Mutate(job, part, x).Success? && OpFor(job, part).Upsert?
    ensures Grown(Some(Admit(x, Mutate(job, part, x).value)), writers + [job], job.site.id, part)
  {
  }

  lemma WriteGrows(x: Option<Object>, writers: seq<Job>, job: Job, part: Part)
    requires Grown(x, writers, job.site.id, part) && Mutate(job, part, x).Success? && OpFor(job, part).Upsert?
    ensures Grown(Some(Admit(x, Mutate(job, part, x).value)), writers + [job], job.site.id, part)
  {
    match part
    case SecretPart => SecretGrows(x, writers, job);
    case IngressPart => IngressGrows(x, writers, job);
    case PvcPart => ClaimGrows(x, writers, job);
    case DeploymentPart => DeploymentGrows(x, writers, job);
    case _ => PlainGrows(x, writers, job, part);
  }

  lemma RolloutGrows(c: Cell, status: DeploymentStatus, writers: seq<Job>, id: SiteId)
    requires Grown(Now(c), writers, id, DeploymentPart)
    ensures Grown(Now(RolloutCell(c, status)), writers, id, DeploymentPart)
  {
  }

  /** Whose writers an object has after a call of a thread at work on it. */
  function WritersAfter(c: Cell, c': Cell, writers: seq<Job>, job: Job): seq<Job> {
    if Now(c').None? && |c'| > |c| then [] else if |c'| > |c| then writers + [job] else writers
  }

  lemma WorkGrows(w: World, job: Job, pc: nat, io: Io, tries: nat, inp: Input, writers: seq<Job>)
    requires Sound(w, Working(job, pc, io, tries))
    requires Grown(Current(w, KeyOf(job.site.id, PartAt(pc))), writers, job.site.id, PartAt(pc))
    ensures var c := CellOf(w, KeyOf(job.site.id, PartAt(pc)));
            var c' := WorkOn(c, job, pc, io, tries, inp).0;
            && (c' == c || |c'| > |c|)
            && Grown(Now(c'), WritersAfter(c, c', writers, job), job.site.id, PartAt(pc))
  {
    var x := Current(w, KeyOf(job.site.id, PartAt(pc)));
    WorkEffect(w, job, pc, io, tries, inp);
    if Mutate(job, PartAt(pc), x).Success? && OpFor(job, PartAt(pc)).Upsert? {
      WriteGrows(x, writers, job, PartAt(pc));
    }
  }

  lemma CallGrows(w: World, t: Thread, inp: Input, id: SiteId, part: Part, writers: seq<Job>)
    requires Sound(w, t) && Grown(Current(w, KeyOf(id, part)), writers, id, part)
    ensures var c, c' := CellOf(w, KeyOf(id, part)), CellOf(Step(w, t, inp).0, KeyOf(id, part));
            && (c' != c ==> t.Working?)
            && Grown(Now(c'), if c' == c then writers else if Now(c').None? then [] else writers + [t.job], id, part)
  {
    if t.Working? && t.job.site.id == id && PartAt(t.pc) == part {
      WorkGrows(w, t.job, t.pc, t.io, t.tries, inp, writers);
    } else {
      StepSpares(w, t, inp, id, part);
    }
  }

  lemma OutsideGrows(s: State, e: Event, id: SiteId, part: Part, writers: seq<Job>)
    requires !e.Call? && !(e.Meddle? && e.key == KeyOf(id, part)) && Grown(Current(s.world, KeyOf(id, part)), writers, id, part)
    ensures Grown(Current(Next(s, e).world, KeyOf(id, part)), writers, id, part)
  {
    if e.Rollout? && e.id == id && part == DeploymentPart {
      RolloutGrows(CellOf(s.world, KeyOf(id, part)), e.status, writers, id);
    } else {
      OutsideSpares(s, e, id, part);
    }
  }

  /**
   * Provenance: in every run of any number of threads, with lagging reads, faults, restarts and edits, an object
   * that was not there at first is its Site's and what its last writer asked for, its class is the one named last since it was created, its storage
   * class is that of the job that created it, and its secrets are those its writers wanted, as first drawn.
   */
  lemma {:induction false} RunGrows(s: State, events: seq<Event>, id: SiteId, part: Part)
    requires AllSound(s) && Current(s.world, KeyOf(id, part)).None?
    requires forall i :: 0 <= i < |events| ==> !(events[i].Meddle? && events[i].key == KeyOf(id, part))
    ensures Grown(Current(Run(s, events).world, KeyOf(id, part)), Writers(s, events, id, part), id, part)
  {
    if events == [] {
    } else {
      var before, last := events[..|events| - 1], events[|events| - 1];
      var mid := Run(s, before);
      RunSound(s, before);
      RunGrows(s, before, id, part);
      if !last.Call? {
        OutsideGrows(mid, last, id, part, Writers(s, before, id, part));
      } else if last.tid in mid.threads {
        CallGrows(mid.world, mid.threads[last.tid], last.input, id, part, Writers(s, before, id, part));
      }
    }
  }

  /** The Site's own object, or none. */
  predicate OursOrNone(x: Option<Object>, id: SiteId) {
    x.None? || ControlledBy(x, id)
  }

  lemma CallOurs(w: World, t: Thread, inp: Input, id: SiteId, part: Part)
    requires Sound(w, t) && OursOrNone(Current(w, KeyOf(id, part)), id)
    ensures OursOrNone(Current(Step(w, t, inp).0, KeyOf(id, part)), id)
  {
    if t.Working? && t.job.site.id == id && PartAt(t.pc) == part {
      WorkEffect(w, t.job, t.pc, t.io, t.tries, inp);
    } else {
      StepSpares(w, t, inp, id, part);
    }
  }

  lemma OutsideOurs(s: State, e: Event, id: SiteId, part: Part)
    requires !e.Call? && !(e.Meddle? && e.key == KeyOf(id, part)) && OursOrNone(Current(s.world, KeyOf(id, part)), id)
    ensures OursOrNone(Current(Next(s, e).world, KeyOf(id, part)), id)
  {
    if !(e.Rollout? && e.id == id && part == DeploymentPart) {
      OutsideSpares(s, e, id, part);
    }
  }

  /** Under a name that is free or the Site's own, any run keeps it so. */
  lemma {:induction false} RunOurs(s: State, events: seq<Event>, id: SiteId, part: Part)
    requires AllSound(s) && OursOrNone(Current(s.world, KeyOf(id, part)), id)
    requires forall i :: 0 <= i < |events| ==> !(events[i].Meddle? && events[i].key == KeyOf(id, part))
    ensures OursOrNone(Current(Run(s, events).world, KeyOf(id, part)), id)
  {
    if events == [] {
    } else {
      var before, last := events[..|events| - 1], events[|events| - 1];
      var mid := Run(s, before);
      RunSound(s, before);
      RunOurs(s, before, id, part);
      if !last.Call? {
        OutsideOurs(mid, last, id, part);
      } else if last.tid in mid.threads {
        CallOurs(mid.world, mid.threads[last.tid], last.input, id, part);
      }
    }
  }
}
