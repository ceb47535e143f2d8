/** Runs made of calm events: one that gets through, and one in which a lagging read breaks the order of configuration. */
module LaggingRun {
  import opened Wrappers
  import opened SiteTypes
  import NginxConfig
  import opened Checksum
  import opened Objects
  import opened Machine
  import opened Settling
  import opened StatusWrites
  import opened Provenance
  import opened Runs
  import opened Recovery
  import opened Convergence
  import opened Ordering
  import opened Stepwise

  function CallsOf(inputs: seq<Input>): seq<Event> {
    seq(|inputs|, i requires 0 <= i < |inputs| => Call(0, inputs[i]))
  }

  /** A cluster with nobody but thread 0. */
  function One(r: (World, Thread)): State {
    State(r.0, map[0 := r.1])
  }

  lemma CallOne(w: World, t: Thread, inp: Input)
    ensures Next(One((w, t)), Call(0, inp)) == One(Step(w, t, inp))
  {
    assert map[0 := t][0 := Step(w, t, inp).1] == map[0 := Step(w, t, inp).1];
  }

  lemma {:induction false} SoloRuns(w: World, t: Thread, inputs: seq<Input>)
    ensures Run(One((w, t)), CallsOf(inputs)) == One(Solo(w, t, inputs))
  {
    if inputs == [] {
    } else {
      var n := |inputs| - 1;
      assert CallsOf(inputs)[..n] == CallsOf(inputs[..n]);
      SoloRuns(w, t, inputs[..n]);
      var r := Solo(w, t, inputs[..n]);
      CallOne(r.0, r.1, inputs[n]);
    }
  }

  /** An event of an undisturbed cluster: a start, an edit, or a clean call. */
  predicate Calm(e: Event, id: SiteId) {
    match e
    case Start(tid, other, _, _) => tid == 0 && other == id
    case Edit(other, _) => other == id
    case Call(tid, input) => tid == 0 && Clean(input)
    case _ => false
  }

  ghost predicate AllCalm(events: seq<Event>, id: SiteId) {
    forall i :: 0 <= i < |events| ==> Calm(events[i], id)
  }

  lemma CallsCalm(inputs: seq<Input>, id: SiteId)
    requires AllClean(inputs)
    ensures AllCalm(CallsOf(inputs), id)
  {
  }

  lemma OneEvent(s: State, e: Event)
    ensures Run(s, [e]) == Next(s, e)
  {
    assert [e][..0] == [];
  }

  /** The events lead calmly from one state to another. */
  ghost predicate Goes(s: State, events: seq<Event>, s': State, id: SiteId) {
    AllCalm(events, id) && Run(s, events) == s'
  }

  lemma GoesOn(a: State, e1: seq<Event>, b: State, e2: seq<Event>, c: State, id: SiteId)
    requires Goes(a, e1, b, id) && Goes(b, e2, c, id)
    ensures Goes(a, e1 + e2, c, id)
  {
    RunJoin(a, e1, e2);
  }

  lemma Starts(s: State, job: Job)
    requires s.threads.Keys <= {0}
    ensures Goes(s, [Start(0, job.site.id, job.cfg, job.draw)], One((s.world, Begin(job))), job.site.id)
  {
    var e := Start(0, job.site.id, job.cfg, job.draw);
    OneEvent(s, e);
    assert s.threads[0 := Begin(job)] == map[0 := Begin(job)];
  }

  lemma Fetches(w: World, job: Job)
    requires Serves(w, job)
    ensures Goes(One((w, Begin(job))), CallsOf([OK]), One((w, Goto(job, 0))), job.site.id)
  {
    SoloRuns(w, Begin(job), [OK]);
    SoloOne(w, Begin(job), OK);
  }

  /** A start, a clean fetch, and some more calls. */
  function Attempt(job: Job, inputs: seq<Input>): seq<Event> {
    [Start(0, job.site.id, job.cfg, job.draw)] + CallsOf([OK]) + CallsOf(inputs)
  }

  /** From a start to a later part. */
  lemma ReconcilesTo(s: State, job: Job, n: nat) returns (inputs: seq<Input>, w': World)
    requires s.threads.Keys <= {0} && Serves(s.world, job) && n <= PARTS && Settleable(job, s.world, 0, n)
    ensures Goes(s, Attempt(job, inputs), One((w', Goto(job, n))), job.site.id) && Between(job, s.world, w', 0, n)
    ensures AllClean(inputs)
  {
    var w, id := s.world, job.site.id;
    var begun, fetched := One((w, Begin(job))), One((w, Goto(job, 0)));
    Starts(s, job);
    Fetches(w, job);
    var start := [Start(0, id, job.cfg, job.draw)];
    GoesOn(s, start, begun, CallsOf([OK]), fetched, id);
    inputs, w' := RunsTo(job, w, 0, n);
    SoloRuns(w, Goto(job, 0), inputs);
    CallsCalm(inputs, id);
    GoesOn(s, start + CallsOf([OK]), fetched, CallsOf(inputs), One((w', Goto(job, n))), id);
  }

  /** All objects of the Site are its own or absent. */
  ghost predicate AllOurs(job: Job, w: World) {
    forall i: nat :: i < PARTS ==> OursOrNone(Now(CellAt(job, w, i)), job.site.id)
  }

  lemma OursSettleable(job: Job, w: World, m: nat, n: nat)
    requires AllOurs(job, w) && !ProvisionEnabled(job.site.spec)
    ensures Settleable(job, w, m, n)
  {
    forall i: nat | m <= i < n && i < PARTS
      ensures Settle(job, i, CellAt(job, w, i)).Success?
    {
      OursSettle(job, i, CellAt(job, w, i));
    }
  }

  lemma StillOurs(job: Job, w: World, w': World, m: nat, n: nat)
    requires AllOurs(job, w) && !ProvisionEnabled(job.site.spec) && Between(job, w, w', m, n)
    ensures AllOurs(job, w')
  {
    forall i: nat | i < PARTS
      ensures OursOrNone(Now(CellAt(job, w', i)), job.site.id)
    {
      OursSettle(job, i, CellAt(job, w, i));
    }
  }

  function Edited(w: World, id: SiteId, spec: SiteSpec): World {
    Put(w, SiteKey(id), EditCell(CellOf(w, SiteKey(id)), spec))
  }

  lemma EditServes(w: World, job: Job)
    requires IsSite(Current(w, SiteKey(job.site.id)))
    ensures Serves(Edited(w, job.site.id, job.site.spec), job)
    ensures forall i: nat :: i < PARTS ==> CellAt(job, Edited(w, job.site.id, job.site.spec), i) == CellAt(job, w, i)
  {
    forall i: nat | i < PARTS
      ensures PartKey(job, i) != SiteKey(job.site.id)
    {
      PartKeysApart(job, i, i);
    }
  }

  lemma SiteBetween(job: Job, w: World, w': World, m: nat, n: nat)
    requires Between(job, w, w', m, n)
    ensures CellOf(w', SiteKey(job.site.id)) == CellOf(w, SiteKey(job.site.id))
  {
    forall i: nat | i < PARTS
      ensures SiteKey(job.site.id) != PartKey(job, i)
    {
      PartKeysApart(job, i, i);
    }
  }

  // ---- The three reconciles ----

  function NginxMap(id: SiteId, spec: SiteSpec): Option<Object> {
    Some(Object(Some(SiteOwner(id)), true, ConfigMapBody(map["default.conf" := NginxConfig.NginxContent(spec)])))
  }

  lemma MapsDiffer(id: SiteId, a: SiteSpec, b: SiteSpec)
    requires NginxConfig.NginxContent(a) != NginxConfig.NginxContent(b)
    ensures NginxMap(id, a) != NginxMap(id, b)
  {
    var x, y := map["default.conf" := NginxConfig.NginxContent(a)], map["default.conf" := NginxConfig.NginxContent(b)];
    assert x["default.conf"] != y["default.conf"];
  }

  /** The ConfigMap is absent, or has another text than the spec's. */
  predicate OtherText(x: Option<Object>, id: SiteId, other: SiteSpec, spec: SiteSpec) {
    x.None? || (x == NginxMap(id, other) && x != NginxMap(id, spec))
  }

  lemma NginxWritten(job: Job, x: Option<Object>, other: SiteSpec)
    requires OtherText(x, job.site.id, other, job.site.spec)
    ensures Mutate(job, NginxPart, x).Success? && x != Some(Mutate(job, NginxPart, x).value)
    ensures Some(Admit(x, Mutate(job, NginxPart, x).value)) == NginxMap(job.site.id, job.site.spec)
  {
  }

  /** A new text is appended to the history of the ConfigMap. */
  lemma NginxSettles(job: Job, c: Cell, other: SiteSpec)
    requires OtherText(Now(c), job.site.id, other, job.site.spec)
    ensures Settle(job, 4, c) == Success(c + [NginxMap(job.site.id, job.site.spec)])
  {
    NginxWritten(job, Now(c), other);
  }

  /** A read that lags by one finds the text of a under that of b, and the reconcile of a goes on. */
  lemma LaggingReadSkips(job: Job, w: World, b: SiteSpec)
    requires var c := CellAt(job, w, 4); |c| >= 2 && c[|c| - 2] == NginxMap(job.site.id, job.site.spec)
    ensures Step(w, Working(job, 4, Reading, 0), Input(NoFault, 1, 0)) == (w, Working(job, 5, Reading, 0))
  {
    var c := CellAt(job, w, 4);
    assert Observed(c, 1) == |c| - 2;
    assert Mutate(job, NginxPart, NginxMap(job.site.id, job.site.spec)) == Success(NginxMap(job.site.id, job.site.spec).value);
    GotoStops(job, 5);
    PutSame(w, PartKey(job, 4));
  }

  lemma FramesDiffer(x: string, y: string, z: string)
    requires x != y
    ensures Frame([x, z]) != Frame([y, z])
  {
    FrameOfTwo(x, z);
    FrameOfTwo(y, z);
    var tail := [NUL] + z + [NUL];
    assert x + [NUL] + z + [NUL] == x + tail && y + [NUL] + z + [NUL] == y + tail;
    if x + tail == y + tail {
      SuffixCancels(x, y, tail);
    }
  }

  /** A Deployment hashed from a over the text of b. */
  lemma HashBroken(job: Job, w: World, b: SiteSpec)
    requires Settled(job, DeploymentPart, Current(w, KeyOf(job.site.id, DeploymentPart)))
    requires Settled(job, PhpPart, Current(w, KeyOf(job.site.id, PhpPart)))
    requires Current(w, KeyOf(job.site.id, NginxPart)) == NginxMap(job.site.id, b)
    requires NginxConfig.NginxContent(job.site.spec) != NginxConfig.NginxContent(b)
    ensures !HashFits(w, job.site.id)
  {
    var deployment, php := Current(w, KeyOf(job.site.id, DeploymentPart)), Current(w, KeyOf(job.site.id, PhpPart));
    DeploymentSettled(job, deployment);
    PhpSettled(job, php);
    FramesDiffer(NginxConfig.NginxContent(job.site.spec), NginxConfig.NginxContent(b), PhpIniContent(job.site.spec));
  }

  lemma PhpSettled(job: Job, x: Option<Object>)
    requires Settled(job, PhpPart, x)
    ensures x.Some? && x.value.body == ConfigMapBody(map[PHP_INI := PhpIniContent(job.site.spec)])
  {
  }

  /** The state between reconciles: the histories of the Site and of its ConfigMap, and nothing of anyone else's. */
  ghost predicate Ready(s: State, job: Job, site: Cell, nginx: Cell) {
    && s.threads.Keys <= {0} && Serves(s.world, job) && AllOurs(job, s.world)
    && CellOf(s.world, SiteKey(job.site.id)) == site && CellAt(job, s.world, 4) == nginx
  }

  lemma ReconcilesAll(s: State, job: Job, site: Cell, nginx: Cell) returns (inputs: seq<Input>, w': World)
    requires Ready(s, job, site, nginx) && !ProvisionEnabled(job.site.spec) && Settle(job, 4, nginx).Success?
    ensures Goes(s, Attempt(job, inputs), One((w', Report(job.site.id, None))), job.site.id)
    ensures Ready(One((w', Report(job.site.id, None))), job, site, Settle(job, 4, nginx).value)
  {
    OursSettleable(job, s.world, 0, PARTS);
    inputs, w' := ReconcilesTo(s, job, PARTS);
    StillOurs(job, s.world, w', 0, PARTS);
    SiteBetween(job, s.world, w', 0, PARTS);
  }

  lemma EditReady(s: State, job: Job, next: Job, site: Cell, nginx: Cell) returns (s': State)
    requires Ready(s, job, site, nginx) && next.site.id == job.site.id
    ensures Goes(s, [Edit(job.site.id, next.site.spec)], s', job.site.id)
    ensures Ready(s', next, EditCell(site, next.site.spec), nginx)
  {
    var e := Edit(job.site.id, next.site.spec);
    s' := Next(s, e);
    OneEvent(s, e);
    EditServes(s.world, next);
    forall i: nat | i < PARTS
      ensures CellAt(next, s'.world, i) == CellAt(job, s.world, i)
    {
      assert CellAt(next, s'.world, i) == CellAt(next, s.world, i);
    }
  }

  /** One reconcile and the next edit. */
  lemma Round(s: State, job: Job, next: Job, site: Cell, nginx: Cell) returns (events: seq<Event>, s': State)
    requires Ready(s, job, site, nginx) && next.site.id == job.site.id && !ProvisionEnabled(job.site.spec)
    requires OtherText(Now(nginx), job.site.id, next.site.spec, job.site.spec)
    ensures Goes(s, events, s', job.site.id)
    ensures Ready(s', next, EditCell(site, next.site.spec), nginx + [NginxMap(job.site.id, job.site.spec)])
  {
    NginxSettles(job, nginx, next.site.spec);
    var inputs, w := ReconcilesAll(s, job, site, nginx);
    var done := One((w, Report(job.site.id, None)));
    s' := EditReady(done, job, next, site, nginx + [NginxMap(job.site.id, job.site.spec)]);
    GoesOn(s, Attempt(job, inputs), done, [Edit(job.site.id, next.site.spec)], s', job.site.id);
    events := Attempt(job, inputs) + [Edit(job.site.id, next.site.spec)];
  }

  /** A Site created as a, edited to b and back to a. */
  function ThereAndBack(a: SiteSpec, b: SiteSpec): Cell {
    EditCell(EditCell(Created(a), b), a)
  }

  lemma VersionsOf(a: SiteSpec, b: SiteSpec)
    requires a != b
    ensures var c := ThereAndBack(a, b);
            |c| == 3 && HadSpec(c, 2, a) && forall spec :: HadSpec(c, 2, spec) ==> spec == a
  {
  }

  /** What the ConfigMap has been through: nothing, the text of a, the text of b. */
  function History(id: SiteId, a: SiteSpec, b: SiteSpec): Cell {
    [None] + [NginxMap(id, a)] + [NginxMap(id, b)]
  }

  lemma OtherAfter(id: SiteId, a: SiteSpec, b: SiteSpec)
    requires NginxConfig.NginxContent(a) != NginxConfig.NginxContent(b)
    ensures OtherText(Now([None]), id, b, a) && OtherText(Now([None] + [NginxMap(id, a)]), id, a, b)
  {
    MapsDiffer(id, a, b);
  }

  /** Reconcile a, edit to b and reconcile, and edit back to a. */
  lemma TwoReconciles(s: State, ja: Job, jb: Job) returns (events: seq<Event>, s': State)
    requires Ready(s, ja, Created(ja.site.spec), [None]) && ja.site.id == jb.site.id
    requires !ProvisionEnabled(ja.site.spec) && !ProvisionEnabled(jb.site.spec)
    requires NginxConfig.NginxContent(ja.site.spec) != NginxConfig.NginxContent(jb.site.spec)
    ensures Goes(s, events, s', ja.site.id)
    ensures Ready(s', ja, ThereAndBack(ja.site.spec, jb.site.spec), History(ja.site.id, ja.site.spec, jb.site.spec))
  {
    var id := ja.site.id;
    OtherAfter(id, ja.site.spec, jb.site.spec);
    var e1, s1 := Round(s, ja, jb, Created(ja.site.spec), [None]);
    var e2;
    e2, s' := Round(s1, jb, ja, EditCell(Created(ja.site.spec), jb.site.spec), [None] + [NginxMap(id, ja.site.spec)]);
    GoesOn(s, e1, s1, e2, s', id);
    events := e1 + e2;
  }

  lemma StretchSettles(job: Job, w: World, w': World, part: Part)
    requires Between(job, w, w', 5, PARTS) && 5 <= IndexOf(part)
    ensures Settled(job, part, Current(w', KeyOf(job.site.id, part)))
  {
    SettledOnce(job, IndexOf(part), CellAt(job, w, IndexOf(part)));
  }

  lemma StretchKeeps(job: Job, w: World, w': World)
    requires Between(job, w, w', 5, PARTS)
    ensures Current(w', KeyOf(job.site.id, NginxPart)) == Now(CellAt(job, w, 4))
  {
    assert CellAt(job, w', 4) == CellAt(job, w, 4);
  }

  lemma StretchBreaks(job: Job, w: World, w': World, b: SiteSpec)
    requires Between(job, w, w', 5, PARTS) && Now(CellAt(job, w, 4)) == NginxMap(job.site.id, b)
    requires NginxConfig.NginxContent(job.site.spec) != NginxConfig.NginxContent(b)
    ensures !HashFits(w', job.site.id)
  {
    StretchSettles(job, w, w', PhpPart);
    StretchSettles(job, w, w', DeploymentPart);
    StretchKeeps(job, w, w');
    HashBroken(job, w', b);
  }

  /** Go on from the php ConfigMap to the end. */
  lemma FinishesFrom(job: Job, w: World, b: SiteSpec) returns (inputs: seq<Input>, w': World)
    requires AllOurs(job, w) && !ProvisionEnabled(job.site.spec) && Now(CellAt(job, w, 4)) == NginxMap(job.site.id, b)
    requires NginxConfig.NginxContent(job.site.spec) != NginxConfig.NginxContent(b)
    ensures Goes(One((w, Goto(job, 5))), CallsOf(inputs), One((w', Report(job.site.id, None))), job.site.id)
    ensures Between(job, w, w', 5, PARTS) && !HashFits(w', job.site.id) && AllClean(inputs)
  {
    OursSettleable(job, w, 5, PARTS);
    inputs, w' := RunsTo(job, w, 5, PARTS);
    SoloRuns(w, Goto(job, 5), inputs);
    CallsCalm(inputs, job.site.id);
    StretchBreaks(job, w, w', b);
  }

  /** Up to the nginx ConfigMap of the third reconcile. */
  lemma ReachesNginx(s: State, job: Job, site: Cell, nginx: Cell) returns (inputs: seq<Input>, w': World)
    requires Ready(s, job, site, nginx) && !ProvisionEnabled(job.site.spec)
    ensures Goes(s, Attempt(job, inputs), One((w', Working(job, 4, Reading, 0))), job.site.id)
    ensures Ready(One((w', Working(job, 4, Reading, 0))), job, site, nginx) && AllClean(inputs)
  {
    OursSettleable(job, s.world, 0, 4);
    inputs, w' := ReconcilesTo(s, job, 4);
    StillOurs(job, s.world, w', 0, 4);
    SiteBetween(job, s.world, w', 0, 4);
    GotoStops(job, 4);
  }

  /** A cluster that holds but a Site. */
  function Quiet(id: SiteId, spec: SiteSpec): State {
    State(SiteAlone(id, spec), map[])
  }

  lemma QuietReady(job: Job)
    ensures Ready(Quiet(job.site.id, job.site.spec), job, Created(job.site.spec), [None])
  {
    forall i: nat | i < PARTS
      ensures CellAt(job, Quiet(job.site.id, job.site.spec).world, i) == [None]
    {
      PartKeysApart(job, i, i);
    }
  }

  lemma LagSkips(w: World, job: Job, b: SiteSpec)
    requires CellAt(job, w, 4) == History(job.site.id, job.site.spec, b)
    ensures Run(One((w, Working(job, 4, Reading, 0))), CallsOf([LAGGING])) == One((w, Goto(job, 5)))
  {
    var t := Working(job, 4, Reading, 0);
    LaggingReadSkips(job, w, b);
    GotoStops(job, 5);
    SoloRuns(w, t, [LAGGING]);
    SoloOne(w, t, LAGGING);
  }

  // ---- The version fetched ----

  /** After a start what was fetched earlier does not matter. */
  lemma {:induction false} FetchJoin(s: State, a: seq<Event>, b: seq<Event>, tid: nat)
    requires b != [] && b[0].Start? && b[0].tid == tid
    ensures LastFetch(s, a + b, tid) == LastFetch(Run(s, a), b, tid)
  {
    var n := |b| - 1;
    assert (a + b)[..|a + b| - 1] == a + b[..n];
    RunJoin(s, a, b[..n]);
    if n == 0 {
      assert b[..0] == [];
    } else {
      FetchJoin(s, a, b[..n], tid);
    }
  }

  /** Thread 0 is past its fetch, and that is what it fetched. */
  ghost predicate HasFetched(s: State, events: seq<Event>, f: Option<Fetch>) {
    var s' := Run(s, events);
    0 in s'.threads && !s'.threads[0].Fetching? && LastFetch(s, events, 0) == f
  }

  lemma CallKeepsFetch(s: State, events: seq<Event>, inp: Input, f: Option<Fetch>)
    requires HasFetched(s, events, f)
    ensures HasFetched(s, events + [Call(0, inp)], f)
  {
    assert (events + [Call(0, inp)])[..|events|] == events;
    NeverFetchesAgain(Run(s, events).world, Run(s, events).threads[0], inp);
  }

  lemma {:induction false} CallsKeepFetch(s: State, pre: seq<Event>, inputs: seq<Input>, f: Option<Fetch>)
    requires HasFetched(s, pre, f)
    ensures HasFetched(s, pre + CallsOf(inputs), f)
  {
    if inputs == [] {
      assert pre + CallsOf(inputs) == pre;
    } else {
      var n := |inputs| - 1;
      assert pre + CallsOf(inputs) == pre + CallsOf(inputs[..n]) + [Call(0, inputs[n])];
      CallsKeepFetch(s, pre, inputs[..n], f);
      CallKeepsFetch(s, pre + CallsOf(inputs[..n]), inputs[n], f);
    }
  }

  lemma NeverFetchesAgain(w: World, t: Thread, inp: Input)
    requires !t.Fetching?
    ensures !Step(w, t, inp).1.Fetching?
  {
    if t.Working? && t.pc < PARTS {
      WorkMoves(CellAt(t.job, w, t.pc), t.job, t.pc, t.io, t.tries, inp);
      GotoFits(t.job, t.pc + 1);
    }
  }

  /** An attempt works from the newest version of the Site. */
  lemma AttemptFetches(s: State, job: Job, inputs: seq<Input>)
    requires s.threads.Keys <= {0} && Serves(s.world, job)
    ensures LastFetch(s, Attempt(job, inputs), 0) == Some(Fetch(job, |CellOf(s.world, SiteKey(job.site.id))| - 1))
  {
    var start := [Start(0, job.site.id, job.cfg, job.draw)];
    Starts(s, job);
    Fetches(s.world, job);
    RunJoin(s, start, CallsOf([OK]));
    assert (start + CallsOf([OK]))[..1] == start;
    GotoFits(job, 0);
    CallsKeepFetch(s, start + CallsOf([OK]), inputs, Some(Fetch(job, |CellOf(s.world, SiteKey(job.site.id))| - 1)));
  }

  // ---- The run ----

  const LAGGING := Input(NoFault, 1, 0)

  /** The worker has got through over a text that no version of the Site from its own on renders. */
  ghost predicate Disordered(s: State, events: seq<Event>, id: SiteId) {
    var w, mark := Run(s, events).world, Mark(s, events, id, 0, DeploymentPart);
    && Run(s, events).threads == map[0 := Report(id, None)] && !HashFits(w, id)
    && mark.Some? && forall php, nginx :: !InOrder(w, id, mark, php, nginx)
  }

  lemma OthersTextRenders(id: SiteId, a: SiteSpec, b: SiteSpec)
    requires NginxConfig.NginxContent(a) != NginxConfig.NginxContent(b)
    ensures !Renders(NginxMap(id, b), id, a, NginxPart)
  {
    MapsDiffer(id, a, b);
  }

  lemma LaterSpec(a: SiteSpec, b: SiteSpec, version: nat, spec: SiteSpec)
    requires a != b && version >= 2 && HadSpec(ThereAndBack(a, b), version, spec)
    ensures spec == a
  {
    VersionsOf(a, b);
  }

  lemma NotDated(w: World, id: SiteId, a: SiteSpec, b: SiteSpec, nginx: Option<nat>)
    requires CellOf(w, SiteKey(id)) == ThereAndBack(a, b) && Current(w, KeyOf(id, NginxPart)) == NginxMap(id, b)
    requires NginxConfig.NginxContent(a) != NginxConfig.NginxContent(b) && nginx.Some? && nginx.value >= 2
    ensures !Dated(w, id, NginxPart, nginx)
  {
    OthersTextRenders(id, a, b);
    forall spec | HadSpec(ThereAndBack(a, b), nginx.value, spec)
      ensures !Renders(NginxMap(id, b), id, spec, NginxPart)
    {
      LaterSpec(a, b, nginx.value, spec);
    }
  }

  lemma NoMarks(w: World, id: SiteId, a: SiteSpec, b: SiteSpec, php: Option<nat>, nginx: Option<nat>)
    requires CellOf(w, SiteKey(id)) == ThereAndBack(a, b) && Current(w, KeyOf(id, NginxPart)) == NginxMap(id, b)
    requires NginxConfig.NginxContent(a) != NginxConfig.NginxContent(b)
    ensures !InOrder(w, id, Some(2), php, nginx)
  {
    if Reaches(Some(2), php) && Reaches(php, nginx) {
      NotDated(w, id, a, b, nginx);
    }
  }

  /** The end of the run, given the stores it went through. */
  lemma EndsDisordered(s: State, events: seq<Event>, ja: Job, b: SiteSpec, w: World)
    requires AllSound(s) && NginxConfig.NginxContent(ja.site.spec) != NginxConfig.NginxContent(b)
    requires OverTextOf(s, events, ja, b, w) && LastFetch(s, events, 0) == Some(Fetch(ja, 2))
    ensures Disordered(s, events, ja.site.id)
  {
    RunMarked(s, events, ja.site.id, 0, DeploymentPart);
    forall php, nginx
      ensures !InOrder(w, ja.site.id, Some(2), php, nginx)
    {
      NoMarks(w, ja.site.id, ja.site.spec, b, php, nginx);
    }
  }

  lemma CallsJoin(a: seq<Input>, b: seq<Input>)
    ensures CallsOf(a) + CallsOf(b) == CallsOf(a + b)
  {
  }

  /** A worker that fetched the newest version got through over the text of b. */
  ghost predicate OverTextOf(s: State, events: seq<Event>, ja: Job, b: SiteSpec, w: World) {
    && Run(s, events) == One((w, Report(ja.site.id, None))) && !HashFits(w, ja.site.id)
    && CellOf(w, SiteKey(ja.site.id)) == ThereAndBack(ja.site.spec, b)
    && Current(w, KeyOf(ja.site.id, NginxPart)) == NginxMap(ja.site.id, b)
  }

  /** The third reconcile, with a lagging read at the nginx ConfigMap. */
  lemma LaggingReconcile(s: State, ja: Job, b: SiteSpec) returns (first: seq<Input>, rest: seq<Input>, w: World)
    requires Ready(s, ja, ThereAndBack(ja.site.spec, b), History(ja.site.id, ja.site.spec, b))
    requires !ProvisionEnabled(ja.site.spec) && NginxConfig.NginxContent(ja.site.spec) != NginxConfig.NginxContent(b)
    ensures AllClean(first) && AllClean(rest) && OverTextOf(s, Attempt(ja, first + [LAGGING] + rest), ja, b, w)
  {
    var site, nginx := ThereAndBack(ja.site.spec, b), History(ja.site.id, ja.site.spec, b);
    var w1;
    first, w1 := ReachesNginx(s, ja, site, nginx);
    LagSkips(w1, ja, b);
    rest, w := FinishesFrom(ja, w1, b);
    SiteBetween(ja, w1, w, 5, PARTS);
    StretchKeeps(ja, w1, w);
    AttemptRuns(s, ja, first, rest, w1, w);
  }

  lemma AttemptRuns(s: State, ja: Job, first: seq<Input>, rest: seq<Input>, w1: World, w: World)
    requires Run(s, Attempt(ja, first)) == One((w1, Working(ja, 4, Reading, 0)))
    requires Run(One((w1, Working(ja, 4, Reading, 0))), CallsOf([LAGGING])) == One((w1, Goto(ja, 5)))
    requires Run(One((w1, Goto(ja, 5))), CallsOf(rest)) == One((w, Report(ja.site.id, None)))
    ensures Run(s, Attempt(ja, first + [LAGGING] + rest)) == One((w, Report(ja.site.id, None)))
  {
    RunJoin(s, Attempt(ja, first), CallsOf([LAGGING]));
    RunJoin(s, Attempt(ja, first) + CallsOf([LAGGING]), CallsOf(rest));
    AttemptGrows(ja, first, [LAGGING], rest);
  }

  lemma AttemptGrows(job: Job, a: seq<Input>, b: seq<Input>, c: seq<Input>)
    ensures Attempt(job, a) + CallsOf(b) + CallsOf(c) == Attempt(job, a + b + c)
  {
    CallsJoin(a, b);
    CallsJoin(a + b, c);
  }

  /**
   * Why the worker must read fresh: reconcile a, edit to b and reconcile, edit back to a and reconcile again, all
   * calmly but for one read that lags by one version. The worker gets through all parts, the annotation is not the
   * checksum of the stored texts, and a stored text is older than the version from which the Deployment was made.
   */
  lemma LaggingReadBreaks(id: SiteId, a: SiteSpec, b: SiteSpec, cfg: OperatorConfig, draw: string -> string)
    returns (before: seq<Event>, first: seq<Input>, rest: seq<Input>)
    requires NginxConfig.NginxContent(a) != NginxConfig.NginxContent(b) && !ProvisionEnabled(a) && !ProvisionEnabled(b)
    ensures AllCalm(before, id) && AllClean(first) && AllClean(rest)
    ensures Disordered(Quiet(id, a), before + Attempt(Job(Site(id, a), cfg, draw), first + [LAGGING] + rest), id)
  {
    var ja, jb := Job(Site(id, a), cfg, draw), Job(Site(id, b), cfg, draw);
    QuietReady(ja);
    var s1, w;
    before, s1 := TwoReconciles(Quiet(id, a), ja, jb);
    first, rest, w := LaggingReconcile(s1, ja, b);
    var third := Attempt(ja, first + [LAGGING] + rest);
    RunJoin(Quiet(id, a), before, third);
    FetchJoin(Quiet(id, a), before, third, 0);
    VersionsOf(a, b);
    AttemptFetches(s1, ja, first + [LAGGING] + rest);
    EndsDisordered(Quiet(id, a), before + third, ja, b, w);
  }

  // ---- Runs of the kind that the results on single workers ask for ----

  lemma CalmOrderly(events: seq<Event>, id: SiteId)
    requires AllCalm(events, id)
    ensures AllOrderly(events, id, 0, EVERY)
  {
    forall i | 0 <= i < |events|
      ensures Orderly(events[i], id, 0, EVERY)
    {
      assert Calm(events[i], id);
    }
  }

  lemma QuietBare(id: SiteId, spec: SiteSpec)
    ensures Bare(Quiet(id, spec), id, 0)
  {
    forall part
      ensures Current(Quiet(id, spec).world, KeyOf(id, part)).None?
    {
      KeysApart(id, part, id, part);
    }
  }

  /** Such runs exist: from a cluster that holds but a Site, calm events lead through all parts of its spec. */
  lemma CalmRunsThrough(id: SiteId, spec: SiteSpec, cfg: OperatorConfig, draw: string -> string)
    returns (events: seq<Event>, job: Job)
    requires !ProvisionEnabled(spec)
    ensures Bare(Quiet(id, spec), id, 0) && AllOrderly(events, id, 0, EVERY)
    ensures Through(Quiet(id, spec), events, id, 0, job) && job.site == Site(id, spec)
  {
    var s, first := Quiet(id, spec), Job(Site(id, spec), cfg, draw);
    QuietReady(first);
    OursSettleable(first, s.world, 0, PARTS);
    var inputs, w' := ReconcilesTo(s, first, PARTS);
    events := Attempt(first, inputs);
    CalmOrderly(events, id);
    QuietBare(id, spec);
    SiteBetween(first, s.world, w', 0, PARTS);
    RunSeen(s, events, id, 0);
    RunFits(s, events, 0);
    job := LastFetch(s, events, 0).value.job;
  }
}
