/** What one reconcile settles, cell by cell, and that settling twice is settling once. */
module Settling {
  import opened Wrappers
  import opened Environment
  import opened Objects
  import opened Machine

  /** The effect of one part on its cell: the new history, or the error that stops the reconcile. */
  function Settle(job: Job, m: nat, c: Cell): Result<Cell, Error>
    requires m < PARTS
  {
    match OpFor(job, PartAt(m))
    case Skip => Success(c)
    case Refuse(e) => Failure(e)
    case Upsert(_) =>
      (match Mutate(job, PartAt(m), Now(c))
       case Failure(e) => Failure(e)
       case Success(o) => Success(if Now(c) == Some(o) then c else Store(c, Some(Admit(Now(c), o)))))
    case DeleteOwned => Success(if ControlledBy(Now(c), job.site.id) then c + [None] else c)
  }

  /** The same reconcile with other random draws. */
  ghost predicate SameJob(a: Job, b: Job) {
    a.site == b.site && a.cfg == b.cfg
  }

  lemma OpsAgree(a: Job, b: Job, part: Part)
    requires SameJob(a, b)
    ensures OpFor(a, part) == OpFor(b, part)
  {
  }

  /** A body that was just written asks for nothing more, whatever is drawn. */
  lemma DesiredTwice(a: Job, b: Job, part: Part, x: Option<Object>, y: Object)
    requires SameJob(a, b)
    requires y.body == Desired(a, part, x)
    ensures Desired(b, part, Some(y)) == y.body
  {
    if part == SecretPart {
      var wanted := WantedKeys(a.site.spec);
      var once := WithKeys(OldSecrets(x), wanted, a.draw);
      assert WithKeys(once, wanted, b.draw) == once;
    }
  }

  /** The object the server stores for a mutation is a fixed point of mutating and storing. */
  lemma StoredTwice(a: Job, b: Job, part: Part, x: Option<Object>)
    requires SameJob(a, b) && Mutate(a, part, x).Success?
    ensures var y := Admit(x, Mutate(a, part, x).value);
            Mutate(b, part, Some(y)).Success? && Admit(Some(y), Mutate(b, part, Some(y)).value) == y
  {
    var y := Admit(x, Mutate(a, part, x).value);
    if part == DeploymentPart {
      assert Desired(b, part, Some(y)) == y.body;
    } else {
      assert y.body == Desired(a, part, x);
      DesiredTwice(a, b, part, x, y);
    }
  }

  lemma SkippedTwice(a: Job, b: Job, part: Part, x: Object)
    requires SameJob(a, b) && Mutate(a, part, Some(x)) == Success(x)
    ensures Mutate(b, part, Some(x)) == Success(x)
  {
    DesiredTwice(a, b, part, Some(x), x);
  }

  /** Settling is idempotent, and the second time needs no new draw. */
  lemma SettleTwice(a: Job, b: Job, m: nat, c: Cell)
    requires SameJob(a, b) && m < PARTS && Settle(a, m, c).Success?
    ensures Settle(b, m, Settle(a, m, c).value) == Success(Settle(a, m, c).value)
  {
    var part := PartAt(m);
    OpsAgree(a, b, part);
    if OpFor(a, part).Upsert? {
      var o := Mutate(a, part, Now(c)).value;
      if Now(c) == Some(o) {
        SkippedTwice(a, b, part, o);
      } else {
        StoredTwice(a, b, part, Now(c));
      }
    }
  }

  // ---- The parts of one Site ----

  function PartKey(job: Job, m: nat): Key
    requires m < PARTS
  {
    KeyOf(job.site.id, PartAt(m))
  }

  lemma PartKeysApart(job: Job, m: nat, n: nat)
    requires m < PARTS && n < PARTS
    ensures PartKey(job, m) == PartKey(job, n) ==> m == n
    ensures PartKey(job, m) != SiteKey(job.site.id)
  {
    KeysApart(job.site.id, PartAt(m), job.site.id, PartAt(n));
  }

  function CellAt(job: Job, w: World, m: nat): Cell
    requires m < PARTS
  {
    CellOf(w, PartKey(job, m))
  }

  predicate Stops(job: Job, w: World, m: nat)
    requires m < PARTS
  {
    Settle(job, m, CellAt(job, w, m)).Failure?
  }

  function FirstTrue(flags: seq<bool>): (r: nat)
    ensures r <= |flags|
    ensures forall i :: 0 <= i < r ==> !flags[i]
    ensures r < |flags| ==> flags[r]
  {
    if flags == [] || flags[0] then 0 else 1 + FirstTrue(flags[1..])
  }

  /** The first part that stops the reconcile. */
  function Reach(job: Job, w: World): (r: nat)
    ensures r <= PARTS
  {
    FirstTrue(seq(PARTS, m requires 0 <= m < PARTS => Stops(job, w, m)))
  }

  /** Reach is the only number with its two properties. */
  lemma ReachMeans(job: Job, w: World, r: nat)
    requires r <= PARTS
    ensures r == Reach(job, w) <==>
              (forall i: nat :: i < r ==> !Stops(job, w, i)) && (r < PARTS ==> Stops(job, w, r))
  {
    var flags := seq(PARTS, m requires 0 <= m < PARTS => Stops(job, w, m));
    var reach := Reach(job, w);
    assert forall i: nat :: i < PARTS ==> flags[i] == Stops(job, w, i);
    if r < reach {
      assert !Stops(job, w, r);
    } else if reach < r {
      assert Stops(job, w, reach);
    }
  }

  /** The outcome of an undisturbed reconcile. */
  function CleanOutcome(job: Job, w: World): Option<Error> {
    var r := Reach(job, w);
    if r == PARTS then None
    else match Settle(job, r, CellAt(job, w, r)) case Failure(e) => Some(e) case _ => None
  }

  /** The cell of a part once it is settled. */
  function Target(job: Job, w0: World, m: nat): Cell
    requires m < PARTS
  {
    match Settle(job, m, CellAt(job, w0, m)) case Success(c) => c case Failure(_) => CellAt(job, w0, m)
  }

  /** The first n parts are settled with respect to the store w0, the others are as they were. */
  ghost predicate At(job: Job, w0: World, w: World, n: nat) {
    && n <= Reach(job, w0)
    && forall m: nat :: m < PARTS ==> CellAt(job, w, m) == if m < n then Target(job, w0, m) else CellAt(job, w0, m)
  }

  lemma SettledAgain(a: Job, b: Job, w0: World, w: World, n: nat, m: nat)
    requires SameJob(a, b) && At(a, w0, w, n) && (a == b || n == Reach(a, w0)) && m < Reach(a, w0)
    ensures Settle(b, m, CellAt(b, w, m)) == Success(Target(a, w0, m))
  {
    ReachMeans(a, w0, Reach(a, w0));
    assert !Stops(a, w0, m);
    if m < n {
      SettleTwice(a, b, m, CellAt(a, w0, m));
    }
  }

  /** From a partly settled store the same parts are reached, with the same outcome. */
  lemma Absorbed(a: Job, b: Job, w0: World, w: World, n: nat)
    requires SameJob(a, b) && At(a, w0, w, n) && (a == b || n == Reach(a, w0))
    ensures Reach(b, w) == Reach(a, w0) && CleanOutcome(b, w) == CleanOutcome(a, w0)
  {
    var r := Reach(a, w0);
    ReachMeans(a, w0, r);
    forall m: nat | m < r
      ensures !Stops(b, w, m)
    {
      SettledAgain(a, b, w0, w, n, m);
    }
    if r < PARTS {
      assert Stops(a, w0, r) && CellAt(b, w, r) == CellAt(a, w0, r);
      FailureAgrees(a, b, r, CellAt(a, w0, r));
    }
    ReachMeans(b, w, r);
  }

  /** And the same cells result. */
  lemma SameTargets(a: Job, b: Job, w0: World, w: World, n: nat, w': World)
    requires SameJob(a, b) && At(a, w0, w, n) && (a == b || n == Reach(a, w0))
    requires At(b, w, w', Reach(b, w))
    ensures At(a, w0, w', Reach(a, w0))
  {
    var r := Reach(a, w0);
    Absorbed(a, b, w0, w, n);
    forall m: nat | m < PARTS
      ensures CellAt(a, w', m) == if m < r then Target(a, w0, m) else CellAt(a, w0, m)
    {
      assert CellAt(b, w', m) == CellAt(a, w', m) && CellAt(b, w, m) == CellAt(a, w, m);
      if m < r {
        SettledAgain(a, b, w0, w, n, m);
      }
    }
  }

  lemma FailureAgrees(a: Job, b: Job, m: nat, c: Cell)
    requires SameJob(a, b) && m < PARTS && Settle(a, m, c).Failure?
    ensures Settle(b, m, c) == Settle(a, m, c)
  {
    OpsAgree(a, b, PartAt(m));
  }

  /** One more part settled. */
  lemma AtNext(job: Job, w0: World, w: World, n: nat, c: Cell)
    requires At(job, w0, w, n) && n < PARTS
    requires Settle(job, n, CellAt(job, w, n)) == Success(c)
    ensures At(job, w0, Put(w, PartKey(job, n), c), n + 1)
  {
    ReachMeans(job, w0, Reach(job, w0));
    assert CellAt(job, w, n) == CellAt(job, w0, n) && !Stops(job, w0, n);
    forall m: nat | m < PARTS
      ensures CellAt(job, Put(w, PartKey(job, n), c), m) == if m == n then c else CellAt(job, w, m)
    {
      PartKeysApart(job, m, n);
    }
  }
}
