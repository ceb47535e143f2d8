/** Conditions of a Site, and how they are derived from the reconcile's outcome and the Deployment. */
module Status {
  import opened Wrappers

  datatype ConditionStatus = IsTrue | IsFalse | Unknown

  datatype Condition = Condition(
    ctype: string,
    status: ConditionStatus,
    reason: string,
    message: string,
    observedGeneration: nat,
    lastTransition: int)

  datatype DeploymentCondition = DeploymentCondition(ctype: string, status: ConditionStatus, reason: string, message: string)

  datatype DeploymentStatus = DeploymentStatus(
    observedGeneration: int,
    replicas: int,
    updatedReplicas: int,
    availableReplicas: int,
    conditions: seq<DeploymentCondition>)

  /** What the status derivation reads of a Deployment. */
  datatype DeploymentView = DeploymentView(generation: int, replicas: Option<int>, status: DeploymentStatus)

  const AVAILABLE := "Available"
  const PROGRESSING := "Progressing"
  const DEGRADED := "Degraded"

  predicate Ours(ctype: string) {
    ctype == AVAILABLE || ctype == PROGRESSING || ctype == DEGRADED
  }

  // ---- Condition lists ----

  function Find(cs: seq<Condition>, ctype: string): (i: int)
    ensures -1 <= i < |cs|
    ensures i >= 0 ==> cs[i].ctype == ctype
    ensures forall j :: 0 <= j < |cs| && cs[j].ctype == ctype ==> 0 <= i <= j
  {
    if cs == [] then -1
    else if cs[0].ctype == ctype then 0
    else var i := Find(cs[1..], ctype); if i < 0 then -1 else i + 1
  }

  function Lookup(cs: seq<Condition>, ctype: string): Option<Condition> {
    var i := Find(cs, ctype);
    if i < 0 then None else Some(cs[i])
  }

  /** A condition but for its transition time. */
  function Timeless(c: Option<Condition>): Option<Condition> {
    if c.Some? then Some(c.value.(lastTransition := 0)) else None
  }

  /** A condition after an update at time now: the transition time moves only with the status. */
  function Merged(prior: Option<Condition>, c: Condition, now: int): Condition {
    c.(lastTransition := if prior.Some? && prior.value.status == c.status then prior.value.lastTransition else now)
  }

  /** apimeta.SetStatusCondition. */
  function SetCondition(cs: seq<Condition>, c: Condition, now: int): seq<Condition> {
    var i := Find(cs, c.ctype);
    if i < 0 then cs + [Merged(None, c, now)] else cs[i := Merged(Some(cs[i]), c, now)]
  }

  /** The three statuses with their common reason and message. */
  datatype Verdict = Verdict(
    reason: string,
    message: string,
    available: ConditionStatus,
    progressing: ConditionStatus,
    degraded: ConditionStatus)
  {
    function Of(ctype: string): ConditionStatus
      requires Ours(ctype)
    {
      if ctype == AVAILABLE then available else if ctype == PROGRESSING then progressing else degraded
    }

    function AsCondition(ctype: string, generation: nat): Condition
      requires Ours(ctype)
    {
      Condition(ctype, Of(ctype), reason, message, generation, 0)
    }
  }

  function Applied(cs: seq<Condition>, generation: nat, v: Verdict, now: int): seq<Condition> {
    var c1 := SetCondition(cs, v.AsCondition(AVAILABLE, generation), now);
    var c2 := SetCondition(c1, v.AsCondition(PROGRESSING, generation), now);
    SetCondition(c2, v.AsCondition(DEGRADED, generation), now)
  }

  /** Types key the list, as its schema demands. */
  predicate Unique(cs: seq<Condition>) {
    forall i, j :: 0 <= i < j < |cs| ==> cs[i].ctype != cs[j].ctype
  }

  /** The entries of other writers, in order. */
  function Foreign(cs: seq<Condition>): seq<Condition> {
    if cs == [] then []
    else Foreign(cs[..|cs| - 1]) + if Ours(cs[|cs| - 1].ctype) then [] else [cs[|cs| - 1]]
  }

  lemma TypesDiffer()
    ensures AVAILABLE != PROGRESSING && AVAILABLE != DEGRADED && PROGRESSING != DEGRADED
  {
    assert AVAILABLE[0] == 'A' && PROGRESSING[0] == 'P' && DEGRADED[0] == 'D';
  }

  lemma SetLookup(cs: seq<Condition>, c: Condition, now: int, ctype: string)
    ensures Lookup(SetCondition(cs, c, now), ctype)
         == if ctype == c.ctype then Some(Merged(Lookup(cs, ctype), c, now)) else Lookup(cs, ctype)
  {
    var out := SetCondition(cs, c, now);
    var i, k, i' := Find(cs, c.ctype), Find(cs, ctype), Find(out, ctype);
    assert forall j :: 0 <= j < |cs| ==> out[j].ctype == cs[j].ctype;
    assert ctype == c.ctype && i < 0 ==> out[|cs|].ctype == ctype;
  }

  lemma SetKeepsUnique(cs: seq<Condition>, c: Condition, now: int)
    requires Unique(cs)
    ensures Unique(SetCondition(cs, c, now))
  {
  }

  lemma {:induction false} ForeignUpdate(cs: seq<Condition>, i: nat, c: Condition)
    requires i < |cs| && Ours(cs[i].ctype) && Ours(c.ctype)
    ensures Foreign(cs[i := c]) == Foreign(cs)
  {
    var n := |cs| - 1;
    if i == n {
      assert cs[i := c][..n] == cs[..n];
    } else {
      assert cs[i := c][..n] == cs[..n][i := c];
      ForeignUpdate(cs[..n], i, c);
    }
  }

  lemma SetKeepsForeign(cs: seq<Condition>, c: Condition, now: int)
    requires Ours(c.ctype)
    ensures Foreign(SetCondition(cs, c, now)) == Foreign(cs)
  {
    var i := Find(cs, c.ctype);
    if i < 0 {
      assert (cs + [Merged(None, c, now)])[..|cs|] == cs;
    } else {
      ForeignUpdate(cs, i, Merged(Some(cs[i]), c, now));
    }
  }

  /** After one update the three types carry the verdict, merged into what was there; other types are as before. */
  lemma AppliedLookup(cs: seq<Condition>, generation: nat, v: Verdict, now: int, t: string)
    ensures Lookup(Applied(cs, generation, v, now), t)
         == if Ours(t) then Some(Merged(Lookup(cs, t), v.AsCondition(t, generation), now)) else Lookup(cs, t)
  {
    TypesDiffer();
    var a, p, d := v.AsCondition(AVAILABLE, generation), v.AsCondition(PROGRESSING, generation), v.AsCondition(DEGRADED, generation);
    var c1 := SetCondition(cs, a, now);
    var c2 := SetCondition(c1, p, now);
    SetLookup(cs, a, now, t);
    SetLookup(c1, p, now, t);
    SetLookup(c2, d, now, t);
  }

  /** One update keeps the list keyed and the entries of other writers in place. */
  lemma AppliedKeeps(cs: seq<Condition>, generation: nat, v: Verdict, now: int)
    ensures var out := Applied(cs, generation, v, now); (Unique(cs) ==> Unique(out)) && Foreign(out) == Foreign(cs)
  {
    var a, p, d := v.AsCondition(AVAILABLE, generation), v.AsCondition(PROGRESSING, generation), v.AsCondition(DEGRADED, generation);
    var c1 := SetCondition(cs, a, now);
    var c2 := SetCondition(c1, p, now);
    if Unique(cs) {
      SetKeepsUnique(cs, a, now);
      SetKeepsUnique(c1, p, now);
      SetKeepsUnique(c2, d, now);
    }
    SetKeepsForeign(cs, a, now);
    SetKeepsForeign(c1, p, now);
    SetKeepsForeign(c2, d, now);
  }

  /** Setting a condition that already reads as wanted leaves the list alone. */
  lemma SetSame(cs: seq<Condition>, c: Condition, now: int)
    requires var prior := Lookup(cs, c.ctype);
             prior.Some? && prior.value == c.(lastTransition := prior.value.lastTransition)
    ensures SetCondition(cs, c, now) == cs
  {
  }

  /** Repeating an update is without effect, whatever the clock says. */
  lemma AppliedTwice(cs: seq<Condition>, generation: nat, v: Verdict, now: int, later: int)
    ensures var out := Applied(cs, generation, v, now); Applied(out, generation, v, later) == out
  {
    TypesDiffer();
    var out := Applied(cs, generation, v, now);
    AppliedLookup(cs, generation, v, now, AVAILABLE);
    AppliedLookup(cs, generation, v, now, PROGRESSING);
    AppliedLookup(cs, generation, v, now, DEGRADED);
    SetSame(out, v.AsCondition(AVAILABLE, generation), later);
    SetSame(out, v.AsCondition(PROGRESSING, generation), later);
    SetSame(out, v.AsCondition(DEGRADED, generation), later);
  }

  // ---- Histories ----

  datatype Update = Update(generation: nat, verdict: Verdict, now: int)

  function AppliedAll(cs: seq<Condition>, updates: seq<Update>): seq<Condition> {
    if updates == [] then cs
    else
      var u := updates[|updates| - 1];
      Applied(AppliedAll(cs, updates[..|updates| - 1]), u.generation, u.verdict, u.now)
  }

  /** One update as one type sees it. */
  datatype Stamp = Stamp(c: Condition, now: int)

  function Stamps(updates: seq<Update>, ctype: string): seq<Stamp>
    requires Ours(ctype)
  {
    seq(|updates|, i requires 0 <= i < |updates| =>
      Stamp(updates[i].verdict.AsCondition(ctype, updates[i].generation), updates[i].now))
  }

  /** Stamp k moved the status: the one before it, or the first entry, reads otherwise. */
  predicate Moved(first: Option<Condition>, stamps: seq<Stamp>, k: nat)
    requires k < |stamps|
  {
    if k > 0 then stamps[k - 1].c.status != stamps[k].c.status
    else first.None? || first.value.status != stamps[0].c.status
  }

  /** k is the latest stamp that moved the status. */
  predicate LatestMove(first: Option<Condition>, stamps: seq<Stamp>, k: nat)
    requires k < |stamps|
  {
    Moved(first, stamps, k) && forall j :: k < j < |stamps| ==> !Moved(first, stamps, j)
  }

  /** Over any sequence of updates the list stays keyed and other entries are untouched. */
  lemma {:induction false} HistoryKeeps(cs: seq<Condition>, updates: seq<Update>)
    ensures var out := AppliedAll(cs, updates); (Unique(cs) ==> Unique(out)) && Foreign(out) == Foreign(cs)
  {
    if updates == [] {
    } else {
      var u := updates[|updates| - 1];
      HistoryKeeps(cs, updates[..|updates| - 1]);
      AppliedKeeps(AppliedAll(cs, updates[..|updates| - 1]), u.generation, u.verdict, u.now);
    }
  }

  /** What a type reads after a history, computed from its stamps alone. */
  function Reads(first: Option<Condition>, stamps: seq<Stamp>): Option<Condition> {
    if stamps == [] then first
    else
      var last := stamps[|stamps| - 1];
      Some(Merged(Reads(first, stamps[..|stamps| - 1]), last.c, last.now))
  }

  lemma StampsOfPrefix(updates: seq<Update>, ctype: string)
    requires updates != [] && Ours(ctype)
    ensures Stamps(updates, ctype)[..|updates| - 1] == Stamps(updates[..|updates| - 1], ctype)
  {
  }

  lemma {:induction false} HistoryReads(cs: seq<Condition>, updates: seq<Update>, ctype: string)
    requires Ours(ctype)
    ensures Lookup(AppliedAll(cs, updates), ctype) == Reads(Lookup(cs, ctype), Stamps(updates, ctype))
  {
    if updates == [] {
    } else {
      var n := |updates| - 1;
      var u := updates[n];
      HistoryReads(cs, updates[..n], ctype);
      AppliedLookup(AppliedAll(cs, updates[..n]), u.generation, u.verdict, u.now, ctype);
      StampsOfPrefix(updates, ctype);
    }
  }

  /** Reads gives the last stamp with the time of the latest move, or the first time if nothing moved. */
  lemma {:induction false} ReadsTime(first: Option<Condition>, stamps: seq<Stamp>)
    requires stamps != []
    ensures var last := stamps[|stamps| - 1].c;
            var c := Reads(first, stamps);
            && c.Some? && c.value == last.(lastTransition := c.value.lastTransition)
            && (forall k :: 0 <= k < |stamps| && LatestMove(first, stamps, k) ==> c.value.lastTransition == stamps[k].now)
            && ((forall k :: 0 <= k < |stamps| ==> !Moved(first, stamps, k)) ==>
                  first.Some? && c.value.lastTransition == first.value.lastTransition)
  {
    var n := |stamps| - 1;
    var before := stamps[..n];
    if n == 0 {
      assert before == [];
      assert Moved(first, stamps, 0) || first.Some?;
    } else {
      ReadsTime(first, before);
      MovesOfPrefix(first, stamps);
      if !Moved(first, stamps, n) {
        forall k | 0 <= k < |stamps| && LatestMove(first, stamps, k)
          ensures Reads(first, before).value.lastTransition == stamps[k].now
        {
          assert LatestMove(first, before, k);
        }
      }
    }
  }

  lemma MovesOfPrefix(first: Option<Condition>, stamps: seq<Stamp>)
    requires |stamps| > 1
    ensures var n := |stamps| - 1;
            var before := stamps[..n];
            && (forall k :: 0 <= k < n ==> (Moved(first, before, k) <==> Moved(first, stamps, k)))
            && (forall k :: 0 <= k < n && LatestMove(first, stamps, k) ==>
                  LatestMove(first, before, k) && !Moved(first, stamps, n))
  {
  }

  /**
   * Over any sequence of updates each of the three types occurs once, reads as the last update said, and its
   * transition time is the time of the latest update that moved its status (the first time, if none did).
   */
  lemma ConditionHistory(cs: seq<Condition>, updates: seq<Update>, ctype: string)
    requires updates != [] && Unique(cs) && Ours(ctype)
    ensures var out := AppliedAll(cs, updates);
            var last := updates[|updates| - 1];
            var first, stamps := Lookup(cs, ctype), Stamps(updates, ctype);
            && Unique(out) && Foreign(out) == Foreign(cs)
            && Lookup(out, ctype).Some?
            && Lookup(out, ctype).value.(lastTransition := 0) == last.verdict.AsCondition(ctype, last.generation)
            && (forall k :: 0 <= k < |stamps| && LatestMove(first, stamps, k) ==>
                  Lookup(out, ctype).value.lastTransition == updates[k].now)
            && ((forall k :: 0 <= k < |stamps| ==> !Moved(first, stamps, k)) ==>
                  first.Some? && Lookup(out, ctype).value.lastTransition == first.value.lastTransition)
  {
    HistoryKeeps(cs, updates);
    HistoryReads(cs, updates, ctype);
    ReadsTime(Lookup(cs, ctype), Stamps(updates, ctype));
  }

  // ---- The verdict on a Deployment ----

  predicate RolledOut(d: DeploymentView) {
    && d.status.observedGeneration >= d.generation
    && d.status.updatedReplicas >= d.replicas.GetOr(1)
    && d.status.replicas == d.status.updatedReplicas
    && d.status.availableReplicas == d.status.updatedReplicas
  }

  predicate DeadlineExceeded(c: DeploymentCondition) {
    c.ctype == "Progressing" && c.status == IsFalse && c.reason == "ProgressDeadlineExceeded"
  }

  /** The message of the first exceeded deadline, if any. */
  function Stalled(cs: seq<DeploymentCondition>): Option<string> {
    if cs == [] then None else if DeadlineExceeded(cs[0]) then Some(cs[0].message) else Stalled(cs[1..])
  }

  function AsStatus(b: bool): ConditionStatus {
    if b then IsTrue else IsFalse
  }

  /** The branches of setSiteConditions; a missing view stands for any error of the Deployment's Get. */
  function VerdictOn(deploy: Option<DeploymentView>, reconcileErr: Option<string>): Verdict {
    if reconcileErr.Some? then
      Verdict("ReconcileError", reconcileErr.value, IsFalse, IsFalse, IsTrue)
    else if deploy.None? then
      Verdict("DeploymentNotFound", "site deployment does not exist yet", IsFalse, IsTrue, IsFalse)
    else if RolledOut(deploy.value) then
      Verdict("DeploymentReady", "deployment has the desired number of ready replicas", IsTrue, IsFalse, IsFalse)
    else
      var available := AsStatus(deploy.value.status.availableReplicas > 0);
      var stalled := Stalled(deploy.value.status.conditions);
      if stalled.Some? then
        Verdict("RolloutStalled", stalled.value, available, IsFalse, IsTrue)
      else
        Verdict("DeploymentRollingOut", "waiting for deployment to become ready", available, IsTrue, IsFalse)
  }

  datatype Pod = Pod(newRevision: bool, available: bool)

  function NewPods(pods: seq<Pod>): nat {
    if pods == [] then 0 else (if pods[0].newRevision then 1 else 0) + NewPods(pods[1..])
  }

  function AvailablePods(pods: seq<Pod>): nat {
    if pods == [] then 0 else (if pods[0].available then 1 else 0) + AvailablePods(pods[1..])
  }

  /** The Deployment's counts are those of its pods. */
  predicate CountsFrom(status: DeploymentStatus, pods: seq<Pod>) {
    && status.replicas == |pods|
    && status.updatedReplicas == NewPods(pods)
    && status.availableReplicas == AvailablePods(pods)
  }

  lemma {:induction false} PodCounts(pods: seq<Pod>)
    ensures NewPods(pods) <= |pods| && (NewPods(pods) == |pods| <==> forall p :: p in pods ==> p.newRevision)
    ensures AvailablePods(pods) <= |pods| && (AvailablePods(pods) == |pods| <==> forall p :: p in pods ==> p.available)
    ensures AvailablePods(pods) > 0 <==> exists p :: p in pods && p.available
  {
    if pods == [] {
    } else {
      PodCounts(pods[1..]);
      assert pods[0] in pods;
      assert forall p :: p in pods <==> p == pods[0] || p in pods[1..];
    }
  }

  /** For any set of pods, rolled out means: spec observed, enough pods, and every pod new and available. */
  lemma RolledOutMeansEveryPod(d: DeploymentView, pods: seq<Pod>)
    requires CountsFrom(d.status, pods)
    ensures RolledOut(d) <==>
              && d.status.observedGeneration >= d.generation
              && |pods| >= d.replicas.GetOr(1)
              && forall p :: p in pods ==> p.newRevision && p.available
  {
    PodCounts(pods);
  }

  /** No pod is wanted, none is there, and the controller has seen the spec. */
  predicate ScaledToNothing(d: DeploymentView, pods: seq<Pod>) {
    d.replicas.GetOr(1) <= 0 && pods == [] && d.status.observedGeneration >= d.generation
  }

  /**
   * Without an error, Available says whether some pod serves, except in one case: a Deployment scaled to nothing
   * reads as available. With at least one pod wanted, as the operator writes it, that case cannot arise.
   */
  lemma AvailableMeansSomePodIff(d: DeploymentView, pods: seq<Pod>)
    requires CountsFrom(d.status, pods)
    ensures (VerdictOn(Some(d), None).available == IsTrue <==> exists p :: p in pods && p.available)
       <==> !ScaledToNothing(d, pods)
  {
    PodCounts(pods);
  }

  lemma AvailableWithoutPods()
    ensures var d := DeploymentView(1, Some(0), DeploymentStatus(1, 0, 0, 0, []));
            CountsFrom(d.status, []) && ScaledToNothing(d, []) && VerdictOn(Some(d), None).available == IsTrue
  {
  }

  /** Progressing and Degraded exclude each other, and both are off exactly when all is rolled out. */
  lemma VerdictExclusive(deploy: Option<DeploymentView>, err: Option<string>)
    ensures var v := VerdictOn(deploy, err);
            && !(v.progressing == IsTrue && v.degraded == IsTrue)
            && (v.progressing == IsFalse && v.degraded == IsFalse
                <==> err.None? && deploy.Some? && RolledOut(deploy.value))
            && (v.degraded == IsTrue
                <==> err.Some? || (deploy.Some? && !RolledOut(deploy.value)
                                   && exists c :: c in deploy.value.status.conditions && DeadlineExceeded(c)))
  {
    if deploy.Some? {
      StalledMeans(deploy.value.status.conditions);
    }
  }

  /** Some pod serves, or none is wanted. */
  ghost predicate PodsServe(deploy: Option<DeploymentView>, pods: seq<Pod>) {
    deploy.Some? && ((exists p :: p in pods && p.available) || ScaledToNothing(deploy.value, pods))
  }

  predicate AllRolledOut(deploy: Option<DeploymentView>) {
    deploy.Some? && RolledOut(deploy.value)
  }

  /** A rollout that is not through and has exceeded its deadline. */
  ghost predicate Stuck(deploy: Option<DeploymentView>) {
    deploy.Some? && !RolledOut(deploy.value) && exists c :: c in deploy.value.status.conditions && DeadlineExceeded(c)
  }

  /**
   * The whole verdict, for any Deployment with any pods and any outcome: an error is Degraded and nothing else;
   * without one, Available says whether pods serve, Degraded whether the rollout is stuck, and Progressing whether
   * it is neither stuck nor through.
   */
  lemma VerdictExact(deploy: Option<DeploymentView>, err: Option<string>, pods: seq<Pod>)
    requires deploy.Some? ==> CountsFrom(deploy.value.status, pods)
    ensures var v := VerdictOn(deploy, err);
            && (v.available == IsTrue <==> err.None? && PodsServe(deploy, pods)) && (v.available != IsTrue ==> v.available == IsFalse)
            && (v.progressing == IsTrue <==> err.None? && !AllRolledOut(deploy) && !Stuck(deploy))
            && (v.progressing != IsTrue ==> v.progressing == IsFalse)
            && (v.degraded == IsTrue <==> err.Some? || Stuck(deploy)) && (v.degraded != IsTrue ==> v.degraded == IsFalse)
            && (err.Some? ==> v.message == err.value)
            && (err.None? && Stuck(deploy) ==>
                  exists c :: c in deploy.value.status.conditions && DeadlineExceeded(c) && v.message == c.message)
  {
    if deploy.Some? {
      AvailableMeansSomePodIff(deploy.value, pods);
      StalledMeans(deploy.value.status.conditions);
    }
  }

  lemma {:induction false} StalledMeans(cs: seq<DeploymentCondition>)
    ensures Stalled(cs).Some? <==> exists c :: c in cs && DeadlineExceeded(c)
    ensures Stalled(cs).Some? ==> exists c :: c in cs && DeadlineExceeded(c) && Stalled(cs).value == c.message
  {
    if cs == [] {
    } else {
      StalledMeans(cs[1..]);
      assert cs[0] in cs;
      assert forall c :: c in cs <==> c == cs[0] || c in cs[1..];
    }
  }

  // ---- As the source runs it ----

  method DeploymentStalled(cs: seq<DeploymentCondition>) returns (stalled: bool, message: string)
    ensures stalled <==> Stalled(cs).Some?
    ensures stalled ==> message == Stalled(cs).value
  {
    for i := 0 to |cs|
      invariant Stalled(cs) == Stalled(cs[i..])
    {
      if cs[i].ctype == "Progressing" && cs[i].status == IsFalse && cs[i].reason == "ProgressDeadlineExceeded" {
        return true, cs[i].message;
      }
    }
    return false, "";
  }

  /** The condition list of a Site under update in place. */
  class ConditionList {
    var items: seq<Condition>

    constructor (items: seq<Condition>)
      ensures this.items == items
    {
      this.items := items;
    }

    method FindStatusCondition(ctype: string) returns (i: int)
      ensures i == Find(items, ctype)
    {
      for k := 0 to |items|
        invariant forall j :: 0 <= j < k ==> items[j].ctype != ctype
      {
        if items[k].ctype == ctype {
          return k;
        }
      }
      return -1;
    }

    method SetStatusCondition(c: Condition, now: int)
      modifies this
      ensures items == SetCondition(old(items), c, now)
    {
      var i := FindStatusCondition(c.ctype);
      if i < 0 {
        items := items + [c.(lastTransition := now)];
        return;
      }
      if items[i].status != c.status {
        items := items[i := items[i].(status := c.status, lastTransition := now)];
      }
      items := items[i := items[i].(reason := c.reason)];
      items := items[i := items[i].(message := c.message)];
      items := items[i := items[i].(observedGeneration := c.observedGeneration)];
    }

    method Apply(generation: nat, v: Verdict, now: int)
      modifies this
      ensures items == Applied(old(items), generation, v, now)
    {
      var types := [AVAILABLE, PROGRESSING, DEGRADED];
      for i := 0 to 3
        invariant i == 0 ==> items == old(items)
        invariant i == 1 ==> items == SetCondition(old(items), v.AsCondition(AVAILABLE, generation), now)
        invariant i == 2 ==> items == SetCondition(SetCondition(old(items), v.AsCondition(AVAILABLE, generation), now),
                                                   v.AsCondition(PROGRESSING, generation), now)
        invariant i == 3 ==> items == Applied(old(items), generation, v, now)
      {
        SetStatusCondition(v.AsCondition(types[i], generation), now);
      }
    }

    method SetSiteConditions(generation: nat, deploy: Option<DeploymentView>, reconcileErr: Option<string>, now: int)
      modifies this
      ensures items == Applied(old(items), generation, VerdictOn(deploy, reconcileErr), now)
    {
      if reconcileErr.Some? {
        Apply(generation, Verdict("ReconcileError", reconcileErr.value, IsFalse, IsFalse, IsTrue), now);
      } else if deploy.None? {
        Apply(generation, Verdict("DeploymentNotFound", "site deployment does not exist yet", IsFalse, IsTrue, IsFalse), now);
      } else if RolledOut(deploy.value) {
        Apply(generation, Verdict("DeploymentReady", "deployment has the desired number of ready replicas",
                                  IsTrue, IsFalse, IsFalse), now);
      } else {
        var available := AsStatus(deploy.value.status.availableReplicas > 0);
        var stalled, message := DeploymentStalled(deploy.value.status.conditions);
        if stalled {
          Apply(generation, Verdict("RolloutStalled", message, available, IsFalse, IsTrue), now);
        } else {
          Apply(generation, Verdict("DeploymentRollingOut", "waiting for deployment to become ready",
                                    available, IsTrue, IsFalse), now);
        }
      }
    }
  }
}
