/**
 Plans with tracked step statuses: acceptance, activation of the ready step, and the
 invalidation of steps whose bound files have changed.
 */
module Plans {
  import opened Wrappers
  import opened PlanGraph

  datatype Status = Pending | InProgress | Completed | Skipped

  datatype Step = Step(
    id: string, title: string, status: Status, evidence: string,
    dependsOn: seq<string>, inputRefs: seq<string>, outputRefs: seq<string>, skill: Option<int>)

  // A step's bound files: path to digest.
  type Binding = map<string, string>

  predicate Settled(s: Status) {
    s == Completed || s == Skipped
  }

  predicate UniqueIds(steps: seq<Step>) {
    forall i, j :: 0 <= i < j < |steps| ==> steps[i].id != steps[j].id
  }

  predicate HasId(steps: seq<Step>, id: string) {
    exists i :: 0 <= i < |steps| && steps[i].id == id
  }

  function Dependencies(steps: seq<Step>): (g: Graph)
    ensures g.Keys == set i | 0 <= i < |steps| :: steps[i].id
  {
    map id | id in (set i | 0 <= i < |steps| :: steps[i].id) :: StepOf(steps, id).dependsOn
  }

  // The last step with an id, as a dictionary built in order would hold it.
  function StepOf(steps: seq<Step>, id: string): (s: Step)
    requires HasId(steps, id)
    ensures s in steps && s.id == id
  {
    if steps[|steps| - 1].id == id then steps[|steps| - 1] else StepOf(steps[..|steps| - 1], id)
  }

  lemma {:induction false} StepOfUnique(steps: seq<Step>, i: nat)
    requires UniqueIds(steps) && i < |steps|
    ensures HasId(steps, steps[i].id) && StepOf(steps, steps[i].id) == steps[i]
    decreases |steps|
  {
  }

  lemma EdgeOfStep(steps: seq<Step>, i: nat, d: string)
    requires UniqueIds(steps) && i < |steps|
    ensures Edge(Dependencies(steps), steps[i].id, d) <==> d in steps[i].dependsOn
  {
    StepOfUnique(steps, i);
  }

  predicate StatusIs(steps: seq<Step>, id: string, settled: bool) {
    forall i :: 0 <= i < |steps| && steps[i].id == id ==> Settled(steps[i].status) == settled
  }

  // Ids and dependencies are those of `old`, whatever happened to the statuses.
  predicate SameShape(steps: seq<Step>, was: seq<Step>) {
    && |steps| == |was|
    && forall i :: 0 <= i < |steps| ==> steps[i].id == was[i].id && steps[i].dependsOn == was[i].dependsOn
  }

  lemma ShapeKeepsGraph(steps: seq<Step>, was: seq<Step>)
    requires SameShape(steps, was) && UniqueIds(was)
    ensures UniqueIds(steps) && Dependencies(steps) == Dependencies(was)
  {
  }

  /** What every accepted plan satisfies and every later status change keeps. */
  ghost predicate PlanInv(steps: seq<Step>) {
    && UniqueIds(steps)
    && Sound(Dependencies(steps))
    && forall i, j :: 0 <= i < j < |steps| ==>
         !(steps[i].status == InProgress && steps[j].status == InProgress)
  }

  /** Steps that name only earlier ones form a sound graph. */
  lemma ListedInOrderIsSound(steps: seq<Step>)
    requires UniqueIds(steps)
    requires forall i, d :: 0 <= i < |steps| && d in steps[i].dependsOn ==> HasId(steps[..i], d)
    ensures Sound(Dependencies(steps))
  {
    var g, order := Dependencies(steps), seq(|steps|, i requires 0 <= i < |steps| => steps[i].id);
    forall i, d | 0 <= i < |order| && d in g[order[i]] ensures d in order[..i] {
      StepOfUnique(steps, i);
      var j :| 0 <= j < |steps[..i]| && steps[..i][j].id == d;
      assert order[..i][j] == d;
    }
    forall a | a in g ensures a in order {
      var i: nat :| i < |steps| && steps[i].id == a;
      assert order[i] == a;
    }
    OrderedIsSound(g, order);
  }

  // A step may start once all its dependencies are completed or skipped.
  predicate DependenciesSettled(steps: seq<Step>, s: Step) {
    forall d :: d in s.dependsOn ==> HasId(steps, d) && StatusIs(steps, d, true)
  }

  /** Every completed or running step has its dependencies completed or skipped. */
  ghost predicate WellProgressed(steps: seq<Step>) {
    forall i :: 0 <= i < |steps| && (steps[i].status == InProgress || steps[i].status == Completed) ==>
      DependenciesSettled(steps, steps[i])
  }

  // ---------- activation of the ready step ----------

  datatype Activation =
    | AlreadyActive(step: Step)
    | Activated(step: Step)
    | NoneOpen
    | StepBlocked
    | Ambiguous(ready: nat)

  predicate Ready(steps: seq<Step>, i: int)
    requires 0 <= i < |steps|
  {
    steps[i].status == Pending && DependenciesSettled(steps, steps[i])
  }

  function ReadyIndexes(steps: seq<Step>, n: nat): (r: seq<nat>)
    requires n <= |steps|
    ensures forall i :: i in r <==> 0 <= i < n && Ready(steps, i)
    ensures forall a, b :: 0 <= a < b < |r| ==> r[a] < r[b]
  {
    if n == 0 then []
    else
      var rest := ReadyIndexes(steps, n - 1);
      assert forall a :: 0 <= a < |rest| ==> rest[a] in rest;
      if Ready(steps, n - 1) then rest + [n - 1] else rest
  }

  // Pending steps whose dependencies are not all settled lead to further such steps.
  ghost predicate Stuck(steps: seq<Step>) {
    && (forall i :: 0 <= i < |steps| ==> steps[i].status != InProgress)
    && (forall i :: 0 <= i < |steps| ==> !Ready(steps, i))
  }

  lemma {:induction false} StuckPath(steps: seq<Step>, i: nat, length: nat) returns (p: seq<string>)
    requires PlanInv(steps) && Stuck(steps) && i < |steps| && steps[i].status == Pending && length > 0
    ensures Path(Dependencies(steps), p) && |p| == length && p[0] == steps[i].id
    ensures forall k :: 0 <= k < |p| ==> p[k] in Dependencies(steps)
    decreases length
  {
    p := [steps[i].id];
    if length > 1 {
      assert !Ready(steps, i);
      var d :| d in steps[i].dependsOn && !(HasId(steps, d) && StatusIs(steps, d, true));
      EdgeOfStep(steps, i, d);
      assert d in Dependencies(steps);
      var j: nat :| j < |steps| && steps[j].id == d;
      assert forall k :: 0 <= k < |steps| && steps[k].id == d ==> k == j;
      assert !Settled(steps[j].status);
      var rest := StuckPath(steps, j, length - 1);
      p := p + rest;
      forall k | 0 <= k < |p| - 1 ensures Edge(Dependencies(steps), p[k], p[k + 1]) {
        if k > 0 {
          assert Edge(Dependencies(steps), rest[k - 1], rest[k]);
        }
      }
    }
  }

  /** Some pending step is always ready when no step is running and the graph is sound. */
  lemma SomeStepIsReady(steps: seq<Step>, pending: nat)
    requires PlanInv(steps) && pending < |steps| && steps[pending].status == Pending
    requires forall i :: 0 <= i < |steps| ==> steps[i].status != InProgress
    ensures exists i :: 0 <= i < |steps| && Ready(steps, i)
  {
    if Stuck(steps) {
      var p := StuckPath(steps, pending, |Dependencies(steps)| + 1);
      PathsAreShort(Dependencies(steps), p);
    }
  }

  /** The effect on the steps, and the answer, of asking for an active step. */
  ghost predicate ActivationOf(was: seq<Step>, steps: seq<Step>, r: Activation) {
    match r
    case AlreadyActive(s) => steps == was && s in was && s.status == InProgress
    case Activated(s) =>
      exists i :: 0 <= i < |was| && Ready(was, i) && steps == was[i := was[i].(status := InProgress)]
                  && s == steps[i]
                  && (forall j :: 0 <= j < |was| ==> was[j].status != InProgress && (j != i ==> !Ready(was, j)))
    case NoneOpen => steps == was && forall j :: 0 <= j < |was| ==> Settled(was[j].status)
    case StepBlocked => steps == was && Stuck(was) && exists j :: 0 <= j < |was| && was[j].status == Pending
    case Ambiguous(n) =>
      steps == was && n > 1 && n == |ReadyIndexes(was, |was|)|
      && forall j :: 0 <= j < |was| ==> was[j].status != InProgress
  }

  // The steps after an activation: the only ready one is started, when none is running.
  function Activate(steps: seq<Step>): (r: seq<Step>)
    ensures SameShape(r, steps)
  {
    var ready := ReadyIndexes(steps, |steps|);
    if |ready| == 1 && (forall i :: 0 <= i < |steps| ==> steps[i].status != InProgress) then
      assert ready[0] in ready;
      steps[ready[0] := steps[ready[0]].(status := InProgress)]
    else steps
  }

  method EnsureActive(was: seq<Step>) returns (steps: seq<Step>, r: Activation)
    requires UniqueIds(was)
    ensures ActivationOf(was, steps, r) && steps == Activate(was)
  {
    steps := was;
    for i := 0 to |was|
      invariant forall j :: 0 <= j < i ==> was[j].status != InProgress
    {
      if was[i].status == InProgress {
        return was, AlreadyActive(was[i]);
      }
    }
    var ready: seq<nat> := [];
    var open := false;
    for i := 0 to |was|
      invariant ready == ReadyIndexes(was, i)
      invariant open <==> exists j :: 0 <= j < i && was[j].status == Pending
    {
      if was[i].status == Pending {
        open := true;
        var settled := AllSettled(was, was[i]);
        if settled {
          ready := ready + [i];
        }
      }
    }
    if |ready| == 1 {
      var i := ready[0];
      assert i in ReadyIndexes(was, |was|);
      steps := was[i := was[i].(status := InProgress)];
      r := Activated(steps[i]);
      assert forall j :: 0 <= j < |was| && j != i ==> j !in ready;
    } else if !open {
      r := NoneOpen;
      forall j | 0 <= j < |was| ensures Settled(was[j].status) {
        assert was[j].status != Pending && was[j].status != InProgress;
      }
    } else if |ready| == 0 {
      r := StepBlocked;
      assert forall j :: 0 <= j < |was| ==> j !in ready;
    } else {
      r := Ambiguous(|ready|);
    }
  }

  method AllSettled(steps: seq<Step>, step: Step) returns (settled: bool)
    requires UniqueIds(steps)
    ensures settled <==> DependenciesSettled(steps, step)
  {
    settled := true;
    for k := 0 to |step.dependsOn|
      invariant settled <==> forall d :: d in step.dependsOn[..k] ==> HasId(steps, d) && StatusIs(steps, d, true)
    {
      var known := StatusSettled(steps, step.dependsOn[k]);
      settled := settled && known;
      assert step.dependsOn[..k + 1] == step.dependsOn[..k] + [step.dependsOn[k]];
    }
    assert step.dependsOn[..|step.dependsOn|] == step.dependsOn;
  }

  method StatusSettled(steps: seq<Step>, id: string) returns (settled: bool)
    requires UniqueIds(steps)
    ensures settled <==> HasId(steps, id) && StatusIs(steps, id, true)
  {
    for i := 0 to |steps|
      invariant forall j :: 0 <= j < i ==> steps[j].id != id
    {
      if steps[i].id == id {
        return Settled(steps[i].status);
      }
    }
    settled := false;
  }

  // Pending, with every dependency completed or skipped.
  predicate MayStart(steps: seq<Step>, i: int)
    requires 0 <= i < |steps|
  {
    && steps[i].status == Pending
    && forall d :: d in steps[i].dependsOn ==>
         exists j :: 0 <= j < |steps| && steps[j].id == d
                     && (steps[j].status == Completed || steps[j].status == Skipped)
  }

  lemma ReadyMayStart(steps: seq<Step>, i: nat)
    requires UniqueIds(steps) && i < |steps|
    ensures Ready(steps, i) <==> MayStart(steps, i)
  {
  }

  /**
   The answer by cases: a running step is kept; otherwise the only step that may start is started,
   several leave the choice to the model, and none means that all are done or the plan is blocked.
   */
  lemma ActivationIsExact(was: seq<Step>, steps: seq<Step>, r: Activation)
    requires UniqueIds(was) && ActivationOf(was, steps, r)
    ensures r.AlreadyActive? <==> exists i :: 0 <= i < |was| && was[i].status == InProgress
    ensures r.Activated? ==>
              exists i :: 0 <= i < |was| && MayStart(was, i) && r.step == was[i].(status := InProgress)
                          && steps == was[i := was[i].(status := InProgress)]
                          && forall j :: 0 <= j < |was| && MayStart(was, j) ==> j == i
    ensures !r.Activated? ==> steps == was
    ensures r.Ambiguous? ==> exists i, j :: 0 <= i < j < |was| && MayStart(was, i) && MayStart(was, j)
    ensures r.NoneOpen? ==> forall i :: 0 <= i < |was| ==> was[i].status == Completed || was[i].status == Skipped
    ensures r.StepBlocked? ==>
              && (exists i :: 0 <= i < |was| && was[i].status == Pending)
              && forall i :: 0 <= i < |was| ==> !MayStart(was, i)
  {
    forall i | 0 <= i < |was| ensures Ready(was, i) <==> MayStart(was, i) {
      ReadyMayStart(was, i);
    }
    hide Ready, MayStart;
    if r.Ambiguous? {
      var ready := ReadyIndexes(was, |was|);
      assert ready[0] in ready && ready[1] in ready && ready[0] < ready[1];
    }
  }

  /** `PLAN_STEP_BLOCKED` cannot be the answer on an accepted plan. */
  lemma NeverBlocked(was: seq<Step>, steps: seq<Step>, r: Activation)
    requires PlanInv(was) && ActivationOf(was, steps, r)
    ensures !r.StepBlocked?
  {
    if r.StepBlocked? {
      var j: nat :| j < |was| && was[j].status == Pending;
      SomeStepIsReady(was, j);
    }
  }

  /** Activation keeps the plan's invariant and starts a step only after its dependencies. */
  lemma ActivationKeepsPlan(was: seq<Step>, steps: seq<Step>, r: Activation)
    requires PlanInv(was) && ActivationOf(was, steps, r)
    ensures PlanInv(steps) && SameShape(steps, was)
    ensures WellProgressed(was) ==> WellProgressed(steps)
  {
    ShapeKeepsGraph(steps, was);
    if r.Activated? && WellProgressed(was) {
      var i :| 0 <= i < |was| && Ready(was, i) && steps == was[i := was[i].(status := InProgress)];
      forall k | 0 <= k < |steps| && (steps[k].status == InProgress || steps[k].status == Completed)
        ensures DependenciesSettled(steps, steps[k])
      {
        assert DependenciesSettled(was, was[k]);
        forall d | d in steps[k].dependsOn ensures HasId(steps, d) && StatusIs(steps, d, true) {
          var j :| 0 <= j < |was| && was[j].id == d;
          assert steps[j].id == d;
          assert Settled(was[j].status);
        }
      }
    }
  }

  // ---------- the validation step, as verification comes and goes ----------

  const REOPENED := "Workspace changed; rerun final verification."
  const REPEAT := "Input or output changed; this step must be repeated."

  /** A workspace mutation reopens a completed validation step. */
  function Reopen(steps: seq<Step>, validation: string): (r: seq<Step>)
    ensures SameShape(r, steps)
  {
    seq(|steps|, i requires 0 <= i < |steps| =>
      if steps[i].id == validation && steps[i].status == Completed
      then steps[i].(status := Pending, evidence := REOPENED)
      else steps[i])
  }

  /** Recorded validation completes the validation step once every other step is settled. */
  function Synchronize(steps: seq<Step>, validation: string, evidence: string): (r: seq<Step>)
    ensures SameShape(r, steps)
  {
    if forall i :: 0 <= i < |steps| && steps[i].id != validation ==> Settled(steps[i].status) then
      seq(|steps|, i requires 0 <= i < |steps| =>
        if steps[i].id == validation then steps[i].(status := Completed, evidence := evidence) else steps[i])
    else steps
  }

  lemma StatusesKeepPlan(steps: seq<Step>, was: seq<Step>)
    requires PlanInv(was) && SameShape(steps, was)
    requires forall i :: 0 <= i < |steps| ==>
               (steps[i].status == InProgress ==> was[i].status == InProgress)
    ensures PlanInv(steps)
  {
    ShapeKeepsGraph(steps, was);
  }

  lemma SynchronizeKeepsPlan(steps: seq<Step>, validation: string, evidence: string)
    requires PlanInv(steps)
    ensures PlanInv(Synchronize(steps, validation, evidence))
    ensures WellProgressed(steps) ==> WellProgressed(Synchronize(steps, validation, evidence))
  {
    var r := Synchronize(steps, validation, evidence);
    StatusesKeepPlan(r, steps);
    if r != steps {
      forall i: nat | i < |r| ensures DependenciesSettled(r, r[i]) {
        SynchronizeSettles(steps, validation, evidence, i);
      }
    }
  }

  // With every other step settled and no step depending on itself, nothing is left open.
  lemma SynchronizeSettles(steps: seq<Step>, validation: string, evidence: string, i: nat)
    requires PlanInv(steps) && Synchronize(steps, validation, evidence) != steps && i < |steps|
    ensures DependenciesSettled(Synchronize(steps, validation, evidence), Synchronize(steps, validation, evidence)[i])
  {
    var r := Synchronize(steps, validation, evidence);
    forall d | d in r[i].dependsOn ensures HasId(r, d) && StatusIs(r, d, true) {
      EdgeOfStep(steps, i, d);
      var j: nat :| j < |steps| && steps[j].id == d;
      assert r[j].id == d;
    }
  }

  // A completed or running step depends on the completed validation step.
  ghost predicate RestsOn(steps: seq<Step>, validation: string) {
    exists i, k ::
      && 0 <= i < |steps| && 0 <= k < |steps|
      && steps[k].id == validation && steps[k].status == Completed
      && (steps[i].status == InProgress || steps[i].status == Completed)
      && validation in steps[i].dependsOn
  }

  lemma ReopenBreaksRest(steps: seq<Step>, validation: string)
    requires PlanInv(steps) && RestsOn(steps, validation)
    ensures !WellProgressed(Reopen(steps, validation))
  {
    var r := Reopen(steps, validation);
    var i: nat, k: nat :|
      && i < |steps| && k < |steps|
      && steps[k].id == validation && steps[k].status == Completed
      && (steps[i].status == InProgress || steps[i].status == Completed)
      && validation in steps[i].dependsOn;
    if i == k {
      EdgeOfStep(steps, i, validation);
      assert Cycle(Dependencies(steps), [validation, validation]);
    } else {
      assert r[k].id == validation && r[k].status == Pending && r[i] == steps[i];
      assert !StatusIs(r, validation, true);
      assert !DependenciesSettled(r, r[i]);
    }
  }

  lemma ReopenSparesRest(steps: seq<Step>, validation: string)
    requires PlanInv(steps) && WellProgressed(steps) && !RestsOn(steps, validation)
    ensures WellProgressed(Reopen(steps, validation))
  {
  }

  /**
   Reopening keeps the order of progress exactly when no completed or running step rests on
   a completed validation step.
   */
  lemma ReopenKeepsProgress(steps: seq<Step>, validation: string)
    requires PlanInv(steps) && WellProgressed(steps)
    ensures PlanInv(Reopen(steps, validation))
    ensures WellProgressed(Reopen(steps, validation)) <==> !RestsOn(steps, validation)
  {
    StatusesKeepPlan(Reopen(steps, validation), steps);
    if RestsOn(steps, validation) {
      ReopenBreaksRest(steps, validation);
    } else {
      ReopenSparesRest(steps, validation);
    }
  }

  // ---------- invalidation of changed steps ----------

  // A bound file is missing or no longer has its digest.
  predicate Changed(binding: Binding, files: Binding) {
    exists path :: path in binding && (path !in files || files[path] != binding[path])
  }

  function Seeds(bindings: map<string, Binding>, files: Binding): set<string> {
    set id | id in bindings && Changed(bindings[id], files)
  }

  /** A step is affected when it depends, through any number of steps, on a changed one. */
  ghost predicate Affected(g: Graph, seeds: set<string>, id: string) {
    exists p :: Path(g, p) && p[0] == id && p[|p| - 1] in seeds
  }

  lemma SeedIsAffected(g: Graph, seeds: set<string>, id: string)
    requires id in seeds
    ensures Affected(g, seeds, id)
  {
    assert Path(g, [id]);
  }

  lemma DependentIsAffected(g: Graph, seeds: set<string>, id: string, d: string)
    requires Edge(g, id, d) && Affected(g, seeds, d)
    ensures Affected(g, seeds, id)
  {
    var p :| Path(g, p) && p[0] == d && p[|p| - 1] in seeds;
    var q := [id] + p;
    forall k | 0 <= k < |q| - 1 ensures Edge(g, q[k], q[k + 1]) {
      if k > 0 {
        assert Edge(g, p[k - 1], p[k]);
      }
    }
    assert Path(g, q);
  }

  // Any set with the seeds that is closed under dependents holds every affected step.
  lemma {:induction false} ClosedHoldsPath(g: Graph, closed: set<string>, p: seq<string>)
    requires Path(g, p) && p[|p| - 1] in closed
    requires forall a, b :: Edge(g, a, b) && b in closed ==> a in closed
    ensures p[0] in closed
    decreases |p|
  {
    if |p| > 1 {
      forall k | 0 <= k < |p[1..]| - 1 ensures Edge(g, p[1..][k], p[1..][k + 1]) {
        assert Edge(g, p[k + 1], p[k + 2]);
      }
      ClosedHoldsPath(g, closed, p[1..]);
      assert Edge(g, p[0], p[1]);
    }
  }

  /** The affected steps are the least set holding the seeds and closed under dependents. */
  lemma AffectedIsLeast(g: Graph, seeds: set<string>, closed: set<string>, id: string)
    requires seeds <= closed && forall a, b :: Edge(g, a, b) && b in closed ==> a in closed
    requires Affected(g, seeds, id)
    ensures id in closed
  {
    var p :| Path(g, p) && p[0] == id && p[|p| - 1] in seeds;
    ClosedHoldsPath(g, closed, p);
  }

  method AffectedSteps(steps: seq<Step>, seeds: set<string>) returns (invalid: set<string>)
    requires UniqueIds(steps)
    ensures forall id :: id in invalid <==> Affected(Dependencies(steps), seeds, id)
  {
    hide Affected;
    ghost var g := Dependencies(steps);
    invalid := seeds;
    forall id | id in seeds ensures Affected(g, seeds, id) {
      SeedIsAffected(g, seeds, id);
    }
    while true
      invariant seeds <= invalid
      invariant forall id :: id in invalid ==> Affected(g, seeds, id)
      decreases g.Keys - invalid
    {
      var expanded := invalid;
      for i := 0 to |steps|
        invariant invalid <= expanded
        invariant forall id :: id in expanded ==> id in invalid || (id in g && Affected(g, seeds, id))
        invariant forall j :: 0 <= j < i && (exists d :: d in steps[j].dependsOn && d in invalid) ==>
                    steps[j].id in expanded
      {
        if d :| d in steps[i].dependsOn && d in invalid {
          EdgeOfStep(steps, i, d);
          DependentIsAffected(g, seeds, steps[i].id, d);
          expanded := expanded + {steps[i].id};
        }
      }
      if expanded == invalid {
        break;
      }
      ghost var grown :| grown in expanded && grown !in invalid;
      assert grown in g.Keys - invalid && grown !in g.Keys - expanded;
      invalid := expanded;
    }
    forall a, b | Edge(g, a, b) && b in invalid ensures a in invalid {
      var i: nat :| i < |steps| && steps[i].id == a;
      EdgeOfStep(steps, i, b);
    }
    forall id | Affected(g, seeds, id) ensures id in invalid {
      AffectedIsLeast(g, seeds, invalid, id);
    }
  }

  function Invalidate(steps: seq<Step>, invalid: set<string>): (r: seq<Step>)
    ensures SameShape(r, steps)
  {
    seq(|steps|, i requires 0 <= i < |steps| =>
      if steps[i].id in invalid then steps[i].(status := Pending, evidence := REPEAT) else steps[i])
  }

  /** Invalidating the affected steps never leaves a completed or running step on an open dependency. */
  lemma InvalidateKeepsPlan(steps: seq<Step>, seeds: set<string>, invalid: set<string>)
    requires PlanInv(steps)
    requires forall id :: id in invalid <==> Affected(Dependencies(steps), seeds, id)
    ensures PlanInv(Invalidate(steps, invalid))
    ensures WellProgressed(steps) ==> WellProgressed(Invalidate(steps, invalid))
  {
    var r := Invalidate(steps, invalid);
    StatusesKeepPlan(r, steps);
    if WellProgressed(steps) {
      forall i | 0 <= i < |r| && (r[i].status == InProgress || r[i].status == Completed)
        ensures DependenciesSettled(r, r[i])
      {
        assert r[i] == steps[i] && DependenciesSettled(steps, steps[i]);
        forall d | d in r[i].dependsOn ensures HasId(r, d) && StatusIs(r, d, true) {
          EdgeOfStep(steps, i, d);
          if d in invalid {
            DependentIsAffected(Dependencies(steps), seeds, r[i].id, d);
          }
          var j: nat :| j < |steps| && steps[j].id == d;
          assert r[j].id == d;
          assert Settled(steps[j].status);
        }
      }
    }
  }
}
