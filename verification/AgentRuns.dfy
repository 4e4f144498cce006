/** Runs of the execution state, from its start, that lose the order of progress or of the skills. */
module AgentRuns {
  import opened AgentState
  import opened PlanAcceptance
  import opened PlanGraph
  import opened Plans
  import opened Wrappers
  import SkillPhases

  lemma OneMore(s: State, ops: seq<Op>, op: Op)
    ensures After(s, ops + [op]) == Apply(After(s, ops), op)
  {
    assert (ops + [op])[..|ops|] == ops;
  }

  // A plan submitted in full takes the place of the current one.
  lemma Submitted(s: State, plan: Plan, validation: string, files: Option<Binding>)
    requires s.tracking && CleanSteps(Ctx(s), plan.steps) && Acceptable(Ctx(s), plan, validation)
    ensures Apply(s, UpdatePlan(Submission(plan, validation), files)) == Adopt(s, Accepted(plan, validation), files)
  {
    hide CleanSteps, Acceptable, Judge, Submission, Adopt;
    SubmittedPlanIsAccepted(Ctx(s), plan, validation);
  }

  // ---------- reopening a verification step that others rest on ----------

  // The outputs are checked, then published.
  function CheckThenPublish(check: Status, publish: Status): Plan {
    Plan("report", [
      Step("check", "Check the report", check, "", [], [], [], None),
      Step("publish", "Publish the report", publish, "", ["check"], [], [], None)
    ], ["the report is right"])
  }

  lemma CheckThenPublishIsAcceptable(ctx: Context, check: Status, publish: Status)
    requires !(check == InProgress && publish == InProgress)
    requires publish == InProgress || publish == Completed ==> Settled(check)
    requires ctx.requirements == [] || ctx.requirements == ["the report is right"]
    requires check == Pending || (check == Completed && ctx.validated && ctx.requirements != [])
    ensures CleanSteps(ctx, CheckThenPublish(check, publish).steps)
    ensures Acceptable(ctx, CheckThenPublish(check, publish), "check")
  {
    var steps := CheckThenPublish(check, publish).steps;
    assert steps[..1][0].id == "check" && steps[0].id == "check";
    ListedInOrderIsSound(steps);
  }

  function SubmitRun(check: Status, publish: Status): Op {
    UpdatePlan(Submission(CheckThenPublish(check, publish), "check"), None)
  }

  // Verify, complete the check, start publishing, then touch the workspace.
  function LateMutation(id: string, artifacts: Binding, outcome: Outcome): seq<Op> {
    [SubmitRun(Pending, Pending), Verify(id, true, artifacts, false), SubmitRun(Completed, InProgress), Mutate(outcome)]
  }

  // The state once publishing has started.
  ghost predicate Publishing(s: State) {
    s.plan == Some(CheckThenPublish(Completed, InProgress)) && s.validationStep == "check"
  }

  lemma CheckIsPlanned(s: State)
    requires s.tracking && s.requirements == []
    ensures var t := Apply(s, SubmitRun(Pending, Pending));
            && t.plan == Some(CheckThenPublish(Pending, Pending)) && t.validationStep == "check"
            && t.requirements == ["the report is right"] && t.tracking && t.deliveryOnly == s.deliveryOnly
  {
    CheckThenPublishIsAcceptable(Ctx(s), Pending, Pending);
    hide Acceptable, CleanSteps, Submission;
    Submitted(s, CheckThenPublish(Pending, Pending), "check", None);
  }

  lemma CheckIsVerified(s: State, id: string, artifacts: Binding)
    requires s.tracking && !s.deliveryOnly && artifacts != map[]
    requires s.plan == Some(CheckThenPublish(Pending, Pending)) && s.validationStep == "check"
    ensures var t := Apply(s, Verify(id, true, artifacts, false));
            && t == s.(verification := t.verification, validation := t.validation)
            && t.validation.Some? && t.validation.value.epoch == t.epoch
  {
    var observed := s.(verification := Some(Proof(id, true, s.epoch, artifacts)));
    PassedVerifierRegisters(s, id, artifacts);
    hide ClaimProblem;
    var steps := CheckThenPublish(Pending, Pending).steps;
    assert steps[1].id != "check" && !Settled(steps[1].status);
    assert Synchronize(steps, "check", id) == steps;
  }

  lemma PublishingStarts(s: State)
    requires s.tracking && s.requirements == ["the report is right"]
    requires s.validation.Some? && s.validation.value.epoch == s.epoch
    ensures Publishing(Apply(s, SubmitRun(Completed, InProgress)))
  {
    CheckThenPublishIsAcceptable(Ctx(s), Completed, InProgress);
    hide Acceptable, CleanSteps, Submission;
    Submitted(s, CheckThenPublish(Completed, InProgress), "check", None);
  }

  lemma PublishingRestsOnCheck()
    ensures var steps := CheckThenPublish(Completed, InProgress).steps;
            WellProgressed(steps) && RestsOn(steps, "check")
  {
    var steps := CheckThenPublish(Completed, InProgress).steps;
    assert steps[0].id == "check" && steps[1].dependsOn[0] == "check";
  }

  /**
   The order of progress is lost from the start state: a step that depends on the verification
   step is running when a recorded mutation reopens it.
   */
  lemma LateMutationBreaksProgress(s: State, id: string, artifacts: Binding, outcome: Outcome)
    requires Starts(s) && s.tracking && !s.deliveryOnly && artifacts != map[] && MayHaveChanged(outcome)
    ensures !WellProgressed(Steps(After(s, LateMutation(id, artifacts, outcome))))
  {
    var ops := LateMutation(id, artifacts, outcome);
    hide Apply, MayHaveChanged, SubmitRun;
    OneMore(s, [], ops[0]);
    OneMore(s, [ops[0]], ops[1]);
    OneMore(s, [ops[0], ops[1]], ops[2]);
    OneMore(s, [ops[0], ops[1], ops[2]], ops[3]);
    assert [] + [ops[0]] == [ops[0]] && [ops[0]] + [ops[1]] == [ops[0], ops[1]];
    assert [ops[0], ops[1]] + [ops[2]] == [ops[0], ops[1], ops[2]] && [ops[0], ops[1], ops[2]] + [ops[3]] == ops;
    assert After(s, []) == s;
    CheckIsPlanned(s);
    CheckIsVerified(After(s, [ops[0]]), id, artifacts);
    PublishingStarts(After(s, [ops[0], ops[1]]));
    PublishingRestsOnCheck();
    RunKeepsPlan(s, [ops[0], ops[1], ops[2]]);
    ApplyKeepsPlan(After(s, [ops[0], ops[1], ops[2]]), ops[3]);
  }

  // ---------- discarding an early phase under ordered skills ----------

  // Two phases, each bound to its own output, and the check.
  function TwoPhases(): Plan {
    Plan("report", [
      Step("draft", "Draft", Completed, "", [], [], ["draft"], Some(1)),
      Step("polish", "Polish", Completed, "", [], [], ["polish"], Some(2)),
      Step("check", "Check", Pending, "", [], [], [], None)
    ], ["the report is right"])
  }

  lemma TwoPhasesIsAcceptable(ctx: Context)
    requires ctx.requirements == [] && ctx.skillCount == 2
    ensures CleanSteps(ctx, TwoPhases().steps) && Acceptable(ctx, TwoPhases(), "check")
  {
    var steps := TwoPhases().steps;
    assert steps[2].id == "check";
    ListedInOrderIsSound(steps);
  }

  // Both skills are loaded and completed in order, and the files of their steps are bound.
  function BothPhases(files: Binding): seq<Op> {
    [LoadSkill(1), LoadSkill(2), CompleteSkill(1, "done"), CompleteSkill(2, "done"),
     UpdatePlan(Submission(TwoPhases(), "check"), Some(files))]
  }

  // The phases are completed and the named steps bound to these files.
  ghost predicate Phased(s: State, completed: set<int>, bindings: map<string, Binding>) {
    && s.plan.Some? && SameShape(Steps(s), TwoPhases().steps)
    && (forall i :: 0 <= i < |Steps(s)| ==> Steps(s)[i].skill == TwoPhases().steps[i].skill)
    && s.completed == completed && s.bindings == bindings && s.orderedSkills && s.skillCount == 2
  }

  lemma LoadInOrder(s: State)
    requires s.orderedSkills && s.skillCount == 2 && s.loaded == {}
    ensures Apply(s, LoadSkill(1)) == s.(loaded := {1})
    ensures Apply(s.(loaded := {1}), LoadSkill(2)) == s.(loaded := {1, 2})
  {
  }

  lemma CompleteInOrder(s: State)
    requires s.orderedSkills && s.skillCount == 2 && s.loaded == {1, 2} && s.completed == {}
    ensures Apply(s, CompleteSkill(1, "done")) == s.(completed := {1})
    ensures Apply(s.(completed := {1}), CompleteSkill(2, "done")) == s.(completed := {1, 2})
  {
  }

  lemma PhasesAreDone(s: State, files: Binding)
    requires Starts(s) && s.orderedSkills && s.skillCount == 2
    ensures After(s, BothPhases(files)[..4]) == s.(loaded := {1, 2}, completed := {1, 2})
  {
    hide Apply;
    var ops := BothPhases(files);
    assert ops[..1] == [] + [ops[0]] && ops[..2] == ops[..1] + [ops[1]];
    assert ops[..3] == ops[..2] + [ops[2]] && ops[..4] == ops[..3] + [ops[3]];
    OneMore(s, [], ops[0]);
    OneMore(s, ops[..1], ops[1]);
    OneMore(s, ops[..2], ops[2]);
    OneMore(s, ops[..3], ops[3]);
    LoadInOrder(s);
    CompleteInOrder(s.(loaded := {1, 2}));
  }

  // Each phase's step is bound to its output.
  function Outputs(files: Binding): map<string, Binding>
    requires "draft" in files && "polish" in files
  {
    map["draft" := map["draft" := files["draft"]], "polish" := map["polish" := files["polish"]]]
  }

  lemma OutputsAreBound(files: Binding)
    requires "draft" in files && "polish" in files
    ensures Bind(TwoPhases().steps, files, map[]) == Outputs(files)
  {
    hide BindStep, StepOf, Bind;
    var steps := TwoPhases().steps;
    BoundSteps(steps, files);
    OutputIsBound(steps[0], "draft", files);
    OutputIsBound(steps[1], "polish", files);
    StepOfUnique(steps, 0);
    StepOfUnique(steps, 1);
    assert steps[0].id == "draft" && steps[1].id == "polish";
  }

  lemma BoundSteps(steps: seq<Step>, files: Binding)
    requires |steps| == 3 && UniqueIds(steps)
    requires steps[0].status == steps[1].status == Completed && steps[2].status != Completed
    ensures var bound := Bind(steps, files, map[]);
            && bound.Keys == {steps[0].id, steps[1].id}
            && bound[steps[0].id] == BindStep(StepOf(steps, steps[0].id), files, map[])
            && bound[steps[1].id] == BindStep(StepOf(steps, steps[1].id), files, map[])
  {
    hide BindStep, StepOf;
  }

  lemma OutputIsBound(step: Step, output: string, files: Binding)
    requires step.inputRefs == [] && step.outputRefs == [output] && output in files
    ensures BindStep(step, files, map[]) == map[output := files[output]]
  {
  }

  lemma PhasesAreBound(s: State, files: Binding)
    requires s.tracking && s.orderedSkills && s.skillCount == 2 && s.requirements == [] && s.completed == {1, 2}
    requires s.bindings == map[] && "draft" in files && "polish" in files
    ensures var t := Apply(s, UpdatePlan(Submission(TwoPhases(), "check"), Some(files)));
            Phased(t, {1, 2}, Outputs(files))
  {
    hide Acceptable, CleanSteps, Submission, Judge, Bind, Apply, Outputs;
    TwoPhasesIsAcceptable(Ctx(s));
    Submitted(s, TwoPhases(), "check", Some(files));
    OutputsAreBound(files);
  }

  // Steps without dependencies are affected only by their own files.
  lemma OnlyOwnFiles(steps: seq<Step>, seeds: set<string>, id: string)
    requires UniqueIds(steps) && forall i :: 0 <= i < |steps| ==> steps[i].dependsOn == []
    ensures Affected(Dependencies(steps), seeds, id) <==> id in seeds
  {
    var g := Dependencies(steps);
    if id in seeds {
      SeedIsAffected(g, seeds, id);
    }
    if Affected(g, seeds, id) {
      AffectedIsLeast(g, seeds, seeds, id);
    }
  }

  // A changed file of one phase discards that phase and its binding alone.
  lemma PhaseIsDiscarded(s: State, completed: set<int>, bindings: map<string, Binding>, present: Binding,
                         id: string, skill: int)
    requires Phased(s, completed, bindings) && (id, skill) in {("draft", 1), ("polish", 2)}
    requires Seeds(bindings, present) == {id}
    ensures Phased(Apply(s, RefreshSteps(present)), completed - {skill}, bindings - {id})
  {
    hide Affected, Seeds, Apply;
    OnlyPhaseIsAffected(s, completed, bindings, present, id);
    PhaseIsReopened(s, completed, bindings, id, skill);
    hide TwoPhases, Phased;
    assert Apply(s, RefreshSteps(present)) == Refreshed(s, present) by {
      RefreshIs(s, present);
    }
  }

  lemma RefreshIs(s: State, present: Binding)
    ensures Apply(s, RefreshSteps(present)) == Refreshed(s, present)
  {
    hide Refreshed;
  }

  lemma OnlyPhaseIsAffected(s: State, completed: set<int>, bindings: map<string, Binding>, present: Binding, id: string)
    requires Phased(s, completed, bindings) && Seeds(bindings, present) == {id}
    ensures UniqueIds(Steps(s)) && AgentState.AffectedSteps(s, present) == {id}
  {
    hide Affected, Seeds;
    ShapeKeepsGraph(Steps(s), TwoPhases().steps);
    forall x ensures Affected(Dependencies(Steps(s)), {id}, x) <==> x == id {
      OnlyOwnFiles(Steps(s), {id}, x);
    }
    hide TwoPhases, AgentState.AffectedSteps, UniqueIds;
  }

  lemma PhaseIsReopened(s: State, completed: set<int>, bindings: map<string, Binding>, id: string, skill: int)
    requires Phased(s, completed, bindings) && (id, skill) in {("draft", 1), ("polish", 2)}
    ensures Phased(Forget(s, {id}), completed - {skill}, bindings - {id})
  {
    var steps := Steps(s);
    assert steps[0].id == "draft" && steps[1].id == "polish";
    assert Reopened(steps, {id}) == {skill};
    assert {id} * StepIds(steps) == {id};
  }

  lemma SeedsOfOutputs(files: Binding, present: Binding)
    requires "draft" in files && "polish" in files
    requires "draft" in present && present["draft"] != files["draft"]
    requires "polish" in present && present["polish"] == files["polish"]
    ensures Seeds(Outputs(files), present) == {"draft"}
  {
    var bound := map["draft" := files["draft"]];
    assert "draft" in bound && Changed(bound, present);
  }

  lemma SeedsOfPolish(files: Binding, present: Binding)
    requires "draft" in files && "polish" in files && "polish" !in present
    ensures Seeds(Outputs(files) - {"draft"}, present) == {"polish"}
  {
    var bound := map["polish" := files["polish"]];
    assert "polish" in bound && Changed(bound, present);
  }

  lemma BothPhasesRun(s: State, files: Binding)
    requires Starts(s) && s.orderedSkills && s.skillCount == 2 && s.tracking && "draft" in files && "polish" in files
    ensures Phased(After(s, BothPhases(files)), {1, 2}, Outputs(files))
  {
    hide Apply, Phased, Outputs;
    var ops := BothPhases(files);
    PhasesAreDone(s, files);
    assert ops == ops[..4] + [ops[4]];
    OneMore(s, ops[..4], ops[4]);
    PhasesAreBound(After(s, ops[..4]), files);
  }

  /**
   Ordered skills can get stuck from the start state: a changed file of the first phase discards
   it and leaves the second, after which no sequence of completions finishes.  Losing a file of
   the second phase too discards that one and clears the way.
   */
  lemma DiscardedPhaseBlocksSkills(s: State, files: Binding, present: Binding, later: Binding, loaded: set<int>)
    requires Starts(s) && s.orderedSkills && s.skillCount == 2 && s.tracking
    requires "draft" in files && "polish" in files
    requires "draft" in present && present["draft"] != files["draft"]
    requires "polish" in present && present["polish"] == files["polish"] && "polish" !in later
    ensures var t := After(s, BothPhases(files) + [RefreshSteps(present)]);
            t.completed == {2} && SkillPhases.Gap(t.completed)
            && forall attempts :: SkillPhases.Completions(loaded, t.completed, true, attempts) != SkillPhases.UpTo(2)
    ensures After(s, BothPhases(files) + [RefreshSteps(present), RefreshSteps(later)]).completed == {}
  {
    hide Apply, Outputs, Seeds, BothPhases, After;
    var ops := BothPhases(files);
    BothPhasesRun(s, files);
    OneMore(s, ops, RefreshSteps(present));
    SeedsOfOutputs(files, present);
    PhaseIsDiscarded(After(s, ops), {1, 2}, Outputs(files), present, "draft", 1);
    var t := After(s, ops + [RefreshSteps(present)]);
    assert {1, 2} - {1} == {2} && {2} - {2} == {};
    assert 1 <= |{2}| && 1 !in {2};
    forall attempts ensures SkillPhases.Completions(loaded, t.completed, true, attempts) != SkillPhases.UpTo(2) {
      SkillPhases.GapStays(loaded, t.completed, attempts);
      assert !SkillPhases.Gap(SkillPhases.UpTo(2));
    }
    assert ops + [RefreshSteps(present), RefreshSteps(later)] == ops + [RefreshSteps(present)] + [RefreshSteps(later)];
    OneMore(s, ops + [RefreshSteps(present)], RefreshSteps(later));
    SeedsOfPolish(files, later);
    PhaseIsDiscarded(t, {2}, Outputs(files) - {"draft"}, later, "polish", 2);
  }

  // ---------- what repairs a gap ----------

  // A run reaches the invalidation that closes the gap by discarding completed phases.
  ghost predicate Repaired(s: State, ops: seq<Op>, k: nat) {
    && k < |ops| && ops[k].RefreshSteps?
    && SkillPhases.Gap(After(s, ops[..k]).completed) && !SkillPhases.Gap(After(s, ops[..k + 1]).completed)
    && After(s, ops[..k + 1]).completed < After(s, ops[..k]).completed
  }

  lemma OthersKeepGap(s: State, op: Op)
    requires s.orderedSkills && SkillPhases.Gap(s.completed) && !op.RefreshSteps?
    ensures SkillPhases.Gap(Apply(s, op).completed)
  {
    hide WithSteps, Judge, StepStarted, Collected, Mutated, Claimed, Verified, SkillPhases.Gap;
    if op.CompleteSkill? {
      CompletionKeepsGap(s.loaded, s.completed, op.index, op.evidence);
    } else {
      OthersKeepPhases(s, op);
    }
  }

  lemma ClaimKeepsPhases(s: State, claim: Claim, snapshot: Binding)
    ensures Claimed(s, claim, snapshot).completed == s.completed
    ensures Claimed(s, claim, snapshot).orderedSkills == s.orderedSkills
  {
    hide WithSteps, ClaimProblem, Synchronize;
  }

  lemma VerifyKeepsPhases(s: State, id: string, ok: bool, artifacts: Binding, failed: bool)
    ensures Verified(s, id, ok, artifacts, failed).completed == s.completed
    ensures Verified(s, id, ok, artifacts, failed).orderedSkills == s.orderedSkills
  {
    hide WithSteps, Claimed, SkipValidation;
    ClaimKeepsPhases(s.(verification := Some(Proof(id, ok, s.epoch, artifacts))), PlatformClaim(id), artifacts);
  }

  lemma OthersKeepPhases(s: State, op: Op)
    requires !op.RefreshSteps? && !op.CompleteSkill?
    ensures Apply(s, op).completed == s.completed && Apply(s, op).orderedSkills == s.orderedSkills
  {
    hide WithSteps, Judge, Claimed, Verified, StepStarted, Reopen;
    match op
    case Verify(id, ok, artifacts, failed) => VerifyKeepsPhases(s, id, ok, artifacts, failed);
    case RecordValidation(claim, snapshot) => ClaimKeepsPhases(s, claim, snapshot);
    case _ =>
  }

  lemma CompletionKeepsGap(loaded: set<int>, completed: set<int>, index: int, evidence: string)
    requires SkillPhases.Gap(completed)
    ensures match SkillPhases.Complete(loaded, completed, true, index, evidence)
            case Ok(after) => SkillPhases.Gap(after)
            case Err(_) => true
  {
    var i :| 1 <= i <= |completed| && i !in completed;
    match SkillPhases.Complete(loaded, completed, true, index, evidence)
    case Ok(after) =>
      assert after == completed || |after| == |completed| + 1;
      assert i !in after;
    case Err(_) =>
  }

  lemma RefreshOnlyDiscards(s: State, present: Binding)
    ensures Apply(s, RefreshSteps(present)).completed <= s.completed
    ensures Apply(s, RefreshSteps(present)).orderedSkills == s.orderedSkills
  {
    hide AgentState.AffectedSteps, Invalidate, Reopened, WithSteps;
  }

  lemma OrderStays(s: State, op: Op)
    ensures Apply(s, op).orderedSkills == s.orderedSkills
  {
    hide Refreshed, Planned, Claimed, Verified, StepStarted, Mutated, Collected;
    if op.RefreshSteps? {
      RefreshOnlyDiscards(s, op.present);
    } else if !op.CompleteSkill? {
      OthersKeepPhases(s, op);
    }
  }

  /**
   Under ordered skills a missing early phase is never made up for by completions, readings, plans or
   anything else: whatever the run, it stays missing until an invalidation discards later phases too.
   */
  lemma {:induction false} OnlyDiscardingRepairs(s: State, ops: seq<Op>) returns (k: nat)
    requires s.orderedSkills && SkillPhases.Gap(s.completed) && !SkillPhases.Gap(After(s, ops).completed)
    ensures Repaired(s, ops, k)
    decreases |ops|
  {
    hide Apply, SkillPhases.Gap;
    var before, op := ops[..|ops| - 1], ops[|ops| - 1];
    if SkillPhases.Gap(After(s, before).completed) {
      k := |before|;
      OrderStaysOver(s, before);
      assert ops[..k + 1] == ops && ops[..k] == before;
      assert After(s, ops) == Apply(After(s, before), op);
      if op.RefreshSteps? {
        RefreshOnlyDiscards(After(s, before), op.present);
        var was, rest := After(s, before).completed, After(s, ops).completed;
        assert rest <= was && rest != was;
      } else {
        OthersKeepGap(After(s, before), op);
      }
    } else {
      k := OnlyDiscardingRepairs(s, before);
      assert before[..k] == ops[..k] && before[..k + 1] == ops[..k + 1];
    }
  }

  lemma {:induction false} OrderStaysOver(s: State, ops: seq<Op>)
    ensures After(s, ops).orderedSkills == s.orderedSkills
    decreases |ops|
  {
    hide Apply;
    if ops != [] {
      OrderStaysOver(s, ops[..|ops| - 1]);
      OrderStays(After(s, ops[..|ops| - 1]), ops[|ops| - 1]);
    }
  }
}
