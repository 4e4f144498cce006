/**
 The trusted state around a model-driven execution, as a value: the plan, the proof of the
 outputs and the requirements ledger, with the effect of every operation.

 The theorems range over whole runs: finishing is honest, the ledger only grows, and the plan
 stays sound.
 */
module AgentState {
  import opened PlanAcceptance
  import opened PlanGraph
  import opened Plans
  import opened Wrappers
  import SkillPhases

  // What the platform observed of one verifier run, and the epoch it was observed in.
  datatype Proof = Proof(id: string, ok: bool, epoch: nat, artifacts: Binding)

  datatype Validation = Validation(proof: string, epoch: nat, artifacts: Binding)

  datatype State = State(
    plan: Option<Plan>, validationStep: string, tracking: bool, planRequired: bool, deliveryOnly: bool,
    skillCount: nat, orderedSkills: bool, loaded: set<int>, completed: set<int>,
    requirements: seq<string>, verification: Option<Proof>, validation: Option<Validation>,
    failures: nat, epoch: nat, bindings: map<string, Binding>, managed: Binding)

  function Initial(skillCount: nat, ordered: bool, tracking: bool, planRequired: bool, deliveryOnly: bool): State {
    State(None, "", tracking, planRequired, deliveryOnly, skillCount, ordered,
          if skillCount == 1 then {1} else {}, {}, [], None, None, 0, 0, map[], map[])
  }

  function Steps(s: State): seq<Step> {
    if s.plan.Some? then s.plan.value.steps else []
  }

  function WithSteps(s: State, steps: seq<Step>): (t: State)
    ensures t == s.(plan := t.plan)
    ensures if s.plan.Some? then Steps(t) == steps else t == s
  {
    if s.plan.Some? then s.(plan := Some(s.plan.value.(steps := steps))) else s
  }

  function WithoutProof(s: State): State {
    s.(verification := None, validation := None)
  }

  // ---------- plans ----------

  function Ctx(s: State): Context {
    Context(s.plan, s.validationStep, s.requirements, s.tracking, s.deliveryOnly, s.skillCount,
            s.validation.Some? && s.validation.value.epoch == s.epoch)
  }

  function Adopt(s: State, a: Accepted, files: Option<Binding>): (t: State)
    ensures t.epoch == s.epoch
  {
    var kept := if a.plan.criteria == s.requirements then s else WithoutProof(s);
    kept.(plan := Some(a.plan), validationStep := a.validationStep, requirements := a.plan.criteria,
          bindings := if files.Some? then Bind(a.plan.steps, files.value, s.bindings) else s.bindings)
  }

  ghost function Planned(s: State, req: Request, files: Option<Binding>): State {
    match Judge(Ctx(s), req)
    case Ok(a) => Adopt(s, a, files)
    case Err(_) => s
  }

  function StepStarted(s: State): (t: State)
    ensures t == s.(plan := t.plan)
  {
    if s.plan.Some? && s.tracking then WithSteps(s, Activate(Steps(s))) else s
  }

  ghost function AffectedSteps(s: State, files: Binding): (r: set<string>)
    requires s.plan.Some? && UniqueIds(Steps(s))
    ensures forall id :: id in r <==> Affected(Dependencies(Steps(s)), Seeds(s.bindings, files), id)
  {
    var g, seeds := Dependencies(Steps(s)), Seeds(s.bindings, files);
    forall id | Affected(g, seeds, id) ensures id in g.Keys + seeds {
      var p :| Path(g, p) && p[0] == id && p[|p| - 1] in seeds;
      assert |p| > 1 ==> Edge(g, p[0], p[1]);
    }
    set id | id in g.Keys + seeds && Affected(g, seeds, id)
  }

  function StepIds(steps: seq<Step>): set<string> {
    set i | 0 <= i < |steps| :: steps[i].id
  }

  function Forget(s: State, invalid: set<string>): (t: State)
    ensures t.requirements == s.requirements && t.epoch == s.epoch
  {
    var kept := if invalid == {} then s else WithoutProof(s);
    WithSteps(kept, Invalidate(Steps(s), invalid))
      .(bindings := s.bindings - (invalid * StepIds(Steps(s))),
        completed := s.completed - Reopened(Steps(s), invalid))
  }

  function Reopened(steps: seq<Step>, invalid: set<string>): set<int> {
    set i | 0 <= i < |steps| && steps[i].id in invalid && steps[i].skill.Some? :: steps[i].skill.value
  }

  ghost function Refreshed(s: State, files: Binding): (t: State)
    ensures t.requirements == s.requirements
  {
    if s.plan.None? || !UniqueIds(Steps(s)) then s else Forget(s, AffectedSteps(s, files))
  }

  // ---------- proofs of the outputs ----------

  function Reference(s: State): Binding {
    if s.validation.Some? then s.validation.value.artifacts
    else if s.verification.Some? then s.verification.value.artifacts
    else s.managed
  }

  // Some collected file is new, or has other bytes than those last accounted for.
  predicate Differs(reference: Binding, snapshot: Binding) {
    exists path :: path in snapshot && (path !in reference || reference[path] != snapshot[path])
  }

  predicate BytesChanged(s: State, snapshot: Binding) {
    Differs(Reference(s), snapshot)
  }

  function Collected(s: State, snapshot: Binding): (t: State)
    ensures t.requirements == s.requirements
  {
    var changed := BytesChanged(s, snapshot);
    s.(managed := s.managed + snapshot, epoch := if changed then s.epoch + 1 else s.epoch,
       verification := if changed then None else s.verification, validation := if changed then None else s.validation)
  }

  // What a workspace tool reported back.
  datatype Outcome = Outcome(refused: bool, exitCode: Option<int>, started: bool)

  predicate Succeeded(o: Outcome) {
    !o.refused && (o.exitCode.Some? ==> o.exitCode.value == 0)
  }

  // A refused call that never started has changed nothing.
  predicate MayHaveChanged(o: Outcome) {
    o.exitCode.Some? || Succeeded(o) || o.started
  }

  function Mutated(s: State, o: Outcome): (t: State)
    ensures t.requirements == s.requirements
  {
    if !MayHaveChanged(o) then s else
    WithSteps(WithoutProof(s).(epoch := s.epoch + 1), Reopen(Steps(s), s.validationStep))
  }

  /**
   A report that shows an exit code, a start or no refusal ends every proof, starts an epoch and
   reopens a completed verification step; a refusal without either changes nothing.
   */
  lemma MutationOutcome(s: State, o: Outcome)
    ensures var t := Mutated(s, o);
            if o.exitCode.Some? || o.started || !o.refused then
              && t == s.(plan := t.plan, verification := None, validation := None, epoch := s.epoch + 1)
              && (s.plan.None? ==> t.plan.None?)
              && (s.plan.Some? ==>
                    && t.plan.Some? && t.plan.value == s.plan.value.(steps := t.plan.value.steps)
                    && |t.plan.value.steps| == |s.plan.value.steps|
                    && forall i :: 0 <= i < |s.plan.value.steps| ==>
                         var was, step := s.plan.value.steps[i], t.plan.value.steps[i];
                         if was.id == s.validationStep && was.status == Completed
                         then step == was.(status := Pending, evidence := REOPENED) else step == was)
            else t == s
  {
  }

  datatype Claim = Claim(
    status: string, summary: string, evidence: string, checks: Option<seq<string>>, proof: Option<string>)

  datatype ClaimError =
    | ClaimInvalid | ArtifactsMissing | EvidenceMissing | VerifierFailed | ValidationFailed(retry: bool)

  predicate WellPut(claim: Claim) {
    && claim.summary != "" && claim.evidence != ""
    && claim.checks.Some? && 1 <= |claim.checks.value| <= 200 && "" !in claim.checks.value
  }

  function ClaimProblem(s: State, claim: Claim, snapshot: Binding): (r: Option<ClaimError>)
    ensures r.None? || r.value.ValidationFailed? ==>
              && s.verification.Some? && s.verification.value.ok && s.verification.value.epoch == s.epoch
              && s.verification.value.artifacts == snapshot && snapshot != map[]
  {
    if claim.status !in ["passed", "failed"] || claim.summary == "" || claim.evidence == "" then Some(ClaimInvalid)
    else if claim.checks.None? || !(1 <= |claim.checks.value| <= 200) || "" in claim.checks.value then
      Some(ClaimInvalid)
    else if snapshot == map[] then Some(ArtifactsMissing)
    else if s.verification.None? || claim.proof != Some(s.verification.value.id)
            || s.verification.value.artifacts != snapshot then Some(EvidenceMissing)
    else if !s.verification.value.ok || s.verification.value.epoch != s.epoch then Some(VerifierFailed)
    else if claim.status == "failed" then Some(ValidationFailed(s.failures < 2))
    else None
  }

  function Validated(s: State, snapshot: Binding): (t: State)
    requires s.verification.Some?
    ensures t.requirements == s.requirements
  {
    var id := s.verification.value.id;
    var recorded := s.(validation := Some(Validation(id, s.epoch, snapshot)));
    if s.tracking then WithSteps(recorded, Synchronize(Steps(s), s.validationStep, id)) else recorded
  }

  function Claimed(s: State, claim: Claim, snapshot: Binding): (t: State)
    ensures t.requirements == s.requirements
  {
    match ClaimProblem(s, claim, snapshot)
    case None => Validated(s, snapshot)
    case Some(ValidationFailed(_)) => s.(validation := None, failures := s.failures + 1)
    case Some(_) => s
  }

  function SkipValidation(steps: seq<Step>, validation: string): (r: seq<Step>)
    ensures SameShape(r, steps)
  {
    seq(|steps|, i requires 0 <= i < |steps| =>
      if steps[i].id == validation
      then steps[i].(status := Skipped, evidence := "Deployment uses delivery-only acceptance.")
      else steps[i])
  }

  // The claim the platform itself makes right after a verifier passed.
  function PlatformClaim(id: string): Claim {
    Claim("passed", "verifier passed", "report", Some(["verifier checks"]), Some(id))
  }

  function Verified(s: State, id: string, ok: bool, artifacts: Binding, failed: bool): (t: State)
    ensures t.requirements == s.requirements
  {
    if s.deliveryOnly then WithSteps(s, SkipValidation(Steps(s), s.validationStep)) else
    var observed := s.(verification := Some(Proof(id, ok, s.epoch, artifacts)));
    if ok then Claimed(observed, PlatformClaim(id), artifacts)
    else observed.(validation := None, failures := s.failures + (if failed then 1 else 0))
  }

  // Only the listed steps differ, and only in having this status and evidence.
  predicate StepsMoved(was: Option<Plan>, plan: Option<Plan>, moved: set<int>, status: Status, evidence: string) {
    if was.None? then plan.None? else
      && plan.Some? && plan.value == was.value.(steps := plan.value.steps)
      && |plan.value.steps| == |was.value.steps|
      && forall i :: 0 <= i < |was.value.steps| ==>
           plan.value.steps[i] == if i in moved then was.value.steps[i].(status := status, evidence := evidence)
                                  else was.value.steps[i]
  }

  // The steps that carry the verification id.
  function Verifications(steps: seq<Step>, validation: string): set<int> {
    set i | 0 <= i < |steps| && steps[i].id == validation
  }

  predicate OthersDone(steps: seq<Step>, validation: string) {
    forall i :: 0 <= i < |steps| && steps[i].id != validation ==>
      steps[i].status == Completed || steps[i].status == Skipped
  }

  // The verification steps that a recorded validation completes.
  function Completes(s: State): set<int> {
    if s.tracking && OthersDone(Steps(s), s.validationStep) then Verifications(Steps(s), s.validationStep) else {}
  }

  /** The answer to a claim, reason by reason and in their order. */
  lemma ClaimIsExact(s: State, claim: Claim, snapshot: Binding)
    ensures var r := ClaimProblem(s, claim, snapshot);
            var put := && (claim.status == "passed" || claim.status == "failed")
                       && claim.summary != "" && claim.evidence != ""
                       && claim.checks.Some? && 1 <= |claim.checks.value| <= 200 && "" !in claim.checks.value;
            var matched := && s.verification.Some? && claim.proof == Some(s.verification.value.id)
                           && s.verification.value.artifacts == snapshot;
            var sound := s.verification.Some? && s.verification.value.ok && s.verification.value.epoch == s.epoch;
            && (r == Some(ClaimInvalid) <==> !put)
            && (r == Some(ArtifactsMissing) <==> put && snapshot == map[])
            && (r == Some(EvidenceMissing) <==> put && snapshot != map[] && !matched)
            && (r == Some(VerifierFailed) <==> put && snapshot != map[] && matched && !sound)
            && ((r.Some? && r.value.ValidationFailed?) <==>
                  put && snapshot != map[] && matched && sound && claim.status == "failed")
            && (r.Some? && r.value.ValidationFailed? ==> (r.value.retry <==> s.failures + 1 <= 2))
            && (r == None <==> put && snapshot != map[] && matched && sound && claim.status == "passed")
  {
  }

  /** What a claim leaves: a proof and perhaps a completed verification step, a counted failure, or nothing. */
  lemma ClaimOutcome(s: State, claim: Claim, snapshot: Binding)
    ensures var t, r := Claimed(s, claim, snapshot), ClaimProblem(s, claim, snapshot);
            if r.None? then
              && claim.proof.Some?
              && t == s.(plan := t.plan, validation := Some(Validation(claim.proof.value, s.epoch, snapshot)))
              && StepsMoved(s.plan, t.plan, Completes(s), Completed, claim.proof.value)
            else if r.value.ValidationFailed? then t == s.(validation := None, failures := s.failures + 1)
            else t == s
  {
    hide ClaimProblem;
    ClaimIsExact(s, claim, snapshot);
  }

  /** What a verifier run leaves. */
  lemma VerifierOutcome(s: State, id: string, ok: bool, artifacts: Binding, failed: bool)
    requires ok ==> artifacts != map[]
    ensures var t := Verified(s, id, ok, artifacts, failed);
            if s.deliveryOnly then
              && t == s.(plan := t.plan)
              && StepsMoved(s.plan, t.plan, Verifications(Steps(s), s.validationStep), Skipped,
                            "Deployment uses delivery-only acceptance.")
            else if ok then
              && t == s.(plan := t.plan, verification := Some(Proof(id, true, s.epoch, artifacts)),
                         validation := Some(Validation(id, s.epoch, artifacts)))
              && StepsMoved(s.plan, t.plan, Completes(s), Completed, id)
            else t == s.(verification := Some(Proof(id, false, s.epoch, artifacts)), validation := None,
                         failures := if failed then s.failures + 1 else s.failures)
  {
    hide Claimed, ClaimProblem;
    if ok && !s.deliveryOnly {
      var observed := s.(verification := Some(Proof(id, ok, s.epoch, artifacts)));
      PassedVerifierRegisters(s, id, artifacts);
      ClaimOutcome(observed, PlatformClaim(id), artifacts);
    }
  }

  /** What a collection leaves. */
  lemma CollectionOutcome(s: State, snapshot: Binding)
    ensures var t := Collected(s, snapshot);
            var known := if s.validation.Some? then s.validation.value.artifacts
                         else if s.verification.Some? then s.verification.value.artifacts else s.managed;
            var changed := exists path :: path in snapshot && !(path in known && known[path] == snapshot[path]);
            && (changed <==> BytesChanged(s, snapshot))
            && (changed ==>
                  t == s.(managed := t.managed, epoch := s.epoch + 1, verification := None, validation := None))
            && (!changed ==> t == s.(managed := t.managed))
            && (forall path :: path in t.managed <==> path in snapshot || path in s.managed)
            && forall path :: path in t.managed ==>
                 t.managed[path] == if path in snapshot then snapshot[path] else s.managed[path]
  {
  }

  /** What an accepted plan leaves; other requirements end every proof. */
  lemma AdoptionOutcome(s: State, a: Accepted, files: Option<Binding>)
    ensures var t := Adopt(s, a, files);
            && t.plan == Some(a.plan) && t.validationStep == a.validationStep && t.requirements == a.plan.criteria
            && t == s.(plan := t.plan, validationStep := t.validationStep, requirements := t.requirements,
                       bindings := t.bindings, verification := t.verification, validation := t.validation)
            && (a.plan.criteria == s.requirements ==> t.verification == s.verification && t.validation == s.validation)
            && (a.plan.criteria != s.requirements ==> t.verification == None && t.validation == None)
            && (files.None? ==> t.bindings == s.bindings)
            && (files.Some? ==> forall id :: id in t.bindings <==>
                  exists i :: 0 <= i < |a.plan.steps| && a.plan.steps[i].id == id
                              && a.plan.steps[i].status == Completed)
  {
  }

  // The affected steps, their bindings and their phases begin again, and every proof ends with them.
  ghost predicate Discards(s: State, t: State, hit: set<string>) {
    && t == s.(plan := t.plan, bindings := t.bindings, completed := t.completed,
               verification := t.verification, validation := t.validation)
    && StepsMoved(s.plan, t.plan, (set i | 0 <= i < |Steps(s)| && Steps(s)[i].id in hit), Pending,
                  REPEAT)
    && (forall id :: id in t.bindings <==>
          id in s.bindings && !(id in hit && exists i :: 0 <= i < |Steps(s)| && Steps(s)[i].id == id))
    && (forall id :: id in t.bindings ==> t.bindings[id] == s.bindings[id])
    && (forall skill :: skill in t.completed <==>
          && skill in s.completed
          && !exists i :: 0 <= i < |Steps(s)| && Steps(s)[i].id in hit && Steps(s)[i].skill == Some(skill))
    && (if hit == {} then t.verification == s.verification && t.validation == s.validation
        else t.verification == None && t.validation == None)
  }

  lemma ForgetDiscards(s: State, hit: set<string>)
    requires s.plan.Some?
    ensures Discards(s, Forget(s, hit), hit)
  {
    hide StepsMoved, Invalidate, Reopened, StepIds;
    InvalidateMoves(s, hit);
    PhasesReopened(Steps(s), hit);
    IdsOf(Steps(s));
  }

  lemma InvalidateMoves(s: State, hit: set<string>)
    requires s.plan.Some?
    ensures StepsMoved(s.plan, Some(s.plan.value.(steps := Invalidate(Steps(s), hit))),
                       (set i | 0 <= i < |Steps(s)| && Steps(s)[i].id in hit), Pending,
                       REPEAT)
  {
  }

  lemma PhasesReopened(steps: seq<Step>, hit: set<string>)
    ensures forall skill :: skill in Reopened(steps, hit) <==>
              exists i :: 0 <= i < |steps| && steps[i].id in hit && steps[i].skill == Some(skill)
  {
  }

  lemma IdsOf(steps: seq<Step>)
    ensures forall id :: id in StepIds(steps) <==> exists i :: 0 <= i < |steps| && steps[i].id == id
  {
  }

  /** What changed files leave. */
  lemma RefreshOutcome(s: State, files: Binding)
    ensures var t := Refreshed(s, files);
            if s.plan.Some? && UniqueIds(Steps(s)) then Discards(s, t, AffectedSteps(s, files)) else t == s
  {
    hide AffectedSteps, Forget, Discards, UniqueIds;
    if s.plan.Some? && UniqueIds(Steps(s)) {
      ForgetDiscards(s, AffectedSteps(s, files));
    }
  }

  /** What the operations on skills and the environment leave. */
  lemma SkillOutcome(s: State, index: int, evidence: string)
    ensures var t := Apply(s, LoadSkill(index));
            if && 1 <= index <= s.skillCount
               && (s.orderedSkills ==> index in s.loaded || index == |s.loaded| + 1)
            then t == s.(loaded := s.loaded + {index}) else t == s
    ensures var t := Apply(s, CompleteSkill(index, evidence));
            if index in s.loaded && (s.orderedSkills ==> index == |s.completed| + 1) && 1 <= |evidence| <= 1000
            then t == s.(completed := s.completed + {index}) else t == s
    ensures Apply(s, Upgrade) == s.(verification := None, validation := None)
  {
  }

  /** The platform's own registration of a passed verifier is never refused. */
  lemma PassedVerifierRegisters(s: State, id: string, artifacts: Binding)
    requires artifacts != map[]
    ensures var observed := s.(verification := Some(Proof(id, true, s.epoch, artifacts)));
            ClaimProblem(observed, PlatformClaim(id), artifacts).None?
  {
  }

  // ---------- the gate at the end ----------

  datatype Blocker = PlanMissing | SkillsUnread | SkillsIncomplete | StepsIncomplete | NotVerified | BytesDiffer

  predicate AllSkills(done: set<int>, skills: nat) {
    forall i :: 1 <= i <= skills ==> i in done
  }

  predicate StepsDone(s: State) {
    forall i :: 0 <= i < |Steps(s)| && !(s.deliveryOnly && Steps(s)[i].id == s.validationStep) ==>
      Settled(Steps(s)[i].status)
  }

  function FinishBlocker(s: State, current: Binding): Option<Blocker> {
    if s.planRequired && s.plan.None? then Some(PlanMissing)
    else if !AllSkills(s.loaded, s.skillCount) then Some(SkillsUnread)
    else if s.skillCount > 1 && !AllSkills(s.completed, s.skillCount) then Some(SkillsIncomplete)
    else if s.tracking && !StepsDone(s) then Some(StepsIncomplete)
    else if s.deliveryOnly then None
    else if s.validation.None? || s.validation.value.epoch != s.epoch then Some(NotVerified)
    else if s.validation.value.artifacts != current then Some(BytesDiffer)
    else None
  }

  /** The gate, condition by condition and in its order. */
  lemma GateIsExact(s: State, current: Binding)
    ensures var r := FinishBlocker(s, current);
            var planned := s.planRequired ==> s.plan.Some?;
            var read := forall i :: 1 <= i <= s.skillCount ==> i in s.loaded;
            var completed := s.skillCount <= 1 || forall i :: 1 <= i <= s.skillCount ==> i in s.completed;
            var settled := s.tracking ==>
                             forall i :: 0 <= i < |Steps(s)| ==>
                               || Steps(s)[i].status == Completed || Steps(s)[i].status == Skipped
                               || (s.deliveryOnly && Steps(s)[i].id == s.validationStep);
            var proved := s.deliveryOnly || (s.validation.Some? && s.validation.value.epoch == s.epoch);
            var same := s.deliveryOnly || (s.validation.Some? && s.validation.value.artifacts == current);
            && (r == Some(PlanMissing) <==> !planned)
            && (r == Some(SkillsUnread) <==> planned && !read)
            && (r == Some(SkillsIncomplete) <==> planned && read && !completed)
            && (r == Some(StepsIncomplete) <==> planned && read && completed && !settled)
            && (r == Some(NotVerified) <==> planned && read && completed && settled && !proved)
            && (r == Some(BytesDiffer) <==> planned && read && completed && settled && proved && !same)
            && (r == None <==> planned && read && completed && settled && proved && same)
  {
  }

  // ---------- runs ----------

  datatype Op =
    | UpdatePlan(req: Request, files: Option<Binding>)
    | EnsureStep
    | Mutate(outcome: Outcome)
    | Verify(id: string, ok: bool, artifacts: Binding, failed: bool)
    | RecordValidation(claim: Claim, snapshot: Binding)
    | Collect(snapshot: Binding)
    | RefreshSteps(present: Binding)
    | Upgrade
    | Resume(planRequired: bool, deliveryOnly: bool)
    | LoadSkill(index: int)
    | CompleteSkill(index: int, evidence: string)

  // A verifier only passes on some artifacts.
  predicate Possible(op: Op) {
    op.Verify? && op.ok ==> op.artifacts != map[]
  }

  ghost function Apply(s: State, op: Op): State {
    match op
    case UpdatePlan(req, files) => Planned(s, req, files)
    case EnsureStep => StepStarted(s)
    case Mutate(outcome) => Mutated(s, outcome)
    case Verify(id, ok, artifacts, failed) => Verified(s, id, ok, artifacts, failed)
    case RecordValidation(claim, snapshot) => Claimed(s, claim, snapshot)
    case Collect(snapshot) => Collected(s, snapshot)
    case RefreshSteps(files) => Refreshed(s, files)
    case Upgrade => WithoutProof(s)
    case Resume(planRequired, deliveryOnly) => s.(planRequired := planRequired, deliveryOnly := deliveryOnly)
    case LoadSkill(index) =>
      var r := SkillPhases.Load(s.loaded, s.orderedSkills, s.skillCount, index);
      if r.Ok? then s.(loaded := r.value) else s
    case CompleteSkill(index, evidence) =>
      var r := SkillPhases.Complete(s.loaded, s.completed, s.orderedSkills, index, evidence);
      if r.Ok? then s.(completed := r.value) else s
  }

  ghost function After(s: State, ops: seq<Op>): State
    decreases |ops|
  {
    if ops == [] then s else Apply(After(s, ops[..|ops| - 1]), ops[|ops| - 1])
  }

  predicate Starts(s: State) {
    s == Initial(s.skillCount, s.orderedSkills, s.tracking, s.planRequired, s.deliveryOnly)
  }

  // The plan is sound in every reachable state.
  ghost predicate PlanHolds(s: State) {
    PlanStands(s.plan, s.validationStep, s.requirements)
  }

  ghost predicate PlanStands(plan: Option<Plan>, validationStep: string, requirements: seq<string>) {
    plan.Some? ==>
      PlanInv(plan.value.steps) && HasId(plan.value.steps, validationStep) && plan.value.criteria == requirements
  }

  lemma ShapeKeepsIds(steps: seq<Step>, was: seq<Step>, id: string)
    requires SameShape(steps, was) && HasId(was, id)
    ensures HasId(steps, id)
  {
    var i :| 0 <= i < |was| && was[i].id == id;
    assert steps[i].id == id;
  }

  lemma StepsKeepPlan(s: State, steps: seq<Step>)
    requires PlanHolds(s) && SameShape(steps, Steps(s)) && PlanInv(steps)
    ensures PlanHolds(WithSteps(s, steps))
  {
  }

  lemma ActivateKeepsPlan(s: State)
    requires PlanHolds(s)
    ensures PlanHolds(StepStarted(s))
    ensures WellProgressed(Steps(s)) ==> WellProgressed(Steps(StepStarted(s)))
  {
    if s.plan.Some? {
      ActivationKeepsSteps(s);
    }
  }

  lemma ActivationKeepsSteps(s: State)
    requires PlanHolds(s) && s.plan.Some?
    ensures PlanHolds(WithSteps(s, Activate(Steps(s))))
    ensures WellProgressed(Steps(s)) ==> WellProgressed(Activate(Steps(s)))
  {
    var steps := Steps(s);
    var ready := ReadyIndexes(steps, |steps|);
    if Activate(steps) != steps {
      assert ready[0] in ready;
      forall j | 0 <= j < |steps| && j != ready[0] ensures !Ready(steps, j) {
        assert j !in ready;
      }
      ActivationKeepsPlan(steps, Activate(steps), Plans.Activated(Activate(steps)[ready[0]]));
    }
    StepsKeepPlan(s, Activate(steps));
  }

  lemma RefreshKeepsPlan(s: State, files: Binding)
    requires PlanHolds(s)
    ensures PlanHolds(Refreshed(s, files))
    ensures WellProgressed(Steps(s)) ==> WellProgressed(Steps(Refreshed(s, files)))
  {
    if s.plan.None? {
      return;
    }
    assert UniqueIds(Steps(s));
    hide PlanInv, WellProgressed, Affected;
    var invalid := AffectedSteps(s, files);
    InvalidateKeepsPlan(Steps(s), Seeds(s.bindings, files), invalid);
    StepsKeepPlan(s, Invalidate(Steps(s), invalid));
  }

  lemma SkipKeepsPlan(s: State)
    requires PlanHolds(s) && s.plan.Some?
    ensures PlanHolds(WithSteps(s, SkipValidation(Steps(s), s.validationStep)))
    ensures WellProgressed(Steps(s)) ==> WellProgressed(SkipValidation(Steps(s), s.validationStep))
  {
    var r := SkipValidation(Steps(s), s.validationStep);
    StatusesKeepPlan(r, Steps(s));
    StepsKeepPlan(s, r);
    if WellProgressed(Steps(s)) {
      forall i | 0 <= i < |r| && (r[i].status == InProgress || r[i].status == Completed)
        ensures DependenciesSettled(r, r[i])
      {
        assert DependenciesSettled(Steps(s), Steps(s)[i]);
        forall d | d in r[i].dependsOn ensures HasId(r, d) && StatusIs(r, d, true) {
          ShapeKeepsIds(r, Steps(s), d);
        }
      }
    }
  }

  lemma ClaimKeepsPlan(s: State, claim: Claim, snapshot: Binding)
    requires PlanHolds(s)
    ensures PlanHolds(Claimed(s, claim, snapshot))
    ensures WellProgressed(Steps(s)) ==> WellProgressed(Steps(Claimed(s, claim, snapshot)))
  {
    if s.plan.Some? && ClaimProblem(s, claim, snapshot).None? {
      SynchronizeKeepsPlan(Steps(s), s.validationStep, s.verification.value.id);
      StepsKeepPlan(s, Synchronize(Steps(s), s.validationStep, s.verification.value.id));
    }
  }

  // A recorded mutation pulls a settled dependency from under a completed or running step.
  ghost predicate Undermines(s: State, op: Op) {
    op.Mutate? && MayHaveChanged(op.outcome) && RestsOn(Steps(s), s.validationStep)
  }

  lemma CollectionKeepsPlan(s: State, snapshot: Binding)
    requires PlanHolds(s)
    ensures PlanHolds(Collected(s, snapshot))
  {
  }

  lemma AcceptanceKeepsPlan(s: State, req: Request, files: Option<Binding>)
    requires PlanHolds(s)
    ensures PlanHolds(Planned(s, req, files))
    ensures WellProgressed(Steps(s)) ==> WellProgressed(Steps(Planned(s, req, files)))
  {
    if Judge(Ctx(s), req).Ok? {
      AcceptedPlan(Ctx(s), req);
    }
  }

  /** Every operation keeps the plan, and the order of progress unless it undermines it. */
  lemma ApplyKeepsPlan(s: State, op: Op)
    requires PlanHolds(s)
    ensures PlanHolds(Apply(s, op))
    ensures WellProgressed(Steps(s)) && !Undermines(s, op) ==> WellProgressed(Steps(Apply(s, op)))
    ensures WellProgressed(Steps(s)) && Undermines(s, op) ==> !WellProgressed(Steps(Apply(s, op)))
  {
    match op
    case UpdatePlan(req, files) => AcceptanceKeepsPlan(s, req, files);
    case _ => OtherKeepsPlan(s, op);
  }

  lemma MutationKeepsPlan(s: State, outcome: Outcome)
    requires PlanHolds(s)
    ensures PlanHolds(Mutated(s, outcome))
    ensures WellProgressed(Steps(s)) ==>
              (WellProgressed(Steps(Mutated(s, outcome))) <==> !Undermines(s, Mutate(outcome)))
  {
    if s.plan.Some? && MayHaveChanged(outcome) {
      var reopened := Reopen(Steps(s), s.validationStep);
      StatusesKeepPlan(reopened, Steps(s));
      StepsKeepPlan(s, reopened);
      if WellProgressed(Steps(s)) {
        ReopenKeepsProgress(Steps(s), s.validationStep);
      }
    }
  }

  lemma VerifyKeepsPlan(s: State, id: string, ok: bool, artifacts: Binding, failed: bool)
    requires PlanHolds(s)
    ensures PlanHolds(Verified(s, id, ok, artifacts, failed))
    ensures WellProgressed(Steps(s)) ==> WellProgressed(Steps(Verified(s, id, ok, artifacts, failed)))
  {
    hide Claimed;
    if s.deliveryOnly {
      if s.plan.Some? {
        SkipKeepsPlan(s);
      }
    } else if ok {
      ClaimKeepsPlan(s.(verification := Some(Proof(id, ok, s.epoch, artifacts))), PlatformClaim(id), artifacts);
    }
  }

  lemma OtherKeepsPlan(s: State, op: Op)
    requires PlanHolds(s) && !op.UpdatePlan?
    ensures PlanHolds(Apply(s, op))
    ensures WellProgressed(Steps(s)) ==> (WellProgressed(Steps(Apply(s, op))) <==> !Undermines(s, op))
  {
    hide WithSteps, Judge, Refreshed, Mutated, Claimed, Verified, StepStarted, PlanInv, WellProgressed, RestsOn;
    match op
    case EnsureStep => ActivateKeepsPlan(s);
    case Mutate(outcome) => MutationKeepsPlan(s, outcome);
    case Verify(id, ok, artifacts, failed) => VerifyKeepsPlan(s, id, ok, artifacts, failed);
    case RecordValidation(claim, snapshot) => ClaimKeepsPlan(s, claim, snapshot);
    case RefreshSteps(present) => RefreshKeepsPlan(s, present);
    case _ =>
  }

  /** Over every run the plan stays sound, with at most one running step and its validation step. */
  lemma {:induction false} RunKeepsPlan(s: State, ops: seq<Op>)
    requires Starts(s)
    ensures PlanHolds(After(s, ops))
    decreases |ops|
  {
    if ops != [] {
      RunKeepsPlan(s, ops[..|ops| - 1]);
      ApplyKeepsPlan(After(s, ops[..|ops| - 1]), ops[|ops| - 1]);
    }
  }

  /** Over every run without such a mutation no step is ever ahead of its dependencies. */
  lemma {:induction false} RunKeepsProgress(s: State, ops: seq<Op>)
    requires Starts(s)
    requires forall k: nat :: k < |ops| ==> !Undermines(After(s, ops[..k]), ops[k])
    ensures WellProgressed(Steps(After(s, ops)))
    decreases |ops|
  {
    if ops != [] {
      var before := ops[..|ops| - 1];
      forall k: nat | k < |before| ensures !Undermines(After(s, before[..k]), before[k]) {
        assert before[..k] == ops[..k];
      }
      RunKeepsProgress(s, before);
      RunKeepsPlan(s, before);
      assert !Undermines(After(s, ops[..|ops| - 1]), ops[|ops| - 1]);
      ApplyKeepsPlan(After(s, before), ops[|ops| - 1]);
    }
  }

  /** In no reachable state is the answer to the step guard that every pending step is blocked. */
  lemma StepsNeverBlocked(s: State, ops: seq<Op>, steps: seq<Step>, r: Activation)
    requires Starts(s) && ActivationOf(Steps(After(s, ops)), steps, r)
    ensures !r.StepBlocked?
  {
    RunKeepsPlan(s, ops);
    var was := Steps(After(s, ops));
    if After(s, ops).plan.Some? {
      NeverBlocked(was, steps, r);
    }
  }

  // ---------- the ledger and the proof over runs ----------

  lemma ApplyGrows(s: State, op: Op)
    ensures s.requirements <= Apply(s, op).requirements
  {
    if op.UpdatePlan? {
      if Judge(Ctx(s), op.req).Ok? {
        AcceptedPlan(Ctx(s), op.req);
      }
    } else {
      OthersKeepLedger(s, op);
    }
  }

  lemma OthersKeepLedger(s: State, op: Op)
    requires !op.UpdatePlan?
    ensures Apply(s, op).requirements == s.requirements
  {
    hide WithSteps, StepStarted, Refreshed, Collected, Mutated, Claimed, Verified;
  }

  /** The requirements ledger only ever grows by appending. */
  lemma {:induction false} RequirementsOnlyGrow(s: State, ops: seq<Op>, k: nat)
    requires k <= |ops|
    ensures After(s, ops[..k]).requirements <= After(s, ops).requirements
    decreases |ops|
  {
    if k == |ops| {
      assert ops[..k] == ops;
    } else {
      var before := ops[..|ops| - 1];
      assert before[..k] == ops[..k];
      RequirementsOnlyGrow(s, before, k);
      ApplyGrows(After(s, before), ops[|ops| - 1]);
    }
  }

  /**
   An operation after which an earlier verification says nothing about the present: a tool that
   may have changed files, collected bytes other than those verified, steps whose files changed,
   an environment upgrade, other requirements, or another verifier run.
   */
  ghost predicate Disturbs(s: State, op: Op) {
    match op
    case Mutate(outcome) => outcome.exitCode.Some? || outcome.started || !outcome.refused
    case Collect(snapshot) =>
      var known := if s.validation.Some? then s.validation.value.artifacts
                   else if s.verification.Some? then s.verification.value.artifacts else s.managed;
      exists path :: path in snapshot && !(path in known && known[path] == snapshot[path])
    case RefreshSteps(files) =>
      && s.plan.Some? && UniqueIds(Steps(s))
      && exists id, path :: id in s.bindings && path in s.bindings[id]
                            && !(path in files && files[path] == s.bindings[id][path])
    case Upgrade => true
    case Verify(_, _, _, _) => !s.deliveryOnly
    case UpdatePlan(req, files) => Planned(s, req, files).requirements != s.requirements
    case _ => false
  }

  // The verifier passed on these artifacts at step `k`, and nothing has disturbed it since.
  ghost predicate PassedAt(s: State, ops: seq<Op>, k: nat, artifacts: Binding) {
    && k < |ops|
    && ops[k].Verify? && ops[k].ok && ops[k].artifacts == artifacts && !After(s, ops[..k]).deliveryOnly
    && forall j :: k < j < |ops| ==> !Disturbs(After(s, ops[..j]), ops[j])
  }

  ghost predicate Passed(s: State, ops: seq<Op>, artifacts: Binding) {
    exists k: nat :: PassedAt(s, ops, k, artifacts)
  }

  ghost predicate ProofHolds(s: State, ops: seq<Op>) {
    var t := After(s, ops);
    && (t.verification.Some? ==> t.verification.value.epoch == t.epoch)
    && (t.verification.Some? && t.verification.value.ok ==> Passed(s, ops, t.verification.value.artifacts))
    && (t.validation.Some? ==>
          && t.verification.Some? && t.verification.value.ok
          && t.validation.value == Validation(t.verification.value.id, t.epoch, t.verification.value.artifacts))
  }

  lemma PassedStays(s: State, ops: seq<Op>, op: Op, artifacts: Binding)
    requires Passed(s, ops, artifacts) && !Disturbs(After(s, ops), op)
    ensures Passed(s, ops + [op], artifacts)
  {
    var k: nat :| PassedAt(s, ops, k, artifacts);
    var more := ops + [op];
    assert more[..k] == ops[..k];
    forall j | k < j < |more| ensures !Disturbs(After(s, more[..j]), more[j]) {
      assert more[..j] == ops[..j];
      assert ops[..|ops|] == ops;
    }
    assert PassedAt(s, more, k, artifacts);
  }

  lemma PassedNow(s: State, ops: seq<Op>, op: Op)
    requires op.Verify? && op.ok && !After(s, ops).deliveryOnly
    ensures Passed(s, ops + [op], op.artifacts)
  {
    var more := ops + [op];
    assert more[..|ops|] == ops;
    assert PassedAt(s, more, |ops|, op.artifacts);
  }

  // What an operation leaves of the proof: it keeps it, clears it, or renews it.
  ghost predicate KeepsProof(t: State, u: State) {
    && u.verification == t.verification && u.epoch == t.epoch
    && (u.validation == t.validation || u.validation.None? ||
          (t.verification.Some? && t.verification.value.ok &&
           u.validation == Some(Validation(t.verification.value.id, t.epoch, t.verification.value.artifacts))))
  }

  ghost predicate ProofStep(t: State, op: Op, u: State) {
    if !Disturbs(t, op) then KeepsProof(t, u)
    else if op.Verify? then
      && u.verification == Some(Proof(op.id, op.ok, t.epoch, op.artifacts)) && u.epoch == t.epoch
      && u.validation == if op.ok then Some(Validation(op.id, t.epoch, op.artifacts)) else None
    else u.verification.None? && u.validation.None?
  }

  lemma ProofAfterVerify(t: State, id: string, ok: bool, artifacts: Binding, failed: bool)
    requires ok ==> artifacts != map[]
    ensures ProofStep(t, Verify(id, ok, artifacts, failed), Verified(t, id, ok, artifacts, failed))
  {
    hide Planned, Refreshed, WithSteps;
  }

  lemma ProofAfterClaim(t: State, claim: Claim, snapshot: Binding)
    ensures KeepsProof(t, Claimed(t, claim, snapshot))
  {
    hide WithSteps;
  }

  lemma AffectedBySeeds(s: State, files: Binding)
    requires s.plan.Some? && UniqueIds(Steps(s))
    ensures AffectedSteps(s, files) != {} <==>
            exists id, path :: id in s.bindings && path in s.bindings[id]
                               && !(path in files && files[path] == s.bindings[id][path])
  {
    var seeds := Seeds(s.bindings, files);
    if id :| id in seeds {
      SeedIsAffected(Dependencies(Steps(s)), seeds, id);
    }
    if id, path :| id in s.bindings && path in s.bindings[id]
                   && !(path in files && files[path] == s.bindings[id][path]) {
      assert Changed(s.bindings[id], files) && id in seeds;
    }
  }

  lemma ProofAfterRefresh(t: State, present: Binding)
    ensures ProofStep(t, RefreshSteps(present), Refreshed(t, present))
  {
    hide WithSteps, Planned, Invalidate, Bind, Affected, AffectedSteps, UniqueIds, Seeds, Changed;
    if t.plan.Some? && UniqueIds(Steps(t)) {
      AffectedBySeeds(t, present);
    }
  }

  lemma ProofAfter(t: State, op: Op)
    requires Possible(op)
    ensures ProofStep(t, op, Apply(t, op))
  {
    hide WithSteps, Judge, StepStarted, Refreshed, Claimed, Verified;
    match op
    case Verify(id, ok, artifacts, failed) => ProofAfterVerify(t, id, ok, artifacts, failed);
    case RecordValidation(claim, snapshot) => ProofAfterClaim(t, claim, snapshot);
    case RefreshSteps(present) => ProofAfterRefresh(t, present);
    case _ =>
  }

  lemma {:induction false} RunKeepsProof(s: State, ops: seq<Op>)
    requires Starts(s) && forall op :: op in ops ==> Possible(op)
    ensures ProofHolds(s, ops)
    decreases |ops|
  {
    if ops != [] {
      var before, op := ops[..|ops| - 1], ops[|ops| - 1];
      assert ops == before + [op];
      RunKeepsProof(s, before);
      var t := After(s, before);
      ProofAfter(t, op);
      if !Disturbs(t, op) {
        if t.verification.Some? && t.verification.value.ok {
          PassedStays(s, before, op, t.verification.value.artifacts);
        }
      } else if op.Verify? && op.ok {
        PassedNow(s, before, op);
      }
    }
  }

  lemma QuietKeepsLedger(s: State, op: Op)
    requires !Disturbs(s, op) || !op.UpdatePlan?
    ensures Apply(s, op).requirements == s.requirements
  {
  }

  lemma {:induction false} RequirementsStay(s: State, ops: seq<Op>, k: nat)
    requires k < |ops| && !ops[k].UpdatePlan?
    requires forall j :: k < j < |ops| ==> !Disturbs(After(s, ops[..j]), ops[j])
    ensures After(s, ops).requirements == After(s, ops[..k]).requirements
    decreases |ops|
  {
    hide Apply, Disturbs;
    var before, op := ops[..|ops| - 1], ops[|ops| - 1];
    assert before[..k] == ops[..k];
    QuietKeepsLedger(After(s, before), op);
    if k == |ops| - 1 {
      assert before == ops[..k];
    } else {
      forall j | k < j < |before| ensures !Disturbs(After(s, before[..j]), before[j]) {
        assert before[..j] == ops[..j];
      }
      RequirementsStay(s, before, k);
    }
  }

  /**
   Finishing is honest.  In full-verification mode, whatever the run, the gate opens only if a
   verifier passed on exactly the current path-to-digest map, and since then nothing that could
   have changed a file was recorded, no collected bytes differed, and the ledger is the same.
   */
  lemma FinishIsHonest(s: State, ops: seq<Op>, current: Binding)
    requires Starts(s) && (forall op :: op in ops ==> Possible(op)) && !After(s, ops).deliveryOnly
    requires FinishBlocker(After(s, ops), current).None?
    ensures exists k: nat ::
              && PassedAt(s, ops, k, current) && current != map[]
              && After(s, ops).requirements == After(s, ops[..k]).requirements
  {
    RunKeepsProof(s, ops);
    var k: nat :| PassedAt(s, ops, k, current);
    assert Possible(ops[k]);
    RequirementsStay(s, ops, k);
  }

  /** The gate is no stricter: right after a passed verifier only plan and skill work can block. */
  lemma VerifiedOutputsPass(s: State, id: string, artifacts: Binding)
    requires artifacts != map[]
    ensures var t := Verified(s, id, true, artifacts, false);
            var blocker := FinishBlocker(t, artifacts);
            blocker.Some? ==> blocker.value in {PlanMissing, SkillsUnread, SkillsIncomplete, StepsIncomplete}
  {
  }
}
