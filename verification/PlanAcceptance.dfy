/** The acceptance of a submitted plan: normalisation of its steps and every check, in order. */
module PlanAcceptance {
  import opened Decimals
  import opened PlanGraph
  import opened Plans
  import opened Wrappers

  // A list-valued field of the submitted JSON object.
  datatype Field = Missing | Malformed | Listed(values: seq<string>)

  datatype SkillField = SkillMissing | SkillMalformed | SkillNone | SkillIs(index: int)

  datatype RawStep =
    | NotAnObject
    | RawStep(id: string, title: string, status: string, evidence: string,
              dependsOn: Field, inputRefs: Field, outputRefs: Field, skill: SkillField)

  datatype Plan = Plan(goal: string, steps: seq<Step>, criteria: seq<string>)

  datatype Request = Request(goal: string, steps: Option<seq<RawStep>>, criteria: Field, validationStep: string)

  datatype PlanError =
    | PlanInvalid | ValidationStepRequired | RequirementRemoved | DependencyInvalid
    | VerificationRequired | DependencyPending

  // What acceptance reads of the execution state; `validated` says that the recorded
  // validation still belongs to the current workspace epoch.
  datatype Context = Context(
    plan: Option<Plan>, validationStep: string, requirements: seq<string>,
    tracking: bool, deliveryOnly: bool, skillCount: nat, validated: bool)

  datatype Accepted = Accepted(plan: Plan, validationStep: string)

  function ParseStatus(status: string): Option<Status> {
    if status == "" || status == "pending" then Some(Pending)
    else if status == "in_progress" then Some(InProgress)
    else if status == "completed" then Some(Completed)
    else if status == "skipped" then Some(Skipped)
    else None
  }

  predicate CleanList(values: seq<string>) {
    && |values| <= 32 && "" !in values
    && forall i, j :: 0 <= i < j < |values| ==> values[i] != values[j]
  }

  // What every accepted step satisfies.
  predicate CleanStep(s: Step, skillCount: nat) {
    && s.id != "" && s.title != ""
    && CleanList(s.dependsOn) && CleanList(s.inputRefs) && CleanList(s.outputRefs)
    && (s.skill.Some? ==> 1 <= s.skill.value <= skillCount)
  }

  function Dedup(values: seq<string>): (r: seq<string>)
    ensures forall v :: v in r <==> v in values
    ensures forall i, j :: 0 <= i < j < |r| ==> r[i] != r[j]
    ensures |r| <= |values|
  {
    if values == [] then [] else
    var rest := Dedup(values[..|values| - 1]);
    if values[|values| - 1] in rest then rest else rest + [values[|values| - 1]]
  }

  function Previous(ctx: Context, id: string): Option<Step> {
    if ctx.plan.Some? && HasId(ctx.plan.value.steps, id) then Some(StepOf(ctx.plan.value.steps, id)) else None
  }

  function FieldValues(field: Field, previous: seq<string>): (r: Option<seq<string>>)
    ensures r.Some? ==> CleanList(r.value)
  {
    var values := if field.Missing? then previous else if field.Listed? then field.values else [""];
    if |values| <= 32 && forall v :: v in values ==> v != "" then Some(Dedup(values)) else None
  }

  function SkillValue(field: SkillField, previous: Option<int>, skillCount: nat): Option<Option<int>> {
    match field
    case SkillMalformed => None
    case SkillNone => Some(None)
    case SkillMissing =>
      if previous.Some? && !(1 <= previous.value <= skillCount) then None else Some(previous)
    case SkillIs(n) => if 1 <= n <= skillCount then Some(Some(n)) else None
  }

  /** One submitted step: fields it omits are taken from the step of the same id in the current plan. */
  function Normalize(ctx: Context, raw: RawStep, position: nat): (r: Option<Step>)
    ensures r.Some? && !ctx.tracking ==> r.value.status == Pending
  {
    if raw.NotAnObject? then None else
    var id := if raw.id == "" then Decimal(position) else raw.id;
    var status := if ctx.tracking then ParseStatus(raw.status) else Some(Pending);
    var was := Previous(ctx, id);
    var deps := FieldValues(raw.dependsOn, if was.Some? then was.value.dependsOn else []);
    var inputs := FieldValues(raw.inputRefs, if was.Some? then was.value.inputRefs else []);
    var outputs := FieldValues(raw.outputRefs, if was.Some? then was.value.outputRefs else []);
    var skill := SkillValue(raw.skill, if was.Some? then was.value.skill else None, ctx.skillCount);
    if raw.title == "" || status.None? || deps.None? || inputs.None? || outputs.None? || skill.None? then None
    else Some(Step(id, raw.title, status.value, if ctx.tracking then raw.evidence else "",
                   deps.value, inputs.value, outputs.value, skill.value))
  }

  // The first `n` steps, as far as every one of them is acceptable and its id new.
  function NormalizeAll(ctx: Context, raw: seq<RawStep>, n: nat): (r: Option<seq<Step>>)
    requires n <= |raw|
    ensures r.Some? ==> |r.value| == n && UniqueIds(r.value)
    ensures r.Some? && !ctx.tracking ==> forall i :: 0 <= i < n ==> r.value[i].status == Pending
  {
    if n == 0 then Some([]) else
    var before := NormalizeAll(ctx, raw, n - 1);
    var step := Normalize(ctx, raw[n - 1], n);
    if before.None? || step.None? || HasId(before.value, step.value.id) then None
    else Some(before.value + [step.value])
  }

  function NonEmpty(values: seq<string>): seq<string> {
    if values == [] then []
    else if values[|values| - 1] == "" then NonEmpty(values[..|values| - 1])
    else NonEmpty(values[..|values| - 1]) + [values[|values| - 1]]
  }

  predicate AtMostOneRunning(steps: seq<Step>) {
    forall i, j :: 0 <= i < j < |steps| ==> !(steps[i].status == InProgress && steps[j].status == InProgress)
  }

  function Goal(ctx: Context, req: Request): string {
    if req.goal == "" && ctx.plan.Some? then ctx.plan.value.goal else req.goal
  }

  function Criteria(ctx: Context, req: Request): Field {
    if !req.criteria.Missing? then req.criteria
    else if ctx.plan.Some? then Listed(ctx.plan.value.criteria)
    else Malformed
  }

  function ValidationStep(ctx: Context, req: Request): string {
    if req.validationStep == "" then ctx.validationStep else req.validationStep
  }

  predicate WellFormed(ctx: Context, req: Request) {
    && Goal(ctx, req) != "" && |Goal(ctx, req)| <= 800
    && req.steps.Some? && 2 <= |req.steps.value| <= 8
    && Criteria(ctx, req).Listed? && 1 <= |Criteria(ctx, req).values| <= 8
  }

  /** The verdict on a submitted plan, with the dependency check stated by its meaning. */
  ghost function Judge(ctx: Context, req: Request): Result<Accepted, PlanError> {
    if !WellFormed(ctx, req) then Err(PlanInvalid) else
    var normal := NormalizeAll(ctx, req.steps.value, |req.steps.value|);
    if normal.None? || !AtMostOneRunning(normal.value) then Err(PlanInvalid) else
    JudgeSteps(ctx, req, normal.value)
  }

  ghost function JudgeSteps(ctx: Context, req: Request, steps: seq<Step>): Result<Accepted, PlanError>
    requires WellFormed(ctx, req)
  {
    var criteria := NonEmpty(Criteria(ctx, req).values);
    var validation := ValidationStep(ctx, req);
    if !HasId(steps, validation) then Err(ValidationStepRequired)
    else if criteria == [] then Err(PlanInvalid)
    else if !(ctx.requirements <= criteria) then Err(RequirementRemoved)
    else if !Sound(Dependencies(steps)) then Err(DependencyInvalid)
    else if NeedsVerification(ctx, StepOf(steps, validation).status, criteria) then Err(VerificationRequired)
    else if !WellProgressed(steps) then Err(DependencyPending)
    else Ok(Accepted(Plan(Goal(ctx, req), steps, criteria), validation))
  }

  // A settled verification step needs a current validation and may not be skipped.
  predicate NeedsVerification(ctx: Context, status: Status, criteria: seq<string>) {
    && !ctx.deliveryOnly && Settled(status)
    && (!ctx.validated || criteria != ctx.requirements || status == Skipped)
  }

  method Accept(ctx: Context, req: Request) returns (r: Result<Accepted, PlanError>)
    ensures r == Judge(ctx, req)
  {
    if !WellFormed(ctx, req) {
      return Err(PlanInvalid);
    }
    var steps: seq<Step> := [];
    var running := 0;
    for n := 0 to |req.steps.value|
      invariant NormalizeAll(ctx, req.steps.value, n) == Some(steps)
      invariant running == Running(steps)
    {
      var step := Normalize(ctx, req.steps.value[n], n + 1);
      if step.None? || HasId(steps, step.value.id) {
        NormalizeStops(ctx, req.steps.value, n + 1, |req.steps.value|);
        return Err(PlanInvalid);
      }
      if step.value.status == InProgress {
        running := running + 1;
      }
      assert (steps + [step.value])[..n] == steps;
      steps := steps + [step.value];
    }
    RunningBound(steps);
    if running > 1 {
      return Err(PlanInvalid);
    }
    r := AcceptSteps(ctx, req, steps);
  }

  lemma IdsAreNodes(steps: seq<Step>, ids: seq<string>)
    requires UniqueIds(steps) && |ids| == |steps| && forall i :: 0 <= i < |steps| ==> ids[i] == steps[i].id
    ensures forall a :: a in ids <==> a in Dependencies(steps)
  {
    forall a ensures a in ids <==> a in Dependencies(steps) {
      if a in Dependencies(steps) {
        var i :| 0 <= i < |steps| && steps[i].id == a;
        assert ids[i] == a;
      }
    }
  }

  method AcceptSteps(ctx: Context, req: Request, steps: seq<Step>) returns (r: Result<Accepted, PlanError>)
    requires WellFormed(ctx, req) && UniqueIds(steps)
    ensures r == JudgeSteps(ctx, req, steps)
  {
    var validation := ValidationStep(ctx, req);
    if !HasId(steps, validation) {
      return Err(ValidationStepRequired);
    }
    var criteria := NonEmpty(Criteria(ctx, req).values);
    if criteria == [] {
      return Err(PlanInvalid);
    }
    if !(ctx.requirements <= criteria) {
      return Err(RequirementRemoved);
    }
    var visitor := new Visitor(Dependencies(steps));
    var ids := seq(|steps|, i requires 0 <= i < |steps| => steps[i].id);
    IdsAreNodes(steps, ids);
    var sound := visitor.VisitAll(ids);
    if !sound {
      return Err(DependencyInvalid);
    }
    if NeedsVerification(ctx, StepOf(steps, validation).status, criteria) {
      return Err(VerificationRequired);
    }
    for i := 0 to |steps|
      invariant forall j :: 0 <= j < i && (steps[j].status == InProgress || steps[j].status == Completed) ==>
                  DependenciesSettled(steps, steps[j])
    {
      if (steps[i].status == InProgress || steps[i].status == Completed) && !DependenciesSettled(steps, steps[i]) {
        return Err(DependencyPending);
      }
    }
    r := Ok(Accepted(Plan(Goal(ctx, req), steps, criteria), validation));
  }

  lemma {:induction false} NormalizeStops(ctx: Context, raw: seq<RawStep>, n: nat, m: nat)
    requires n <= m <= |raw| && NormalizeAll(ctx, raw, n).None?
    ensures NormalizeAll(ctx, raw, m).None?
    decreases m
  {
    if n < m {
      NormalizeStops(ctx, raw, n, m - 1);
    }
  }

  function Running(steps: seq<Step>): nat {
    if steps == [] then 0
    else Running(steps[..|steps| - 1]) + (if steps[|steps| - 1].status == InProgress then 1 else 0)
  }

  lemma {:induction false} RunningBound(steps: seq<Step>)
    ensures Running(steps) <= 1 <==> AtMostOneRunning(steps)
    ensures Running(steps) == 0 <==> forall i :: 0 <= i < |steps| ==> steps[i].status != InProgress
    decreases |steps|
  {
    if steps != [] {
      RunningBound(steps[..|steps| - 1]);
    }
  }

  /**
   Accepted plans: the graph is sound, at most one step runs, progress respects the
   dependencies, requirements are only ever appended to, and in full-verification mode the
   verification step is settled only by a current validation of the same requirements.
   */
  lemma AcceptedPlan(ctx: Context, req: Request)
    requires Judge(ctx, req).Ok?
    ensures var a := Judge(ctx, req).value;
            && PlanInv(a.plan.steps) && WellProgressed(a.plan.steps)
            && ctx.requirements <= a.plan.criteria && a.plan.criteria != []
            && HasId(a.plan.steps, a.validationStep)
            && (!ctx.tracking ==> forall i :: 0 <= i < |a.plan.steps| ==> a.plan.steps[i].status == Pending)
            && (!ctx.deliveryOnly && Settled(StepOf(a.plan.steps, a.validationStep).status) ==>
                  ctx.validated && a.plan.criteria == ctx.requirements)
  {
    hide Normalize, Goal, Criteria, ValidationStep, NonEmpty, WellFormed, Sound, WellProgressed;
  }

  /** Well-formed plans are refused for their dependencies exactly when the graph is not sound. */
  lemma DependencyVerdictIsExact(ctx: Context, req: Request, steps: seq<Step>)
    requires WellFormed(ctx, req) && UniqueIds(steps)
    requires HasId(steps, ValidationStep(ctx, req))
    requires NonEmpty(Criteria(ctx, req).values) != [] && ctx.requirements <= NonEmpty(Criteria(ctx, req).values)
    ensures JudgeSteps(ctx, req, steps) == Err(DependencyInvalid) <==>
            || (exists a, d :: Edge(Dependencies(steps), a, d) && !HasId(steps, d))
            || (exists p :: Cycle(Dependencies(steps), p))
  {
    forall d ensures d in Dependencies(steps) <==> HasId(steps, d) {
    }
  }

  /** What a normalised step is, field by field. */
  lemma NormalizedFields(ctx: Context, raw: RawStep, position: nat)
    requires Normalize(ctx, raw, position).Some?
    ensures var id := if raw.id == "" then Decimal(position) else raw.id;
            var s, was := Normalize(ctx, raw, position).value, Previous(ctx, id);
            && raw.RawStep? && raw.title != "" && s.title == raw.title
            && s.id == (if raw.id == "" then Decimal(position) else raw.id)
            && (!ctx.tracking ==> s.status == Pending && s.evidence == "")
            && (ctx.tracking ==>
                  && s.evidence == raw.evidence && raw.status in {"", StatusText(s.status)}
                  && (raw.status == "" ==> s.status == Pending))
            && (raw.dependsOn.Missing? && was.None? ==> s.dependsOn == [])
            && (raw.inputRefs.Missing? && was.None? ==> s.inputRefs == [])
            && (raw.outputRefs.Missing? && was.None? ==> s.outputRefs == [])
            && (raw.dependsOn.Listed? ==> forall v :: v in s.dependsOn <==> v in raw.dependsOn.values)
            && (raw.inputRefs.Listed? ==> forall v :: v in s.inputRefs <==> v in raw.inputRefs.values)
            && (raw.outputRefs.Listed? ==> forall v :: v in s.outputRefs <==> v in raw.outputRefs.values)
            && !raw.dependsOn.Malformed? && !raw.inputRefs.Malformed? && !raw.outputRefs.Malformed?
            && s.skill == (match raw.skill
                           case SkillIs(n) => Some(n)
                           case SkillMissing => if was.Some? then was.value.skill else None
                           case _ => None)
            && !raw.skill.SkillMalformed?
  {
    hide Previous, Decimal, FieldValues, ParseStatus, CleanList, SkillValue;
    var was := Previous(ctx, if raw.id == "" then Decimal(position) else raw.id);
    if raw.RawStep? {
      StatusOfText(raw.status);
      FieldIs(raw.dependsOn, if was.Some? then was.value.dependsOn else []);
      FieldIs(raw.inputRefs, if was.Some? then was.value.inputRefs else []);
      FieldIs(raw.outputRefs, if was.Some? then was.value.outputRefs else []);
      SkillIsField(raw.skill, if was.Some? then was.value.skill else None, ctx.skillCount);
    }
  }

  lemma StatusOfText(text: string)
    ensures ParseStatus(text).Some? ==>
              text in {"", StatusText(ParseStatus(text).value)} && (text == "" ==> ParseStatus(text).value == Pending)
  {
  }

  lemma FieldIs(field: Field, previous: seq<string>)
    ensures var r := FieldValues(field, previous);
            r.Some? ==>
              && !field.Malformed? && (field.Missing? && previous == [] ==> r.value == [])
              && (field.Listed? ==> forall v :: v in r.value <==> v in field.values)
    ensures field.Listed? ==> (FieldValues(field, previous).None? <==> |field.values| > 32 || "" in field.values)
  {
  }

  /** Every step is normalised in its place, and a step that repeats an id spoils the list. */
  lemma {:induction false} NormalizedInOrder(ctx: Context, raw: seq<RawStep>, n: nat)
    requires n <= |raw|
    ensures var r := NormalizeAll(ctx, raw, n);
            && (r.Some? ==>
                  |r.value| == n && forall i :: 0 <= i < n ==> Normalize(ctx, raw[i], i + 1) == Some(r.value[i]))
            && (r.None? ==>
                  || (exists i :: 0 <= i < n && Normalize(ctx, raw[i], i + 1).None?)
                  || exists i, j :: 0 <= i < j < n && Normalize(ctx, raw[i], i + 1).Some?
                                    && Normalize(ctx, raw[j], j + 1).Some?
                                    && Normalize(ctx, raw[i], i + 1).value.id == Normalize(ctx, raw[j], j + 1).value.id)
    decreases n
  {
    hide Normalize;
    if n > 0 {
      NormalizedInOrder(ctx, raw, n - 1);
      var before, step := NormalizeAll(ctx, raw, n - 1), Normalize(ctx, raw[n - 1], n);
      if before.Some? && step.Some? && HasId(before.value, step.value.id) {
        var i :| 0 <= i < n - 1 && before.value[i].id == step.value.id;
        assert Normalize(ctx, raw[i], i + 1).value.id == Normalize(ctx, raw[n - 1], n - 1 + 1).value.id;
      }
    }
  }

  lemma SkillIsField(field: SkillField, previous: Option<int>, skillCount: nat)
    ensures var r := SkillValue(field, previous, skillCount);
            r.Some? ==>
              && !field.SkillMalformed?
              && r.value == match field { case SkillIs(n) => Some(n) case SkillMissing => previous case _ => None }
  {
  }

  // A completed or running step has a dependency that is neither completed nor skipped.
  predicate RunsAhead(steps: seq<Step>) {
    exists i, d ::
      && 0 <= i < |steps| && (steps[i].status == InProgress || steps[i].status == Completed) && d in steps[i].dependsOn
      && forall j :: 0 <= j < |steps| && steps[j].id == d ==>
           steps[j].status == Pending || steps[j].status == InProgress
  }

  lemma RunsAheadIff(steps: seq<Step>)
    requires UniqueIds(steps)
    ensures WellProgressed(steps) <==> !RunsAhead(steps)
  {
    if !WellProgressed(steps) {
      var i :| 0 <= i < |steps| && (steps[i].status == InProgress || steps[i].status == Completed)
               && !DependenciesSettled(steps, steps[i]);
      var d :| d in steps[i].dependsOn && !(HasId(steps, d) && StatusIs(steps, d, true));
    }
  }

  /** The verdict on normalised steps, reason by reason and in their order. */
  lemma VerdictIsExact(ctx: Context, req: Request, steps: seq<Step>, v: nat)
    requires WellFormed(ctx, req) && UniqueIds(steps)
    requires v < |steps| ==>
               steps[v].id == (if req.validationStep == "" then ctx.validationStep else req.validationStep)
    requires v >= |steps| ==> v == |steps| && forall i :: 0 <= i < |steps| ==>
               steps[i].id != (if req.validationStep == "" then ctx.validationStep else req.validationStep)
    ensures var r, criteria := JudgeSteps(ctx, req, steps), NonEmpty(Criteria(ctx, req).values);
            var kept, sound := ctx.requirements <= criteria, Sound(Dependencies(steps));
            var found, stated := v < |steps|, criteria != [];
            var unproved := found && !ctx.deliveryOnly
                            && (|| steps[v].status == Skipped
                                || (steps[v].status == Completed && !(ctx.validated && criteria == ctx.requirements)));
            && (r == Err(ValidationStepRequired) <==> !found)
            && (r == Err(PlanInvalid) <==> found && !stated)
            && (r == Err(RequirementRemoved) <==> found && stated && !kept)
            && (r == Err(DependencyInvalid) <==> found && stated && kept && !sound)
            && (r == Err(VerificationRequired) <==> found && stated && kept && sound && unproved)
            && (r == Err(DependencyPending) <==>
                  found && stated && kept && sound && !unproved && RunsAhead(steps))
            && (r.Ok? <==> found && stated && kept && sound && !unproved && !RunsAhead(steps))
            && (r.Ok? ==> r.value.validationStep == steps[v].id && r.value.plan.steps == steps
                          && r.value.plan.criteria == criteria
                          && (req.goal != "" ==> r.value.plan.goal == req.goal)
                          && (req.goal == "" ==> ctx.plan.Some? && r.value.plan.goal == ctx.plan.value.goal))
  {
    hide Sound, WellProgressed, RunsAhead, NonEmpty, Criteria, UniqueIds;
    RunsAheadIff(steps);
    if v < |steps| {
      StepOfUnique(steps, v);
    }
  }

  /** A submission is refused as invalid before any other check exactly for its shape. */
  lemma ShapeIsExact(ctx: Context, req: Request)
    ensures var goal := if req.goal == "" && ctx.plan.Some? then ctx.plan.value.goal else req.goal;
            var criteria := if !req.criteria.Missing? then req.criteria
                            else if ctx.plan.Some? then Listed(ctx.plan.value.criteria) else Malformed;
            var shape := && 1 <= |goal| <= 800 && req.steps.Some? && 2 <= |req.steps.value| <= 8
                         && criteria.Listed? && 1 <= |criteria.values| <= 8;
            && (WellFormed(ctx, req) <==> shape) && Criteria(ctx, req) == criteria
            && (!shape ==> Judge(ctx, req) == Err(PlanInvalid))
            && (shape ==>
                  var normal := NormalizeAll(ctx, req.steps.value, |req.steps.value|);
                  Judge(ctx, req)
                  == if normal.Some? && forall i, j :: 0 <= i < j < |normal.value| ==>
                           !(normal.value[i].status == InProgress && normal.value[j].status == InProgress)
                     then JudgeSteps(ctx, req, normal.value) else Err(PlanInvalid))
  {
  }

  // ---------- resubmission ----------

  function StatusText(status: Status): string {
    match status
    case Pending => "pending"
    case InProgress => "in_progress"
    case Completed => "completed"
    case Skipped => "skipped"
  }

  lemma {:induction false} DedupOfDistinct(values: seq<string>)
    requires forall i, j :: 0 <= i < j < |values| ==> values[i] != values[j]
    ensures Dedup(values) == values
    decreases |values|
  {
    if values != [] {
      DedupOfDistinct(values[..|values| - 1]);
      assert values == values[..|values| - 1] + [values[|values| - 1]];
    }
  }

  lemma OmittedFieldIsKept(values: seq<string>)
    requires CleanList(values)
    ensures FieldValues(Missing, values) == Some(values)
  {
    DedupOfDistinct(values);
  }

  lemma NormalizedIsClean(ctx: Context, raw: RawStep, position: nat)
    requires Normalize(ctx, raw, position).Some?
    ensures CleanStep(Normalize(ctx, raw, position).value, ctx.skillCount)
  {
    hide CleanList, FieldValues, Previous, ParseStatus, Decimal;
  }

  /** Every step of an accepted plan is clean. */
  lemma {:induction false} AcceptedStepsAreClean(ctx: Context, raw: seq<RawStep>, n: nat)
    requires n <= |raw| && NormalizeAll(ctx, raw, n).Some?
    ensures forall i :: 0 <= i < n ==> CleanStep(NormalizeAll(ctx, raw, n).value[i], ctx.skillCount)
    decreases n
  {
    hide Normalize, CleanStep;
    if n > 0 {
      AcceptedStepsAreClean(ctx, raw, n - 1);
      NormalizedIsClean(ctx, raw[n - 1], n);
    }
  }

  // A step repeated by its id, title, status and evidence, everything else omitted.
  function Repeated(s: Step): RawStep {
    RawStep(s.id, s.title, StatusText(s.status), s.evidence, Missing, Missing, Missing, SkillMissing)
  }

  // A submission that repeats every step of the current plan.
  predicate Repeats(ctx: Context, raw: seq<RawStep>) {
    && ctx.tracking && ctx.plan.Some? && UniqueIds(ctx.plan.value.steps)
    && (forall i :: 0 <= i < |ctx.plan.value.steps| ==> CleanStep(ctx.plan.value.steps[i], ctx.skillCount))
    && |raw| == |ctx.plan.value.steps|
    && forall i :: 0 <= i < |raw| ==> raw[i] == Repeated(ctx.plan.value.steps[i])
  }

  lemma RepeatedStepIsKept(ctx: Context, s: Step, position: nat)
    requires ctx.tracking && CleanStep(s, ctx.skillCount) && Previous(ctx, s.id) == Some(s)
    ensures Normalize(ctx, Repeated(s), position) == Some(s)
  {
    OmittedFieldIsKept(s.dependsOn);
    OmittedFieldIsKept(s.inputRefs);
    OmittedFieldIsKept(s.outputRefs);
    hide FieldValues, CleanList, Previous, Decimal;
  }

  lemma RepeatedAt(ctx: Context, raw: seq<RawStep>, n: nat)
    requires Repeats(ctx, raw) && 0 < n <= |raw|
    ensures ctx.plan.Some? && n <= |ctx.plan.value.steps|
    ensures var steps := ctx.plan.value.steps;
            && Normalize(ctx, raw[n - 1], n) == Some(steps[n - 1])
            && !HasId(steps[..n - 1], steps[n - 1].id)
            && steps[..n] == steps[..n - 1] + [steps[n - 1]]
  {
    hide CleanStep, Normalize;
    StepOfUnique(ctx.plan.value.steps, n - 1);
    RepeatedStepIsKept(ctx, ctx.plan.value.steps[n - 1], n);
  }

  /** Repeating the current plan with everything else omitted changes none of its steps. */
  lemma {:induction false} ResubmissionKeepsSteps(ctx: Context, raw: seq<RawStep>, n: nat)
    requires Repeats(ctx, raw) && n <= |raw|
    ensures NormalizeAll(ctx, raw, n) == Some(ctx.plan.value.steps[..n])
    decreases n
  {
    hide Repeats, Normalize, HasId;
    if n > 0 {
      RepeatedAt(ctx, raw, n);
      ResubmissionKeepsSteps(ctx, raw, n - 1);
    }
  }

  // ---------- submission in full ----------

  // A step with every field written out.
  function Written(s: Step): RawStep {
    RawStep(s.id, s.title, StatusText(s.status), s.evidence,
            Listed(s.dependsOn), Listed(s.inputRefs), Listed(s.outputRefs),
            if s.skill.Some? then SkillIs(s.skill.value) else SkillNone)
  }

  function Submission(plan: Plan, validation: string): Request {
    Request(plan.goal, Some(seq(|plan.steps|, i requires 0 <= i < |plan.steps| => Written(plan.steps[i]))),
            Listed(plan.criteria), validation)
  }

  // What a plan must be in itself, and against the current state, to be accepted as it is.
  ghost predicate Acceptable(ctx: Context, plan: Plan, validation: string) {
    && plan.goal != "" && |plan.goal| <= 800
    && 2 <= |plan.steps| <= 8 && PlanInv(plan.steps) && WellProgressed(plan.steps)
    && 1 <= |plan.criteria| <= 8 && "" !in plan.criteria && ctx.requirements <= plan.criteria
    && HasId(plan.steps, validation)
    && !NeedsVerification(ctx, StepOf(plan.steps, validation).status, plan.criteria)
  }

  predicate CleanSteps(ctx: Context, steps: seq<Step>) {
    forall i :: 0 <= i < |steps| ==> CleanStep(steps[i], ctx.skillCount)
  }

  lemma GivenFieldIsKept(values: seq<string>, previous: seq<string>)
    requires CleanList(values)
    ensures FieldValues(Listed(values), previous) == Some(values)
  {
    DedupOfDistinct(values);
  }

  lemma WrittenStepIsKept(ctx: Context, s: Step, position: nat)
    requires ctx.tracking && CleanStep(s, ctx.skillCount)
    ensures Normalize(ctx, Written(s), position) == Some(s)
  {
    hide FieldValues, CleanList, Previous, Decimal;
    GivenFieldIsKept(s.dependsOn, if Previous(ctx, s.id).Some? then Previous(ctx, s.id).value.dependsOn else []);
    GivenFieldIsKept(s.inputRefs, if Previous(ctx, s.id).Some? then Previous(ctx, s.id).value.inputRefs else []);
    GivenFieldIsKept(s.outputRefs, if Previous(ctx, s.id).Some? then Previous(ctx, s.id).value.outputRefs else []);
  }

  lemma {:induction false} WrittenStepsAreKept(ctx: Context, plan: Plan, validation: string, n: nat)
    requires ctx.tracking && CleanSteps(ctx, plan.steps) && n <= |plan.steps|
    ensures NormalizeAll(ctx, Submission(plan, validation).steps.value, n)
            == if UniqueIds(plan.steps[..n]) then Some(plan.steps[..n]) else None
    decreases n
  {
    hide Normalize, CleanStep, Written;
    if n > 0 {
      WrittenStepsAreKept(ctx, plan, validation, n - 1);
      WrittenStepIsKept(ctx, plan.steps[n - 1], n);
      IdsStayUnique(plan.steps[..n - 1], plan.steps[n - 1]);
      assert plan.steps[..n] == plan.steps[..n - 1] + [plan.steps[n - 1]];
    }
  }

  lemma IdsStayUnique(steps: seq<Step>, step: Step)
    ensures UniqueIds(steps + [step]) <==> UniqueIds(steps) && !HasId(steps, step.id)
  {
    var more := steps + [step];
    assert forall i :: 0 <= i < |steps| ==> more[i] == steps[i];
    if HasId(steps, step.id) {
      var i :| 0 <= i < |steps| && steps[i].id == step.id;
      assert more[i].id == more[|steps|].id;
    }
  }

  lemma {:induction false} NothingEmpty(values: seq<string>)
    ensures |NonEmpty(values)| <= |values|
    ensures NonEmpty(values) == values <==> "" !in values
    ensures forall v :: v in NonEmpty(values) <==> v in values && v != ""
    decreases |values|
  {
    if values != [] {
      var before := values[..|values| - 1];
      NothingEmpty(before);
      assert values == before + [values[|values| - 1]];
    }
  }

  /** A clean plan submitted in full is accepted, exactly as it is, if and only if it is acceptable. */
  lemma SubmittedPlanIsAccepted(ctx: Context, plan: Plan, validation: string)
    requires ctx.tracking && CleanSteps(ctx, plan.steps)
    ensures Judge(ctx, Submission(plan, validation)) == Ok(Accepted(plan, validation))
            <==> Acceptable(ctx, plan, validation)
  {
    hide Normalize, NormalizeAll, CleanStep, Written, NonEmpty, NeedsVerification, Sound, WellProgressed, HasId,
         UniqueIds;
    WrittenStepsAreKept(ctx, plan, validation, |plan.steps|);
    assert plan.steps[..|plan.steps|] == plan.steps;
    NothingEmpty(plan.criteria);
    assert plan.criteria != [] && "" !in plan.criteria ==> NonEmpty(plan.criteria) != [];
    NoStepIsNameless(ctx, plan.steps);
    assert |Submission(plan, validation).steps.value| == |plan.steps|;
  }

  lemma NoStepIsNameless(ctx: Context, steps: seq<Step>)
    requires CleanSteps(ctx, steps)
    ensures !HasId(steps, "")
  {
    hide CleanList;
    assert forall i :: 0 <= i < |steps| ==> CleanStep(steps[i], ctx.skillCount);
  }

  /** The files bound to completed steps: present paths are refreshed, absent ones keep their old digest. */
  function Bind(steps: seq<Step>, files: Binding, was: map<string, Binding>): (r: map<string, Binding>)
    ensures forall id :: id in r ==> exists i :: 0 <= i < |steps| && steps[i].id == id && steps[i].status == Completed
  {
    map id | id in (set i | 0 <= i < |steps| && steps[i].status == Completed :: steps[i].id) ::
      BindStep(StepOf(steps, id), files, if id in was then was[id] else map[])
  }

  /** What a step is bound to: only a completed one, and by its id. */
  lemma BindingFields(steps: seq<Step>, files: Binding, was: map<string, Binding>, i: nat, path: string)
    requires UniqueIds(steps) && i < |steps|
    ensures var r, id := Bind(steps, files, was), steps[i].id;
            var known := id in was && path in was[id];
            && (id in r <==> steps[i].status == Completed)
            && (id in r ==>
                  && (path in r[id] <==>
                        (path in steps[i].inputRefs || path in steps[i].outputRefs) && (path in files || known))
                  && (path in r[id] ==> r[id][path] == if path in files then files[path] else was[id][path]))
  {
    StepOfUnique(steps, i);
  }

  function BindStep(step: Step, files: Binding, was: Binding): (r: Binding)
    ensures forall path :: path in r <==>
              (path in step.inputRefs || path in step.outputRefs) && (path in files || path in was)
    ensures forall path :: path in r ==> r[path] == if path in files then files[path] else was[path]
  {
    map path |
      path in (set x | x in step.inputRefs) + (set x | x in step.outputRefs) && (path in files || path in was) ::
      if path in files then files[path] else was[path]
  }
}
