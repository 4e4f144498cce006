/**
 The execution state as the agent loop holds it: one object whose methods update its fields.
 Each method is the effect that `AgentState`, `ObservationCache` or `ReferenceShelf` gives it.
 */
module AgentPolicy {
  import opened AgentState
  import opened PlanAcceptance
  import opened Plans
  import opened Wrappers
  import Cache = ObservationCache
  import Encoding
  import Shelf = ReferenceShelf
  import SkillPhases
  import Text = TextWindows

  // The answer of the step guard before a mutating tool.
  datatype Guard = SkillFlow | PlanRequired | Outline | Tracked(activation: Activation)

  datatype Tool = WriteFile(path: Text.Path) | Command | RunPython

  class AgentExecutionState {
    // The fields a checkpoint carries.
    var state: State
    // The two observation caches, which no checkpoint carries, and the pinned references.
    var stable: Cache.Cache
    var recent: map<(nat, Cache.Observation), Cache.Payload>
    var shelf: Shelf.Shelf

    ghost predicate Valid()
      reads this
    {
      && PlanHolds(state)
      && !Cache.Over(stable) && Cache.ListingsAreOpaque(stable)
      && (forall k :: k in recent ==> k.0 == state.epoch)
      && Shelf.Valid(shelf)
    }

    constructor (skillCount: nat, ordered: bool, tracking: bool, planRequired: bool, deliveryOnly: bool)
      ensures Valid() && state == Initial(skillCount, ordered, tracking, planRequired, deliveryOnly)
      ensures state.plan == None && state.validation == None && state.verification == None
      ensures state.requirements == [] && state.completed == {} && state.epoch == 0 && state.failures == 0
      ensures state.loaded == (if skillCount == 1 then {1} else {}) && state.bindings == map[] && state.managed == map[]
      ensures stable == [] && recent == map[] && shelf == []
    {
      state := Initial(skillCount, ordered, tracking, planRequired, deliveryOnly);
      stable, recent, shelf := [], map[], [];
    }

    method UpdatePlan(req: Request, files: Option<Binding>) returns (r: Result<Accepted, PlanError>)
      requires Valid()
      modifies this
      ensures Valid()
      ensures r == Judge(old(Ctx(state)), req) && state == Planned(old(state), req, files)
      ensures stable == old(stable) && recent == old(recent) && shelf == old(shelf)
    {
      hide PlanStands, Shelf.Valid, Judge, Adopt;
      r := Accept(Ctx(state), req);
      AcceptanceKeepsPlan(state, req, files);
      if r.Ok? {
        state := Adopt(state, r.value, files);
      }
    }

    method EnsureActiveStep() returns (r: Guard)
      requires Valid()
      modifies this`state
      ensures Valid() && state == StepStarted(old(state))
      ensures r.SkillFlow? <==> state.plan.None? && !state.planRequired
      ensures r.PlanRequired? <==> state.plan.None? && state.planRequired
      ensures r.Outline? <==> state.plan.Some? && !state.tracking
      ensures r.Tracked? ==> ActivationOf(Steps(old(state)), Steps(state), r.activation) && !r.activation.StepBlocked?
    {
      if state.plan.None? {
        return if state.planRequired then PlanRequired else SkillFlow;
      }
      if !state.tracking {
        return Outline;
      }
      ActivateKeepsPlan(state);
      var steps, activation := EnsureActive(state.plan.value.steps);
      NeverBlocked(state.plan.value.steps, steps, activation);
      state := state.(plan := Some(state.plan.value.(steps := steps)));
      r := Tracked(activation);
    }

    /** A recorded workspace tool: whatever may have changed files ends every earlier proof. */
    method RecordMutation(tool: Tool, outcome: Outcome)
      requires Valid()
      modifies this
      ensures Valid() && state == Mutated(old(state), outcome) && shelf == old(shelf)
      ensures var changed := outcome.exitCode.Some? || outcome.started || !outcome.refused;
              && recent == (if changed then map[] else old(recent))
              && (!changed ==> state == old(state) && stable == old(stable))
              && (changed ==> state.verification == None && state.validation == None
                              && state.epoch == old(state).epoch + 1)
              && (changed && !tool.WriteFile? ==> stable == [])
              && (changed && tool.WriteFile? ==>
                    forall e :: e in stable <==>
                      && e in old(stable) && e.key.path != tool.path
                      && !(e.key.ListKey? && e.key.path <= tool.path))
    {
      hide PlanStands, Shelf.Valid, Reopen, Cache.Doomed, Cache.Invalidate, Cache.Over, Cache.ListingsAreOpaque;
      if tool.WriteFile? {
        Cache.InvalidateIsBounded(stable, tool.path);
      }
      Cache.NothingIsBounded();
      MutationOutcome(state, outcome);
      MutationKeepsPlan(state, outcome);
      if MayHaveChanged(outcome) {
        state := state.(epoch := state.epoch + 1, validation := None, verification := None);
        recent := map[];
        if tool.WriteFile? {
          stable := Cache.InvalidatePath(stable, tool.path);
        } else {
          stable := [];
        }
        if state.plan.Some? {
          var reopened := Reopen(state.plan.value.steps, state.validationStep);
          state := state.(plan := Some(state.plan.value.(steps := reopened)));
        }
      }
    }

    /** A recorded observation is remembered for this state.epoch and across unrelated writes. */
    method RecordObservation(o: Cache.Observation, payload: Cache.Payload)
      requires Valid() && (o.ListFiles? ==> payload.Opaque?)
      modifies this`recent, this`stable
      ensures Valid()
      ensures recent == old(recent)[(state.epoch, o) := payload] && stable == Cache.Note(old(stable), o, payload)
    {
      hide PlanHolds, Shelf.Valid, Cache.Over, Cache.ListingsAreOpaque;
      Cache.NoteIsBounded(stable, o, payload);
      recent := recent[(state.epoch, o) := payload];
      stable := Cache.NoteStable(stable, o, payload);
    }

    /** What a repeated observation is answered with, before the sandbox is asked. */
    method Reuse(o: Cache.Observation, allowEof: bool) returns (r: Option<Cache.Payload>)
      ensures r == if (state.epoch, o) in recent then Some(recent[(state.epoch, o)])
                   else Cache.Lookup(stable, o, allowEof)
    {
      if (state.epoch, o) in recent {
        return Some(recent[(state.epoch, o)]);
      }
      r := Cache.StableCachedObservation(stable, o, allowEof);
    }

    /** Serving a window of a pinned reference refreshes only its recency. */
    method ReferenceCached(path: Text.Path, offset: nat, limit: nat) returns (r: Option<Text.Window>)
      requires Valid()
      modifies this`shelf
      ensures Valid() && shelf == Shelf.Touch(old(shelf), path)
      ensures forall e :: e in shelf <==> e in old(shelf)
      ensures match r
              case None => !Shelf.Holds(old(shelf), path)
              case Some(w) =>
                exists text :: Shelf.Entry(path, text) in old(shelf) && w == Text.TextWindow(text, offset, limit)
    {
      Shelf.LookupIsEntry(shelf, path);
      Shelf.TouchKeepsShelf(shelf, path);
      var found := Shelf.Lookup(shelf, path);
      if found.None? {
        return None;
      }
      shelf := Shelf.Without(shelf, path) + [Shelf.Entry(path, found.value)];
      r := Some(Text.TextWindow(found.value, offset, limit));
    }

    method ReferencePin(path: Text.Path, text: string, offset: nat, limit: nat, eof: Option<bool>)
      returns (pinned: bool)
      requires Valid()
      modifies this`shelf
      ensures Valid() && shelf == Shelf.Step(old(shelf), Shelf.Pin(path, text, offset, limit, eof))
      ensures pinned <==> offset == 0 && Encoding.ByteLength(text) <= 20 * 1024
                          && (eof == Some(true) || (eof == None && |text| < limit))
      ensures pinned ==> Shelf.Entry(path, text) in shelf
    {
      pinned := Shelf.Pinnable(text, offset, limit, eof);
      if pinned {
        Shelf.PutIsBounded(shelf, path, text);
        shelf := Shelf.PutShelf(shelf, path, text);
      }
    }

    /** Why a claimed validation is not the proof the verifier left behind. */
    method CheckClaim(claim: Claim, snapshot: Binding) returns (r: Option<ClaimError>)
      ensures r == ClaimProblem(state, claim, snapshot)
      ensures r.None? <==> claim.status == "passed" && WellPut(claim) && snapshot != map[] && claim.proof.Some?
                           && state.verification == Some(Proof(claim.proof.value, true, state.epoch, snapshot))
    {
      var proof := state.verification;
      if claim.status !in ["passed", "failed"] || claim.summary == "" || claim.evidence == ""
         || claim.checks.None? || !(1 <= |claim.checks.value| <= 200) || "" in claim.checks.value {
        return Some(ClaimInvalid);
      }
      if snapshot == map[] {
        return Some(ArtifactsMissing);
      }
      if proof.None? || claim.proof != Some(proof.value.id) || proof.value.artifacts != snapshot {
        return Some(EvidenceMissing);
      }
      if !proof.value.ok || proof.value.epoch != state.epoch {
        return Some(VerifierFailed);
      }
      r := if claim.status == "failed" then Some(ValidationFailed(state.failures + 1 <= 2)) else None;
    }

    method RecordValidation(claim: Claim, snapshot: Binding) returns (r: Option<ClaimError>)
      requires Valid()
      modifies this`state
      ensures Valid() && state == Claimed(old(state), claim, snapshot)
      ensures r == ClaimProblem(old(state), claim, snapshot)
    {
      hide PlanStands, Shelf.Valid, Synchronize, WithSteps, ClaimProblem;
      r := CheckClaim(claim, snapshot);
      ClaimKeepsPlan(state, claim, snapshot);
      if r.None? {
        var proof, steps := state.verification.value, Steps(state);
        state := state.(validation := Some(Validation(proof.id, state.epoch, snapshot)));
        if state.tracking {
          state := WithSteps(state, Synchronize(steps, state.validationStep, proof.id));
        }
      } else if r.value.ValidationFailed? {
        state := state.(validation := None, failures := state.failures + 1);
      }
    }

    method RegisterArtifactCollection(snapshot: Binding) returns (changed: bool)
      requires Valid()
      modifies this
      ensures Valid() && state == Collected(old(state), snapshot) && shelf == old(shelf)
      ensures changed == BytesChanged(old(state), snapshot)
      ensures stable == (if changed then [] else old(stable)) && recent == (if changed then map[] else old(recent))
    {
      hide PlanHolds, PlanStands, Shelf.Valid, Differs;
      CollectionKeepsPlan(state, snapshot);
      var reference := if state.validation.Some? then state.validation.value.artifacts
                       else if state.verification.Some? then state.verification.value.artifacts else state.managed;
      changed := Differs(reference, snapshot);
      state := state.(managed := state.managed + snapshot);
      if changed {
        state := state.(epoch := state.epoch + 1, validation := None, verification := None);
        recent, stable := map[], [];
      }
    }

    /** Steps resting on changed files are to be repeated, and their phases and proofs with them. */
    method InvalidateChangedSteps(files: Binding)
      requires Valid()
      modifies this
      ensures Valid() && state == Refreshed(old(state), files)
      ensures stable == old(stable) && recent == old(recent) && shelf == old(shelf)
    {
      if state.plan.None? {
        return;
      }
      RefreshKeepsPlan(state, files);
      hide PlanHolds, Shelf.Valid, Affected, Forget;
      var invalid := Plans.AffectedSteps(Steps(state), Seeds(state.bindings, files));
      assert invalid == AgentState.AffectedSteps(state, files);
      state := Forget(state, invalid);
    }

    method ReadSkill(index: int) returns (r: Result<set<int>, SkillPhases.SkillError>)
      requires Valid()
      modifies this`state
      ensures Valid() && state == Apply(old(state), LoadSkill(index))
      ensures r.Ok? ==> index in state.loaded && 1 <= index <= state.skillCount
    {
      r := SkillPhases.Load(state.loaded, state.orderedSkills, state.skillCount, index);
      if r.Ok? {
        state := state.(loaded := r.value);
      }
    }

    method CompleteSkillPhase(index: int, evidence: string) returns (r: Result<set<int>, SkillPhases.SkillError>)
      requires Valid()
      modifies this`state
      ensures Valid() && state == Apply(old(state), CompleteSkill(index, evidence))
      ensures r.Ok? ==> index in state.loaded && index in state.completed
    {
      r := SkillPhases.Complete(state.loaded, state.completed, state.orderedSkills, index, evidence);
      if r.Ok? {
        state := state.(completed := r.value);
      }
    }

    method FinishGate(current: Binding) returns (r: Option<Blocker>)
      ensures r == FinishBlocker(state, current)
    {
      if state.planRequired && state.plan.None? {
        return Some(PlanMissing);
      }
      for i := 1 to state.skillCount + 1
        invariant forall j :: 1 <= j < i ==> j in state.loaded
      {
        if i !in state.loaded {
          return Some(SkillsUnread);
        }
      }
      if state.skillCount > 1 && exists i :: 1 <= i <= state.skillCount && i !in state.completed {
        return Some(SkillsIncomplete);
      }
      if state.tracking && state.plan.Some? {
        var steps := state.plan.value.steps;
        for i := 0 to |steps|
          invariant forall j :: 0 <= j < i && !(state.deliveryOnly && steps[j].id == state.validationStep) ==>
                      Settled(steps[j].status)
        {
          if !Settled(steps[i].status) && !(state.deliveryOnly && steps[i].id == state.validationStep) {
            assert steps == Steps(state);
            return Some(StepsIncomplete);
          }
        }
      }
      if state.deliveryOnly {
        return None;
      }
      if state.validation.None? || state.validation.value.epoch != state.epoch {
        return Some(NotVerified);
      }
      r := if state.validation.value.artifacts != current then Some(BytesDiffer) else None;
    }
  }
}
