/**
 Tool turns under durable checkpoints.  In a run that always takes its checkpoints and whose
 memory writes never turn the job back, the tools of each turn number are dispatched by at most
 one attempt, and no turn below the published one was skipped.
 */
module JobAtMostOnce {
  import opened Wrappers
  import opened JobRows
  import opened JobProtocol
  import opened JobFencing
  import opened JobCheckpoints

  // The turn of the phase has been marked in flight and its tools may be dispatched.
  predicate PastMark(ph: Phase) {
    || ph.Marked? || ph.Dispatching? || ph.Returned? || ph.FinishChecked? || ph.Collecting? || ph.Confirming?
    || ph.Confirmed?
  }

  ghost predicate AtMostOnce(log: set<Dispatched>) {
    forall e, f :: e in log && f in log && e.turn == f.turn ==> e.attempt == f.attempt
  }

  ghost predicate Done(log: set<Dispatched>, turn: nat) {
    exists a: nat :: Dispatched(turn, a) in log
  }

  // Every turn before `turn` has been dispatched and no other.
  ghost predicate DoneUpTo(log: set<Dispatched>, turn: nat) {
    && turn >= 1
    && (forall e :: e in log ==> 1 <= e.turn < turn)
    && (forall t: nat :: 1 <= t < turn ==> Done(log, t))
  }

  // The latest dispatched turn is at most `turn`, and `turn` belongs to attempt `newest`.
  ghost predicate DoneDuring(log: set<Dispatched>, turn: nat, newest: nat) {
    && turn >= 1
    && (forall e :: e in log ==> 1 <= e.turn <= turn && (e.turn == turn ==> e.attempt == newest))
    && (forall t: nat :: 1 <= t < turn ==> Done(log, t))
  }

  // Where an attempt that loads the pointer starts; without one, at the first turn.
  function Place(checkpoint: Option<Checkpoint>): (CheckpointStatus, nat) {
    if checkpoint.None? then (Ready, 1) else (checkpoint.value.status, checkpoint.value.nextTurn)
  }

  ghost predicate LogInv(s: State) {
    && AtMostOnce(s.log)
    && match s.row.checkpoint
       case None => s.log == {} || Terminal(s.row.job)
       case Some(Checkpoint(_, Ready, turn)) => DoneUpTo(s.log, turn)
       case Some(Checkpoint(_, InFlight, turn)) =>
         s.row.job != Queued && DoneDuring(s.log, turn, |s.attempts|)
  }

  // The attempt past its mark is the newest one and the pointer records its turn as in flight.
  ghost predicate Cleared(s: State, i: nat)
    requires i < |s.attempts| && PastMark(s.attempts[i].phase)
  {
    var q := s.attempts[i];
    && i == |s.attempts| - 1
    && Place(q.cached) == Place(s.row.checkpoint) == (InFlight, q.phase.turn)
    && (!q.phase.Marked? ==> Done(s.log, q.phase.turn))
  }

  // The pointer allows turn `turn` to begin.
  ghost predicate AtTurn(s: State, turn: nat) {
    match s.row.checkpoint
    case None => turn == 1 && s.log == {}
    case Some(Checkpoint(_, Ready, next)) => turn == next
    case Some(Checkpoint(_, InFlight, next)) => turn == next + 1 && Done(s.log, next)
  }

  predicate InTurn(ph: Phase) {
    !Aside(ph)
  }

  // The attempt holds the token, or still sees the lease it held: its locked commits get through.
  predicate Live(s: State, i: nat) {
    Holds(s, i) || SeesLease(s, i)
  }

  // A live attempt sees a pointer to the published place, and its phase fits it.
  ghost predicate LiveReady(s: State, q: Attempt) {
    && (InTurn(q.phase) ==>
          Place(q.cached) == Place(s.row.checkpoint) && (s.row.checkpoint.None? ==> s.log == {}))
    && ((q.phase.Setup? || q.phase.Between? || q.phase.Checked? || q.phase.Written?) ==>
          AtTurn(s, q.phase.turn))
    && ((q.phase.Published? || q.phase.Thinking? || q.phase.Answered?) ==>
          Place(s.row.checkpoint) == (Ready, q.phase.turn))
  }

  // The attempt will not save, mark or dispatch again.
  predicate PastTurns(ph: Phase) {
    || Aside(ph) || ph.Returned? || ph.FinishChecked? || ph.Collecting? || ph.Confirming? || ph.Confirmed?
  }

  /**
   An attempt that sees a lease it no longer holds: somebody closed the run under it.  It is the
   newest, the job is finished, or it has itself been written active again after its last turn;
   either way nobody else can be claimed while it sees that lease.
   */
  ghost predicate AdriftAt(s: State, i: nat)
    requires i < |s.attempts|
  {
    && i == |s.attempts| - 1 && s.row.run != RunRunning && s.row.job != Queued
    && (Terminal(s.row.job)
        || (Place(s.row.checkpoint).0 == InFlight && Done(s.log, Place(s.row.checkpoint).1)
            && PastTurns(s.attempts[i].phase)))
  }

  ghost predicate AdriftInv(s: State) {
    forall i: nat :: SeesLease(s, i) && !Holds(s, i) ==> AdriftAt(s, i)
  }

  ghost predicate TurnInv(c: Config, s: State) {
    && LogInv(s)
    && (forall i: nat :: i < |s.attempts| && PastMark(s.attempts[i].phase) ==> Cleared(s, i))
    && (forall i: nat :: Live(s, i) ==> LiveReady(s, s.attempts[i]))
    && (forall i: nat :: i < |s.attempts| ==> Insured(s.attempts[i]))
  }

  // An attempt in the agent loop checkpoints, and has a pointer once it calls the model.
  predicate Insured(q: Attempt) {
    && (InTurn(q.phase) ==> q.durable)
    && (q.phase.Published? || q.phase.Thinking? || q.phase.Answered? ==> q.cached.Some?)
  }

  // The attempt gives up checkpointing because a snapshot could not be taken.
  predicate CheckpointUnavailable(s: State, a: Action) {
    a.SkipSave? && a.p < |s.attempts| && s.attempts[a.p].durable
  }

  // The turn has neither been dispatched nor is anyone cleared to dispatch it.
  predicate Untouched(s: State, turn: nat) {
    && (forall e :: e in s.log ==> e.turn != turn)
    && forall i :: 0 <= i < |s.attempts| ==> s.attempts[i].phase != Marked(turn)
  }

  /**
   The unfenced write of the job memory turns the job back: it puts back a pointer to another
   place, other than the start of a turn that nobody has touched, or one that success or
   retention has withdrawn.
   */
  predicate TurnsBack(s: State, a: Action) {
    && LostUpdate(s, a)
    && var put, was := Place(s.attempts[a.p].cached), Place(s.row.checkpoint);
       || (put != was && !(put == (Ready, was.1) && Untouched(s, was.1)))
       || (s.row.checkpoint.None? && Terminal(s.row.job))
  }

  predicate Careful(s: State, a: Action) {
    !TurnsBack(s, a) && !CheckpointUnavailable(s, a)
  }

  ghost predicate AllInv(c: Config, s: State) {
    LeaseInv(c, s) && SeenInv(s) && TurnInv(c, s) && AdriftInv(s)
  }

  predicate MovesTurns(a: Action) {
    || a.Claim? || a.Start? || a.PublishPointer? || a.MarkInFlight? || a.Dispatch? || a.EndTurn?
    || a.Succeed? || a.Retire? || a.SkipSave? || a.MemoryWrite?
  }

  // How a phase may change in a step that leaves the pointer and the log alone.
  predicate QuietMove(ph: Phase, ph': Phase) {
    || ph' == ph
    || !InTurn(ph')
    || (InTurn(ph) && ph'.turn == ph.turn
        && (ph'.Checked? ==> ph.Setup? || ph.Between?)
        && (ph'.Written? ==> ph.Checked?)
        && (ph'.Thinking? ==> ph.Published?)
        && (ph'.Answered? ==> ph.Thinking?)
        && (PastMark(ph') ==> PastMark(ph) && !ph.Marked? && !ph'.Marked? && PastTurns(ph'))
        && (PastMark(ph') || ph'.Checked? || ph'.Written? || ph'.Thinking? || ph'.Answered?))
  }

  // Actions on one attempt, and those on the row or the store alone.
  predicate MovesAttempt(a: Action) {
    || a.UserGone? || a.WriteObject? || a.DropOld? || a.Return?
    || a.CollectWrite? || a.ConfirmWrite? || a.Raise? || a.Fail? || a.SeeCancelled?
    || a.AcknowledgeCancel? || a.Crash?
  }

  // A step that leaves the pointer and the log alone.
  ghost predicate Quiet(s: State, t: State) {
    && t.log == s.log && t.row.checkpoint == s.row.checkpoint && |t.attempts| == |s.attempts|
    && forall i: nat :: i < |s.attempts| ==>
         && t.attempts[i].lease == s.attempts[i].lease
         && t.attempts[i].cached == s.attempts[i].cached
         && t.attempts[i].durable == s.attempts[i].durable
         && QuietMove(s.attempts[i].phase, t.attempts[i].phase)
         && (PastTurns(s.attempts[i].phase) ==> PastTurns(t.attempts[i].phase))
  }

  lemma MoveShape(c: Config, s: State, a: Action)
    requires Enabled(c, s, a) && MovesAttempt(a)
    ensures Quiet(s, Apply(c, s, a))
  {
    hide Apply, Enabled;
    PhaseMove(c, s, a);
    MovePhases(c, s, a);
    PhaseIsQuiet(s, a, Apply(c, s, a));
  }

  // Where the moved attempt may go.
  predicate QuietAt(s: State, a: Action, t: State)
    requires MovesAttempt(a) && PhaseMoved(s, a, t)
  {
    && t.log == s.log && t.row.checkpoint == s.row.checkpoint
    && QuietMove(s.attempts[a.p].phase, t.attempts[a.p].phase)
    && (PastTurns(s.attempts[a.p].phase) ==> PastTurns(t.attempts[a.p].phase))
  }

  lemma MovePhases(c: Config, s: State, a: Action)
    requires Enabled(c, s, a) && MovesAttempt(a) && PhaseMoved(s, a, Apply(c, s, a))
    ensures QuietAt(s, a, Apply(c, s, a))
  {
    if SetsAside(a) {
      AsideMove(c, s, a);
      AsideLog(c, s, a);
      hide Apply, Enabled;
    }
  }

  lemma AsideLog(c: Config, s: State, a: Action)
    requires Enabled(c, s, a) && MovesAttempt(a) && SetsAside(a)
    ensures Apply(c, s, a).log == s.log && Apply(c, s, a).row.checkpoint == s.row.checkpoint
  {
  }

  lemma PhaseIsQuiet(s: State, a: Action, t: State)
    requires MovesAttempt(a) && PhaseMoved(s, a, t) && QuietAt(s, a, t)
    ensures Quiet(s, t)
  {
    hide PastTurns, QuietMove;
    forall i: nat | i < |s.attempts| ensures QuietMove(s.attempts[i].phase, t.attempts[i].phase) {
      if i != a.p {
        StandingIsQuiet(s.attempts[i].phase);
      }
    }
  }

  lemma StandingIsQuiet(ph: Phase)
    ensures QuietMove(ph, ph)
  {
  }

  lemma CheckShape(c: Config, s: State, a: Action)
    requires Enabled(c, s, a) && Checks(a)
    ensures Quiet(s, Apply(c, s, a))
  {
    hide Apply, Enabled;
    CheckMove(c, s, a);
  }

  lemma RestShape(c: Config, s: State, a: Action)
    requires Enabled(c, s, a) && !MovesTurns(a) && !MovesAttempt(a) && !Checks(a)
    ensures Quiet(s, Apply(c, s, a))
  {
  }

  lemma QuietShape(c: Config, s: State, a: Action)
    requires Enabled(c, s, a) && !MovesTurns(a)
    ensures Quiet(s, Apply(c, s, a))
  {
    hide Apply, Enabled, Quiet;
    if MovesAttempt(a) {
      MoveShape(c, s, a);
    } else if Checks(a) {
      CheckShape(c, s, a);
    } else {
      RestShape(c, s, a);
    }
  }

  // ---------- who is live ----------

  // Nobody becomes live again, and at most the newest attempt is live.
  lemma LiveStays(c: Config, s: State, a: Action, i: nat)
    requires LeaseInv(c, s) && Enabled(c, s, a) && i < |s.attempts| && Live(Apply(c, s, a), i)
    ensures Live(s, i) && (Holds(Apply(c, s, a), i) ==> Holds(s, i))
    ensures SeesLease(Apply(c, s, a), i) && !Holds(Apply(c, s, a), i) ==> SeesLease(s, i)
  {
    hide Apply, Enabled, LeaseInv;
    SeenShape(c, s, a, i);
    TokenIsKept(c, s, a, i);
    if SeesLease(Apply(c, s, a), i) {
      SeenAfter(s, a, i, Apply(c, s, a));
    }
  }

  lemma SeenAfter(s: State, a: Action, i: nat, t: State)
    requires SeenMove(s, a, i, t) && SeesLease(t, i)
    ensures if Reloads(s, a, i) then Holds(t, i) else SeesLease(s, i)
  {
  }

  lemma LiveIsNewest(c: Config, s: State, i: nat)
    requires LeaseInv(c, s) && AdriftInv(s) && Live(s, i)
    ensures i == |s.attempts| - 1
  {
    if Holds(s, i) {
      assert s.row.run == RunRunning;
    }
  }

  // Beside a live attempt no other is live, and none has marked a turn.
  lemma OnlyLive(c: Config, s: State, p: nat)
    requires LeaseInv(c, s) && AdriftInv(s) && TurnInv(c, s) && Live(s, p)
    ensures p == |s.attempts| - 1 && s.row.job != Queued
    ensures forall i: nat :: i < |s.attempts| && i != p ==> !Live(s, i) && !PastMark(s.attempts[i].phase)
  {
    LiveIsNewest(c, s, p);
    forall i: nat | i < |s.attempts| && i != p ensures !Live(s, i) && !PastMark(s.attempts[i].phase) {
      if Live(s, i) {
        LiveIsNewest(c, s, i);
      }
    }
  }

  lemma AdriftStep(c: Config, s: State, a: Action)
    requires AllInv(c, s) && Enabled(c, s, a) && Careful(s, a)
    ensures AdriftInv(Apply(c, s, a))
  {
    var t := Apply(c, s, a);
    forall i: nat | SeesLease(t, i) && !Holds(t, i) ensures AdriftAt(t, i) {
      hide Apply, Enabled;
      if i >= |s.attempts| {
        NewAttemptHolds(c, s, a, i);
      } else {
        LiveStays(c, s, a, i);
        if Holds(s, i) {
          ClosedIsAdrift(c, s, a, i);
        } else {
          AdriftStays(c, s, a, i);
        }
      }
    }
  }

  lemma ClosedIsAdrift(c: Config, s: State, a: Action, i: nat)
    requires LeaseInv(c, s) && SeenInv(s) && Enabled(c, s, a)
    requires Holds(s, i) && SeesLease(s, i) && SeesLease(Apply(c, s, a), i) && !Holds(Apply(c, s, a), i)
    ensures AdriftAt(Apply(c, s, a), i)
  {
    TokenShape(c, s, a);
    SeenShape(c, s, a, i);
    assert s.row.run == RunRunning;
    assert i == |s.attempts| - 1;
    if Releases(a) {
      ReleaseCloses(c, s, a);
    } else if !Decides(a) {
      NeutralStep(c, s, a);
    }
  }

  lemma ReleaseCloses(c: Config, s: State, a: Action)
    requires LeaseInv(c, s) && Enabled(c, s, a) && Releases(a)
    ensures var t := Apply(c, s, a);
            Terminal(t.row.job) && t.row.run != RunRunning && |t.attempts| == |s.attempts|
  {
  }

  lemma AdriftStays(c: Config, s: State, a: Action, i: nat)
    requires AllInv(c, s) && Enabled(c, s, a) && Careful(s, a)
    requires i < |s.attempts| && SeesLease(s, i) && !Holds(s, i) && !Holds(Apply(c, s, a), i)
    ensures AdriftAt(Apply(c, s, a), i)
  {
    assert AdriftAt(s, i);
    if a.MemoryWrite? {
      AdriftThroughRewrite(c, s, a.p, i);
    } else if MovesTurns(a) {
      AdriftThroughTurns(c, s, a, i);
    } else {
      AdriftThroughQuiet(c, s, a, i);
    }
  }

  lemma AdriftThroughTurns(c: Config, s: State, a: Action, i: nat)
    requires AllInv(c, s) && Enabled(c, s, a) && Careful(s, a) && MovesTurns(a) && !a.MemoryWrite?
    requires i < |s.attempts| && SeesLease(s, i) && AdriftAt(s, i)
    ensures AdriftAt(Apply(c, s, a), i)
  {
    hide SeenInv, LogInv, LiveReady;
    if a.PublishPointer? || a.MarkInFlight? || a.Succeed? {
      AdriftThroughCommit(c, s, a, i);
    } else if a.Dispatch? || a.EndTurn? {
      AdriftThroughDispatch(c, s, a, i);
    }
  }

  lemma AdriftThroughCommit(c: Config, s: State, a: Action, i: nat)
    requires AllInv(c, s) && Enabled(c, s, a) && (a.PublishPointer? || a.MarkInFlight? || a.Succeed?)
    requires i < |s.attempts| && SeesLease(s, i) && AdriftAt(s, i)
    ensures AdriftAt(Apply(c, s, a), i)
  {
    hide SeenInv, LogInv, LiveReady, Cleared;
    assert Insured(s.attempts[a.p]);
    LiveIsNewest(c, s, a.p);
    hide LeaseInv, AdriftInv;
  }

  lemma AdriftThroughDispatch(c: Config, s: State, a: Action, i: nat)
    requires AllInv(c, s) && Enabled(c, s, a) && (a.Dispatch? || a.EndTurn?)
    requires i < |s.attempts| && SeesLease(s, i) && AdriftAt(s, i)
    ensures AdriftAt(Apply(c, s, a), i)
  {
    hide SeenInv, LogInv, LiveReady, LeaseInv, AdriftInv;
    assert Cleared(s, a.p);
  }

  lemma AdriftThroughRewrite(c: Config, s: State, p: nat, i: nat)
    requires Enabled(c, s, MemoryWrite(p)) && Careful(s, MemoryWrite(p)) && i < |s.attempts| && AdriftAt(s, i)
    ensures AdriftAt(Apply(c, s, MemoryWrite(p)), i)
  {
  }

  lemma AdriftThroughQuiet(c: Config, s: State, a: Action, i: nat)
    requires AllInv(c, s) && Enabled(c, s, a) && Careful(s, a) && !MovesTurns(a)
    requires i < |s.attempts| && SeesLease(s, i) && AdriftAt(s, i)
    ensures AdriftAt(Apply(c, s, a), i)
  {
    QuietShape(c, s, a);
    if a.CollectWrite? || a.ConfirmWrite? {
      assert Cleared(s, a.p);
    }
  }

  // ---------- the turns ----------

  lemma QuietStep(c: Config, s: State, a: Action)
    requires AllInv(c, s) && Enabled(c, s, a) && Careful(s, a) && !MovesTurns(a)
    ensures TurnInv(c, Apply(c, s, a))
  {
    hide Apply, Enabled, Quiet, LogInv;
    QuietLog(c, s, a);
    QuietShape(c, s, a);
    forall i: nat | i < |s.attempts| && Live(Apply(c, s, a), i) ensures Live(s, i) {
      LiveStays(c, s, a, i);
    }
    QuietAttempts(c, s, Apply(c, s, a));
  }

  lemma QuietLog(c: Config, s: State, a: Action)
    requires AllInv(c, s) && Enabled(c, s, a) && Careful(s, a) && !MovesTurns(a)
    ensures LogInv(Apply(c, s, a))
  {
    QuietShape(c, s, a);
    hide LeaseInv, SeenInv, AdriftInv, LiveReady, Insured;
    if a.CollectWrite? || a.ConfirmWrite? {
      assert Cleared(s, a.p);
    } else if a.Recover? {
      assert s.row.checkpoint.None? && Recoverable(s.row, a.now) ==> s.log == {};
    }
  }

  lemma QuietAttempts(c: Config, s: State, t: State)
    requires TurnInv(c, s) && LogInv(t) && Quiet(s, t)
    requires forall i: nat :: i < |s.attempts| && Live(t, i) ==> Live(s, i)
    ensures TurnInv(c, t)
  {
    hide LogInv;
    forall i: nat | i < |t.attempts|
      ensures PastMark(t.attempts[i].phase) ==> Cleared(t, i)
      ensures Live(t, i) ==> LiveReady(t, t.attempts[i])
      ensures Insured(t.attempts[i])
    {
      assert Insured(s.attempts[i]);
      assert PastMark(t.attempts[i].phase) ==> PastMark(s.attempts[i].phase);
    }
  }

  lemma ClaimTurns(c: Config, s: State, owner: string, token: string)
    requires AllInv(c, s) && Enabled(c, s, Claim(owner, token))
    ensures TurnInv(c, Apply(c, s, Claim(owner, token)))
  {
    var t := Apply(c, s, Claim(owner, token));
    NobodyMarked(s);
    assert forall i: nat :: i < |s.attempts| ==> t.attempts[i] == s.attempts[i];
    assert forall i: nat :: i < |s.attempts| ==> !Live(t, i) by {
      forall i: nat | i < |s.attempts| ensures !Live(t, i) {
        if Live(t, i) {
          LiveStays(c, s, Claim(owner, token), i);
        }
      }
    }
    if !Exhausted(c, s.row) {
      assert s.row.checkpoint.None? ==> s.log == {};
    }
  }

  // A queued job, or a job without a pointer or with a ready one, has no attempt past its mark.
  lemma NobodyMarked(s: State)
    requires LogInv(s)
    requires forall i: nat :: i < |s.attempts| && PastMark(s.attempts[i].phase) ==> Cleared(s, i)
    requires s.row.job == Queued || s.row.checkpoint.None? || s.row.checkpoint.value.status == Ready
    ensures forall i: nat :: i < |s.attempts| ==> !PastMark(s.attempts[i].phase)
  {
  }

  lemma StartTurns(c: Config, s: State, p: nat)
    requires c.durableEnabled
    requires AllInv(c, s) && Enabled(c, s, Start(p))
    ensures TurnInv(c, Apply(c, s, Start(p)))
  {
    hide SeenInv, AdriftInv;
  }

  lemma PublishTurns(c: Config, s: State, p: nat, acknowledged: bool)
    requires AllInv(c, s) && Enabled(c, s, PublishPointer(p, acknowledged))
    ensures TurnInv(c, Apply(c, s, PublishPointer(p, acknowledged)))
  {
    OnlyLive(c, s, p);
    hide LeaseInv, SeenInv, AdriftInv;
  }

  lemma MarkTurns(c: Config, s: State, p: nat, acknowledged: bool)
    requires AllInv(c, s) && Enabled(c, s, MarkInFlight(p, acknowledged))
    ensures TurnInv(c, Apply(c, s, MarkInFlight(p, acknowledged)))
  {
    assert Insured(s.attempts[p]);
    OnlyLive(c, s, p);
    LeaseCount(c, s);
    hide LeaseInv, SeenInv, AdriftInv;
  }

  lemma LeaseCount(c: Config, s: State)
    requires LeaseInv(c, s)
    ensures |s.attempts| == s.row.attempts
  {
  }

  lemma DispatchTurns(c: Config, s: State, p: nat)
    requires AllInv(c, s) && Enabled(c, s, Dispatch(p))
    ensures TurnInv(c, Apply(c, s, Dispatch(p)))
  {
    var t := Apply(c, s, Dispatch(p));
    var turn := s.attempts[p].phase.turn;
    assert Cleared(s, p);
    assert Dispatched(turn, p + 1) in t.log;
    DoneMonotone(s.log, t.log);
    forall i: nat | i < |t.attempts|
      ensures PastMark(t.attempts[i].phase) ==> Cleared(t, i)
      ensures Live(t, i) ==> LiveReady(t, t.attempts[i])
      ensures Insured(t.attempts[i])
    {
      assert Live(t, i) ==> Live(s, i);
    }
  }

  lemma DoneMonotone(log: set<Dispatched>, more: set<Dispatched>)
    requires log <= more
    ensures forall t: nat :: Done(log, t) ==> Done(more, t)
  {
  }

  lemma EndTurnTurns(c: Config, s: State, p: nat)
    requires AllInv(c, s) && Enabled(c, s, EndTurn(p))
    ensures TurnInv(c, Apply(c, s, EndTurn(p)))
  {
  }

  lemma SucceedTurns(c: Config, s: State, p: nat)
    requires AllInv(c, s) && Enabled(c, s, Succeed(p))
    ensures TurnInv(c, Apply(c, s, Succeed(p)))
  {
    OnlyLive(c, s, p);
    hide LeaseInv, SeenInv, AdriftInv;
  }

  lemma TurnStep(c: Config, s: State, a: Action)
    requires c.durableEnabled
    requires AllInv(c, s) && Enabled(c, s, a) && Careful(s, a)
    ensures TurnInv(c, Apply(c, s, a))
  {
    if !MovesTurns(a) {
      QuietStep(c, s, a);
    } else if a.Claim? {
      ClaimTurns(c, s, a.owner, a.token);
    } else if a.Start? {
      StartTurns(c, s, a.p);
    } else if a.PublishPointer? {
      PublishTurns(c, s, a.p, a.acknowledged);
    } else if a.MarkInFlight? {
      MarkTurns(c, s, a.p, a.acknowledged);
    } else if a.Dispatch? {
      DispatchTurns(c, s, a.p);
    } else if a.EndTurn? {
      EndTurnTurns(c, s, a.p);
    } else if a.Succeed? {
      SucceedTurns(c, s, a.p);
    } else if a.Retire? {
      RetireTurns(c, s);
    } else if a.MemoryWrite? {
      RewriteTurns(c, s, a.p);
    }
  }

  lemma RewriteTurns(c: Config, s: State, p: nat)
    requires AllInv(c, s) && Enabled(c, s, MemoryWrite(p)) && Careful(s, MemoryWrite(p))
    ensures TurnInv(c, Apply(c, s, MemoryWrite(p)))
  {
    hide LeaseInv, SeenInv, AdriftInv;
    var t := Apply(c, s, MemoryWrite(p));
    assert t == s.(row := s.row.(checkpoint := s.attempts[p].cached));
    hide Apply, Enabled;
  }

  lemma RetireTurns(c: Config, s: State)
    requires AllInv(c, s) && Enabled(c, s, Retire)
    ensures TurnInv(c, Apply(c, s, Retire))
  {
    assert forall i: nat :: i < |s.attempts| ==> !PastMark(s.attempts[i].phase);
  }

  // No action of the run turns the job back or gives up its checkpoint.
  predicate CarefulRun(c: Config, s: State, run: seq<Action>)
    requires Runs(c, s, run)
    decreases |run|
  {
    run == [] || (Careful(s, run[0]) && CarefulRun(c, Apply(c, s, run[0]), run[1..]))
  }

  lemma AllStep(c: Config, s: State, a: Action)
    requires c.durableEnabled
    requires AllInv(c, s) && Enabled(c, s, a) && Careful(s, a)
    ensures AllInv(c, Apply(c, s, a))
  {
    LeaseStep(c, s, a);
    SeenStep(c, s, a);
    AdriftStep(c, s, a);
    TurnStep(c, s, a);
  }

  lemma {:induction false} InvariantRun(c: Config, s: State, run: seq<Action>)
    requires c.durableEnabled
    requires AllInv(c, s) && Runs(c, s, run) && CarefulRun(c, s, run)
    ensures AllInv(c, After(c, s, run))
    decreases |run|
  {
    hide AllInv, Apply, Enabled;
    if run != [] {
      AllStep(c, s, run[0]);
      InvariantRun(c, Apply(c, s, run[0]), run[1..]);
    }
  }

  /**
   At-most-once tool turns: over every interleaving of workers, crashes, expiries, recoveries,
   cancellations, sweeps and unfenced status writes, one attempt at most dispatches each turn.
   */
  lemma AtMostOnceTurns(c: Config, resumed: nat, run: seq<Action>)
    requires c.durableEnabled
    requires Runs(c, Init(resumed), run) && CarefulRun(c, Init(resumed), run)
    ensures AtMostOnce(After(c, Init(resumed), run).log)
  {
    InitialLeases(c, resumed);
    InvariantRun(c, Init(resumed), run);
  }

  /** A ready checkpoint divides the turns: those below it are done, it and those above are not. */
  lemma ReadyCheckpointIsExact(c: Config, resumed: nat, run: seq<Action>)
    requires c.durableEnabled
    requires Runs(c, Init(resumed), run) && CarefulRun(c, Init(resumed), run)
    requires var s := After(c, Init(resumed), run);
             s.row.checkpoint.Some? && s.row.checkpoint.value.status == Ready
    ensures var s := After(c, Init(resumed), run);
            forall t: nat :: t >= 1 ==> (Done(s.log, t) <==> t < s.row.checkpoint.value.nextTurn)
  {
    InitialLeases(c, resumed);
    InvariantRun(c, Init(resumed), run);
    var s := After(c, Init(resumed), run);
    assert DoneUpTo(s.log, s.row.checkpoint.value.nextTurn);
  }

  /** While a turn is in flight the job is never queued, so no other attempt can be claimed. */
  lemma InFlightBlocksClaims(c: Config, resumed: nat, run: seq<Action>, owner: string, token: string)
    requires c.durableEnabled
    requires Runs(c, Init(resumed), run) && CarefulRun(c, Init(resumed), run)
    requires var s := After(c, Init(resumed), run);
             s.row.checkpoint.Some? && s.row.checkpoint.value.status == InFlight
    ensures !Enabled(c, After(c, Init(resumed), run), Claim(owner, token))
  {
    InitialLeases(c, resumed);
    InvariantRun(c, Init(resumed), run);
  }

  /** An attempt whose locked commits get through never turns the job back. */
  lemma LiveTurnsNothingBack(c: Config, resumed: nat, run: seq<Action>, p: nat)
    requires c.durableEnabled
    requires Runs(c, Init(resumed), run) && CarefulRun(c, Init(resumed), run)
    requires var s := After(c, Init(resumed), run);
             Live(s, p) && Enabled(c, s, MemoryWrite(p)) && !Terminal(s.row.job)
    ensures !TurnsBack(After(c, Init(resumed), run), MemoryWrite(p))
  {
    InitialLeases(c, resumed);
    InvariantRun(c, Init(resumed), run);
    var s := After(c, Init(resumed), run);
    assert LiveReady(s, s.attempts[p]);
  }

  // ---------- outdated pointers ----------

  // No attempt has a pointer cached that is ahead of the published one, as long as there is one.
  ghost predicate CachedInv(s: State) {
    forall i :: 0 <= i < |s.attempts| ==>
      && Place(s.attempts[i].cached).1 >= 1
      && (s.row.checkpoint.Some? || s.log == {} ==> Place(s.attempts[i].cached).1 <= Place(s.row.checkpoint).1)
  }

  lemma CachedStep(c: Config, s: State, a: Action)
    requires AllInv(c, s) && CachedInv(s) && Enabled(c, s, a) && Careful(s, a)
    ensures CachedInv(Apply(c, s, a))
  {
    if !MovesTurns(a) {
      hide Apply, Enabled;
      QuietShape(c, s, a);
    } else {
      CachedThroughTurns(c, s, a);
    }
  }

  lemma CachedThroughTurns(c: Config, s: State, a: Action)
    requires AllInv(c, s) && CachedInv(s) && Enabled(c, s, a) && Careful(s, a) && MovesTurns(a)
    ensures CachedInv(Apply(c, s, a))
  {
    hide Apply, Enabled;
    if a.PublishPointer? || a.MarkInFlight? {
      CachedThroughCommit(c, s, a);
    } else if a.Claim? || a.Start? || a.SkipSave? {
      CachedThroughLoad(c, s, a);
    } else {
      CachedThroughRest(c, s, a);
    }
  }

  lemma CachedThroughCommit(c: Config, s: State, a: Action)
    requires AllInv(c, s) && CachedInv(s) && Enabled(c, s, a) && (a.PublishPointer? || a.MarkInFlight?)
    ensures CachedInv(Apply(c, s, a))
  {
    hide LeaseInv, SeenInv, AdriftInv, Cleared;
    PlaceIsTurn(s);
    assert Insured(s.attempts[a.p]);
    assert a.PublishPointer? ==> Live(s, a.p);
    assert a.MarkInFlight? && s.attempts[a.p].cached.Some? ==> Live(s, a.p);
  }

  lemma CachedThroughLoad(c: Config, s: State, a: Action)
    requires AllInv(c, s) && CachedInv(s) && Enabled(c, s, a) && Careful(s, a) && (a.Claim? || a.Start? || a.SkipSave?)
    ensures CachedInv(Apply(c, s, a))
  {
    hide LeaseInv, SeenInv, AdriftInv, Cleared, LiveReady;
    PlaceIsTurn(s);
  }

  lemma CachedThroughRest(c: Config, s: State, a: Action)
    requires AllInv(c, s) && CachedInv(s) && Enabled(c, s, a) && Careful(s, a) && MovesTurns(a)
    requires a.MemoryWrite? || a.Dispatch? || a.EndTurn? || a.Succeed? || a.Retire?
    ensures CachedInv(Apply(c, s, a))
  {
    hide LeaseInv, SeenInv, AdriftInv, LiveReady;
    PlaceIsTurn(s);
    assert a.Dispatch? ==> Cleared(s, a.p);
  }

  lemma PlaceIsTurn(s: State)
    requires LogInv(s)
    ensures Place(s.row.checkpoint).1 >= 1 && (s.log == {} ==> Place(s.row.checkpoint).1 == 1)
  {
    assert Place(s.row.checkpoint).1 > 1 ==> Done(s.log, 1);
  }

  lemma {:induction false} CachedRun(c: Config, s: State, run: seq<Action>)
    requires c.durableEnabled
    requires AllInv(c, s) && CachedInv(s) && Runs(c, s, run) && CarefulRun(c, s, run)
    ensures AllInv(c, After(c, s, run)) && CachedInv(After(c, s, run))
    decreases |run|
  {
    hide AllInv, CachedInv, Apply, Enabled;
    if run != [] {
      AllStep(c, s, run[0]);
      CachedStep(c, s, run[0]);
      CachedRun(c, Apply(c, s, run[0]), run[1..]);
    }
  }

  /** What turns an unfinished job back to a ready place turns it back to a turn somebody has touched. */
  lemma TurnedBackIsTouched(c: Config, s: State, p: nat)
    requires AllInv(c, s) && CachedInv(s) && Enabled(c, s, MemoryWrite(p)) && TurnsBack(s, MemoryWrite(p))
    requires !Terminal(s.row.job) && Place(s.attempts[p].cached).0 == Ready
    ensures !Untouched(s, Place(s.attempts[p].cached).1)
  {
    hide LeaseInv, SeenInv, AdriftInv, LiveReady, Cleared;
    var put, was := Place(s.attempts[p].cached), Place(s.row.checkpoint);
    assert s.row.checkpoint.None? ==> s.log == {};
    assert put.1 < was.1 ==> Done(s.log, put.1);
  }

  // ---------- runs that lose nothing ----------

  predicate Faithful(s: State, a: Action) {
    !LostUpdate(s, a) && !CheckpointUnavailable(s, a)
  }

  predicate FaithfulRun(c: Config, s: State, run: seq<Action>)
    requires Runs(c, s, run)
    decreases |run|
  {
    run == [] || (Faithful(s, run[0]) && FaithfulRun(c, Apply(c, s, run[0]), run[1..]))
  }

  // A live attempt sees the very pointer that is published.
  ghost predicate PointerSeen(s: State) {
    forall i: nat :: Live(s, i) && InTurn(s.attempts[i].phase) ==> s.attempts[i].cached == s.row.checkpoint
  }

  lemma PointerSeenStep(c: Config, s: State, a: Action)
    requires AllInv(c, s) && PointerSeen(s) && Enabled(c, s, a) && Faithful(s, a)
    ensures PointerSeen(Apply(c, s, a))
  {
    hide Apply, Enabled, LeaseInv, SeenInv, TurnInv, AdriftInv;
    var t := Apply(c, s, a);
    forall i: nat | Live(t, i) && InTurn(t.attempts[i].phase) ensures t.attempts[i].cached == t.row.checkpoint {
      if !MovesTurns(a) {
        QuietShape(c, s, a);
        LiveStays(c, s, a, i);
      } else if i >= |s.attempts| {
        NewIsAside(c, s, a, i);
      } else {
        LiveStays(c, s, a, i);
        PointerSeenThroughTurns(c, s, a, i);
      }
    }
  }

  lemma NewIsAside(c: Config, s: State, a: Action, i: nat)
    requires Enabled(c, s, a) && MovesTurns(a) && |s.attempts| <= i < |Apply(c, s, a).attempts|
    ensures Aside(Apply(c, s, a).attempts[i].phase)
  {
  }

  lemma PointerSeenThroughTurns(c: Config, s: State, a: Action, i: nat)
    requires AllInv(c, s) && PointerSeen(s) && Enabled(c, s, a) && Faithful(s, a) && MovesTurns(a)
    requires i < |s.attempts| && Live(s, i) && InTurn(Apply(c, s, a).attempts[i].phase)
    ensures Apply(c, s, a).attempts[i].cached == Apply(c, s, a).row.checkpoint
  {
    hide LogInv, SeenInv, LeaseInv, AdriftInv, Cleared, LiveReady;
    OnlyLive(c, s, i);
    if a.PublishPointer? || a.MarkInFlight? || a.Succeed? {
      assert Insured(s.attempts[a.p]);
    }
  }

  lemma {:induction false} FaithfulKeeps(c: Config, s: State, run: seq<Action>)
    requires c.durableEnabled
    requires AllInv(c, s) && PointerSeen(s) && Runs(c, s, run) && FaithfulRun(c, s, run)
    ensures CarefulRun(c, s, run) && KeepsPointer(c, s, run)
    ensures AllInv(c, After(c, s, run)) && PointerSeen(After(c, s, run))
    decreases |run|
  {
    hide AllInv, PointerSeen, Apply, Enabled;
    if run != [] {
      MarkLosesNothing(c, s, run[0]);
      AllStep(c, s, run[0]);
      PointerSeenStep(c, s, run[0]);
      FaithfulKeeps(c, Apply(c, s, run[0]), run[1..]);
    }
  }

  lemma MarkLosesNothing(c: Config, s: State, a: Action)
    requires AllInv(c, s) && PointerSeen(s) && Enabled(c, s, a)
    ensures !LostMark(s, a)
  {
    hide AllInv, Apply;
    if a.MarkInFlight? && s.attempts[a.p].durable && s.attempts[a.p].cached.Some? {
      assert Live(s, a.p);
    }
  }

  /** An attempt whose locked commits get through never puts an outdated pointer back. */
  lemma LiveLosesNothing(c: Config, resumed: nat, run: seq<Action>, a: Action, p: nat)
    requires c.durableEnabled
    requires Runs(c, Init(resumed), run) && FaithfulRun(c, Init(resumed), run)
    requires var s := After(c, Init(resumed), run);
             Enabled(c, s, a) && Live(s, p) && (a == MemoryWrite(p) || (a.MarkInFlight? && a.p == p))
    ensures !Loses(After(c, Init(resumed), run), a)
  {
    InitialLeases(c, resumed);
    FaithfulKeeps(c, Init(resumed), run);
  }

  /** So a run that only avoids lost memory updates and skipped snapshots puts no outdated pointer back. */
  lemma FaithfulRunKeepsPointer(c: Config, resumed: nat, run: seq<Action>)
    requires c.durableEnabled
    requires Runs(c, Init(resumed), run) && FaithfulRun(c, Init(resumed), run)
    ensures KeepsPointer(c, Init(resumed), run)
  {
    InitialLeases(c, resumed);
    FaithfulKeeps(c, Init(resumed), run);
  }
}
