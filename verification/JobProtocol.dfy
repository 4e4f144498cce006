/**
 One job under many workers: leases, durable checkpoints, crashes and recovery.

 A state holds the job's row, every attempt ever claimed, the object store, and two ghostly
 records: the keys ever published and the tool turns ever dispatched.  Each action is one
 atomic step.  A transaction that takes the row locks is one action; an unlocked lease check
 is an action of its own, so whatever follows it may find the lease gone.

 The check under the locks compares the run as the attempt's session last loaded it, not the
 locked row: only an unlocked check or a rollback loads it again.
 */
module JobProtocol {
  import opened Wrappers
  import opened JobRows

  datatype Phase =
    | Claimed
    | Setup(turn: nat)                             // workspace staged, memory still being written
    | Between(turn: nat)                           // the previous turn is over
    | Checked(turn: nat)                           // the check at the head of the turn has passed
    | Written(turn: nat, key: string)              // object complete on disk, pointer not published
    | Published(turn: nat, previous: Option<string>) // pointer published, previous object not deleted
    | Thinking(turn: nat)                          // the model is being called
    | Answered(turn: nat)                          // it has answered and the check after it has passed
    | Marked(turn: nat)                            // cleared to dispatch the tools of the turn
    | Dispatching(turn: nat)
    | Returned(turn: nat)                          // the agent loop has returned its artifacts
    | FinishChecked(turn: nat)
    | Collecting(turn: nat)
    | Confirming(turn: nat)
    | Confirmed(turn: nat)                         // the check before the final commit has passed
    | Raised                                       // an exception is on its way to its handler
    | Cancelling
    | Stopped

  // `cached` and `seen` are the pointer and the lease columns as the attempt's session loaded them.
  datatype Attempt = Attempt(
    lease: Lease, phase: Phase, cached: Option<Checkpoint>, seen: Columns, durable: bool, lost: bool)

  datatype Sweep = Sweep(start: nat, referenced: Option<set<string>>)

  // The tools of `turn` were dispatched by attempt number `attempt`.
  datatype Dispatched = Dispatched(turn: nat, attempt: nat)

  datatype State = State(
    clock: nat,
    row: Row,
    attempts: seq<Attempt>,
    store: set<string>,
    written: map<string, nat>,
    published: set<string>,
    released: set<string>,
    sweeps: seq<Sweep>,
    log: set<Dispatched>)

  datatype Action =
    | Tick(seconds: nat)
    | Claim(owner: string, token: string)
    | Heartbeat(p: nat, now: nat)
    | HeartbeatError(p: nat)
    | Start(p: nat)
    | UserGone(p: nat)
    | MemoryWrite(p: nat)
    | CheckTurn(p: nat)
    | Poll(p: nat)
    | CheckAnswer(p: nat)
    | WriteObject(p: nat, key: string)
    | PublishPointer(p: nat, acknowledged: bool)
    | DropOld(p: nat, deleted: bool)
    | SkipSave(p: nat)
    | MarkInFlight(p: nat, acknowledged: bool)
    | Dispatch(p: nat)
    | EndTurn(p: nat)
    | Return(p: nat)
    | CheckFinish(p: nat)
    | CollectWrite(p: nat)
    | ConfirmWrite(p: nat)
    | CheckConfirmed(p: nat)
    | Succeed(p: nat)
    | Raise(p: nat)
    | Fail(p: nat, blocked: bool)
    | SeeCancelled(p: nat)
    | AcknowledgeCancel(p: nat)
    | Crash(p: nat)
    | Recover(now: nat)
    | UserCancel
    | Retire
    | DeleteReleased(key: string)
    | SweepStart
    | SweepScan(i: nat)
    | SweepDelete(i: nat, key: string)

  function Init(resumed: nat): State {
    State(0, NewRow(resumed), [], {}, map[], {}, {}, [], {})
  }

  // The unlocked check, which loads the row it compares.
  predicate FreshCheck(s: State, p: nat)
    requires p < |s.attempts|
  {
    !s.attempts[p].lost && LeaseCurrent(s.row, s.attempts[p].lease, s.clock)
  }

  // The lease is current as the attempt last saw it.
  predicate SeesLease(s: State, p: nat) {
    p < |s.attempts| && Permits(s.attempts[p].seen, s.attempts[p].lease, s.clock)
  }

  // The check under the row locks.
  predicate Fence(s: State, p: nat)
    requires p < |s.attempts|
  {
    !s.attempts[p].lost && SeesLease(s, p)
  }

  predicate At(s: State, p: nat) {
    p < |s.attempts| && !s.attempts[p].phase.Stopped?
  }

  predicate InAgentLoop(ph: Phase) {
    || ph.Between? || ph.Checked? || ph.Written? || ph.Published? || ph.Thinking? || ph.Answered?
    || ph.Marked? || ph.Dispatching?
  }

  predicate FreshToken(s: State, token: string) {
    forall i :: 0 <= i < |s.attempts| ==> s.attempts[i].lease.token != token
  }

  // Unique object keys; the pointer must be published within the sweep's grace period.  An
  // attempt's heartbeats are made one after another, so its expiry never moves back.
  predicate Enabled(c: Config, s: State, a: Action) {
    match a
    case Tick(_) => true
    case Claim(_, token) => s.row.job == Queued && FreshToken(s, token)
    case Heartbeat(p, now) =>
      At(s, p) && now <= s.clock && !s.attempts[p].lost
      && (HeartbeatAccepted(s.row, s.attempts[p].lease) && s.row.expires.Some? ==>
            s.row.expires.value <= now + c.leaseSeconds)
    case HeartbeatError(p) => At(s, p)
    case Start(p) => At(s, p) && s.attempts[p].phase.Claimed? && (s.row.job == Cancelled || FreshCheck(s, p))
    case UserGone(p) => At(s, p) && s.attempts[p].phase.Claimed?
    case MemoryWrite(p) => At(s, p) && (s.attempts[p].phase.Setup? || s.attempts[p].phase.Dispatching?)
    case CheckTurn(p) =>
      At(s, p) && (s.attempts[p].phase.Setup? || s.attempts[p].phase.Between?)
      && FreshCheck(s, p) && s.row.job != Cancelled
    case Poll(p) => At(s, p) && InAgentLoop(s.attempts[p].phase) && FreshCheck(s, p)
    case CheckAnswer(p) =>
      At(s, p) && s.attempts[p].phase.Thinking? && FreshCheck(s, p) && s.row.job != Cancelled
    case WriteObject(p, key) =>
      At(s, p) && s.attempts[p].phase.Checked? && s.attempts[p].durable && key !in s.written
    case PublishPointer(p, _) =>
      At(s, p) && s.attempts[p].phase.Written? && Fence(s, p)
      && s.attempts[p].phase.key in s.written
      && s.clock <= s.written[s.attempts[p].phase.key] + c.grace
    case DropOld(p, _) => At(s, p) && s.attempts[p].phase.Published?
    case SkipSave(p) => At(s, p) && s.attempts[p].phase.Checked?
    case MarkInFlight(p, _) =>
      At(s, p) && s.attempts[p].phase.Answered?
      && (s.attempts[p].durable && s.attempts[p].cached.Some? ==> Fence(s, p))
    case Dispatch(p) => At(s, p) && (s.attempts[p].phase.Marked? || s.attempts[p].phase.Dispatching?)
    case EndTurn(p) => At(s, p) && s.attempts[p].phase.Dispatching?
    case Return(p) => At(s, p) && s.attempts[p].phase.Dispatching?
    case CheckFinish(p) => At(s, p) && s.attempts[p].phase.Returned? && FreshCheck(s, p)
    case CollectWrite(p) => At(s, p) && s.attempts[p].phase.FinishChecked?
    case ConfirmWrite(p) => At(s, p) && s.attempts[p].phase.Collecting?
    case CheckConfirmed(p) => At(s, p) && s.attempts[p].phase.Confirming? && FreshCheck(s, p)
    case Succeed(p) => At(s, p) && s.attempts[p].phase.Confirmed? && Fence(s, p)
    case Raise(p) => At(s, p)
    case Fail(p, _) => At(s, p) && FreshCheck(s, p)
    case SeeCancelled(p) => At(s, p) && InAgentLoop(s.attempts[p].phase) && s.row.job == Cancelled
    case AcknowledgeCancel(p) => At(s, p) && s.attempts[p].phase.Cancelling?
    case Crash(p) => At(s, p)
    case Recover(now) => now <= s.clock
    case UserCancel => true
    case Retire =>
      RetentionEligible(c, s.row, s.clock)
      && forall i :: 0 <= i < |s.attempts| ==> s.attempts[i].phase.Stopped?
    case DeleteReleased(key) => key in s.released
    case SweepStart => true
    case SweepScan(i) => i < |s.sweeps| && s.sweeps[i].referenced.None?
    case SweepDelete(i, key) =>
      i < |s.sweeps| && s.sweeps[i].referenced.Some? && key in s.store && key in s.written
      && key !in s.sweeps[i].referenced.value && s.written[key] + c.grace < s.sweeps[i].start
  }

  function Put(s: State, p: nat, q: Attempt): State
    requires p < |s.attempts|
  {
    s.(attempts := s.attempts[p := q])
  }

  // Moving on after an unlocked check, with the columns it loaded.
  function Checking(s: State, p: nat, ph: Phase): State
    requires p < |s.attempts|
  {
    Put(s, p, s.attempts[p].(phase := ph, seen := LeaseColumns(s.row)))
  }

  function Go(s: State, p: nat, ph: Phase): State
    requires p < |s.attempts|
  {
    Put(s, p, s.attempts[p].(phase := ph))
  }

  /** Loading the checkpoint: resume at its turn, start afresh without one, refuse anything else. */
  function LoadPhase(s: State, checkpoint: Option<Checkpoint>): Phase {
    if checkpoint.None? then Setup(1)
    else if checkpoint.value.status != Ready || checkpoint.value.key !in s.store then Raised
    else Setup(checkpoint.value.nextTurn)
  }

  function StartStep(c: Config, s: State, p: nat): State
    requires p < |s.attempts|
  {
    if s.row.job == Cancelled then
      Go(s, p, Stopped).(row := CloseRun(s.row, RunCancelled))
    else
      Put(s, p, s.attempts[p].(
        phase := LoadPhase(s, s.row.checkpoint),
        cached := s.row.checkpoint,
        seen := LeaseColumns(s.row),
        durable := c.durableEnabled || s.row.checkpoint.Some?))
  }

  function PublishStep(s: State, p: nat, acknowledged: bool): State
    requires At(s, p) && s.attempts[p].phase.Written?
  {
    var q, turn, key := s.attempts[p], s.attempts[p].phase.turn, s.attempts[p].phase.key;
    var checkpoint := Some(Checkpoint(key, Ready, turn));
    var previous := if q.cached.Some? then Some(q.cached.value.key) else None;
    s.(row := s.row.(checkpoint := checkpoint),
       published := s.published + {key},
       attempts := s.attempts[p := q.(
         cached := checkpoint, phase := if acknowledged then Published(turn, previous) else Raised)])
  }

  function DropOldStep(s: State, p: nat, deleted: bool): State
    requires At(s, p) && s.attempts[p].phase.Published?
  {
    var previous := s.attempts[p].phase.previous;
    var s' := Go(s, p, Thinking(s.attempts[p].phase.turn));
    if deleted && previous.Some? then s'.(store := s.store - {previous.value}) else s'
  }

  function MarkStep(s: State, p: nat, acknowledged: bool): State
    requires At(s, p) && s.attempts[p].phase.Answered?
  {
    var q, turn := s.attempts[p], s.attempts[p].phase.turn;
    if q.durable && q.cached.Some? then
      var checkpoint := Some(q.cached.value.(status := InFlight));
      s.(row := s.row.(checkpoint := checkpoint),
         attempts := s.attempts[p := q.(
           cached := checkpoint, phase := if acknowledged then Marked(turn) else Raised)])
    else
      Go(s, p, Marked(turn))
  }

  function Apply(c: Config, s: State, a: Action): State
    requires Enabled(c, s, a)
  {
    match a
    case Tick(seconds) => s.(clock := s.clock + seconds)
    case Claim(owner, token) =>
      var s' := s.(row := ClaimRow(c, s.row, owner, token, s.clock));
      if Exhausted(c, s.row) then s'
      else s'.(attempts := s.attempts +
                 [Attempt(Lease(token, owner, s.row.attempts + 1), Claimed, None, LeaseColumns(s'.row), false, false)])
    case Heartbeat(p, now) =>
      if HeartbeatAccepted(s.row, s.attempts[p].lease)
      then s.(row := HeartbeatRow(c, s.row, s.attempts[p].lease, now))
      else Put(s, p, s.attempts[p].(lost := true))
    case HeartbeatError(p) => Put(s, p, s.attempts[p].(lost := true))
    case Start(p) => StartStep(c, s, p)
    case UserGone(p) => Go(s, p, Stopped).(row := FailRow(s.row, Failed, UserMissing, s.clock))
    case MemoryWrite(p) => s.(row := s.row.(checkpoint := s.attempts[p].cached))
    case CheckTurn(p) => Checking(s, p, Checked(s.attempts[p].phase.turn))
    case Poll(p) => Checking(s, p, s.attempts[p].phase)
    case CheckAnswer(p) => Checking(s, p, Answered(s.attempts[p].phase.turn))
    case WriteObject(p, key) =>
      Go(s, p, Written(s.attempts[p].phase.turn, key))
        .(store := s.store + {key}, written := s.written[key := s.clock])
    case PublishPointer(p, acknowledged) => PublishStep(s, p, acknowledged)
    case DropOld(p, deleted) => DropOldStep(s, p, deleted)
    case SkipSave(p) =>
      if s.attempts[p].durable then
        Put(s, p, s.attempts[p].(
          phase := Thinking(s.attempts[p].phase.turn), durable := false, cached := s.row.checkpoint,
          seen := LeaseColumns(s.row)))
      else
        Go(s, p, Thinking(s.attempts[p].phase.turn))
    case MarkInFlight(p, acknowledged) => MarkStep(s, p, acknowledged)
    case Dispatch(p) =>
      var turn := s.attempts[p].phase.turn;
      Go(s, p, Dispatching(turn)).(log := s.log + {Dispatched(turn, p + 1)})
    case EndTurn(p) => Go(s, p, Between(s.attempts[p].phase.turn + 1))
    case Return(p) => Go(s, p, Returned(s.attempts[p].phase.turn))
    case CheckFinish(p) => Checking(s, p, FinishChecked(s.attempts[p].phase.turn))
    case CollectWrite(p) =>
      Go(s, p, Collecting(s.attempts[p].phase.turn)).(row := s.row.(job := ProducingArtifacts))
    case ConfirmWrite(p) =>
      Go(s, p, Confirming(s.attempts[p].phase.turn)).(row := s.row.(job := Verifying))
    case CheckConfirmed(p) => Checking(s, p, Confirmed(s.attempts[p].phase.turn))
    case Succeed(p) => Go(s, p, Stopped).(row := SucceedRow(s.row, s.attempts[p].cached, s.clock))
    case Raise(p) => Go(s, p, Raised)
    case Fail(p, blocked) =>
      Go(s, p, Stopped).(row := FailRow(s.row, if blocked then Blocked else Failed, WorkflowError, s.clock))
    case SeeCancelled(p) => Go(s, p, Cancelling)
    case AcknowledgeCancel(p) => Go(s, p, Stopped).(row := CancelRow(s.row, s.clock))
    case Crash(p) => Go(s, p, Stopped)
    case Recover(now) => s.(row := RecoverRow(c, s.row, now))
    case UserCancel => s.(row := CancelRow(s.row, s.clock))
    case Retire =>
      s.(row := s.row.(checkpoint := None),
         released := if s.row.checkpoint.Some? then s.released + {s.row.checkpoint.value.key} else s.released)
    case DeleteReleased(key) => s.(store := s.store - {key})
    case SweepStart => s.(sweeps := s.sweeps + [Sweep(s.clock, None)])
    case SweepScan(i) =>
      var referenced := if s.row.checkpoint.Some? then {s.row.checkpoint.value.key} else {};
      s.(sweeps := s.sweeps[i := s.sweeps[i].(referenced := Some(referenced))])
    case SweepDelete(_, key) => s.(store := s.store - {key})
  }

  /** A run is a sequence of actions, each enabled where it happens. */
  predicate Runs(c: Config, s: State, run: seq<Action>)
    decreases |run|
  {
    run == [] || (Enabled(c, s, run[0]) && Runs(c, Apply(c, s, run[0]), run[1..]))
  }

  function After(c: Config, s: State, run: seq<Action>): State
    requires Runs(c, s, run)
    decreases |run|
  {
    if run == [] then s else After(c, Apply(c, s, run[0]), run[1..])
  }

  // Actions whose only effect on the attempts is to move one of them to another phase.
  predicate MovesPhase(a: Action) {
    || a.UserGone? || a.DropOld? || a.Dispatch? || a.EndTurn? || a.Return?
    || a.CollectWrite? || a.ConfirmWrite? || a.Succeed? || a.Raise? || a.Fail? || a.SeeCancelled?
    || a.AcknowledgeCancel? || a.Crash? || a.WriteObject?
  }

  // The attempt is out of its turns for good, or not yet in them.
  predicate Aside(ph: Phase) {
    ph.Claimed? || ph.Raised? || ph.Cancelling? || ph.Stopped?
  }

  predicate PhaseMoved(s: State, a: Action, t: State)
    requires MovesPhase(a)
  {
    && a.p < |s.attempts| == |t.attempts|
    && var ph, ph' := s.attempts[a.p].phase, t.attempts[a.p].phase;
    && t.attempts == s.attempts[a.p := s.attempts[a.p].(phase := ph')]
    && !ph'.Claimed? && !ph'.Setup? && !ph'.Published? && (ph'.Written? ==> a.WriteObject?)
    && (Aside(ph) ==> Aside(ph'))
    && t.clock == s.clock && t.published == s.published && t.released == s.released && t.sweeps == s.sweeps
    && (!a.DropOld? && !a.WriteObject? ==> t.store == s.store && t.written == s.written)
    && (t.row.token == s.row.token || t.row.token.None?)
    && (t.row.checkpoint == s.row.checkpoint || (a.Succeed? && t.row.checkpoint.None?))
  }

  lemma PhaseMove(c: Config, s: State, a: Action)
    requires Enabled(c, s, a) && MovesPhase(a)
    ensures PhaseMoved(s, a, Apply(c, s, a))
  {
    if SetsAside(a) {
      AsideMove(c, s, a);
      hide Apply, Enabled;
    }
  }

  predicate SetsAside(a: Action) {
    || a.UserGone? || a.Succeed? || a.Raise? || a.Fail? || a.SeeCancelled? || a.AcknowledgeCancel? || a.Crash?
  }

  lemma AsideMove(c: Config, s: State, a: Action)
    requires Enabled(c, s, a) && SetsAside(a)
    ensures PhaseMoved(s, a, Apply(c, s, a)) && Aside(Apply(c, s, a).attempts[a.p].phase)
  {
  }

  // The unlocked checks.
  predicate Checks(a: Action) {
    a.CheckTurn? || a.Poll? || a.CheckAnswer? || a.CheckFinish? || a.CheckConfirmed?
  }

  lemma CheckMove(c: Config, s: State, a: Action)
    requires Enabled(c, s, a) && Checks(a)
    ensures a.p < |s.attempts| && FreshCheck(s, a.p)
    ensures var ph := s.attempts[a.p].phase; var ph' := Apply(c, s, a).attempts[a.p].phase;
            && Apply(c, s, a) == Checking(s, a.p, ph')
            && (a.Poll? ==> ph' == ph)
            && (a.CheckTurn? ==> (ph.Setup? || ph.Between?) && ph' == Checked(ph.turn))
            && (a.CheckAnswer? ==> ph.Thinking? && ph' == Answered(ph.turn))
            && (a.CheckFinish? ==> ph.Returned? && ph' == FinishChecked(ph.turn))
            && (a.CheckConfirmed? ==> ph.Confirming? && ph' == Confirmed(ph.turn))
  {
  }
}
