/**
 The rows of one workflow job and the database transactions of the sandbox worker.

 A `Row` joins the columns of the job, of its run and of its memory that the worker
 protocol reads or writes.  Every function below is the effect of one transaction on
 one row; `JobTable` is the table the workers mutate, proved against those functions.
 */
module JobRows {
  import opened Decimals
  import opened Wrappers

  datatype JobStatus =
    Queued | Running | ProducingArtifacts | Verifying | Succeeded | Failed | Blocked | Cancelled

  datatype RunStatus = RunQueued | RunRunning | RunSucceeded | RunFailed | RunCancelled

  datatype ErrorCode =
    NoError | RetryExhausted | ToolUncertain | Cancellation | WorkflowError | UserMissing

  datatype CheckpointStatus = Ready | InFlight

  // The pointer kept in the job memory: it names an immutable stored object.
  datatype Checkpoint = Checkpoint(key: string, status: CheckpointStatus, nextTurn: nat)

  // The frozen copy of the lease that a worker process carries through one attempt.
  datatype Lease = Lease(token: string, owner: string, attempt: nat)

  datatype Row = Row(
    job: JobStatus,
    run: RunStatus,
    runClosed: bool,
    attempts: nat,
    owner: Option<string>,
    token: Option<string>,
    expires: Option<nat>,
    checkpoint: Option<Checkpoint>,
    resumed: nat,
    error: ErrorCode,
    finished: Option<nat>)

  datatype Config = Config(
    maxAttempts: int,
    leaseSeconds: nat,
    retention: nat,
    grace: nat,
    durableEnabled: bool)

  predicate Active(job: JobStatus) {
    job == Running || job == ProducingArtifacts || job == Verifying
  }

  predicate Terminal(job: JobStatus) {
    job == Succeeded || job == Failed || job == Blocked || job == Cancelled
  }

  // A freshly submitted job; `resumed` is the number of answered attempts it is credited with.
  function NewRow(resumed: nat): Row {
    Row(Queued, RunQueued, false, 0, None, None, None, None, resumed, NoError, None)
  }

  predicate Exhausted(cfg: Config, row: Row) {
    row.attempts - row.resumed >= cfg.maxAttempts
  }

  // The columns of the run that a lease check compares.
  datatype Columns = Columns(run: RunStatus, owner: Option<string>, token: Option<string>, expires: Option<nat>)

  function LeaseColumns(row: Row): Columns {
    Columns(row.run, row.owner, row.token, row.expires)
  }

  /** A lease is current while the run is running under its token and owner and has not expired. */
  predicate Permits(v: Columns, lease: Lease, now: nat) {
    && v.run == RunRunning
    && v.token == Some(lease.token)
    && v.owner == Some(lease.owner)
    && v.expires.Some?
    && v.expires.value > now
  }

  predicate LeaseCurrent(row: Row, lease: Lease, now: nat) {
    Permits(LeaseColumns(row), lease, now)
  }

  /** Closing a run clears its lease, unless it is already closed with that very status. */
  function CloseRun(row: Row, status: RunStatus): Row {
    if row.run == status && row.runClosed then row
    else row.(run := status, runClosed := true, owner := None, token := None, expires := None)
  }

  function ClaimRow(cfg: Config, row: Row, owner: string, token: string, now: nat): Row {
    if Exhausted(cfg, row) then
      CloseRun(row.(job := Failed, error := RetryExhausted, finished := Some(now)), RunFailed)
    else
      row.(
        run := RunRunning,
        runClosed := false,
        attempts := row.attempts + 1,
        owner := Some(owner),
        token := Some(token),
        expires := Some(now + cfg.leaseSeconds),
        job := Running,
        error := NoError,
        finished := None)
  }

  predicate HeartbeatAccepted(row: Row, lease: Lease) {
    row.run == RunRunning && row.token == Some(lease.token) && row.owner == Some(lease.owner)
  }

  function HeartbeatRow(cfg: Config, row: Row, lease: Lease, now: nat): Row {
    if HeartbeatAccepted(row, lease) then row.(expires := Some(now + cfg.leaseSeconds)) else row
  }

  // The pointer goes with the memory the session has loaded; one it never saw it leaves alone.
  function SucceedRow(row: Row, loaded: Option<Checkpoint>, now: nat): Row {
    CloseRun(
      row.(job := Succeeded, error := NoError, finished := Some(now),
           checkpoint := if loaded.Some? then None else row.checkpoint),
      RunSucceeded)
  }

  function FailRow(row: Row, status: JobStatus, error: ErrorCode, now: nat): Row {
    CloseRun(row.(job := status, error := error, finished := Some(now)), RunFailed)
  }

  // Both the user's cancellation and the worker's acknowledgement of it.
  function CancelRow(row: Row, now: nat): Row {
    CloseRun(row.(job := Cancelled, finished := Some(now)), RunCancelled)
  }

  /** Recovery only looks at active jobs whose lease is missing or has expired. */
  predicate Recoverable(row: Row, now: nat) {
    && Active(row.job)
    && (row.run != RunRunning || row.token.None? || row.expires.None? || row.expires.value <= now)
  }

  function RequeueRow(row: Row): Row {
    row.(
      run := RunQueued,
      runClosed := false,
      owner := None,
      token := None,
      expires := None,
      job := Queued,
      error := NoError,
      finished := None)
  }

  function RecoverRow(cfg: Config, row: Row, now: nat): Row {
    if !Recoverable(row, now) then row
    else if row.checkpoint.Some? && row.checkpoint.value.status != Ready then
      FailRow(row, Failed, ToolUncertain, now)
    else if Exhausted(cfg, row) then
      FailRow(row, Failed, RetryExhausted, now)
    else
      RequeueRow(row)
  }

  /**
   What recovery may leave of an interrupted row, column by column: failed as uncertain exactly
   when a turn was in flight, failed as exhausted exactly when otherwise no attempt is left, and
   queued again with nothing but its attempts and its pointer.
   */
  predicate Reclaims(cfg: Config, was: Row, row: Row, now: nat) {
    var inFlight := was.checkpoint.Some? && was.checkpoint.value.status == InFlight;
    && (row.error == ToolUncertain <==> inFlight)
    && (row.error == RetryExhausted <==> !inFlight && was.attempts - was.resumed >= cfg.maxAttempts)
    && row.checkpoint == was.checkpoint && row.attempts == was.attempts && row.resumed == was.resumed
    && (row.error in {ToolUncertain, RetryExhausted} ==>
          && row.job == Failed && row.run == RunFailed && row.runClosed && row.finished == Some(now)
          && (was.run != RunFailed || !was.runClosed ==>
                row.owner == None && row.token == None && row.expires == None))
    && (row.error !in {ToolUncertain, RetryExhausted} ==>
          && row.error == NoError && row.job == Queued && row.run == RunQueued && !row.runClosed
          && row.finished == None && row.owner == None && row.token == None && row.expires == None)
  }

  lemma RecoveryReclaims(cfg: Config, was: Row, now: nat)
    ensures if Recoverable(was, now) then Reclaims(cfg, was, RecoverRow(cfg, was, now), now)
            else RecoverRow(cfg, was, now) == was
  {
  }

  /** How a running attempt's row is closed: by success, by failure and by cancellation. */
  lemma ClosedRows(row: Row, loaded: Option<Checkpoint>, status: JobStatus, error: ErrorCode, now: nat)
    requires row.run == RunRunning
    ensures var done, failed := SucceedRow(row, loaded, now), FailRow(row, status, error, now);
            var gone := CancelRow(row, now);
            && done.job == Succeeded && done.run == RunSucceeded && done.error == NoError
            && failed.job == status && failed.run == RunFailed && failed.error == error
            && gone.job == Cancelled && gone.run == RunCancelled && gone.error == row.error
            && (forall t :: t in {done, failed, gone} ==>
                  && t.finished == Some(now) && t.runClosed && t.owner == None && t.token == None && t.expires == None
                  && t.attempts == row.attempts && t.resumed == row.resumed)
            && failed.checkpoint == gone.checkpoint == row.checkpoint
            && done.checkpoint == (if loaded.Some? then None else row.checkpoint)
  {
  }

  predicate RetentionEligible(cfg: Config, row: Row, now: nat) {
    Terminal(row.job) && row.finished.Some? && row.finished.value + cfg.retention < now
  }

  // The label that ties a container or a volume to one attempt.
  function ExecutionId(job: string, attempt: nat): string {
    if attempt > 0 then job + "-a" + Decimal(attempt) else job
  }

  /** Two attempts of one job never share an execution label. */
  lemma ExecutionIdInjective(job: string, a: nat, b: nat)
    requires ExecutionId(job, a) == ExecutionId(job, b)
    ensures a == b
  {
    var x, y := ExecutionId(job, a), ExecutionId(job, b);
    if a > 0 && b > 0 {
      assert x[|job| + 2..] == Decimal(a) && y[|job| + 2..] == Decimal(b);
      DecimalInjective(a, b);
    }
  }

  datatype Reclaimed = Reclaimed(job: string, executionId: string)

  // What recovery does to one locked row.
  method RecoverOne(cfg: Config, was: Row, now: nat) returns (row: Row, recovered: bool)
    ensures row == RecoverRow(cfg, was, now) && recovered == Recoverable(was, now)
    ensures recovered <==>
              && was.job in {Running, ProducingArtifacts, Verifying}
              && !(was.run == RunRunning && was.token.Some? && was.expires.Some? && was.expires.value > now)
    ensures if recovered then Reclaims(cfg, was, row, now) else row == was
  {
    row := was;
    var leaseIsCurrent := row.run == RunRunning && row.token.Some? && row.expires.Some? && row.expires.value > now;
    recovered := Active(row.job) && !leaseIsCurrent;
    if !recovered {
      return;
    }
    if row.checkpoint.Some? && row.checkpoint.value.status != Ready {
      row := CloseRun(row.(job := Failed, error := ToolUncertain, finished := Some(now)), RunFailed);
    } else if row.attempts - row.resumed >= cfg.maxAttempts {
      row := CloseRun(row.(job := Failed, error := RetryExhausted, finished := Some(now)), RunFailed);
    } else {
      row := row.(run := RunQueued, runClosed := false, owner := None, token := None, expires := None);
      row := row.(job := Queued, error := NoError, finished := None);
    }
  }

  /** The job table, as the workers' transactions change it. */
  class JobTable {
    var rows: map<string, Row>

    constructor ()
      ensures rows == map[]
    {
      rows := map[];
    }

    // The claim query has already chosen and locked a queued row.
    method ClaimJob(cfg: Config, job: string, owner: string, token: string, now: nat)
      returns (lease: Option<Lease>)
      requires job in rows && rows[job].job == Queued
      modifies this
      ensures rows == old(rows)[job := ClaimRow(cfg, old(rows)[job], owner, token, now)]
      ensures lease.None? <==> rows[job].job == Failed
      ensures lease.None? <==> old(rows)[job].attempts - old(rows)[job].resumed >= cfg.maxAttempts
      ensures lease.None? ==>
        && rows[job].error == RetryExhausted && rows[job].finished == Some(now) && rows[job].run == RunFailed
        && rows[job].runClosed && rows[job].attempts == old(rows)[job].attempts
      ensures lease.Some? ==>
        && lease.value == Lease(token, owner, old(rows)[job].attempts + 1)
        && HeartbeatAccepted(rows[job], lease.value)
        && rows[job].job == Running && rows[job].run == RunRunning && !rows[job].runClosed
        && rows[job].owner == Some(owner) && rows[job].token == Some(token)
        && rows[job].expires == Some(now + cfg.leaseSeconds)
        && rows[job].attempts == old(rows)[job].attempts + 1
        && rows[job].error == NoError && rows[job].finished == None
      ensures rows[job].checkpoint == old(rows)[job].checkpoint && rows[job].resumed == old(rows)[job].resumed
    {
      var row := rows[job];
      if row.attempts - row.resumed >= cfg.maxAttempts {
        row := row.(job := Failed, error := RetryExhausted, finished := Some(now));
        rows := rows[job := CloseRun(row, RunFailed)];
        return None;
      }
      row := row.(run := RunRunning, runClosed := false, attempts := row.attempts + 1);
      row := row.(owner := Some(owner), token := Some(token), expires := Some(now + cfg.leaseSeconds));
      row := row.(job := Running, error := NoError, finished := None);
      rows := rows[job := row];
      lease := Some(Lease(token, owner, row.attempts));
    }

    method HeartbeatJob(cfg: Config, job: string, lease: Lease, now: nat) returns (current: bool)
      requires job in rows
      modifies this
      ensures rows == old(rows)[job := HeartbeatRow(cfg, old(rows)[job], lease, now)]
      ensures current <==>
        && old(rows)[job].run == RunRunning
        && old(rows)[job].token == Some(lease.token) && old(rows)[job].owner == Some(lease.owner)
      ensures rows == if current then old(rows)[job := old(rows)[job].(expires := Some(now + cfg.leaseSeconds))]
                      else old(rows)
    {
      var row := rows[job];
      current := row.run == RunRunning && row.token == Some(lease.token) && row.owner == Some(lease.owner);
      if current {
        rows := rows[job := row.(expires := Some(now + cfg.leaseSeconds))];
      }
      assert !current ==> rows == rows[job := row];
    }

    /**
     The recovery transaction: every listed job whose lease is no longer current is failed or
     requeued, every other row is left alone, and each reclaimed attempt is reported by its label.
     */
    method RecoverInterruptedJobs(cfg: Config, jobs: seq<string>, now: nat)
      returns (reclaimed: seq<Reclaimed>)
      requires forall j :: j in jobs ==> j in rows
      requires forall i, j :: 0 <= i < j < |jobs| ==> jobs[i] != jobs[j]
      modifies this
      ensures rows.Keys == old(rows).Keys
      ensures forall j :: j in rows ==>
        rows[j] == if j in jobs then RecoverRow(cfg, old(rows)[j], now) else old(rows)[j]
      ensures forall r :: r in reclaimed <==>
        exists j :: j in jobs && Recoverable(old(rows)[j], now)
                    && r == Reclaimed(j, ExecutionId(j, old(rows)[j].attempts))
      ensures forall j :: j in rows ==>
        if j in jobs && Recoverable(old(rows)[j], now) then Reclaims(cfg, old(rows)[j], rows[j], now)
        else rows[j] == old(rows)[j]
    {
      hide RecoverRow, ExecutionId, Recoverable, Reclaims;
      reclaimed := [];
      for n := 0 to |jobs|
        invariant rows.Keys == old(rows).Keys
        invariant forall j :: j in rows ==>
          rows[j] == if j in jobs[..n] then RecoverRow(cfg, old(rows)[j], now) else old(rows)[j]
        invariant forall r :: r in reclaimed <==>
          exists j :: j in jobs[..n] && Recoverable(old(rows)[j], now)
                      && r == Reclaimed(j, ExecutionId(j, old(rows)[j].attempts))
      {
        var id := jobs[n];
        assert id !in jobs[..n];
        assert jobs[..n + 1] == jobs[..n] + [id];
        var row, recovered := RecoverOne(cfg, rows[id], now);
        if recovered {
          reclaimed := reclaimed + [Reclaimed(id, ExecutionId(id, rows[id].attempts))];
        }
        rows := rows[id := row];
      }
      assert jobs[..|jobs|] == jobs;
      forall j | j in jobs
        ensures if Recoverable(old(rows)[j], now) then Reclaims(cfg, old(rows)[j], rows[j], now)
                else rows[j] == old(rows)[j]
      {
        RecoveryReclaims(cfg, old(rows)[j], now);
      }
    }
  }

  /**
   One attempt's database session.  It keeps the run as it last loaded it, through commits; only
   an unlocked check or a rollback makes it look again.  A check under the row locks selects the
   run for update, but a run already loaded keeps its loaded columns.
   */
  class WorkerSession {
    const table: JobTable
    const job: string
    const lease: Lease
    var loaded: Option<Columns>

    constructor (table: JobTable, job: string, lease: Lease)
      ensures this.table == table && this.job == job && this.lease == lease && loaded == None
    {
      this.table, this.job, this.lease := table, job, lease;
      loaded := None;
    }

    // What the next check would compare.
    function Seen(lock: bool): Columns
      requires job in table.rows
      reads this, table
    {
      if lock && loaded.Some? then loaded.value else LeaseColumns(table.rows[job])
    }

    method AssertLease(lost: bool, lock: bool, now: nat) returns (ok: bool)
      requires job in table.rows
      modifies this
      ensures ok == (!lost && Permits(old(Seen(lock)), lease, now))
      ensures loaded == if lost then old(loaded) else Some(old(Seen(lock)))
      ensures !lock && ok ==> LeaseCurrent(table.rows[job], lease, now)
    {
      if lost {
        return false;
      }
      if !lock || loaded.None? {
        loaded := Some(LeaseColumns(table.rows[job]));
      }
      ok := Permits(loaded.value, lease, now);
    }

    method Rollback()
      modifies this`loaded
      ensures loaded == None
    {
      loaded := None;
    }

    // Publishing a checkpoint pointer: the check under the row locks decides whether it commits.
    method PublishCheckpoint(checkpoint: Checkpoint, lost: bool, now: nat) returns (committed: bool)
      requires job in table.rows
      modifies this, table
      ensures committed == (!lost && Permits(old(Seen(true)), lease, now))
      ensures table.rows == if committed
                            then old(table.rows)[job := old(table.rows)[job].(checkpoint := Some(checkpoint))]
                            else old(table.rows)
      ensures loaded == if committed then Some(old(Seen(true))) else None
    {
      committed := AssertLease(lost, true, now);
      if committed {
        table.rows := table.rows[job := table.rows[job].(checkpoint := Some(checkpoint))];
      } else {
        Rollback();
      }
    }
  }

  // A sandbox container or workspace volume with the labels the platform gave it.
  datatype Resource = Resource(job: string, executionId: Option<string>)

  function RecordedExecution(r: Resource): string {
    if r.executionId.Some? && r.executionId.value != "" then r.executionId.value else r.job
  }

  /**
   Cleanup after recovery.  `removable` are the removals that do not fail; what survives is
   exactly what belongs to another job or attempt, or could not be removed.
   */
  method CleanupExecution(resources: seq<Resource>, reclaimed: Reclaimed, removable: set<Resource>)
    returns (left: seq<Resource>)
    ensures forall r :: r in left <==>
      r in resources && !(r.job == reclaimed.job && RecordedExecution(r) == reclaimed.executionId && r in removable)
    ensures forall r :: r in resources && r !in left <==>
      && r in resources && r in removable && r.job == reclaimed.job
      && (r.executionId == Some(reclaimed.executionId) || r.executionId in {None, Some("")})
      && (r.executionId in {None, Some("")} ==> reclaimed.executionId == reclaimed.job)
  {
    left := [];
    for n := 0 to |resources|
      invariant forall r :: r in left <==>
        r in resources[..n]
        && !(r.job == reclaimed.job && RecordedExecution(r) == reclaimed.executionId && r in removable)
    {
      var r := resources[n];
      assert resources[..n + 1] == resources[..n] + [r];
      if r.job == reclaimed.job && RecordedExecution(r) == reclaimed.executionId && r in removable {
        continue;
      }
      left := left + [r];
    }
    assert resources[..|resources|] == resources;
  }

  /** Cleaning up after attempt `a` keeps everything labelled with another attempt of the same job. */
  lemma CleanupSparesOtherAttempts(job: string, a: nat, b: nat, r: Resource)
    requires a != b && b > 0 && r == Resource(job, Some(ExecutionId(job, b)))
    ensures RecordedExecution(r) != Reclaimed(job, ExecutionId(job, a)).executionId
  {
    if ExecutionId(job, b) == ExecutionId(job, a) {
      ExecutionIdInjective(job, a, b);
    }
  }

  // A sandbox that replaces another inside one attempt carries a suffixed label.
  function HandoverId(job: string, attempt: nat, suffix: string): string {
    ExecutionId(job, attempt) + "-r" + suffix
  }

  /** Cleaning up after an attempt never touches a sandbox handed over inside any attempt of the job. */
  lemma CleanupMissesHandovers(job: string, a: nat, b: nat, suffix: string, r: Resource)
    requires a > 0 && b > 0 && r == Resource(job, Some(HandoverId(job, b, suffix)))
    ensures RecordedExecution(r) != Reclaimed(job, ExecutionId(job, a)).executionId
  {
    var x, y := HandoverId(job, b, suffix), ExecutionId(job, a);
    var at := |ExecutionId(job, b)| + 1;
    assert x[at] == 'r' && 'r' !in DIGITS;
    assert forall k :: |job| + 2 <= k < |y| ==> y[k] in DIGITS;
  }
}
