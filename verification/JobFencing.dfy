/**
 What the leases guarantee in every run, whatever the workers, the users and the clock do:
 the run row always belongs to the newest attempt or to nobody, an attempt that recovery
 superseded is powerless for ever, and a job is claimed a bounded number of times.

 The check under the row locks compares what the attempt last saw.  A lease seen never outlasts
 the one stored, so it stops every attempt whose lease ran out; it does not stop an attempt
 whose run somebody closed since it last looked.
 */
module JobFencing {
  import opened Wrappers
  import opened JobRows
  import opened JobProtocol

  ghost predicate LeaseInv(c: Config, s: State) {
    && |s.attempts| == s.row.attempts
    && (forall i :: 0 <= i < |s.attempts| ==> s.attempts[i].lease.attempt == i + 1)
    && (forall i, j :: 0 <= i < j < |s.attempts| ==> s.attempts[i].lease.token != s.attempts[j].lease.token)
    && (s.row.run == RunRunning ==> HeldByNewest(s))
    && (s.row.run != RunRunning ==> s.row.token.None?)
    && (s.row.job == Queued || Terminal(s.row.job) ==> s.row.run != RunRunning)
    && (s.row.job == Queued && s.row.attempts > 0 ==> !Exhausted(c, s.row))
    && s.row.attempts <= s.row.resumed + (if c.maxAttempts > 0 then c.maxAttempts else 0)
  }

  ghost predicate HeldByNewest(s: State) {
    && |s.attempts| > 0
    && s.row.token == Some(s.attempts[|s.attempts| - 1].lease.token)
    && s.row.owner == Some(s.attempts[|s.attempts| - 1].lease.owner)
    && s.row.expires.Some?
  }

  ghost predicate SameLeases(s: State, t: State) {
    && |t.attempts| == |s.attempts|
    && forall i :: 0 <= i < |t.attempts| ==> t.attempts[i].lease == s.attempts[i].lease
  }

  // The lease columns are untouched and the job does not become queued or terminal.
  ghost predicate SameHold(r: Row, q: Row) {
    && q.run == r.run && q.token == r.token && q.owner == r.owner && q.expires == r.expires
    && q.attempts == r.attempts && q.resumed == r.resumed
    && (q.job == r.job || Active(q.job))
  }

  lemma HoldKept(c: Config, s: State, t: State)
    requires LeaseInv(c, s) && SameLeases(s, t) && SameHold(s.row, t.row)
    ensures LeaseInv(c, t)
  {
  }

  // The lease is given up; only a job that may be claimed again is queued.
  lemma HoldReleased(c: Config, s: State, t: State)
    requires LeaseInv(c, s) && SameLeases(s, t)
    requires t.row.run != RunRunning && t.row.token.None?
    requires t.row.attempts == s.row.attempts && t.row.resumed == s.row.resumed
    requires t.row.job == Queued ==> s.row.job == Queued || !Exhausted(c, s.row)
    ensures LeaseInv(c, t)
  {
  }

  predicate Releases(a: Action) {
    a.UserGone? || a.Succeed? || a.Fail? || a.AcknowledgeCancel? || a.UserCancel?
  }

  predicate Decides(a: Action) {
    a.Claim? || a.Heartbeat? || a.Start? || a.Recover?
  }

  lemma ReleaseStep(c: Config, s: State, a: Action)
    requires LeaseInv(c, s) && Enabled(c, s, a) && Releases(a)
    ensures LeaseInv(c, Apply(c, s, a))
    ensures Apply(c, s, a).row.resumed == s.row.resumed
  {
    HoldReleased(c, s, Apply(c, s, a));
  }

  lemma NeutralStep(c: Config, s: State, a: Action)
    requires LeaseInv(c, s) && Enabled(c, s, a) && !Releases(a) && !Decides(a)
    ensures SameLeases(s, Apply(c, s, a)) && SameHold(s.row, Apply(c, s, a).row)
  {
    hide LeaseInv;
  }

  lemma DecisionStep(c: Config, s: State, a: Action)
    requires LeaseInv(c, s) && Enabled(c, s, a) && Decides(a)
    ensures LeaseInv(c, Apply(c, s, a))
    ensures Apply(c, s, a).row.resumed == s.row.resumed
  {
    var t := Apply(c, s, a);
    if a.Claim? {
      ClaimKeepsLeases(c, s, a.owner, a.token);
    } else if a.Start? && s.row.job == Cancelled {
      HoldReleased(c, s, t);
    } else if a.Start? || (a.Heartbeat? && !HeartbeatAccepted(s.row, s.attempts[a.p].lease)) {
      HoldKept(c, s, t);
    } else if a.Recover? && Recoverable(s.row, a.now) {
      HoldReleased(c, s, t);
    }
  }

  lemma LeaseStep(c: Config, s: State, a: Action)
    requires LeaseInv(c, s) && Enabled(c, s, a)
    ensures LeaseInv(c, Apply(c, s, a))
    ensures Apply(c, s, a).row.resumed == s.row.resumed
  {
    if Decides(a) {
      DecisionStep(c, s, a);
    } else if Releases(a) {
      ReleaseStep(c, s, a);
    } else {
      NeutralStep(c, s, a);
      HoldKept(c, s, Apply(c, s, a));
    }
  }

  lemma ClaimKeepsLeases(c: Config, s: State, owner: string, token: string)
    requires LeaseInv(c, s) && Enabled(c, s, Claim(owner, token))
    ensures LeaseInv(c, Apply(c, s, Claim(owner, token)))
  {
  }

  lemma {:induction false} LeaseRun(c: Config, s: State, run: seq<Action>)
    requires LeaseInv(c, s) && Runs(c, s, run)
    ensures LeaseInv(c, After(c, s, run))
    ensures After(c, s, run).row.resumed == s.row.resumed
    decreases |run|
  {
    if run != [] {
      LeaseStep(c, s, run[0]);
      LeaseRun(c, Apply(c, s, run[0]), run[1..]);
    }
  }

  lemma InitialLeases(c: Config, resumed: nat)
    ensures LeaseInv(c, Init(resumed)) && SeenInv(Init(resumed))
  {
  }

  // ---------- what an attempt has seen ----------

  predicate Holds(s: State, i: nat) {
    i < |s.attempts| && s.row.token == Some(s.attempts[i].lease.token)
  }

  // The columns seen are those of the attempt's own running lease, expired or not.
  predicate SawOwn(q: Attempt) {
    && q.seen.run == RunRunning && q.seen.token == Some(q.lease.token)
    && q.seen.owner == Some(q.lease.owner) && q.seen.expires.Some?
  }

  // While an attempt holds the token, the expiry it saw is never later than the stored one.
  ghost predicate SeenInv(s: State) {
    forall i: nat :: Holds(s, i) && SawOwn(s.attempts[i]) ==>
      s.row.expires.Some? && s.attempts[i].seen.expires.value <= s.row.expires.value
  }

  predicate Reloads(s: State, a: Action, p: nat) {
    || (Checks(a) && a.p == p)
    || (a.Start? && a.p == p && s.row.job != Cancelled)
    || (a.SkipSave? && a.p == p && p < |s.attempts| && s.attempts[p].durable)
  }

  // Leases stay, and what has been seen of them stays for every attempt but one that reloads.
  ghost predicate SeenMove(s: State, a: Action, p: nat, t: State) {
    && p < |s.attempts| && p < |t.attempts|
    && t.attempts[p].lease == s.attempts[p].lease && t.clock >= s.clock
    && t.attempts[p].seen == (if Reloads(s, a, p) then LeaseColumns(s.row) else s.attempts[p].seen)
    && (Reloads(s, a, p) ==> LeaseColumns(t.row) == LeaseColumns(s.row))
  }

  lemma SeenShape(c: Config, s: State, a: Action, p: nat)
    requires Enabled(c, s, a) && p < |s.attempts|
    ensures SeenMove(s, a, p, Apply(c, s, a))
  {
    hide Apply, Enabled;
    if MovesPhase(a) {
      PhaseMove(c, s, a);
    } else if Checks(a) {
      CheckMove(c, s, a);
    } else {
      SeenOtherwise(c, s, a, p);
    }
  }

  lemma SeenOtherwise(c: Config, s: State, a: Action, p: nat)
    requires Enabled(c, s, a) && p < |s.attempts| && !MovesPhase(a) && !Checks(a)
    ensures SeenMove(s, a, p, Apply(c, s, a))
  {
  }

  // How a step may change the token: it stays, with no earlier expiry, or it is given up, or a claim sets it.
  ghost predicate TokenMove(c: Config, s: State, a: Action, t: State) {
    && (t.row.token.Some? && t.row.token == s.row.token ==>
          s.row.expires.Some? && t.row.expires.Some? && s.row.expires.value <= t.row.expires.value)
    && (t.row.token.Some? && t.row.token != s.row.token ==>
          a.Claim? && t.row.token == Some(a.token) && s.row.token.None? && |t.attempts| == |s.attempts| + 1
          && t.attempts[|s.attempts|].lease.token == a.token
          && t.attempts[|s.attempts|].seen == LeaseColumns(t.row))
    && (|t.attempts| > |s.attempts| ==> t.row.token.Some? && t.row.token != s.row.token)
    && (a.Recover? && s.row.token.Some? && t.row.token != s.row.token ==>
          s.row.expires.Some? && s.row.expires.value <= t.clock)
  }

  lemma TokenShape(c: Config, s: State, a: Action)
    requires LeaseInv(c, s) && Enabled(c, s, a)
    ensures TokenMove(c, s, a, Apply(c, s, a))
  {
    if Decides(a) {
      TokenDecided(c, s, a);
    } else if Releases(a) {
      TokenReleased(c, s, a);
    } else {
      assert s.row.token.Some? ==> s.row.expires.Some?;
      hide Apply, Enabled, LeaseInv;
      NeutralStep(c, s, a);
    }
  }

  lemma TokenDecided(c: Config, s: State, a: Action)
    requires LeaseInv(c, s) && Enabled(c, s, a) && Decides(a)
    ensures TokenMove(c, s, a, Apply(c, s, a))
  {
  }

  lemma TokenReleased(c: Config, s: State, a: Action)
    requires LeaseInv(c, s) && Enabled(c, s, a) && Releases(a)
    ensures TokenMove(c, s, a, Apply(c, s, a))
  {
  }

  lemma SeenStep(c: Config, s: State, a: Action)
    requires LeaseInv(c, s) && SeenInv(s) && Enabled(c, s, a)
    ensures SeenInv(Apply(c, s, a))
  {
    var t := Apply(c, s, a);
    LeaseStep(c, s, a);
    TokenShape(c, s, a);
    forall i: nat | Holds(t, i) && SawOwn(t.attempts[i])
      ensures t.row.expires.Some? && t.attempts[i].seen.expires.value <= t.row.expires.value
    {
      SeenStepAt(c, s, a, i);
    }
  }

  lemma SeenStepAt(c: Config, s: State, a: Action, i: nat)
    requires LeaseInv(c, s) && SeenInv(s) && Enabled(c, s, a) && LeaseInv(c, Apply(c, s, a))
    requires Holds(Apply(c, s, a), i) && SawOwn(Apply(c, s, a).attempts[i])
    ensures var t := Apply(c, s, a);
            t.row.expires.Some? && t.attempts[i].seen.expires.value <= t.row.expires.value
  {
    hide Apply, Enabled;
    TokenShape(c, s, a);
    if i < |s.attempts| {
      SeenShape(c, s, a, i);
      TokenIsKept(c, s, a, i);
    }
    SeenMoved(c, s, a, Apply(c, s, a), i);
  }

  lemma SeenMoved(c: Config, s: State, a: Action, t: State, i: nat)
    requires LeaseInv(c, t) && SeenInv(s) && TokenMove(c, s, a, t) && Holds(t, i) && SawOwn(t.attempts[i])
    requires i < |s.attempts| ==> SeenMove(s, a, i, t) && Holds(s, i)
    ensures t.row.expires.Some? && t.attempts[i].seen.expires.value <= t.row.expires.value
  {
    if i < |s.attempts| {
      assert Holds(s, i);
    } else {
      assert t.row.run == RunRunning;
    }
  }

  lemma {:induction false} SeenRun(c: Config, s: State, run: seq<Action>)
    requires LeaseInv(c, s) && SeenInv(s) && Runs(c, s, run)
    ensures SeenInv(After(c, s, run))
    decreases |run|
  {
    if run != [] {
      LeaseStep(c, s, run[0]);
      SeenStep(c, s, run[0]);
      SeenRun(c, Apply(c, s, run[0]), run[1..]);
    }
  }

  // ---------- whose commits get through ----------

  // The commits that compare what was seen under the row locks.
  predicate LockedCommit(s: State, a: Action, p: nat) {
    match a
    case PublishPointer(q, _) => q == p
    case MarkInFlight(q, _) =>
      q == p && p < |s.attempts| && s.attempts[p].durable && s.attempts[p].cached.Some?
    case Succeed(q) => q == p
    case _ => false
  }

  // A failure is recorded after a rollback, so its check reads the row; a heartbeat always does.
  predicate FreshCommit(s: State, a: Action, p: nat) {
    || (a.Fail? && a.p == p)
    || (a.Heartbeat? && a.p == p && p < |s.attempts| && HeartbeatAccepted(s.row, s.attempts[p].lease))
  }

  /** The newest attempt holds the token of the running run. */
  predicate Current(s: State, p: nat) {
    && p == |s.attempts| - 1 && Holds(s, p) && s.row.run == RunRunning
    && s.attempts[p].lease.attempt == s.row.attempts
  }

  /** A recorded failure and an effective heartbeat are always the current attempt's. */
  lemma FreshCommitIsCurrent(c: Config, s: State, a: Action, p: nat)
    requires LeaseInv(c, s) && Enabled(c, s, a) && FreshCommit(s, a, p)
    ensures Current(s, p)
    ensures a.Fail? ==> s.row.expires.Some? && s.row.expires.value > s.clock
  {
  }

  // Somebody closes the run under the attempt: a cancellation, a missing user, another commit.
  predicate Closes(c: Config, s: State, a: Action, p: nat)
    requires Enabled(c, s, a)
  {
    Holds(s, p) && !Holds(Apply(c, s, a), p) && !a.Recover?
  }

  /** The run was closed under the attempt, and the attempt has not looked at it since. */
  predicate ClosedSince(c: Config, s: State, run: seq<Action>, p: nat, closed: bool)
    requires Runs(c, s, run)
    decreases |run|
  {
    if run == [] then closed
    else ClosedSince(c, Apply(c, s, run[0]), run[1..], p, ClosedAfter(c, s, run[0], p, closed))
  }

  predicate ClosedAfter(c: Config, s: State, a: Action, p: nat, closed: bool)
    requires Enabled(c, s, a)
  {
    !Reloads(s, a, p) && (closed || Closes(c, s, a, p))
  }

  // What an unlooked-at closing means for what the attempt has seen.
  ghost predicate ClosedInv(s: State, p: nat, closed: bool) {
    && (p >= |s.attempts| ==> !closed)
    && (p < |s.attempts| && SawOwn(s.attempts[p]) ==>
          && (Holds(s, p) ==> !closed)
          && (!Holds(s, p) && !closed ==> s.attempts[p].seen.expires.value <= s.clock))
  }

  lemma ClosedStep(c: Config, s: State, a: Action, p: nat, closed: bool)
    requires LeaseInv(c, s) && SeenInv(s) && Enabled(c, s, a) && ClosedInv(s, p, closed)
    ensures ClosedInv(Apply(c, s, a), p, ClosedAfter(c, s, a, p, closed))
  {
    hide Apply, Enabled, LeaseInv;
    TokenShape(c, s, a);
    if p < |s.attempts| {
      SeenShape(c, s, a, p);
      TokenIsKept(c, s, a, p);
    } else if p < |Apply(c, s, a).attempts| {
      NewAttemptHolds(c, s, a, p);
    }
    ClosedMoved(c, s, a, Apply(c, s, a), p, closed, ClosedAfter(c, s, a, p, closed));
  }

  lemma ClosedMoved(c: Config, s: State, a: Action, t: State, p: nat, closed: bool, after: bool)
    requires SeenInv(s) && TokenMove(c, s, a, t) && ClosedInv(s, p, closed)
    requires after <==> !Reloads(s, a, p) && (closed || (Holds(s, p) && !Holds(t, p) && !a.Recover?))
    requires p < |s.attempts| ==> SeenMove(s, a, p, t) && (Holds(t, p) ==> Holds(s, p))
    requires p >= |s.attempts| && p < |t.attempts| ==> Holds(t, p)
    ensures ClosedInv(t, p, after)
  {
    if p < |s.attempts| && Holds(s, p) && SawOwn(s.attempts[p]) {
      assert s.attempts[p].seen.expires.value <= s.row.expires.value;
    }
  }

  // Nobody regains a token, and an attempt that reloads sees its own lease only if it holds it.
  lemma TokenIsKept(c: Config, s: State, a: Action, p: nat)
    requires LeaseInv(c, s) && Enabled(c, s, a) && p < |s.attempts|
    ensures Holds(Apply(c, s, a), p) ==> Holds(s, p)
  {
    assert a.Claim? ==> FreshToken(s, a.token);
    hide Apply, Enabled, LeaseInv;
    TokenShape(c, s, a);
    SeenShape(c, s, a, p);
  }

  lemma NewAttemptHolds(c: Config, s: State, a: Action, p: nat)
    requires LeaseInv(c, s) && Enabled(c, s, a) && |s.attempts| <= p < |Apply(c, s, a).attempts|
    ensures Holds(Apply(c, s, a), p)
  {
    hide Apply, Enabled, LeaseInv;
    TokenShape(c, s, a);
  }

  lemma {:induction false} ClosedRun(c: Config, s: State, run: seq<Action>, p: nat, closed: bool)
    requires LeaseInv(c, s) && SeenInv(s) && Runs(c, s, run) && ClosedInv(s, p, closed)
    ensures ClosedInv(After(c, s, run), p, ClosedSince(c, s, run, p, closed))
    decreases |run|
  {
    if run != [] {
      LeaseStep(c, s, run[0]);
      SeenStep(c, s, run[0]);
      ClosedStep(c, s, run[0], p, closed);
      ClosedRun(c, Apply(c, s, run[0]), run[1..], p, ClosedAfter(c, s, run[0], p, closed));
    }
  }

  /**
   Whose locked commits get through.  In every run, a checkpoint, an in-flight mark or a success
   is committed by the newest attempt, holding the token of an unexpired lease, if and only if
   nobody closed the run since that attempt last loaded it.
   */
  lemma LockedCommitIsCurrentIff(c: Config, resumed: nat, run: seq<Action>, a: Action, p: nat)
    requires Runs(c, Init(resumed), run)
    requires Enabled(c, After(c, Init(resumed), run), a) && LockedCommit(After(c, Init(resumed), run), a, p)
    ensures var s := After(c, Init(resumed), run);
            Current(s, p) && s.row.expires.Some? && s.row.expires.value > s.clock
            <==> !ClosedSince(c, Init(resumed), run, p, false)
  {
    InitialLeases(c, resumed);
    LeaseRun(c, Init(resumed), run);
    SeenRun(c, Init(resumed), run);
    ClosedRun(c, Init(resumed), run, p, false);
    var s := After(c, Init(resumed), run);
    LockedCommitSawOwn(c, s, a, p);
  }

  lemma LockedCommitSawOwn(c: Config, s: State, a: Action, p: nat)
    requires LeaseInv(c, s) && Enabled(c, s, a) && LockedCommit(s, a, p)
    ensures SeesLease(s, p) && SawOwn(s.attempts[p])
    ensures Holds(s, p) ==> Current(s, p)
  {
  }

  // ---------- supersession ----------

  /** An attempt is superseded once the row no longer carries its token. */
  predicate Superseded(s: State, p: nat) {
    p < |s.attempts| && s.row.token != Some(s.attempts[p].lease.token)
  }

  /** A superseded attempt passes no unlocked check, records no failure and extends no lease. */
  lemma SupersededStep(c: Config, s: State, a: Action, p: nat)
    requires LeaseInv(c, s) && Enabled(c, s, a) && Superseded(s, p)
    ensures Superseded(Apply(c, s, a), p)
    ensures !FreshCommit(s, a, p) && !(Checks(a) && a.p == p)
    ensures !SeesLease(s, p) ==> !SeesLease(Apply(c, s, a), p) && !LockedCommit(s, a, p)
  {
    hide Apply, Enabled, LeaseInv;
    if FreshCommit(s, a, p) {
      FreshCommitIsCurrent(c, s, a, p);
    }
    if Checks(a) {
      CheckMove(c, s, a);
    }
    TokenIsKept(c, s, a, p);
    SeenShape(c, s, a, p);
    if LockedCommit(s, a, p) {
      LockedCommitSawOwn(c, s, a, p);
    }
  }

  /**
   Fencing over whole runs: once an attempt is superseded and its lease as it saw it has run out,
   no later action of any run is a commit, a failure or a heartbeat of that attempt.
   */
  lemma {:induction false} SupersededForever(c: Config, s: State, run: seq<Action>, p: nat, k: nat)
    requires LeaseInv(c, s) && Runs(c, s, run) && Superseded(s, p) && !SeesLease(s, p) && k < |run|
    ensures Runs(c, s, run[..k])
    ensures var t := After(c, s, run[..k]);
            Superseded(t, p) && !LockedCommit(t, run[k], p) && !FreshCommit(t, run[k], p)
    decreases |run|
  {
    hide Apply, Enabled, LeaseInv, LockedCommit, FreshCommit;
    SupersededStep(c, s, run[0], p);
    LeaseStep(c, s, run[0]);
    if k > 0 {
      assert run[..k][1..] == run[1..][..k - 1] && run[..k][0] == run[0];
      SupersededForever(c, Apply(c, s, run[0]), run[1..], p, k - 1);
    }
  }

  /** Recovery takes a job only from an attempt whose lease, as it saw it too, has run out. */
  lemma RecoverySupersedes(c: Config, s: State, a: Action, p: nat)
    requires LeaseInv(c, s) && SeenInv(s) && Enabled(c, s, a) && Holds(s, p)
    requires a.Recover? && Recoverable(s.row, a.now)
    ensures Superseded(Apply(c, s, a), p) && !SeesLease(Apply(c, s, a), p)
  {
    TokenShape(c, s, a);
    SeenShape(c, s, a, p);
  }

  /** Requeueing and claiming both supersede whoever held the job. */
  lemma ReclaimSupersedes(c: Config, s: State, a: Action, p: nat)
    requires LeaseInv(c, s) && Enabled(c, s, a) && p < |s.attempts|
    requires a.Claim? || (a.Recover? && Recoverable(s.row, a.now))
    ensures Superseded(Apply(c, s, a), p)
  {
  }

  /**
   A reclaimed attempt never comes back: after a recovery that took the job from an attempt, in
   every continuation, none of its commits, failures or heartbeats takes effect.
   */
  lemma ReclaimedForever(c: Config, resumed: nat, before: seq<Action>, now: nat, p: nat, after: seq<Action>, k: nat)
    requires Runs(c, Init(resumed), before)
    requires var s := After(c, Init(resumed), before);
             && Enabled(c, s, Recover(now)) && Recoverable(s.row, now) && Holds(s, p)
             && Runs(c, Apply(c, s, Recover(now)), after) && k < |after|
    ensures var s := Apply(c, After(c, Init(resumed), before), Recover(now));
            && Runs(c, s, after[..k])
            && !LockedCommit(After(c, s, after[..k]), after[k], p)
            && !FreshCommit(After(c, s, after[..k]), after[k], p)
  {
    InitialLeases(c, resumed);
    LeaseRun(c, Init(resumed), before);
    SeenRun(c, Init(resumed), before);
    var s := After(c, Init(resumed), before);
    RecoverySupersedes(c, s, Recover(now), p);
    LeaseStep(c, s, Recover(now));
    SupersededForever(c, Apply(c, s, Recover(now)), after, p, k);
  }

  /** A heartbeat that arrives after expiry but before recovery revives the lease. */
  lemma LateHeartbeatRevives(c: Config, s: State, p: nat)
    requires LeaseInv(c, s) && Enabled(c, s, Heartbeat(p, s.clock)) && c.leaseSeconds > 0
    requires FreshCommit(s, Heartbeat(p, s.clock), p) && s.row.expires.value <= s.clock
    ensures !FreshCheck(s, p) && FreshCheck(Apply(c, s, Heartbeat(p, s.clock)), p)
  {
    FreshCommitIsCurrent(c, s, Heartbeat(p, s.clock), p);
  }

  /** From submission on, a job is claimed at most `maxAttempts` times beyond its answered attempts. */
  lemma BoundedClaims(c: Config, resumed: nat, run: seq<Action>)
    requires Runs(c, Init(resumed), run)
    ensures var s := After(c, Init(resumed), run);
            && |s.attempts| == s.row.attempts
            && |s.attempts| <= resumed + (if c.maxAttempts > 0 then c.maxAttempts else 0)
  {
    InitialLeases(c, resumed);
    LeaseRun(c, Init(resumed), run);
  }

  /** A job that has run before and is queued again is never turned away as exhausted. */
  lemma RequeuedIsClaimable(c: Config, resumed: nat, run: seq<Action>, owner: string, token: string)
    requires Runs(c, Init(resumed), run)
    requires var s := After(c, Init(resumed), run);
             s.row.attempts > 0 && Enabled(c, s, Claim(owner, token))
    ensures var s := After(c, Init(resumed), run);
            var t := Apply(c, s, Claim(owner, token));
            && t.row.job == Running && t.row.attempts == s.row.attempts + 1
            && t.attempts[|s.attempts|].lease == Lease(token, owner, s.row.attempts + 1)
            && LeaseCurrent(t.row, t.attempts[|s.attempts|].lease, s.clock) == (c.leaseSeconds > 0)
  {
    InitialLeases(c, resumed);
    LeaseRun(c, Init(resumed), run);
  }
}
