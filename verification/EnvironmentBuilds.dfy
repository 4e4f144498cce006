/**
 The build of a prepared environment under a fenced lease: one row, any number of builders,
 and a clock that only moves forward.

 Builders update the row under their fence.  Two writers do not: an administrator's revocation,
 and a job that read the row as ready, found its image missing and then marks the row failed,
 whatever it has become in between.
 */
module EnvironmentBuilds {
  import opened Wrappers

  datatype Status = Queued | Building | Probing | Ready | Failed | Revoked

  /**
   Attempt tokens are never reused; a token is the serial number of its claim.  `marked` is the
   builder's own verdict on a failure, `transient` what the error message says of it.
   */
  datatype Row = Row(
    status: Status, attempt: Option<nat>, leaseUntil: int, image: Option<string>,
    marked: Option<bool>, transient: bool, updatedAt: int)

  const MAX_TRANSIENT_RETRIES: nat := 2
  const REQUEUE_COOLDOWN: nat := 300

  predicate InBuild(row: Row) {
    row.status == Building || row.status == Probing
  }

  // The builder's verdict decides; without one, the message does.
  predicate Retryable(row: Row) {
    row.marked == Some(true) || (row.marked.None? && row.transient)
  }

  // What a build has left behind: its image, the verdict on its failure and what the message says.
  function Verdict(row: Row): (Option<string>, Option<bool>, bool) {
    (row.image, row.marked, row.transient)
  }

  // The condition of every update a builder makes.
  predicate Holds(row: Row, token: nat, now: int) {
    row.attempt == Some(token) && InBuild(row) && row.leaseUntil > now
  }

  // ---------- the row, updated in place ----------

  class EnvironmentRow {
    var row: Row
    var claims: nat

    constructor (now: int)
      ensures row == Row(Queued, None, now, None, None, false, now) && claims == 0
    {
      row := Row(Queued, None, now, None, None, false, now);
      claims := 0;
    }

    method ClaimEnvironment(now: int, leaseSeconds: nat) returns (token: Option<nat>)
      modifies this
      ensures row == Claimed(Reaped(old(row), now), old(claims), now, leaseSeconds)
      ensures token == (if old(row).status == Queued then Some(old(claims)) else None)
      ensures token.Some? ==>
                row == old(row).(
                  status := Building, attempt := token, leaseUntil := now + leaseSeconds, updatedAt := now)
      ensures old(row).status in {Building, Probing} && old(row).leaseUntil < now ==>
                row == old(row).(status := Failed, attempt := None, transient := true, updatedAt := now)
      ensures old(row).status in {Ready, Failed, Revoked} || (token.None? && old(row).leaseUntil >= now) ==>
                row == old(row)
      ensures claims == old(claims) + (if token.Some? then 1 else 0)
      ensures token.Some? && leaseSeconds > 0 ==> Holds(row, token.value, now)
      ensures token.Some? ==> forall other, at :: other != token.value ==> !Holds(row, other, at)
    {
      if InBuild(row) && row.leaseUntil < now {
        row := row.(status := Failed, attempt := None, transient := true, updatedAt := now);
      }
      if row.status != Queued {
        return None;
      }
      token := Some(claims);
      claims := claims + 1;
      row := row.(status := Building, attempt := token, leaseUntil := now + leaseSeconds, updatedAt := now);
    }

    method RenewLease(token: nat, now: int, leaseSeconds: nat) returns (ok: bool)
      modifies this`row
      ensures ok == Holds(old(row), token, now)
      ensures ok <==> old(row).attempt == Some(token) && old(row).status in {Building, Probing}
                      && old(row).leaseUntil > now
      ensures row == if ok then Renewed(old(row), now, leaseSeconds) else old(row)
      ensures ok ==> row.status == Building && row.leaseUntil == now + leaseSeconds && row.updatedAt == now
      ensures ok ==> row.attempt == old(row).attempt && Verdict(row) == Verdict(old(row))
    {
      ok := row.attempt == Some(token) && InBuild(row) && row.leaseUntil > now;
      if ok {
        row := row.(status := Building, leaseUntil := now + leaseSeconds, updatedAt := now);
      }
    }

    method FinishAttempt(token: nat, now: int, outcome: Outcome) returns (ok: bool)
      modifies this`row
      ensures ok == Holds(old(row), token, now)
      ensures ok <==> old(row).attempt == Some(token) && old(row).status in {Building, Probing}
                      && old(row).leaseUntil > now
      ensures row == if ok then Finished(old(row), now, outcome) else old(row)
      ensures ok ==> row.attempt == old(row).attempt && row.leaseUntil == old(row).leaseUntil && row.updatedAt == now
      ensures ok && outcome.ProbeStarted? ==> row.status == Probing && Verdict(row) == Verdict(old(row))
      ensures ok && outcome.Built? ==> row.status == Ready && Verdict(row) == (Some(outcome.image), None, false)
      ensures ok && outcome.BuildFailed? ==>
                row.status == Failed && row.image.None? && row.marked == Some(outcome.retryable)
                && (Retryable(row) <==> outcome.retryable)
      ensures ok && !outcome.ProbeStarted? ==> forall other, at :: !Holds(row, other, at)
    {
      ok := row.attempt == Some(token) && InBuild(row) && row.leaseUntil > now;
      if ok {
        match outcome
        case ProbeStarted => row := row.(status := Probing, updatedAt := now);
        case Built(image) =>
          row := row.(status := Ready, image := Some(image), marked := None, transient := false, updatedAt := now);
        case BuildFailed(retryable) =>
          row := row.(
            status := Failed, image := None, marked := Some(retryable), transient := retryable, updatedAt := now);
      }
    }

    method RetryFailed(now: int)
      modifies this`row
      ensures row == Retried(old(row), now)
      ensures old(row).status == Failed ==>
                row == old(row).(status := Queued, attempt := None, transient := false, updatedAt := now)
      ensures row != old(row) ==> old(row).status == Failed && forall other, at :: !Holds(row, other, at)
    {
      if row.status == Failed {
        row := row.(status := Queued, attempt := None, transient := false, updatedAt := now);
      }
    }

    method Revoke(now: int)
      modifies this`row
      ensures row == Disabled(old(row), now)
      ensures row.status == Revoked && row.attempt.None? && !row.transient && row.updatedAt == now
      ensures row.leaseUntil == old(row).leaseUntil && row.image == old(row).image && row.marked == old(row).marked
      ensures forall other, at :: !Holds(row, other, at)
    {
      row := row.(status := Revoked, attempt := None, transient := false, updatedAt := now);
    }

    // A job that had read the row as ready did not find its image.
    method MarkImageMissing(now: int)
      modifies this`row
      ensures row == ImageMissing(old(row), now)
      ensures row == old(row).(status := Failed, transient := false, updatedAt := now)
      ensures forall other, at :: !Holds(row, other, at)
    {
      row := row.(status := Failed, transient := false, updatedAt := now);
    }

    method RequeueFailed(now: int)
      modifies this`row
      ensures row == Requeued(old(row), now)
      ensures row != old(row) <==>
              && old(row).status == Failed && old(row).updatedAt <= now - REQUEUE_COOLDOWN
              && (old(row).marked == Some(true) || (old(row).marked.None? && old(row).transient))
      ensures row != old(row) ==>
                row.status == Queued && row.attempt.None? && Verdict(row) == (None, None, false) && row.updatedAt == now
      ensures row != old(row) ==> Retryable(old(row)) && forall other, at :: !Holds(row, other, at)
    {
      if row.status == Failed && Retryable(row) && row.updatedAt <= now - REQUEUE_COOLDOWN {
        row := Row(Queued, None, row.leaseUntil, None, None, false, now);
      }
    }
  }

  datatype Outcome = ProbeStarted | Built(image: string) | BuildFailed(retryable: bool)

  // Claiming first fails the builds whose lease has run out.
  function Reaped(row: Row, now: int): Row {
    if InBuild(row) && row.leaseUntil < now
    then row.(status := Failed, attempt := None, transient := true, updatedAt := now) else row
  }

  function Claimed(row: Row, token: nat, now: int, leaseSeconds: nat): Row {
    if row.status != Queued then row
    else row.(status := Building, attempt := Some(token), leaseUntil := now + leaseSeconds, updatedAt := now)
  }

  function Renewed(row: Row, now: int, leaseSeconds: nat): Row {
    row.(status := Building, leaseUntil := now + leaseSeconds, updatedAt := now)
  }

  function Finished(row: Row, now: int, outcome: Outcome): Row {
    match outcome
    case ProbeStarted => row.(status := Probing, updatedAt := now)
    case Built(image) =>
      row.(status := Ready, image := Some(image), marked := None, transient := false, updatedAt := now)
    case BuildFailed(retryable) =>
      row.(status := Failed, image := None, marked := Some(retryable), transient := retryable, updatedAt := now)
  }

  // A user may requeue any failed build; the verdict on it stays.
  function Retried(row: Row, now: int): Row {
    if row.status != Failed then row
    else row.(status := Queued, attempt := None, transient := false, updatedAt := now)
  }

  function Disabled(row: Row, now: int): Row {
    row.(status := Revoked, attempt := None, transient := false, updatedAt := now)
  }

  // Only the status and the message change; token, lease, image and verdict stay.
  function ImageMissing(row: Row, now: int): Row {
    row.(status := Failed, transient := false, updatedAt := now)
  }

  function Requeued(row: Row, now: int): Row {
    if row.status == Failed && Retryable(row) && row.updatedAt <= now - REQUEUE_COOLDOWN
    then Row(Queued, None, row.leaseUntil, None, None, false, now) else row
  }

  // ---------- one builder ----------

  datatype BuildEnd = BuildOk | LeaseLost | Transient | Permanent

  datatype BuilderEnd = DoneReady | DoneFailed | Discarded

  /**
   A claimed build with its retries: `ends(k)` is how build number `k` ends and `renewed(k)`
   whether the lease could be renewed after it.
   */
  method ProcessOne(ends: nat -> BuildEnd, renewed: nat -> bool) returns (builds: nat, r: BuilderEnd)
    ensures 1 <= builds <= MAX_TRANSIENT_RETRIES + 1
    ensures forall k :: 0 <= k < builds - 1 ==> ends(k) == Transient && renewed(k)
    ensures r == DoneReady <==> ends(builds - 1) == BuildOk
    ensures r == DoneFailed <==> ends(builds - 1) == Permanent
                                 || (ends(builds - 1) == Transient && builds == MAX_TRANSIENT_RETRIES + 1)
    ensures ends(builds - 1) == Transient && builds <= MAX_TRANSIENT_RETRIES ==> !renewed(builds - 1)
  {
    builds := 0;
    var transient := 0;
    while true
      invariant builds == transient <= MAX_TRANSIENT_RETRIES
      invariant forall k :: 0 <= k < builds ==> ends(k) == Transient && renewed(k)
      decreases MAX_TRANSIENT_RETRIES - transient
    {
      builds := builds + 1;
      match ends(builds - 1)
      case BuildOk => return builds, DoneReady;
      case LeaseLost => return builds, Discarded;
      case Permanent => return builds, DoneFailed;
      case Transient =>
        if transient >= MAX_TRANSIENT_RETRIES {
          return builds, DoneFailed;
        }
        transient := transient + 1;
        if !renewed(builds - 1) {
          return builds, Discarded;
        }
    }
  }

  // ---------- runs ----------

  // `readers` are the jobs that have read the row as ready and still look for its image.
  datatype State = State(row: Row, claims: nat, now: int, lease: nat, readers: nat)

  // Every builder may take any of its steps at any time; a stale one is refused by the row.
  datatype Action =
    | Tick(seconds: nat)
    | Claim
    | Renew(token: nat)
    | Finish(token: nat, outcome: Outcome)
    | Requeue
    | Retry
    | Revoke
    | ReadReady
    | FoundImage
    | MissedImage

  function Apply(s: State, a: Action): State {
    match a
    case Tick(seconds) => s.(now := s.now + seconds)
    case Claim =>
      var row := Reaped(s.row, s.now);
      if row.status == Queued then s.(row := Claimed(row, s.claims, s.now, s.lease), claims := s.claims + 1)
      else s.(row := row)
    case Renew(token) => if Holds(s.row, token, s.now) then s.(row := Renewed(s.row, s.now, s.lease)) else s
    case Finish(token, outcome) =>
      if Holds(s.row, token, s.now) then s.(row := Finished(s.row, s.now, outcome)) else s
    case Requeue => s.(row := Requeued(s.row, s.now))
    case Retry => s.(row := Retried(s.row, s.now))
    case Revoke => s.(row := Disabled(s.row, s.now))
    case ReadReady => if s.row.status == Ready then s.(readers := s.readers + 1) else s
    case FoundImage => if s.readers > 0 then s.(readers := s.readers - 1) else s
    case MissedImage =>
      if s.readers > 0 then s.(row := ImageMissing(s.row, s.now), readers := s.readers - 1) else s
  }

  function After(s: State, actions: seq<Action>): State
    decreases |actions|
  {
    if actions == [] then s else After(Apply(s, actions[0]), actions[1..])
  }

  predicate Tokens(s: State) {
    && (s.row.attempt.Some? ==> s.row.attempt.value < s.claims)
    && (InBuild(s.row) ==> s.row.attempt == Some(s.claims - 1) && s.claims > 0)
    && (s.row.status == Ready ==> s.row.image.Some?)
  }

  lemma {:induction false} RunKeepsTokens(s: State, actions: seq<Action>)
    requires Tokens(s)
    ensures Tokens(After(s, actions)) && After(s, actions).claims >= s.claims
    decreases |actions|
  {
    if actions != [] {
      RunKeepsTokens(Apply(s, actions[0]), actions[1..]);
    }
  }

  /** A row becomes ready only by the newest claim, within its lease and with the image it built. */
  lemma ReadyOnlyByHolder(s: State, actions: seq<Action>, a: Action)
    requires Tokens(s) && After(s, actions).row.status != Ready
    requires Apply(After(s, actions), a).row.status == Ready
    ensures var t := After(s, actions);
            && a.Finish? && a.outcome.Built? && t.row.attempt == Some(a.token) && a.token == t.claims - 1
            && t.row.leaseUntil > t.now
            && Apply(t, a).row.image == Some(a.outcome.image)
  {
    RunKeepsTokens(s, actions);
  }

  // The builder no longer holds the row: expired, finished, failed, requeued or reclaimed.
  predicate Lost(s: State, token: nat) {
    token < s.claims && !Holds(s.row, token, s.now)
  }

  lemma {:induction false} LostForever(s: State, token: nat, actions: seq<Action>)
    requires Tokens(s) && Lost(s, token)
    ensures Lost(After(s, actions), token)
    decreases |actions|
  {
    if actions != [] {
      LostForever(Apply(s, actions[0]), token, actions[1..]);
    }
  }

  predicate By(a: Action, token: nat) {
    (a.Renew? || a.Finish?) && a.token == token
  }

  /** A builder that lost its row never changes it again, whatever else happens. */
  lemma LostBuilderIsFenced(s: State, token: nat, actions: seq<Action>, a: Action)
    requires Tokens(s) && Lost(s, token) && By(a, token)
    ensures Apply(After(s, actions), a) == After(s, actions)
  {
    LostForever(s, token, actions);
  }

  /** A claim, an expiry, a requeue, a revocation and a lost image each take the row from every builder. */
  lemma ClaimSupersedes(s: State, a: Action, token: nat)
    requires Tokens(s) && token < s.claims
    requires || (&& (a == Requeue || a == Retry || a == Revoke || a == MissedImage || a == Claim)
                 && Apply(s, a).row != s.row)
             || (a.Tick? && s.now + a.seconds >= s.row.leaseUntil)
    ensures Lost(Apply(s, a), token)
  {
  }

  /** A crashed build can always be requeued after the cooldown, unless an older verdict forbids it. */
  lemma ExpiredIsRetryable(row: Row, now: int, later: int)
    requires InBuild(row) && row.leaseUntil < now && later >= now + REQUEUE_COOLDOWN
    ensures Requeued(Reaped(row, now), later).status == Queued <==> row.marked != Some(false)
  {
    assert Reaped(row, now).marked == row.marked && Reaped(row, now).transient;
    match row.marked
    case None =>
    case Some(verdict) => assert Retryable(Reaped(row, now)) <==> verdict;
  }

  /**
   A builder's verdict outlives whatever an earlier build left behind: a recorded failure is
   requeued exactly when it was called retryable and the cooldown is over, with nothing left of it;
   a user may retry it at once, and the verdict then stays with the row.
   */
  lemma VerdictDecides(row: Row, now: int, later: int, retryable: bool)
    ensures var failed := Finished(row, now, BuildFailed(retryable));
            && (Requeued(failed, later).status == Queued <==> retryable && later >= now + REQUEUE_COOLDOWN)
            && (Requeued(failed, later).status == Queued ==> Verdict(Requeued(failed, later)) == (None, None, false))
            && Retried(failed, later).status == Queued && Retried(failed, later).marked == Some(retryable)
            && Retried(failed, later).image.None? && Retried(failed, later).attempt.None?
  {
    assert retryable || !Retryable(Finished(row, now, BuildFailed(retryable)));
  }

  // The unguarded writes that take effect.
  predicate Overrides(s: State, a: Action) {
    a == Revoke || (a == MissedImage && s.readers > 0)
  }

  lemma ReadyStep(s: State, a: Action)
    requires s.row.status == Ready
    ensures if Overrides(s, a) then Apply(s, a).row.status != Ready else Apply(s, a).row == s.row
  {
  }

  // Every state of a run has the row it began with.
  predicate Unchanged(s: State, actions: seq<Action>, row: Row)
    decreases |actions|
  {
    s.row == row && (actions != [] ==> Unchanged(Apply(s, actions[0]), actions[1..], row))
  }

  // Some action of a run overrides the row.
  predicate Overridden(s: State, actions: seq<Action>)
    decreases |actions|
  {
    actions != [] && (Overrides(s, actions[0]) || Overridden(Apply(s, actions[0]), actions[1..]))
  }

  /**
   A ready row stays as it is through a run if and only if the run has no revocation and no job
   that read it as ready writes it failed; builders, expiries, retries and requeues never touch it.
   */
  lemma {:induction false} ReadyIsFinal(s: State, actions: seq<Action>)
    requires s.row.status == Ready
    ensures Unchanged(s, actions, s.row) <==> !Overridden(s, actions)
    decreases |actions|
  {
    if actions != [] {
      ReadyStep(s, actions[0]);
      if Apply(s, actions[0]).row == s.row {
        ReadyIsFinal(Apply(s, actions[0]), actions[1..]);
      }
    }
  }

  lemma {:induction false} RevokedStays(s: State, actions: seq<Action>)
    requires s.row.status == Revoked && s.readers == 0
    ensures After(s, actions).row.status == Revoked && After(s, actions).claims == s.claims
    decreases |actions|
  {
    if actions != [] {
      RevokedStays(Apply(s, actions[0]), actions[1..]);
    }
  }

  // A job's late write, a user's retry and a claim.
  const REBUILD: seq<Action> := [MissedImage, Retry, Claim]

  lemma RunOne(s: State, a: Action, rest: seq<Action>)
    ensures After(s, [a] + rest) == After(Apply(s, a), rest)
  {
    assert ([a] + rest)[1..] == rest;
  }

  /** Whatever the row has become, a job that read it as ready can put it back into a build. */
  lemma LateWriteRebuilds(s: State)
    requires s.readers > 0
    ensures After(s, REBUILD).row.status == Building && After(s, REBUILD).claims == s.claims + 1
  {
    RunOne(s, MissedImage, [Retry, Claim]);
    RunOne(Apply(s, MissedImage), Retry, [Claim]);
    RunOne(Apply(Apply(s, MissedImage), Retry), Claim, []);
    assert REBUILD == [MissedImage] + [Retry, Claim] && [Retry, Claim] == [Retry] + [Claim] && [Claim] == [Claim] + [];
  }

  /**
   A revoked environment is never built again, whatever happens, if and only if no job that read
   it as ready is still to write when it is revoked.
   */
  lemma RevokedIsFinal(s: State)
    ensures (forall actions :: After(Apply(s, Revoke), actions).claims == s.claims) <==> s.readers == 0
  {
    var t := Apply(s, Revoke);
    if s.readers == 0 {
      forall actions ensures After(t, actions).claims == s.claims {
        RevokedStays(t, actions);
      }
    } else {
      LateWriteRebuilds(t);
    }
  }

  // A row queued and unclaimed.
  function Fresh(lease: nat): State {
    State(Row(Queued, None, 0, None, None, false, 0), 0, 0, lease, 0)
  }

  /** From the first claim: an environment is ready, its image is lost, and it is built again. */
  lemma ReadyRebuilds(image: string, lease: nat)
    requires lease > 0
    ensures var first := [Claim, Finish(0, Built(image))];
            && After(Fresh(lease), first).row.status == Ready
            && After(Fresh(lease), first + ([ReadReady] + REBUILD)).row.status == Building
            && After(Fresh(lease), first + ([ReadReady] + REBUILD)).claims == 2
  {
    var s := FirstReady(image, lease, []);
    s := FirstReady(image, lease, [ReadReady] + REBUILD);
    RunOne(s, ReadReady, REBUILD);
    LateWriteRebuilds(Apply(s, ReadReady));
    assert [Claim, Finish(0, Built(image))] + [] == [Claim, Finish(0, Built(image))];
  }

  /** The same with the revocation between the job's read and its write. */
  lemma RevokedRebuilds(image: string, lease: nat)
    requires lease > 0
    ensures var before := [Claim, Finish(0, Built(image))] + [ReadReady, Revoke];
            && After(Fresh(lease), before).row.status == Revoked
            && After(Fresh(lease), [Claim, Finish(0, Built(image))] + ([ReadReady, Revoke] + REBUILD)).row.status
               == Building
  {
    var s := FirstReady(image, lease, [ReadReady, Revoke]);
    RunOne(s, ReadReady, [Revoke]);
    RunOne(Apply(s, ReadReady), Revoke, []);
    s := FirstReady(image, lease, [ReadReady, Revoke] + REBUILD);
    RunOne(s, ReadReady, [Revoke] + REBUILD);
    RunOne(Apply(s, ReadReady), Revoke, REBUILD);
    assert [ReadReady, Revoke] == [ReadReady] + [Revoke] && [Revoke] == [Revoke] + [];
    assert [ReadReady, Revoke] + REBUILD == [ReadReady] + ([Revoke] + REBUILD);
    LateWriteRebuilds(Apply(Apply(s, ReadReady), Revoke));
  }

  lemma FirstReady(image: string, lease: nat, rest: seq<Action>) returns (s: State)
    requires lease > 0
    ensures s == Fresh(lease).(row := s.row, claims := 1) && s.row.status == Ready
    ensures After(Fresh(lease), [Claim, Finish(0, Built(image))] + rest) == After(s, rest)
  {
    var first := Apply(Fresh(lease), Claim);
    s := Apply(first, Finish(0, Built(image)));
    RunOne(Fresh(lease), Claim, [Finish(0, Built(image))] + rest);
    RunOne(first, Finish(0, Built(image)), rest);
    assert [Claim, Finish(0, Built(image))] + rest == [Claim] + ([Finish(0, Built(image))] + rest);
  }
}
