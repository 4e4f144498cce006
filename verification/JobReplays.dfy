/**
 Runs that show which conditions are needed.  For every configuration with durable checkpoints
 one run loses an update of the job memory, and another skips a checkpoint, after which two
 attempts have dispatched the tools of turn 1; and a memory write replays a turn exactly when
 it turns the job back.  Two more runs pass the check under the row locks
 with a lease that was closed since it was last seen: one turns a cancelled job into a succeeded
 one, the other leaves the pointer on a deleted object.
 */
module JobReplays {
  import opened Wrappers
  import opened JobRows
  import opened JobProtocol
  import opened JobFencing
  import opened JobCheckpoints
  import opened JobAtMostOnce

  lemma {:induction false} Compose(c: Config, s: State, run: seq<Action>, more: seq<Action>)
    requires Runs(c, s, run) && Runs(c, After(c, s, run), more)
    ensures Runs(c, s, run + more) && After(c, s, run + more) == After(c, After(c, s, run), more)
    decreases |run|
  {
    if run == [] {
      assert run + more == more;
    } else {
      Compose(c, Apply(c, s, run[0]), run[1..], more);
      assert (run + more)[1..] == run[1..] + more;
    }
  }

  lemma One(c: Config, s: State, a: Action)
    requires Enabled(c, s, a)
    ensures Runs(c, s, [a]) && After(c, s, [a]) == Apply(c, s, a)
  {
    assert [a][1..] == [];
    assert Runs(c, Apply(c, s, a), []);
  }

  // One more action at the end of a run.
  lemma Then(c: Config, s: State, run: seq<Action>, a: Action) returns (longer: seq<Action>, t: State)
    requires Runs(c, s, run) && Enabled(c, After(c, s, run), a)
    ensures longer == run + [a] && Runs(c, s, longer)
    ensures t == Apply(c, After(c, s, run), a) && After(c, s, longer) == t
  {
    longer, t := run + [a], Apply(c, After(c, s, run), a);
    hide Runs, After, Enabled, Apply;
    One(c, After(c, s, run), a);
    Compose(c, s, run, [a]);
  }

  // Attempt `p` is in a phase with a lease that it sees and that is current.
  predicate InPhase(s: State, p: nat, ph: Phase) {
    && p < |s.attempts| && s.attempts[p].phase == ph && !s.attempts[p].lost
    && LeaseCurrent(s.row, s.attempts[p].lease, s.clock) && s.attempts[p].seen == LeaseColumns(s.row)
  }

  // The newest attempt has just been claimed and nothing is published.
  predicate JustClaimed(s: State, p: nat) {
    && p == |s.attempts| - 1 && s.attempts[p].phase == Claimed && !s.attempts[p].lost
    && LeaseCurrent(s.row, s.attempts[p].lease, s.clock)
    && s.row.job == Running && s.row.checkpoint.None?
  }

  // An attempt can start on the pointer, at this turn.
  predicate Loadable(s: State) {
    s.row.checkpoint.None? || (s.row.checkpoint.value.status == Ready && s.row.checkpoint.value.key in s.store)
  }

  function TurnOf(s: State): nat {
    Place(s.row.checkpoint).1
  }

  // An attempt has just been claimed and can start.
  predicate CanStart(s: State, p: nat) {
    && p < |s.attempts| && s.attempts[p].phase == Claimed && !s.attempts[p].lost
    && LeaseCurrent(s.row, s.attempts[p].lease, s.clock) && s.row.job == Running && Loadable(s)
  }

  lemma FirstClaim(c: Config, resumed: nat) returns (s: State)
    requires c.leaseSeconds > 0 && c.maxAttempts > 0
    ensures Runs(c, Init(resumed), [Claim("worker", "1")])
    ensures s == After(c, Init(resumed), [Claim("worker", "1")])
    ensures JustClaimed(s, 0) && |s.attempts| == 1 && s.attempts[0].lease.token == "1"
    ensures s.row.attempts == 1 && s.row.resumed == resumed && s.row.expires == Some(s.clock + c.leaseSeconds)
    ensures s.log == {} && s.written == map[]
  {
    hide Runs, After;
    One(c, Init(resumed), Claim("worker", "1"));
    s := Apply(c, Init(resumed), Claim("worker", "1"));
  }

  // A claimed attempt starts on the pointer, and checks its lease.
  lemma StartAndCheck(c: Config, s0: State, run: seq<Action>, s: State, p: nat)
    returns (longer: seq<Action>, t: State)
    requires Runs(c, s0, run) && After(c, s0, run) == s && CanStart(s, p)
    ensures forall x :: x in longer ==> x in run || (!x.MemoryWrite? && !x.SkipSave?)
    ensures Runs(c, s0, longer) && After(c, s0, longer) == t
    ensures t == Put(s, p, s.attempts[p].(
                   phase := Checked(TurnOf(s)), cached := s.row.checkpoint, seen := LeaseColumns(s.row),
                   durable := c.durableEnabled || s.row.checkpoint.Some?))
  {
    hide Runs, After;
    longer, t := Then(c, s0, run, Start(p));
    assert t == Put(s, p, s.attempts[p].(
                      phase := Setup(TurnOf(s)), cached := s.row.checkpoint, seen := LeaseColumns(s.row),
                      durable := c.durableEnabled || s.row.checkpoint.Some?));
    longer, t := Then(c, s0, longer, CheckTurn(p));
  }

  // It skips its snapshot and dispatches turn 1 without a mark.
  lemma DispatchUnsaved(c: Config, s0: State, run: seq<Action>, s: State, p: nat)
    returns (longer: seq<Action>, t: State)
    requires Runs(c, s0, run) && After(c, s0, run) == s && JustClaimed(s, p)
    ensures forall x :: x in longer ==> x in run || !x.MemoryWrite?
    ensures Runs(c, s0, longer) && After(c, s0, longer) == t && p < |t.attempts| && InPhase(t, p, Dispatching(1))
    ensures t == s.(attempts := s.attempts[p := t.attempts[p]], log := s.log + {Dispatched(1, p + 1)})
    ensures t.attempts[p].lease == s.attempts[p].lease
  {
    hide Runs, After, Apply, Enabled;
    longer, t := StartAndCheck(c, s0, run, s, p);
    longer, t := SkipAndAnswer(c, s0, longer, t, p);
    longer, t := MarkAndDispatch(c, s0, longer, t, p);
  }

  lemma SkipAndAnswer(c: Config, s0: State, run: seq<Action>, s: State, p: nat) returns (longer: seq<Action>, t: State)
    requires Runs(c, s0, run) && After(c, s0, run) == s && InPhase(s, p, Checked(1))
    requires s.attempts[p].cached.None? && s.row.checkpoint.None? && s.row.job == Running
    ensures forall x :: x in longer ==> x in run || !x.MemoryWrite?
    ensures Runs(c, s0, longer) && After(c, s0, longer) == t
    ensures t == Put(s, p, s.attempts[p].(phase := Answered(1), durable := false))
  {
    hide Runs, After;
    longer, t := Then(c, s0, run, SkipSave(p));
    assert t == Put(s, p, s.attempts[p].(phase := Thinking(1), durable := false));
    longer, t := Then(c, s0, longer, CheckAnswer(p));
  }

  lemma MarkAndDispatch(c: Config, s0: State, run: seq<Action>, s: State, p: nat)
    returns (longer: seq<Action>, t: State)
    requires Runs(c, s0, run) && After(c, s0, run) == s && InPhase(s, p, Answered(1)) && !s.attempts[p].durable
    ensures forall x :: x in longer ==> x in run || !x.MemoryWrite?
    ensures Runs(c, s0, longer) && After(c, s0, longer) == t
    ensures t == Go(s, p, Dispatching(1)).(log := s.log + {Dispatched(1, p + 1)})
  {
    hide Runs, After;
    longer, t := Then(c, s0, run, MarkInFlight(p, true));
    assert t == Go(s, p, Marked(1));
    longer, t := Then(c, s0, longer, Dispatch(p));
  }

  // It then returns, and passes the check before its files are collected.
  lemma PlayUnsaved(c: Config, s0: State, run: seq<Action>, s: State, p: nat) returns (longer: seq<Action>, t: State)
    requires Runs(c, s0, run) && After(c, s0, run) == s && JustClaimed(s, p)
    ensures forall x :: x in longer ==> x in run || !x.MemoryWrite?
    ensures Runs(c, s0, longer) && After(c, s0, longer) == t && p < |t.attempts| && InPhase(t, p, FinishChecked(1))
    ensures t == s.(attempts := s.attempts[p := t.attempts[p]], log := s.log + {Dispatched(1, p + 1)})
    ensures t.attempts[p].lease == s.attempts[p].lease
  {
    hide Runs, After, Apply, Enabled;
    longer, t := DispatchUnsaved(c, s0, run, s, p);
    longer, t := ReturnAndCheck(c, s0, longer, t, p);
  }

  lemma ReturnAndCheck(c: Config, s0: State, run: seq<Action>, s: State, p: nat) returns (longer: seq<Action>, t: State)
    requires Runs(c, s0, run) && After(c, s0, run) == s && InPhase(s, p, Dispatching(1))
    ensures forall x :: x in longer ==> x in run || !x.MemoryWrite?
    ensures Runs(c, s0, longer) && After(c, s0, longer) == t && t == Go(s, p, FinishChecked(1))
  {
    hide Runs, After;
    longer, t := Then(c, s0, run, Return(p));
    assert t == Go(s, p, Returned(1));
    longer, t := Then(c, s0, longer, CheckFinish(p));
  }

  // Recovery takes the job from nobody and it is claimed again, at one and the same time.
  lemma TakeOver(c: Config, s0: State, run: seq<Action>, s: State, token: string)
    returns (longer: seq<Action>, t: State)
    requires Runs(c, s0, run) && After(c, s0, run) == s
    requires c.leaseSeconds > 0 && !Exhausted(c, s.row) && Recoverable(s.row, s.clock)
    requires s.row.checkpoint.None? || s.row.checkpoint.value.status == Ready
    requires FreshToken(s, token)
    ensures forall x :: x in longer ==> x in run || (!x.MemoryWrite? && !x.SkipSave?)
    ensures Runs(c, s0, longer) && After(c, s0, longer) == t
    ensures |t.attempts| == |s.attempts| + 1 && t.attempts[..|s.attempts|] == s.attempts
    ensures t == s.(row := t.row, attempts := t.attempts)
    ensures t.row.checkpoint == s.row.checkpoint
    ensures t.row.attempts == s.row.attempts + 1 && t.row.resumed == s.row.resumed
    ensures var q := t.attempts[|s.attempts|];
            && q.phase == Claimed && !q.lost && q.lease.token == token
            && LeaseCurrent(t.row, q.lease, t.clock) && t.row.job == Running
            && t.row.expires == Some(t.clock + c.leaseSeconds)
  {
    hide Runs, After;
    longer, t := Then(c, s0, run, Recover(s.clock));
    assert t == s.(row := RequeueRow(s.row));
    longer, t := Then(c, s0, longer, Claim("worker", token));
  }

  // A claimed attempt starts on the pointer and checkpoints its turn.
  lemma SaveTurn(c: Config, s0: State, run: seq<Action>, s: State, p: nat, key: string)
    returns (longer: seq<Action>, t: State)
    requires Runs(c, s0, run) && After(c, s0, run) == s && c.durableEnabled
    requires CanStart(s, p) && key !in s.written
    ensures forall x :: x in longer ==> x in run || (!x.MemoryWrite? && !x.SkipSave?)
    ensures Runs(c, s0, longer) && After(c, s0, longer) == t && InPhase(t, p, Thinking(TurnOf(s)))
    ensures var pointer := Some(Checkpoint(key, Ready, TurnOf(s)));
            && t.row == s.row.(checkpoint := pointer) && t.attempts[p].cached == pointer && t.attempts[p].durable
            && t.clock == s.clock && t.log == s.log && t.written.Keys == s.written.Keys + {key}
            && |t.attempts| == |s.attempts| && t.attempts[p].lease == s.attempts[p].lease
            && (forall i :: 0 <= i < |s.attempts| && i != p ==> t.attempts[i] == s.attempts[i])
            && t.store == (s.store + {key}) - (if s.row.checkpoint.Some? then {s.row.checkpoint.value.key} else {})
  {
    hide Runs, After, Apply, Enabled;
    longer, t := StartAndCheck(c, s0, run, s, p);
    longer, t := SaveChecked(c, s0, longer, t, p, TurnOf(s), key);
  }

  lemma SaveChecked(c: Config, s0: State, run: seq<Action>, s: State, p: nat, turn: nat, key: string)
    returns (longer: seq<Action>, t: State)
    requires Runs(c, s0, run) && After(c, s0, run) == s
    requires InPhase(s, p, Checked(turn)) && s.attempts[p].durable && s.attempts[p].cached == s.row.checkpoint
    requires key !in s.written
    ensures forall x :: x in longer ==> x in run || (!x.MemoryWrite? && !x.SkipSave?)
    ensures Runs(c, s0, longer) && After(c, s0, longer) == t && InPhase(t, p, Thinking(turn))
    ensures var pointer := Some(Checkpoint(key, Ready, turn));
            && t.row == s.row.(checkpoint := pointer) && t.attempts[p].cached == pointer && t.attempts[p].durable
            && t.clock == s.clock && t.log == s.log && t.written.Keys == s.written.Keys + {key}
            && |t.attempts| == |s.attempts| && t.attempts[p].lease == s.attempts[p].lease
            && (forall i :: 0 <= i < |s.attempts| && i != p ==> t.attempts[i] == s.attempts[i])
            && t.store == (s.store + {key}) - (if s.row.checkpoint.Some? then {s.row.checkpoint.value.key} else {})
  {
    hide Runs, After;
    hide Enabled, Apply;
    longer, t := WriteAndPublish(c, s0, run, s, p, turn, key);
    longer, t := DropPrevious(c, s0, longer, t, p);
  }

  lemma WriteAndPublish(c: Config, s0: State, run: seq<Action>, s: State, p: nat, turn: nat, key: string)
    returns (longer: seq<Action>, t: State)
    requires Runs(c, s0, run) && After(c, s0, run) == s
    requires InPhase(s, p, Checked(turn)) && s.attempts[p].durable && key !in s.written
    ensures forall x :: x in longer ==> x in run || (!x.MemoryWrite? && !x.SkipSave?)
    ensures Runs(c, s0, longer) && After(c, s0, longer) == t
    ensures var pointer := Some(Checkpoint(key, Ready, turn));
            var previous := if s.attempts[p].cached.Some? then Some(s.attempts[p].cached.value.key) else None;
            t == Put(s, p, s.attempts[p].(phase := Published(turn, previous), cached := pointer))
                   .(row := s.row.(checkpoint := pointer), store := s.store + {key},
                     written := s.written[key := s.clock], published := s.published + {key})
  {
    hide Runs, After;
    longer, t := Then(c, s0, run, WriteObject(p, key));
    assert t == Go(s, p, Written(turn, key)).(store := s.store + {key}, written := s.written[key := s.clock]);
    longer, t := Then(c, s0, longer, PublishPointer(p, true));
  }

  lemma DropPrevious(c: Config, s0: State, run: seq<Action>, s: State, p: nat) returns (longer: seq<Action>, t: State)
    requires Runs(c, s0, run) && After(c, s0, run) == s
    requires p < |s.attempts| && s.attempts[p].phase.Published?
    ensures forall x :: x in longer ==> x in run || (!x.MemoryWrite? && !x.SkipSave?)
    ensures Runs(c, s0, longer) && After(c, s0, longer) == t
    ensures var previous := s.attempts[p].phase.previous;
            t == Go(s, p, Thinking(s.attempts[p].phase.turn))
                   .(store := s.store - (if previous.Some? then {previous.value} else {}))
  {
    hide Runs, After;
    longer, t := Then(c, s0, run, DropOld(p, true));
  }

  lemma Expire(c: Config, s0: State, run: seq<Action>, s: State) returns (longer: seq<Action>, t: State)
    requires Runs(c, s0, run) && After(c, s0, run) == s && s.row.job == Running
    requires s.row.expires.Some? && s.row.expires.value <= s.clock + c.leaseSeconds
    ensures forall x :: x in longer ==> x in run || (!x.MemoryWrite? && !x.SkipSave?)
    ensures Runs(c, s0, longer) && After(c, s0, longer) == t
    ensures t == s.(clock := s.clock + c.leaseSeconds) && Recoverable(t.row, t.clock)
  {
    hide Runs, After;
    longer, t := Then(c, s0, run, Tick(c.leaseSeconds));
  }

  // It passes the check after the model's answer, marks the turn and dispatches its tools.
  lemma TakeTurn(c: Config, s0: State, run: seq<Action>, s: State, p: nat, turn: nat)
    returns (longer: seq<Action>, t: State)
    requires Runs(c, s0, run) && After(c, s0, run) == s
    requires InPhase(s, p, Thinking(turn)) && s.attempts[p].durable && s.attempts[p].cached.Some?
    requires s.row.job == Running
    ensures forall x :: x in longer ==> x in run || (!x.MemoryWrite? && !x.SkipSave?)
    ensures Runs(c, s0, longer) && After(c, s0, longer) == t
    ensures var pointer := Some(s.attempts[p].cached.value.(status := InFlight));
            t == Put(s, p, s.attempts[p].(phase := Dispatching(turn), cached := pointer))
                   .(row := s.row.(checkpoint := pointer), log := s.log + {Dispatched(turn, p + 1)})
  {
    hide Runs, After;
    longer, t := Then(c, s0, run, CheckAnswer(p));
    assert t == Go(s, p, Answered(turn));
    longer, t := Then(c, s0, longer, MarkInFlight(p, true));
    assert t == Put(s, p, s.attempts[p].(phase := Marked(turn), cached := t.row.checkpoint)).(row := t.row);
    longer, t := Then(c, s0, longer, Dispatch(p));
  }

  /** A claimed attempt checkpoints the turn it starts at and dispatches its tools. */
  lemma PlayTurn(c: Config, s0: State, run: seq<Action>, s: State, p: nat, key: string)
    returns (longer: seq<Action>, t: State)
    requires Runs(c, s0, run) && After(c, s0, run) == s
    requires c.durableEnabled && CanStart(s, p) && key !in s.written
    ensures forall x :: x in longer ==> x in run || (!x.MemoryWrite? && !x.SkipSave?)
    ensures Runs(c, s0, longer) && After(c, s0, longer) == t
    ensures t.log == s.log + {Dispatched(TurnOf(s), p + 1)}
    ensures t.row == s.row.(checkpoint := Some(Checkpoint(key, InFlight, TurnOf(s))))
    ensures t.clock == s.clock && t.written.Keys == s.written.Keys + {key} && |t.attempts| == |s.attempts|
    ensures forall i :: 0 <= i < |s.attempts| ==> t.attempts[i].lease == s.attempts[i].lease
    ensures forall i :: 0 <= i < |s.attempts| && i != p ==> t.attempts[i] == s.attempts[i]
  {
    hide Runs, After, Enabled, Apply;
    longer, t := SaveTurn(c, s0, run, s, p, key);
    longer, t := TakeTurn(c, s0, longer, t, p, TurnOf(s));
  }

  /** When a lease runs out and nothing is in flight, recovery requeues the job and it is claimed again. */
  lemma Reclaim(c: Config, s0: State, run: seq<Action>, s: State, token: string) returns (longer: seq<Action>, t: State)
    requires Runs(c, s0, run) && After(c, s0, run) == s
    requires c.leaseSeconds > 0 && !Exhausted(c, s.row) && s.row.job == Running && s.row.checkpoint.None?
    requires s.row.expires.Some? && s.row.expires.value <= s.clock + c.leaseSeconds
    requires FreshToken(s, token)
    ensures forall x :: x in longer ==> x in run || (!x.MemoryWrite? && !x.SkipSave?)
    ensures Runs(c, s0, longer) && After(c, s0, longer) == t
    ensures |t.attempts| == |s.attempts| + 1 && t.attempts[..|s.attempts|] == s.attempts
    ensures JustClaimed(t, |s.attempts|) && t.attempts[|s.attempts|].lease.token == token
    ensures t.row.attempts == s.row.attempts + 1 && t.row.resumed == s.row.resumed
    ensures t.row.expires == Some(t.clock + c.leaseSeconds)
    ensures t.log == s.log && t.written == s.written
  {
    hide Runs, After, Enabled, Apply;
    longer, t := Expire(c, s0, run, s);
    longer, t := TakeOver(c, s0, longer, t, token);
  }

  /**
   A lost update replays a turn.  Attempt 1 stalls while setting up, attempt 2 dispatches turn 1,
   attempt 1 writes its outdated copy of the memory, and attempt 3 starts from turn 1 again.
   Every checkpoint is taken in this run.
   */
  lemma LostUpdateReplays(c: Config, resumed: nat) returns (run: seq<Action>)
    requires c.durableEnabled && c.leaseSeconds > 0 && c.maxAttempts >= 3
    ensures Runs(c, Init(resumed), run)
    ensures forall a :: a in run ==> !a.SkipSave?
    ensures {Dispatched(1, 2), Dispatched(1, 3)} <= After(c, Init(resumed), run).log
    ensures !AtMostOnce(After(c, Init(resumed), run).log)
  {
    hide Runs, After, Enabled, Apply;
    var s0 := Init(resumed);
    var s := FirstClaim(c, resumed);
    run := [Claim("worker", "1")];
    run, s := StartOnly(c, s0, run, s);
    run, s := Reclaim(c, s0, run, s, "2");
    run, s := PlayTurn(c, s0, run, s, 1, "a");
    run, s := LoseUpdate(c, s0, run, s);
    run, s := Reclaim(c, s0, run, s, "3");
    run, s := PlayTurn(c, s0, run, s, 2, "b");
    assert Dispatched(1, 2) in s.log && Dispatched(1, 3) in s.log;
  }

  // Attempt 1 starts without a pointer and stalls in its setup.
  lemma StartOnly(c: Config, s0: State, run: seq<Action>, s: State) returns (longer: seq<Action>, t: State)
    requires Runs(c, s0, run) && After(c, s0, run) == s && JustClaimed(s, 0)
    ensures longer == run + [Start(0)] && Runs(c, s0, longer) && After(c, s0, longer) == t
    ensures |t.attempts| == 1 && t.attempts[0].phase == Setup(1) && t.attempts[0].cached.None?
    ensures t == s.(attempts := t.attempts) && t.attempts[0].lease == s.attempts[0].lease
  {
    hide Runs, After;
    longer, t := Then(c, s0, run, Start(0));
  }

  // The stalled attempt 1 writes its outdated memory over the pointer of attempt 2's turn.
  lemma LoseUpdate(c: Config, s0: State, run: seq<Action>, s: State) returns (longer: seq<Action>, t: State)
    requires Runs(c, s0, run) && After(c, s0, run) == s
    requires |s.attempts| == 2 && s.attempts[0].phase == Setup(1) && s.attempts[0].cached.None?
    ensures longer == run + [MemoryWrite(0)] && Runs(c, s0, longer) && After(c, s0, longer) == t
    ensures t == s.(row := s.row.(checkpoint := None))
  {
    hide Runs, After;
    longer, t := Then(c, s0, run, MemoryWrite(0));
  }

  /**
   A skipped checkpoint replays a turn.  Attempt 1 cannot take its snapshot, dispatches turn 1
   unmarked and expires; attempt 2 starts from turn 1 again.  No update is lost in this run.
   */
  lemma SkippedCheckpointReplays(c: Config, resumed: nat) returns (run: seq<Action>)
    requires c.durableEnabled && c.leaseSeconds > 0 && c.maxAttempts >= 2
    ensures Runs(c, Init(resumed), run)
    ensures forall a :: a in run ==> !a.MemoryWrite?
    ensures {Dispatched(1, 1), Dispatched(1, 2)} <= After(c, Init(resumed), run).log
    ensures !AtMostOnce(After(c, Init(resumed), run).log)
  {
    hide Runs, After, Enabled, Apply;
    var s0 := Init(resumed);
    var s := FirstClaim(c, resumed);
    run := [Claim("worker", "1")];
    run, s := DispatchUnsaved(c, s0, run, s, 0);
    run, s := Reclaim(c, s0, run, s, "2");
    run, s := PlayTurn(c, s0, run, s, 1, "a");
    assert Dispatched(1, 1) in s.log && Dispatched(1, 2) in s.log;
  }

  // ---------- which memory writes replay a turn ----------

  lemma {:induction false} NewString(strings: set<string>, n: nat) returns (x: string)
    requires |strings| < n
    ensures x !in strings && 1 <= |x| <= n && forall k :: 0 <= k < |x| ==> x[k] == 'x'
  {
    x := seq(n, _ => 'x');
    if x in strings {
      var others := strings - {x};
      x := NewString(others, n - 1);
    }
  }

  // Time passes until the lease of an active job has run out, if it had one.
  lemma LetExpire(c: Config, s0: State, run: seq<Action>, s: State) returns (longer: seq<Action>, t: State)
    requires Runs(c, s0, run) && After(c, s0, run) == s && Active(s.row.job)
    ensures forall x :: x in longer ==> x in run || (!x.MemoryWrite? && !x.SkipSave?)
    ensures Runs(c, s0, longer) && After(c, s0, longer) == t
    ensures t == s.(clock := t.clock) && Recoverable(t.row, t.clock)
  {
    hide Runs, After;
    var wait := if s.row.expires.Some? then s.row.expires.value else 0;
    longer, t := Then(c, s0, run, Tick(wait));
  }

  // Every dispatch was made by an attempt that has been claimed.
  ghost predicate LogBounded(s: State) {
    forall e :: e in s.log ==> e.attempt <= |s.attempts|
  }

  lemma {:induction false} LogRun(c: Config, s: State, run: seq<Action>)
    requires Runs(c, s, run) && LogBounded(s)
    ensures LogBounded(After(c, s, run))
    decreases |run|
  {
    hide Apply, Enabled;
    if run != [] {
      LogStep(c, s, run[0]);
      LogRun(c, Apply(c, s, run[0]), run[1..]);
    }
  }

  lemma LogStep(c: Config, s: State, a: Action)
    requires Enabled(c, s, a) && LogBounded(s)
    ensures LogBounded(Apply(c, s, a))
  {
  }

  /** From an active job on a pointer whose turn is done, the next attempt dispatches the turn again. */
  lemma ReplayTurn(c: Config, s0: State, run: seq<Action>, s: State) returns (longer: seq<Action>, t: State)
    requires Runs(c, s0, run) && After(c, s0, run) == s && c.durableEnabled && c.leaseSeconds > 0
    requires Active(s.row.job) && !Exhausted(c, s.row) && Loadable(s) && Done(s.log, TurnOf(s)) && LogBounded(s)
    ensures forall x :: x in longer ==> x in run || (!x.MemoryWrite? && !x.SkipSave?)
    ensures Runs(c, s0, longer) && After(c, s0, longer) == t && !AtMostOnce(t.log)
  {
    hide Runs, After, Enabled, Apply;
    var tokens := set i | 0 <= i < |s.attempts| :: s.attempts[i].lease.token;
    var token := NewString(tokens, |tokens| + 1);
    var key := NewString(s.written.Keys, |s.written| + 1);
    longer, t := LetExpire(c, s0, run, s);
    longer, t := TakeOver(c, s0, longer, t, token);
    longer, t := PlayTurn(c, s0, longer, t, |s.attempts|, key);
    var a: nat :| Dispatched(TurnOf(s), a) in s.log;
    assert a <= |s.attempts| && Dispatched(TurnOf(s), |s.attempts| + 1) in t.log;
  }

  lemma {:induction false} PlainRunIsCareful(c: Config, s: State, run: seq<Action>)
    requires Runs(c, s, run) && forall a :: a in run ==> !a.MemoryWrite? && !a.SkipSave?
    ensures CarefulRun(c, s, run)
    decreases |run|
  {
    hide Apply, Enabled;
    if run != [] {
      PlainRunIsCareful(c, Apply(c, s, run[0]), run[1..]);
    }
  }

  // A turn that somebody is cleared to dispatch is dispatched first.
  lemma TouchedTurnReplays(c: Config, s: State) returns (run: seq<Action>)
    requires LogBounded(s) && c.durableEnabled && c.leaseSeconds > 0
    requires Active(s.row.job) && !Exhausted(c, s.row) && Loadable(s) && !Untouched(s, TurnOf(s))
    ensures Runs(c, s, run) && CarefulRun(c, s, run) && !AtMostOnce(After(c, s, run).log)
  {
    hide Enabled, Apply, CarefulRun;
    var t := s;
    run := [];
    assert Runs(c, s, run) && After(c, s, run) == s;
    hide Runs, After;
    if !Done(s.log, TurnOf(s)) {
      var i: nat :| i < |s.attempts| && s.attempts[i].phase == Marked(TurnOf(s)) by {
        UntouchedUnlessDone(s, TurnOf(s));
      }
      run, t := DispatchMarked(c, s, run, s, i);
    }
    run, t := ReplayTurn(c, s, run, t);
    PlainRunIsCareful(c, s, run);
  }

  lemma UntouchedUnlessDone(s: State, turn: nat)
    requires !Untouched(s, turn) && !Done(s.log, turn)
    ensures exists i: nat :: i < |s.attempts| && s.attempts[i].phase == Marked(turn)
  {
    assert forall e :: e in s.log && e.turn == turn ==> e == Dispatched(turn, e.attempt);
  }

  lemma DispatchMarked(c: Config, s0: State, run: seq<Action>, s: State, i: nat) returns (longer: seq<Action>, t: State)
    requires Runs(c, s0, run) && After(c, s0, run) == s
    requires i < |s.attempts| && s.attempts[i].phase == Marked(TurnOf(s)) && LogBounded(s)
    ensures forall x :: x in longer ==> x in run || (!x.MemoryWrite? && !x.SkipSave?)
    ensures Runs(c, s0, longer) && After(c, s0, longer) == t && LogBounded(t)
    ensures t.row == s.row && t.store == s.store && Done(t.log, TurnOf(s))
  {
    hide Runs, After;
    longer, t := Then(c, s0, run, Dispatch(i));
    assert Dispatched(TurnOf(s), i + 1) in t.log;
  }

  /**
   Which memory writes replay a turn.  After any careful run, a write that leaves a pointer an
   attempt can start on, in a job that is active and may be claimed again, lets some careful
   continuation dispatch a turn twice if and only if it turns the job back.
   */
  lemma WriteReplaysIff(c: Config, resumed: nat, run: seq<Action>, p: nat)
    requires c.durableEnabled && c.leaseSeconds > 0
    requires Runs(c, Init(resumed), run) && CarefulRun(c, Init(resumed), run)
    requires Enabled(c, After(c, Init(resumed), run), MemoryWrite(p))
    requires var t := Apply(c, After(c, Init(resumed), run), MemoryWrite(p));
             Active(t.row.job) && !Exhausted(c, t.row) && Loadable(t)
    ensures var s := After(c, Init(resumed), run);
            var t := Apply(c, s, MemoryWrite(p));
            (exists more :: Runs(c, t, more) && CarefulRun(c, t, more) && !AtMostOnce(After(c, t, more).log))
            <==> TurnsBack(s, MemoryWrite(p))
  {
    hide LeaseInv, SeenInv, TurnInv, AdriftInv, CarefulRun, Runs, After;
    InitialLeases(c, resumed);
    InitialTurns(c, resumed);
    CachedRun(c, Init(resumed), run);
    LogRun(c, Init(resumed), run);
    var s := After(c, Init(resumed), run);
    var t := Apply(c, s, MemoryWrite(p));
    WriteEffect(c, s, p);
    hide Apply, Enabled;
    if TurnsBack(s, MemoryWrite(p)) {
      TurnedBackIsTouched(c, s, p);
      var more := TouchedTurnReplays(c, t);
    } else {
      AllStep(c, s, MemoryWrite(p));
      forall more | Runs(c, t, more) && CarefulRun(c, t, more) ensures AtMostOnce(After(c, t, more).log) {
        InvariantRun(c, t, more);
        InvIsAtMostOnce(c, After(c, t, more));
      }
    }
  }

  lemma WriteEffect(c: Config, s: State, p: nat)
    requires Enabled(c, s, MemoryWrite(p))
    ensures p < |s.attempts|
    ensures Apply(c, s, MemoryWrite(p)) == s.(row := s.row.(checkpoint := s.attempts[p].cached))
  {
  }

  lemma InvIsAtMostOnce(c: Config, s: State)
    requires AllInv(c, s)
    ensures AtMostOnce(s.log)
  {
  }

  lemma InitialTurns(c: Config, resumed: nat)
    ensures AllInv(c, Init(resumed)) && CachedInv(Init(resumed)) && LogBounded(Init(resumed))
  {
    InitialLeases(c, resumed);
  }

  // ---------- commits after the run was closed ----------

  /**
   A cancelled job may still become succeeded.  The attempt passes its last unlocked check, the
   user cancels, and the check under the row locks compares the lease seen before.
   */
  lemma CancelledJobSucceeds(c: Config, resumed: nat) returns (before: seq<Action>, last: Action)
    requires c.leaseSeconds > 0 && c.maxAttempts > 0
    ensures Runs(c, Init(resumed), before) && After(c, Init(resumed), before).row.job == Cancelled
    ensures var s := After(c, Init(resumed), before);
            && LockedCommit(s, last, 0) && Enabled(c, s, last) && Superseded(s, 0)
            && Apply(c, s, last).row.job == Succeeded
  {
    hide Runs, After, Apply, Enabled;
    var s := FirstClaim(c, resumed);
    before := [Claim("worker", "1")];
    before, s := PlayUnsaved(c, Init(resumed), before, s, 0);
    before, s := CollectAndConfirm(c, Init(resumed), before, s);
    before, s, last := CancelAndCommit(c, Init(resumed), before, s);
  }

  lemma CollectAndConfirm(c: Config, s0: State, run: seq<Action>, s: State) returns (longer: seq<Action>, t: State)
    requires Runs(c, s0, run) && After(c, s0, run) == s && InPhase(s, 0, FinishChecked(1))
    ensures Runs(c, s0, longer) && After(c, s0, longer) == t && InPhase(t, 0, Confirmed(1))
  {
    hide Runs, After;
    longer, t := CollectAndWrite(c, s0, run, s);
    longer, t := Then(c, s0, longer, CheckConfirmed(0));
  }

  lemma CollectAndWrite(c: Config, s0: State, run: seq<Action>, s: State) returns (longer: seq<Action>, t: State)
    requires Runs(c, s0, run) && After(c, s0, run) == s && InPhase(s, 0, FinishChecked(1))
    ensures Runs(c, s0, longer) && After(c, s0, longer) == t
    ensures t == Go(s, 0, Confirming(1)).(row := s.row.(job := Verifying))
  {
    hide Runs, After;
    longer, t := Then(c, s0, run, CollectWrite(0));
    assert t == Go(s, 0, Collecting(1)).(row := s.row.(job := ProducingArtifacts));
    longer, t := Then(c, s0, longer, ConfirmWrite(0));
  }

  lemma CancelAndCommit(c: Config, s0: State, run: seq<Action>, s: State)
    returns (longer: seq<Action>, t: State, last: Action)
    requires Runs(c, s0, run) && After(c, s0, run) == s && InPhase(s, 0, Confirmed(1))
    ensures Runs(c, s0, longer) && After(c, s0, longer) == t && t.row.job == Cancelled
    ensures LockedCommit(t, last, 0) && Enabled(c, t, last) && Superseded(t, 0)
    ensures Apply(c, t, last).row.job == Succeeded
  {
    hide Runs, After;
    longer, t := Then(c, s0, run, UserCancel);
    last := Succeed(0);
  }

  /**
   A closed attempt may leave the pointer on a deleted object.  Attempt 1 has returned unsaved and
   expired; attempt 2 has saved turn 1 and heard from the model when the user cancels; attempt 1's
   unfenced status write makes the job active again, attempt 3 takes it over and replaces the
   object; then attempt 2 marks the pointer it has cached.
   */
  lemma ClosedMarkDangles(c: Config, resumed: nat) returns (run: seq<Action>)
    requires c.durableEnabled && c.leaseSeconds > 0 && c.maxAttempts >= 3
    ensures Runs(c, Init(resumed), run)
    ensures forall a :: a in run ==> !a.MemoryWrite?
    ensures var s := After(c, Init(resumed), run);
            s.row.checkpoint.Some? && s.row.checkpoint.value.key !in s.store
  {
    hide Runs, After, Enabled, Apply;
    var s0 := Init(resumed);
    var s := FirstClaim(c, resumed);
    run := [Claim("worker", "1")];
    run, s := PlayUnsaved(c, s0, run, s, 0);
    run, s := Expire(c, s0, run, s);
    run, s := TakeOver(c, s0, run, s, "2");
    run, s := SaveTurn(c, s0, run, s, 1, "a");
    run, s := HearAndCancel(c, s0, run, s);
    run, s := TakeOver(c, s0, run, s, "3");
    run, s := SaveTurn(c, s0, run, s, 2, "b");
    run, s := MarkStale(c, s0, run, s);
  }

  // Attempt 2 passes the check after the model's answer, the user cancels, attempt 1 writes its status.
  lemma HearAndCancel(c: Config, s0: State, run: seq<Action>, s: State) returns (longer: seq<Action>, t: State)
    requires Runs(c, s0, run) && After(c, s0, run) == s && |s.attempts| == 2
    requires InPhase(s, 1, Thinking(1)) && s.row.job == Running
    requires s.attempts[0].phase == FinishChecked(1)
    ensures forall x :: x in longer ==> x in run || !x.MemoryWrite?
    ensures Runs(c, s0, longer) && After(c, s0, longer) == t
    ensures t == s.(row := t.row, attempts := t.attempts) && |t.attempts| == 2
    ensures t.attempts[1] == s.attempts[1].(phase := Answered(1)) && t.attempts[0].lease == s.attempts[0].lease
    ensures Recoverable(t.row, t.clock) && t.row.checkpoint == s.row.checkpoint
    ensures t.row.attempts == s.row.attempts && t.row.resumed == s.row.resumed
  {
    hide Runs, After;
    longer, t := Then(c, s0, run, CheckAnswer(1));
    assert t.attempts[1] == s.attempts[1].(phase := Answered(1));
    longer, t := Then(c, s0, longer, UserCancel);
    longer, t := Then(c, s0, longer, CollectWrite(0));
  }

  lemma MarkStale(c: Config, s0: State, run: seq<Action>, s: State) returns (longer: seq<Action>, t: State)
    requires Runs(c, s0, run) && After(c, s0, run) == s && |s.attempts| == 3
    requires s.attempts[1].phase == Answered(1) && s.attempts[1].durable && s.attempts[1].cached.Some? && Fence(s, 1)
    ensures forall x :: x in longer ==> x in run || !x.MemoryWrite?
    ensures Runs(c, s0, longer) && After(c, s0, longer) == t
    ensures t.row.checkpoint == Some(s.attempts[1].cached.value.(status := InFlight)) && t.store == s.store
  {
    hide Runs, After;
    longer, t := Then(c, s0, run, MarkInFlight(1, true));
  }
}
