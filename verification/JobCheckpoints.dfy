/**
 The checkpoint pointer under crashes.  As long as no attempt puts an outdated pointer back, the
 published pointer always names a complete stored object, through lost commit acknowledgements,
 deletions of superseded objects, retention and orphan sweeps.
 */
module JobCheckpoints {
  import opened Wrappers
  import opened JobRows
  import opened JobProtocol
  import opened JobFencing

  /**
   The unfenced read-modify-write of the job memory loses an update when the pointer was
   changed since the attempt cached it.
   */
  predicate LostUpdate(s: State, a: Action) {
    a.MemoryWrite? && a.p < |s.attempts| && s.attempts[a.p].cached != s.row.checkpoint
  }

  // The in-flight mark rewrites the pointer the attempt has cached.
  predicate LostMark(s: State, a: Action) {
    && a.MarkInFlight? && a.p < |s.attempts| && s.attempts[a.p].durable && s.attempts[a.p].cached.Some?
    && s.attempts[a.p].cached != s.row.checkpoint
  }

  predicate Loses(s: State, a: Action) {
    LostUpdate(s, a) || LostMark(s, a)
  }

  ghost predicate Stored(s: State, checkpoint: Option<Checkpoint>) {
    checkpoint.Some? ==>
      && checkpoint.value.key in s.store
      && checkpoint.value.key in s.published
      && checkpoint.value.key !in s.released
  }

  ghost predicate PhaseStored(c: Config, s: State, q: Attempt) {
    && (q.cached.Some? ==> q.cached.value.key in s.published)
    && (q.phase.Written? ==>
          && q.phase.key in s.written && q.phase.key !in s.published
          && (q.phase.key in s.store || s.clock > s.written[q.phase.key] + c.grace))
    && (q.phase.Published? && q.phase.previous.Some? ==>
          && q.phase.previous.value in s.published
          && (s.row.checkpoint.Some? ==> s.row.checkpoint.value.key != q.phase.previous.value))
  }

  ghost predicate SweepSafe(c: Config, s: State, w: Sweep) {
    && w.start <= s.clock
    && (w.referenced.Some? && s.row.checkpoint.Some? && s.row.checkpoint.value.key in s.written ==>
          || s.row.checkpoint.value.key in w.referenced.value
          || s.written[s.row.checkpoint.value.key] + c.grace >= w.start)
  }

  ghost predicate StoreInv(c: Config, s: State) {
    && s.published <= s.written.Keys && s.store <= s.written.Keys && s.released <= s.published
    && Stored(s, s.row.checkpoint)
    && (forall i :: 0 <= i < |s.attempts| ==> PhaseStored(c, s, s.attempts[i]))
    && (forall i, j :: 0 <= i < j < |s.attempts| && s.attempts[i].phase.Written? && s.attempts[j].phase.Written?
          ==> s.attempts[i].phase.key != s.attempts[j].phase.key)
    && (forall k :: 0 <= k < |s.sweeps| ==> SweepSafe(c, s, s.sweeps[k]))
  }

  predicate TouchesStore(a: Action) {
    || a.WriteObject? || a.PublishPointer? || a.DropOld? || a.MarkInFlight?
    || a.Retire? || a.DeleteReleased? || a.SweepStart? || a.SweepScan? || a.SweepDelete?
  }

  // The store is as it was, no attempt is newly writing, and nobody cached anything but the pointer.
  ghost predicate SameStore(s: State, t: State) {
    && (t.row.checkpoint == s.row.checkpoint || t.row.checkpoint.None?) && t.clock >= s.clock
    && t.store == s.store && t.written == s.written && t.published == s.published && t.released == s.released
    && t.sweeps == s.sweeps
    && |t.attempts| >= |s.attempts|
    && forall i :: 0 <= i < |t.attempts| ==>
         && (t.attempts[i].phase.Written? || t.attempts[i].phase.Published? ==>
               i < |s.attempts| && s.attempts[i].phase == t.attempts[i].phase)
         && (t.attempts[i].cached == (if i < |s.attempts| then s.attempts[i].cached else None)
             || t.attempts[i].cached == s.row.checkpoint)
  }

  lemma UntouchedShape(c: Config, s: State, a: Action)
    requires Enabled(c, s, a) && !TouchesStore(a) && !Loses(s, a)
    ensures SameStore(s, Apply(c, s, a))
  {
    hide Apply, Enabled, SameStore;
    if MovesPhase(a) {
      PhaseShape(c, s, a);
    } else if Checks(a) {
      CheckShape(c, s, a);
    } else {
      RestShape(c, s, a);
    }
  }

  lemma PhaseShape(c: Config, s: State, a: Action)
    requires Enabled(c, s, a) && !TouchesStore(a) && MovesPhase(a)
    ensures SameStore(s, Apply(c, s, a))
  {
    hide Apply, Enabled;
    PhaseMove(c, s, a);
  }

  lemma CheckShape(c: Config, s: State, a: Action)
    requires Enabled(c, s, a) && Checks(a)
    ensures SameStore(s, Apply(c, s, a))
  {
    hide Apply, Enabled;
    CheckMove(c, s, a);
  }

  lemma RestShape(c: Config, s: State, a: Action)
    requires Enabled(c, s, a) && !TouchesStore(a) && !Loses(s, a) && !MovesPhase(a) && !Checks(a)
    ensures SameStore(s, Apply(c, s, a))
  {
  }

  lemma StoreUntouched(c: Config, s: State, a: Action)
    requires StoreInv(c, s) && Enabled(c, s, a) && !TouchesStore(a) && !Loses(s, a)
    ensures StoreInv(c, Apply(c, s, a))
  {
    var t := Apply(c, s, a);
    UntouchedShape(c, s, a);
    hide Apply, Enabled;
    forall i | 0 <= i < |t.attempts|
      ensures PhaseStored(c, t, t.attempts[i])
      ensures t.attempts[i].phase.Written? ==> i < |s.attempts| && s.attempts[i].phase == t.attempts[i].phase
    {
      if i < |s.attempts| {
        assert PhaseStored(c, s, s.attempts[i]);
      }
    }
    forall k | 0 <= k < |t.sweeps| ensures SweepSafe(c, t, t.sweeps[k]) {
      assert SweepSafe(c, s, s.sweeps[k]);
    }
  }

  lemma WriteKeepsStore(c: Config, s: State, p: nat, key: string)
    requires StoreInv(c, s) && Enabled(c, s, WriteObject(p, key))
    ensures StoreInv(c, Apply(c, s, WriteObject(p, key)))
  {
  }

  lemma PublishKeepsStore(c: Config, s: State, p: nat, acknowledged: bool)
    requires StoreInv(c, s) && Enabled(c, s, PublishPointer(p, acknowledged))
    ensures StoreInv(c, Apply(c, s, PublishPointer(p, acknowledged)))
  {
  }

  lemma MarkKeepsStore(c: Config, s: State, p: nat, acknowledged: bool)
    requires StoreInv(c, s)
    requires Enabled(c, s, MarkInFlight(p, acknowledged)) && !LostMark(s, MarkInFlight(p, acknowledged))
    ensures StoreInv(c, Apply(c, s, MarkInFlight(p, acknowledged)))
  {
  }

  lemma DeletionKeepsStore(c: Config, s: State, a: Action)
    requires StoreInv(c, s) && Enabled(c, s, a)
    requires a.DropOld? || a.DeleteReleased? || a.SweepDelete?
    ensures StoreInv(c, Apply(c, s, a))
  {
    var t := Apply(c, s, a);
    if a.DropOld? {
      assert PhaseStored(c, s, s.attempts[a.p]);
    } else if a.SweepDelete? {
      assert SweepSafe(c, s, s.sweeps[a.i]);
    }
    forall i | 0 <= i < |t.attempts| ensures PhaseStored(c, t, t.attempts[i]) {
      assert PhaseStored(c, s, s.attempts[i]);
    }
    forall k | 0 <= k < |t.sweeps| ensures SweepSafe(c, t, t.sweeps[k]) {
      assert SweepSafe(c, s, s.sweeps[k]);
    }
  }

  lemma CollectionKeepsStore(c: Config, s: State, a: Action)
    requires StoreInv(c, s) && Enabled(c, s, a)
    requires a.Retire? || a.SweepStart? || a.SweepScan?
    ensures StoreInv(c, Apply(c, s, a))
  {
  }

  lemma StoreStep(c: Config, s: State, a: Action)
    requires StoreInv(c, s) && Enabled(c, s, a) && !Loses(s, a)
    ensures StoreInv(c, Apply(c, s, a))
  {
    if !TouchesStore(a) {
      StoreUntouched(c, s, a);
    } else if a.WriteObject? {
      WriteKeepsStore(c, s, a.p, a.key);
    } else if a.PublishPointer? {
      PublishKeepsStore(c, s, a.p, a.acknowledged);
    } else if a.MarkInFlight? {
      MarkKeepsStore(c, s, a.p, a.acknowledged);
    } else if a.DropOld? || a.DeleteReleased? || a.SweepDelete? {
      DeletionKeepsStore(c, s, a);
    } else {
      CollectionKeepsStore(c, s, a);
    }
  }

  // No action of the run puts an outdated pointer back.
  predicate KeepsPointer(c: Config, s: State, run: seq<Action>)
    requires Runs(c, s, run)
    decreases |run|
  {
    run == [] || (!Loses(s, run[0]) && KeepsPointer(c, Apply(c, s, run[0]), run[1..]))
  }

  lemma {:induction false} StoreRun(c: Config, s: State, run: seq<Action>)
    requires StoreInv(c, s) && Runs(c, s, run) && KeepsPointer(c, s, run)
    ensures StoreInv(c, After(c, s, run))
    decreases |run|
  {
    if run != [] {
      StoreStep(c, s, run[0]);
      StoreRun(c, Apply(c, s, run[0]), run[1..]);
    }
  }

  /** At every point of every run that puts no outdated pointer back, a published pointer names a stored object. */
  lemma PointerNamesObject(c: Config, resumed: nat, run: seq<Action>)
    requires Runs(c, Init(resumed), run) && KeepsPointer(c, Init(resumed), run)
    ensures var s := After(c, Init(resumed), run);
            s.row.checkpoint.Some? ==> s.row.checkpoint.value.key in s.store
  {
    StoreRun(c, Init(resumed), run);
  }

  /** An attempt that finds a ready checkpoint always resumes at its turn; it never fails to load it. */
  lemma ReadyCheckpointLoads(c: Config, resumed: nat, run: seq<Action>, p: nat)
    requires Runs(c, Init(resumed), run) && KeepsPointer(c, Init(resumed), run)
    requires var s := After(c, Init(resumed), run);
             && Enabled(c, s, Start(p)) && s.row.job != Cancelled
             && s.row.checkpoint.Some? && s.row.checkpoint.value.status == Ready
    ensures var s := After(c, Init(resumed), run);
            Apply(c, s, Start(p)).attempts[p].phase == Setup(s.row.checkpoint.value.nextTurn)
  {
    PointerNamesObject(c, resumed, run);
  }
}
