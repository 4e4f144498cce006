/** The durable cursor of a declared workflow: which of its commands have been done. */
module WorkflowCursor {
  import opened Wrappers

  // A recipe is identified by its digest, so equal digests are equal recipes.
  datatype Recipe = Recipe(commands: seq<string>, references: seq<string>)

  datatype Cursor = Cursor(recipe: Recipe, next: nat, failed: bool)

  datatype Request = Request(restart: bool, retryFailed: bool)

  datatype Rejection = DeclarationChanged | PreviousFailed | AlreadyCompleted

  datatype Attempt = Attempt(index: nat, command: string, ok: bool)

  /**
   One call: the recipe now declared, what was asked for, whether each reference still missing
   from the context could be read, and how each command ends if it is run.
   */
  datatype Call = Call(recipe: Recipe, request: Request, readable: seq<bool>, ends: nat -> bool)

  // The command a call starts at, or why it is turned away.
  function Launch(cursor: Option<Cursor>, c: Call): Result<nat, Rejection> {
    var start := if c.request.restart || cursor.None? then 0 else cursor.value.next;
    if cursor.Some? && cursor.value.recipe != c.recipe && !c.request.restart then Err(DeclarationChanged)
    else if cursor.Some? && cursor.value.failed && !c.request.restart && !c.request.retryFailed then Err(PreviousFailed)
    else if start >= |c.recipe.commands| then Err(AlreadyCompleted)
    else Ok(start)
  }

  // The first command from `at` on that fails, or the end of the recipe.
  function Stop(c: Call, at: nat): (n: nat)
    requires at <= |c.recipe.commands|
    ensures at <= n <= |c.recipe.commands|
    ensures forall i :: at <= i < n ==> c.ends(i)
    ensures n < |c.recipe.commands| ==> !c.ends(n)
    decreases |c.recipe.commands| - at
  {
    if at == |c.recipe.commands| || !c.ends(at) then at else Stop(c, at + 1)
  }

  // The commands of a recipe from one index to another, each done once and in order.
  function Prefix(recipe: Recipe, from: nat, to: nat): (r: seq<Attempt>)
    requires from <= to <= |recipe.commands|
    ensures |r| == to - from
    ensures forall i :: 0 <= i < |r| ==> r[i] == Attempt(from + i, recipe.commands[from + i], true)
  {
    seq(to - from, i requires 0 <= i < to - from => Attempt(from + i, recipe.commands[from + i], true))
  }

  // The command after the last one a call completes; none runs when a reference cannot be read.
  function Reached(cursor: Option<Cursor>, c: Call): (n: nat)
    requires Launch(cursor, c).Ok?
    ensures Launch(cursor, c).value <= n <= |c.recipe.commands|
  {
    if false in c.readable then Launch(cursor, c).value else Stop(c, Launch(cursor, c).value)
  }

  function Completed(cursor: Option<Cursor>, c: Call): seq<Attempt> {
    match Launch(cursor, c)
    case Err(_) => []
    case Ok(start) => Prefix(c.recipe, start, Reached(cursor, c))
  }

  /** Every command a call runs, in order; the last one may have failed. */
  function Performed(cursor: Option<Cursor>, c: Call): (r: seq<Attempt>)
    ensures Completed(cursor, c) <= r && |r| <= |Completed(cursor, c)| + 1
    ensures forall a :: a in r && a.ok ==> a in Completed(cursor, c)
    ensures forall a :: a in r && !a.ok ==> Launch(cursor, c).Ok? && a.index == Reached(cursor, c)
  {
    match Launch(cursor, c)
    case Err(_) => []
    case Ok(start) =>
      var n := Reached(cursor, c);
      if false in c.readable || n == |c.recipe.commands| then Completed(cursor, c)
      else Completed(cursor, c) + [Attempt(n, c.recipe.commands[n], false)]
  }

  function Moved(cursor: Option<Cursor>, c: Call): Option<Cursor> {
    match Launch(cursor, c)
    case Err(_) => cursor
    case Ok(start) =>
      Some(Cursor(c.recipe, Reached(cursor, c), false in c.readable || Reached(cursor, c) < |c.recipe.commands|))
  }

  /**
   What was run from a command on: each command with its own end, up to the first that fails; the
   cursor stands behind the last one done, and is marked as failed exactly when one did.
   */
  ghost predicate IsRun(c: Call, start: nat, attempts: seq<Attempt>, next: nat, failed: bool) {
    var commands := c.recipe.commands;
    && start < |commands| && 0 < |attempts| <= |commands| - start
    && (forall i :: 0 <= i < |attempts| ==>
          attempts[i] == Attempt(start + i, commands[start + i], c.ends(start + i)))
    && (forall i :: 0 <= i < |attempts| - 1 ==> attempts[i].ok)
    && (failed <==> !attempts[|attempts| - 1].ok)
    && (failed ==> next == start + |attempts| - 1)
    && (!failed ==> next == start + |attempts| == |commands|)
  }

  /**
   A call is turned away because the recipe changed, because the last run failed or because
   nothing is left, in this order and each unless a restart (or, for a failure, a retry) was
   asked for; otherwise it starts where the last one stopped, and a restart at the beginning.
   */
  lemma LaunchIsExact(cursor: Option<Cursor>, c: Call)
    ensures var again := c.request.restart;
            var left := if again || cursor.None? then |c.recipe.commands| else |c.recipe.commands| - cursor.value.next;
            match Launch(cursor, c)
            case Err(DeclarationChanged) => !again && cursor.Some? && cursor.value.recipe != c.recipe
            case Err(PreviousFailed) =>
              && !again && !c.request.retryFailed && cursor.Some? && cursor.value.failed
              && cursor.value.recipe == c.recipe
            case Err(AlreadyCompleted) =>
              left <= 0 && (cursor.Some? && !again ==>
                              cursor.value.recipe == c.recipe && (cursor.value.failed ==> c.request.retryFailed))
            case Ok(start) =>
              && left > 0 && start == (if again || cursor.None? then 0 else cursor.value.next)
              && (cursor.Some? && !again ==>
                    cursor.value.recipe == c.recipe && (cursor.value.failed ==> c.request.retryFailed))
  {
  }

  lemma StopEndsRun(c: Call, start: nat)
    requires start < |c.recipe.commands|
    ensures var n, commands := Stop(c, start), c.recipe.commands;
            var last := if n == |commands| then [] else [Attempt(n, commands[n], false)];
            IsRun(c, start, Prefix(c.recipe, start, n) + last, n, n < |commands|)
  {
    hide Stop;
  }

  /**
   What a call does, in the end: nothing when it is turned away; no command, and a failure, when a
   reference cannot be read; and otherwise the run from where it starts.
   */
  lemma RunIsExact(cursor: Option<Cursor>, c: Call)
    ensures var after, attempts := Moved(cursor, c), Performed(cursor, c);
            match Launch(cursor, c)
            case Err(_) => after == cursor && attempts == []
            case Ok(start) =>
              && after.Some? && after.value.recipe == c.recipe
              && (false in c.readable ==> attempts == [] && after.value.next == start && after.value.failed)
              && (false !in c.readable ==> IsRun(c, start, attempts, after.value.next, after.value.failed))
  {
    LaunchIsExact(cursor, c);
    if Launch(cursor, c).Ok? {
      StopEndsRun(c, Launch(cursor, c).value);
    }
    hide Launch, Stop, Prefix, IsRun;
  }

  method RunWorkflow(cursor: Option<Cursor>, c: Call) returns (after: Option<Cursor>, attempts: seq<Attempt>)
    ensures after == Moved(cursor, c) && attempts == Performed(cursor, c)
  {
    after, attempts := cursor, [];
    var launch := Launch(cursor, c);
    if launch.Err? {
      return;
    }
    var start := launch.value;
    after := Some(Cursor(c.recipe, start, false));
    for i := 0 to |c.readable|
      invariant false !in c.readable[..i]
    {
      if !c.readable[i] {
        return Some(Cursor(c.recipe, start, true)), [];
      }
    }
    assert c.readable == c.readable[..|c.readable|];
    for i := start to |c.recipe.commands|
      invariant after == Some(Cursor(c.recipe, i, false)) && attempts == Prefix(c.recipe, start, i)
      invariant Stop(c, i) == Stop(c, start)
    {
      attempts := attempts + [Attempt(i, c.recipe.commands[i], c.ends(i))];
      if !c.ends(i) {
        return Some(after.value.(failed := true)), attempts;
      }
      after := Some(after.value.(next := i + 1));
    }
  }

  // ---------- runs ----------

  // The cursor after some calls, and the commands done since the last accepted restart.
  function After(calls: seq<Call>): Option<Cursor> {
    if calls == [] then None else Moved(After(calls[..|calls| - 1]), calls[|calls| - 1])
  }

  function Done(calls: seq<Call>): seq<Attempt> {
    if calls == [] then [] else
    var before, c := calls[..|calls| - 1], calls[|calls| - 1];
    var kept := if c.request.restart && Launch(After(before), c).Ok? then [] else Done(before);
    kept + Completed(After(before), c)
  }

  /**
   Declared workflows run exactly once and in order: whatever the calls, the recipes declared
   and the failures, the commands done since the last restart are the first ones of the
   recorded recipe, each once, and the cursor is their number.
   */
  lemma {:induction false} DoneIsPrefix(calls: seq<Call>)
    ensures match After(calls)
            case None => Done(calls) == []
            case Some(cursor) =>
              cursor.next <= |cursor.recipe.commands| && Done(calls) == Prefix(cursor.recipe, 0, cursor.next)
    decreases |calls|
  {
    if calls != [] {
      var before, c := calls[..|calls| - 1], calls[|calls| - 1];
      DoneIsPrefix(before);
      if Launch(After(before), c).Ok? {
        var start, n := Launch(After(before), c).value, Reached(After(before), c);
        PrefixJoin(c.recipe, start, n);
        hide Prefix, Reached;
        assert Completed(After(before), c) == Prefix(c.recipe, start, n);
      }
    }
  }

  lemma PrefixJoin(recipe: Recipe, at: nat, to: nat)
    requires at <= to <= |recipe.commands|
    ensures Prefix(recipe, 0, at) + Prefix(recipe, at, to) == Prefix(recipe, 0, to)
    ensures at == 0 ==> Prefix(recipe, 0, at) == []
  {
  }

  /** Without a restart the recipe stays the one first recorded, and no done command runs again. */
  lemma NothingRunsTwice(calls: seq<Call>, c: Call)
    requires After(calls).Some? && !c.request.restart
    ensures After(calls + [c]).Some? && After(calls + [c]).value.recipe == After(calls).value.recipe
    ensures forall a :: a in Performed(After(calls), c) ==> a.index >= After(calls).value.next
    ensures forall a, d :: a in Performed(After(calls), c) && d in Done(calls) ==> a.index != d.index
  {
    DoneIsPrefix(calls);
    assert (calls + [c])[..|calls|] == calls;
  }

  /** A failure is recorded, and then nothing runs until a retry or a restart is asked for. */
  lemma FailureStops(calls: seq<Call>, c: Call, next: Call)
    requires exists a :: a in Performed(After(calls), c) && !a.ok
    requires !next.request.restart && !next.request.retryFailed
    ensures After(calls + [c]).Some? && After(calls + [c]).value.failed
    ensures Performed(After(calls + [c]), next) == [] && After(calls + [c] + [next]) == After(calls + [c])
  {
    assert (calls + [c])[..|calls|] == calls;
    assert (calls + [c] + [next])[..|calls| + 1] == calls + [c];
  }

  /** A retry resumes with the very command that failed. */
  lemma RetryResumes(calls: seq<Call>, c: Call, retry: Call, a: Attempt)
    requires a in Performed(After(calls), c) && !a.ok
    requires retry.recipe == c.recipe && retry.request == Request(false, true)
    ensures Launch(After(calls + [c]), retry) == Ok(a.index)
  {
    assert (calls + [c])[..|calls|] == calls;
  }
}
