/**
 One turn of the agent loop as the conversation sees it: the assistant message, the replies to
 its calls, with a batch answered by one aggregate, and the guidance that follows them.
 */
module TurnHistory {
  import opened ContextProjection
  import opened History
  import opened Wrappers

  // A tool's result; the exit code is zero when the tool has none.
  datatype Payload = Payload(refused: bool, exitCode: int, text: string)

  predicate Failed(p: Payload) {
    p.refused || p.exitCode != 0
  }

  datatype Aggregate = Aggregate(
    ok: bool, results: seq<Payload>, executed: nat, succeeded: nat, requested: nat,
    skipped: seq<nat>, failedIndex: Option<nat>)

  /**
   A turn that neither returns nor raises.  `calls` are the native call ids, none when the
   model answered in text; `batch` is the number of children the one call was expanded into;
   `outcome(k)` is the result of the k-th call or child; `closing` is the nudge after a turn that
   only observed, which may say again what a nudge has said.
   */
  datatype Turn = Turn(
    calls: seq<string>, text: string, batch: Option<nat>, outcome: nat -> Payload,
    notices: seq<string>, nudges: seq<string>, closing: Option<string>)

  predicate WellFormed(t: Turn) {
    && (forall id :: id in t.calls ==> id != "")
    && (t.batch.Some? ==> |t.calls| <= 1 && t.batch.value >= 1)
  }

  function ReplyTo(callId: Option<string>, text: string): Message {
    if callId.Some? && callId.value != "" then Reply(callId.value, text) else User(text)
  }

  // The call each operation answers: the parent for every child, or the native calls in turn.
  function Operations(t: Turn): seq<Option<string>> {
    if t.batch.Some? then seq(t.batch.value, i => Parent(t))
    else if t.calls == [] then [None]
    else seq(|t.calls|, i requires 0 <= i < |t.calls| => Some(t.calls[i]))
  }

  function Parent(t: Turn): Option<string> {
    if t.calls == [] then None else Some(t.calls[0])
  }

  function Users(texts: seq<string>): (r: Messages)
    ensures |r| == |texts| && forall i :: 0 <= i < |r| ==> r[i] == User(texts[i])
  {
    seq(|texts|, i requires 0 <= i < |texts| => User(texts[i]))
  }

  // Each text once, at its first place.
  function Once(texts: seq<string>): (r: seq<string>)
    ensures forall x :: x in r <==> x in texts
    ensures forall i, j :: 0 <= i < j < |r| ==> r[i] != r[j]
  {
    if texts == [] then [] else
    var before, last := Once(texts[..|texts| - 1]), texts[|texts| - 1];
    if last in before then before else before + [last]
  }

  function Guidance(t: Turn): seq<string> {
    Once(t.nudges) + (if t.closing.Some? then [t.closing.value] else [])
  }

  /** What a batch reports: every child counted once, as succeeded, failed or skipped. */
  ghost predicate IsReport(t: Turn, a: Aggregate) {
    && t.batch.Some? && a.requested == t.batch.value
    && 1 <= a.executed == |a.results| <= a.requested
    && (forall k :: 0 <= k < a.executed ==> a.results[k] == t.outcome(k))
    && (forall k :: 0 <= k < a.executed - 1 ==> !t.outcome(k).refused && t.outcome(k).exitCode == 0)
    && var last := t.outcome(a.executed - 1);
       && (a.ok <==> a.executed == a.requested && !last.refused && last.exitCode == 0)
       && (!a.ok ==> (last.refused || last.exitCode != 0) && a.failedIndex == Some(a.executed))
       && (a.ok ==> a.failedIndex.None?)
       && a.succeeded == (if a.ok then a.executed else a.executed - 1)
       && a.skipped == seq(a.requested - a.executed, i requires 0 <= i < a.requested - a.executed => a.executed + 1 + i)
  }

  function Replies(t: Turn, report: string): (r: Messages)
  {
    if t.batch.Some? then [ReplyTo(Parent(t), report)]
    else seq(|Operations(t)|, i requires 0 <= i < |Operations(t)| => ReplyTo(Operations(t)[i], t.outcome(i).text))
  }

  function Said(t: Turn, report: string): Messages
  {
    [Assistant(t.calls, t.text)] + Replies(t, report) + Users(t.notices) + Users(Guidance(t))
  }

  // How many replies a turn makes.
  function ReplyCount(t: Turn): nat {
    if t.batch.Some? || t.calls == [] then 1 else |t.calls|
  }

  lemma RepliesByMessage(t: Turn, report: string)
    requires WellFormed(t)
    ensures var replies := Replies(t, report);
            && |replies| == ReplyCount(t)
            && (t.batch.None? ==> forall k :: 0 <= k < |t.calls| ==> replies[k] == Reply(t.calls[k], t.outcome(k).text))
            && (t.batch.None? && t.calls == [] ==> replies[0] == User(t.outcome(0).text))
            && (t.batch.Some? ==> replies[0] == if t.calls == [] then User(report) else Reply(t.calls[0], report))
  {
    assert forall k :: 0 <= k < |t.calls| ==> t.calls[k] in t.calls;
  }

  /** What a conversation holds after a turn, message by message. */
  lemma SaidByMessage(history: Messages, t: Turn, report: string)
    requires WellFormed(t)
    ensures var m, at, n, guidance := history + Said(t, report), |history|, ReplyCount(t), Guidance(t);
            && |m| == at + 1 + n + |t.notices| + |guidance|
            && m[..at] == history && m[at] == Assistant(t.calls, t.text)
            && (t.batch.None? ==>
                  forall k :: 0 <= k < |t.calls| ==> m[at + 1 + k] == Reply(t.calls[k], t.outcome(k).text))
            && (t.batch.None? && t.calls == [] ==> m[at + 1] == User(t.outcome(0).text))
            && (t.batch.Some? ==> m[at + 1] == if t.calls == [] then User(report) else Reply(t.calls[0], report))
            && (forall k :: 0 <= k < |t.notices| ==> m[at + 1 + n + k] == User(t.notices[k]))
            && forall k :: 0 <= k < |guidance| ==> m[at + 1 + n + |t.notices| + k] == User(guidance[k])
  {
    hide Guidance, Replies, Users;
    RepliesByMessage(t, report);
    PartsOf(history, Assistant(t.calls, t.text), Replies(t, report), Users(t.notices), Users(Guidance(t)));
  }

  lemma PartsOf(history: Messages, first: Message, replies: Messages, notices: Messages, guidance: Messages)
    ensures var m, at := history + ([first] + replies + notices + guidance), |history|;
            && |m| == at + 1 + |replies| + |notices| + |guidance|
            && m[..at] == history && m[at] == first
            && (forall k :: 0 <= k < |replies| ==> m[at + 1 + k] == replies[k])
            && (forall k :: 0 <= k < |notices| ==> m[at + 1 + |replies| + k] == notices[k])
            && forall k :: 0 <= k < |guidance| ==> m[at + 1 + |replies| + |notices| + k] == guidance[k]
  {
  }

  lemma {:induction false} OnceKeepsOrder(texts: seq<string>, more: string)
    ensures Once(texts + [more]) == if more in texts then Once(texts) else Once(texts) + [more]
  {
    assert (texts + [more])[..|texts|] == texts;
  }

  /** The guidance of a turn: each nudge at its first place, and the closing one whatever was said. */
  lemma GuidanceOf(t: Turn)
    ensures var g := Guidance(t);
            && (forall x :: x in g <==> x in t.nudges || t.closing == Some(x))
            && (t.closing.Some? ==> g != [] && g[|g| - 1] == t.closing.value)
            && forall i, j :: 0 <= i < j < |g| && (j < |g| - 1 || t.closing.None?) ==> g[i] != g[j]
  {
  }

  method RunTurn(history: Messages, t: Turn, render: Aggregate -> string)
    returns (messages: Messages, report: string)
    requires WellFormed(t)
    ensures messages == history + Said(t, report)
    ensures messages[..|history|] == history && messages[|history|] == Assistant(t.calls, t.text)
    ensures t.batch.None? ==>
              forall k :: 0 <= k < |t.calls| ==> messages[|history| + 1 + k] == Reply(t.calls[k], t.outcome(k).text)
    ensures t.batch.None? && t.calls == [] ==> messages[|history| + 1] == User(t.outcome(0).text)
    ensures t.batch.Some? ==>
              messages[|history| + 1] == if t.calls == [] then User(report) else Reply(t.calls[0], report)
    ensures t.batch.Some? ==> exists a :: IsReport(t, a) && report == render(a)
  {
    hide Guidance, Replies, Users;
    messages, report := AnswerCalls(history + [Assistant(t.calls, t.text)], t, render);
    var guidance := Guide(t);
    messages := messages + Users(t.notices) + guidance;
    assert messages == history + Said(t, report);
    hide Said;
    SaidByMessage(history, t, report);
  }

  // One reply a call; a batch stops at its first failure and is answered by its report.
  method AnswerCalls(conversation: Messages, t: Turn, render: Aggregate -> string)
    returns (messages: Messages, report: string)
    requires WellFormed(t)
    ensures messages == conversation + Replies(t, report)
    ensures t.batch.Some? ==> exists a :: IsReport(t, a) && report == render(a)
  {
    hide IsReport, ReplyTo;
    report := "";
    var results := [];
    messages := if t.batch.Some? then [] else conversation;
    var calls := Operations(t);
    for k := 0 to |calls|
      invariant t.batch.None? ==>
                  messages == conversation + seq(k, i requires 0 <= i < k => ReplyTo(calls[i], t.outcome(i).text))
      invariant t.batch.Some? ==> |results| == k
      invariant forall i :: 0 <= i < |results| ==> results[i] == t.outcome(i) && !Failed(results[i])
    {
      var payload := t.outcome(k);
      messages := messages + [ReplyTo(calls[k], payload.text)];
      if t.batch.Some? {
        results := results + [payload];
        if Failed(payload) {
          break;
        }
      }
    }
    if t.batch.Some? {
      var aggregate := Report(t, results);
      report := render(aggregate);
      messages := conversation + [ReplyTo(Parent(t), report)];
    }
  }

  method Guide(t: Turn) returns (guidance: Messages)
    ensures guidance == Users(Guidance(t))
  {
    hide Once;
    guidance := Users(Once(t.nudges));
    if t.closing.Some? {
      guidance := guidance + [User(t.closing.value)];
    }
  }

  method Report(t: Turn, results: seq<Payload>) returns (a: Aggregate)
    requires t.batch.Some? && 1 <= |results| <= t.batch.value
    requires forall i :: 0 <= i < |results| ==> results[i] == t.outcome(i)
    requires forall i :: 0 <= i < |results| - 1 ==> !Failed(results[i])
    requires |results| == t.batch.value || Failed(results[|results| - 1])
    ensures IsReport(t, a)
  {
    var completed, requested := |results|, t.batch.value;
    var failed, succeeded := completed < requested, 0;
    for i := 0 to completed
      invariant failed <==> completed < requested || exists k :: 0 <= k < i && Failed(results[k])
      invariant succeeded == if i == completed && Failed(results[completed - 1]) then completed - 1 else i
    {
      if Failed(results[i]) {
        failed := true;
      } else {
        succeeded := succeeded + 1;
      }
    }
    var skipped := seq(requested - completed, i requires 0 <= i < requested - completed => completed + 1 + i);
    a := Aggregate(!failed, results, completed, succeeded, requested, skipped,
                   if failed then Some(completed) else None);
  }

  lemma {:induction false} UsersAreValid(texts: seq<string>)
    ensures ProtocolValid(Users(texts))
  {
    if texts != [] {
      UsersAreValid(texts[1..]);
      assert Users(texts)[1..] == Users(texts[1..]);
    }
  }

  lemma {:induction false} RepliesAnswer(ids: seq<string>, replies: Messages)
    requires |replies| == |ids| && forall i :: 0 <= i < |ids| ==> replies[i].Reply? && replies[i].callId == ids[i]
    ensures Paired(replies, ids)
  {
    if ids != [] {
      RepliesAnswer(ids[1..], replies[1..]);
    }
  }

  lemma RepliesArePaired(t: Turn, report: string)
    requires WellFormed(t)
    ensures Paired(Replies(t, report), t.calls)
  {
    var replies := Replies(t, report);
    if t.calls == [] {
      assert Parent(t).None? && |replies| == 1;
      if t.batch.None? {
        assert Operations(t)[0] == None;
        assert replies[0] == ReplyTo(Operations(t)[0], t.outcome(0).text);
      }
      assert replies[0].User? && replies[1..] == [];
    } else {
      hide Paired;
      forall i | 0 <= i < |t.calls| ensures replies[i].Reply? && replies[i].callId == t.calls[i] {
        assert t.calls[i] in t.calls;
        if t.batch.None? {
          assert Operations(t)[i] == Some(t.calls[i]);
          assert replies[i] == ReplyTo(Operations(t)[i], t.outcome(i).text);
        }
      }
      RepliesAnswer(t.calls, replies);
    }
  }

  /** Every native call of a turn has exactly one reply, in order, before any guidance. */
  lemma TurnIsPaired(t: Turn, report: string)
    requires WellFormed(t)
    ensures ProtocolValid(Said(t, report))
  {
    hide Replies, Guidance;
    var replies := Replies(t, report);
    RepliesArePaired(t, report);
    UsersAreValid(t.notices);
    UsersAreValid(Guidance(t));
    PairedAppend(replies, Users(t.notices), t.calls);
    PairedAppend(replies + Users(t.notices), Users(Guidance(t)), t.calls);
    assert Said(t, report)[1..] == replies + Users(t.notices) + Users(Guidance(t));
  }

  // ---------- whole conversations ----------

  datatype Event = Turned(turn: Turn, report: string) | Resumed(text: string)

  predicate Plausible(e: Event) {
    e.Turned? ==> WellFormed(e.turn)
  }

  function Conversation(system: string, task: string, events: seq<Event>): Messages
    requires forall e :: e in events ==> Plausible(e)
  {
    if events == [] then [System(system), User(task)] else
    var e := events[|events| - 1];
    Conversation(system, task, events[..|events| - 1]) +
    (match e
     case Turned(t, report) => Said(t, report)
     case Resumed(text) => [User(text)])
  }

  lemma {:induction false} ConversationIsValid(system: string, task: string, events: seq<Event>)
    requires forall e :: e in events ==> Plausible(e)
    ensures ProtocolValid(Conversation(system, task, events))
    ensures [System(system), User(task)] <= Conversation(system, task, events)
    decreases |events|
  {
    if events == [] {
      assert [System(system), User(task)][1..] == [User(task)] && [User(task)][1..] == [];
    } else {
      var before, e := Conversation(system, task, events[..|events| - 1]), events[|events| - 1];
      ConversationIsValid(system, task, events[..|events| - 1]);
      match e
      case Turned(t, report) =>
        assert Plausible(e);
        TurnIsPaired(t, report);
        PairedAppend(before, Said(t, report), []);
      case Resumed(text) =>
        assert ProtocolValid([User(text)]);
        PairedAppend(before, [User(text)], []);
    }
  }

  /**
   What the model is ever sent keeps the protocol: after any turns and resumptions, every
   projection of the conversation answers each native call exactly once and in order.
   */
  lemma EveryRequestIsValid(system: string, task: string, events: seq<Event>, memory: Message, k: nat)
    requires forall e :: e in events ==> Plausible(e)
    requires k <= |Groups(Rest(Conversation(system, task, events)))| && memory.User?
    ensures ProtocolValid(Kept(Conversation(system, task, events), k) + [memory])
  {
    var messages := Conversation(system, task, events);
    ConversationIsValid(system, task, events);
    assert messages[0] == [System(system), User(task)][0] && messages[1] == [System(system), User(task)][1];
    ProjectionKeepsPairing(messages, memory, k);
  }
}
