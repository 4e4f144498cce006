/**
 Merging the chunks of a streamed completion into one message, and why the way the provider
 cuts and interleaves the chunks does not matter.
 */
module StreamMerge {
  import opened Decimals
  import opened Sorting
  import opened Wrappers

  // A fragment of a tool call; an absent field is empty.
  datatype CallDelta = CallDelta(index: Option<int>, id: string, name: string, arguments: string)

  datatype Event = Event(
    model: Option<string>, usage: Option<nat>, finish: Option<string>,
    content: string, reasoning: Option<string>, calls: seq<CallDelta>)

  datatype Call = Call(id: string, name: string, arguments: string)

  datatype Merged = Merged(
    model: Option<string>, usage: Option<nat>, finish: Option<string>,
    content: string, reasoning: Option<string>, calls: seq<Call>)

  // What has been gathered for one call index; the last non-empty id wins.
  datatype Slot = Slot(id: string, name: string, arguments: string)

  function Later<T>(a: Option<T>, b: Option<T>): Option<T> {
    if b.Some? then b else a
  }

  function Joined(a: Option<string>, b: Option<string>): Option<string> {
    if b.None? then a else if a.None? then b else Some(a.value + b.value)
  }

  function Gather(slot: Option<Slot>, c: CallDelta): Slot {
    var was := if slot.Some? then slot.value else Slot("", "", "");
    Slot(if c.id != "" then c.id else was.id, was.name + c.name, was.arguments + c.arguments)
  }

  predicate Indexed(c: CallDelta) {
    c.index.Some? && c.index.value >= 0
  }

  // A fragment without a usable index goes to the next number of calls seen.
  function IndexOf(slots: map<nat, Slot>, c: CallDelta): nat {
    if Indexed(c) then c.index.value else |slots|
  }

  function Add(slots: map<nat, Slot>, c: CallDelta): map<nat, Slot> {
    var i := IndexOf(slots, c);
    slots[i := Gather(if i in slots then Some(slots[i]) else None, c)]
  }

  ghost predicate Extends(slots: map<nat, Slot>, more: map<nat, Slot>, c: CallDelta, index: nat) {
    && more.Keys == slots.Keys + {index} && (forall i :: i in slots && i != index ==> more[i] == slots[i])
    && var had := if index in slots then slots[index] else Slot("", "", "");
       && more[index].name == had.name + c.name && more[index].arguments == had.arguments + c.arguments
       && (c.id == "" ==> more[index].id == had.id) && (c.id != "" ==> more[index].id == c.id)
  }

  /**
   A fragment extends one call and leaves the others: the call of its index, or without a usable
   index the one numbered like the calls seen so far.
   */
  lemma AddExtends(slots: map<nat, Slot>, c: CallDelta)
    ensures c.index.Some? && c.index.value >= 0 ==> Extends(slots, Add(slots, c), c, c.index.value)
    ensures c.index.None? || c.index.value < 0 ==> Extends(slots, Add(slots, c), c, |slots|)
  {
    var i := IndexOf(slots, c);
    var slot := Gather(if i in slots then Some(slots[i]) else None, c);
    AddKeys(slots, i, slot);
  }

  lemma AddKeys(slots: map<nat, Slot>, i: nat, slot: Slot)
    ensures slots[i := slot].Keys == slots.Keys + {i}
  {
  }

  function AddAll(slots: map<nat, Slot>, calls: seq<CallDelta>): map<nat, Slot>
    decreases |calls|
  {
    if calls == [] then slots else Add(AddAll(slots, calls[..|calls| - 1]), calls[|calls| - 1])
  }

  // Everything gathered before the message is put together.
  datatype State = State(
    model: Option<string>, usage: Option<nat>, finish: Option<string>,
    content: string, reasoning: Option<string>, slots: map<nat, Slot>)

  const START: State := State(None, None, None, "", None, map[])

  function Absorb(s: State, e: Event): State {
    State(Later(s.model, e.model), Later(s.usage, e.usage), Later(s.finish, e.finish),
          s.content + e.content, Joined(s.reasoning, e.reasoning), AddAll(s.slots, e.calls))
  }

  function AbsorbAll(s: State, events: seq<Event>): State
    decreases |events|
  {
    if events == [] then s else Absorb(AbsorbAll(s, events[..|events| - 1]), events[|events| - 1])
  }

  function CallAt(index: nat, slot: Slot): Call {
    Call(if slot.id != "" then slot.id else "call_" + Decimal(index), slot.name, slot.arguments)
  }

  // A call without an id is named after its index.
  predicate IsCallAt(call: Call, index: nat, slot: Slot) {
    && call.name == slot.name && call.arguments == slot.arguments
    && (slot.id != "" ==> call.id == slot.id) && (slot.id == "" ==> call.id == "call_" + Decimal(index))
  }

  /** The merged message: the calls stand in the order of their indexes. */
  ghost predicate IsMessage(s: State, m: Merged, indexes: seq<nat>) {
    && m == Merged(s.model, s.usage, s.finish, s.content, s.reasoning, m.calls)
    && Ascending(indexes) && (forall i :: i in indexes <==> i in s.slots)
    && |m.calls| == |indexes|
    && forall k :: 0 <= k < |indexes| ==> IsCallAt(m.calls[k], indexes[k], s.slots[indexes[k]])
  }

  method MergeStream(events: seq<Event>) returns (m: Merged)
    ensures exists indexes :: IsMessage(AbsorbAll(START, events), m, indexes)
    ensures m.content == Texts(events) && IsReasoning(events, m.reasoning)
    ensures IsLastGiven(events, ModelOf, m.model) && IsLastGiven(events, UsageOf, m.usage)
    ensures IsLastGiven(events, FinishOf, m.finish)
  {
    hide IsLastGiven, IsReasoning, Texts;
    var content, reasoning, slots := "", None, map[];
    var model, usage, finish := None, None, None;
    for i := 0 to |events|
      invariant AbsorbAll(START, events[..i]) == State(model, usage, finish, content, reasoning, slots)
    {
      var e := events[i];
      assert events[..i + 1][..i] == events[..i];
      model, usage, finish := Later(model, e.model), Later(usage, e.usage), Later(finish, e.finish);
      content, reasoning := content + e.content, Joined(reasoning, e.reasoning);
      ghost var before := slots;
      for k := 0 to |e.calls|
        invariant slots == AddAll(before, e.calls[..k])
      {
        assert e.calls[..k + 1][..k] == e.calls[..k];
        slots := Add(slots, e.calls[k]);
      }
      assert e.calls[..|e.calls|] == e.calls;
    }
    assert events[..|events|] == events;
    var sorted := InOrder(slots.Keys);
    assert forall k :: 0 <= k < |sorted| ==> sorted[k] in sorted;
    m := Merged(model, usage, finish, content, reasoning,
                seq(|sorted|, k requires 0 <= k < |sorted| => CallAt(sorted[k], slots[sorted[k]])));
    assert IsMessage(AbsorbAll(START, events), m, sorted);
    GatheredFields(events);
  }

  function ModelOf(e: Event): Option<string> { e.model }

  function UsageOf(e: Event): Option<nat> { e.usage }

  function FinishOf(e: Event): Option<string> { e.finish }

  /** Content and reasoning are joined from all events; model, usage and finish are the last ones given. */
  lemma GatheredFields(events: seq<Event>)
    ensures var s := AbsorbAll(START, events);
            && s.content == Texts(events) && IsReasoning(events, s.reasoning)
            && IsLastGiven(events, ModelOf, s.model) && IsLastGiven(events, UsageOf, s.usage)
            && IsLastGiven(events, FinishOf, s.finish)
  {
    hide IsLastGiven, AbsorbAll, AddAll;
    ContentIsJoined(events);
    ReasoningIsJoined(events);
    LastGivenWins(events, ModelOf, (t: State) => t.model);
    LastGivenWins(events, UsageOf, (t: State) => t.usage);
    LastGivenWins(events, FinishOf, (t: State) => t.finish);
  }

  // The value of the last event that gives one.
  ghost predicate IsLastGiven<T(!new)>(events: seq<Event>, given: Event -> Option<T>, r: Option<T>) {
    match r
    case None => forall i :: 0 <= i < |events| ==> given(events[i]).None?
    case Some(_) => exists k: nat :: GivenLast(events, given, k) && given(events[k]) == r
  }

  ghost predicate GivenLast<T(!new)>(events: seq<Event>, given: Event -> Option<T>, k: nat) {
    && k < |events| && given(events[k]).Some?
    && forall i :: k < i < |events| ==> given(events[i]).None?
  }

  lemma {:induction false} LastGivenWins<T(!new)>(events: seq<Event>, given: Event -> Option<T>,
                                                  kept: State -> Option<T>)
    requires kept(START).None?
    requires forall s, e :: kept(Absorb(s, e)) == (if given(e).Some? then given(e) else kept(s))
    ensures IsLastGiven(events, given, kept(AbsorbAll(START, events)))
    decreases |events|
  {
    hide AddAll;
    if events != [] {
      var before, last := events[..|events| - 1], |events| - 1;
      LastGivenWins(before, given, kept);
      var had := kept(AbsorbAll(START, before));
      if given(events[last]).Some? {
        assert GivenLast(events, given, last);
      } else if had.Some? {
        var k: nat :| GivenLast(before, given, k) && given(before[k]) == had;
        assert GivenLast(events, given, k);
      }
    }
  }

  // ---------- independence of chunking ----------

  /** The message is determined by what was gathered. */
  lemma MessageIsUnique(s: State, m: Merged, indexes: seq<nat>, n: Merged, others: seq<nat>)
    requires IsMessage(s, m, indexes) && IsMessage(s, n, others)
    ensures m == n
  {
    AscendingIsUnique(indexes, others);
    assert m.calls == n.calls;
  }

  lemma {:induction false} AddAppend(slots: map<nat, Slot>, a: seq<CallDelta>, b: seq<CallDelta>)
    ensures AddAll(slots, a + b) == AddAll(AddAll(slots, a), b)
    decreases |b|
  {
    if b == [] {
      assert a + b == a;
    } else {
      assert (a + b)[..|a + b| - 1] == a + b[..|b| - 1];
      AddAppend(slots, a, b[..|b| - 1]);
    }
  }

  lemma {:induction false} AbsorbAppend(s: State, a: seq<Event>, b: seq<Event>)
    ensures AbsorbAll(s, a + b) == AbsorbAll(AbsorbAll(s, a), b)
    decreases |b|
  {
    if b == [] {
      assert a + b == a;
    } else {
      assert (a + b)[..|a + b| - 1] == a + b[..|b| - 1];
      AbsorbAppend(s, a, b[..|b| - 1]);
    }
  }

  // One fragment cut in two: texts are cut anywhere, and the id travels with either half.
  predicate CutCall(c: CallDelta, first: CallDelta, second: CallDelta) {
    && Indexed(c) && first.index == c.index && second.index == c.index
    && c.name == first.name + second.name && c.arguments == first.arguments + second.arguments
    && c.id == (if second.id != "" then second.id else first.id)
  }

  lemma CutCallAddsTheSame(slots: map<nat, Slot>, c: CallDelta, first: CallDelta, second: CallDelta)
    requires CutCall(c, first, second)
    ensures Add(Add(slots, first), second) == Add(slots, c)
  {
    var was := if c.index.value in slots then slots[c.index.value] else Slot("", "", "");
    assert (was.name + first.name) + second.name == was.name + c.name;
    assert (was.arguments + first.arguments) + second.arguments == was.arguments + c.arguments;
  }

  ghost predicate CutCalls(calls: seq<CallDelta>, first: seq<CallDelta>, second: seq<CallDelta>) {
    || calls == first + second
    || (&& first != [] && second != []
        && exists c :: CutCall(c, first[|first| - 1], second[0])
             && calls == first[..|first| - 1] + [c] + second[1..])
  }

  /** Cutting one event in two: its texts anywhere, and its calls between or inside them. */
  ghost predicate Cut(e: Event, first: Event, second: Event) {
    && e.model == Later(first.model, second.model) && e.usage == Later(first.usage, second.usage)
    && e.finish == Later(first.finish, second.finish)
    && e.content == first.content + second.content
    && e.reasoning == Joined(first.reasoning, second.reasoning)
    && CutCalls(e.calls, first.calls, second.calls)
  }

  lemma CutCallsAddTheSame(slots: map<nat, Slot>, front: seq<CallDelta>, c: CallDelta, first: CallDelta,
                           second: CallDelta, back: seq<CallDelta>)
    requires CutCall(c, first, second)
    ensures AddAll(slots, front + [c] + back) == AddAll(AddAll(slots, front + [first]), [second] + back)
  {
    AddAppend(slots, front + [c], back);
    AddAppend(slots, front, [c]);
    AddAppend(slots, front, [first]);
    AddAppend(AddAll(slots, front + [first]), [second], back);
    var before := AddAll(slots, front);
    AddOne(before, c);
    AddOne(before, first);
    AddOne(Add(before, first), second);
    CutCallAddsTheSame(before, c, first, second);
  }

  lemma AddOne(slots: map<nat, Slot>, c: CallDelta)
    ensures AddAll(slots, [c]) == Add(slots, c)
  {
    assert [c][..0] == [];
  }

  lemma JoinedAssociates(a: Option<string>, b: Option<string>, c: Option<string>)
    ensures Joined(a, Joined(b, c)) == Joined(Joined(a, b), c)
  {
    if a.Some? && b.Some? && c.Some? {
      assert a.value + (b.value + c.value) == (a.value + b.value) + c.value;
    }
  }

  lemma CutCallListsAddTheSame(slots: map<nat, Slot>, calls: seq<CallDelta>, first: seq<CallDelta>,
                               second: seq<CallDelta>)
    requires CutCalls(calls, first, second)
    ensures AddAll(AddAll(slots, first), second) == AddAll(slots, calls)
  {
    if calls == first + second {
      AddAppend(slots, first, second);
    } else {
      var c :| CutCall(c, first[|first| - 1], second[0]) && calls == first[..|first| - 1] + [c] + second[1..];
      assert first == first[..|first| - 1] + [first[|first| - 1]];
      assert second == [second[0]] + second[1..];
      CutCallsAddTheSame(slots, first[..|first| - 1], c, first[|first| - 1], second[0], second[1..]);
    }
  }

  lemma CutAbsorbsTheSame(s: State, e: Event, first: Event, second: Event)
    requires Cut(e, first, second)
    ensures Absorb(Absorb(s, first), second) == Absorb(s, e)
  {
    assert s.content + (first.content + second.content) == (s.content + first.content) + second.content;
    JoinedAssociates(s.reasoning, first.reasoning, second.reasoning);
    CutCallListsAddTheSame(s.slots, e.calls, first.calls, second.calls);
    hide CutCalls;
  }

  /** Chunking does not matter: cutting any event of any stream leaves the gathered state. */
  lemma ChunkingIsIrrelevant(before: seq<Event>, e: Event, first: Event, second: Event, after: seq<Event>)
    requires Cut(e, first, second)
    ensures AbsorbAll(START, before + [first, second] + after) == AbsorbAll(START, before + [e] + after)
  {
    AbsorbAppend(START, before + [first, second], after);
    AbsorbAppend(START, before + [e], after);
    AbsorbAppend(START, before, [first, second]);
    AbsorbAppend(START, before, [e]);
    var s := AbsorbAll(START, before);
    assert [first, second][..1] == [first] && [first][..0] == [] && [e][..0] == [];
    CutAbsorbsTheSame(s, e, first, second);
  }

  // ---------- independence of interleaving ----------

  // The fragments of one call, in their order.
  function Select(calls: seq<CallDelta>, index: nat): seq<CallDelta> {
    if calls == [] then [] else
    var before, c := Select(calls[..|calls| - 1], index), calls[|calls| - 1];
    if Indexed(c) && c.index.value == index then before + [c] else before
  }

  function GatherAll(slot: Option<Slot>, calls: seq<CallDelta>): Option<Slot> {
    if calls == [] then slot else Some(Gather(GatherAll(slot, calls[..|calls| - 1]), calls[|calls| - 1]))
  }

  lemma {:induction false} SlotsAreSelected(calls: seq<CallDelta>, index: nat)
    requires forall c :: c in calls ==> Indexed(c)
    ensures var slots := AddAll(map[], calls);
            (if index in slots then Some(slots[index]) else None) == GatherAll(None, Select(calls, index))
    decreases |calls|
  {
    if calls != [] {
      var before, c := calls[..|calls| - 1], calls[|calls| - 1];
      SlotsAreSelected(before, index);
      assert Indexed(c);
      if c.index.value == index {
        assert Select(calls, index)[..|Select(calls, index)| - 1] == Select(before, index);
      }
    }
  }

  function Arguments(calls: seq<CallDelta>): string {
    if calls == [] then "" else Arguments(calls[..|calls| - 1]) + calls[|calls| - 1].arguments
  }

  function Names(calls: seq<CallDelta>): string {
    if calls == [] then "" else Names(calls[..|calls| - 1]) + calls[|calls| - 1].name
  }

  // The last id that is not empty, if any.
  function LastId(calls: seq<CallDelta>): string {
    if calls == [] then ""
    else if calls[|calls| - 1].id != "" then calls[|calls| - 1].id
    else LastId(calls[..|calls| - 1])
  }

  lemma {:induction false} GatheredTexts(calls: seq<CallDelta>)
    requires calls != []
    ensures GatherAll(None, calls) == Some(Slot(LastId(calls), Names(calls), Arguments(calls)))
  {
    var before := calls[..|calls| - 1];
    if before != [] {
      GatheredTexts(before);
    }
  }

  /**
   What the merged message says of an indexed call: it is there exactly when a fragment of it
   came, with the names and the arguments of its fragments joined in order and its last id.
   */
  lemma CallIsItsFragments(events: seq<Event>, index: nat)
    requires forall c :: c in Calls(events) ==> Indexed(c)
    ensures var slots := AbsorbAll(START, events).slots; var mine := Select(Calls(events), index);
            && (index in slots <==> mine != [])
            && (mine != [] ==> slots[index] == Slot(LastId(mine), Names(mine), Arguments(mine)))
  {
    SlotsOfStream(events);
    SlotsAreSelected(Calls(events), index);
    if Select(Calls(events), index) != [] {
      GatheredTexts(Select(Calls(events), index));
    }
  }

  function Texts(events: seq<Event>): string {
    if events == [] then "" else Texts(events[..|events| - 1]) + events[|events| - 1].content
  }

  function Thoughts(events: seq<Event>): string {
    if events == [] then "" else
    var part := events[|events| - 1].reasoning;
    Thoughts(events[..|events| - 1]) + if part.Some? then part.value else ""
  }

  // Reasoning is reported when some event has a part of it, and is then all parts in order.
  ghost predicate IsReasoning(events: seq<Event>, r: Option<string>) {
    && (r.None? <==> forall i :: 0 <= i < |events| ==> events[i].reasoning.None?)
    && (r.Some? ==> r.value == Thoughts(events))
  }

  lemma {:induction false} ReasoningIsJoined(events: seq<Event>)
    ensures IsReasoning(events, AbsorbAll(START, events).reasoning)
    ensures AbsorbAll(START, events).reasoning.None? ==> Thoughts(events) == ""
    decreases |events|
  {
    if events != [] {
      ReasoningIsJoined(events[..|events| - 1]);
      var before, last := events[..|events| - 1], events[|events| - 1];
      assert forall i :: 0 <= i < |before| ==> before[i] == events[i];
    }
  }

  /** The merged content is the contents of the chunks in order. */
  lemma {:induction false} ContentIsJoined(events: seq<Event>)
    ensures AbsorbAll(START, events).content == Texts(events)
    decreases |events|
  {
    if events != [] {
      ContentIsJoined(events[..|events| - 1]);
    }
  }

  /**
   Interleaving does not matter: two orders of the fragments give the same calls whenever the
   fragments of each call keep their own order.
   */
  lemma InterleavingIsIrrelevant(a: seq<CallDelta>, b: seq<CallDelta>)
    requires forall c :: c in a || c in b ==> Indexed(c)
    requires forall i: nat :: Select(a, i) == Select(b, i)
    ensures AddAll(map[], a) == AddAll(map[], b)
  {
    var s, t := AddAll(map[], a), AddAll(map[], b);
    forall i: nat ensures (i in s <==> i in t) && (i in s ==> s[i] == t[i]) {
      SlotsAreSelected(a, i);
      SlotsAreSelected(b, i);
      assert Select(a, i) == Select(b, i);
    }
  }

  function Calls(events: seq<Event>): seq<CallDelta> {
    if events == [] then [] else Calls(events[..|events| - 1]) + events[|events| - 1].calls
  }

  lemma {:induction false} SlotsOfStream(events: seq<Event>)
    ensures AbsorbAll(START, events).slots == AddAll(map[], Calls(events))
    decreases |events|
  {
    if events != [] {
      SlotsOfStream(events[..|events| - 1]);
      AddAppend(map[], Calls(events[..|events| - 1]), events[|events| - 1].calls);
    }
  }

  /** Two streams whose calls are interleaved differently, and agree otherwise, merge to one message. */
  lemma SameMessage(a: seq<Event>, b: seq<Event>, m: Merged, ma: seq<nat>, n: Merged, nb: seq<nat>)
    requires forall c :: c in Calls(a) || c in Calls(b) ==> Indexed(c)
    requires forall i: nat :: Select(Calls(a), i) == Select(Calls(b), i)
    requires AbsorbAll(START, a).(slots := map[]) == AbsorbAll(START, b).(slots := map[])
    requires IsMessage(AbsorbAll(START, a), m, ma) && IsMessage(AbsorbAll(START, b), n, nb)
    ensures m == n
  {
    SlotsOfStream(a);
    SlotsOfStream(b);
    InterleavingIsIrrelevant(Calls(a), Calls(b));
    var s, t := AbsorbAll(START, a), AbsorbAll(START, b);
    assert s == s.(slots := map[]).(slots := s.slots);
    assert t == t.(slots := map[]).(slots := t.slots);
    MessageIsUnique(s, m, ma, n, nb);
  }

  /** Without an index the order is what counts: two such streams may differ. */
  lemma UnindexedOrderMatters(x: string, y: string)
    requires x != y
    ensures var a := CallDelta(None, "", "", x); var b := CallDelta(None, "", "", y);
            AddAll(map[], [a, b]) != AddAll(map[], [b, a])
  {
    var a := CallDelta(None, "", "", x);
    var b := CallDelta(None, "", "", y);
    assert [a, b][..1] == [a] && [b, a][..1] == [b];
    AddOne(map[], a);
    AddOne(map[], b);
    assert AddAll(map[], [a, b])[0].arguments == x;
    assert AddAll(map[], [b, a])[0].arguments == y;
  }
}
