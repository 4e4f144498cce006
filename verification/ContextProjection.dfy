/**
 The projection of a conversation into the model's input budget: the pinned opening, the
 longest suffix of whole exchanges that fits, and the state message.

 Texts enter only through their encoded sizes, which `Budget` supplies as functions.
 */
module ContextProjection {
  import opened History
  import opened Wrappers

  // A full reference as the shelf holds it.
  datatype Entry = Entry(path: string, text: string, digest: string)

  // A reference as the state message shows it: in full, or by the reply that still holds it.
  datatype Shown = Full(entry: Entry) | InHistory(path: string, digest: string, callId: string)

  datatype Observation = Observation(tool: string, operation: nat, path: string)

  /**
   `size` is the encoded size of a message and `noteSize` that of an observation; `memory`
   is the state message for some observations and references; `copies` are the complete
   references a reply holds, and `shorter` says that naming a reply is shorter than the text.
   */
  datatype Budget = Budget(
    size: Message -> nat, noteSize: Observation -> nat,
    memory: (seq<Observation>, seq<Shown>) -> Message,
    copies: Message -> set<Entry>, shorter: (Entry, string) -> bool,
    maxTokens: int, toolTokens: nat, reserve: nat)

  const MAX_RECENT: nat := 10
  const RECENT_TOKENS: nat := 1024

  function Sum<T>(size: T -> nat, items: seq<T>): nat {
    if items == [] then 0 else size(items[0]) + Sum(size, items[1..])
  }

  // The size of an encoded list: two brackets, and two bytes between items.
  function ListBytes<T>(size: T -> nat, items: seq<T>): nat {
    Sum(size, items) + (if items == [] then 2 else 2 * |items|)
  }

  function Tokens(bytes: nat): nat {
    bytes / 2 + 1
  }

  function Estimate(b: Budget, messages: Messages): nat {
    Tokens(ListBytes(b.size, messages))
  }

  predicate Fits(b: Budget, messages: Messages, reserve: nat) {
    Estimate(b, messages) + b.toolTokens + reserve <= b.maxTokens
  }

  lemma {:induction false} SumAppend<T>(size: T -> nat, a: seq<T>, c: seq<T>)
    ensures Sum(size, a + c) == Sum(size, a) + Sum(size, c)
  {
    if a == [] {
      assert a + c == c;
    } else {
      assert (a + c)[1..] == a[1..] + c;
      SumAppend(size, a[1..], c);
    }
  }

  /** The estimate does not depend on where in the list the state message stands. */
  lemma MemoryMoves(b: Budget, pinned: Messages, memory: Message, latest: Messages)
    ensures Estimate(b, pinned + [memory] + latest) == Estimate(b, pinned + latest + [memory])
  {
    SumAppend(b.size, pinned + [memory], latest);
    SumAppend(b.size, pinned, [memory]);
    SumAppend(b.size, pinned + latest, [memory]);
    SumAppend(b.size, pinned, latest);
  }

  lemma EstimateGrows(b: Budget, before: Messages, more: Messages, rest: Messages)
    ensures Estimate(b, before + rest) <= Estimate(b, before + (more + rest))
  {
    SumAppend(b.size, before, rest);
    SumAppend(b.size, before, more + rest);
    SumAppend(b.size, more, rest);
  }

  // ---------- whole exchanges ----------

  // An assistant message opens a new exchange; anything else joins the last one.
  function Extend(groups: seq<Messages>, m: Message): (r: seq<Messages>)
    ensures r != [] && |r| >= |groups|
    ensures (forall i :: 0 <= i < |groups| ==> groups[i] != []) ==> forall i :: 0 <= i < |r| ==> r[i] != []
  {
    if m.Assistant? || groups == [] then groups + [[m]]
    else groups[..|groups| - 1] + [groups[|groups| - 1] + [m]]
  }

  function Groups(messages: Messages): (r: seq<Messages>)
    ensures r == [] <==> messages == []
    ensures forall i :: 0 <= i < |r| ==> r[i] != []
  {
    if messages == [] then [] else Extend(Groups(messages[..|messages| - 1]), messages[|messages| - 1])
  }

  function Flatten(groups: seq<Messages>): Messages {
    if groups == [] then [] else groups[0] + Flatten(groups[1..])
  }

  lemma {:induction false} FlattenAppend(a: seq<Messages>, c: seq<Messages>)
    ensures Flatten(a + c) == Flatten(a) + Flatten(c)
  {
    if a == [] {
      assert a + c == c;
    } else {
      assert (a + c)[1..] == a[1..] + c;
      FlattenAppend(a[1..], c);
    }
  }

  lemma FlattenLast(groups: seq<Messages>)
    requires groups != []
    ensures Flatten(groups) == Flatten(groups[..|groups| - 1]) + groups[|groups| - 1]
  {
    var last := groups[|groups| - 1];
    assert groups == groups[..|groups| - 1] + [last];
    FlattenAppend(groups[..|groups| - 1], [last]);
    assert Flatten([last]) == last + Flatten([]);
  }

  lemma FlattenExtend(groups: seq<Messages>, m: Message)
    ensures Flatten(Extend(groups, m)) == Flatten(groups) + [m]
  {
    var r := Extend(groups, m);
    FlattenLast(r);
    if m.Assistant? || groups == [] {
      assert r[..|r| - 1] == groups;
    } else {
      FlattenLast(groups);
      assert r[..|r| - 1] == groups[..|groups| - 1];
    }
  }

  /** Grouping loses nothing, and every exchange but the first opens with the assistant. */
  lemma {:induction false} GroupsPartition(messages: Messages)
    ensures Flatten(Groups(messages)) == messages
    ensures forall k :: 1 <= k < |Groups(messages)| ==> Groups(messages)[k][0].Assistant?
    decreases |messages|
  {
    if messages != [] {
      var before, m := messages[..|messages| - 1], messages[|messages| - 1];
      GroupsPartition(before);
      FlattenExtend(Groups(before), m);
      assert messages == before + [m];
    }
  }

  /** An exchange opens with the only assistant message in it. */
  lemma {:induction false} OneAssistantEach(messages: Messages, k: nat, j: nat)
    requires k < |Groups(messages)| && 1 <= j < |Groups(messages)[k]|
    ensures !Groups(messages)[k][j].Assistant?
    decreases |messages|
  {
    var before, m := Groups(messages[..|messages| - 1]), messages[|messages| - 1];
    var groups := Groups(messages);
    assert groups == Extend(before, m);
    hide Groups;
    if k < |before| && j < |before[k]| {
      assert groups[k][j] == before[k][j];
      OneAssistantEach(messages[..|messages| - 1], k, j);
    }
  }

  // ---------- the state message ----------

  function Pinned(messages: Messages): Messages {
    if |messages| <= 2 then messages else messages[..2]
  }

  function Rest(messages: Messages): Messages {
    if |messages| <= 2 then [] else messages[2..]
  }

  function Latest(messages: Messages): Messages {
    var groups := Groups(Rest(messages));
    if groups == [] then [] else groups[|groups| - 1]
  }

  function Reserve(b: Budget, messages: Messages): nat {
    if Rest(messages) == [] then b.reserve else 0
  }

  // The least request with a state message: opening, state and latest exchange.
  predicate StateFits(b: Budget, messages: Messages, recent: seq<Observation>, shelf: seq<Shown>) {
    Fits(b, Pinned(messages) + [b.memory(recent, shelf)] + Latest(messages), Reserve(b, messages))
  }

  /** The latest exchange is everything from the last assistant message on, the opening aside. */
  lemma LatestIsLastExchange(messages: Messages) returns (at: nat)
    requires |messages| > 2
    ensures 2 <= at < |messages| && Latest(messages) == messages[at..]
    ensures at == 2 || messages[at].Assistant?
    ensures forall i :: at < i < |messages| ==> !messages[i].Assistant?
  {
    var rest := Rest(messages);
    var groups := Groups(rest);
    var last := groups[|groups| - 1];
    GroupsPartition(rest);
    FlattenLast(groups);
    at := |messages| - |last|;
    assert messages == messages[..2] + rest;
    assert |groups| == 1 ==> groups[..0] == [] && Flatten(groups[..0]) == [];
    forall i | at < i < |messages| ensures !messages[i].Assistant? {
      OneAssistantEach(rest, |groups| - 1, i - at);
      assert messages[i] == last[i - at];
    }
  }

  /** What it means that a request with a state message fits. */
  lemma StateFitsIff(b: Budget, messages: Messages, recent: seq<Observation>, shelf: seq<Shown>)
    ensures var opening := if |messages| <= 2 then messages else messages[..2];
            var request := opening + [b.memory(recent, shelf)] + (if |messages| <= 2 then [] else Latest(messages));
            StateFits(b, messages, recent, shelf) <==>
              (Sum(b.size, request) + 2 * |request|) / 2 + 1 + b.toolTokens
              + (if |messages| <= 2 then b.reserve else 0) <= b.maxTokens
  {
  }

  // References from the newest back; one that does not fit is passed over.
  function Shelve(b: Budget, messages: Messages, entries: seq<Entry>): (r: seq<Shown>)
    ensures forall s :: s in r ==> s.Full? && s.entry in entries
    ensures StateFits(b, messages, [], []) ==> StateFits(b, messages, [], r)
  {
    if entries == [] then [] else
    var newer := Shelve(b, messages, entries[1..]);
    var trial := [Full(entries[0])] + newer;
    if StateFits(b, messages, [], trial) then trial else newer
  }

  predicate RecentFits(b: Budget, messages: Messages, recent: seq<Observation>, shelf: seq<Shown>) {
    Tokens(ListBytes(b.noteSize, recent)) <= RECENT_TOKENS && StateFits(b, messages, recent, shelf)
  }

  // The latest observations, as many as fit in a row.
  ghost predicate IsRecent(b: Budget, messages: Messages, observations: seq<Observation>, shelf: seq<Shown>, k: nat) {
    && k <= |observations| && |observations| - k <= MAX_RECENT
    && (forall j :: k <= j < |observations| ==> RecentFits(b, messages, observations[j..], shelf))
    && (k > 0 && |observations| - k < MAX_RECENT ==> !RecentFits(b, messages, observations[k - 1..], shelf))
  }

  // ---------- the projection ----------

  datatype BudgetError = ContextLimit

  function Kept(messages: Messages, k: nat): Messages
    requires k <= |Groups(Rest(messages))|
  {
    Pinned(messages) + Flatten(Groups(Rest(messages))[k..])
  }

  /**
   What a projection without de-duplication is: the opening, the exchanges from `k` on and
   the state message; it fits, and with one more exchange it would not.
   */
  ghost predicate IsProjection(b: Budget, messages: Messages, memory: Message, k: nat, r: Messages) {
    && k <= |Groups(Rest(messages))|
    && (Rest(messages) != [] ==> k < |Groups(Rest(messages))|)
    && r == Kept(messages, k) + [memory]
    && Fits(b, r, Reserve(b, messages))
    && (k > 0 && Rest(messages) != [] ==> !Fits(b, Kept(messages, k - 1) + [memory], 0))
  }

  method Exchanges(rest: Messages) returns (groups: seq<Messages>)
    ensures groups == Groups(rest)
  {
    groups := [];
    for i := 0 to |rest|
      invariant groups == Groups(rest[..i])
    {
      assert rest[..i + 1][..i] == rest[..i];
      ghost var before := groups;
      if rest[i].Assistant? || groups == [] {
        groups := groups + [[]];
        assert groups[..|before|] == before && [] + [rest[i]] == [rest[i]];
      }
      groups := groups[..|groups| - 1] + [groups[|groups| - 1] + [rest[i]]];
      assert groups == Extend(before, rest[i]);
    }
    assert rest[..|rest|] == rest;
  }

  // The kept positions after `i`.
  function Above(kept: seq<nat>, i: int): (r: seq<nat>)
    ensures |r| <= |kept| && r == kept[|kept| - |r|..]
  {
    if kept == [] || kept[0] > i then kept else Above(kept[1..], i)
  }

  predicate Within(kept: seq<nat>, to: nat) {
    forall a :: 0 <= a < |kept| ==> kept[a] < to
  }

  predicate Ascending(kept: seq<nat>, from: nat, to: nat) {
    && Within(kept, to) && (forall a :: 0 <= a < |kept| ==> from <= kept[a])
    && forall a, c :: 0 <= a < c < |kept| ==> kept[a] < kept[c]
  }

  /**
   The positions that are shown.  A reference is shown exactly when the state message with it and
   the newer ones shown still fits.
   */
  ghost predicate Chosen(b: Budget, messages: Messages, entries: seq<Entry>, kept: seq<nat>, from: nat) {
    && Ascending(kept, from, |entries|)
    && forall i :: from <= i < |entries| ==>
         (i in kept <==> StateFits(b, messages, [], [Full(entries[i])] + Fulls(entries, Above(kept, i))))
  }

  function Fulls(entries: seq<Entry>, kept: seq<nat>): (r: seq<Shown>)
    requires Within(kept, |entries|)
    ensures |r| == |kept| && forall a :: 0 <= a < |kept| ==> r[a] == Full(entries[kept[a]])
  {
    seq(|kept|, a requires 0 <= a < |kept| => Full(entries[kept[a]]))
  }

  lemma AboveGrows(kept: seq<nat>, e: nat, to: nat)
    requires e < to && Ascending(kept, e + 1, to)
    ensures Ascending([e] + kept, e, to) && Ascending(kept, e, to)
    ensures Above([e] + kept, e) == kept && Above(kept, e) == kept && e !in kept
    ensures forall i :: i > e ==> Above([e] + kept, i) == Above(kept, i)
  {
    AscendingGrows(kept, e, to);
    hide Ascending, Within;
    assert ([e] + kept)[1..] == kept;
  }

  lemma AscendingGrows(kept: seq<nat>, e: nat, to: nat)
    requires e < to && Ascending(kept, e + 1, to)
    ensures Ascending([e] + kept, e, to) && Ascending(kept, e, to) && e !in kept && (kept != [] ==> kept[0] > e)
  {
  }

  lemma FullsGrow(entries: seq<Entry>, kept: seq<nat>, e: nat)
    requires Within(kept, |entries|) && Within([e] + kept, |entries|)
    ensures Fulls(entries, [e] + kept) == [Full(entries[([e] + kept)[0]])] + Fulls(entries, kept)
  {
  }

  lemma ChosenGrows(b: Budget, messages: Messages, entries: seq<Entry>, kept: seq<nat>, e: nat)
    requires e < |entries| && Chosen(b, messages, entries, kept, e + 1)
    ensures Within(kept, |entries|) && Within([e] + kept, |entries|)
    ensures Fulls(entries, [e] + kept) == [Full(entries[e])] + Fulls(entries, kept)
    ensures if StateFits(b, messages, [], [Full(entries[e])] + Fulls(entries, kept))
            then Chosen(b, messages, entries, [e] + kept, e) else Chosen(b, messages, entries, kept, e)
  {
    hide StateFits, Above, Fulls;
    AboveGrows(kept, e, |entries|);
    FullsGrow(entries, kept, e);
  }

  /** Which references are shelved. */
  lemma {:induction false} ShelveChooses(b: Budget, messages: Messages, entries: seq<Entry>, e: nat)
    returns (kept: seq<nat>)
    requires e <= |entries|
    ensures Chosen(b, messages, entries, kept, e) && Within(kept, |entries|)
    ensures Shelve(b, messages, entries[e..]) == Fulls(entries, kept)
    decreases |entries| - e
  {
    hide StateFits, Chosen;
    if e == |entries| {
      kept := [];
      NothingChosen(b, messages, entries);
    } else {
      assert entries[e..][1..] == entries[e + 1..];
      kept := ShelveChooses(b, messages, entries, e + 1);
      ChosenGrows(b, messages, entries, kept, e);
      if StateFits(b, messages, [], [Full(entries[e])] + Fulls(entries, kept)) {
        kept := [e] + kept;
      }
    }
  }

  lemma NothingChosen(b: Budget, messages: Messages, entries: seq<Entry>)
    ensures Chosen(b, messages, entries, [], |entries|)
  {
  }

  function AllFull(entries: seq<Entry>): seq<Shown> {
    seq(|entries|, i requires 0 <= i < |entries| => Full(entries[i]))
  }

  /** The newest reference is shown whenever it fits, and all of them are if each fits with all newer ones. */
  lemma {:induction false} FittingReferencesAreShown(b: Budget, messages: Messages, entries: seq<Entry>)
    ensures entries != [] && StateFits(b, messages, [], [Full(entries[|entries| - 1])]) ==>
              Full(entries[|entries| - 1]) in Shelve(b, messages, entries)
    ensures (forall i :: 0 <= i < |entries| ==> StateFits(b, messages, [], AllFull(entries[i..]))) ==>
              Shelve(b, messages, entries) == AllFull(entries)
  {
    hide StateFits;
    if entries != [] {
      FittingReferencesAreShown(b, messages, entries[1..]);
      assert |entries| == 1 ==> entries[1..] == [] && [Full(entries[0])] + [] == [Full(entries[0])];
      if forall i :: 0 <= i < |entries| ==> StateFits(b, messages, [], AllFull(entries[i..])) {
        forall i | 0 <= i < |entries[1..]| ensures StateFits(b, messages, [], AllFull(entries[1..][i..])) {
          assert entries[1..][i..] == entries[i + 1..];
        }
        assert entries[0..] == entries && AllFull(entries) == [Full(entries[0])] + AllFull(entries[1..]);
      }
    }
  }

  method ShelveNewest(b: Budget, messages: Messages, entries: seq<Entry>)
    returns (shelf: seq<Shown>, ghost kept: seq<nat>)
    requires StateFits(b, messages, [], [])
    ensures shelf == Shelve(b, messages, entries)
    ensures Chosen(b, messages, entries, kept, 0) && Within(kept, |entries|) && shelf == Fulls(entries, kept)
  {
    hide StateFits, Chosen;
    shelf, kept := [], [];
    var e := |entries|;
    NothingChosen(b, messages, entries);
    while e > 0
      invariant 0 <= e <= |entries| && shelf == Shelve(b, messages, entries[e..])
      invariant Chosen(b, messages, entries, kept, e) && Within(kept, |entries|) && shelf == Fulls(entries, kept)
    {
      e := e - 1;
      ChosenGrows(b, messages, entries, kept, e);
      assert entries[e..][1..] == entries[e + 1..];
      var trial := [Full(entries[e])] + shelf;
      if StateFits(b, messages, [], trial) {
        shelf, kept := trial, [e] + kept;
      }
    }
    assert entries[0..] == entries;
  }

  method RecentObservations(b: Budget, messages: Messages, observations: seq<Observation>, shelf: seq<Shown>)
    returns (recent: seq<Observation>, ghost j: nat)
    requires StateFits(b, messages, [], shelf)
    ensures IsRecent(b, messages, observations, shelf, j) && recent == observations[j..]
    ensures StateFits(b, messages, recent, shelf)
  {
    hide StateFits, ListBytes;
    recent := [];
    var at := |observations|;
    while at > 0 && |observations| - at < MAX_RECENT
      invariant 0 <= at <= |observations| && |observations| - at <= MAX_RECENT
      invariant recent == observations[at..] && StateFits(b, messages, recent, shelf)
      invariant forall i :: at <= i < |observations| ==> RecentFits(b, messages, observations[i..], shelf)
    {
      var candidate := [observations[at - 1]] + recent;
      assert candidate == observations[at - 1..];
      if !RecentFits(b, messages, candidate, shelf) {
        break;
      }
      recent, at := candidate, at - 1;
    }
    j := at;
  }

  method LongestSuffix(b: Budget, messages: Messages, groups: seq<Messages>, memory: Message)
    returns (history: Messages, k: nat)
    requires groups == Groups(Rest(messages))
    requires Fits(b, Pinned(messages) + [memory] + Latest(messages), Reserve(b, messages))
    ensures IsProjection(b, messages, memory, k, history + [memory]) && history == Kept(messages, k)
  {
    MemoryMoves(b, Pinned(messages), memory, Latest(messages));
    var start := if groups == [] then 0 else |groups| - 1;
    history := Pinned(messages) + Latest(messages);
    var selected := Latest(messages);
    if groups != [] {
      assert groups[start..] == [selected] && groups[start..][1..] == [];
      assert Flatten([selected]) == selected + Flatten([]);
    }
    while start > 0
      invariant 0 <= start <= |groups| && (groups != [] ==> start < |groups|)
      invariant selected == Flatten(groups[start..]) && history == Pinned(messages) + selected
      invariant Fits(b, history + [memory], Reserve(b, messages))
    {
      var candidate := groups[start - 1] + selected;
      assert groups[start - 1..] == [groups[start - 1]] + groups[start..];
      if !Fits(b, Pinned(messages) + candidate + [memory], 0) {
        break;
      }
      selected, start := candidate, start - 1;
      history := Pinned(messages) + selected;
    }
    k := start;
  }

  method Project(b: Budget, messages: Messages, observations: seq<Observation>, entries: seq<Entry>, deduplicate: bool)
    returns (r: Result<Messages, BudgetError>, ghost k: nat, ghost j: nat, ghost kept: seq<nat>)
    ensures r.Err? <==> !StateFits(b, messages, [], [])
    ensures r.Ok? ==> Chosen(b, messages, entries, kept, 0) && Within(kept, |entries|)
    ensures r.Ok? ==>
              var shelf := Fulls(entries, kept);
              && IsRecent(b, messages, observations, shelf, j)
              && k <= |Groups(Rest(messages))|
              && var memory := b.memory(observations[j..], shelf);
              && IsProjection(b, messages, memory, k, Kept(messages, k) + [memory])
              && r.value == if !deduplicate then Kept(messages, k) + [memory] else
                   Kept(messages, k) + [b.memory(observations[j..], Deduplicate(b, shelf, Kept(messages, k)))]
  {
    k, j, kept := 0, 0, [];
    if !StateFits(b, messages, [], []) {
      return Err(ContextLimit), k, j, kept;
    }
    var groups := Exchanges(Rest(messages));
    var shelf;
    shelf, kept := ShelveNewest(b, messages, entries);
    var recent;
    recent, j := RecentObservations(b, messages, observations, shelf);
    var history, start := LongestSuffix(b, messages, groups, b.memory(recent, shelf));
    k := start;
    var view := if deduplicate then Deduplicate(b, shelf, history) else shelf;
    r := Ok(history + [b.memory(recent, view)]);
  }

  /** No longer suffix of exchanges would have fitted either. */
  lemma {:induction false} ProjectionIsMaximal(b: Budget, messages: Messages, memory: Message, k: nat,
                                               r: Messages, i: nat)
    requires IsProjection(b, messages, memory, k, r) && i < k && Rest(messages) != []
    ensures !Fits(b, Kept(messages, i) + [memory], 0)
    decreases k - i
  {
    var groups := Groups(Rest(messages));
    if i < k - 1 {
      ProjectionIsMaximal(b, messages, memory, k, r, i + 1);
      assert groups[i..] == [groups[i]] + groups[i + 1..];
      var rest := Flatten(groups[i + 1..]) + [memory];
      EstimateGrows(b, Pinned(messages), groups[i], rest);
      assert Kept(messages, i) + [memory] == Pinned(messages) + (groups[i] + rest);
      assert Kept(messages, i + 1) + [memory] == Pinned(messages) + rest;
    }
  }

  // The request with the exchanges from position `at` of the conversation on.
  function From(messages: Messages, at: nat, memory: Message): Messages
    requires 2 <= at <= |messages|
  {
    messages[..2] + messages[at..] + [memory]
  }

  // Where an exchange may begin.
  predicate Opens(messages: Messages, at: nat) {
    2 <= at < |messages| && (at == 2 || messages[at].Assistant?)
  }

  lemma KeptFrom(messages: Messages, k: nat) returns (at: nat)
    requires |messages| > 2 && k < |Groups(Rest(messages))|
    ensures Opens(messages, at) && Kept(messages, k) == messages[..2] + messages[at..]
    ensures k == 0 ==> at == 2
  {
    var rest, groups := Rest(messages), Groups(Rest(messages));
    GroupsPartition(rest);
    assert groups == groups[..k] + groups[k..];
    FlattenAppend(groups[..k], groups[k..]);
    at := 2 + |Flatten(groups[..k])|;
    assert messages == messages[..2] + rest && messages[at..] == Flatten(groups[k..]);
    assert groups[k] != [] && Flatten(groups[k..]) == groups[k] + Flatten(groups[k..][1..]);
    assert messages[at] == groups[k][0];
    assert groups[..0] == [];
  }

  lemma OneExchangeEarlier(messages: Messages, k: nat, at: nat, to: nat)
    requires |messages| > 2 && k + 1 < |Groups(Rest(messages))|
    requires 2 <= at <= |messages| && Kept(messages, k) == messages[..2] + messages[at..]
    requires 2 <= to <= |messages| && Kept(messages, k + 1) == messages[..2] + messages[to..]
    ensures at < to && forall i :: at < i < to ==> !messages[i].Assistant?
  {
    var groups := Groups(Rest(messages));
    assert groups[k..] == [groups[k]] + groups[k + 1..];
    var early, late := Kept(messages, k), Kept(messages, k + 1);
    assert early[2..] == messages[at..] && late[2..] == messages[to..];
    assert early[2..] == Flatten(groups[k..]) == groups[k] + late[2..];
    forall i | at < i < to ensures !messages[i].Assistant? {
      OneAssistantEach(Rest(messages), k, i - at);
      assert messages[i] == messages[at..][i - at] == groups[k][i - at];
    }
  }

  // A request within the budget, counted in bytes.
  predicate InBudget(b: Budget, request: Messages) {
    (Sum(b.size, request) + 2 * |request|) / 2 + 1 + b.toolTokens <= b.maxTokens
  }

  /**
   What a projection keeps of a conversation: the opening two messages, a suffix that begins where
   an exchange does, and the state message; it is in the budget, and no longer such suffix is.
   */
  lemma ProjectionInMessages(b: Budget, messages: Messages, memory: Message, k: nat, r: Messages)
    returns (at: nat)
    requires IsProjection(b, messages, memory, k, r) && |messages| > 2
    ensures Opens(messages, at) && r == From(messages, at, memory) && InBudget(b, r)
    ensures forall i: nat :: i < at && Opens(messages, i) ==> !InBudget(b, From(messages, i, memory))
  {
    at := KeptFrom(messages, k);
    if k > 0 {
      var early := KeptFrom(messages, k - 1);
      OneExchangeEarlier(messages, k - 1, early, at);
      assert !InBudget(b, From(messages, early, memory));
      forall i | i < at && 2 <= i <= early ensures !InBudget(b, From(messages, i, memory)) {
        if InBudget(b, From(messages, i, memory)) {
          LongerIsLarger(b, messages, memory, i, early);
        }
      }
    }
  }

  lemma LongerIsLarger(b: Budget, messages: Messages, memory: Message, i: nat, at: nat)
    requires 2 <= i <= at <= |messages| && InBudget(b, From(messages, i, memory))
    ensures InBudget(b, From(messages, at, memory))
  {
    var rest := messages[at..] + [memory];
    assert From(messages, at, memory) == messages[..2] + rest;
    assert From(messages, i, memory) == messages[..2] + (messages[i..at] + rest);
    EstimateGrows(b, messages[..2], messages[i..at], rest);
  }

  /** What it means that observations fit. */
  lemma RecentFitsIff(b: Budget, messages: Messages, recent: seq<Observation>, shelf: seq<Shown>)
    requires recent != []
    ensures RecentFits(b, messages, recent, shelf) <==>
            (Sum(b.noteSize, recent) + 2 * |recent|) / 2 + 1 <= 1024 && StateFits(b, messages, recent, shelf)
  {
    hide StateFits;
  }

  /** Projection keeps a valid conversation valid: no exchange is split and no reply is orphaned. */
  lemma ProjectionKeepsPairing(messages: Messages, memory: Message, k: nat)
    requires ProtocolValid(messages) && |messages| >= 2
    requires forall i :: 0 <= i < 2 ==> messages[i].System? || messages[i].User?
    requires k <= |Groups(Rest(messages))| && memory.User?
    ensures ProtocolValid(Kept(messages, k) + [memory])
  {
    var groups, pinned := Groups(Rest(messages)), Pinned(messages);
    GroupsPartition(Rest(messages));
    assert messages == pinned + Rest(messages);
    assert Paired(messages[1..], []) && messages[1..][1..] == Rest(messages);
    assert pinned[1..] == [messages[1]] && pinned[1..][1..] == [];
    SuffixIsPaired(Rest(messages), k);
    PairedAppend(pinned, Flatten(groups[k..]), []);
    assert ProtocolValid([memory]);
    PairedAppend(Kept(messages, k), [memory], []);
  }

  lemma SuffixIsPaired(rest: Messages, k: nat)
    requires ProtocolValid(rest) && k <= |Groups(rest)|
    ensures ProtocolValid(Flatten(Groups(rest)[k..]))
  {
    var groups := Groups(rest);
    GroupsPartition(rest);
    assert groups == groups[..k] + groups[k..];
    FlattenAppend(groups[..k], groups[k..]);
    if k < |groups| {
      var tail := Flatten(groups[k..]);
      assert groups[k] != [] && tail == groups[k] + Flatten(groups[k..][1..]);
      assert tail[0] == groups[k][0];
      if k > 0 {
        PairedSplit(Flatten(groups[..k]), tail, []);
      } else {
        assert groups[..k] == [];
      }
    }
  }

  // ---------- de-duplication of references still in the history ----------

  // The id of the last reply that holds an identical complete copy.
  function Holder(b: Budget, history: Messages, e: Entry): (r: Option<string>)
    ensures r.Some? ==> exists m :: m in history && m.Reply? && m.callId == r.value && e in b.copies(m)
    ensures r.None? ==> forall m :: m in history && m.Reply? ==> e !in b.copies(m)
  {
    if history == [] then None else
    var m := history[|history| - 1];
    if m.Reply? && e in b.copies(m) then Some(m.callId) else Holder(b, history[..|history| - 1], e)
  }

  function Deduplicate(b: Budget, shelf: seq<Shown>, history: Messages): (r: seq<Shown>)
    ensures |r| == |shelf|
  {
    seq(|shelf|, i requires 0 <= i < |shelf| => Show(b, shelf[i], history))
  }

  function Show(b: Budget, s: Shown, history: Messages): Shown {
    if s.InHistory? then s else
    var holder := Holder(b, history, s.entry);
    if holder.Some? && b.shorter(s.entry, holder.value)
    then InHistory(s.entry.path, s.entry.digest, holder.value) else s
  }

  /** No reference text is lost: what the state message drops is still in a retained reply. */
  lemma DeduplicationLosesNoText(b: Budget, shelf: seq<Shown>, history: Messages, i: nat)
    requires i < |shelf| && shelf[i].Full?
    ensures var shown := Deduplicate(b, shelf, history)[i];
            || shown == shelf[i]
            || (&& shown.InHistory? && shown.path == shelf[i].entry.path && shown.digest == shelf[i].entry.digest
                && exists m :: m in history && m.Reply? && m.callId == shown.callId && shelf[i].entry in b.copies(m))
  {
  }

  lemma {:induction false} HolderIsLast(b: Budget, history: Messages, e: Entry, k: nat)
    requires k < |history| && history[k].Reply? && e in b.copies(history[k])
    requires forall i :: k < i < |history| && history[i].Reply? ==> e !in b.copies(history[i])
    ensures Holder(b, history, e) == Some(history[k].callId)
    decreases |history|
  {
    if k < |history| - 1 {
      HolderIsLast(b, history[..|history| - 1], e, k);
    }
  }

  /** A reference is replaced exactly when naming the last reply that holds it is shorter. */
  lemma DeduplicationIsExact(b: Budget, shelf: seq<Shown>, history: Messages, i: nat, k: nat)
    requires i < |shelf| && shelf[i].Full? && k <= |history|
    requires k < |history| ==> history[k].Reply? && shelf[i].entry in b.copies(history[k])
    requires forall n :: 0 <= n < |history| && (k < n || k == |history|) && history[n].Reply? ==>
               shelf[i].entry !in b.copies(history[n])
    ensures var shown, e := Deduplicate(b, shelf, history)[i], shelf[i].entry;
            if k < |history| && b.shorter(e, history[k].callId) then
              shown == InHistory(e.path, e.digest, history[k].callId)
            else shown == shelf[i]
  {
    if k < |history| {
      HolderIsLast(b, history, shelf[i].entry, k);
    }
  }

  function Separators(items: nat): nat {
    if items == 0 then 0 else 2 * (items - 1)
  }

  // The state message is as long as its parts; an entry counts as the second encoding makes it.
  ghost predicate Additive(b: Budget, cost: Shown -> nat) {
    forall recent, shelf: seq<Shown> ::
      b.size(b.memory(recent, shelf)) == b.size(b.memory(recent, [])) + Sum(cost, shelf) + Separators(|shelf|)
  }

  // How many bytes a request could still grow, or how many it is over.
  function Slack(b: Budget, messages: Messages, reserve: nat): int {
    2 * (b.maxTokens - b.toolTokens - reserve - 1) + 1 - ListBytes(b.size, messages)
  }

  /**
   The de-duplicated request is within the budget exactly when the replacements, as the state
   message encodes them, grow by no more than the request before had to spare.
   */
  lemma DeduplicationFits(b: Budget, cost: Shown -> nat, history: Messages, recent: seq<Observation>,
                          shelf: seq<Shown>, reserve: nat)
    requires Additive(b, cost)
    ensures var request, view := history + [b.memory(recent, shelf)], Deduplicate(b, shelf, history);
            && (Fits(b, request, reserve) <==> Slack(b, request, reserve) >= 0)
            && (Fits(b, history + [b.memory(recent, view)], reserve) <==>
                  Sum(cost, view) <= Sum(cost, shelf) + Slack(b, request, reserve))
  {
    var view := Deduplicate(b, shelf, history);
    SumAppend(b.size, history, [b.memory(recent, shelf)]);
    SumAppend(b.size, history, [b.memory(recent, view)]);
  }

  // ---------- how far de-duplication may overrun ----------

  // Encoded once: `, "content": "..."` against the two fields that name the reply instead.
  const CONTENT_ONCE: nat := 15
  const NAMING_ONCE: nat := 70
  // Encoded twice, every quotation mark takes a second byte.
  const CONTENT_TWICE: nat := 19
  const NAMING_TWICE: nat := 76

  /**
   The costs of references whose texts and ids need no escaping and one byte a character:
   `once` and `twice` are the sizes of the fields that are shown either way.  The choice is
   made on entries encoded once, but the state message encodes them twice.
   */
  ghost predicate PlainCosts(b: Budget, cost: Shown -> nat,
                             once: (string, string) -> nat, twice: (string, string) -> nat)
  {
    && (forall e: Entry :: cost(Full(e)) == twice(e.path, e.digest) + CONTENT_TWICE + |e.text|)
    && (forall p, d, id :: cost(InHistory(p, d, id)) == twice(p, d) + NAMING_TWICE + |id|)
    && (forall e: Entry, id :: b.shorter(e, id) <==>
          Tokens(once(e.path, e.digest) + NAMING_ONCE + |id|)
          < Tokens(once(e.path, e.digest) + CONTENT_ONCE + |e.text|))
  }

  /** A replacement chosen as shorter is longer in the message for exactly one length of text. */
  lemma ReplacementGrows(b: Budget, cost: Shown -> nat, once: (string, string) -> nat, twice: (string, string) -> nat,
                         e: Entry, id: string)
    requires PlainCosts(b, cost, once, twice) && b.shorter(e, id)
    ensures cost(InHistory(e.path, e.digest, id)) > cost(Full(e)) <==> |e.text| == |id| + 56
    ensures cost(InHistory(e.path, e.digest, id)) <= cost(Full(e)) + 1
  {
  }

  lemma {:induction false} CostGrowsByOne(cost: Shown -> nat, view: seq<Shown>, shelf: seq<Shown>)
    requires |view| == |shelf| && forall i :: 0 <= i < |shelf| ==> cost(view[i]) <= cost(shelf[i]) + 1
    ensures Sum(cost, view) <= Sum(cost, shelf) + |shelf|
  {
    if shelf != [] {
      CostGrowsByOne(cost, view[1..], shelf[1..]);
    }
  }

  /** With plain references, de-duplication overruns the budget by at most half a token each. */
  lemma OverrunIsSmall(b: Budget, cost: Shown -> nat, once: (string, string) -> nat, twice: (string, string) -> nat,
                       history: Messages, recent: seq<Observation>, shelf: seq<Shown>, reserve: nat)
    requires PlainCosts(b, cost, once, twice) && Additive(b, cost)
    requires Fits(b, history + [b.memory(recent, shelf)], reserve)
    ensures Estimate(b, history + [b.memory(recent, Deduplicate(b, shelf, history))]) + b.toolTokens + reserve
            <= b.maxTokens + (|shelf| + 1) / 2
  {
    var view := Deduplicate(b, shelf, history);
    forall i | 0 <= i < |shelf| ensures cost(view[i]) <= cost(shelf[i]) + 1 {
      if view[i] != shelf[i] {
        ReplacementGrows(b, cost, once, twice, shelf[i].entry, view[i].callId);
      }
    }
    CostGrowsByOne(cost, view, shelf);
    SumAppend(b.size, history, [b.memory(recent, shelf)]);
    SumAppend(b.size, history, [b.memory(recent, view)]);
  }

  /** The overrun happens: one reference, one reply that names it, and a budget met exactly. */
  lemma OverrunHappens(b: Budget, cost: Shown -> nat, once: (string, string) -> nat, twice: (string, string) -> nat,
                       e: Entry, reply: Message)
    requires PlainCosts(b, cost, once, twice) && Additive(b, cost)
    requires reply.Reply? && e in b.copies(reply) && |e.text| == |reply.callId| + 56 && b.shorter(e, reply.callId)
    requires var full := [reply] + [b.memory([], [Full(e)])];
             ListBytes(b.size, full) % 2 == 1 && Estimate(b, full) + b.toolTokens == b.maxTokens
    ensures Fits(b, [reply] + [b.memory([], [Full(e)])], 0)
    ensures !Fits(b, [reply] + [b.memory([], Deduplicate(b, [Full(e)], [reply]))], 0)
  {
    var view := Deduplicate(b, [Full(e)], [reply]);
    assert view == [InHistory(e.path, e.digest, reply.callId)];
    SumAppend(b.size, [reply], [b.memory([], [Full(e)])]);
    SumAppend(b.size, [reply], [b.memory([], view)]);
    assert view[1..] == [] && [Full(e)][1..] == [];
  }

  // ---------- a request over its budget ----------

  function Blank(n: nat): (text: string)
    ensures |text| == n
  {
    seq(n, _ => ' ')
  }

  // The fields of a reference that are shown either way.
  function Fields(path: string, digest: string): nat {
    |path| + |digest|
  }

  function PlainCost(s: Shown): nat {
    match s
    case Full(e) => Fields(e.path, e.digest) + CONTENT_TWICE + |e.text|
    case InHistory(path, digest, id) => Fields(path, digest) + NAMING_TWICE + |id|
  }

  // Messages count by their text, and a reply holds the reference it returned.
  function PlainBudget(maxTokens: int): Budget {
    Budget(
      (m: Message) => |m.text|, (o: Observation) => |o.path|,
      (recent: seq<Observation>, shelf: seq<Shown>) =>
        User(Blank(|recent| + Sum(PlainCost, shelf) + Separators(|shelf|))),
      (m: Message) => if m.Reply? then {Entry("ref", m.text, "d")} else {},
      (e: Entry, id: string) =>
        Tokens(Fields(e.path, e.digest) + NAMING_ONCE + |id|)
        < Tokens(Fields(e.path, e.digest) + CONTENT_ONCE + |e.text|),
      maxTokens, 0, 0)
  }

  lemma PlainBudgetIsPlain(maxTokens: int)
    ensures Additive(PlainBudget(maxTokens), PlainCost)
    ensures PlainCosts(PlainBudget(maxTokens), PlainCost, Fields, Fields)
  {
    PlainBudgetIsAdditive(maxTokens);
    PlainBudgetHasPlainCosts(maxTokens);
    hide *;
  }

  lemma PlainBudgetHasPlainCosts(maxTokens: int)
    ensures PlainCosts(PlainBudget(maxTokens), PlainCost, Fields, Fields)
  {
    hide Fields, Tokens, Separators, Sum, Additive, Blank;
  }

  lemma PlainBudgetIsAdditive(maxTokens: int)
    ensures Additive(PlainBudget(maxTokens), PlainCost)
  {
    hide Sum, Separators, PlainCost;
    NothingCosts(PlainCost);
    var b := PlainBudget(maxTokens);
    forall recent, shelf: seq<Shown>
      ensures b.size(b.memory(recent, shelf))
              == b.size(b.memory(recent, [])) + Sum(PlainCost, shelf) + Separators(|shelf|)
    {
    }
  }

  lemma NothingCosts<T>(cost: T -> nat)
    ensures Sum(cost, []) == 0 && Separators(0) == 0
  {
  }

  lemma TwoMessages(size: Message -> nat, a: Message, c: Message)
    ensures ListBytes(size, [a] + [c]) == size(a) + size(c) + 4
  {
    SumAppend(size, [a], [c]);
    assert [a][1..] == [] && [c][1..] == [];
  }

  /** One: a reference of 57 characters, the reply it came in, and room for exactly these two. */
  lemma OverrunInstance()
    ensures var text := Blank(57);
            var reply, full := Reply("c", text), Full(Entry("ref", text, "d"));
            var b := PlainBudget(Estimate(PlainBudget(0), [reply] + [PlainBudget(0).memory([], [full])]));
            && Fits(b, [reply] + [b.memory([], [full])], 0)
            && !Fits(b, [reply] + [b.memory([], Deduplicate(b, [full], [reply]))], 0)
  {
    hide ListBytes, Fits, Deduplicate, Additive, PlainCosts, Sum;
    var text := Blank(57);
    var reply, e := Reply("c", text), Entry("ref", text, "d");
    var request := [reply] + [PlainBudget(0).memory([], [Full(e)])];
    var b := PlainBudget(Estimate(PlainBudget(0), request));
    PlainBudgetIsPlain(b.maxTokens);
    OneCosts(PlainCost, Full(e));
    TwoMessages(b.size, reply, b.memory([], [Full(e)]));
    TwoMessages(PlainBudget(0).size, reply, b.memory([], [Full(e)]));
    OverrunHappens(b, PlainCost, Fields, Fields, e, reply);
  }

  lemma OneCosts(cost: Shown -> nat, s: Shown)
    ensures Sum(cost, [s]) == cost(s)
  {
    assert [s][1..] == [];
  }
}
