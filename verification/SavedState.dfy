/**
 The execution state as a checkpoint carries it: sets become sorted lists, number keys become
 strings, and the observation caches are left behind.
 */
module SavedState {
  import opened AgentState
  import opened Decimals
  import opened Sorting
  import opened Wrappers

  // A dictionary's entries, in their order.
  datatype Note = Note(skill: nat, text: string)

  datatype Keyed = Keyed(key: string, text: string)

  // What is saved of the live state; the evidence notes are keyed by skill number.
  datatype Live = Live(state: State, evidence: seq<Note>)

  datatype Json = Json(fields: State, loaded: seq<nat>, completed: seq<nat>, evidence: seq<Keyed>)

  function Digit(c: char): Option<nat> {
    if '0' <= c <= '9' then Some(c as nat - '0' as nat) else None
  }

  function Number(s: string): Option<nat> {
    if s == "" then None
    else if Digit(s[|s| - 1]).None? then None
    else if |s| == 1 then Digit(s[0])
    else
      var front := Number(s[..|s| - 1]);
      if front.None? then None else Some(10 * front.value + Digit(s[|s| - 1]).value)
  }

  lemma DigitOf(d: nat)
    requires d < 10
    ensures Digit(DIGITS[d]) == Some(d)
  {
    assert DIGITS[0] == '0' && DIGITS[1] == '1' && DIGITS[2] == '2' && DIGITS[3] == '3' && DIGITS[4] == '4';
    assert DIGITS[5] == '5' && DIGITS[6] == '6' && DIGITS[7] == '7' && DIGITS[8] == '8' && DIGITS[9] == '9';
  }

  lemma {:induction false} NumberOfDecimal(n: nat)
    ensures Number(Decimal(n)) == Some(n)
  {
    DigitOf(n % 10);
    var s := Decimal(n);
    assert s[|s| - 1] == DIGITS[n % 10];
    if n >= 10 {
      NumberOfDecimal(n / 10);
      assert s[..|s| - 1] == Decimal(n / 10);
    }
  }

  function Listed(items: seq<nat>): set<int> {
    set i | i in items :: i
  }

  // Reading a saved state back; nothing when a key is not a number.
  function Restore(json: Json): Option<Live> {
    if exists i :: 0 <= i < |json.evidence| && Number(json.evidence[i].key).None? then None
    else Some(Live(
      json.fields.(loaded := Listed(json.loaded), completed := Listed(json.completed)),
      seq(|json.evidence|, i requires 0 <= i < |json.evidence| && Number(json.evidence[i].key).Some? =>
        Note(Number(json.evidence[i].key).value, json.evidence[i].text))))
  }

  method SortedList(items: set<int>) returns (r: seq<nat>)
    requires forall i :: i in items ==> i >= 0
    ensures Ascending(r) && Listed(r) == items
  {
    r := InOrder(set i: nat | i in items);
    forall i ensures i in Listed(r) <==> i in items {
      if i in items {
        var n: nat := i;
        assert n in r;
      }
    }
  }

  /** Saving and restoring gives back the same state, skill numbers and notes included. */
  method Save(live: Live) returns (json: Json)
    requires forall i :: i in live.state.loaded || i in live.state.completed ==> i >= 0
    ensures Ascending(json.loaded) && Ascending(json.completed)
    ensures Restore(json) == Some(live)
  {
    var loaded := SortedList(live.state.loaded);
    var completed := SortedList(live.state.completed);
    var keyed := seq(|live.evidence|, i requires 0 <= i < |live.evidence| =>
                       Keyed(Decimal(live.evidence[i].skill), live.evidence[i].text));
    json := Json(live.state.(loaded := {}, completed := {}), loaded, completed, keyed);
    forall i | 0 <= i < |keyed| ensures Number(keyed[i].key) == Some(live.evidence[i].skill) {
      NumberOfDecimal(live.evidence[i].skill);
    }
    assert Restore(json).value.evidence == live.evidence;
  }
}
