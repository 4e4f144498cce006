/** Model conversations, and the pairing of native tool calls with their replies. */
module History {

  // An assistant message carries the ids of the native calls it makes.
  datatype Message =
    | System(text: string)
    | User(text: string)
    | Assistant(calls: seq<string>, text: string)
    | Reply(callId: string, text: string)

  type Messages = seq<Message>

  /**
   Every native call is answered exactly once, in order, before anything else is said;
   `pending` are the calls still to be answered when the messages begin.
   */
  predicate Paired(messages: Messages, pending: seq<string>) {
    if messages == [] then pending == []
    else match messages[0]
      case Reply(id, _) => pending != [] && pending[0] == id && Paired(messages[1..], pending[1..])
      case Assistant(calls, _) => pending == [] && Paired(messages[1..], calls)
      case _ => pending == [] && Paired(messages[1..], [])
  }

  predicate ProtocolValid(messages: Messages) {
    Paired(messages, [])
  }

  lemma {:induction false} PairedAppend(a: Messages, b: Messages, pending: seq<string>)
    requires Paired(a, pending) && ProtocolValid(b)
    ensures Paired(a + b, pending)
  {
    if a == [] {
      assert a + b == b;
    } else {
      assert (a + b)[1..] == a[1..] + b;
      match a[0]
      case Reply(_, _) => PairedAppend(a[1..], b, pending[1..]);
      case Assistant(calls, _) => PairedAppend(a[1..], b, calls);
      case _ => PairedAppend(a[1..], b, []);
    }
  }

  /** A valid conversation may be cut just before any message that is not a reply. */
  lemma {:induction false} PairedSplit(a: Messages, b: Messages, pending: seq<string>)
    requires Paired(a + b, pending) && (b == [] || !b[0].Reply?)
    ensures Paired(a, pending) && ProtocolValid(b)
  {
    if a == [] {
      assert a + b == b;
    } else {
      assert (a + b)[1..] == a[1..] + b;
      match a[0]
      case Reply(_, _) => PairedSplit(a[1..], b, pending[1..]);
      case Assistant(calls, _) => PairedSplit(a[1..], b, calls);
      case _ => PairedSplit(a[1..], b, []);
    }
  }
}
