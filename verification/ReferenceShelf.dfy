/** The shelf of pinned references: a least-recently-used cache with a count and a size bound. */
module ReferenceShelf {
  import opened Encoding
  import opened TextWindows
  import opened Wrappers

  datatype Entry = Entry(path: Path, text: string)

  // Oldest entry first.
  type Shelf = seq<Entry>

  const ENTRY_CAP: nat := 20 * 1024
  const SHELF_CAP: nat := 60 * 1024
  const MAX_ENTRIES: nat := 15

  function TotalBytes(shelf: Shelf): nat {
    if shelf == [] then 0 else ByteLength(shelf[0].text) + TotalBytes(shelf[1..])
  }

  predicate Holds(shelf: Shelf, path: Path) {
    exists i :: 0 <= i < |shelf| && shelf[i].path == path
  }

  function Without(shelf: Shelf, path: Path): (r: Shelf)
    ensures forall e :: e in r <==> e in shelf && e.path != path
    ensures |r| <= |shelf|
    ensures Distinct(shelf) ==> Distinct(r)
  {
    if shelf == [] then []
    else if shelf[0].path == path then Without(shelf[1..], path)
    else [shelf[0]] + Without(shelf[1..], path)
  }

  predicate Distinct(shelf: Shelf) {
    forall i, j :: 0 <= i < j < |shelf| ==> shelf[i].path != shelf[j].path
  }

  ghost predicate Valid(shelf: Shelf) {
    && Distinct(shelf)
    && |shelf| <= MAX_ENTRIES && TotalBytes(shelf) <= SHELF_CAP
    && forall e :: e in shelf ==> ByteLength(e.text) <= ENTRY_CAP
  }

  lemma {:induction false} TotalOfAppend(shelf: Shelf, e: Entry)
    ensures TotalBytes(shelf + [e]) == TotalBytes(shelf) + ByteLength(e.text)
  {
    if shelf == [] {
      assert shelf + [e] == [e] && [e][1..] == [];
    } else {
      assert (shelf + [e])[1..] == shelf[1..] + [e];
      TotalOfAppend(shelf[1..], e);
    }
  }

  lemma {:induction false} TotalOfWithout(shelf: Shelf, path: Path)
    ensures TotalBytes(Without(shelf, path)) <= TotalBytes(shelf)
    ensures forall e :: e in shelf && e.path == path ==>
              TotalBytes(Without(shelf, path)) + ByteLength(e.text) <= TotalBytes(shelf)
    ensures Holds(shelf, path) ==> |Without(shelf, path)| < |shelf|
  {
    if shelf != [] {
      TotalOfWithout(shelf[1..], path);
      if shelf[0].path != path {
        assert ([shelf[0]] + Without(shelf[1..], path))[1..] == Without(shelf[1..], path);
        if Holds(shelf, path) {
          var i :| 0 <= i < |shelf| && shelf[i].path == path;
          assert shelf[1..][i - 1].path == path;
        }
      }
    }
  }

  predicate Over(shelf: Shelf) {
    |shelf| > MAX_ENTRIES || TotalBytes(shelf) > SHELF_CAP
  }

  // Evicting from the old end, but never the entry of `path`.
  function Evict(shelf: Shelf, path: Path): Shelf {
    if !Over(shelf) || shelf == [] || shelf[0].path == path then shelf else Evict(shelf[1..], path)
  }

  function Put(shelf: Shelf, path: Path, text: string): Shelf {
    Evict(Without(shelf, path) + [Entry(path, text)], path)
  }

  /** Pinning a file: the loop that keeps the shelf within its bounds. */
  method PutShelf(shelf: Shelf, path: Path, text: string) returns (r: Shelf)
    ensures r == Put(shelf, path, text)
  {
    r := Without(shelf, path) + [Entry(path, text)];
    while Over(r)
      invariant |r| > 0 && Evict(r, path) == Put(shelf, path, text)
      decreases |r|
    {
      if r[0].path == path {
        break;
      }
      if |r| == 1 {
        EvictKeepsNewest(Without(shelf, path), path, text);
        assert false;
      }
      r := r[1..];
    }
  }

  // Every suffix that eviction passes through still ends with the pinned entry.
  lemma {:induction false} EvictKeepsNewest(before: Shelf, path: Path, text: string)
    ensures var r := Evict(before + [Entry(path, text)], path); |r| > 0 && r[|r| - 1] == Entry(path, text)
    decreases |before|
  {
    if before != [] {
      assert (before + [Entry(path, text)])[1..] == before[1..] + [Entry(path, text)];
      EvictKeepsNewest(before[1..], path, text);
    }
  }

  lemma {:induction false} EvictFits(before: Shelf, path: Path, text: string)
    requires ByteLength(text) <= ENTRY_CAP
    requires forall e :: e in before ==> e.path != path
    ensures !Over(Evict(before + [Entry(path, text)], path))
    ensures exists n :: 0 <= n <= |before|
                        && Evict(before + [Entry(path, text)], path) == before[n..] + [Entry(path, text)]
    decreases |before|
  {
    var whole := before + [Entry(path, text)];
    if !Over(whole) {
      assert Evict(whole, path) == before[0..] + [Entry(path, text)];
    } else if before == [] {
      TotalOfAppend([], Entry(path, text));
    } else {
      assert whole[1..] == before[1..] + [Entry(path, text)];
      EvictFits(before[1..], path, text);
      var n :| 0 <= n <= |before[1..]| && Evict(whole[1..], path) == before[1..][n..] + [Entry(path, text)];
      assert before[1..][n..] == before[n + 1..];
    }
  }

  // The latest entries that fit before the pinned one.
  ghost predicate Latest(before: Shelf, e: Entry, r: Shelf, n: nat) {
    && n <= |before| && r == before[n..] + [e]
    && (n > 0 ==> |r| + 1 > MAX_ENTRIES || TotalBytes([before[n - 1]] + r) > SHELF_CAP)
  }

  /** Eviction starts at the old end and stops as soon as the bounds hold. */
  lemma {:induction false} EvictsOldestOnly(before: Shelf, e: Entry) returns (n: nat)
    requires ByteLength(e.text) <= ENTRY_CAP && forall x :: x in before ==> x.path != e.path
    ensures Latest(before, e, Evict(before + [e], e.path), n)
    decreases |before|
  {
    hide ByteLength;
    var all := before + [e];
    assert before == [] ==> all == [e] && [e][1..] == [] && TotalBytes([e]) == ByteLength(e.text);
    n := 0;
    if Over(all) {
      assert all[1..] == before[1..] + [e];
      n := EvictsOldestOnly(before[1..], e);
      hide Evict;
      assert before[1..][n..] == before[n + 1..];
      if n == 0 {
        assert all == [before[0]] + (before[1..] + [e]);
      }
      n := n + 1;
    }
  }

  lemma {:induction false} WithoutIsTheRest(a: Shelf, e: Entry, b: Shelf)
    requires forall x :: x in a + b ==> x.path != e.path
    ensures Without(a + [e] + b, e.path) == a + b
    decreases |a|
  {
    hide Distinct;
    if a == [] {
      assert ([e] + b)[1..] == b && [] + [e] + b == [e] + b;
      WithoutNothing(b, e.path);
    } else {
      assert (a + [e] + b)[1..] == a[1..] + [e] + b;
      WithoutIsTheRest(a[1..], e, b);
    }
  }

  lemma {:induction false} WithoutNothing(shelf: Shelf, path: Path)
    requires forall e :: e in shelf ==> e.path != path
    ensures Without(shelf, path) == shelf
  {
    hide Distinct;
    if shelf != [] {
      WithoutNothing(shelf[1..], path);
    }
  }

  /** After a pin the shelf is within its bounds, holds the newest entry, and no other text is new. */
  lemma PutIsBounded(shelf: Shelf, path: Path, text: string)
    requires Valid(shelf) && ByteLength(text) <= ENTRY_CAP
    ensures var r := Put(shelf, path, text);
            && Valid(r)
            && |r| > 0 && r[|r| - 1] == Entry(path, text)
            && (forall e :: e in r ==> e == Entry(path, text) || (e in shelf && e.path != path))
            && exists n: nat :: Latest(Without(shelf, path), Entry(path, text), r, n)
  {
    var before := Without(shelf, path);
    var n := EvictsOldestOnly(before, Entry(path, text));
    EvictFits(before, path, text);
    EvictKeepsNewest(before, path, text);
  }

  // A read of a whole small file is pinned; without a measured end, a full window may be cut short.
  predicate Pinnable(text: string, offset: nat, limit: nat, eof: Option<bool>) {
    offset == 0 && ByteLength(text) <= ENTRY_CAP && (if eof.None? then |text| < limit else eof.value)
  }

  function Lookup(shelf: Shelf, path: Path): Option<string> {
    if shelf == [] then None
    else if shelf[0].path == path then Some(shelf[0].text)
    else Lookup(shelf[1..], path)
  }

  // A hit moves its entry to the fresh end.
  function Touch(shelf: Shelf, path: Path): Shelf {
    match Lookup(shelf, path)
    case None => shelf
    case Some(text) => Without(shelf, path) + [Entry(path, text)]
  }

  lemma {:induction false} LookupIsEntry(shelf: Shelf, path: Path)
    ensures match Lookup(shelf, path)
            case Some(text) => Entry(path, text) in shelf
            case None => !Holds(shelf, path)
  {
    if shelf != [] {
      LookupIsEntry(shelf[1..], path);
    }
  }

  /** A hit changes only the recency order. */
  lemma TouchKeepsShelf(shelf: Shelf, path: Path)
    requires Valid(shelf)
    ensures Valid(Touch(shelf, path))
    ensures forall e :: e in Touch(shelf, path) <==> e in shelf
  {
    LookupIsEntry(shelf, path);
    if Lookup(shelf, path).Some? {
      var text := Lookup(shelf, path).value;
      TotalOfWithout(shelf, path);
      TotalOfAppend(Without(shelf, path), Entry(path, text));
      assert Holds(shelf, path);
      forall e ensures e in Touch(shelf, path) <==> e in shelf {
        if e in shelf && e.path == path {
          DistinctEntries(shelf, e, Entry(path, text));
        }
      }
    }
  }

  /** The entry that was hit moves to the newest place, and the others keep their order. */
  lemma TouchMovesToEnd(a: Shelf, e: Entry, b: Shelf)
    requires Distinct(a + [e] + b)
    ensures Touch(a + [e] + b, e.path) == a + b + [e]
  {
    var shelf := a + [e] + b;
    assert shelf[|a|] == e;
    LookupIsEntry(shelf, e.path);
    DistinctEntries(shelf, e, Entry(e.path, Lookup(shelf, e.path).value));
    forall x | x in a + b ensures x.path != e.path {
      var i :| 0 <= i < |a + b| && (a + b)[i] == x;
      assert shelf[if i < |a| then i else i + 1] == x;
    }
    hide Distinct, Lookup;
    WithoutIsTheRest(a, e, b);
  }

  lemma DistinctEntries(shelf: Shelf, a: Entry, b: Entry)
    requires Distinct(shelf) && a in shelf && b in shelf && a.path == b.path
    ensures a == b
  {
  }

  // ---------- whole runs ----------

  datatype Op = Pin(path: Path, text: string, offset: nat, limit: nat, eof: Option<bool>) | Hit(path: Path)

  function Step(shelf: Shelf, op: Op): Shelf {
    match op
    case Pin(path, text, offset, limit, eof) =>
      if Pinnable(text, offset, limit, eof) then Put(shelf, path, text) else shelf
    case Hit(path) => Touch(shelf, path)
  }

  function Run(ops: seq<Op>): Shelf {
    if ops == [] then [] else Step(Run(ops[..|ops| - 1]), ops[|ops| - 1])
  }

  // The text most recently pinned for a path.
  function LastPinned(ops: seq<Op>, path: Path): Option<string> {
    if ops == [] then None else
    var op := ops[|ops| - 1];
    if op.Pin? && op.path == path && Pinnable(op.text, op.offset, op.limit, op.eof) then Some(op.text)
    else LastPinned(ops[..|ops| - 1], path)
  }

  /** After any sequence of pins and hits the shelf is bounded and holds only last-pinned texts. */
  lemma {:induction false} RunIsBounded(ops: seq<Op>)
    ensures Valid(Run(ops))
    ensures forall e :: e in Run(ops) ==> LastPinned(ops, e.path) == Some(e.text)
    decreases |ops|
  {
    if ops != [] {
      var before, op := Run(ops[..|ops| - 1]), ops[|ops| - 1];
      RunIsBounded(ops[..|ops| - 1]);
      match op
      case Pin(path, text, offset, limit, eof) =>
        if Pinnable(text, offset, limit, eof) {
          PutIsBounded(before, path, text);
        }
      case Hit(path) => TouchKeepsShelf(before, path);
    }
  }

  lemma SameEntriesSameLookup(shelf: Shelf, other: Shelf, path: Path)
    requires Distinct(shelf) && Distinct(other) && forall e :: e in shelf <==> e in other
    ensures Lookup(shelf, path) == Lookup(other, path)
  {
    hide Distinct;
    LookupIsEntry(shelf, path);
    LookupIsEntry(other, path);
    match (Lookup(shelf, path), Lookup(other, path))
    case (Some(text), Some(found)) => DistinctEntries(shelf, Entry(path, text), Entry(path, found));
    case _ =>
  }

  lemma HitKeepsTexts(shelf: Shelf, hit: Path, path: Path)
    requires Valid(shelf)
    ensures Lookup(Touch(shelf, hit), path) == Lookup(shelf, path)
  {
    TouchKeepsShelf(shelf, hit);
    hide Touch, Lookup, Distinct;
    SameEntriesSameLookup(Touch(shelf, hit), shelf, path);
  }

  // Hits serve what was there, in whatever number and order.
  lemma {:induction false} HitsKeepTexts(ops: seq<Op>, hits: seq<Op>, path: Path)
    requires forall op :: op in hits ==> op.Hit?
    ensures Lookup(Run(ops + hits), path) == Lookup(Run(ops), path)
    decreases |hits|
  {
    hide Lookup, Touch, Valid;
    if hits == [] {
      assert ops + hits == ops;
    } else {
      var before := hits[..|hits| - 1];
      assert (ops + hits)[..|ops + hits| - 1] == ops + before;
      HitsKeepTexts(ops, before, path);
      RunIsBounded(ops + before);
      var last := hits[|hits| - 1];
      assert last in hits && (ops + hits)[|ops + hits| - 1] == last;
      HitKeepsTexts(Run(ops + before), last.path, path);
    }
  }

  /**
   Paging through hits.  Whatever the run, and whatever is hit in between, a hit returns the
   window of the text last pinned for its path, and following the next offsets rebuilds it.
   */
  lemma HitIsWindowOfPin(ops: seq<Op>, hits: seq<Op>, path: Path, offset: nat, limit: nat)
    requires Lookup(Run(ops), path).Some? && forall op :: op in hits ==> op.Hit?
    ensures LastPinned(ops, path).Some? && Lookup(Run(ops + hits), path) == LastPinned(ops, path)
    ensures var text := LastPinned(ops, path).value;
            var w := TextWindow(Lookup(Run(ops + hits), path).value, offset, limit);
            && w == TextWindow(text, offset, limit)
            && (offset <= |text| ==>
                  && text[..offset] + w.content == text[..offset + w.returned]
                  && (w.nextOffset.None? <==> text[..offset] + w.content == text))
  {
    RunIsBounded(ops);
    LookupIsEntry(Run(ops), path);
    HitsKeepTexts(ops, hits, path);
    var text := LastPinned(ops, path).value;
    if offset <= |text| {
      WindowsTile(text, offset, limit);
    }
  }

  /** A pin is always found right after it was made. */
  lemma PinIsFound(ops: seq<Op>, path: Path, text: string, limit: nat, eof: Option<bool>)
    requires Pinnable(text, 0, limit, eof)
    ensures Lookup(Run(ops + [Pin(path, text, 0, limit, eof)]), path) == Some(text)
  {
    var more := ops + [Pin(path, text, 0, limit, eof)];
    RunIsBounded(ops);
    RunIsBounded(more);
    assert more[..|more| - 1] == ops;
    PutIsBounded(Run(ops), path, text);
    LookupIsEntry(Run(more), path);
    assert Entry(path, text) in Run(more);
    assert Holds(Run(more), path);
  }

  /** Any pinned file fits one default window, so a shelf hit and a first read return the same text. */
  lemma PinnedFitsDefaultWindow(ops: seq<Op>, path: Path)
    requires Lookup(Run(ops), path).Some?
    ensures TextWindow(Lookup(Run(ops), path).value, 0, DEFAULT_LIMIT).content == Lookup(Run(ops), path).value
    ensures TextWindow(Lookup(Run(ops), path).value, 0, DEFAULT_LIMIT).complete
  {
    RunIsBounded(ops);
    LookupIsEntry(Run(ops), path);
  }
}
