/**
 Bounded text windows over sandbox files, and the automatic completion of a reference that
 does not fit one window.
 */
module TextWindows {
  import opened Wrappers

  // Absolute and normalised: the sequence of its parts.
  type Path = seq<string>

  datatype Window = Window(
    content: string, offset: nat, limit: nat, total: nat, returned: nat,
    eof: bool, complete: bool, truncated: bool, nextOffset: Option<nat>)

  const DEFAULT_LIMIT: nat := 30000

  function Slice(text: string, offset: nat, limit: nat): (s: string)
    ensures |s| == if offset >= |text| then 0 else if offset + limit <= |text| then limit else |text| - offset
    ensures forall k :: 0 <= k < |s| ==> s[k] == text[offset + k]
  {
    if offset >= |text| then [] else if offset + limit <= |text| then text[offset..offset + limit] else text[offset..]
  }

  /** The window a read of `text` at an offset and a limit returns. */
  function TextWindow(text: string, offset: nat, limit: nat): Window {
    var content := Slice(text, offset, limit);
    var end := offset + |content|;
    var eof := end >= |text|;
    Window(content, offset, limit, |text|, |content|, eof, offset == 0 && eof, !eof,
           if eof then None else Some(end))
  }

  // The single window that holds a whole file assembled from several reads.
  function WholeWindow(text: string): Window {
    Window(text, 0, |text|, |text|, |text|, true, true, false, None)
  }

  /** Consecutive windows tile the text: following `nextOffset` loses and repeats nothing. */
  lemma WindowsTile(text: string, offset: nat, limit: nat)
    requires offset <= |text|
    ensures var w := TextWindow(text, offset, limit);
            && w.offset == offset && w.limit == limit && w.total == |text| && w.returned == |w.content|
            && (w.eof <==> offset + w.returned == |text|) && w.truncated == !w.eof
            && (w.complete <==> w.content == text) && w.nextOffset.None? == w.eof
            && text[..offset] + w.content == text[..offset + w.returned]
            && (w.nextOffset.None? <==> text[..offset] + w.content == text)
            && (w.nextOffset.Some? ==> w.nextOffset.value == offset + w.returned && w.returned == limit)
  {
  }

  datatype ReadError = ReferenceChanged

  /**
   The paging loop over a file that may be rewritten between reads: `file(k)` is its text at
   read number `k`.  It ends, and when the text stays the same it returns the whole of it.
   */
  method CompleteReference(file: nat -> string, first: Window, ghost limit: nat)
    returns (r: Result<Window, ReadError>, count: nat)
    requires limit >= 1 && first == TextWindow(file(0), 0, limit) && !first.eof
    ensures (forall k: nat :: file(k) == file(0)) ==> r == Ok(WholeWindow(file(0)))
    ensures r.Ok? ==> r.value.complete && r.value.total == |file(0)| && |r.value.content| == |file(0)|
    ensures r.Ok? ==> first.content <= r.value.content && |file(count)| == |file(0)|
    ensures r.Err? ==> exists k: nat :: file(k) != file(0)
  {
    var content, total := first.content, first.total;
    var tail := first;
    count := 0;
    while |content| < total
      invariant |content| <= total == |file(0)| && first.content <= content
      invariant |file(count)| == |file(0)| && tail.eof == (|content| >= total)
      invariant (forall k: nat :: file(k) == file(0)) ==> content == file(0)[..|content|]
      decreases total - |content|
    {
      count := count + 1;
      var window := if DEFAULT_LIMIT < total - |content| then DEFAULT_LIMIT else total - |content|;
      tail := TextWindow(file(count), |content|, window);
      if tail.total != total || tail.content == [] {
        assert file(count) != file(0);
        return Err(ReferenceChanged), count;
      }
      WindowsTile(file(count), |content|, window);
      content := content + tail.content;
    }
    if !tail.eof || |content| != total {
      return Err(ReferenceChanged), count;
    }
    assert file(0)[..|file(0)|] == file(0);
    r := Ok(Window(content, 0, total, total, total, true, true, false, None));
  }
}
