/**
 What is remembered of the files: two caches of observations and the shelf of pinned
 references.  "Is relative to" is the prefix order of paths.

 `Record` runs the recorded tools against a file system.  A read is served from memory only as
 long as every tool spares what it leaves remembered; the theorems say exactly when that is.
 */
module ObservationCache {
  import opened Encoding
  import opened TextWindows
  import opened Wrappers
  import Shelf = ReferenceShelf

  type Files = map<Path, string>

  // How the platform completes a read: task files are read window by window, references in
  // full when no window was asked for, and required references always in full.
  datatype Kind = Ordinary | Reference | Required

  // Only the arguments that identify an observation.
  datatype Observation =
    | ReadFile(path: Path, offset: Option<nat>, limit: Option<nat>)
    | ListFiles(path: Path)

  // A window, or a result too large to keep inline whose text went to a file.
  datatype Payload = Text(window: Window, bytes: nat) | Opaque(bytes: nat)

  datatype Key = ReadKey(path: Path, offset: nat, limit: nat, whole: bool) | ListKey(path: Path)

  datatype Entry = Entry(key: Key, payload: Payload)

  // Least recently stored first.
  type Cache = seq<Entry>

  const MAX_ENTRIES: nat := 32
  const MAX_BYTES: nat := 1048576
  const REFERENCE_LIMIT: nat := 60000
  const REQUIRED_LIMIT: nat := 200000

  function OrElse(value: Option<nat>, default: nat): nat {
    if value.Some? && value.value != 0 then value.value else default
  }

  function KeyOf(o: Observation): Key {
    match o
    case ListFiles(path) => ListKey(path)
    case ReadFile(path, offset, limit) =>
      ReadKey(path, OrElse(offset, 0), OrElse(limit, DEFAULT_LIMIT), offset.None? && limit.None?)
  }

  /** What reading the file now would return; nothing when the read does not succeed. */
  function FreshRead(files: Files, kind: Kind, key: Key): Option<Window>
    requires key.ReadKey?
  {
    if key.path !in files then None else
    var text := files[key.path];
    if kind == Required then
      if |text| <= DEFAULT_LIMIT then Some(TextWindow(text, 0, DEFAULT_LIMIT))
      else if |text| <= REQUIRED_LIMIT then Some(WholeWindow(text))
      else None
    else
      var first := TextWindow(text, key.offset, key.limit);
      if kind == Reference && key.whole && !first.eof && |text| <= REFERENCE_LIMIT
      then Some(WholeWindow(text)) else Some(first)
  }

  // ---------- the cache ----------

  function Find(cache: Cache, key: Key): Option<Payload> {
    if cache == [] then None
    else if cache[0].key == key then Some(cache[0].payload)
    else Find(cache[1..], key)
  }

  function Remove(cache: Cache, key: Key): (r: Cache)
    ensures forall e :: e in r <==> e in cache && e.key != key
  {
    if cache == [] then []
    else if cache[0].key == key then Remove(cache[1..], key)
    else [cache[0]] + Remove(cache[1..], key)
  }

  function TotalBytes(cache: Cache): nat {
    if cache == [] then 0 else cache[0].payload.bytes + TotalBytes(cache[1..])
  }

  predicate Over(cache: Cache) {
    |cache| > MAX_ENTRIES || TotalBytes(cache) > MAX_BYTES
  }

  function Trim(cache: Cache): (r: Cache)
    ensures !Over(r)
    ensures forall e :: e in r ==> e in cache
    ensures |r| <= |cache| && r == cache[|cache| - |r|..]
    ensures |r| < |cache| ==> Over(cache[|cache| - |r| - 1..])
  {
    if Over(cache) then
      assert cache != [];
      Trim(cache[1..])
    else cache
  }

  /** Remembering a successful observation, unless it is too large to keep. */
  function Note(cache: Cache, o: Observation, payload: Payload): Cache {
    if payload.bytes > MAX_BYTES then cache
    else Trim(Remove(cache, KeyOf(o)) + [Entry(KeyOf(o), payload)])
  }

  method NoteStable(cache: Cache, o: Observation, payload: Payload) returns (r: Cache)
    ensures r == Note(cache, o, payload)
  {
    if payload.bytes > MAX_BYTES {
      return cache;
    }
    r := Remove(cache, KeyOf(o)) + [Entry(KeyOf(o), payload)];
    while Over(r)
      invariant Trim(r) == Note(cache, o, payload)
      decreases |r|
    {
      r := r[1..];
    }
  }

  lemma NothingIsBounded()
    ensures !Over([]) && ListingsAreOpaque([])
  {
  }

  predicate Doomed(key: Key, target: Path) {
    key.path == target || (key.ListKey? && key.path <= target)
  }

  function Invalidate(cache: Cache, target: Path): (r: Cache)
    ensures forall e :: e in r <==> e in cache && !Doomed(e.key, target)
  {
    if cache == [] then []
    else if Doomed(cache[0].key, target) then Invalidate(cache[1..], target)
    else [cache[0]] + Invalidate(cache[1..], target)
  }

  lemma InvalidateNext(cache: Cache, target: Path, r: Cache, i: nat)
    requires i < |cache|
    ensures var kept := if Doomed(cache[i].key, target) then r else r + [cache[i]];
            kept + Invalidate(cache[i + 1..], target) == r + Invalidate(cache[i..], target)
  {
    assert cache[i..][1..] == cache[i + 1..];
    hide Doomed;
  }

  /** A write to a path drops the observations of that path and of the directories above it. */
  method InvalidatePath(cache: Cache, target: Path) returns (r: Cache)
    ensures r == Invalidate(cache, target)
    ensures forall e :: e in r <==>
              e in cache && e.key.path != target && !(e.key.ListKey? && e.key.path <= target)
  {
    InvalidateKeeps(cache, target);
    hide Invalidate, Doomed;
    r := [];
    assert cache[0..] == cache && cache[|cache|..] == [];
    for i := 0 to |cache|
      invariant r + Invalidate(cache[i..], target) == Invalidate(cache, target)
    {
      InvalidateNext(cache, target, r, i);
      if !Doomed(cache[i].key, target) {
        r := r + [cache[i]];
      }
    }
  }

  lemma InvalidateKeeps(cache: Cache, target: Path)
    ensures Invalidate([], target) == []
    ensures forall e :: e in Invalidate(cache, target) <==>
              e in cache && e.key.path != target && !(e.key.ListKey? && e.key.path <= target)
  {
  }

  // A window measured earlier proves that nothing lies beyond its end.
  predicate ProvesEnd(e: Entry, path: Path, offset: nat) {
    e.key.path == path && e.payload.Text? && offset >= e.payload.window.total
  }

  function PastEnd(w: Window, offset: nat, limit: nat): Window {
    w.(content := [], offset := offset, limit := limit, returned := 0,
       eof := true, complete := offset == 0, truncated := false, nextOffset := None)
  }

  function NewestProof(cache: Cache, path: Path, offset: nat): (r: Option<Entry>)
    ensures r.Some? ==> r.value in cache && ProvesEnd(r.value, path, offset)
    ensures r.None? ==> forall e :: e in cache ==> !ProvesEnd(e, path, offset)
  {
    if cache == [] then None
    else if ProvesEnd(cache[|cache| - 1], path, offset) then Some(cache[|cache| - 1])
    else NewestProof(cache[..|cache| - 1], path, offset)
  }

  function Lookup(cache: Cache, o: Observation, allowEof: bool): Option<Payload> {
    var key := KeyOf(o);
    var hit := Find(cache, key);
    if hit.Some? || !allowEof || !key.ReadKey? then hit else
    var proof := NewestProof(cache, key.path, key.offset);
    if proof.None? then None
    else Some(Text(PastEnd(proof.value.payload.window, key.offset, key.limit), proof.value.payload.bytes))
  }

  method StableCachedObservation(cache: Cache, o: Observation, allowEof: bool) returns (r: Option<Payload>)
    ensures r == Lookup(cache, o, allowEof)
    ensures var held := exists e :: e in cache && e.key == KeyOf(o);
            && (held ==> r.Some? && Entry(KeyOf(o), r.value) in cache)
            && (!held ==>
                  (r.Some? <==> allowEof && o.ReadFile?
                                && exists e :: e in cache && e.key.path == o.path && e.payload.Text?
                                               && KeyOf(o).offset >= e.payload.window.total))
            && (!held && r.Some? ==>
                  && r.value.Text? && r.value.window.content == [] && r.value.window.offset == KeyOf(o).offset
                  && r.value.window.limit == KeyOf(o).limit && r.value.window.returned == 0
                  && r.value.window.eof && !r.value.window.truncated && r.value.window.nextOffset == None
                  && (r.value.window.complete <==> KeyOf(o).offset == 0))
  {
    LookupIsExact(cache, o, allowEof);
    var key := KeyOf(o);
    r := Find(cache, key);
    if r.None? && allowEof && key.ReadKey? {
      var i := |cache|;
      assert cache[..|cache|] == cache;
      while i > 0
        invariant 0 <= i <= |cache|
        invariant NewestProof(cache, key.path, key.offset) == NewestProof(cache[..i], key.path, key.offset)
      {
        i := i - 1;
        assert cache[..i + 1][..i] == cache[..i];
        var e := cache[i];
        if e.key.path == key.path && e.payload.Text? && key.offset >= e.payload.window.total {
          return Some(Text(PastEnd(e.payload.window, key.offset, key.limit), e.payload.bytes));
        }
      }
    }
  }

  lemma {:induction false} FindIsExact(cache: Cache, key: Key)
    ensures match Find(cache, key)
            case Some(payload) => Entry(key, payload) in cache
            case None => forall e :: e in cache ==> e.key != key
  {
    if cache != [] {
      FindIsExact(cache[1..], key);
    }
  }

  /** What the lookup answers: the entry of the very request, else an end measured for its path. */
  lemma LookupIsExact(cache: Cache, o: Observation, allowEof: bool)
    ensures var r, key := Lookup(cache, o, allowEof), KeyOf(o);
            var held := exists e :: e in cache && e.key == key;
            && (held ==> r.Some? && Entry(key, r.value) in cache)
            && (!held ==>
                  (r.Some? <==> allowEof && o.ReadFile?
                                && exists e :: e in cache && e.key.path == o.path && e.payload.Text?
                                               && key.offset >= e.payload.window.total))
            && (!held && r.Some? ==>
                  && r.value.Text? && r.value.window.content == [] && r.value.window.offset == key.offset
                  && r.value.window.limit == key.limit && r.value.window.returned == 0
                  && r.value.window.eof && !r.value.window.truncated && r.value.window.nextOffset == None
                  && (r.value.window.complete <==> key.offset == 0))
  {
    FindIsExact(cache, KeyOf(o));
    if o.ReadFile? && Find(cache, KeyOf(o)).None? {
      var proof := NewestProof(cache, o.path, KeyOf(o).offset);
      if e :| e in cache && e.key.path == o.path && e.payload.Text? && KeyOf(o).offset >= e.payload.window.total {
        assert ProvesEnd(e, o.path, KeyOf(o).offset);
      }
    }
  }

  // The latest entries that fit before the last one.
  ghost predicate Latest(kept: Cache, e: Entry, r: Cache, k: nat) {
    && k <= |kept| && r == kept[k..] + [e]
    && |r| <= MAX_ENTRIES && TotalBytes(r) <= MAX_BYTES
    && (k > 0 ==> |r| + 1 > MAX_ENTRIES || TotalBytes([kept[k - 1]] + r) > MAX_BYTES)
  }

  lemma {:induction false} TrimIsLatest(kept: Cache, e: Entry) returns (k: nat)
    requires e.payload.bytes <= MAX_BYTES
    ensures Latest(kept, e, Trim(kept + [e]), k)
    decreases |kept|
  {
    hide Trim;
    var all := kept + [e];
    assert kept == [] ==> all == [e] && [e][1..] == [];
    TrimStep(all);
    k := 0;
    if Over(all) {
      hide Latest;
      assert all[1..] == kept[1..] + [e];
      k := TrimIsLatest(kept[1..], e);
      LatestGrows(kept, e, Trim(all), k);
      k := k + 1;
    }
  }

  lemma LatestGrows(kept: Cache, e: Entry, r: Cache, k: nat)
    requires kept != [] && Over(kept + [e]) && Latest(kept[1..], e, r, k)
    ensures Latest(kept, e, r, k + 1)
  {
    assert kept[1..][k..] == kept[k + 1..];
    hide TotalBytes;
    if k == 0 {
      assert kept[0..] == kept && kept + [e] == [kept[0]] + r;
    }
  }

  lemma TrimStep(cache: Cache)
    ensures Trim(cache) == if Over(cache) then Trim(cache[1..]) else cache
    ensures |cache| == 1 && cache[0].payload.bytes <= MAX_BYTES ==> !Over(cache)
  {
    assert |cache| == 1 ==> cache[1..] == [];
  }

  /** What remembering leaves: the new entry last, before it the latest others that fit. */
  lemma NoteIsExact(cache: Cache, o: Observation, payload: Payload)
    ensures if payload.bytes > MAX_BYTES then Note(cache, o, payload) == cache else
              exists k: nat :: Latest(Remove(cache, KeyOf(o)), Entry(KeyOf(o), payload), Note(cache, o, payload), k)
  {
    if payload.bytes <= MAX_BYTES {
      hide Latest, Trim;
      var k := TrimIsLatest(Remove(cache, KeyOf(o)), Entry(KeyOf(o), payload));
      assert Latest(Remove(cache, KeyOf(o)), Entry(KeyOf(o), payload), Note(cache, o, payload), k);
    }
  }

  // ---------- what a request asks for ----------

  /**
   A read shows the window that was asked for; asked for nothing in particular it starts at the
   beginning, and a reference is then shown in full.  A required reference always is.
   */
  lemma ReadShowsRequest(files: Files, kind: Kind, path: Path, offset: Option<nat>, limit: Option<nat>)
    requires path in files && (limit.Some? ==> 1 <= limit.value <= DEFAULT_LIMIT)
    ensures var r := FreshRead(files, kind, KeyOf(ReadFile(path, offset, limit)));
            var from, size := if offset.Some? then offset.value else 0, if limit.Some? then limit.value else 30000;
            && (kind == Ordinary || (kind == Reference && (offset.Some? || limit.Some?)) ==>
                  r == Some(TextWindow(files[path], from, size)))
            && (kind == Reference && offset.None? && limit.None? ==>
                  r.Some? && (|files[path]| <= 60000 ==> r.value.content == files[path] && r.value.complete))
            && (kind == Required ==>
                  if |files[path]| <= 200000 then r.Some? && r.value.content == files[path] && r.value.complete
                  else r == None)
  {
  }

  // ---------- agreement with the workspace ----------

  // Every cached window is the one a read would return now.
  ghost predicate Agrees(cache: Cache, files: Files, kinds: Path -> Kind) {
    forall e :: e in cache && e.key.ReadKey? && e.payload.Text? ==>
      FreshRead(files, kinds(e.key.path), e.key) == Some(e.payload.window)
  }

  // A directory listing never carries a text window.
  predicate ListingsAreOpaque(cache: Cache) {
    forall e :: e in cache && e.key.ListKey? ==> e.payload.Opaque?
  }

  lemma {:induction false} FindIsEntry(cache: Cache, key: Key)
    ensures Find(cache, key).Some? ==> Entry(key, Find(cache, key).value) in cache
  {
    if cache != [] {
      FindIsEntry(cache[1..], key);
    }
  }

  // The protocol validates read arguments before the cache is consulted.
  predicate ValidRead(o: Observation) {
    o.ReadFile? && (o.limit.Some? ==> 1 <= o.limit.value <= DEFAULT_LIMIT)
  }

  /** A hit, remembered or deduced from a measured end, has the fields of a fresh read. */
  lemma HitIsFreshRead(cache: Cache, files: Files, kinds: Path -> Kind, o: Observation)
    requires Agrees(cache, files, kinds) && ListingsAreOpaque(cache) && ValidRead(o)
    requires var hit := Lookup(cache, o, kinds(o.path) != Required); hit.Some? && hit.value.Text?
    ensures FreshRead(files, kinds(o.path), KeyOf(o))
            == Some(Lookup(cache, o, kinds(o.path) != Required).value.window)
  {
    var key := KeyOf(o);
    FindIsEntry(cache, key);
    if Find(cache, key).None? {
      var e := NewestProof(cache, key.path, key.offset).value;
      assert e.key.ReadKey?;
      var text := files[key.path];
      assert e.payload.window.total == |text|;
      assert TextWindow(text, key.offset, key.limit) == PastEnd(e.payload.window, key.offset, key.limit);
    }
  }

  // ---------- runs of recorded tools ----------

  /**
   One recorded operation, with the files it leaves behind.  A read is served from memory or from
   the file, and its result may have been moved out of line before it was recorded.  A write
   follows links, so it may reach another path too.  A command that never started changed
   nothing.  A verifier runs a program of the model's choice; a collection copies deliverables into
   place and may bring bytes that were accounted for before; the platform keeps its own files, and
   processes left behind run on.  A reset is a capability upgrade or a resume from a checkpoint.
   */
  datatype Tool =
    | Read(o: Observation, bytes: nat, inline: bool)
    | List(path: Path, bytes: nat)
    | Write(path: Path, after: Files)
    | Command(after: Files, started: bool)
    | Verify(after: Files)
    | Collect(after: Files, changed: bool)
    | Platform(after: Files)
    | Reset(after: Files)

  datatype World = World(
    files: Files, stable: Cache, epoch: nat, recent: map<(nat, Observation), Payload>, shelf: Shelf.Shelf)

  predicate Possible(w: World, t: Tool) {
    match t
    case Read(o, _, _) => ValidRead(o)
    case Command(after, started) => started || after == w.files
    case _ => true
  }

  // A read held by one of the two caches.
  function Cached(w: World, kinds: Path -> Kind, o: Observation): Option<Payload>
    requires o.ReadFile?
  {
    if (w.epoch, o) in w.recent then Some(w.recent[(w.epoch, o)])
    else Lookup(w.stable, o, kinds(o.path) != Required)
  }

  // The text pinned for a path; only references are looked up.
  function Pinned(w: World, kinds: Path -> Kind, path: Path): Option<string> {
    if kinds(path) == Ordinary then None else Shelf.Lookup(w.shelf, path)
  }

  // A required reference is read from its start, whatever window was asked for.
  function WindowOf(text: string, kind: Kind, key: Key): Window
    requires key.ReadKey?
  {
    if kind == Required then TextWindow(text, 0, DEFAULT_LIMIT) else TextWindow(text, key.offset, key.limit)
  }

  // The payload of a read before it is recorded: from the caches, then the shelf, then the file.
  function Served(w: World, kinds: Path -> Kind, o: Observation, bytes: nat): Option<Payload>
    requires o.ReadFile?
  {
    if Cached(w, kinds, o).Some? then Cached(w, kinds, o) else
    var pinned := Pinned(w, kinds, o.path);
    if pinned.Some? then Some(Text(WindowOf(pinned.value, kinds(o.path), KeyOf(o)), bytes)) else
    var window := FreshRead(w.files, kinds(o.path), KeyOf(o));
    if window.Some? then Some(Text(window.value, bytes)) else None
  }

  // A hit refreshes its pin, and a read of a reference from the file may pin it.
  function Shelved(w: World, kinds: Path -> Kind, o: Observation): Shelf.Shelf
    requires o.ReadFile?
  {
    if Cached(w, kinds, o).Some? || kinds(o.path) == Ordinary then w.shelf
    else if Pinned(w, kinds, o.path).Some? then Shelf.Touch(w.shelf, o.path)
    else
      var window := FreshRead(w.files, kinds(o.path), KeyOf(o));
      if window.None? then w.shelf else
      var offset := if kinds(o.path) == Required then 0 else KeyOf(o).offset;
      Shelf.Step(w.shelf, Shelf.Pin(o.path, window.value.content, offset, KeyOf(o).limit, Some(window.value.eof)))
  }

  function RecordRead(w: World, kinds: Path -> Kind, o: Observation, bytes: nat, inline: bool): World
    requires o.ReadFile?
  {
    var served := Served(w, kinds, o, bytes);
    if served.None? then w else
    var first := if Cached(w, kinds, o).Some? then Note(w.stable, o, served.value) else w.stable;
    var payload := if inline then served.value else Opaque(bytes);
    w.(stable := Note(first, o, payload), recent := w.recent[(w.epoch, o) := payload], shelf := Shelved(w, kinds, o))
  }

  function Record(w: World, kinds: Path -> Kind, t: Tool): World
    requires Possible(w, t)
  {
    match t
    case Read(o, bytes, inline) => RecordRead(w, kinds, o, bytes, inline)
    case List(path, bytes) =>
      w.(stable := Note(w.stable, ListFiles(path), Opaque(bytes)),
         recent := w.recent[(w.epoch, ListFiles(path)) := Opaque(bytes)])
    case Write(path, after) =>
      w.(files := after, stable := Invalidate(w.stable, path), epoch := w.epoch + 1, recent := map[])
    case Command(after, started) =>
      if started then w.(files := after, stable := [], epoch := w.epoch + 1, recent := map[]) else w
    case Collect(after, changed) =>
      if changed then w.(files := after, stable := [], epoch := w.epoch + 1, recent := map[]) else w.(files := after)
    case Verify(after) => w.(files := after)
    case Platform(after) => w.(files := after)
    case Reset(after) => w.(files := after, stable := [], recent := map[])
  }

  function FilesAfter(w: World, t: Tool): Files {
    if t.Read? || t.List? then w.files else t.after
  }

  // What holds of every reachable memory, fresh or not.
  ghost predicate Sound(w: World, kinds: Path -> Kind) {
    && ListingsAreOpaque(w.stable) && !Over(w.stable)
    && (forall k :: k in w.recent ==> k.0 == w.epoch && (k.1.ListFiles? ==> w.recent[k].Opaque?))
    && Shelf.Valid(w.shelf) && forall e :: e in w.shelf ==> kinds(e.path) != Ordinary
  }

  // What is remembered of an observation is what it would show now.
  ghost predicate IsFresh(files: Files, kinds: Path -> Kind, o: Observation, payload: Payload) {
    o.ReadFile? && payload.Text? ==> FreshRead(files, kinds(o.path), KeyOf(o)) == Some(payload.window)
  }

  ghost predicate RecentAgrees(recent: map<(nat, Observation), Payload>, files: Files, kinds: Path -> Kind) {
    forall k :: k in recent ==> IsFresh(files, kinds, k.1, recent[k])
  }

  ghost predicate ShelfAgrees(shelf: Shelf.Shelf, files: Files) {
    forall e :: e in shelf ==> e.path in files && files[e.path] == e.text
  }

  // Everything remembered is what a read would return now.
  ghost predicate Fresh(w: World, kinds: Path -> Kind) {
    Agrees(w.stable, w.files, kinds) && RecentAgrees(w.recent, w.files, kinds) && ShelfAgrees(w.shelf, w.files)
  }

  // ---------- what a tool has to spare ----------

  predicate SameFile(files: Files, after: Files, path: Path) {
    (path in files <==> path in after) && (path in files ==> files[path] == after[path])
  }

  // A read remembered in a cache would return the same.
  predicate SameRead(files: Files, after: Files, kinds: Path -> Kind, key: Key)
    requires key.ReadKey?
  {
    FreshRead(after, kinds(key.path), key) == FreshRead(files, kinds(key.path), key)
  }

  // The tool leaves both caches as they are.
  predicate Unnoticed(t: Tool) {
    t.Verify? || t.Platform? || (t.Collect? && !t.changed)
  }

  // What the tool leaves remembered, it leaves in the files.
  ghost predicate Spares(w: World, kinds: Path -> Kind, t: Tool) {
    var after := FilesAfter(w, t);
    && (forall e :: e in w.shelf ==> SameFile(w.files, after, e.path))
    && (forall e :: e in w.stable && e.key.ReadKey? && e.payload.Text?
                    && (Unnoticed(t) || (t.Write? && e.key.path != t.path)) ==>
          SameRead(w.files, after, kinds, e.key))
    && (Unnoticed(t) ==> forall k :: k in w.recent && k.1.ReadFile? && w.recent[k].Text? ==>
          SameRead(w.files, after, kinds, KeyOf(k.1)))
  }

  lemma NoteIsBounded(cache: Cache, o: Observation, payload: Payload)
    requires ListingsAreOpaque(cache) && !Over(cache) && (o.ListFiles? ==> payload.Opaque?)
    ensures ListingsAreOpaque(Note(cache, o, payload)) && !Over(Note(cache, o, payload))
  {
  }

  lemma NoteAgrees(cache: Cache, files: Files, kinds: Path -> Kind, o: Observation, payload: Payload)
    requires Agrees(cache, files, kinds) && IsFresh(files, kinds, o, payload) && (o.ListFiles? ==> payload.Opaque?)
    ensures Agrees(Note(cache, o, payload), files, kinds)
  {
  }

  lemma PinnedIsEntry(w: World, kinds: Path -> Kind, path: Path)
    requires Pinned(w, kinds, path).Some?
    ensures Shelf.Entry(path, Pinned(w, kinds, path).value) in w.shelf
  {
    Shelf.LookupIsEntry(w.shelf, path);
  }

  // A pinned text is small, so the reader would not have completed it by further windows.
  lemma PinnedWindow(text: string, files: Files, kind: Kind, o: Observation)
    requires ValidRead(o) && kind != Ordinary && |text| <= Shelf.ENTRY_CAP
    requires o.path in files && files[o.path] == text
    ensures FreshRead(files, kind, KeyOf(o)) == Some(WindowOf(text, kind, KeyOf(o)))
  {
  }

  /** A served read is the read that would be made now. */
  lemma ServedIsFresh(w: World, kinds: Path -> Kind, o: Observation, bytes: nat)
    requires Sound(w, kinds) && Fresh(w, kinds) && ValidRead(o)
    ensures var served := Served(w, kinds, o, bytes);
            served.Some? ==> IsFresh(w.files, kinds, o, served.value)
  {
    hide Agrees, Over, ListingsAreOpaque, FreshRead, Lookup, Shelf.Valid, WindowOf;
    var hit, pinned := Cached(w, kinds, o), Pinned(w, kinds, o.path);
    if (w.epoch, o) in w.recent {
      assert IsFresh(w.files, kinds, (w.epoch, o).1, w.recent[(w.epoch, o)]);
    } else if hit.Some? {
      if hit.value.Text? {
        HitIsFreshRead(w.stable, w.files, kinds, o);
      }
    } else if pinned.Some? {
      PinnedIsEntry(w, kinds, o.path);
      PinnedIsShort(w.shelf, Shelf.Entry(o.path, pinned.value));
      PinnedWindow(pinned.value, w.files, kinds(o.path), o);
    }
  }

  lemma PinnedIsShort(shelf: Shelf.Shelf, e: Shelf.Entry)
    requires Shelf.Valid(shelf) && e in shelf
    ensures |e.text| <= Shelf.ENTRY_CAP
  {
  }

  // What a complete read pins is the file.
  lemma PinnedContent(w: World, kinds: Path -> Kind, o: Observation)
    requires ValidRead(o) && FreshRead(w.files, kinds(o.path), KeyOf(o)).Some?
    ensures var window := FreshRead(w.files, kinds(o.path), KeyOf(o)).value;
            var offset := if kinds(o.path) == Required then 0 else KeyOf(o).offset;
            o.path in w.files && (offset == 0 && window.eof ==> window.content == w.files[o.path])
  {
  }

  lemma ShelvedKeeps(w: World, kinds: Path -> Kind, o: Observation)
    requires Sound(w, kinds) && ValidRead(o)
    ensures Shelf.Valid(Shelved(w, kinds, o)) && forall e :: e in Shelved(w, kinds, o) ==> kinds(e.path) != Ordinary
    ensures ShelfAgrees(w.shelf, w.files) ==> ShelfAgrees(Shelved(w, kinds, o), w.files)
  {
    hide FreshRead, Shelf.Valid, Shelf.Touch, Shelf.Put, ListingsAreOpaque, Over;
    if Cached(w, kinds, o).None? && kinds(o.path) != Ordinary {
      if Pinned(w, kinds, o.path).Some? {
        Shelf.TouchKeepsShelf(w.shelf, o.path);
      } else if FreshRead(w.files, kinds(o.path), KeyOf(o)).Some? {
        var window := FreshRead(w.files, kinds(o.path), KeyOf(o)).value;
        PinnedContent(w, kinds, o);
        if ByteLength(window.content) <= Shelf.ENTRY_CAP {
          Shelf.PutIsBounded(w.shelf, o.path, window.content);
        }
      }
    }
  }

  /** What a read leaves remembered. */
  lemma ReadIsRemembered(w: World, kinds: Path -> Kind, o: Observation, bytes: nat, inline: bool)
    requires ValidRead(o)
    ensures var u, served := Record(w, kinds, Read(o, bytes, inline)), Served(w, kinds, o, bytes);
            && u.files == w.files && u.epoch == w.epoch
            && (served.None? ==> u == w)
            && (served.Some? ==>
                  var payload := if inline then served.value else Opaque(bytes);
                  && u.recent == w.recent[(w.epoch, o) := payload]
                  && (payload.bytes <= MAX_BYTES ==>
                        u.stable != [] && u.stable[|u.stable| - 1] == Entry(KeyOf(o), payload)))
  {
    hide Served, Shelved, Cached;
    var served := Served(w, kinds, o, bytes);
    if served.Some? {
      var payload := if inline then served.value else Opaque(bytes);
      var first := if Cached(w, kinds, o).Some? then Note(w.stable, o, served.value) else w.stable;
      hide Note;
      NoteIsLast(first, o, payload);
    }
  }

  lemma NoteIsLast(cache: Cache, o: Observation, payload: Payload)
    ensures payload.bytes <= MAX_BYTES ==>
              var r := Note(cache, o, payload); r != [] && r[|r| - 1] == Entry(KeyOf(o), payload)
  {
    hide Note;
    NoteIsExact(cache, o, payload);
  }

  /** A complete small read of a reference is pinned, from whatever limit it was complete. */
  lemma CompleteReadPins(w: World, kinds: Path -> Kind, o: Observation)
    requires ValidRead(o) && o.path in w.files && kinds(o.path) != Ordinary
    requires Cached(w, kinds, o).None? && Pinned(w, kinds, o.path).None?
    requires ByteLength(w.files[o.path]) <= Shelf.ENTRY_CAP
    requires kinds(o.path) == Required || (KeyOf(o).offset == 0 && |w.files[o.path]| <= KeyOf(o).limit)
    ensures Shelved(w, kinds, o) == Shelf.Put(w.shelf, o.path, w.files[o.path])
  {
    hide Shelf.Put, FreshRead, Cached, Pinned, TextWindow;
    CompleteWindow(w.files, kinds(o.path), o);
  }

  lemma CompleteWindow(files: Files, kind: Kind, o: Observation)
    requires ValidRead(o) && o.path in files && kind != Ordinary && |files[o.path]| <= Shelf.ENTRY_CAP
    requires kind == Required || (KeyOf(o).offset == 0 && |files[o.path]| <= KeyOf(o).limit)
    ensures var r := FreshRead(files, kind, KeyOf(o)); r.Some? && r.value.content == files[o.path] && r.value.eof
  {
  }

  lemma RecordReadKeeps(w: World, kinds: Path -> Kind, o: Observation, bytes: nat, inline: bool)
    requires Sound(w, kinds) && ValidRead(o)
    ensures Sound(RecordRead(w, kinds, o, bytes, inline), kinds)
    ensures Fresh(w, kinds) ==> Fresh(RecordRead(w, kinds, o, bytes, inline), kinds)
  {
    hide Agrees, ListingsAreOpaque, Over, Note, Lookup, FreshRead, Shelf.Valid, Shelved, Cached, ShelfAgrees;
    var served := Served(w, kinds, o, bytes);
    if served.Some? {
      var first := if Cached(w, kinds, o).Some? then Note(w.stable, o, served.value) else w.stable;
      var payload := if inline then served.value else Opaque(bytes);
      ShelvedKeeps(w, kinds, o);
      NoteIsBounded(w.stable, o, served.value);
      NoteIsBounded(first, o, payload);
      if Fresh(w, kinds) {
        ServedIsFresh(w, kinds, o, bytes);
        hide Served;
        NoteAgrees(w.stable, w.files, kinds, o, served.value);
        NoteAgrees(first, w.files, kinds, o, payload);
      }
    }
  }

  // Whatever the tools do, memory stays within its bounds.
  lemma RecordIsSound(w: World, kinds: Path -> Kind, t: Tool)
    requires Sound(w, kinds) && Possible(w, t)
    ensures Sound(Record(w, kinds, t), kinds)
  {
    hide Shelf.Valid, Note, Invalidate;
    match t
    case Read(o, bytes, inline) => RecordReadKeeps(w, kinds, o, bytes, inline);
    case List(path, bytes) => NoteIsBounded(w.stable, ListFiles(path), Opaque(bytes));
    case Write(path, _) => InvalidateShrinks(w.stable, path);
    case _ =>
  }

  lemma InvalidateIsBounded(cache: Cache, target: Path)
    requires !Over(cache) && ListingsAreOpaque(cache)
    ensures !Over(Invalidate(cache, target)) && ListingsAreOpaque(Invalidate(cache, target))
  {
    InvalidateShrinks(cache, target);
  }

  lemma {:induction false} InvalidateShrinks(cache: Cache, target: Path)
    ensures |Invalidate(cache, target)| <= |cache| && TotalBytes(Invalidate(cache, target)) <= TotalBytes(cache)
  {
    if cache != [] {
      InvalidateShrinks(cache[1..], target);
      if !Doomed(cache[0].key, target) {
        assert Invalidate(cache, target)[1..] == Invalidate(cache[1..], target);
      }
    }
  }

  /** After a tool everything remembered is fresh if and only if the tool spared it. */
  lemma FreshAfterIff(w: World, kinds: Path -> Kind, t: Tool)
    requires Sound(w, kinds) && Fresh(w, kinds) && Possible(w, t)
    ensures Fresh(Record(w, kinds, t), kinds) <==> Spares(w, kinds, t)
  {
    hide Shelf.Valid, FreshRead, Note, Invalidate, Over;
    match t
    case Read(o, bytes, inline) => RecordReadKeeps(w, kinds, o, bytes, inline);
    case List(path, bytes) =>
      NoteAgrees(w.stable, w.files, kinds, ListFiles(path), Opaque(bytes));
    case _ => ToolLeavesFresh(w, kinds, t);
  }

  lemma ToolLeavesFresh(w: World, kinds: Path -> Kind, t: Tool)
    requires Sound(w, kinds) && Fresh(w, kinds) && Possible(w, t) && !t.Read? && !t.List?
    ensures Fresh(Record(w, kinds, t), kinds) <==> Spares(w, kinds, t)
  {
    hide Shelf.Valid, FreshRead, Over;
  }

  ghost predicate Runs(w: World, kinds: Path -> Kind, tools: seq<Tool>)
    decreases |tools|
  {
    tools == [] || (Possible(w, tools[0]) && Runs(Record(w, kinds, tools[0]), kinds, tools[1..]))
  }

  ghost function After(w: World, kinds: Path -> Kind, tools: seq<Tool>): World
    requires Runs(w, kinds, tools)
    decreases |tools|
  {
    if tools == [] then w else After(Record(w, kinds, tools[0]), kinds, tools[1..])
  }

  // Every tool of the run spares what it leaves remembered.
  ghost predicate Careful(w: World, kinds: Path -> Kind, tools: seq<Tool>)
    requires Runs(w, kinds, tools)
    decreases |tools|
  {
    tools == [] || (Spares(w, kinds, tools[0]) && Careful(Record(w, kinds, tools[0]), kinds, tools[1..]))
  }

  // Memory is fresh at every point of the run.
  ghost predicate FreshThroughout(w: World, kinds: Path -> Kind, tools: seq<Tool>)
    requires Runs(w, kinds, tools)
    decreases |tools|
  {
    Fresh(w, kinds) && (tools != [] ==> FreshThroughout(Record(w, kinds, tools[0]), kinds, tools[1..]))
  }

  function Start(files: Files): World {
    World(files, [], 0, map[], [])
  }

  lemma StartIsFresh(files: Files, kinds: Path -> Kind)
    ensures Sound(Start(files), kinds) && Fresh(Start(files), kinds)
  {
  }

  lemma {:induction false} RunIsSound(w: World, kinds: Path -> Kind, tools: seq<Tool>)
    requires Sound(w, kinds) && Runs(w, kinds, tools)
    ensures Sound(After(w, kinds, tools), kinds)
    decreases |tools|
  {
    hide Record;
    if tools != [] {
      RecordIsSound(w, kinds, tools[0]);
      RunIsSound(Record(w, kinds, tools[0]), kinds, tools[1..]);
    }
  }

  lemma {:induction false} FreshRunIff(w: World, kinds: Path -> Kind, tools: seq<Tool>)
    requires Sound(w, kinds) && Fresh(w, kinds) && Runs(w, kinds, tools)
    ensures FreshThroughout(w, kinds, tools) <==> Careful(w, kinds, tools)
    ensures Careful(w, kinds, tools) ==> Fresh(After(w, kinds, tools), kinds)
    decreases |tools|
  {
    hide Record, Sound, Fresh, Spares;
    if tools != [] {
      RecordIsSound(w, kinds, tools[0]);
      FreshAfterIff(w, kinds, tools[0]);
      if Spares(w, kinds, tools[0]) {
        FreshRunIff(Record(w, kinds, tools[0]), kinds, tools[1..]);
      }
    }
  }

  /**
   From any files and over any run, everything remembered is fresh at every point if and only if
   every tool spares what it leaves remembered.
   */
  lemma FreshThroughoutIff(files: Files, kinds: Path -> Kind, tools: seq<Tool>)
    requires Runs(Start(files), kinds, tools)
    ensures FreshThroughout(Start(files), kinds, tools) <==> Careful(Start(files), kinds, tools)
  {
    FreshRunIff(Start(files), kinds, tools);
  }

  /**
   Memory agrees with the workspace: after any careful run, starting from any files, a read served
   from a cache or from the shelf has exactly the fields a fresh read would return.
   */
  lemma CacheAgreesWithWorkspace(files: Files, kinds: Path -> Kind, tools: seq<Tool>, o: Observation, bytes: nat)
    requires Runs(Start(files), kinds, tools) && Careful(Start(files), kinds, tools) && ValidRead(o)
    requires var served := Served(After(Start(files), kinds, tools), kinds, o, bytes);
             served.Some? && served.value.Text?
    ensures var w := After(Start(files), kinds, tools);
            && FreshRead(w.files, kinds(o.path), KeyOf(o)) == Some(Served(w, kinds, o, bytes).value.window)
            && !Over(w.stable)
  {
    hide FreshRead;
    FreshRunIff(Start(files), kinds, tools);
    RunIsSound(Start(files), kinds, tools);
    ServedIsFresh(After(Start(files), kinds, tools), kinds, o, bytes);
  }

  /** A write leaves the observations of unrelated files in the cache. */
  lemma WriteSparesOthers(w: World, kinds: Path -> Kind, path: Path, after: Files, e: Entry)
    requires e in w.stable && e.key.ReadKey? && e.key.path != path
    ensures e in Record(w, kinds, Write(path, after)).stable
  {
  }

  // ---------- when a tool spares what is remembered ----------

  ghost predicate Remembers(w: World, path: Path) {
    || (exists e :: e in w.stable && e.key.path == path)
    || (exists k :: k in w.recent && k.1.path == path)
  }

  // No reference changes, a write reaches its own path only, and what goes unnoticed changes no file remembered.
  ghost predicate Tidy(w: World, kinds: Path -> Kind, t: Tool) {
    var after := FilesAfter(w, t);
    && (forall path :: kinds(path) != Ordinary ==> SameFile(w.files, after, path))
    && (t.Write? ==> forall path :: path != t.path ==> SameFile(w.files, after, path))
    && (Unnoticed(t) ==> forall path :: Remembers(w, path) ==> SameFile(w.files, after, path))
  }

  /** Tidy tools spare what is remembered, whatever that is. */
  lemma TidySpares(w: World, kinds: Path -> Kind, t: Tool)
    requires Sound(w, kinds) && Tidy(w, kinds, t)
    ensures Spares(w, kinds, t)
  {
    hide Shelf.Valid, Over, TextWindow;
    forall k | Unnoticed(t) && k in w.recent && k.1.ReadFile?
      ensures SameRead(w.files, FilesAfter(w, t), kinds, KeyOf(k.1))
    {
      assert Remembers(w, k.1.path);
    }
    forall e | e in w.stable && e.key.ReadKey? && (Unnoticed(t) || (t.Write? && e.key.path != t.path))
      ensures SameRead(w.files, FilesAfter(w, t), kinds, e.key)
    {
      assert Unnoticed(t) ==> Remembers(w, e.key.path);
      assert SameFile(w.files, FilesAfter(w, t), e.key.path);
    }
  }

  /**
   A tool that drops what the caches hold of a pinned reference does not drop the pin: the next
   plain read is served from the shelf, and is fresh if and only if the tool left the file.
   */
  lemma PinnedReadIsFreshIff(w: World, kinds: Path -> Kind, t: Tool, path: Path, bytes: nat)
    requires Sound(w, kinds) && Fresh(w, kinds) && Possible(w, t) && Pinned(w, kinds, path).Some?
    requires (t.Write? && t.path == path) || (t.Command? && t.started) || (t.Collect? && t.changed) || t.Reset?
    ensures var o, u := ReadFile(path, None, None), Record(w, kinds, t);
            var window := TextWindow(Pinned(w, kinds, path).value, 0, DEFAULT_LIMIT);
            && Served(u, kinds, o, bytes) == Some(Text(window, bytes))
            && (FreshRead(u.files, kinds(path), KeyOf(o)) == Some(window) <==> SameFile(w.files, u.files, path))
  {
    var o, u, text := ReadFile(path, None, None), Record(w, kinds, t), Pinned(w, kinds, path).value;
    PinnedIsEntry(w, kinds, path);
    PinnedIsShort(w.shelf, Shelf.Entry(path, text));
    FindIsEntry(u.stable, KeyOf(o));
    hide Shelf.Valid, Over, Shelf.Lookup;
    assert Cached(u, kinds, o).None?;
    if path in u.files {
      ShortReadShowsAll(u.files[path], text, kinds(path));
    }
  }

  lemma ShortReadShowsAll(text: string, pinned: string, kind: Kind)
    requires |pinned| <= DEFAULT_LIMIT && kind != Ordinary
    ensures var key := ReadKey([], 0, DEFAULT_LIMIT, true);
            FreshRead(map[[] := text], kind, key) == Some(TextWindow(pinned, 0, DEFAULT_LIMIT)) <==> text == pinned
  {
  }

  /**
   A read held by a cache is answered the same after a verifier, a collection that brings nothing
   new or a file of the platform's own, and is fresh if and only if they left what it shows.
   */
  lemma RememberedReadIsFreshIff(w: World, kinds: Path -> Kind, t: Tool, o: Observation, bytes: nat)
    requires Sound(w, kinds) && Fresh(w, kinds) && Unnoticed(t) && ValidRead(o)
    requires Cached(w, kinds, o).Some? && Cached(w, kinds, o).value.Text?
    ensures var u := Record(w, kinds, t);
            && Served(u, kinds, o, bytes) == Cached(w, kinds, o)
            && (IsFresh(u.files, kinds, o, Cached(w, kinds, o).value) <==> SameRead(w.files, u.files, kinds, KeyOf(o)))
  {
    ServedIsFresh(w, kinds, o, bytes);
    hide FreshRead, Lookup, Shelf.Valid;
  }

  // ---------- runs whose memory goes stale ----------

  lemma RunOf(w: World, kinds: Path -> Kind, t: Tool, rest: seq<Tool>)
    requires Possible(w, t) && Runs(Record(w, kinds, t), kinds, rest)
    ensures Runs(w, kinds, [t] + rest) && After(w, kinds, [t] + rest) == After(Record(w, kinds, t), kinds, rest)
  {
    assert ([t] + rest)[1..] == rest;
  }

  // A plain read is remembered, and pinned if it is a small reference.
  lemma PlainRead(w: World, kinds: Path -> Kind, path: Path, bytes: nat)
    requires w.stable == [] && w.recent == map[] && bytes <= MAX_BYTES
    requires Served(w, kinds, ReadFile(path, None, None), bytes).Some?
    ensures var o := ReadFile(path, None, None);
            var u, payload := Record(w, kinds, Read(o, bytes, true)), Served(w, kinds, o, bytes).value;
            && u.files == w.files && u.epoch == w.epoch && u.stable == [Entry(KeyOf(o), payload)]
            && u.recent == map[(w.epoch, o) := payload] && u.shelf == Shelved(w, kinds, o)
            && Served(u, kinds, o, bytes) == Some(payload)
  {
    hide FreshRead, Shelved, Note, WindowOf, Shelf.Lookup;
    var o := ReadFile(path, None, None);
    assert Cached(w, kinds, o).None?;
    NoteAlone(o, Served(w, kinds, o, bytes).value);
    hide Lookup;
  }

  lemma NoteAlone(o: Observation, payload: Payload)
    requires payload.bytes <= MAX_BYTES
    ensures Note([], o, payload) == [Entry(KeyOf(o), payload)]
  {
    var alone := [Entry(KeyOf(o), payload)];
    assert Remove([], KeyOf(o)) + alone == alone;
    assert TotalBytes(alone) == payload.bytes by {
      assert alone[1..] == [];
    }
  }

  /**
   A rewritten reference stays what it was: it is read and pinned, overwritten and read again, and
   the second read brings the old text back into both caches.
   */
  lemma RewrittenReferenceIsStale(files: Files, kinds: Path -> Kind, path: Path, text: string, bytes: nat)
    requires path in files && kinds(path) != Ordinary && ByteLength(files[path]) <= Shelf.ENTRY_CAP
    requires text != files[path] && bytes <= MAX_BYTES
    ensures var o := ReadFile(path, None, None);
            var run := [Read(o, bytes, true)] + ([Write(path, files[path := text])] + ([Read(o, bytes, true)] + []));
            && Runs(Start(files), kinds, run)
            && var w := After(Start(files), kinds, run);
               && w.files == files[path := text]
               && Served(w, kinds, o, bytes) == Some(Text(TextWindow(files[path], 0, DEFAULT_LIMIT), bytes))
               && FreshRead(w.files, kinds(path), KeyOf(o)) != Some(TextWindow(files[path], 0, DEFAULT_LIMIT))
  {
    hide FreshRead, Record, Served, Shelf.Valid, Sound, Fresh, Pinned;
    var o, w0 := ReadFile(path, None, None), Start(files);
    var read, write := Read(o, bytes, true), Write(path, files[path := text]);
    FirstReadPins(files, kinds, path, bytes);
    var w1 := Record(w0, kinds, read);
    WriteDropsRead(w1, kinds, o, write);
    PinnedReadIsFreshIff(w1, kinds, write, path, bytes);
    var w2 := Record(w1, kinds, write);
    PlainRead(w2, kinds, path, bytes);
    RunOf(w2, kinds, read, []);
    RunOf(w1, kinds, write, [read] + []);
    RunOf(w0, kinds, read, [write] + ([read] + []));
    assert !SameFile(w1.files, w2.files, path);
  }

  lemma WriteDropsRead(w: World, kinds: Path -> Kind, o: Observation, t: Tool)
    requires |w.stable| == 1 && w.stable[0].key == KeyOf(o) && t.Write? && t.path == o.path
    ensures var u := Record(w, kinds, t); u.stable == [] && u.recent == map[] && u.files == t.after
  {
    assert Doomed(w.stable[0].key, t.path) && w.stable[1..] == [];
    assert Invalidate(w.stable[1..], t.path) == [];
  }

  lemma FirstReadPins(files: Files, kinds: Path -> Kind, path: Path, bytes: nat)
    requires path in files && kinds(path) != Ordinary && ByteLength(files[path]) <= Shelf.ENTRY_CAP
    requires bytes <= MAX_BYTES
    ensures var o := ReadFile(path, None, None);
            var u := Record(Start(files), kinds, Read(o, bytes, true));
            && Sound(u, kinds) && Fresh(u, kinds)
            && u.files == files && u.stable == [Entry(KeyOf(o), Served(Start(files), kinds, o, bytes).value)]
            && Pinned(u, kinds, path) == Some(files[path])
  {
    hide Served, Record, Shelf.Valid, Shelved, Shelf.Lookup, Sound, Fresh;
    var o, w := ReadFile(path, None, None), Start(files);
    StartIsFresh(files, kinds);
    PlainReadOf(files, kinds, path, bytes);
    PlainRead(w, kinds, path, bytes);
    RecordReadKeeps(w, kinds, o, bytes, true);
    PlainReadPins(files, kinds, path);
    ReadIsRecorded(w, kinds, o, bytes);
  }

  lemma ReadIsRecorded(w: World, kinds: Path -> Kind, o: Observation, bytes: nat)
    requires ValidRead(o)
    ensures Record(w, kinds, Read(o, bytes, true)) == RecordRead(w, kinds, o, bytes, true)
  {
    hide RecordRead;
  }

  lemma PlainReadOf(files: Files, kinds: Path -> Kind, path: Path, bytes: nat)
    requires path in files && kinds(path) != Ordinary && |files[path]| <= DEFAULT_LIMIT
    ensures FreshRead(files, kinds(path), KeyOf(ReadFile(path, None, None)))
            == Some(TextWindow(files[path], 0, DEFAULT_LIMIT))
    ensures Served(Start(files), kinds, ReadFile(path, None, None), bytes).Some?
  {
  }

  lemma PlainReadPins(files: Files, kinds: Path -> Kind, path: Path)
    requires path in files && kinds(path) != Ordinary && ByteLength(files[path]) <= Shelf.ENTRY_CAP
    ensures Shelf.Lookup(Shelved(Start(files), kinds, ReadFile(path, None, None)), path) == Some(files[path])
  {
    hide Shelf.Put, FreshRead;
    var o, text := ReadFile(path, None, None), files[path];
    var pin := Shelf.Pin(path, text, 0, DEFAULT_LIMIT, Some(true));
    PlainReadOf(files, kinds, path, 0);
    assert Shelved(Start(files), kinds, o) == Shelf.Step([], pin);
    Shelf.PinIsFound([], path, text, DEFAULT_LIMIT, Some(true));
    assert ([] + [pin])[..0] == [] && ([] + [pin])[0] == pin;
  }

  /**
   A file that changes under a remembered read stays what it was: by a verifier, by a collection
   that restores accounted bytes, by the platform or a process left running, or by a write that
   reaches it through a link.
   */
  lemma ChangedFileIsStale(files: Files, kinds: Path -> Kind, path: Path, t: Tool, bytes: nat)
    requires path in files && kinds(path) == Ordinary && bytes <= MAX_BYTES
    requires Unnoticed(t) || (t.Write? && t.path != path)
    requires !SameRead(files, t.after, kinds, KeyOf(ReadFile(path, None, None)))
    ensures var o := ReadFile(path, None, None);
            && Runs(Start(files), kinds, [Read(o, bytes, true)] + ([t] + []))
            && var w := After(Start(files), kinds, [Read(o, bytes, true)] + ([t] + []));
               && w.files == t.after && Served(w, kinds, o, bytes).Some? && Served(w, kinds, o, bytes).value.Text?
               && FreshRead(w.files, kinds(path), KeyOf(o)) != Some(Served(w, kinds, o, bytes).value.window)
  {
    hide FreshRead, Served, Shelved, Record, SameRead;
    var o, w := ReadFile(path, None, None), Start(files);
    var read := Read(o, bytes, true);
    FirstOrdinaryRead(files, kinds, path, bytes);
    PlainRead(w, kinds, path, bytes);
    var u := Record(w, kinds, read);
    OnlyReadSurvives(u, kinds, o, Served(w, kinds, o, bytes).value, t, bytes);
    RunOf(u, kinds, t, []);
    RunOf(w, kinds, read, [t] + []);
    OtherWindow(files, t.after, kinds, path);
  }

  lemma FirstOrdinaryRead(files: Files, kinds: Path -> Kind, path: Path, bytes: nat)
    requires path in files && kinds(path) == Ordinary
    ensures var o := ReadFile(path, None, None); var window := FreshRead(files, Ordinary, KeyOf(o));
            window.Some? && Served(Start(files), kinds, o, bytes) == Some(Text(window.value, bytes))
  {
    OrdinaryRead(files, ReadFile(path, None, None));
    hide FreshRead;
  }

  lemma OnlyReadSurvives(u: World, kinds: Path -> Kind, o: Observation, payload: Payload, t: Tool, bytes: nat)
    requires o.ReadFile? && u.stable == [Entry(KeyOf(o), payload)] && u.recent == map[(u.epoch, o) := payload]
    requires Unnoticed(t) || (t.Write? && t.path != o.path)
    ensures Possible(u, t) && Record(u, kinds, t).files == t.after
    ensures Served(Record(u, kinds, t), kinds, o, bytes) == Some(payload)
  {
    hide FreshRead, Pinned, WindowOf;
    assert u.stable[1..] == [] && (t.Write? ==> !Doomed(u.stable[0].key, t.path));
  }

  lemma OtherWindow(files: Files, after: Files, kinds: Path -> Kind, path: Path)
    requires path in files && kinds(path) == Ordinary
    requires !SameRead(files, after, kinds, KeyOf(ReadFile(path, None, None)))
    ensures var key := KeyOf(ReadFile(path, None, None));
            FreshRead(files, Ordinary, key).Some? && FreshRead(files, Ordinary, key) != FreshRead(after, Ordinary, key)
  {
  }

  lemma OrdinaryRead(files: Files, o: Observation)
    requires o.ReadFile? && o.path in files
    ensures FreshRead(files, Ordinary, KeyOf(o)).Some?
  {
  }
}
