/**
 The object a checkpoint is stored as: what is written is what a recovering worker loads, and
 nothing else is.
 */
module CheckpointBundle {
  import opened Encoding
  import opened Wrappers

  type Bytes = seq<bv8>

  const MAX_BYTES: nat := 512 * 1024 * 1024
  const MAX_STATE: nat := 16 * 1024 * 1024
  const MAX_ENTRIES: nat := 10000
  const MAX_ARCHIVE: nat := MAX_BYTES + MAX_STATE + MAX_ENTRIES * 2048
  const WORKSPACE: string := "/workspace"

  datatype Job = Job(user: string, id: string, network: bool)

  datatype File = File(path: string, data: Bytes)

  datatype Listed = Listed(path: string, digest: string)

  // The agent's own state is carried as it is.
  datatype Meta = Meta(
    schema: int, user: string, job: string, network: bool, image: string, state: string, nextTurn: nat,
    modes: seq<string>, directories: seq<string>, manifest: seq<Listed>)

  datatype Archive = Archive(meta: Meta, members: map<string, Bytes>)

  datatype Key = Key(user: string, job: string, name: string)

  datatype Ref = Ref(key: Key, signature: string, size: nat, ready: bool, nextTurn: nat)

  // `rest` is the size of the encoded state beyond the two tables that name every file.
  datatype Codec = Codec(digest: Bytes -> string, sign: (string, string, Archive) -> string, rest: Meta -> nat)

  // A digest is written as 64 hexadecimal digits.
  ghost predicate DigestsAreHex(codec: Codec) {
    forall data :: |codec.digest(data)| == 64
  }

  datatype WriteError = WorkspaceLimit | StateLimit | SnapshotLimit

  datatype LoadError =
    | ToolUncertain | OwnerMismatch | ObjectMissing | TooLarge | AuthenticationFailed | StateTooLarge
    | IdentityMismatch | InvalidPath | MemberMissing | WorkspaceTooLarge | ChecksumMismatch

  // ---------- paths ----------

  function Parts(path: string): seq<string>
    decreases |path|
  {
    if path == "" then [""] else
    var before := Parts(path[..|path| - 1]);
    if path[|path| - 1] == '/' then before + [""]
    else if before == [] then [[path[|path| - 1]]]
    else before[..|before| - 1] + [before[|before| - 1] + [path[|path| - 1]]]
  }

  function Slashed(parts: seq<string>): string {
    if parts == [] then ""
    else if |parts| == 1 then parts[0]
    else Slashed(parts[..|parts| - 1]) + "/" + parts[|parts| - 1]
  }

  lemma SlashedGrows(parts: seq<string>, part: string)
    requires parts != []
    ensures Slashed(parts + [part]) == Slashed(parts) + "/" + part
  {
    assert (parts + [part])[..|parts|] == parts;
  }

  lemma EndGrows(front: seq<string>, end: string, c: char)
    ensures Slashed(front + [end + [c]]) == Slashed(front + [end]) + [c]
  {
    if front != [] {
      SlashedGrows(front, end);
      SlashedGrows(front, end + [c]);
      hide Slashed;
      Regroup(Slashed(front), end, c);
    } else {
      assert front + [end] == [end] && front + [end + [c]] == [end + [c]];
    }
  }

  lemma Regroup(a: string, b: string, c: char)
    ensures a + "/" + (b + [c]) == a + "/" + b + [c]
  {
  }

  lemma {:induction false} PartsHaveNoSlash(path: string)
    ensures Parts(path) != [] && forall k :: 0 <= k < |Parts(path)| ==> '/' !in Parts(path)[k]
    decreases |path|
  {
    if path != "" {
      PartsHaveNoSlash(path[..|path| - 1]);
    }
  }

  /** The parts of a path are what its slashes separate. */
  lemma {:induction false} PartsRejoin(path: string)
    ensures Slashed(Parts(path)) == path
    decreases |path|
  {
    if path != "" {
      var last := |path| - 1;
      var before := Parts(path[..last]);
      PartsRejoin(path[..last]);
      PartsHaveNoSlash(path[..last]);
      assert path == path[..last] + [path[last]];
      if path[last] == '/' {
        SlashedGrows(before, "");
        hide Slashed;
        assert path[..last] + "/" + "" == path;
      } else {
        var front, end := before[..|before| - 1], before[|before| - 1];
        EndGrows(front, end, path[last]);
        hide Slashed;
        assert before == front + [end];
      }
    }
  }

  predicate InWorkspace(path: string) {
    WORKSPACE + "/" <= path
  }

  predicate ValidPath(path: string) {
    && (path == WORKSPACE || InWorkspace(path))
    && ".." !in Parts(path) && '\\' !in path
  }

  lemma PartsNext(path: string, c: char)
    ensures Parts(path) != []
    ensures var before := Parts(path); var last := |before| - 1;
            Parts(path + [c]) == if c == '/' then before + [""] else before[..last] + [before[last] + [c]]
  {
    PartsHaveNoSlash(path);
    assert (path + [c])[..|path|] == path;
  }

  lemma Extend(x: seq<string>, y: seq<string>, c: char)
    requires y != []
    ensures var z, n := x + y, |x + y| - 1; var m := |y| - 1;
            && z[..n] + [z[n] + [c]] == x + (y[..m] + [y[m] + [c]])
            && z + [""] == x + (y + [""])
  {
    assert (x + y)[..|x + y| - 1] == x + y[..|y| - 1];
  }

  lemma {:induction false} PartsOfJoin(a: string, b: string)
    ensures Parts(a + "/" + b) == Parts(a) + Parts(b)
    decreases |b|
  {
    if b == "" {
      PartsNext(a, '/');
      assert a + "/" + b == a + ['/'] && Parts(b) == [""];
    } else {
      hide Parts;
      var q, c := b[..|b| - 1], b[|b| - 1];
      assert b == q + [c] && a + "/" + b == (a + "/" + q) + [c];
      PartsOfJoin(a, q);
      PartsNext(a + "/" + q, c);
      PartsNext(q, c);
      Extend(Parts(a), Parts(q), c);
    }
  }

  lemma PartsOfUp()
    ensures Parts("..") == [".."]
  {
    PartsNext("", '.');
    PartsNext(".", '.');
    assert "" + ['.'] == "." && "." + ['.'] == "..";
  }

  lemma StepUpIsAPart(a: string, b: string)
    ensures ".." in Parts(a + "/..") && ".." in Parts(a + "/../" + b)
  {
    PartsOfUp();
    hide Parts;
    PartsOfJoin(a, "..");
    PartsOfJoin(a + "/" + "..", b);
    assert a + "/" + ".." == a + "/.." && a + "/.." + "/" + b == a + "/../" + b;
    assert (Parts(a) + [".."])[|Parts(a)|] == "..";
  }

  /** A valid path takes no step up. */
  lemma ValidPathsStayBelow(a: string, b: string)
    ensures !ValidPath(a + "/..") && !ValidPath(a + "/../" + b)
  {
    hide Parts, InWorkspace;
    StepUpIsAPart(a, b);
  }

  function MemberName(path: string): string {
    "files/" + (if InWorkspace(path) then path[|WORKSPACE| + 1..] else path)
  }

  lemma MemberNamesDiffer(a: string, b: string)
    requires InWorkspace(a) && InWorkspace(b) && MemberName(a) == MemberName(b)
    ensures a == b
  {
    var prefix := WORKSPACE + "/";
    assert MemberName(a)[6..] == a[|prefix|..] && MemberName(b)[6..] == b[|prefix|..];
    assert a == prefix + a[|prefix|..] && b == prefix + b[|prefix|..];
  }

  predicate IsHex(name: string, length: nat) {
    |name| == length && forall c :: c in name ==> c in "0123456789abcdef"
  }

  predicate IsImage(image: string) {
    "sha256:" <= image && IsHex(image[7..], 64)
  }

  // ---------- writing ----------

  function Total(files: seq<File>): nat {
    if files == [] then 0 else Total(files[..|files| - 1]) + |files[|files| - 1].data|
  }

  function Manifest(codec: Codec, files: seq<File>): (r: seq<Listed>)
    ensures |r| == |files|
  {
    seq(|files|, i requires 0 <= i < |files| => Listed(files[i].path, codec.digest(files[i].data)))
  }

  function Members(files: seq<File>): map<string, Bytes> {
    if files == [] then map[]
    else Members(files[..|files| - 1])[MemberName(files[|files| - 1].path) := files[|files| - 1].data]
  }

  // `"path": "digest", ` for each listed file; the last separator stands for the braces.
  function ListedSize(manifest: seq<Listed>): nat {
    if manifest == [] then 0 else
    var listed := manifest[|manifest| - 1];
    ListedSize(manifest[..|manifest| - 1]) + ByteLength(listed.path) + |listed.digest| + 8
  }

  // `"path": 0, ` for each path that has a mode; a longer mode counts with the rest.
  function ModesSize(modes: seq<string>): nat {
    if modes == [] then 0 else ModesSize(modes[..|modes| - 1]) + ByteLength(modes[|modes| - 1]) + 7
  }

  // The encoded state.
  function StateSize(codec: Codec, meta: Meta): nat {
    ListedSize(meta.manifest) + ModesSize(meta.modes) + codec.rest(meta)
  }

  // Members are stored uncompressed, each behind a header of its own.
  function LocalSize(member: string): nat {
    30 + ByteLength(member)
  }

  // What the archive's directory, written at the end, adds for a member.
  function CentralSize(member: string): nat {
    46 + ByteLength(member)
  }

  const END_RECORD: nat := 22

  function Headers(files: seq<File>): nat {
    if files == [] then 0
    else Headers(files[..|files| - 1]) + LocalSize(MemberName(files[|files| - 1].path))
  }

  function Centrals(files: seq<File>): nat {
    if files == [] then 0
    else Centrals(files[..|files| - 1]) + CentralSize(MemberName(files[|files| - 1].path))
  }

  // The bytes on disk when the last member has been written, and when the archive is closed.
  function OpenSize(codec: Codec, files: seq<File>, meta: Meta): nat {
    Headers(files) + Total(files) + LocalSize("state.json") + StateSize(codec, meta)
  }

  function ClosedSize(codec: Codec, files: seq<File>, meta: Meta): nat {
    OpenSize(codec, files, meta) + Centrals(files) + CentralSize("state.json") + END_RECORD
  }

  function MetaOf(codec: Codec, job: Job, files: seq<File>, modes: seq<string>, directories: seq<string>,
                  state: string, nextTurn: nat, image: string): Meta
  {
    Meta(1, job.user, job.id, job.network, image, state, nextTurn, modes, directories, Manifest(codec, files))
  }

  /**
   Writing a bundle.  The size is compared with its limit before the archive's directory is
   appended; the size recorded is that of the closed archive.  For an exported workspace the
   comparison never fails and the closed archive is within the limit too: `WrittenFits`.
   */
  method WriteBundle(codec: Codec, job: Job, files: seq<File>, meta: Meta, name: string)
    returns (r: Result<Ref, WriteError>, archive: Archive)
    ensures r.Ok? <==> Total(files) <= MAX_BYTES && StateSize(codec, meta) <= MAX_STATE
                       && OpenSize(codec, files, meta) <= MAX_ARCHIVE
    ensures r == Err(WorkspaceLimit) <==> Total(files) > MAX_BYTES
    ensures r == Err(StateLimit) <==> Total(files) <= MAX_BYTES && StateSize(codec, meta) > MAX_STATE
    ensures Describes(codec, files, meta) ==> r != Err(SnapshotLimit)
    ensures r.Ok? ==> archive == Archive(meta, Members(files))
    ensures r.Ok? ==> r.value == Ref(Key(job.user, job.id, name), codec.sign(job.user, job.id, archive),
                                     ClosedSize(codec, files, meta), true, meta.nextTurn)
  {
    archive := Archive(meta, map[]);
    var total := 0;
    for i := 0 to |files|
      invariant total == Total(files[..i])
    {
      assert files[..i + 1][..i] == files[..i];
      total := total + |files[i].data|;
    }
    assert files[..|files|] == files;
    if total > MAX_BYTES {
      return Err(WorkspaceLimit), archive;
    }
    if StateSize(codec, meta) > MAX_STATE {
      return Err(StateLimit), archive;
    }
    var told, closing := 0, 0;
    var members: map<string, Bytes> := map[];
    for i := 0 to |files|
      invariant members == Members(files[..i])
      invariant told == Headers(files[..i]) + Total(files[..i]) && closing == Centrals(files[..i])
    {
      assert files[..i + 1][..i] == files[..i];
      var member := MemberName(files[i].path);
      members := members[member := files[i].data];
      told := told + LocalSize(member) + |files[i].data|;
      closing := closing + CentralSize(member);
    }
    told := told + LocalSize("state.json") + StateSize(codec, meta);
    assert told == OpenSize(codec, files, meta);
    if told > MAX_ARCHIVE {
      if Describes(codec, files, meta) {
        WrittenFits(codec, files, meta);
        assert false;
      }
      return Err(SnapshotLimit), archive;
    }
    archive := Archive(meta, members);
    var size := told + closing + CentralSize("state.json") + END_RECORD;
    r := Ok(Ref(Key(job.user, job.id, name), codec.sign(job.user, job.id, archive), size, true, meta.nextTurn));
  }

  // ---------- loading ----------

  // An object on disk: its content and its size.
  datatype Stored = Stored(archive: Archive, size: nat)

  datatype Bundle = Bundle(meta: Meta, files: map<string, Bytes>)

  datatype Progress = Progress(files: map<string, Bytes>, total: nat)

  // One more listed file, checked against what has been read so far.
  function ReadOne(codec: Codec, a: Archive, files: map<string, Bytes>, total: nat, listed: Listed)
    : Result<Progress, LoadError>
  {
    var member := MemberName(listed.path);
    if !ValidPath(listed.path) then Err(InvalidPath)
    else if member !in a.members then Err(MemberMissing)
    else if total + |a.members[member]| > MAX_BYTES || |files| >= MAX_ENTRIES then Err(WorkspaceTooLarge)
    else if codec.digest(a.members[member]) != listed.digest then Err(ChecksumMismatch)
    else Ok(Progress(files[listed.path := a.members[member]], total + |a.members[member]|))
  }

  // The first `n` listed files, as far as every one of them is acceptable.
  function ReadFiles(codec: Codec, a: Archive, n: nat): (r: Result<Progress, LoadError>)
    requires n <= |a.meta.manifest|
  {
    if n == 0 then Ok(Progress(map[], 0)) else
    var before := ReadFiles(codec, a, n - 1);
    if before.Err? then before
    else ReadOne(codec, a, before.value.files, before.value.total, a.meta.manifest[n - 1])
  }

  function ReadArchive(codec: Codec, job: Job, a: Archive): Result<Bundle, LoadError> {
    var meta := a.meta;
    if StateSize(codec, meta) > MAX_STATE then Err(StateTooLarge)
    else if meta.schema != 1 || meta.user != job.user || meta.job != job.id || meta.network != job.network
            || !IsImage(meta.image) then Err(IdentityMismatch)
    else
      var read := ReadFiles(codec, a, |meta.manifest|);
      if read.Err? then Err(read.error)
      else if exists p :: p in meta.directories + meta.modes && !ValidPath(p) then Err(InvalidPath)
      else Ok(Bundle(meta, read.value.files))
  }

  function Load(codec: Codec, job: Job, ref: Option<Ref>, store: map<Key, Stored>): Result<Option<Bundle>, LoadError> {
    if ref.None? then Ok(None)
    else if !ref.value.ready then Err(ToolUncertain)
    else if ref.value.key.user != job.user || ref.value.key.job != job.id || !IsHex(ref.value.key.name, 32) then
      Err(OwnerMismatch)
    else if ref.value.key !in store then Err(ObjectMissing)
    else
      var stored := store[ref.value.key];
      if stored.size > MAX_ARCHIVE then Err(TooLarge)
      else if stored.size != ref.value.size || codec.sign(job.user, job.id, stored.archive) != ref.value.signature then
        Err(AuthenticationFailed)
      else
        var read := ReadArchive(codec, job, stored.archive);
        if read.Err? then Err(read.error) else Ok(Some(read.value))
  }

  method CheckFile(codec: Codec, a: Archive, files: map<string, Bytes>, total: nat, listed: Listed)
    returns (data: Bytes, problem: Option<LoadError>)
    ensures ReadOne(codec, a, files, total, listed)
            == if problem.Some? then Err(problem.value) else Ok(Progress(files[listed.path := data], total + |data|))
  {
    hide ValidPath, MemberName;
    data := [];
    if !ValidPath(listed.path) {
      return data, Some(InvalidPath);
    }
    if MemberName(listed.path) !in a.members {
      return data, Some(MemberMissing);
    }
    data := a.members[MemberName(listed.path)];
    problem := if total + |data| > MAX_BYTES || |files| >= MAX_ENTRIES then Some(WorkspaceTooLarge)
               else if codec.digest(data) != listed.digest then Some(ChecksumMismatch)
               else None;
  }

  method LoadFiles(codec: Codec, a: Archive) returns (r: Result<map<string, Bytes>, LoadError>)
    ensures var read := ReadFiles(codec, a, |a.meta.manifest|);
            r == if read.Ok? then Ok(read.value.files) else Err(read.error)
  {
    hide ReadOne;
    var files: map<string, Bytes> := map[];
    var total: nat := 0;
    for n := 0 to |a.meta.manifest|
      invariant ReadFiles(codec, a, n) == Ok(Progress(files, total))
    {
      var listed := a.meta.manifest[n];
      var data, problem := CheckFile(codec, a, files, total, listed);
      if problem.Some? {
        ReadStops(codec, a, n + 1, |a.meta.manifest|);
        return Err(problem.value);
      }
      total := total + |data|;
      files := files[listed.path := data];
    }
    r := Ok(files);
  }

  method LoadBundle(codec: Codec, job: Job, ref: Option<Ref>, store: map<Key, Stored>)
    returns (r: Result<Option<Bundle>, LoadError>)
    ensures r == Load(codec, job, ref, store)
  {
    hide ReadFiles, IsHex, IsImage, ValidPath, InWorkspace;
    if ref.None? {
      return Ok(None);
    }
    var key := ref.value.key;
    if !ref.value.ready {
      return Err(ToolUncertain);
    }
    if key.user != job.user || key.job != job.id || !IsHex(key.name, 32) {
      return Err(OwnerMismatch);
    }
    if key !in store {
      return Err(ObjectMissing);
    }
    var stored := store[key];
    if stored.size > MAX_ARCHIVE {
      return Err(TooLarge);
    }
    if stored.size != ref.value.size || codec.sign(job.user, job.id, stored.archive) != ref.value.signature {
      return Err(AuthenticationFailed);
    }
    var meta := stored.archive.meta;
    if StateSize(codec, meta) > MAX_STATE {
      return Err(StateTooLarge);
    }
    if meta.schema != 1 || meta.user != job.user || meta.job != job.id || meta.network != job.network
       || !IsImage(meta.image) {
      return Err(IdentityMismatch);
    }
    var files := LoadFiles(codec, stored.archive);
    if files.Err? {
      return Err(files.error);
    }
    var named := meta.directories + meta.modes;
    for i := 0 to |named|
      invariant forall k :: 0 <= k < i ==> ValidPath(named[k])
    {
      if !ValidPath(named[i]) {
        return Err(InvalidPath);
      }
    }
    r := Ok(Some(Bundle(meta, files.value)));
  }

  lemma {:induction false} ReadStops(codec: Codec, a: Archive, n: nat, m: nat)
    requires n <= m <= |a.meta.manifest| && ReadFiles(codec, a, n).Err?
    ensures ReadFiles(codec, a, m) == ReadFiles(codec, a, n)
    decreases m
  {
    if n < m {
      ReadStops(codec, a, n, m - 1);
    }
  }

  // ---------- what is written is what is loaded ----------

  predicate UniquePaths(files: seq<File>) {
    forall i, j :: 0 <= i < j < |files| ==> files[i].path != files[j].path
  }

  // What an export of the workspace yields.
  predicate Exported(files: seq<File>, modes: seq<string>, directories: seq<string>) {
    && UniquePaths(files) && |files| <= MAX_ENTRIES
    && (forall f :: f in files ==> ValidPath(f.path) && InWorkspace(f.path))
    && (forall f :: f in files ==> f.path in modes)
    && (forall p :: p in directories + modes ==> ValidPath(p))
  }

  function Contents(files: seq<File>): (m: map<string, Bytes>)
    ensures |m| <= |files|
  {
    if files == [] then map[] else
    var before := Contents(files[..|files| - 1]);
    before[files[|files| - 1].path := files[|files| - 1].data]
  }

  lemma {:induction false} MemberOf(files: seq<File>, i: nat)
    requires UniquePaths(files) && i < |files|
    requires forall f :: f in files ==> InWorkspace(f.path)
    ensures MemberName(files[i].path) in Members(files)
    ensures Members(files)[MemberName(files[i].path)] == files[i].data
    decreases |files|
  {
    var last := |files| - 1;
    if i < last {
      assert files[..last][i] == files[i];
      MemberOf(files[..last], i);
      if MemberName(files[i].path) == MemberName(files[last].path) {
        MemberNamesDiffer(files[i].path, files[last].path);
      }
    }
  }

  lemma {:induction false} TotalOfPrefix(files: seq<File>, n: nat)
    requires n <= |files|
    ensures Total(files[..n]) <= Total(files)
    decreases |files|
  {
    if n < |files| {
      assert files[..|files| - 1][..n] == files[..n];
      TotalOfPrefix(files[..|files| - 1], n);
    } else {
      assert files[..n] == files;
    }
  }

  // The archive holds a file under its name, and the manifest lists it.
  predicate Held(codec: Codec, a: Archive, f: File, listed: Listed) {
    && listed == Listed(f.path, codec.digest(f.data)) && ValidPath(f.path)
    && MemberName(f.path) in a.members && a.members[MemberName(f.path)] == f.data
  }

  lemma {:induction false} HeldFilesRead(codec: Codec, files: seq<File>, a: Archive, n: nat)
    requires n <= |files| == |a.meta.manifest| && |files| <= MAX_ENTRIES && Total(files) <= MAX_BYTES
    requires forall i :: 0 <= i < |files| ==> Held(codec, a, files[i], a.meta.manifest[i])
    ensures ReadFiles(codec, a, n) == Ok(Progress(Contents(files[..n]), Total(files[..n])))
    decreases n
  {
    hide ReadOne, Held;
    if n > 0 {
      HeldFilesRead(codec, files, a, n - 1);
      PrefixGrows(files, n);
      TotalOfPrefix(files, n);
      hide Contents, Total;
      FileReads(codec, a, files[n - 1], a.meta.manifest[n - 1], Contents(files[..n - 1]), Total(files[..n - 1]));
    }
  }

  lemma WrittenFilesHeld(codec: Codec, files: seq<File>, a: Archive)
    requires UniquePaths(files) && (forall f :: f in files ==> ValidPath(f.path) && InWorkspace(f.path))
    requires a.meta.manifest == Manifest(codec, files) && a.members == Members(files)
    ensures forall i :: 0 <= i < |files| ==> Held(codec, a, files[i], a.meta.manifest[i])
  {
    forall i | 0 <= i < |files| ensures Held(codec, a, files[i], a.meta.manifest[i]) {
      assert files[i] in files;
      hide ValidPath, InWorkspace, MemberName, Members;
      MemberOf(files, i);
    }
  }

  lemma PrefixGrows(files: seq<File>, n: nat)
    requires 0 < n <= |files|
    ensures Total(files[..n]) == Total(files[..n - 1]) + |files[n - 1].data|
    ensures Contents(files[..n]) == Contents(files[..n - 1])[files[n - 1].path := files[n - 1].data]
    ensures |Contents(files[..n - 1])| < n
  {
    assert files[..n][..n - 1] == files[..n - 1];
  }

  lemma FileReads(codec: Codec, a: Archive, f: File, listed: Listed, read: map<string, Bytes>, total: nat)
    requires Held(codec, a, f, listed) && total + |f.data| <= MAX_BYTES && |read| < MAX_ENTRIES
    ensures ReadOne(codec, a, read, total, listed) == Ok(Progress(read[f.path := f.data], total + |f.data|))
  {
    hide ValidPath, MemberName;
  }

  // ---------- the size of what is written ----------

  function PathBytes(files: seq<File>): nat {
    if files == [] then 0 else PathBytes(files[..|files| - 1]) + ByteLength(files[|files| - 1].path)
  }

  lemma MemberLength(path: string)
    requires InWorkspace(path)
    ensures ByteLength(MemberName(path)) + 5 == ByteLength(path)
  {
    hide ByteLength;
    var under := path[|WORKSPACE| + 1..];
    assert path == "/workspace/" + under;
    LengthOfConcat("/workspace/", under);
    LengthOfConcat("files/", under);
    LengthOfAscii("/workspace/");
    LengthOfAscii("files/");
  }

  lemma {:induction false} HeadersOf(files: seq<File>)
    requires forall f :: f in files ==> InWorkspace(f.path)
    ensures Headers(files) + Centrals(files) == 2 * PathBytes(files) + 66 * |files|
  {
    if files != [] {
      HeadersOf(files[..|files| - 1]);
      MemberLength(files[|files| - 1].path);
    }
  }

  lemma {:induction false} ManifestOf(codec: Codec, files: seq<File>)
    requires DigestsAreHex(codec)
    ensures ListedSize(Manifest(codec, files)) == PathBytes(files) + 72 * |files|
  {
    if files != [] {
      var before := files[..|files| - 1];
      ManifestOf(codec, before);
      assert Manifest(codec, files)[..|files| - 1] == Manifest(codec, before);
    }
  }

  lemma {:induction false} ModesSplit(modes: seq<string>, i: nat)
    requires i < |modes|
    ensures ModesSize(modes) == ModesSize(modes[..i] + modes[i + 1..]) + ByteLength(modes[i]) + 7
    decreases |modes|
  {
    var last := |modes| - 1;
    if i < last {
      ModesSplit(modes[..last], i);
      assert modes[..last][..i] == modes[..i];
      var rest := modes[..i] + modes[i + 1..];
      assert rest[..|rest| - 1] == modes[..last][..i] + modes[..last][i + 1..];
    } else {
      assert modes[..i] + modes[i + 1..] == modes[..last];
    }
  }

  lemma OtherModes(files: seq<File>, modes: seq<string>, i: nat, f: File)
    requires UniquePaths(files) && files != [] && f in files[..|files| - 1] && f.path in modes
    requires i < |modes| && modes[i] == files[|files| - 1].path
    ensures f.path in modes[..i] + modes[i + 1..]
  {
    var k :| 0 <= k < |files| - 1 && files[k] == f;
    assert modes == modes[..i] + [modes[i]] + modes[i + 1..];
  }

  // Every file has a mode, under its own path.
  lemma {:induction false} ModesCoverFiles(files: seq<File>, modes: seq<string>)
    requires UniquePaths(files) && forall f :: f in files ==> f.path in modes
    ensures PathBytes(files) + 7 * |files| <= ModesSize(modes)
    decreases |files|
  {
    if files != [] {
      var last := |files| - 1;
      assert files[last] in files;
      var i :| 0 <= i < |modes| && modes[i] == files[last].path;
      var others := modes[..i] + modes[i + 1..];
      ModesSplit(modes, i);
      forall f | f in files[..last] ensures f.path in others {
        OtherModes(files, modes, i, f);
      }
      ModesCoverFiles(files[..last], others);
    }
  }

  // The meta data of an export.
  ghost predicate Describes(codec: Codec, files: seq<File>, meta: Meta) {
    && DigestsAreHex(codec) && Exported(files, meta.modes, meta.directories)
    && meta.manifest == Manifest(codec, files)
  }

  /**
   The encoded state names every file twice, once with a digest, so the archive's headers and its
   directory take less room than the state.  The limit leaves enough for both.
   */
  lemma WrittenFits(codec: Codec, files: seq<File>, meta: Meta)
    requires Describes(codec, files, meta)
    requires Total(files) <= MAX_BYTES && StateSize(codec, meta) <= MAX_STATE
    ensures OpenSize(codec, files, meta) <= ClosedSize(codec, files, meta) <= MAX_ARCHIVE
  {
    hide InWorkspace, ValidPath, ListedSize, ModesSize;
    HeadersOf(files);
    ManifestOf(codec, files);
    ModesCoverFiles(files, meta.modes);
    LengthOfAscii("state.json");
  }

  /**
   Round trip.  A bundle written for a job, still stored as it was written, loads back with the
   same state and the same files.
   */
  lemma RoundTrip(codec: Codec, job: Job, files: seq<File>, modes: seq<string>, directories: seq<string>,
                  meta: Meta, name: string, ref: Ref, store: map<Key, Stored>)
    requires DigestsAreHex(codec)
    requires Exported(files, modes, directories) && IsHex(name, 32) && IsImage(meta.image)
    requires meta == MetaOf(codec, job, files, modes, directories, meta.state, meta.nextTurn, meta.image)
    requires Total(files) <= MAX_BYTES && StateSize(codec, meta) <= MAX_STATE
    requires var archive := Archive(meta, Members(files));
             && ref == Ref(Key(job.user, job.id, name), codec.sign(job.user, job.id, archive),
                           ClosedSize(codec, files, meta), true, meta.nextTurn)
             && ref.key in store && store[ref.key] == Stored(archive, ref.size)
    ensures Load(codec, job, Some(ref), store) == Ok(Some(Bundle(meta, Contents(files))))
  {
    var archive := Archive(meta, Members(files));
    WrittenFits(codec, files, meta);
    hide OpenSize, ClosedSize;
    WrittenFilesHeld(codec, files, archive);
    HeldFilesRead(codec, files, archive, |files|);
    assert files[..|files|] == files;
  }

  // The loaded files are the written ones, path by path.
  lemma {:induction false} ContentsOf(files: seq<File>, i: nat)
    requires UniquePaths(files) && i < |files|
    ensures files[i].path in Contents(files) && Contents(files)[files[i].path] == files[i].data
    decreases |files|
  {
    if i < |files| - 1 {
      assert files[..|files| - 1][i] == files[i];
      ContentsOf(files[..|files| - 1], i);
    }
  }

  // The bytes of the first `n` listed files, and their paths.
  function SizeUpTo(a: Archive, n: nat): nat
    requires n <= |a.meta.manifest|
  {
    if n == 0 then 0 else
    var member := MemberName(a.meta.manifest[n - 1].path);
    SizeUpTo(a, n - 1) + if member in a.members then |a.members[member]| else 0
  }

  function PathsUpTo(a: Archive, n: nat): set<string>
    requires n <= |a.meta.manifest|
  {
    set k | 0 <= k < n :: a.meta.manifest[k].path
  }

  // Nothing is wrong with a listed file.
  predicate FileFits(codec: Codec, a: Archive, k: nat)
    requires k < |a.meta.manifest|
  {
    var listed := a.meta.manifest[k];
    && ValidPath(listed.path) && MemberName(listed.path) in a.members
    && SizeUpTo(a, k + 1) <= MAX_BYTES && |PathsUpTo(a, k)| < MAX_ENTRIES
    && codec.digest(a.members[MemberName(listed.path)]) == listed.digest
  }

  // The files read are the members under the listed paths.
  predicate AreMembers(a: Archive, n: nat, files: map<string, Bytes>)
    requires n <= |a.meta.manifest|
  {
    && files.Keys == PathsUpTo(a, n)
    && forall p :: p in files ==> MemberName(p) in a.members && files[p] == a.members[MemberName(p)]
  }

  predicate AllFit(codec: Codec, a: Archive, n: nat)
    requires n <= |a.meta.manifest|
  {
    forall k :: 0 <= k < n ==> FileFits(codec, a, k)
  }

  lemma AllFitNext(codec: Codec, a: Archive, n: nat)
    requires n < |a.meta.manifest|
    ensures AllFit(codec, a, n + 1) <==> AllFit(codec, a, n) && FileFits(codec, a, n)
  {
    hide FileFits;
  }

  lemma {:induction false} ReadsIff(codec: Codec, a: Archive, n: nat)
    requires n <= |a.meta.manifest|
    ensures var r := ReadFiles(codec, a, n);
            && (r.Ok? <==> AllFit(codec, a, n))
            && (r.Ok? ==> r.value.total == SizeUpTo(a, n) && AreMembers(a, n, r.value.files))
    decreases n
  {
    if n == 0 {
      assert AreMembers(a, 0, map[]);
    } else {
      hide ReadOne, FileFits, AreMembers, SizeUpTo, AllFit;
      ReadsIff(codec, a, n - 1);
      AllFitNext(codec, a, n - 1);
      var before := ReadFiles(codec, a, n - 1);
      if before.Ok? {
        ReadOneIff(codec, a, n - 1, before.value.files, before.value.total);
      }
    }
  }

  lemma MembersGrow(a: Archive, k: nat, files: map<string, Bytes>)
    requires k < |a.meta.manifest| && AreMembers(a, k, files)
    requires MemberName(a.meta.manifest[k].path) in a.members
    ensures var path := a.meta.manifest[k].path; AreMembers(a, k + 1, files[path := a.members[MemberName(path)]])
  {
    hide MemberName;
    assert PathsUpTo(a, k + 1) == PathsUpTo(a, k) + {a.meta.manifest[k].path};
  }

  lemma ReadOneIff(codec: Codec, a: Archive, k: nat, files: map<string, Bytes>, total: nat)
    requires k < |a.meta.manifest| && total == SizeUpTo(a, k) && AreMembers(a, k, files)
    ensures var r := ReadOne(codec, a, files, total, a.meta.manifest[k]);
            && (r.Ok? <==> FileFits(codec, a, k))
            && (r.Ok? ==> r.value.total == SizeUpTo(a, k + 1) && AreMembers(a, k + 1, r.value.files))
  {
    assert |files| == |PathsUpTo(a, k)|;
    var member := MemberName(a.meta.manifest[k].path);
    if member in a.members {
      assert SizeUpTo(a, k + 1) == total + |a.members[member]|;
      MembersGrow(a, k, files);
    }
    hide ValidPath, MemberName, AreMembers, PathsUpTo, SizeUpTo;
  }

  /** The first listed file with something wrong decides what loading reports. */
  lemma FirstFaultIsReported(codec: Codec, a: Archive, k: nat)
    requires k < |a.meta.manifest| && AllFit(codec, a, k) && !FileFits(codec, a, k)
    ensures var r, listed := ReadFiles(codec, a, |a.meta.manifest|), a.meta.manifest[k];
            var valid, there := ValidPath(listed.path), MemberName(listed.path) in a.members;
            var fits := SizeUpTo(a, k + 1) <= MAX_BYTES && |PathsUpTo(a, k)| < MAX_ENTRIES;
            && r.Err? && (r.error == InvalidPath <==> !valid) && (r.error == MemberMissing <==> valid && !there)
            && (r.error == WorkspaceTooLarge <==> valid && there && !fits)
            && (r.error == ChecksumMismatch <==> valid && there && fits)
  {
    hide ValidPath, MemberName;
    ReadsIff(codec, a, k);
    ReadStops(codec, a, k + 1, |a.meta.manifest|);
  }

  // The reference names an object of this job, and the object is the one it was recorded for.
  predicate IsOwn(job: Job, ref: Ref) {
    ref.key.user == job.user && ref.key.job == job.id && IsHex(ref.key.name, 32)
  }

  predicate IsAuthentic(codec: Codec, job: Job, ref: Ref, stored: Stored) {
    stored.size == ref.size && codec.sign(job.user, job.id, stored.archive) == ref.signature
  }

  predicate Identifies(job: Job, meta: Meta) {
    && meta.schema == 1 && meta.user == job.user && meta.job == job.id && meta.network == job.network
    && "sha256:" <= meta.image && IsHex(meta.image[7..], 64)
  }

  ghost predicate IsSound(codec: Codec, a: Archive) {
    AllFit(codec, a, |a.meta.manifest|)
    && forall p :: p in a.meta.directories || p in a.meta.modes ==> ValidPath(p)
  }

  /**
   A recorded bundle loads exactly when it is ready, of this job, stored, authentic, within the
   limits, made for this job and network setting, and every listed file is there, in the
   workspace, within the limits and as its digest says; the files loaded are then those members.
   */
  lemma LoadsIff(codec: Codec, job: Job, ref: Ref, store: map<Key, Stored>)
    ensures Load(codec, job, Some(ref), store).Ok? <==>
            && ref.ready && IsOwn(job, ref) && ref.key in store
            && var stored := store[ref.key];
               && stored.size <= MAX_ARCHIVE && IsAuthentic(codec, job, ref, stored)
               && StateSize(codec, stored.archive.meta) <= MAX_STATE
               && Identifies(job, stored.archive.meta) && IsSound(codec, stored.archive)
    ensures var r := Load(codec, job, Some(ref), store);
            r.Ok? ==> && r.value.Some? && r.value.value.meta == store[ref.key].archive.meta
                      && var a := store[ref.key].archive; AreMembers(a, |a.meta.manifest|, r.value.value.files)
  {
    hide ValidPath, StateSize, AllFit, AreMembers, ReadFiles, IsHex;
    if ref.key in store {
      ReadsIff(codec, store[ref.key].archive, |store[ref.key].archive.meta.manifest|);
    }
  }

  /** What a refusal before the files are looked at means. */
  lemma RefusalIsExact(codec: Codec, job: Job, ref: Ref, store: map<Key, Stored>)
    requires Load(codec, job, Some(ref), store).Err?
    ensures var e := Load(codec, job, Some(ref), store).error;
            && (e == ToolUncertain <==> !ref.ready)
            && (e == OwnerMismatch <==> ref.ready && !IsOwn(job, ref))
            && (e == ObjectMissing <==> ref.ready && IsOwn(job, ref) && ref.key !in store)
            && (ref.ready && IsOwn(job, ref) && ref.key in store ==>
                  RefusedFor(codec, job, ref, store[ref.key], e))
  {
    hide ValidPath, StateSize, ReadFiles, IsHex;
    if ref.key in store {
      FileErrors(codec, store[ref.key].archive, |store[ref.key].archive.meta.manifest|);
    }
  }

  lemma {:induction false} FileErrors(codec: Codec, a: Archive, n: nat)
    requires n <= |a.meta.manifest|
    ensures var r := ReadFiles(codec, a, n);
            r.Err? ==> r.error in {InvalidPath, MemberMissing, WorkspaceTooLarge, ChecksumMismatch}
    decreases n
  {
    hide ValidPath, MemberName;
    if n > 0 {
      FileErrors(codec, a, n - 1);
    }
  }

  predicate RefusedFor(codec: Codec, job: Job, ref: Ref, stored: Stored, e: LoadError) {
    var a, large := stored.archive, stored.size > MAX_ARCHIVE;
    var authentic := !large && IsAuthentic(codec, job, ref, stored);
    var read := authentic && StateSize(codec, a.meta) <= MAX_STATE;
    && (e == TooLarge <==> large) && (e == AuthenticationFailed <==> !large && !authentic)
    && (e == StateTooLarge <==> authentic && !read)
    && (e == IdentityMismatch <==> read && !Identifies(job, a.meta))
    && (read && Identifies(job, a.meta) ==>
          var files := ReadFiles(codec, a, |a.meta.manifest|);
          if files.Err? then e == files.error else e == InvalidPath)
  }

  /** Anything but the object that was written is refused, whatever it contains. */
  lemma TamperedIsRefused(codec: Codec, job: Job, archive: Archive, ref: Ref, store: map<Key, Stored>)
    requires forall u, j, a, b :: codec.sign(u, j, a) == codec.sign(u, j, b) ==> a == b
    requires ref.signature == codec.sign(job.user, job.id, archive)
    requires Load(codec, job, Some(ref), store).Ok?
    ensures ref.key in store && store[ref.key] == Stored(archive, ref.size)
  {
  }

  /** A bundle is loaded only for the job, the user and the network setting it was written for. */
  lemma ForeignIsRefused(codec: Codec, job: Job, ref: Ref, store: map<Key, Stored>)
    requires Load(codec, job, Some(ref), store).Ok?
    ensures ref.ready && ref.key.user == job.user && ref.key.job == job.id
    ensures var b := Load(codec, job, Some(ref), store).value.value;
            && b.meta.user == job.user && b.meta.job == job.id && b.meta.network == job.network
            && forall p :: p in b.files ==> ValidPath(p)
  {
    var a := store[ref.key].archive;
    ReadPathsAreValid(codec, a, |a.meta.manifest|);
  }

  lemma {:induction false} ReadPathsAreValid(codec: Codec, a: Archive, n: nat)
    requires n <= |a.meta.manifest| && ReadFiles(codec, a, n).Ok?
    ensures forall p :: p in ReadFiles(codec, a, n).value.files ==> ValidPath(p)
    decreases n
  {
    if n > 0 {
      ReadPathsAreValid(codec, a, n - 1);
    }
  }
}
