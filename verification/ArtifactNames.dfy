/**
 The flattening of declared output paths into stored file names: a bijection onto safe names
 of bounded length.
 */
module ArtifactNames {
  import opened Decimals
  import opened Sorting
  import opened Wrappers

  const OUTPUT_ROOT: seq<string> := ["workspace", "output"]
  const LIMIT: nat := 180
  const UNSAFE: string := "<>:\"/\\|?*"

  // A declared path before normalisation, as its parts.
  datatype Declared = Declared(absolute: bool, parts: seq<string>)

  // A normalised path below the output root.
  datatype Path = Path(dirs: seq<string>, name: string)

  datatype PathError = ArtifactDenied

  // Relative paths are taken below the workspace.
  function Absolute(d: Declared): seq<string> {
    if d.absolute then d.parts else ["workspace"] + d.parts
  }

  function Normalize(d: Declared): Result<Path, PathError> {
    var parts := Absolute(d);
    if ".." in parts || !(OUTPUT_ROOT < parts) then Err(ArtifactDenied)
    else Ok(Path(parts[2..|parts| - 1], parts[|parts| - 1]))
  }

  /** Normalisation accepts exactly the paths strictly below the output root, and keeps them apart. */
  lemma NormalizeStaysBelow(d: Declared, e: Declared)
    ensures Normalize(d).Ok? <==> ".." !in Absolute(d) && OUTPUT_ROOT < Absolute(d)
    ensures Normalize(d).Ok? && Normalize(d) == Normalize(e) ==> Absolute(d) == Absolute(e)
  {
    hide Absolute;
    if Normalize(d).Ok? && Normalize(d) == Normalize(e) {
      var p := Normalize(d).value;
      assert Absolute(d) == OUTPUT_ROOT + p.dirs + [p.name];
      assert Absolute(e) == OUTPUT_ROOT + p.dirs + [p.name];
    }
  }

  /** The result is the path itself, with the root taken off. */
  lemma NormalizeIsExact(d: Declared, p: Path)
    ensures Normalize(d) == Ok(p) <==>
            && (if d.absolute then d.parts else ["workspace"] + d.parts) == ["workspace", "output"] + p.dirs + [p.name]
            && ".." !in d.parts
  {
    var parts := Absolute(d);
    assert ".." in parts <==> ".." in d.parts;
    if parts == OUTPUT_ROOT + p.dirs + [p.name] {
      assert parts[2..|parts| - 1] == p.dirs && parts[|parts| - 1] == p.name;
    }
    if OUTPUT_ROOT < parts {
      assert parts == OUTPUT_ROOT + parts[2..|parts| - 1] + [parts[|parts| - 1]];
    }
  }

  method NormalizeAll(declared: seq<Declared>) returns (r: Result<seq<Path>, PathError>)
    ensures r.Ok? <==> forall i :: 0 <= i < |declared| ==> Normalize(declared[i]).Ok?
    ensures r.Ok? ==>
              |r.value| == |declared| && forall i :: 0 <= i < |declared| ==> Normalize(declared[i]) == Ok(r.value[i])
  {
    var paths: seq<Path> := [];
    for i := 0 to |declared|
      invariant |paths| == i && forall j :: 0 <= j < i ==> Normalize(declared[j]) == Ok(paths[j])
    {
      var path := Normalize(declared[i]);
      if path.Err? {
        return Err(ArtifactDenied);
      }
      paths := paths + [path.value];
    }
    r := Ok(paths);
  }

  // ---------- one name ----------

  predicate SafeChar(c: char) {
    c as int >= 0x20 && c as int != 0x7f && c !in UNSAFE
  }

  predicate Safe(name: string) {
    name != "" && forall k :: 0 <= k < |name| ==> SafeChar(name[k])
  }

  // Every run of unsafe characters becomes one underscore.
  function Clean(s: string): (r: string)
    ensures forall k :: 0 <= k < |r| ==> SafeChar(r[k])
  {
    if s == "" then ""
    else if SafeChar(s[0]) then [s[0]] + Clean(s[1..])
    else if |s| > 1 && !SafeChar(s[1]) then Clean(s[1..])
    else "_" + Clean(s[1..])
  }

  /** What cleaning is: a run of unsafe characters between safe ones is one underscore. */
  lemma {:induction false} RunIsOneUnderscore(before: string, run: string, after: string)
    requires before == "" || SafeChar(before[|before| - 1])
    requires run != "" && forall k :: 0 <= k < |run| ==> !SafeChar(run[k])
    requires after == "" || SafeChar(after[0])
    ensures Clean(before + run + after) == Clean(before) + "_" + Clean(after)
    decreases |before| + |run|
  {
    var s := before + run + after;
    if before == "" {
      assert s[0] == run[0] && s[1..] == run[1..] + after;
      if |run| > 1 {
        assert s[1] == run[1] && s[1..] == before + run[1..] + after;
        RunIsOneUnderscore(before, run[1..], after);
      } else {
        assert s[1..] == after;
      }
    } else {
      assert s[0] == before[0] && s[1..] == before[1..] + run + after;
      RunIsOneUnderscore(before[1..], run, after);
      assert |before| > 1 ==> s[1] == before[1];
    }
  }

  // A part of a text without its blanks, dots and underscores at both ends.
  ghost predicate IsStripped(s: string, r: string, i: int) {
    && 0 <= i <= |s| - |r| && r == s[i..i + |r|]
    && (r != "" ==> r[0] !in " ._" && r[|r| - 1] !in " ._")
    && forall k :: 0 <= k < i || i + |r| <= k < |s| ==> s[k] in " ._"
  }

  function Strip(s: string): (r: string)
    ensures exists i :: IsStripped(s, r, i)
  {
    if s == "" then assert IsStripped(s, s, 0); s
    else if s[0] in " ._" then
      var r := Strip(s[1..]);
      assert exists i :: IsStripped(s, r, i) by {
        var i :| IsStripped(s[1..], r, i);
        assert IsStripped(s, r, i + 1);
      }
      r
    else if s[|s| - 1] in " ._" then
      var r := Strip(s[..|s| - 1]);
      assert exists i :: IsStripped(s, r, i) by {
        var i :| IsStripped(s[..|s| - 1], r, i);
        assert IsStripped(s, r, i);
      }
      r
    else assert IsStripped(s, s, 0); s
  }

  function Sanitize(segment: string): (r: string)
    ensures Safe(r)
  {
    var stripped := Strip(Clean(segment));
    if stripped == "" then "file" else stripped
  }

  predicate NothingToKeep(s: string) {
    forall k :: 0 <= k < |s| ==> s[k] in " ._"
  }

  /** A segment is cleaned, then stripped at both ends; one with nothing left is called a file. */
  lemma SanitizeIsExact(segment: string)
    ensures var r, cleaned := Sanitize(segment), Clean(segment);
            if NothingToKeep(cleaned) then r == "file"
            else exists i :: IsStripped(cleaned, r, i)
  {
    hide SafeChar, Clean, Strip, IsStripped, Safe, NothingToKeep;
    var cleaned := Clean(segment);
    var stripped := Strip(cleaned);
    assert Sanitize(segment) == if stripped == "" then "file" else stripped;
    var i :| IsStripped(cleaned, stripped, i);
    NothingIsLeft(cleaned, stripped, i);
  }

  lemma NothingIsLeft(s: string, r: string, i: int)
    requires IsStripped(s, r, i)
    ensures r == "" <==> NothingToKeep(s)
  {
    if r != "" {
      assert s[i] == r[0];
    }
  }

  lemma {:induction false} CleanKeepsSafe(s: string)
    requires forall k :: 0 <= k < |s| ==> SafeChar(s[k])
    ensures Clean(s) == s
  {
    if s != "" {
      CleanKeepsSafe(s[1..]);
    }
  }

  /** A segment that is already safe, and neither begins nor ends in a stripped character, is kept. */
  lemma SafeSegmentsAreKept(segment: string)
    requires Safe(segment) && segment[0] !in " ._" && segment[|segment| - 1] !in " ._"
    ensures Sanitize(segment) == segment
  {
    CleanKeepsSafe(segment);
  }

  function LastDot(s: string): (i: int)
    ensures -1 <= i < |s| && (i >= 0 ==> s[i] == '.')
    ensures forall k :: i < k < |s| ==> s[k] != '.'
  {
    if s == "" then -1 else if s[|s| - 1] == '.' then |s| - 1 else LastDot(s[..|s| - 1])
  }

  // A leading or trailing dot begins no suffix.
  function Suffix(name: string): (r: string)
    ensures |r| < |name| || name == r == ""
    ensures r == name[|name| - |r|..]
  {
    var i := LastDot(name);
    if 0 < i < |name| - 1 then name[i..] else ""
  }

  /** A suffix is the last dot and what follows it, if there is something before and something after. */
  lemma SuffixIsExact(name: string, i: nat)
    requires i < |name| && name[i] == '.' && '.' !in name[i + 1..]
    ensures Suffix(name) == if 0 < i < |name| - 1 then name[i..] else ""
  {
    var rest := name[i + 1..];
    assert forall k :: i < k < |name| ==> name[k] == rest[k - i - 1] && name[k] != '.';
    assert LastDot(name) == i;
  }

  lemma NoDotNoSuffix(name: string)
    requires '.' !in name
    ensures Suffix(name) == ""
  {
  }

  function Stem(name: string): (r: string)
    ensures r + Suffix(name) == name
  {
    name[..|name| - |Suffix(name)|]
  }

  // A slice up to `n`, where a negative `n` counts from the end.
  function Truncate(s: string, n: int): (r: string)
    ensures r <= s && (n >= 0 ==> |r| <= n)
  {
    if n >= |s| then s else if n >= 0 then s[..n] else if |s| + n >= 0 then s[..|s| + n] else ""
  }

  function Cap(name: string): (r: string)
    ensures |r| <= LIMIT && (|name| <= LIMIT ==> r == name)
    ensures Safe(name) ==> Safe(r)
    ensures var end := Suffix(name);
            |name| > LIMIT && end != "" && |end| < LIMIT - 8 ==>
              |r| == LIMIT && r[LIMIT - |end|..] == end && r[..LIMIT - |end|] <= name
  {
    if |name| <= LIMIT then name else
    var suffix := Suffix(name);
    if suffix != "" && |suffix| < LIMIT - 8 then Truncate(Stem(name), LIMIT - |suffix|) + suffix
    else name[..LIMIT]
  }

  lemma NamesWithoutSuffixAreCut(name: string)
    requires |name| > LIMIT && (Suffix(name) == "" || |Suffix(name)| >= LIMIT - 8)
    ensures Cap(name) == name[..LIMIT]
  {
    hide Suffix;
  }

  // A suffix so long that no number would fit before it counts as part of the stem.
  function KeptSuffix(name: string): (r: string)
    ensures |r| < LIMIT - 8 && |r| <= |name| && r == name[|name| - |r|..]
  {
    if |Suffix(name)| >= LIMIT - 8 then "" else Suffix(name)
  }

  function Numbered(name: string, counter: nat): string {
    var tail := "_" + Decimal(counter) + KeptSuffix(name);
    Truncate(name[..|name| - |KeptSuffix(name)|], LIMIT - |tail|) + tail
  }

  /** A numbered name is as much of the stem as fits, an underscore, the number and the suffix. */
  lemma NumberedParts(name: string, counter: nat)
    requires |Decimal(counter)| <= 8
    ensures var suffix := if |Suffix(name)| < LIMIT - 8 then Suffix(name) else "";
            var end := "_" + Decimal(counter) + suffix;
            Numbered(name, counter) == AtMost(name[..|name| - |suffix|], LIMIT - |end|) + end
  {
    hide Decimal, Suffix;
  }

  function AtMost(s: string, n: nat): string {
    if |s| <= n then s else s[..n]
  }

  lemma UnderscoreSplits(p: string, q: string, a: nat, c: nat)
    requires p + "_" + Decimal(a) == q + "_" + Decimal(c)
    ensures a == c
  {
    hide Decimal;
    var s := p + "_" + Decimal(a);
    assert '_' !in DIGITS;
    assert forall k :: |p| < k < |s| ==> s[k] == Decimal(a)[k - |p| - 1] && s[k] != '_';
    assert forall k :: |q| < k < |s| ==> s[k] == Decimal(c)[k - |q| - 1] && s[k] != '_';
    assert s[|p|] == '_' && s[|q|] == '_';
    assert s[|p| + 1..] == Decimal(a) && s[|p| + 1..] == Decimal(c);
    DecimalInjective(a, c);
  }

  lemma SameEnd(a: string, c: string, end: string)
    requires a + end == c + end
    ensures a == c
  {
    assert (a + end)[..|a|] == a && (c + end)[..|c|] == c;
  }

  /** Different counters give different names, however much of the stem is cut away. */
  lemma NumberedInjective(name: string, a: nat, c: nat)
    requires Numbered(name, a) == Numbered(name, c)
    ensures a == c
  {
    hide Truncate, KeptSuffix, Decimal;
    var end := KeptSuffix(name);
    var stem := name[..|name| - |end|];
    var p := Truncate(stem, LIMIT - |"_" + Decimal(a) + end|);
    var q := Truncate(stem, LIMIT - |"_" + Decimal(c) + end|);
    assert Numbered(name, a) == (p + "_" + Decimal(a)) + end;
    assert Numbered(name, c) == (q + "_" + Decimal(c)) + end;
    SameEnd(p + "_" + Decimal(a), q + "_" + Decimal(c), end);
    UnderscoreSplits(p, q, a, c);
  }

  lemma {:induction false} DecimalLength(n: nat, digits: nat, bound: nat)
    requires n < bound && bound == Power10(digits) && digits > 0
    ensures |Decimal(n)| <= digits
    decreases digits
  {
    if n >= 10 {
      DecimalLength(n / 10, digits - 1, Power10(digits - 1));
    }
  }

  function Power10(n: nat): nat {
    if n == 0 then 1 else 10 * Power10(n - 1)
  }

  /** Counters of at most eight digits keep the name within the limit. */
  lemma NumberedFits(name: string, counter: nat)
    requires counter < 100_000_000
    ensures |Numbered(name, counter)| <= LIMIT
  {
    assert Power10(8) == 100_000_000;
    DecimalLength(counter, 8, 100_000_000);
  }

  lemma NumberedIsSafe(name: string, counter: nat)
    requires Safe(name)
    ensures Safe(Numbered(name, counter))
  {
    hide Truncate, KeptSuffix, Decimal;
    var end := KeptSuffix(name);
    var tail := "_" + Decimal(counter) + end;
    var p := Truncate(name[..|name| - |end|], LIMIT - |tail|);
    DigitsAreSafe(Decimal(counter));
    assert forall k :: 0 <= k < |end| ==> end[k] == name[|name| - |end| + k];
    assert forall k :: 0 <= k < |p| ==> p[k] == name[k];
    assert Numbered(name, counter) == p + tail;
  }

  lemma DigitsAreSafe(s: string)
    requires forall k :: 0 <= k < |s| ==> s[k] in DIGITS
    ensures forall k :: 0 <= k < |s| ==> SafeChar(s[k])
  {
  }

  // ---------- the choice of a name ----------

  function Base(p: Path): (r: string)
    ensures Safe(r)
  {
    Sanitize(p.name)
  }

  lemma JoinIsSafe(a: string, c: string)
    requires Safe(a) && Safe(c)
    ensures Safe(a + "_" + c)
  {
    assert SafeChar('_');
    hide SafeChar;
  }

  // The last `depth` directories and the base, joined by underscores.
  function Joined(p: Path, depth: nat): (r: string)
    requires depth <= |p.dirs|
    ensures Safe(r)
  {
    if depth == 0 then Base(p) else
    var outer, rest := Sanitize(p.dirs[|p.dirs| - depth]), Joined(p, depth - 1);
    JoinIsSafe(outer, rest);
    outer + "_" + rest
  }

  function Underscored(segments: seq<string>): string {
    if segments == [] then ""
    else if |segments| == 1 then Sanitize(segments[0])
    else Underscored(segments[..|segments| - 1]) + "_" + Sanitize(segments[|segments| - 1])
  }

  lemma {:induction false} UnderscoredPrepends(segment: string, rest: seq<string>)
    requires rest != []
    ensures Underscored([segment] + rest) == Sanitize(segment) + "_" + Underscored(rest)
    decreases |rest|
  {
    hide Sanitize;
    var all := [segment] + rest;
    assert all[..|all| - 1] == [segment] + rest[..|rest| - 1];
    if |rest| > 1 {
      UnderscoredPrepends(segment, rest[..|rest| - 1]);
    }
  }

  /** A candidate name is the nearest directories, outermost first, and the file name. */
  lemma {:induction false} JoinedInOrder(p: Path, depth: nat)
    requires depth <= |p.dirs|
    ensures Joined(p, depth) == Underscored(p.dirs[|p.dirs| - depth..] + [p.name])
    decreases depth
  {
    hide Sanitize;
    if depth > 0 {
      JoinedInOrder(p, depth - 1);
      var rest := p.dirs[|p.dirs| - (depth - 1)..] + [p.name];
      assert p.dirs[|p.dirs| - depth..] + [p.name] == [p.dirs[|p.dirs| - depth]] + rest;
      UnderscoredPrepends(p.dirs[|p.dirs| - depth], rest);
    }
  }

  // As few parent directories as make the name new, or all of them.
  function Prefixed(chosen: set<string>, p: Path, depth: nat): (r: string)
    requires depth <= |p.dirs|
    ensures Safe(r)
    decreases |p.dirs| - depth
  {
    if depth == |p.dirs| || Joined(p, depth) !in chosen then Joined(p, depth) else Prefixed(chosen, p, depth + 1)
  }

  function Preferred(chosen: set<string>, p: Path): (r: string)
    ensures Safe(r) && |r| <= LIMIT
  {
    Cap(Prefixed(chosen, p, 0))
  }

  // The fewest directories that make the candidate new, or all of them.
  ghost predicate IsFewest(chosen: set<string>, p: Path, depth: nat) {
    && depth <= |p.dirs| && (depth < |p.dirs| ==> Joined(p, depth) !in chosen)
    && forall d: nat :: d < depth ==> Joined(p, d) in chosen
  }

  lemma {:induction false} PrefixedIsFewest(chosen: set<string>, p: Path, depth: nat)
    requires depth <= |p.dirs| && forall d: nat :: d < depth ==> Joined(p, d) in chosen
    ensures exists d: nat :: IsFewest(chosen, p, d) && Prefixed(chosen, p, depth) == Joined(p, d)
    decreases |p.dirs| - depth
  {
    hide Safe, Sanitize, Joined;
    if depth == |p.dirs| || Joined(p, depth) !in chosen {
      assert IsFewest(chosen, p, depth);
    } else {
      PrefixedIsFewest(chosen, p, depth + 1);
    }
  }

  /** The preferred name: the file name behind the fewest directories that make it new, cut to the limit. */
  lemma PreferredIsFewest(chosen: set<string>, p: Path)
    ensures exists d: nat :: IsFewest(chosen, p, d) && Preferred(chosen, p) == Cap(Joined(p, d))
  {
    PrefixedIsFewest(chosen, p, 0);
  }

  /** The name a path gets after the others: the preferred one, or the first free number. */
  ghost predicate IsChoice(chosen: set<string>, p: Path, name: string) {
    var preferred := Preferred(chosen, p);
    && name !in chosen
    && if preferred !in chosen then name == preferred else
         exists c: nat :: c >= 2 && name == Numbered(preferred, c)
                          && forall d: nat :: 2 <= d < c ==> Numbered(preferred, d) in chosen
  }

  function Tried(name: string, counter: nat): (s: set<string>)
    requires counter >= 2
    ensures forall d: nat :: 2 <= d < counter ==> Numbered(name, d) in s
  {
    set d: nat | 2 <= d < counter :: Numbered(name, d)
  }

  lemma {:induction false} TriedSize(name: string, counter: nat)
    requires counter >= 2
    ensures |Tried(name, counter)| == counter - 2
    decreases counter
  {
    if counter > 2 {
      TriedSize(name, counter - 1);
      var last := Numbered(name, counter - 1);
      assert Tried(name, counter) == Tried(name, counter - 1) + {last};
      if last in Tried(name, counter - 1) {
        var d: nat :| 2 <= d < counter - 1 && Numbered(name, d) == last;
        NumberedInjective(name, d, counter - 1);
      }
    }
  }

  method FreeName(chosen: set<string>, p: Path) returns (name: string)
    ensures IsChoice(chosen, p, name) && Safe(name)
    ensures |chosen| < 99_999_998 ==> |name| <= LIMIT
  {
    name := Base(p);
    var depth := 0;
    while name in chosen && depth < |p.dirs|
      invariant 0 <= depth <= |p.dirs| && name == Joined(p, depth)
      invariant Prefixed(chosen, p, 0) == Prefixed(chosen, p, depth)
    {
      depth := depth + 1;
      name := Joined(p, depth);
    }
    name := Cap(name);
    var preferred := name;
    if name in chosen {
      var counter := 2;
      name := Numbered(preferred, counter);
      while name in chosen
        invariant counter >= 2 && name == Numbered(preferred, counter)
        invariant forall d: nat :: 2 <= d < counter ==> Numbered(preferred, d) in chosen
        invariant counter - 2 <= |chosen|
        decreases |chosen| + 3 - counter
      {
        assert Tried(preferred, counter + 1) <= chosen;
        TriedSize(preferred, counter + 1);
        SubsetIsNoLarger(Tried(preferred, counter + 1), chosen);
        counter := counter + 1;
        name := Numbered(preferred, counter);
      }
      NumberedIsSafe(preferred, counter);
      if counter < 100_000_000 {
        NumberedFits(preferred, counter);
      }
    }
  }

  // ---------- all names ----------

  predicate FirstAt(paths: seq<Path>, k: nat) {
    k < |paths| && paths[k] !in paths[..k]
  }

  function NamesOf(names: map<Path, string>, paths: seq<Path>): set<string> {
    set p | p in paths && p in names :: names[p]
  }

  // Each of the first `n` paths is named at its first occurrence, after the earlier ones.
  ghost predicate NamedInOrder(names: map<Path, string>, paths: seq<Path>, n: nat) {
    && n <= |paths| && (forall p :: p in paths[..n] <==> p in names)
    && forall k: nat :: k < n && FirstAt(paths, k) ==>
         paths[k] in names && IsChoice(NamesOf(names, paths[..k]), paths[k], names[paths[k]])
  }

  predicate Injective(names: map<Path, string>) {
    forall p, q :: p in names && q in names && names[p] == names[q] ==> p == q
  }

  // What the names promise for a list of `total` paths.
  ghost predicate NamesHold(names: map<Path, string>, total: nat) {
    && Injective(names)
    && (forall p :: p in names ==> Safe(names[p]))
    && (total < 99_999_998 ==> forall p :: p in names ==> |names[p]| <= LIMIT)
  }

  /** The names are a bijection from the declared paths onto safe names within the limit. */
  method UniqueNames(paths: seq<Path>) returns (names: map<Path, string>)
    ensures names.Keys == (set p | p in paths) && Injective(names)
    ensures forall p :: p in names ==> Safe(names[p])
    ensures |paths| < 99_999_998 ==> forall p :: p in names ==> |names[p]| <= LIMIT
    ensures NamedInOrder(names, paths, |paths|)
  {
    hide IsChoice, NamesHold, NamedInOrder, Safe, NamesOf;
    names := map[];
    var chosen: set<string> := {};
    NothingNamed(paths);
    for i := 0 to |paths|
      invariant chosen == names.Values && |chosen| <= i
      invariant NamesHold(names, |paths|) && NamedInOrder(names, paths, i)
    {
      var path := paths[i];
      AllNamed(names, paths, i);
      if path in names {
        continue;
      }
      var name := FreeName(chosen, path);
      NamedNext(names, paths, i, name);
      NewNameHolds(names, path, name, |paths|);
      ValuesGrow(names, path, name);
      names := names[path := name];
      chosen := chosen + {name};
    }
    AllHold(names, paths);
  }

  lemma NothingNamed(paths: seq<Path>)
    ensures NamesHold(map[], |paths|) && NamedInOrder(map[], paths, 0)
  {
  }

  lemma AllHold(names: map<Path, string>, paths: seq<Path>)
    requires NamesHold(names, |paths|) && NamedInOrder(names, paths, |paths|)
    ensures names.Keys == (set p | p in paths) && Injective(names)
    ensures forall p :: p in names ==> Safe(names[p])
    ensures |paths| < 99_999_998 ==> forall p :: p in names ==> |names[p]| <= LIMIT
  {
    assert paths[..|paths|] == paths;
  }

  // The names so far are those of the earlier paths; a repeated path needs no other.
  lemma AllNamed(names: map<Path, string>, paths: seq<Path>, i: nat)
    requires i < |paths| && NamedInOrder(names, paths, i)
    ensures NamesOf(names, paths[..i]) == names.Values
    ensures paths[i] in names ==> NamedInOrder(names, paths, i + 1)
  {
    hide IsChoice;
    PrefixGrows(paths, i);
  }

  lemma PrefixGrows(paths: seq<Path>, i: nat)
    requires i < |paths|
    ensures forall p :: p in paths[..i + 1] <==> p in paths[..i] || p == paths[i]
  {
    assert paths[..i + 1] == paths[..i] + [paths[i]];
  }

  lemma NamedNext(names: map<Path, string>, paths: seq<Path>, i: nat, name: string)
    requires i < |paths| && paths[i] !in names && NamedInOrder(names, paths, i)
    requires IsChoice(names.Values, paths[i], name)
    ensures NamedInOrder(names[paths[i] := name], paths, i + 1)
  {
    hide IsChoice;
    var more := names[paths[i] := name];
    AllNamed(names, paths, i);
    PrefixGrows(paths, i);
    forall k: nat | k < i + 1 && FirstAt(paths, k)
      ensures paths[k] in more && IsChoice(NamesOf(more, paths[..k]), paths[k], more[paths[k]])
    {
      assert forall p :: p in paths[..k] ==> p in paths[..i];
      assert NamesOf(more, paths[..k]) == NamesOf(names, paths[..k]);
      assert k < i ==> paths[k] in paths[..i];
    }
  }

  lemma NewNameHolds(names: map<Path, string>, path: Path, name: string, total: nat)
    requires NamesHold(names, total) && path !in names && IsChoice(names.Values, path, name)
    requires Safe(name) && (total < 99_999_998 ==> |name| <= LIMIT)
    ensures NamesHold(names[path := name], total)
  {
    hide Safe, Preferred, Numbered;
    assert name !in names.Values;
    forall p | p in names ensures names[p] != name {
      assert names[p] in names.Values;
    }
  }

  lemma ValuesGrow(names: map<Path, string>, path: Path, name: string)
    requires path !in names
    ensures names[path := name].Values == names.Values + {name}
  {
    var more := names[path := name];
    assert forall p :: p in names ==> more[p] == names[p];
    assert more[path] == name;
  }

  // Distinct paths never share a base name.
  predicate BasesDiffer(paths: seq<Path>) {
    forall p, q :: p in paths && q in paths && Base(p) == Base(q) ==> p == q
  }

  /** Files whose names do not collide keep them, cut to the limit; no parent directory shows. */
  lemma {:induction false} DistinctBasesAreKept(names: map<Path, string>, paths: seq<Path>, k: nat)
    requires NamedInOrder(names, paths, |paths|) && BasesDiffer(paths) && k < |paths|
    requires forall p :: p in paths ==> |Base(p)| <= LIMIT
    ensures paths[k] in names && names[paths[k]] == Base(paths[k])
    decreases k
  {
    hide Base, Cap;
    forall j: nat | j < k ensures paths[j] in names && names[paths[j]] == Base(paths[j]) {
      DistinctBasesAreKept(names, paths, j);
    }
    if paths[k] !in paths[..k] {
      assert FirstAt(paths, k);
      var chosen := NamesOf(names, paths[..k]);
      assert Base(paths[k]) !in chosen;
      assert Prefixed(chosen, paths[k], 0) == Base(paths[k]);
    }
  }
}
