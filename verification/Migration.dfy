/**
 The merge of one database into another: users by email, skills by slug, versions by number and
 content, and everything below them re-keyed so that every reference still resolves.
 */
module Migration {
  import opened Decimals
  import opened Wrappers

  type Id = string

  // In the order they are merged.
  datatype Table = Users | Skills | Versions | Favorites | Endpoints | Conversations | Runs | Messages | Files

  datatype Column =
    | OwnerId | CreatedById | ReviewedById | UserId | SkillId | SkillVersionId | EndpointId | ConversationId | RunId

  /**
   A row's key, its references (null ones left out), the text it is merged by (an email, a
   slug, a version number) and the digest of its content.
   */
  datatype Row = Row(id: Id, refs: map<Column, Id>, name: string, digest: string)

  type Database = map<Table, seq<Row>>

  // Keys drawn at random, and case folding.
  datatype Env = Env(newId: set<Id> -> Id, fold: string -> string)

  function Rank(t: Table): nat {
    match t
    case Users => 0
    case Skills => 1
    case Versions => 2
    case Favorites => 3
    case Endpoints => 4
    case Conversations => 5
    case Runs => 6
    case Messages => 7
    case Files => 8
  }

  function TableAt(rank: nat): (t: Table)
    requires rank < 9
    ensures Rank(t) == rank
  {
    [Users, Skills, Versions, Favorites, Endpoints, Conversations, Runs, Messages, Files][rank]
  }

  function Parent(c: Column): Table {
    match c
    case OwnerId | CreatedById | ReviewedById | UserId => Users
    case SkillId => Skills
    case SkillVersionId => Versions
    case EndpointId => Endpoints
    case ConversationId => Conversations
    case RunId => Runs
  }

  // Rows refer only to tables merged earlier, and have the references they are merged by.
  predicate Typed(t: Table, row: Row) {
    && (forall c :: c in row.refs ==> Rank(Parent(c)) < Rank(t))
    && (t == Versions ==> SkillId in row.refs)
    && (t == Favorites ==> UserId in row.refs && SkillId in row.refs)
    && (t == Endpoints ==> SkillVersionId in row.refs)
  }

  predicate WellTyped(db: Database) {
    (forall t: Table :: t in db) && forall t, i :: t in db && 0 <= i < |db[t]| ==> Typed(t, db[t][i])
  }

  function Ids(rows: seq<Row>): (s: set<Id>)
    ensures forall i :: 0 <= i < |rows| ==> rows[i].id in s
    ensures forall id :: id in s ==> exists i :: 0 <= i < |rows| && rows[i].id == id
  {
    set i | 0 <= i < |rows| :: rows[i].id
  }

  predicate KeysUnique(rows: seq<Row>) {
    forall i, j :: 0 <= i < j < |rows| ==> rows[i].id != rows[j].id
  }

  // ---------- renaming ----------

  function Variant(stem: string, separator: string, n: nat): string {
    if n <= 1 then stem else stem + separator + Decimal(n)
  }

  lemma VariantsDiffer(stem: string, separator: string, a: nat, c: nat)
    requires 1 <= a < c && separator != ""
    ensures Variant(stem, separator, a) != Variant(stem, separator, c)
  {
    if a > 1 && Variant(stem, separator, a) == Variant(stem, separator, c) {
      var s := Variant(stem, separator, a);
      assert s[|stem| + |separator|..] == Decimal(a);
      assert s[|stem| + |separator|..] == Decimal(c);
      DecimalInjective(a, c);
    }
  }

  lemma {:induction false} TriedAreMany(stem: string, separator: string, occupied: set<string>, n: nat)
    returns (tried: set<string>)
    requires separator != "" && forall k :: 1 <= k <= n ==> Variant(stem, separator, k) in occupied
    ensures tried <= occupied && |tried| == n
    ensures forall v :: v in tried ==> exists k :: 1 <= k <= n && v == Variant(stem, separator, k)
  {
    tried := {};
    if n > 0 {
      var before := TriedAreMany(stem, separator, occupied, n - 1);
      var last := Variant(stem, separator, n);
      if last in before {
        var k :| 1 <= k <= n - 1 && last == Variant(stem, separator, k);
        VariantsDiffer(stem, separator, k, n);
      }
      tried := before + {last};
    }
  }

  lemma OccupiedBounds(stem: string, separator: string, occupied: set<string>, n: nat)
    requires separator != "" && forall k :: 1 <= k <= n ==> Variant(stem, separator, k) in occupied
    ensures n <= |occupied|
  {
    var tried := TriedAreMany(stem, separator, occupied, n);
    assert occupied == tried + (occupied - tried);
  }

  // The first free variant; distinct numbers give distinct variants, so there is one.
  function FirstFree(stem: string, separator: string, occupied: set<string>, n: nat): (r: string)
    requires n >= 1 && separator != "" && forall k :: 1 <= k < n ==> Variant(stem, separator, k) in occupied
    ensures r !in occupied
    ensures exists k :: k >= n && r == Variant(stem, separator, k)
                        && forall j :: n <= j < k ==> Variant(stem, separator, j) in occupied
    decreases |occupied| + 1 - n
  {
    OccupiedBounds(stem, separator, occupied, n - 1);
    if Variant(stem, separator, n) !in occupied then Variant(stem, separator, n)
    else
      OccupiedBounds(stem, separator, occupied, n);
      FirstFree(stem, separator, occupied, n + 1)
  }

  // A version number without its build part.
  function BeforeBuild(version: string): (r: string)
    ensures r <= version && '+' !in r && (r == version || version[|r|] == '+')
  {
    if version == "" || version[0] == '+' then "" else [version[0]] + BeforeBuild(version[1..])
  }

  // The text is the given one or its first renaming that is free.
  ghost predicate IsFirstVariant(r: string, stem: string, separator: string, occupied: set<string>) {
    exists n :: n >= 1 && r == Variant(stem, separator, n)
                && forall j :: 1 <= j < n ==> Variant(stem, separator, j) in occupied
  }

  function UniqueVersion(base: string, occupied: set<string>): (r: string)
    ensures r !in occupied
    ensures '-' !in BeforeBuild(base) ==> IsFirstVariant(r, BeforeBuild(base) + "-legacy", ".", occupied)
    ensures '-' in BeforeBuild(base) ==> IsFirstVariant(r, BeforeBuild(base) + ".legacy", ".", occupied)
  {
    var version := BeforeBuild(base);
    FirstFree(if '-' in version then version + ".legacy" else version + "-legacy", ".", occupied, 1)
  }

  function UniqueValue(base: string, occupied: set<string>): (r: string)
    ensures r !in occupied && |r| > |base|
    ensures exists n :: n >= 1 && r == Variant(base + "-legacy", "-", n)
    ensures IsFirstVariant(r, base + "-legacy", "-", occupied)
  {
    FirstFree(base + "-legacy", "-", occupied, 1)
  }

  /** The counting loop, for version numbers and slugs alike. */
  method FindFree(stem: string, separator: string, occupied: set<string>) returns (r: string)
    requires separator != ""
    ensures r == FirstFree(stem, separator, occupied, 1)
  {
    r := stem;
    var number := 1;
    while r in occupied
      invariant number >= 1 && r == Variant(stem, separator, number)
      invariant forall k :: 1 <= k < number ==> Variant(stem, separator, k) in occupied
      invariant FirstFree(stem, separator, occupied, 1) == FirstFree(stem, separator, occupied, number)
      decreases |occupied| + 1 - number
    {
      OccupiedBounds(stem, separator, occupied, number);
      number := number + 1;
      r := stem + separator + Decimal(number);
    }
  }

  // ---------- one row ----------

  datatype State = State(tables: Database, maps: map<Table, map<Id, Id>>, occupied: set<string>)

  datatype Decision = MergeInto(id: Id) | Drop | Insert(row: Row)

  // References carried over through the key maps; nothing when one of them is unknown.
  function Carry(maps: map<Table, map<Id, Id>>, row: Row): Option<Row> {
    if forall c :: c in row.refs ==> Parent(c) in maps && row.refs[c] in maps[Parent(c)]
    then Some(row.(refs := map c | c in row.refs :: maps[Parent(c)][row.refs[c]]))
    else None
  }

  ghost predicate IsLast(rows: seq<Row>, p: Row -> bool, k: nat) {
    k < |rows| && p(rows[k]) && forall i :: k < i < |rows| ==> !p(rows[i])
  }

  // The last row with a property, as a dictionary filled in order would hold it.
  function FindLast(rows: seq<Row>, p: Row -> bool): (r: Option<Row>)
    ensures r.Some? ==> r.value in rows && p(r.value)
    ensures r.Some? ==> exists k: nat :: IsLast(rows, p, k) && rows[k] == r.value
    ensures r.None? ==> forall i :: 0 <= i < |rows| ==> !p(rows[i])
  {
    if rows == [] then None
    else if p(rows[|rows| - 1]) then
      assert IsLast(rows, p, |rows| - 1);
      Some(rows[|rows| - 1])
    else
      var found := FindLast(rows[..|rows| - 1], p);
      assert forall k: nat :: IsLast(rows[..|rows| - 1], p, k) ==> IsLast(rows, p, k);
      found
  }

  function Ref(row: Row, c: Column): Option<Id> {
    if c in row.refs then Some(row.refs[c]) else None
  }

  function VersionsOf(rows: seq<Row>, skill: Option<Id>): (s: set<string>)
    ensures forall i :: 0 <= i < |rows| && Ref(rows[i], SkillId) == skill ==> rows[i].name in s
    ensures forall v :: v in s ==> exists i :: 0 <= i < |rows| && Ref(rows[i], SkillId) == skill && rows[i].name == v
  {
    set i | 0 <= i < |rows| && Ref(rows[i], SkillId) == skill :: rows[i].name
  }

  // Two rows that may not stand in the same table.
  predicate Clash(env: Env, t: Table, a: Row, b: Row) {
    match t
    case Users | Skills => env.fold(a.name) == env.fold(b.name)
    case Versions => Ref(a, SkillId) == Ref(b, SkillId) && a.name == b.name
    case Favorites => Ref(a, UserId) == Ref(b, UserId) && Ref(a, SkillId) == Ref(b, SkillId)
    case Endpoints => a.name == b.name
    case _ => false
  }

  // The target row that a carried row is looked up by: same folded name, same number, same pair.
  predicate Matches(env: Env, t: Table, row: Row, r: Row) {
    match t
    case Users | Skills | Endpoints => env.fold(r.name) == env.fold(row.name)
    case Versions => Ref(r, SkillId) == Ref(row, SkillId) && r.name == row.name
    case Favorites => Ref(r, UserId) == Ref(row, UserId) && Ref(r, SkillId) == Ref(row, SkillId)
    case _ => false
  }

  function Matching(env: Env, t: Table, row: Row): Row -> bool {
    (r: Row) => Matches(env, t, row, r)
  }

  // What it must have besides to be the same thing.
  predicate SameContent(t: Table, row: Row, r: Row) {
    match t
    case Versions => r.digest == row.digest
    case Endpoints => Ref(r, SkillVersionId) == Ref(row, SkillVersionId)
    case _ => true
  }

  ghost predicate LastMatch(env: Env, t: Table, rows: seq<Row>, row: Row, k: nat) {
    && k < |rows| && Matches(env, t, row, rows[k])
    && forall i :: k < i < |rows| ==> !Matches(env, t, row, rows[i])
  }

  // A name that a row gets when its own is taken.
  ghost predicate IsLegacyName(t: Table, own: string, name: string) {
    if t == Endpoints then IsVariant(name, own + "-legacy", "-")
    else if '-' in BeforeBuild(own) then IsVariant(name, BeforeBuild(own) + ".legacy", ".")
    else IsVariant(name, BeforeBuild(own) + "-legacy", ".")
  }

  ghost predicate IsVariant(name: string, stem: string, separator: string) {
    exists n :: n >= 1 && name == Variant(stem, separator, n)
  }

  /**
   The same thing on both sites: a user or skill with the same folded name, a version with the
   same skill, number and content, the same favorite, an endpoint with the same folded slug and
   version; in every other table a row with the same references and content.
   */
  predicate SameThing(env: Env, t: Table, row: Row, r: Row) {
    match t
    case Users | Skills => env.fold(r.name) == env.fold(row.name)
    case Versions => Ref(r, SkillId) == Ref(row, SkillId) && r.name == row.name && r.digest == row.digest
    case Favorites => Ref(r, UserId) == Ref(row, UserId) && Ref(r, SkillId) == Ref(row, SkillId)
    case Endpoints => env.fold(r.name) == env.fold(row.name) && Ref(r, SkillVersionId) == Ref(row, SkillVersionId)
    case _ => r.refs == row.refs && r.name == row.name && r.digest == row.digest
  }

  // A row that keeps a version from its number, or an endpoint from its slug.
  predicate TakesName(env: Env, t: Table, row: Row, q: Row) {
    match t
    case Versions => Ref(q, SkillId) == Ref(row, SkillId) && q.name == row.name && q.digest != row.digest
    case Endpoints => env.fold(q.name) == env.fold(row.name) && Ref(q, SkillVersionId) != Ref(row, SkillVersionId)
    case _ => false
  }

  /**
   A target row that can stand for a carried row: the same thing, or, when another row has taken
   the number of a version or the slug of an endpoint, that version or endpoint under a new name.
   */
  ghost predicate Stands(env: Env, t: Table, rows: seq<Row>, row: Row, r: Row) {
    || SameThing(env, t, row, r)
    || (&& r.refs == row.refs && r.digest == row.digest && IsLegacyName(t, row.name, r.name)
        && exists q :: q in rows && TakesName(env, t, row, q))
  }

  function Decide(env: Env, t: Table, rows: seq<Row>, occupied: set<string>, row: Row): (d: Decision)
    ensures d.MergeInto? ==> t != Favorites && exists r :: r in rows && r.id == d.id
    ensures d.Drop? ==> t == Favorites
    ensures d.Insert? ==> d.row == row.(name := d.row.name)
    ensures d.Insert? && t != Versions && t != Endpoints ==> d.row.name == row.name
    ensures d.Insert? && t != Endpoints ==> forall i :: 0 <= i < |rows| ==> !Clash(env, t, rows[i], d.row)
  {
    var found := FindLast(rows, Matching(env, t, row));
    match t
    case Users | Skills => if found.Some? then MergeInto(found.value.id) else Insert(row)
    case Versions =>
      if found.None? then Insert(row)
      else if found.value.digest == row.digest then MergeInto(found.value.id)
      else Insert(row.(name := UniqueVersion(row.name, VersionsOf(rows, Ref(row, SkillId)))))
    case Favorites => if found.Some? then Drop else Insert(row)
    case Endpoints =>
      if found.None? then Insert(row)
      else if Ref(found.value, SkillVersionId) == Ref(row, SkillVersionId) then MergeInto(found.value.id)
      else Insert(row.(name := UniqueValue(row.name, occupied)))
    case _ => Insert(row)
  }

  /**
   What becomes of a carried row, decided by the last row that matches it: it is that row, when
   the content is the same too; it goes in as it is when nothing matches; and otherwise it goes
   in under a new name.
   */
  ghost predicate WellDecided(env: Env, t: Table, rows: seq<Row>, row: Row, d: Decision) {
    if forall i :: 0 <= i < |rows| ==> !Matches(env, t, row, rows[i]) then d == Insert(row)
    else exists k: nat :: LastMatch(env, t, rows, row, k) && DecidedBy(t, row, rows[k], d)
  }

  ghost predicate DecidedBy(t: Table, row: Row, r: Row, d: Decision) {
    if t == Favorites then d == Drop
    else if SameContent(t, row, r) then d == MergeInto(r.id)
    else d.Insert? && d.row == row.(name := d.row.name) && IsLegacyName(t, row.name, d.row.name)
  }

  lemma NewNameIsLegacy(own: string, versions: set<string>, slugs: set<string>)
    ensures IsLegacyName(Versions, own, UniqueVersion(own, versions))
    ensures IsLegacyName(Endpoints, own, UniqueValue(own, slugs))
  {
    hide UniqueVersion, UniqueValue, BeforeBuild, Variant;
  }

  lemma DecisionIsExact(env: Env, t: Table, rows: seq<Row>, occupied: set<string>, row: Row)
    ensures WellDecided(env, t, rows, row, Decide(env, t, rows, occupied, row))
  {
    hide FindLast, UniqueVersion, UniqueValue, Clash, BeforeBuild, Variant, VersionsOf;
    NewNameIsLegacy(row.name, VersionsOf(rows, Ref(row, SkillId)), occupied);
    hide IsLegacyName;
    var found := FindLast(rows, Matching(env, t, row));
    if found.Some? {
      var k: nat :| IsLast(rows, Matching(env, t, row), k) && rows[k] == found.value;
      assert LastMatch(env, t, rows, row, k);
      assert DecidedBy(t, row, rows[k], Decide(env, t, rows, occupied, row));
    }
  }

  /**
   A version goes in under its own number exactly when its skill has none of that number; it is
   merged only into the same number with the same content, and renamed, to a number that is
   free, only when its own is taken with other content.
   */
  lemma VersionDecision(env: Env, rows: seq<Row>, occupied: set<string>, row: Row)
    ensures var d := Decide(env, Versions, rows, occupied, row);
            && (d == Insert(row) <==>
                forall i :: 0 <= i < |rows| && Ref(rows[i], SkillId) == Ref(row, SkillId) ==> rows[i].name != row.name)
            && (d.MergeInto? ==>
                  exists i :: 0 <= i < |rows| && rows[i].id == d.id && Ref(rows[i], SkillId) == Ref(row, SkillId)
                              && rows[i].name == row.name && rows[i].digest == row.digest)
            && (d.Insert? && d.row != row ==>
                  exists i :: 0 <= i < |rows| && Ref(rows[i], SkillId) == Ref(row, SkillId)
                              && rows[i].name == row.name && rows[i].digest != row.digest)
            && (d.Insert? ==>
                forall i :: 0 <= i < |rows| && Ref(rows[i], SkillId) == Ref(row, SkillId) ==>
                  rows[i].name != d.row.name)
  {
    hide Decide, FindLast, IsLegacyName;
    DecisionIsExact(env, Versions, rows, occupied, row);
    var d := Decide(env, Versions, rows, occupied, row);
    assert d.Insert? ==> forall i :: 0 <= i < |rows| ==> !Clash(env, Versions, rows[i], d.row);
    assert forall i :: 0 <= i < |rows| ==>
      (Matches(env, Versions, row, rows[i]) <==> Clash(env, Versions, rows[i], row));
  }

  // A key already taken is replaced by a new one.
  function AvailableId(env: Env, id: Id, existing: set<Id>): Id {
    if id in existing then env.newId(existing) else id
  }

  function Names(rows: seq<Row>): (s: set<string>)
    ensures forall i :: 0 <= i < |rows| ==> rows[i].name in s
    ensures forall v :: v in s ==> exists i :: 0 <= i < |rows| && rows[i].name == v
  {
    set i | 0 <= i < |rows| :: rows[i].name
  }

  // Nothing when a reference is unknown or the index of endpoint slugs rejects the new row.
  function Step(env: Env, t: Table, s: State, row: Row): (r: Option<State>)
    requires t in s.tables && t in s.maps
    ensures r.Some? ==> forall u :: u in s.tables && u in s.maps ==> u in r.value.tables && u in r.value.maps
  {
    var carried := Carry(s.maps, row);
    if carried.None? then None else
    var rows := s.tables[t];
    match Decide(env, t, rows, s.occupied, carried.value)
    case MergeInto(id) => Some(s.(maps := s.maps[t := s.maps[t][row.id := id]]))
    case Drop => Some(s)
    case Insert(placed) =>
      if t == Endpoints && placed.name in Names(rows) then None else
      var id := AvailableId(env, row.id, Ids(rows));
      Some(State(
        s.tables[t := rows + [placed.(id := id)]],
        if t == Favorites then s.maps else s.maps[t := s.maps[t][row.id := id]],
        if t == Endpoints && placed.name != row.name then s.occupied + {placed.name} else s.occupied))
  }

  /**
   What a row that could be placed has done to its table: nothing but a new entry in the key map
   when it was merged, nothing at all for a favorite already there, and otherwise one more row,
   under its own key if that is free.  A renamed slug is then taken too.
   */
  lemma StepOutcome(env: Env, t: Table, s: State, row: Row)
    requires HasAll(s) && Step(env, t, s, row).Some?
    ensures Carry(s.maps, row).Some?
    ensures var u, rows := Step(env, t, s, row).value, s.tables[t];
            match Decide(env, t, rows, s.occupied, Carry(s.maps, row).value)
            case MergeInto(id) => u == State(s.tables, s.maps[t := s.maps[t][row.id := id]], s.occupied)
            case Drop => u == s
            case Insert(placed) =>
              var id := if row.id in Ids(rows) then env.newId(Ids(rows)) else row.id;
              && u.tables == s.tables[t := rows + [Row(id, placed.refs, placed.name, row.digest)]]
              && (t != Favorites ==> u.maps == s.maps[t := s.maps[t][row.id := id]])
              && (t == Favorites ==> u.maps == s.maps)
              && (t == Endpoints && placed.name != row.name ==> u.occupied == s.occupied + {placed.name})
              && (t != Endpoints || placed.name == row.name ==> u.occupied == s.occupied)
  {
    hide Decide, Carry, Ids, Names, Clash;
    CarriedKeepsId(s.maps, row);
  }

  // ---------- all rows ----------

  function MergeRows(env: Env, t: Table, s: State, rows: seq<Row>): (r: Option<State>)
    requires t in s.tables && t in s.maps
    ensures r.Some? ==> t in r.value.tables && t in r.value.maps
    ensures r.Some? ==> forall u :: u in s.tables && u in s.maps ==> u in r.value.tables && u in r.value.maps
  {
    if rows == [] then Some(s) else
    var before := MergeRows(env, t, s, rows[..|rows| - 1]);
    if before.None? then None else Step(env, t, before.value, rows[|rows| - 1])
  }

  predicate HasAll(s: State) {
    forall t: Table :: t in s.tables && t in s.maps
  }

  function MergeTables(env: Env, source: Database, s: State, n: nat): (r: Option<State>)
    requires n <= 9 && HasAll(s) && forall t: Table :: t in source
    ensures r.Some? ==> HasAll(r.value)
  {
    if n == 0 then Some(s) else
    var before := MergeTables(env, source, s, n - 1);
    if before.None? then None else MergeRows(env, TableAt(n - 1), before.value, source[TableAt(n - 1)])
  }

  function FoldedNames(env: Env, rows: seq<Row>): set<string> {
    set i | 0 <= i < |rows| :: env.fold(rows[i].name)
  }

  function Start(env: Env, target: Database): (s: State)
    requires forall t: Table :: t in target
    ensures HasAll(s)
  {
    State(target, map t | t in target :: map[], FoldedNames(env, target[Endpoints]))
  }

  /** The whole merge; a row that cannot be placed aborts it, and the transaction leaves the target as it was. */
  method Migrate(env: Env, source: Database, target: Database) returns (r: Option<State>)
    requires forall t: Table :: t in source && t in target
    ensures r == MergeTables(env, source, Start(env, target), 9)
  {
    hide Step;
    var s := Start(env, target);
    for n := 0 to 9
      invariant HasAll(s) && MergeTables(env, source, Start(env, target), n) == Some(s)
    {
      var t := TableAt(n);
      ghost var before := s;
      for k := 0 to |source[t]|
        invariant HasAll(s) && MergeRows(env, t, before, source[t][..k]) == Some(s)
      {
        assert source[t][..k + 1][..k] == source[t][..k];
        var next := Step(env, t, s, source[t][k]);
        if next.None? {
          RowsAbort(env, t, before, source[t], k + 1);
          TablesAbort(env, source, Start(env, target), n + 1);
          return None;
        }
        s := next.value;
      }
      assert source[t][..|source[t]|] == source[t];
    }
    r := Some(s);
  }

  lemma {:induction false} RowsAbort(env: Env, t: Table, s: State, rows: seq<Row>, k: nat)
    requires t in s.tables && t in s.maps && k <= |rows| && MergeRows(env, t, s, rows[..k]).None?
    ensures MergeRows(env, t, s, rows).None?
    decreases |rows|
  {
    if k == |rows| {
      assert rows[..k] == rows;
    } else {
      assert rows[..|rows| - 1][..k] == rows[..k];
      RowsAbort(env, t, s, rows[..|rows| - 1], k);
    }
  }

  lemma {:induction false} TablesAbort(env: Env, source: Database, s: State, n: nat)
    requires n <= 9 && HasAll(s) && (forall t: Table :: t in source) && MergeTables(env, source, s, n).None?
    ensures MergeTables(env, source, s, 9).None?
    decreases 9 - n
  {
    if n < 9 {
      TablesAbort(env, source, s, n + 1);
    }
  }

  // ---------- what the merge keeps ----------

  // No row from position `from` on clashes with an earlier one.
  predicate NoClash(env: Env, t: Table, rows: seq<Row>, from: nat) {
    forall i, j :: 0 <= i < j < |rows| && from <= j ==> !Clash(env, t, rows[i], rows[j])
  }

  // A row that came from the source, with its references carried over.
  ghost predicate IsImage(maps: map<Table, map<Id, Id>>, src: seq<Row>, done: nat, t: Table, row: Row)
    requires t in maps
  {
    exists i :: 0 <= i < |src| && i < done && ImageOf(maps, t, src[i], row)
  }

  predicate ImageOf(maps: map<Table, map<Id, Id>>, t: Table, from: Row, row: Row)
    requires t in maps
  {
    && Carry(maps, from).Some? && Carry(maps, from).value.refs == row.refs
    && row.digest == from.digest && (t != Versions && t != Endpoints ==> row.name == from.name)
    && (t != Favorites ==> from.id in maps[t] && maps[t][from.id] == row.id)
  }

  // A source row is represented in the target: inserted, merged, or already there.
  ghost predicate Represented(env: Env, s: State, t: Table, from: Row)
    requires HasAll(s)
  {
    && Carry(s.maps, from).Some?
    && exists j :: 0 <= j < |s.tables[t]| && Represents(env, s, t, from, s.tables[t][j])
  }

  ghost predicate Represents(env: Env, s: State, t: Table, from: Row, r: Row)
    requires HasAll(s) && Carry(s.maps, from).Some?
  {
    && Stands(env, t, s.tables[t], Carry(s.maps, from).value, r)
    && (t != Favorites ==> from.id in s.maps[t] && s.maps[t][from.id] == r.id)
  }

  ghost predicate AllRepresented(env: Env, s: State, src: seq<Row>, t: Table, done: nat)
    requires HasAll(s)
  {
    forall i :: 0 <= i < |src| && i < done ==> Represented(env, s, t, src[i])
  }

  function IdsUpTo(src: seq<Row>, done: nat): set<Id> {
    set i | 0 <= i < |src| && i < done :: src[i].id
  }

  lemma IdsUpToNext(src: seq<Row>, k: nat)
    requires k < |src|
    ensures IdsUpTo(src, k + 1) == IdsUpTo(src, k) + {src[k].id}
  {
  }

  ghost predicate KeysHold(s: State, src: seq<Row>, target: seq<Row>, t: Table, done: nat)
    requires HasAll(s)
  {
    && target <= s.tables[t] && KeysUnique(s.tables[t])
    && (forall id :: id in s.maps[t] ==> s.maps[t][id] in Ids(s.tables[t]))
    && (t != Favorites ==> s.maps[t].Keys == IdsUpTo(src, done))
    && (forall i :: 0 <= i < |src| && i < done ==> Carry(s.maps, src[i]).Some?)
  }

  ghost predicate ImagesHold(s: State, src: seq<Row>, target: seq<Row>, t: Table, done: nat)
    requires HasAll(s)
  {
    forall j :: |target| <= j < |s.tables[t]| ==> IsImage(s.maps, src, done, t, s.tables[t][j])
  }

  ghost predicate TableHolds(env: Env, s: State, src: seq<Row>, target: seq<Row>, t: Table, done: nat)
    requires HasAll(s)
  {
    && KeysHold(s, src, target, t, done) && ImagesHold(s, src, target, t, done)
    && NoClash(env, t, s.tables[t], |target|) && AllRepresented(env, s, src, t, done)
  }

  // How many rows of a table are merged when `k` rows of table number `n` are.
  function DoneRows(rows: seq<Row>, t: Table, n: nat, k: nat): nat {
    if Rank(t) < n then |rows| else if Rank(t) == n then k else 0
  }

  ghost predicate Merging(env: Env, s: State, source: Database, target: Database, n: nat, k: nat) {
    && HasAll(s) && (forall t: Table :: t in source && t in target)
    && forall t: Table :: TableHolds(env, s, source[t], target[t], t, DoneRows(source[t], t, n, k))
  }

  lemma CarryStays(maps: map<Table, map<Id, Id>>, t: Table, m: map<Id, Id>, u: Table, row: Row)
    requires Typed(u, row) && Rank(u) <= Rank(t)
    ensures Carry(maps[t := m], row) == Carry(maps, row)
  {
    forall c | c in row.refs ensures Parent(c) != t {
      assert Rank(Parent(c)) < Rank(u);
    }
    var after := maps[t := m];
    assert forall c :: c in row.refs ==> (Parent(c) in after <==> Parent(c) in maps);
    assert forall c :: c in row.refs && Parent(c) in maps ==> after[Parent(c)] == maps[Parent(c)];
    hide Parent;
    var a, b := Carry(after, row), Carry(maps, row);
    assert a.Some? <==> b.Some?;
    if a.Some? {
      assert a.value.refs == b.value.refs;
    }
  }

  // The new state of one step, in terms of what was decided.
  predicate Stepped(env: Env, t: Table, s: State, row: Row, u: State)
    requires t in s.tables && t in s.maps
  {
    && Carry(s.maps, row).Some?
    && var rows := s.tables[t];
       match Decide(env, t, rows, s.occupied, Carry(s.maps, row).value)
       case MergeInto(id) => u.tables == s.tables && u.maps == s.maps[t := s.maps[t][row.id := id]]
       case Drop => u.tables == s.tables && u.maps == s.maps
       case Insert(placed) =>
         var id := AvailableId(env, row.id, Ids(rows));
         && (t == Endpoints ==> placed.name !in Names(rows))
         && u.tables == s.tables[t := rows + [placed.(id := id)]]
         && u.maps == if t == Favorites then s.maps else s.maps[t := s.maps[t][row.id := id]]
  }

  // Drawn keys are new.
  ghost predicate Random(env: Env) {
    forall existing: set<Id> :: env.newId(existing) !in existing
  }

  // Nothing that the table's own rows depend on has changed.
  ghost predicate Unaffected(s: State, u: State, src: seq<Row>, t: Table, done: nat)
    requires HasAll(s) && HasAll(u)
  {
    && u.tables[t] == s.tables[t] && u.maps[t] == s.maps[t]
    && forall i :: 0 <= i < |src| && i < done ==> Carry(u.maps, src[i]) == Carry(s.maps, src[i])
  }

  lemma OtherTableUnaffected(s: State, u: State, src: seq<Row>, t: Table, done: nat, x: Table, m: map<Id, Id>)
    requires HasAll(s) && HasAll(u) && t != x
    requires u.tables[t] == s.tables[t] && u.maps == s.maps[x := m]
    requires forall i :: 0 <= i < |src| && i < done ==> Typed(t, src[i]) && Rank(t) <= Rank(x)
    ensures Unaffected(s, u, src, t, done)
  {
    forall i | 0 <= i < |src| && i < done ensures Carry(u.maps, src[i]) == Carry(s.maps, src[i]) {
      CarryStays(s.maps, x, m, t, src[i]);
    }
  }

  lemma ImagesStay(s: State, u: State, src: seq<Row>, target: seq<Row>, t: Table, done: nat)
    requires HasAll(s) && HasAll(u) && Unaffected(s, u, src, t, done) && ImagesHold(s, src, target, t, done)
    ensures ImagesHold(u, src, target, t, done)
  {
  }

  lemma UnaffectedTableHolds(env: Env, s: State, u: State, src: seq<Row>, target: seq<Row>, t: Table, done: nat)
    requires HasAll(s) && HasAll(u) && Unaffected(s, u, src, t, done) && TableHolds(env, s, src, target, t, done)
    ensures TableHolds(env, u, src, target, t, done)
  {
    hide NoClash, KeysUnique, ImagesHold, Represented;
    ImagesStay(s, u, src, target, t, done);
    forall i | 0 <= i < |src| && i < done ensures Represented(env, u, t, src[i]) {
      assert Represented(env, s, t, src[i]);
      RepresentedStays(env, s, u, t, src[i]);
    }
    hide Carry;
  }

  lemma FreshKey(env: Env, rows: seq<Row>, placed: Row)
    requires Random(env) && KeysUnique(rows)
    ensures AvailableId(env, placed.id, Ids(rows)) !in Ids(rows)
    ensures KeysUnique(rows + [placed.(id := AvailableId(env, placed.id, Ids(rows)))])
  {
    var id := AvailableId(env, placed.id, Ids(rows));
    assert id !in Ids(rows);
  }

  lemma NewRowIsClear(env: Env, t: Table, rows: seq<Row>, occupied: set<string>, row: Row, id: Id)
    requires Decide(env, t, rows, occupied, row).Insert?
    requires t == Endpoints ==> Decide(env, t, rows, occupied, row).row.name !in Names(rows)
    ensures forall i :: 0 <= i < |rows| ==>
              !Clash(env, t, rows[i], Decide(env, t, rows, occupied, row).row.(id := id))
  {
    hide Decide, FindLast;
    var placed := Decide(env, t, rows, occupied, row).row;
    forall i | 0 <= i < |rows| ensures !Clash(env, t, rows[i], placed.(id := id)) {
      if t != Endpoints {
        assert !Clash(env, t, rows[i], placed);
      } else {
        assert rows[i].name in Names(rows);
      }
    }
  }

  lemma NoClashGrows(env: Env, t: Table, rows: seq<Row>, row: Row, from: nat)
    requires NoClash(env, t, rows, from) && forall i :: 0 <= i < |rows| ==> !Clash(env, t, rows[i], row)
    ensures NoClash(env, t, rows + [row], from)
  {
    hide Clash;
  }

  // The rows of the table being merged.
  lemma RowsHold(env: Env, t: Table, s: State, row: Row, u: State, from: nat)
    requires HasAll(s) && HasAll(u) && Stepped(env, t, s, row, u) && Random(env)
    requires KeysUnique(s.tables[t]) && NoClash(env, t, s.tables[t], from)
    ensures s.tables[t] <= u.tables[t] && KeysUnique(u.tables[t]) && NoClash(env, t, u.tables[t], from)
    ensures t != Favorites ==> row.id in u.maps[t] && u.maps[t] == s.maps[t][row.id := u.maps[t][row.id]]
                               && u.maps[t][row.id] in Ids(u.tables[t])
    ensures t == Favorites ==> u.maps == s.maps
    ensures |u.tables[t]| > |s.tables[t]| ==>
              && |u.tables[t]| == |s.tables[t]| + 1
              && u.tables[t][|s.tables[t]|].refs == Carry(s.maps, row).value.refs
              && u.tables[t][|s.tables[t]|].digest == row.digest
              && (t != Versions && t != Endpoints ==> u.tables[t][|s.tables[t]|].name == row.name)
              && (t != Favorites ==> u.tables[t][|s.tables[t]|].id == u.maps[t][row.id])
  {
    hide Carry, AvailableId, Decide, Clash, Names, NoClash, KeysUnique, Stands, Random, Ids;
    var rows := s.tables[t];
    var carried := Carry(s.maps, row).value;
    var d := Decide(env, t, rows, s.occupied, carried);
    if d.Insert? {
      CarriedKeepsId(s.maps, row);
      FreshKey(env, rows, d.row);
      var id := AvailableId(env, row.id, Ids(rows));
      NewRowIsClear(env, t, rows, s.occupied, carried, id);
      NoClashGrows(env, t, rows, d.row.(id := id), from);
      assert u.tables[t] == rows + [d.row.(id := id)];
      assert u.tables[t][|rows|].id == id;
      assert id in Ids(u.tables[t]);
    }
  }

  lemma CarriedKeepsId(maps: map<Table, map<Id, Id>>, row: Row)
    requires Carry(maps, row).Some?
    ensures Carry(maps, row).value == row.(refs := Carry(maps, row).value.refs)
  {
  }

  lemma OwnCarriesStay(env: Env, s: State, u: State, src: seq<Row>, t: Table, k: nat)
    requires HasAll(s) && HasAll(u) && k < |src| && Stepped(env, t, s, src[k], u)
    requires forall i :: 0 <= i < |src| ==> Typed(t, src[i])
    ensures forall i :: 0 <= i < |src| ==> Carry(u.maps, src[i]) == Carry(s.maps, src[i])
    ensures Carry(s.maps, src[k]).Some?
  {
    hide Decide, Carry, AvailableId;
    assert u.maps == s.maps[t := u.maps[t]];
    forall i | 0 <= i < |src| ensures Carry(u.maps, src[i]) == Carry(s.maps, src[i]) {
      CarryStays(s.maps, t, u.maps[t], t, src[i]);
    }
  }

  // One more row of a table has been merged; nothing merged before has changed.
  ghost predicate Advanced(env: Env, s: State, u: State, src: seq<Row>, t: Table, k: nat, from: nat)
    requires HasAll(s) && HasAll(u) && k < |src|
  {
    && s.tables[t] <= u.tables[t] && KeysUnique(u.tables[t]) && NoClash(env, t, u.tables[t], from)
    && (if t == Favorites then u.maps[t] == s.maps[t] else
          && u.maps[t].Keys == s.maps[t].Keys + {src[k].id}
          && (forall id :: id in s.maps[t] && id != src[k].id ==> u.maps[t][id] == s.maps[t][id])
          && u.maps[t][src[k].id] in Ids(u.tables[t]))
    && (forall i :: 0 <= i < |src| ==> Carry(u.maps, src[i]) == Carry(s.maps, src[i]))
    && Carry(u.maps, src[k]).Some? && Represented(env, u, t, src[k])
    && |u.tables[t]| <= |s.tables[t]| + 1
    && (|u.tables[t]| > |s.tables[t]| ==> ImageOf(u.maps, t, src[k], u.tables[t][|s.tables[t]|]))
  }

  lemma StepAdvances(env: Env, s: State, u: State, src: seq<Row>, t: Table, k: nat, from: nat)
    requires HasAll(s) && HasAll(u) && k < |src| && Stepped(env, t, s, src[k], u) && Random(env)
    requires forall i :: 0 <= i < |src| ==> Typed(t, src[i])
    requires KeysUnique(s.tables[t]) && NoClash(env, t, s.tables[t], from)
    ensures Advanced(env, s, u, src, t, k, from)
  {
    hide Carry, Stepped, NoClash, KeysUnique, Random, Typed, Ids, Represented;
    RowsHold(env, t, s, src[k], u, from);
    OwnCarriesStay(env, s, u, src, t, k);
    RowsGrowByOne(env, t, s, src[k], u);
    RowRepresented(env, t, s, src[k], u);
  }

  lemma RowRepresented(env: Env, t: Table, s: State, row: Row, u: State)
    requires HasAll(s) && HasAll(u) && Stepped(env, t, s, row, u) && Carry(u.maps, row) == Carry(s.maps, row)
    ensures Represented(env, u, t, row)
  {
    hide Carry, AvailableId, Decide, Stands, WellDecided, Names, Ids, Clash;
    var rows, carried := s.tables[t], Carry(s.maps, row).value;
    var d := Decide(env, t, rows, s.occupied, carried);
    DecisionIsExact(env, t, rows, s.occupied, carried);
    DecisionStands(env, t, rows, carried, d);
    match d
    case MergeInto(id) =>
      var r :| r in rows && r.id == id && Stands(env, t, rows, carried, r);
      assert Represents(env, u, t, row, r);
    case Drop =>
      var r :| r in rows && Stands(env, t, rows, carried, r);
      assert Represents(env, u, t, row, r);
    case Insert(placed) => InsertedRepresented(env, t, s, row, u, placed);
  }

  lemma InsertedRepresented(env: Env, t: Table, s: State, row: Row, u: State, placed: Row)
    requires HasAll(s) && HasAll(u) && Stepped(env, t, s, row, u) && Carry(u.maps, row) == Carry(s.maps, row)
    requires Decide(env, t, s.tables[t], s.occupied, Carry(s.maps, row).value) == Insert(placed)
    requires Stands(env, t, s.tables[t], Carry(s.maps, row).value, placed)
    ensures Represented(env, u, t, row)
  {
    hide Carry, AvailableId, Decide, Stands, Names, Ids, Clash;
    var rows, carried := s.tables[t], Carry(s.maps, row).value;
    var r := u.tables[t][|rows|];
    StandsIgnoresId(env, t, rows, carried, placed, r.id);
    StandsStays(env, t, rows, u.tables[t], carried, r);
    assert Represents(env, u, t, row, r);
  }

  lemma DecisionStands(env: Env, t: Table, rows: seq<Row>, row: Row, d: Decision)
    requires WellDecided(env, t, rows, row, d)
    ensures d.MergeInto? ==> t != Favorites && exists r :: r in rows && r.id == d.id && Stands(env, t, rows, row, r)
    ensures d.Drop? ==> t == Favorites && exists r :: r in rows && Stands(env, t, rows, row, r)
    ensures d.Insert? ==> Stands(env, t, rows, row, d.row)
  {
    hide IsLegacyName;
    if !forall i :: 0 <= i < |rows| ==> !Matches(env, t, row, rows[i]) {
      var k: nat :| LastMatch(env, t, rows, row, k) && DecidedBy(t, row, rows[k], d);
      if d.Insert? {
        assert TakesName(env, t, row, rows[k]);
      } else {
        assert rows[k] in rows && SameThing(env, t, row, rows[k]);
      }
    }
  }

  lemma StandsIgnoresId(env: Env, t: Table, rows: seq<Row>, row: Row, r: Row, id: Id)
    requires Stands(env, t, rows, row, r)
    ensures Stands(env, t, rows, row, r.(id := id))
  {
    hide IsLegacyName, TakesName;
  }

  lemma StandsStays(env: Env, t: Table, rows: seq<Row>, more: seq<Row>, row: Row, r: Row)
    requires Stands(env, t, rows, row, r) && rows <= more
    ensures Stands(env, t, more, row, r)
  {
    hide IsLegacyName, TakesName, SameThing;
    assert forall q :: q in rows ==> q in more;
  }

  lemma RepresentedStays(env: Env, s: State, u: State, t: Table, from: Row)
    requires HasAll(s) && HasAll(u) && Represented(env, s, t, from)
    requires s.tables[t] <= u.tables[t] && Carry(u.maps, from) == Carry(s.maps, from)
    requires t != Favorites && from.id in s.maps[t] ==> from.id in u.maps[t] && u.maps[t][from.id] == s.maps[t][from.id]
    ensures Represented(env, u, t, from)
  {
    hide Carry, Stands;
    var j :| 0 <= j < |s.tables[t]| && Represents(env, s, t, from, s.tables[t][j]);
    StandsStays(env, t, s.tables[t], u.tables[t], Carry(s.maps, from).value, s.tables[t][j]);
    assert Represents(env, u, t, from, u.tables[t][j]);
  }

  lemma RowsGrowByOne(env: Env, t: Table, s: State, row: Row, u: State)
    requires HasAll(s) && HasAll(u) && Stepped(env, t, s, row, u)
    ensures |u.tables[t]| <= |s.tables[t]| + 1
  {
    hide Carry, Decide, AvailableId;
  }

  lemma OwnKeysHold(env: Env, s: State, u: State, src: seq<Row>, target: seq<Row>, t: Table, k: nat)
    requires HasAll(s) && HasAll(u) && k < |src| && Advanced(env, s, u, src, t, k, |target|)
    requires KeysHold(s, src, target, t, k)
    ensures KeysHold(u, src, target, t, k + 1)
  {
    hide Carry, NoClash, KeysUnique, ImageOf;
    IdsGrow(s.tables[t], u.tables[t]);
    IdsUpToNext(src, k);
    hide Ids, IdsUpTo;
    var before, after, ids := s.maps[t], u.maps[t], Ids(u.tables[t]);
    forall id | id in after ensures after[id] in ids {
      if id in before && after[id] == before[id] {
        assert before[id] in Ids(s.tables[t]);
      }
    }
  }

  lemma IdsGrow(rows: seq<Row>, more: seq<Row>)
    requires rows <= more
    ensures Ids(rows) <= Ids(more)
  {
  }

  lemma OwnImagesHold(env: Env, s: State, u: State, src: seq<Row>, target: seq<Row>, t: Table, k: nat)
    requires HasAll(s) && HasAll(u) && k < |src| && Advanced(env, s, u, src, t, k, |target|)
    requires KeysUnique(src) && target <= s.tables[t] && ImagesHold(s, src, target, t, k)
    ensures ImagesHold(u, src, target, t, k + 1)
  {
    hide Carry, NoClash, Ids;
    var rows := s.tables[t];
    forall j | |target| <= j < |u.tables[t]| ensures IsImage(u.maps, src, k + 1, t, u.tables[t][j]) {
      if j < |rows| {
        assert IsImage(s.maps, src, k, t, rows[j]);
        var i :| 0 <= i < |src| && i < k && ImageOf(s.maps, t, src[i], rows[j]);
        assert src[i].id != src[k].id;
        assert ImageOf(u.maps, t, src[i], u.tables[t][j]);
      } else {
        assert ImageOf(u.maps, t, src[k], u.tables[t][j]);
      }
    }
  }

  // Every key is used once in its table.
  predicate AllKeysUnique(db: Database) {
    forall t :: t in db ==> KeysUnique(db[t])
  }

  lemma StepIsStepped(env: Env, t: Table, s: State, row: Row)
    requires HasAll(s) && Step(env, t, s, row).Some?
    ensures HasAll(Step(env, t, s, row).value) && Stepped(env, t, s, row, Step(env, t, s, row).value)
  {
  }

  lemma StepKeepsMerging(env: Env, s: State, u: State, source: Database, target: Database, n: nat, k: nat)
    requires n < 9 && WellTyped(source) && AllKeysUnique(source) && Random(env) && k < |source[TableAt(n)]|
    requires Merging(env, s, source, target, n, k)
    requires HasAll(u) && Stepped(env, TableAt(n), s, source[TableAt(n)][k], u)
    ensures Merging(env, u, source, target, n, k + 1)
  {
    hide TableHolds, Stepped, AllKeysUnique, Random, DoneRows;
    forall t: Table ensures TableHolds(env, u, source[t], target[t], t, DoneRows(source[t], t, n, k + 1)) {
      StepKeepsTable(env, s, u, source, target, n, k, t);
    }
  }

  lemma StepKeepsTable(env: Env, s: State, u: State, source: Database, target: Database, n: nat, k: nat, t: Table)
    requires n < 9 && WellTyped(source) && AllKeysUnique(source) && Random(env) && k < |source[TableAt(n)]|
    requires Merging(env, s, source, target, n, k)
    requires HasAll(u) && Stepped(env, TableAt(n), s, source[TableAt(n)][k], u)
    ensures TableHolds(env, u, source[t], target[t], t, DoneRows(source[t], t, n, k + 1))
  {
    hide TableHolds, Stepped, Typed, KeysUnique, Random;
    assert KeysUnique(source[t]) && forall i :: 0 <= i < |source[t]| ==> Typed(t, source[t][i]);
    assert TableHolds(env, s, source[t], target[t], t, DoneRows(source[t], t, n, k));
    if t == TableAt(n) {
      OwnTableHolds(env, s, u, source[t], target[t], t, k);
    } else {
      SameRank(t, n);
      OtherTableHolds(
        env, s, u, source[t], target[t], t, DoneRows(source[t], t, n, k), TableAt(n), source[TableAt(n)][k]);
    }
  }

  lemma OwnTableHolds(env: Env, s: State, u: State, src: seq<Row>, target: seq<Row>, t: Table, k: nat)
    requires HasAll(s) && HasAll(u) && k < |src| && Stepped(env, t, s, src[k], u) && Random(env)
    requires KeysUnique(src) && forall i :: 0 <= i < |src| ==> Typed(t, src[i])
    requires TableHolds(env, s, src, target, t, k)
    ensures TableHolds(env, u, src, target, t, k + 1)
  {
    hide Carry, Typed, Stepped, Random;
    StepAdvances(env, s, u, src, t, k, |target|);
    OwnKeysHold(env, s, u, src, target, t, k);
    OwnImagesHold(env, s, u, src, target, t, k);
    OwnRepresented(env, s, u, src, t, k, |target|);
  }

  lemma OwnRepresented(env: Env, s: State, u: State, src: seq<Row>, t: Table, k: nat, from: nat)
    requires HasAll(s) && HasAll(u) && k < |src| && Advanced(env, s, u, src, t, k, from)
    requires KeysUnique(src) && AllRepresented(env, s, src, t, k)
    ensures AllRepresented(env, u, src, t, k + 1)
  {
    hide Carry, NoClash, ImageOf, Represented;
    forall i | 0 <= i < |src| && i < k + 1 ensures Represented(env, u, t, src[i]) {
      if i < k {
        assert Represented(env, s, t, src[i]) && src[i].id != src[k].id;
        RepresentedStays(env, s, u, t, src[i]);
      }
    }
  }

  lemma StepTouchesOne(env: Env, x: Table, s: State, row: Row, u: State)
    requires HasAll(s) && HasAll(u) && Stepped(env, x, s, row, u)
    ensures u.maps == s.maps[x := u.maps[x]]
    ensures forall t: Table :: t != x ==> u.tables[t] == s.tables[t]
  {
    hide Decide, Carry, AvailableId;
  }

  lemma OtherTableHolds(env: Env, s: State, u: State, src: seq<Row>, target: seq<Row>, t: Table, done: nat,
                        x: Table, row: Row)
    requires HasAll(s) && HasAll(u) && t != x && Stepped(env, x, s, row, u)
    requires TableHolds(env, s, src, target, t, done)
    requires done > 0 ==> Rank(t) <= Rank(x) && forall i :: 0 <= i < |src| ==> Typed(t, src[i])
    ensures TableHolds(env, u, src, target, t, done)
  {
    hide TableHolds, Typed;
    StepTouchesOne(env, x, s, row, u);
    hide Stepped;
    OtherTableUnaffected(s, u, src, t, done, x, u.maps[x]);
    UnaffectedTableHolds(env, s, u, src, target, t, done);
  }

  lemma SameRank(t: Table, n: nat)
    requires n < 9 && t != TableAt(n)
    ensures Rank(t) != n
  {
  }

  // ---------- the whole merge ----------

  lemma MergeRowsNext(env: Env, t: Table, s: State, rows: seq<Row>, k: nat)
    requires t in s.tables && t in s.maps && k < |rows|
    ensures MergeRows(env, t, s, rows[..0]) == Some(s)
    ensures var before := MergeRows(env, t, s, rows[..k]);
            MergeRows(env, t, s, rows[..k + 1]) == if before.None? then None else Step(env, t, before.value, rows[k])
  {
    hide Step;
    assert rows[..k + 1][..k] == rows[..k];
  }

  lemma {:induction false} RowsKeepMerging(env: Env, s: State, source: Database, target: Database, n: nat, k: nat)
    requires n < 9 && WellTyped(source) && AllKeysUnique(source) && Random(env) && k <= |source[TableAt(n)]|
    requires Merging(env, s, source, target, n, 0)
    requires MergeRows(env, TableAt(n), s, source[TableAt(n)][..k]).Some?
    ensures var r := MergeRows(env, TableAt(n), s, source[TableAt(n)][..k]);
            HasAll(r.value) && Merging(env, r.value, source, target, n, k)
    decreases k
  {
    assert HasAll(s) && forall t: Table :: t in source && t in target;
    var t, rows := TableAt(n), source[TableAt(n)];
    if k == 0 {
      assert MergeRows(env, t, s, rows[..0]) == Some(s);
    } else {
      hide WellTyped, AllKeysUnique, Random, Merging, MergeRows, HasAll;
      MergeRowsNext(env, t, s, rows, k - 1);
      RowsKeepMerging(env, s, source, target, n, k - 1);
      var before := MergeRows(env, t, s, rows[..k - 1]).value;
      StepIsStepped(env, t, before, rows[k - 1]);
      StepKeepsMerging(env, before, Step(env, t, before, rows[k - 1]).value, source, target, n, k - 1);
    }
  }

  lemma TableIsDone(env: Env, s: State, source: Database, target: Database, n: nat)
    requires n < 9 && (forall t: Table :: t in source && t in target)
    requires Merging(env, s, source, target, n, |source[TableAt(n)]|)
    ensures Merging(env, s, source, target, n + 1, 0)
  {
    hide TableHolds;
    forall t: Table ensures TableHolds(env, s, source[t], target[t], t, DoneRows(source[t], t, n + 1, 0)) {
      assert TableHolds(env, s, source[t], target[t], t, DoneRows(source[t], t, n, |source[TableAt(n)]|));
      assert Rank(t) == n ==> t == TableAt(n);
    }
  }

  lemma StartMerging(env: Env, source: Database, target: Database)
    requires (forall t: Table :: t in source && t in target) && AllKeysUnique(target)
    ensures Merging(env, Start(env, target), source, target, 0, 0)
  {
  }

  lemma {:induction false} TablesKeepMerging(env: Env, source: Database, target: Database, n: nat)
    requires n <= 9 && WellTyped(source) && AllKeysUnique(source) && Random(env)
    requires (forall t: Table :: t in target) && AllKeysUnique(target)
    requires MergeTables(env, source, Start(env, target), n).Some?
    ensures Merging(env, MergeTables(env, source, Start(env, target), n).value, source, target, n, 0)
    decreases n
  {
    if n == 0 {
      StartMerging(env, source, target);
    } else {
      hide Merging, AllKeysUnique, Random, Start, WellTyped, MergeRows;
      TablesKeepMerging(env, source, target, n - 1);
      OneTableKeepsMerging(env, MergeTables(env, source, Start(env, target), n - 1).value, source, target, n - 1);
    }
  }

  lemma OneTableKeepsMerging(env: Env, s: State, source: Database, target: Database, n: nat)
    requires n < 9 && WellTyped(source) && AllKeysUnique(source) && Random(env)
    requires Merging(env, s, source, target, n, 0)
    requires MergeRows(env, TableAt(n), s, source[TableAt(n)]).Some?
    ensures Merging(env, MergeRows(env, TableAt(n), s, source[TableAt(n)]).value, source, target, n + 1, 0)
  {
    hide AllKeysUnique, Random, MergeRows;
    var rows := source[TableAt(n)];
    assert rows[..|rows|] == rows;
    RowsKeepMerging(env, s, source, target, n, |rows|);
    TableIsDone(env, MergeRows(env, TableAt(n), s, rows).value, source, target, n);
  }

  // Every reference of a source row names a source row.
  predicate ReferencesResolve(source: Database)
    requires WellTyped(source)
  {
    forall t, i, c :: t in source && 0 <= i < |source[t]| && c in source[t][i].refs ==>
      source[t][i].refs[c] in Ids(source[Parent(c)])
  }

  // The image of a source row: each reference is the image of the row it named, and resolves.
  ghost predicate Carried(out: State, t: Table, from: Row, row: Row)
    requires HasAll(out)
  {
    && row.refs.Keys == from.refs.Keys
    && row.digest == from.digest && (t != Versions && t != Endpoints ==> row.name == from.name)
    && (t != Favorites ==> from.id in out.maps[t] && row.id == out.maps[t][from.id])
    && forall c :: c in row.refs ==>
         && from.refs[c] in out.maps[Parent(c)]
         && row.refs[c] == out.maps[Parent(c)][from.refs[c]]
         && row.refs[c] in Ids(out.tables[Parent(c)])
  }

  ghost predicate HasOrigin(out: State, t: Table, src: seq<Row>, row: Row)
    requires HasAll(out)
  {
    exists i :: 0 <= i < |src| && Carried(out, t, src[i], row)
  }

  // Everything promised of one table after the merge.
  ghost predicate Merged(env: Env, out: State, source: Database, target: Database, t: Table)
    requires HasAll(out) && t in source && t in target
  {
    && target[t] <= out.tables[t] && KeysUnique(out.tables[t])
    && NoClash(env, t, out.tables[t], |target[t]|)
    && AllRepresented(env, out, source[t], t, |source[t]|)
    && forall j :: |target[t]| <= j < |out.tables[t]| ==> HasOrigin(out, t, source[t], out.tables[t][j])
  }

  /**
   The merge is a homomorphism on references.  The target keeps its rows; keys stay unique and
   no inserted row clashes with another; every source row is represented by a target row that
   can stand for it; and each inserted row has the content of the row it came from, each of its
   references being the image of the row that one named, which is there.
   */
  lemma MergeIsHomomorphism(env: Env, source: Database, target: Database, t: Table)
    requires WellTyped(source) && AllKeysUnique(source) && Random(env)
    requires (forall u: Table :: u in target) && AllKeysUnique(target)
    requires MergeTables(env, source, Start(env, target), 9).Some?
    ensures Merged(env, MergeTables(env, source, Start(env, target), 9).value, source, target, t)
  {
    var out := MergeTables(env, source, Start(env, target), 9).value;
    TablesKeepMerging(env, source, target, 9);
    assert HasAll(out) && forall u: Table :: u in source && u in target;
    hide Merging, Merged, AllKeysUnique, WellTyped, Random;
    MergingIsMerged(env, out, source, target, t);
  }

  /**
   A source version in the target: for the skill its own one became and with its content, under
   its own number unless that skill has another version of that number.
   */
  ghost predicate VersionFound(out: State, from: Row)
    requires HasAll(out)
  {
    && SkillId in from.refs && from.refs[SkillId] in out.maps[Skills] && from.id in out.maps[Versions]
    && exists r :: r in out.tables[Versions] && r.id == out.maps[Versions][from.id]
                   && Ref(r, SkillId) == Some(out.maps[Skills][from.refs[SkillId]]) && r.digest == from.digest
                   && (r.name == from.name || NumberTaken(out, out.maps[Skills][from.refs[SkillId]], from))
  }

  ghost predicate NumberTaken(out: State, skill: Id, from: Row)
    requires HasAll(out)
  {
    exists q :: q in out.tables[Versions] && Ref(q, SkillId) == Some(skill)
                && q.name == from.name && q.digest != from.digest
  }

  /** Every version of the source is found in the target. */
  lemma EveryVersionIsFound(env: Env, source: Database, target: Database, i: nat)
    requires WellTyped(source) && AllKeysUnique(source) && Random(env)
    requires (forall u: Table :: u in target) && AllKeysUnique(target)
    requires MergeTables(env, source, Start(env, target), 9).Some? && i < |source[Versions]|
    ensures VersionFound(MergeTables(env, source, Start(env, target), 9).value, source[Versions][i])
  {
    var out, from := MergeTables(env, source, Start(env, target), 9).value, source[Versions][i];
    assert Typed(Versions, from);
    hide MergeTables, Start, Random, AllKeysUnique, WellTyped, Represented, NoClash, KeysUnique, HasOrigin;
    MergeIsHomomorphism(env, source, target, Versions);
    assert Represented(env, out, Versions, from);
    RepresentedVersion(env, out, from);
  }

  lemma RepresentedVersion(env: Env, out: State, from: Row)
    requires HasAll(out) && SkillId in from.refs && Represented(env, out, Versions, from)
    ensures VersionFound(out, from)
  {
    hide IsLegacyName;
    CarriedSkill(out.maps, from);
    hide Carry;
    var rows := out.tables[Versions];
    var j :| 0 <= j < |rows| && Represents(env, out, Versions, from, rows[j]);
    assert rows[j] in rows;
    if rows[j].name != from.name {
      var q :| q in rows && TakesName(env, Versions, Carry(out.maps, from).value, q);
      assert NumberTaken(out, out.maps[Skills][from.refs[SkillId]], from);
    }
  }

  lemma CarriedSkill(maps: map<Table, map<Id, Id>>, row: Row)
    requires Carry(maps, row).Some? && SkillId in row.refs
    ensures Skills in maps && row.refs[SkillId] in maps[Skills]
    ensures var carried := Carry(maps, row).value;
            && Ref(carried, SkillId) == Some(maps[Skills][row.refs[SkillId]])
            && carried == row.(refs := carried.refs)
  {
  }

  lemma MergingIsMerged(env: Env, out: State, source: Database, target: Database, t: Table)
    requires HasAll(out) && (forall u: Table :: u in source && u in target)
    requires Merging(env, out, source, target, 9, 0)
    ensures Merged(env, out, source, target, t)
  {
    hide Merging, NoClash, HasOrigin, ImagesHold, KeysHold, KeysUnique, Ids, AllRepresented;
    MergedTable(env, out, source, target, 9, 0, t);
    KeysGive(out, source[t], target[t], t, |source[t]|);
    RowsHaveOrigins(env, out, source, target, t);
  }

  lemma RowsHaveOrigins(env: Env, out: State, source: Database, target: Database, t: Table)
    requires HasAll(out) && (forall u: Table :: u in source && u in target)
    requires Merging(env, out, source, target, 9, 0)
    ensures forall j :: |target[t]| <= j < |out.tables[t]| ==> HasOrigin(out, t, source[t], out.tables[t][j])
  {
    hide Merging, NoClash, HasOrigin, ImagesHold, KeysHold, KeysUnique, Ids;
    AllKeysHold(env, out, source, target);
    MergedTable(env, out, source, target, 9, 0, t);
    ImagesAreCarried(out, source, target, t);
  }

  lemma KeysGive(s: State, src: seq<Row>, target: seq<Row>, t: Table, done: nat)
    requires HasAll(s) && KeysHold(s, src, target, t, done)
    ensures target <= s.tables[t] && KeysUnique(s.tables[t])
  {
  }

  lemma AllKeysHold(env: Env, out: State, source: Database, target: Database)
    requires Merging(env, out, source, target, 9, 0)
    ensures forall u: Table :: KeysHold(out, source[u], target[u], u, |source[u]|)
  {
  }

  lemma ImagesAreCarried(out: State, source: Database, target: Database, t: Table)
    requires HasAll(out)
    requires forall u: Table :: u in source && u in target && KeysHold(out, source[u], target[u], u, |source[u]|)
    requires ImagesHold(out, source[t], target[t], t, |source[t]|)
    ensures forall j :: |target[t]| <= j < |out.tables[t]| ==> HasOrigin(out, t, source[t], out.tables[t][j])
  {
    hide KeysHold, Carry, Carried;
    forall j | |target[t]| <= j < |out.tables[t]|
      ensures HasOrigin(out, t, source[t], out.tables[t][j])
    {
      assert IsImage(out.maps, source[t], |source[t]|, t, out.tables[t][j]);
      var i :| 0 <= i < |source[t]| && ImageOf(out.maps, t, source[t][i], out.tables[t][j]);
      ImageIsCarried(out, source, target, t, source[t][i], out.tables[t][j]);
    }
  }

  // What is known of a table once all its rows are merged.
  lemma MergedTable(env: Env, s: State, source: Database, target: Database, n: nat, k: nat, t: Table)
    requires (forall u: Table :: u in source && u in target) && Merging(env, s, source, target, n, k) && Rank(t) < n
    ensures KeysHold(s, source[t], target[t], t, |source[t]|) && ImagesHold(s, source[t], target[t], t, |source[t]|)
    ensures NoClash(env, t, s.tables[t], |target[t]|)
    ensures t != Favorites ==> s.maps[t].Keys == Ids(source[t])
    ensures AllRepresented(env, s, source[t], t, |source[t]|)
  {
    assert TableHolds(env, s, source[t], target[t], t, DoneRows(source[t], t, n, k));
    hide Carry, NoClash, KeysUnique, ImagesHold, Represented;
    assert Ids(source[t]) == IdsUpTo(source[t], |source[t]|);
  }

  lemma ImageIsCarried(out: State, source: Database, target: Database, t: Table, from: Row, row: Row)
    requires HasAll(out) && ImageOf(out.maps, t, from, row)
    requires forall u: Table :: u in source && u in target && KeysHold(out, source[u], target[u], u, |source[u]|)
    ensures Carried(out, t, from, row)
  {
    forall c | c in row.refs ensures row.refs[c] in Ids(out.tables[Parent(c)]) {
      assert KeysHold(out, source[Parent(c)], target[Parent(c)], Parent(c), |source[Parent(c)]|);
    }
  }

  lemma ReferenceKnown(env: Env, s: State, source: Database, target: Database, n: nat, k: nat, c: Column, id: Id)
    requires (forall u: Table :: u in source && u in target) && Merging(env, s, source, target, n, k)
    requires Rank(Parent(c)) < n
    ensures id in s.maps[Parent(c)] <==> id in Ids(source[Parent(c)])
  {
    MergedTable(env, s, source, target, n, k, Parent(c));
  }

  lemma ReferencesAreKnown(source: Database, t: Table, k: nat)
    requires WellTyped(source) && ReferencesResolve(source) && k < |source[t]|
    ensures forall c :: c in source[t][k].refs ==>
              source[t][k].refs[c] in Ids(source[Parent(c)]) && Rank(Parent(c)) < Rank(t)
  {
    assert Typed(t, source[t][k]);
    hide Ids;
  }

  lemma CarriesKnown(maps: map<Table, map<Id, Id>>, row: Row)
    requires forall c :: c in row.refs ==> Parent(c) in maps && row.refs[c] in maps[Parent(c)]
    ensures Carry(maps, row).Some?
  {
  }

  lemma MergingIsTotal(env: Env, s: State, source: Database, target: Database, n: nat, k: nat)
    requires Merging(env, s, source, target, n, k)
    ensures HasAll(s) && forall t: Table :: t in source && t in target
  {
    hide TableHolds;
  }

  lemma CarrySucceeds(env: Env, s: State, source: Database, target: Database, n: nat, k: nat)
    requires n < 9 && WellTyped(source) && k < |source[TableAt(n)]| && ReferencesResolve(source)
    requires Merging(env, s, source, target, n, k)
    ensures Carry(s.maps, source[TableAt(n)][k]).Some?
  {
    MergingIsTotal(env, s, source, target, n, k);
    ReferencesAreKnown(source, TableAt(n), k);
    hide Merging, ReferencesResolve, WellTyped, Ids, Carry;
    var row := source[TableAt(n)][k];
    forall c | c in row.refs ensures Parent(c) in s.maps && row.refs[c] in s.maps[Parent(c)] {
      ReferenceKnown(env, s, source, target, n, k, c, row.refs[c]);
    }
    CarriesKnown(s.maps, row);
  }

  lemma {:induction false} RowsSucceed(env: Env, s: State, source: Database, target: Database, n: nat, k: nat)
    requires WellTyped(source) && AllKeysUnique(source) && Random(env)
    requires n < 9 && n != Rank(Endpoints) && k <= |source[TableAt(n)]|
    requires Merging(env, s, source, target, n, 0) && ReferencesResolve(source)
    ensures MergeRows(env, TableAt(n), s, source[TableAt(n)][..k]).Some?
    decreases k
  {
    if k > 0 {
      var rows := source[TableAt(n)];
      assert rows[..k][..k - 1] == rows[..k - 1];
      RowsSucceed(env, s, source, target, n, k - 1);
      RowsKeepMerging(env, s, source, target, n, k - 1);
      var before := MergeRows(env, TableAt(n), s, rows[..k - 1]).value;
      CarrySucceeds(env, before, source, target, n, k - 1);
      hide Merging, WellTyped, AllKeysUnique, Random, Decide, Carry;
    }
  }

  lemma TableSucceeds(env: Env, source: Database, target: Database, n: nat)
    requires n < 9 && n != Rank(Endpoints)
    requires WellTyped(source) && AllKeysUnique(source) && Random(env) && ReferencesResolve(source)
    requires (forall t: Table :: t in target) && AllKeysUnique(target)
    requires MergeTables(env, source, Start(env, target), n).Some?
    ensures MergeTables(env, source, Start(env, target), n + 1).Some?
  {
    hide Merging, AllKeysUnique, Random, ReferencesResolve;
    TablesKeepMerging(env, source, target, n);
    var rows := source[TableAt(n)];
    assert rows[..|rows|] == rows;
    RowsSucceed(env, MergeTables(env, source, Start(env, target), n).value, source, target, n, |rows|);
  }

  // ---------- endpoint slugs ----------

  /**
   What the slugs alone say about the endpoints merged so far: the version a folded slug stands
   for, the slugs no renaming may produce, and the source slugs inserted as they were.
   */
  datatype Slugs = Slugs(versionOf: map<string, Option<Id>>, occupied: set<string>, asGiven: set<string>)

  function VersionOf(env: Env, rows: seq<Row>): map<string, Option<Id>> {
    if rows == [] then map[] else
    var last := rows[|rows| - 1];
    VersionOf(env, rows[..|rows| - 1])[env.fold(last.name) := Ref(last, SkillVersionId)]
  }

  function Mapped(versions: map<Id, Id>, row: Row): Option<Id> {
    if SkillVersionId in row.refs && row.refs[SkillVersionId] in versions then Some(versions[row.refs[SkillVersionId]])
    else None
  }

  // Another version already stands under the slug.
  predicate Renamed(env: Env, versions: map<Id, Id>, slugs: Slugs, row: Row) {
    var folded := env.fold(row.name);
    folded in slugs.versionOf && slugs.versionOf[folded] != Mapped(versions, row)
  }

  function Enter(env: Env, versions: map<Id, Id>, slugs: Slugs, row: Row): Slugs {
    var version := Mapped(versions, row);
    if Renamed(env, versions, slugs, row) then
      var slug := UniqueValue(row.name, slugs.occupied);
      Slugs(slugs.versionOf[env.fold(slug) := version], slugs.occupied + {slug}, slugs.asGiven)
    else if env.fold(row.name) in slugs.versionOf then slugs
    else Slugs(slugs.versionOf[env.fold(row.name) := version], slugs.occupied, slugs.asGiven + {row.name})
  }

  function SlugsAfter(env: Env, versions: map<Id, Id>, target: seq<Row>, src: seq<Row>): Slugs {
    if src == [] then Slugs(VersionOf(env, target), FoldedNames(env, target), {})
    else Enter(env, versions, SlugsAfter(env, versions, target, src[..|src| - 1]), src[|src| - 1])
  }

  // The row is renamed, and to a slug that the target had or that an earlier row brought along.
  predicate Meets(env: Env, versions: map<Id, Id>, target: seq<Row>, slugs: Slugs, row: Row) {
    && Renamed(env, versions, slugs, row)
    && UniqueValue(row.name, slugs.occupied) in slugs.asGiven + Names(target)
  }

  // Some endpoint of the source is renamed to a slug that is taken.
  predicate SlugsMeet(env: Env, versions: map<Id, Id>, target: seq<Row>, src: seq<Row>) {
    exists k :: 0 <= k < |src| && Meets(env, versions, target, SlugsAfter(env, versions, target, src[..k]), src[k])
  }

  // The state of the merge agrees with what the slugs say.
  predicate Tracks(env: Env, versions: map<Id, Id>, s: State, slugs: Slugs, target: seq<Row>)
    requires HasAll(s)
  {
    && s.maps[Versions] == versions && s.occupied == slugs.occupied
    && VersionOf(env, s.tables[Endpoints]) == slugs.versionOf
    && NamesAgree(Names(s.tables[Endpoints]), Names(target), slugs)
  }

  predicate NamesAgree(names: set<string>, before: set<string>, slugs: Slugs) {
    before + slugs.asGiven <= names <= before + slugs.asGiven + slugs.occupied
  }

  lemma EnterNames(env: Env, versions: map<Id, Id>, names: set<string>, before: set<string>, slugs: Slugs, row: Row)
    requires NamesAgree(names, before, slugs)
    ensures var slug, after := UniqueValue(row.name, slugs.occupied), Enter(env, versions, slugs, row);
            if Renamed(env, versions, slugs, row) then
              && (slug in names <==> slug in slugs.asGiven + before)
              && after.occupied == slugs.occupied + {slug} && NamesAgree(names + {slug}, before, after)
              && after.versionOf == slugs.versionOf[env.fold(slug) := Mapped(versions, row)]
            else if env.fold(row.name) in slugs.versionOf then after == slugs
            else
              && after.occupied == slugs.occupied && NamesAgree(names + {row.name}, before, after)
              && after.versionOf == slugs.versionOf[env.fold(row.name) := Mapped(versions, row)]
  {
    hide UniqueValue, Mapped, Renamed;
  }

  lemma {:induction false} LastIsVersionOf(env: Env, rows: seq<Row>, row: Row)
    ensures var last := FindLast(rows, Matching(env, Endpoints, row));
            var folded := env.fold(row.name);
            && (last.Some? <==> folded in VersionOf(env, rows))
            && (last.Some? ==> Ref(last.value, SkillVersionId) == VersionOf(env, rows)[folded])
  {
    if rows != [] {
      LastIsVersionOf(env, rows[..|rows| - 1], row);
    }
  }

  lemma NamesOfAppend(rows: seq<Row>, row: Row)
    ensures Names(rows + [row]) == Names(rows) + {row.name}
  {
    var more := rows + [row];
    assert more[|rows|] == row;
    assert forall i :: 0 <= i < |rows| ==> more[i] == rows[i];
  }

  // What an endpoint does, read off the slugs.
  lemma EndpointDecision(env: Env, rows: seq<Row>, occupied: set<string>, row: Row)
    ensures var d := Decide(env, Endpoints, rows, occupied, row);
            var folded, versionOf := env.fold(row.name), VersionOf(env, rows);
            if folded !in versionOf then d == Insert(row) && row.name !in Names(rows)
            else if versionOf[folded] == Ref(row, SkillVersionId) then d.MergeInto?
            else d == Insert(row.(name := UniqueValue(row.name, occupied)))
  {
    hide UniqueValue, VersionOf, FindLast, Stands, Clash;
    LastIsVersionOf(env, rows, row);
  }

  lemma CarriedEndpoint(maps: map<Table, map<Id, Id>>, row: Row)
    requires Versions in maps && Carry(maps, row).Some? && SkillVersionId in row.refs
    ensures var carried := Carry(maps, row).value;
            && carried.name == row.name && carried.id == row.id
            && Ref(carried, SkillVersionId) == Mapped(maps[Versions], row)
  {
  }

  lemma StepTracks(env: Env, versions: map<Id, Id>, s: State, slugs: Slugs, target: seq<Row>, row: Row)
    requires HasAll(s) && Tracks(env, versions, s, slugs, target)
    requires Carry(s.maps, row).Some? && SkillVersionId in row.refs
    ensures Step(env, Endpoints, s, row).Some? <==> !Meets(env, versions, target, slugs, row)
    ensures var u := Step(env, Endpoints, s, row);
            u.Some? ==> HasAll(u.value) && Tracks(env, versions, u.value, Enter(env, versions, slugs, row), target)
  {
    hide Carry, Mapped, UniqueValue, Names, VersionOf, AvailableId, Ids, Decide, NamesAgree;
    var rows, carried := s.tables[Endpoints], Carry(s.maps, row).value;
    CarriedEndpoint(s.maps, row);
    EndpointDecision(env, rows, s.occupied, carried);
    var d := Decide(env, Endpoints, rows, s.occupied, carried);
    EndpointStep(env, s, row);
    var u := Step(env, Endpoints, s, row);
    EnterNames(env, versions, Names(rows), Names(target), slugs, row);
    hide Step, Enter;
    if d.Insert? && u.Some? {
      var placed := d.row.(id := AvailableId(env, row.id, Ids(rows)));
      VersionOfAppend(env, rows, placed);
      NamesOfAppend(rows, placed);
    }
  }

  lemma EndpointStep(env: Env, s: State, row: Row)
    requires HasAll(s) && Carry(s.maps, row).Some?
    ensures var rows := s.tables[Endpoints];
            var d := Decide(env, Endpoints, rows, s.occupied, Carry(s.maps, row).value);
            var u := Step(env, Endpoints, s, row);
            && (u.Some? <==> d.Insert? ==> d.row.name !in Names(rows))
            && (u.Some? ==>
                  && HasAll(u.value) && u.value.maps[Versions] == s.maps[Versions]
                  && (d.MergeInto? ==> u.value.tables == s.tables && u.value.occupied == s.occupied)
                  && (d.Insert? ==>
                        && u.value.tables[Endpoints] == rows + [d.row.(id := AvailableId(env, row.id, Ids(rows)))]
                        && u.value.occupied
                           == if d.row.name == row.name then s.occupied else s.occupied + {d.row.name}))
  {
    hide Carry, Decide, AvailableId, Ids, Names;
  }

  lemma VersionOfAppend(env: Env, rows: seq<Row>, row: Row)
    ensures VersionOf(env, rows + [row]) == VersionOf(env, rows)[env.fold(row.name) := Ref(row, SkillVersionId)]
  {
    assert (rows + [row])[..|rows|] == rows;
  }

  lemma StepTouchesOwn(env: Env, t: Table, s: State, row: Row)
    requires HasAll(s) && Step(env, t, s, row).Some?
    ensures var u := Step(env, t, s, row).value;
            && HasAll(u) && (t != Endpoints ==> u.occupied == s.occupied) && (t == Favorites ==> u.maps == s.maps)
            && forall x: Table :: x != t ==> u.tables[x] == s.tables[x] && u.maps[x] == s.maps[x]
  {
    hide Stepped, Step, Stands, Clash;
    var u := Step(env, t, s, row).value;
    StepIsStepped(env, t, s, row);
    StepKeepsOccupied(env, t, s, row);
    StepTouchesOne(env, t, s, row, u);
  }

  lemma StepKeepsOccupied(env: Env, t: Table, s: State, row: Row)
    requires HasAll(s) && Step(env, t, s, row).Some?
    ensures var u := Step(env, t, s, row).value;
            (t != Endpoints ==> u.occupied == s.occupied) && (t == Favorites ==> u.maps == s.maps)
  {
    hide Carry, Decide, AvailableId, Ids, Names, Stands, Clash;
  }

  // Merging a table changes no other one, nor what the endpoints start from.
  lemma {:induction false} RowsTouchOwn(env: Env, t: Table, s: State, rows: seq<Row>)
    requires HasAll(s) && MergeRows(env, t, s, rows).Some?
    ensures var u := MergeRows(env, t, s, rows).value;
            && HasAll(u) && (t != Endpoints ==> u.occupied == s.occupied) && (t == Favorites ==> u.maps == s.maps)
            && forall x: Table :: x != t ==> u.tables[x] == s.tables[x] && u.maps[x] == s.maps[x]
    decreases |rows|
  {
    hide Step;
    if rows != [] {
      RowsTouchOwn(env, t, s, rows[..|rows| - 1]);
      StepTouchesOwn(env, t, MergeRows(env, t, s, rows[..|rows| - 1]).value, rows[|rows| - 1]);
    }
  }

  // Which target version stands for a source version.
  function VersionMap(env: Env, source: Database, target: Database): map<Id, Id>
    requires forall t: Table :: t in source && t in target
  {
    var before := MergeTables(env, source, Start(env, target), Rank(Favorites));
    if before.Some? then before.value.maps[Versions] else map[]
  }

  lemma {:induction false} EndpointsUntouched(env: Env, source: Database, target: Database, n: nat)
    requires n <= Rank(Endpoints) && (forall t: Table :: t in source && t in target)
    requires MergeTables(env, source, Start(env, target), n).Some?
    ensures var s := MergeTables(env, source, Start(env, target), n).value;
            && s.tables[Endpoints] == target[Endpoints] && s.occupied == FoldedNames(env, target[Endpoints])
            && (n == Rank(Endpoints) ==> s.maps[Versions] == VersionMap(env, source, target))
    decreases n
  {
    hide MergeRows, FoldedNames;
    if n > 0 {
      EndpointsUntouched(env, source, target, n - 1);
      var before := MergeTables(env, source, Start(env, target), n - 1).value;
      RowsTouchOwn(env, TableAt(n - 1), before, source[TableAt(n - 1)]);
      assert TableAt(n - 1) != Endpoints;
    }
  }

  // These endpoints go through as long as none of them meets a taken slug.
  predicate TracksAll(env: Env, versions: map<Id, Id>, target: seq<Row>, src: seq<Row>, r: Option<State>) {
    && (r.Some? <==> !SlugsMeet(env, versions, target, src))
    && (r.Some? ==> HasAll(r.value) && Tracks(env, versions, r.value, SlugsAfter(env, versions, target, src), target))
  }

  lemma {:induction false} EndpointsTracked(env: Env, s: State, source: Database, target: Database, k: nat)
    requires WellTyped(source) && AllKeysUnique(source) && Random(env) && ReferencesResolve(source)
    requires HasAll(s) && (forall t: Table :: t in source && t in target) && k <= |source[Endpoints]|
    requires Merging(env, s, source, target, Rank(Endpoints), 0)
    requires var slugs := SlugsAfter(env, s.maps[Versions], target[Endpoints], []);
             Tracks(env, s.maps[Versions], s, slugs, target[Endpoints])
    ensures var src := source[Endpoints][..k];
            TracksAll(env, s.maps[Versions], target[Endpoints], src, MergeRows(env, Endpoints, s, src))
    decreases k
  {
    hide WellTyped, AllKeysUnique, Random, ReferencesResolve, Merging, Tracks, Meets, Step;
    var src := source[Endpoints];
    if k == 0 {
      assert src[..0] == [] && !SlugsMeet(env, s.maps[Versions], target[Endpoints], []);
    } else {
      hide TracksAll, MergeRows;
      EndpointsTracked(env, s, source, target, k - 1);
      OneMoreTracked(env, s, source, target, k - 1);
    }
  }

  lemma OneMoreTracked(env: Env, s: State, source: Database, target: Database, k: nat)
    requires WellTyped(source) && AllKeysUnique(source) && Random(env) && ReferencesResolve(source)
    requires HasAll(s) && (forall t: Table :: t in source && t in target) && k < |source[Endpoints]|
    requires Merging(env, s, source, target, Rank(Endpoints), 0)
    requires var src := source[Endpoints][..k];
             TracksAll(env, s.maps[Versions], target[Endpoints], src, MergeRows(env, Endpoints, s, src))
    ensures var src := source[Endpoints][..k + 1];
            TracksAll(env, s.maps[Versions], target[Endpoints], src, MergeRows(env, Endpoints, s, src))
  {
    hide WellTyped, AllKeysUnique, Random, ReferencesResolve, Merging, Tracks, Meets, Step, SlugsMeet, MergeRows,
         SlugsAfter;
    var src := source[Endpoints];
    MergeRowsNext(env, Endpoints, s, src, k);
    assert src[..k + 1][..k] == src[..k] && src[..k + 1][k] == src[k];
    SlugsMeetNext(env, s.maps[Versions], target[Endpoints], src[..k], src[..k + 1]);
    if MergeRows(env, Endpoints, s, src[..k]).Some? {
      NextEndpointTracked(env, s, MergeRows(env, Endpoints, s, src[..k]).value, source, target, k);
    }
  }

  lemma NextEndpointTracked(env: Env, s: State, before: State, source: Database, target: Database, k: nat)
    requires WellTyped(source) && AllKeysUnique(source) && Random(env) && ReferencesResolve(source)
    requires HasAll(s) && (forall t: Table :: t in source && t in target) && k < |source[Endpoints]|
    requires Merging(env, s, source, target, Rank(Endpoints), 0)
    requires MergeRows(env, Endpoints, s, source[Endpoints][..k]) == Some(before) && HasAll(before)
    requires var slugs := SlugsAfter(env, s.maps[Versions], target[Endpoints], source[Endpoints][..k]);
             Tracks(env, s.maps[Versions], before, slugs, target[Endpoints])
    ensures var versions, given, src := s.maps[Versions], target[Endpoints], source[Endpoints];
            var u := Step(env, Endpoints, before, src[k]);
            && (u.Some? <==> !Meets(env, versions, given, SlugsAfter(env, versions, given, src[..k]), src[k]))
            && (u.Some? ==> HasAll(u.value)
                            && Tracks(env, versions, u.value, SlugsAfter(env, versions, given, src[..k + 1]), given))
  {
    hide WellTyped, AllKeysUnique, Random, ReferencesResolve, Merging, Tracks, Meets, Step, Carry, MergeRows, Enter;
    var versions, given, src := s.maps[Versions], target[Endpoints], source[Endpoints];
    EndpointCarries(env, s, before, source, target, k);
    StepTracks(env, versions, before, SlugsAfter(env, versions, given, src[..k]), given, src[k]);
    assert src[..k + 1][..k] == src[..k];
  }

  lemma EndpointCarries(env: Env, s: State, before: State, source: Database, target: Database, k: nat)
    requires WellTyped(source) && AllKeysUnique(source) && Random(env) && ReferencesResolve(source)
    requires HasAll(s) && (forall t: Table :: t in source && t in target) && k < |source[Endpoints]|
    requires Merging(env, s, source, target, Rank(Endpoints), 0)
    requires MergeRows(env, Endpoints, s, source[Endpoints][..k]) == Some(before)
    ensures HasAll(before) && Carry(before.maps, source[Endpoints][k]).Some?
    ensures SkillVersionId in source[Endpoints][k].refs
  {
    hide AllKeysUnique, Random, ReferencesResolve, Merging, Carry, MergeRows, Typed;
    assert TableAt(Rank(Endpoints)) == Endpoints;
    RowsKeepMerging(env, s, source, target, Rank(Endpoints), k);
    CarrySucceeds(env, before, source, target, Rank(Endpoints), k);
    EndpointHasVersion(source, k);
  }

  lemma SlugsMeetNext(env: Env, versions: map<Id, Id>, target: seq<Row>, before: seq<Row>, src: seq<Row>)
    requires |src| == |before| + 1 && src[..|before|] == before
    ensures SlugsMeet(env, versions, target, src) <==>
            || SlugsMeet(env, versions, target, before)
            || Meets(env, versions, target, SlugsAfter(env, versions, target, before), src[|before|])
  {
    hide Meets, SlugsAfter;
    assert forall k :: 0 <= k <= |before| ==> src[..k] == before[..k];
    assert before[..|before|] == before;
    if SlugsMeet(env, versions, target, before) {
      var k :| 0 <= k < |before|
               && Meets(env, versions, target, SlugsAfter(env, versions, target, before[..k]), before[k]);
      assert src[k] == before[k];
    }
  }

  lemma EndpointHasVersion(source: Database, k: nat)
    requires WellTyped(source) && k < |source[Endpoints]|
    ensures SkillVersionId in source[Endpoints][k].refs
  {
    assert Typed(Endpoints, source[Endpoints][k]);
  }

  lemma StartTracks(env: Env, s: State, target: seq<Row>)
    requires HasAll(s) && s.tables[Endpoints] == target && s.occupied == FoldedNames(env, target)
    ensures Tracks(env, s.maps[Versions], s, SlugsAfter(env, s.maps[Versions], target, []), target)
  {
    hide VersionOf, FoldedNames, Names;
  }

  lemma EndpointsSucceedIff(env: Env, source: Database, target: Database)
    requires WellTyped(source) && AllKeysUnique(source) && Random(env) && ReferencesResolve(source)
    requires (forall t: Table :: t in target) && AllKeysUnique(target)
    requires MergeTables(env, source, Start(env, target), Rank(Endpoints)).Some?
    ensures MergeTables(env, source, Start(env, target), Rank(Endpoints) + 1).Some?
            <==> !SlugsMeet(env, VersionMap(env, source, target), target[Endpoints], source[Endpoints])
  {
    hide Merging, AllKeysUnique, Random, ReferencesResolve, Meets, VersionMap, FoldedNames, Start, Tracks, MergeRows,
         SlugsAfter, SlugsMeet;
    var s := MergeTables(env, source, Start(env, target), Rank(Endpoints)).value;
    TablesKeepMerging(env, source, target, Rank(Endpoints));
    EndpointsUntouched(env, source, target, Rank(Endpoints));
    var src := source[Endpoints];
    assert src[..|src|] == src && TableAt(Rank(Endpoints)) == Endpoints;
    StartTracks(env, s, target[Endpoints]);
    EndpointsTracked(env, s, source, target, |src|);
  }

  /**
   The merge goes through exactly when the source is referentially intact and no endpoint of it
   is renamed to a slug that is taken.
   */
  lemma MergeSucceedsIff(env: Env, source: Database, target: Database)
    requires WellTyped(source) && AllKeysUnique(source) && Random(env)
    requires (forall t: Table :: t in target) && AllKeysUnique(target)
    ensures MergeTables(env, source, Start(env, target), 9).Some? <==>
            && ReferencesResolve(source)
            && !SlugsMeet(env, VersionMap(env, source, target), target[Endpoints], source[Endpoints])
  {
    hide AllKeysUnique, Random, ReferencesResolve, SlugsMeet, VersionMap, MergeRows, Start;
    if MergeTables(env, source, Start(env, target), 9).Some? {
      MergedSourceResolves(env, source, target);
      if MergeTables(env, source, Start(env, target), 5).None? {
        TablesAbort(env, source, Start(env, target), 5);
      }
    }
    if ReferencesResolve(source) {
      TablesSucceed(env, source, target, 0, 4);
      EndpointsSucceedIff(env, source, target);
      if MergeTables(env, source, Start(env, target), 5).Some? {
        TablesSucceed(env, source, target, 5, 9);
      }
    }
  }

  lemma {:induction false} TablesSucceed(env: Env, source: Database, target: Database, from: nat, n: nat)
    requires from <= n <= 9 && (n <= Rank(Endpoints) || from > Rank(Endpoints))
    requires WellTyped(source) && AllKeysUnique(source) && Random(env) && ReferencesResolve(source)
    requires (forall t: Table :: t in target) && AllKeysUnique(target)
    requires MergeTables(env, source, Start(env, target), from).Some?
    ensures MergeTables(env, source, Start(env, target), n).Some?
    decreases n
  {
    hide WellTyped, AllKeysUnique, Random, ReferencesResolve, MergeTables;
    if from < n {
      TablesSucceed(env, source, target, from, n - 1);
      TableSucceeds(env, source, target, n - 1);
    }
  }

  lemma {:induction false} SlugsAreKnown(env: Env, versions: map<Id, Id>, target: seq<Row>, src: seq<Row>)
    ensures var slugs := SlugsAfter(env, versions, target, src);
            FoldedNames(env, target) <= slugs.occupied && slugs.asGiven <= Names(src)
  {
    hide UniqueValue, VersionOf, FoldedNames, Names, Mapped;
    if src != [] {
      SlugsAreKnown(env, versions, target, src[..|src| - 1]);
      NamesOfAppend(src[..|src| - 1], src[|src| - 1]);
      assert src == src[..|src| - 1] + [src[|src| - 1]];
    }
  }

  /**
   A renamed slug is taken only in two ways: an earlier row of the source brought it along as it
   was, or the target has it in a spelling that folding changes.
   */
  lemma MetSlugIsEarlierOrUnfolded(env: Env, versions: map<Id, Id>, target: seq<Row>, src: seq<Row>, k: nat)
    requires k < |src| && Meets(env, versions, target, SlugsAfter(env, versions, target, src[..k]), src[k])
    ensures exists n :: n >= 1 && var slug := Variant(src[k].name + "-legacy", "-", n);
                        || (exists j :: 0 <= j < k && src[j].name == slug)
                        || (exists i :: 0 <= i < |target| && target[i].name == slug && env.fold(slug) != slug)
  {
    hide UniqueValue, SlugsAfter, Renamed, Variant;
    var slugs := SlugsAfter(env, versions, target, src[..k]);
    var slug := UniqueValue(src[k].name, slugs.occupied);
    SlugsAreKnown(env, versions, target, src[..k]);
    if slug in slugs.asGiven {
      var j :| 0 <= j < |src[..k]| && src[..k][j].name == slug;
      assert src[j].name == slug;
    } else {
      var i :| 0 <= i < |target| && target[i].name == slug;
      assert env.fold(target[i].name) in FoldedNames(env, target);
    }
  }

  /** Folded target slugs, and source slugs none of which is a renaming of another, never meet. */
  lemma PlainSlugsNeverMeet(env: Env, versions: map<Id, Id>, target: seq<Row>, src: seq<Row>)
    requires forall i :: 0 <= i < |target| ==> env.fold(target[i].name) == target[i].name
    requires forall j, k, n :: 0 <= j < k < |src| && n >= 1 ==> src[j].name != Variant(src[k].name + "-legacy", "-", n)
    ensures !SlugsMeet(env, versions, target, src)
  {
    hide Meets, SlugsAfter, Variant;
    if SlugsMeet(env, versions, target, src) {
      var k :| 0 <= k < |src| && Meets(env, versions, target, SlugsAfter(env, versions, target, src[..k]), src[k]);
      MetSlugIsEarlierOrUnfolded(env, versions, target, src, k);
    }
  }

  function OldRows(t: Table): seq<Row> {
    var made := map[OwnerId := "u1", SkillId := "s1", SkillVersionId := "v1"];
    match t
    case Users => [Row("u1", map[], "old@site", "")]
    case Skills => [Row("s1", map[OwnerId := "u1"], "sheets", "")]
    case Versions => [Row("v1", map[CreatedById := "u1", SkillId := "s1"], "1.0.0", "d1")]
    case Endpoints => [Row("e1", made, "a-legacy", ""), Row("e2", made, "a", "")]
    case _ => []
  }

  function NewRows(t: Table): seq<Row> {
    match t
    case Users => [Row("u0", map[], "new@site", "")]
    case Skills => [Row("s0", map[OwnerId := "u0"], "slides", "")]
    case Versions => [Row("v0", map[CreatedById := "u0", SkillId := "s0"], "1.0.0", "d0")]
    case Endpoints => [Row("e0", map[OwnerId := "u0", SkillId := "s0", SkillVersionId := "v0"], "a", "")]
    case _ => []
  }

  predicate Holds(db: Database, rows: Table -> seq<Row>) {
    forall t: Table :: t in db && db[t] == rows(t)
  }

  lemma OldRowIsIntact(t: Table, i: nat)
    requires i < |OldRows(t)|
    ensures Typed(t, OldRows(t)[i])
    ensures forall c :: c in OldRows(t)[i].refs ==>
              OldRows(Parent(c)) != [] && OldRows(t)[i].refs[c] == OldRows(Parent(c))[0].id
  {
  }

  lemma OldSiteIsIntact(source: Database)
    requires Holds(source, OldRows)
    ensures WellTyped(source) && AllKeysUnique(source) && ReferencesResolve(source)
  {
    OldKeysAreUnique(source);
    hide Typed, OldRows, Parent, AllKeysUnique;
    forall t, i | t in source && 0 <= i < |source[t]|
      ensures Typed(t, source[t][i])
      ensures forall c :: c in source[t][i].refs ==> source[t][i].refs[c] in Ids(source[Parent(c)])
    {
      assert source[t] == OldRows(t);
      OldRowIsIntact(t, i);
      forall c | c in source[t][i].refs ensures source[t][i].refs[c] in Ids(source[Parent(c)]) {
        assert source[Parent(c)] == OldRows(Parent(c));
      }
    }
  }

  lemma OldKeysAreUnique(source: Database)
    requires Holds(source, OldRows)
    ensures AllKeysUnique(source)
  {
  }

  // Other content is not taken for a version that was there.
  lemma OtherContentIsKept(env: Env, s: State, src: seq<Row>, target: seq<Row>, i: nat, j: nat)
    requires HasAll(s) && KeysHold(s, src, target, Versions, |src|) && AllRepresented(env, s, src, Versions, |src|)
    requires i < |src| && j < |target| && src[i].digest != target[j].digest
    ensures src[i].id in s.maps[Versions] && s.maps[Versions][src[i].id] != target[j].id
  {
    hide Carry;
    assert Represented(env, s, Versions, src[i]);
    var k :| 0 <= k < |s.tables[Versions]| && Represents(env, s, Versions, src[i], s.tables[Versions][k]);
    CarriedKeepsId(s.maps, src[i]);
    assert s.tables[Versions][j] == target[j];
  }

  lemma VersionsDiffer(source: Database, target: Database)
    requires Holds(source, OldRows) && Holds(target, NewRows)
    ensures |source[Versions]| == |target[Versions]| == 1
    ensures source[Versions][0].id == "v1" && target[Versions][0].id == "v0"
    ensures source[Versions][0].digest != target[Versions][0].digest
  {
  }

  lemma OldVersionIsKept(env: Env, source: Database, target: Database)
    requires Random(env) && Holds(source, OldRows) && Holds(target, NewRows) && AllKeysUnique(target)
    ensures var versions := VersionMap(env, source, target); "v1" in versions && versions["v1"] != "v0"
  {
    hide AllKeysUnique, Random, Merging, WellTyped, ReferencesResolve, MergeRows, Start, KeysHold, AllRepresented,
         OldRows, NewRows;
    OldSiteIsIntact(source);
    VersionsDiffer(source, target);
    TablesSucceed(env, source, target, 0, 3);
    TablesKeepMerging(env, source, target, 3);
    var s := MergeTables(env, source, Start(env, target), 3).value;
    MergedTable(env, s, source, target, 3, 0, Versions);
    OtherContentIsKept(env, s, source[Versions], target[Versions], 0, 0);
  }

  lemma OldSlugsMeet(env: Env, versions: map<Id, Id>)
    requires "v1" in versions && versions["v1"] != "v0" && forall s :: env.fold(s) == s
    ensures SlugsMeet(env, versions, NewRows(Endpoints), OldRows(Endpoints))
  {
    var target, src := NewRows(Endpoints), OldRows(Endpoints);
    assert src[..1] == [src[0]] && [src[0]][..0] == [] && target[..0] == [];
    var slugs := Slugs(map["a" := Some("v0")], {"a"}, {});
    assert VersionOf(env, [target[0]]) == map["a" := Some("v0")] && target == [target[0]];
    assert FoldedNames(env, target) == {"a"} by {
      assert env.fold(target[0].name) == "a";
    }
    assert SlugsAfter(env, versions, target, []) == slugs;
    assert SlugsAfter(env, versions, target, src[..1]) == Enter(env, versions, slugs, src[0]);
    assert UniqueValue("a", {"a"}) == "a-legacy";
    assert Meets(env, versions, target, SlugsAfter(env, versions, target, src[..1]), src[1]);
  }

  /**
   The merge of an intact site can fail: `a-legacy` goes in as it was, and `a`, which the target
   has for another version, is renamed to it.
   */
  lemma IntactMergeAborts(env: Env, source: Database, target: Database)
    requires Random(env) && forall s :: env.fold(s) == s
    requires Holds(source, OldRows) && Holds(target, NewRows)
    ensures WellTyped(source) && AllKeysUnique(source) && ReferencesResolve(source) && AllKeysUnique(target)
    ensures MergeTables(env, source, Start(env, target), 9).None?
  {
    OldSiteIsIntact(source);
    NewKeysAreUnique(target);
    hide AllKeysUnique, Random, WellTyped, ReferencesResolve, MergeTables, VersionMap, SlugsMeet, OldRows, NewRows;
    OldVersionIsKept(env, source, target);
    OldSlugsMeet(env, VersionMap(env, source, target));
    MergeSucceedsIff(env, source, target);
  }

  lemma NewKeysAreUnique(target: Database)
    requires Holds(target, NewRows)
    ensures AllKeysUnique(target)
  {
  }

  lemma MergedSourceResolves(env: Env, source: Database, target: Database)
    requires WellTyped(source) && AllKeysUnique(source) && Random(env)
    requires (forall t: Table :: t in target) && AllKeysUnique(target)
    requires MergeTables(env, source, Start(env, target), 9).Some?
    ensures ReferencesResolve(source)
  {
    var out := MergeTables(env, source, Start(env, target), 9).value;
    TablesKeepMerging(env, source, target, 9);
    MergingSourceResolves(env, out, source, target);
  }

  lemma MergingSourceResolves(env: Env, out: State, source: Database, target: Database)
    requires WellTyped(source) && (forall t: Table :: t in target) && Merging(env, out, source, target, 9, 0)
    ensures ReferencesResolve(source)
  {
    hide Merging, Ids, Typed;
    forall t, i, c | t in source && 0 <= i < |source[t]| && c in source[t][i].refs
      ensures source[t][i].refs[c] in Ids(source[Parent(c)])
    {
      RowWasCarried(env, out, source, target, t, i);
      ReferenceKnown(env, out, source, target, 9, 0, c, source[t][i].refs[c]);
    }
  }

  lemma RowWasCarried(env: Env, s: State, source: Database, target: Database, t: Table, i: nat)
    requires (forall u: Table :: u in source && u in target) && Merging(env, s, source, target, 9, 0)
    requires i < |source[t]|
    ensures Carry(s.maps, source[t][i]).Some?
  {
    hide Carry;
    MergedTable(env, s, source, target, 9, 0, t);
  }
}
