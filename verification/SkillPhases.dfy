/** Loading and completing the selected skills, in order when the user named them in order. */
module SkillPhases {
  import opened Sorting
  import opened Wrappers

  datatype SkillError = IndexInvalid | OrderInvalid | NotLoaded | EvidenceRequired

  const MAX_EVIDENCE: nat := 1000

  function Load(loaded: set<int>, ordered: bool, skills: nat, index: int): Result<set<int>, SkillError> {
    if index < 1 || index > skills then Err(IndexInvalid)
    else if ordered && index !in loaded && index != |loaded| + 1 then Err(OrderInvalid)
    else Ok(loaded + {index})
  }

  function Complete(loaded: set<int>, completed: set<int>, ordered: bool, index: int, evidence: string)
    : Result<set<int>, SkillError>
  {
    if index !in loaded then Err(NotLoaded)
    else if ordered && index != |completed| + 1 then Err(OrderInvalid)
    else if evidence == "" || |evidence| > MAX_EVIDENCE then Err(EvidenceRequired)
    else Ok(completed + {index})
  }

  /** Which answer a load and a completion give, in the order of the checks. */
  lemma AnswersAreExact(loaded: set<int>, completed: set<int>, ordered: bool, skills: nat, index: int, evidence: string)
    ensures var r := Load(loaded, ordered, skills, index);
            var known, turn := 1 <= index <= skills, !ordered || index in loaded || index == |loaded| + 1;
            && (r == Err(IndexInvalid) <==> !known) && (r == Err(OrderInvalid) <==> known && !turn)
            && (r.Ok? <==> known && turn) && (r.Ok? ==> r.value == loaded + {index})
    ensures var r := Complete(loaded, completed, ordered, index, evidence);
            var read, turn := index in loaded, !ordered || index == |completed| + 1;
            && (r == Err(NotLoaded) <==> !read) && (r == Err(OrderInvalid) <==> read && !turn)
            && (r == Err(EvidenceRequired) <==> read && turn && !(1 <= |evidence| <= 1000))
            && (r.Ok? <==> read && turn && 1 <= |evidence| <= 1000) && (r.Ok? ==> r.value == completed + {index})
  {
  }

  function UpTo(n: nat): (s: set<int>)
    ensures forall i :: i in s <==> 1 <= i <= n
    ensures |s| == n
  {
    if n == 0 then {} else UpTo(n - 1) + {n}
  }

  // The completed skills after a sequence of completions; refused ones change nothing.
  function Completions(loaded: set<int>, completed: set<int>, ordered: bool, attempts: seq<int>): set<int> {
    if attempts == [] then completed else
    var before := Completions(loaded, completed, ordered, attempts[..|attempts| - 1]);
    match Complete(loaded, before, ordered, attempts[|attempts| - 1], "done")
    case Ok(after) => after
    case Err(_) => before
  }

  // A phase below the next expected one is missing.
  ghost predicate Gap(completed: set<int>) {
    exists i :: 1 <= i <= |completed| && i !in completed
  }

  lemma {:induction false} GapStays(loaded: set<int>, completed: set<int>, attempts: seq<int>)
    requires Gap(completed)
    ensures Gap(Completions(loaded, completed, true, attempts))
    decreases |attempts|
  {
    if attempts != [] {
      GapStays(loaded, completed, attempts[..|attempts| - 1]);
      var before := Completions(loaded, completed, true, attempts[..|attempts| - 1]);
      var i :| 1 <= i <= |before| && i !in before;
      var after := Completions(loaded, completed, true, attempts);
      SubsetIsNoLarger(before, after);
      assert i !in after;
    }
  }

  lemma {:induction false} InOrder(loaded: set<int>, skills: nat, k: nat) returns (attempts: seq<int>)
    requires k <= skills && UpTo(skills) <= loaded
    ensures Completions(loaded, UpTo(k), true, attempts) == UpTo(skills)
    decreases skills
  {
    if k == skills {
      attempts := [];
    } else {
      var before := InOrder(loaded, skills - 1, k);
      attempts := before + [skills];
      assert attempts[..|attempts| - 1] == before;
      assert skills in UpTo(skills);
    }
  }

  lemma GaplessIsUpTo(completed: set<int>, skills: nat)
    requires completed <= UpTo(skills) && !Gap(completed)
    ensures completed == UpTo(|completed|) && |completed| <= skills
  {
    assert UpTo(|completed|) <= completed;
    Contained(UpTo(|completed|), completed);
    SubsetIsNoLarger(completed, UpTo(skills));
  }

  lemma Contained(a: set<int>, b: set<int>)
    requires a <= b && |a| == |b|
    ensures a == b
  {
    assert b == a + (b - a);
    assert |b - a| == 0;
  }

  /**
   Completions alone finish the ordered skills from here exactly when those already completed
   are the first ones.
   */
  lemma OrderedSkillsCanFinish(loaded: set<int>, completed: set<int>, skills: nat)
    requires completed <= UpTo(skills) <= loaded
    ensures (exists attempts :: Completions(loaded, completed, true, attempts) == UpTo(skills))
            <==> completed == UpTo(|completed|)
  {
    if Gap(completed) {
      forall attempts ensures Completions(loaded, completed, true, attempts) != UpTo(skills) {
        GapStays(loaded, completed, attempts);
        assert !Gap(UpTo(skills));
      }
    } else {
      GaplessIsUpTo(completed, skills);
      var attempts := InOrder(loaded, skills, |completed|);
    }
  }
}
