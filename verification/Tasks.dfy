/** Handing out tasks to implementers and reviewers (src/phases/tasks.ts). */
module Tasks {
  import opened Prelude

  /** The two groups of a matched checklist line. */
  datatype Heading = Heading(taskId: string, description: string)

  datatype TaskAssignment = TaskAssignment(taskId: string, description: string, primaryAgent: string, reviewingAgent: string)

  datatype Result = Assigned(tasks: seq<TaskAssignment>) | NoDistinctReviewer(primaryAgent: string)

  /** The headings of a document, in order. */
  function Headings(lines: seq<string>, parse: string -> Option<Heading>): seq<Heading> {
    if lines == [] then []
    else
      var rest := lines[..|lines| - 1];
      match parse(lines[|lines| - 1])
      case Some(h) => Headings(rest, parse) + [h]
      case None => Headings(rest, parse)
  }

  /** They are those of the matching lines, every one of them and no others, each as the pattern reads it. */
  lemma {:induction false} HeadingsMean(lines: seq<string>, parse: string -> Option<Heading>, matches: string -> bool) returns (matched: seq<string>)
    requires forall line :: matches(line) <==> parse(line).Some?
    ensures Filtered(matched, lines, matches) && |Headings(lines, parse)| == |matched|
    ensures forall k :: 0 <= k < |matched| ==> Some(Headings(lines, parse)[k]) == parse(matched[k])
  {
    if lines == [] {
      matched := [];
    } else {
      var last := |lines| - 1;
      var rest := HeadingsMean(lines[..last], parse, matches);
      matched := rest + if matches(lines[last]) then [lines[last]] else [];
      FilteredSnoc(rest, lines[..last], lines[last], matches);
      assert lines[..last] + [lines[last]] == lines;
    }
  }

  function Primary(implementers: seq<string>, index: nat): string
    requires implementers != []
  {
    implementers[index % |implementers|]
  }

  /** The reviewer at this distance from where the round robin starts. */
  function Candidate(reviewers: seq<string>, index: nat, offset: nat): string
    requires reviewers != []
  {
    reviewers[(index + offset) % |reviewers|]
  }

  /** The first candidate, in cyclic order, that is not the implementer. */
  ghost predicate Chosen(reviewers: seq<string>, index: nat, primary: string, reviewer: string) {
    exists offset :: 0 <= offset < |reviewers| && ChosenAt(reviewers, index, primary, reviewer, offset)
  }

  ghost predicate ChosenAt(reviewers: seq<string>, index: nat, primary: string, reviewer: string, offset: nat)
    requires reviewers != []
  {
    && reviewer == Candidate(reviewers, index, offset) && reviewer != primary
    && forall k :: 0 <= k < offset ==> Candidate(reviewers, index, k) == primary
  }

  lemma ChosenIsDistinct(reviewers: seq<string>, index: nat, primary: string, r: string)
    ensures Chosen(reviewers, index, primary, r) ==> Reviewable(reviewers, primary)
  {
    if Chosen(reviewers, index, primary, r) {
      var offset :| 0 <= offset < |reviewers| && ChosenAt(reviewers, index, primary, r, offset);
      assert reviewers[(index + offset) % |reviewers|] in reviewers;
    }
  }

  lemma ChosenOnce(reviewers: seq<string>, index: nat, primary: string, a: string, b: string)
    requires Chosen(reviewers, index, primary, a) && Chosen(reviewers, index, primary, b)
    ensures a == b
  {
    var i :| 0 <= i < |reviewers| && ChosenAt(reviewers, index, primary, a, i);
    var j :| 0 <= j < |reviewers| && ChosenAt(reviewers, index, primary, b, j);
  }

  ghost predicate Reviewable(reviewers: seq<string>, primary: string) {
    exists r :: r in reviewers && r != primary
  }

  /** Going once round the list meets everybody. */
  lemma CycleMeetsAll(reviewers: seq<string>, index: nat, r: string) returns (offset: nat)
    requires r in reviewers
    ensures offset < |reviewers| && Candidate(reviewers, index, offset) == r
  {
    var j :| 0 <= j < |reviewers| && reviewers[j] == r;
    var start := index % |reviewers|;
    offset := if j >= start then j - start else j - start + |reviewers|;
    SameRemainder(index, offset, |reviewers|, j);
  }

  lemma SameRemainder(index: nat, offset: nat, n: nat, j: nat)
    requires n > 0 && j < n && offset == if j >= index % n then j - index % n else j - index % n + n
    ensures (index + offset) % n == j
  {
    var q := index / n;
    assert index == q * n + index % n;
    if j >= index % n {
      RemainderIs(index + offset, n, q, j);
    } else {
      assert (q + 1) * n == q * n + n;
      RemainderIs(index + offset, n, q + 1, j);
    }
  }

  lemma ProductGrows(a: int, b: int, n: nat)
    requires a <= b
    ensures a * n <= b * n
  {
  }

  lemma RemainderIs(x: nat, n: nat, q: nat, r: nat)
    requires n > 0 && r < n && x == q * n + r
    ensures x % n == r && x / n == q
  {
    var p := x / n;
    if p < q {
      ProductGrows(p + 1, q, n);
      assert false;
    }
    if p > q {
      ProductGrows(q + 1, p, n);
      assert false;
    }
  }

  /** So a search that found nobody proves that there is nobody. */
  lemma NobodyLeft(reviewers: seq<string>, index: nat, primary: string)
    requires reviewers != [] && forall k :: 0 <= k < |reviewers| ==> Candidate(reviewers, index, k) == primary
    ensures !Reviewable(reviewers, primary)
  {
    forall r | r in reviewers ensures r == primary {
      var offset := CycleMeetsAll(reviewers, index, r);
    }
  }

  /** Somebody was chosen, and not somebody with an empty id, which the check for a missing reviewer takes for nobody. */
  ghost predicate Assignable(implementers: seq<string>, reviewers: seq<string>, index: nat)
    requires implementers != []
  {
    exists r :: r != "" && Chosen(reviewers, index, Primary(implementers, index), r)
  }

  /** What the first tasks were given. */
  ghost predicate AssignedTo(tasks: seq<TaskAssignment>, headings: seq<Heading>, implementers: seq<string>, reviewers: seq<string>)
    requires implementers != []
  {
    |tasks| == |headings| && forall k :: 0 <= k < |tasks| ==>
      && tasks[k].taskId == headings[k].taskId && tasks[k].description == headings[k].description
      && tasks[k].primaryAgent == Primary(implementers, k)
      && tasks[k].reviewingAgent != "" && Chosen(reviewers, k, tasks[k].primaryAgent, tasks[k].reviewingAgent)
  }

  /** The round robin for one task; nobody if every reviewer is the implementer. */
  method FindReviewer(reviewers: seq<string>, index: nat, primary: string) returns (found: Option<string>)
    ensures found.Some? <==> Reviewable(reviewers, primary)
    ensures found.Some? ==> Chosen(reviewers, index, primary, found.value)
  {
    for offset := 0 to |reviewers|
      invariant forall k :: 0 <= k < offset ==> Candidate(reviewers, index, k) == primary
    {
      var candidate := reviewers[(index + offset) % |reviewers|];
      if candidate != primary {
        assert ChosenAt(reviewers, index, primary, candidate, offset);
        assert candidate in reviewers;
        return Some(candidate);
      }
    }
    found := None;
    if reviewers != [] {
      NobodyLeft(reviewers, index, primary);
    }
  }

  /**
   * That a reviewer can be given means that some reviewer is not the implementer, exactly when the first
   * such reviewer in cyclic order does not have the empty id; so always when no reviewer has it.
   */
  lemma AssignableMeans(implementers: seq<string>, reviewers: seq<string>, index: nat)
    requires implementers != []
    ensures (Assignable(implementers, reviewers, index) <==> Reviewable(reviewers, Primary(implementers, index)))
            <==> !Chosen(reviewers, index, Primary(implementers, index), "")
    ensures "" !in reviewers ==> (Assignable(implementers, reviewers, index) <==> Reviewable(reviewers, Primary(implementers, index)))
  {
    var primary := Primary(implementers, index);
    if Reviewable(reviewers, primary) {
      var r := FirstChosen(reviewers, index, primary, 0);
      OneChosen(reviewers, index, primary, r);
    } else {
      forall r ensures !Chosen(reviewers, index, primary, r) {
        ChosenIsDistinct(reviewers, index, primary, r);
      }
    }
  }

  lemma OneChosen(reviewers: seq<string>, index: nat, primary: string, r: string)
    requires Chosen(reviewers, index, primary, r)
    ensures forall x :: Chosen(reviewers, index, primary, x) ==> x == r
  {
    forall x ensures Chosen(reviewers, index, primary, x) ==> x == r {
      if Chosen(reviewers, index, primary, x) {
        ChosenOnce(reviewers, index, primary, x, r);
      }
    }
  }

  /** A distinct reviewer is there, but the empty id comes first and the work is refused. */
  lemma EmptyIdRefuses()
    ensures Reviewable(["", "b"], Primary(["a"], 0)) && !Assignable(["a"], ["", "b"], 0)
  {
    var reviewers, primary := ["", "b"], Primary(["a"], 0);
    assert "b" in reviewers;
    assert Candidate(reviewers, 0, 0) == "";
    assert ChosenAt(reviewers, 0, primary, "", 0);
    AssignableMeans(["a"], reviewers, 0);
  }

  lemma {:induction false} FirstChosen(reviewers: seq<string>, index: nat, primary: string, from: nat) returns (r: string)
    requires Reviewable(reviewers, primary) && from <= |reviewers|
    requires forall k :: 0 <= k < from ==> Candidate(reviewers, index, k) == primary
    ensures r in reviewers && Chosen(reviewers, index, primary, r)
    decreases |reviewers| - from
  {
    if from == |reviewers| {
      NobodyLeft(reviewers, index, primary);
      r := primary;
    } else {
      r := Candidate(reviewers, index, from);
      if r == primary {
        r := FirstChosen(reviewers, index, primary, from + 1);
      } else {
        assert ChosenAt(reviewers, index, primary, r, from);
      }
    }
  }

  ghost predicate AllAssignable(implementers: seq<string>, reviewers: seq<string>, count: nat)
    requires implementers != []
  {
    forall k :: 0 <= k < count ==> Assignable(implementers, reviewers, k)
  }

  lemma AssignedGrows(tasks: seq<TaskAssignment>, headings: seq<Heading>, implementers: seq<string>, reviewers: seq<string>, h: Heading, r: string)
    requires implementers != [] && AssignedTo(tasks, headings, implementers, reviewers) && AllAssignable(implementers, reviewers, |tasks|)
    requires r != "" && Chosen(reviewers, |tasks|, Primary(implementers, |tasks|), r)
    ensures AssignedTo(tasks + [TaskAssignment(h.taskId, h.description, Primary(implementers, |tasks|), r)], headings + [h], implementers, reviewers)
    ensures AllAssignable(implementers, reviewers, |tasks| + 1)
  {
  }

  /**
   * Throws exactly when some task's round-robin implementer cannot be given a reviewer, naming the first
   * such implementer; otherwise every task gets its implementer and the first distinct reviewer.
   */
  method ParseTaskAssignments(lines: seq<string>, parse: string -> Option<Heading>, implementers: seq<string>, reviewers: seq<string>)
    returns (result: Result)
    requires implementers != []
    ensures result.Assigned? <==> AllAssignable(implementers, reviewers, |Headings(lines, parse)|)
    ensures result.Assigned? ==> AssignedTo(result.tasks, Headings(lines, parse), implementers, reviewers)
    ensures result.NoDistinctReviewer? ==>
              exists k :: 0 <= k < |Headings(lines, parse)| && AllAssignable(implementers, reviewers, k)
                && !Assignable(implementers, reviewers, k) && result.primaryAgent == Primary(implementers, k)
  {
    var tasks: seq<TaskAssignment> := [];
    var taskIndex: nat := 0;
    for i := 0 to |lines|
      invariant taskIndex == |tasks|
      invariant AssignedTo(tasks, Headings(lines[..i], parse), implementers, reviewers)
      invariant AllAssignable(implementers, reviewers, taskIndex)
    {
      assert lines[..i + 1][..i] == lines[..i];
      var matched := parse(lines[i]);
      if matched.Some? {
        var primaryAgent := implementers[taskIndex % |implementers|];
        var reviewingAgent := FindReviewer(reviewers, taskIndex, primaryAgent);
        if reviewingAgent.None? || reviewingAgent.value == "" {
          HeadingsGrow(lines, parse, i + 1);
          Unassignable(implementers, reviewers, taskIndex, reviewingAgent);
          return NoDistinctReviewer(primaryAgent);
        }
        AssignedGrows(tasks, Headings(lines[..i], parse), implementers, reviewers, matched.value, reviewingAgent.value);
        tasks := tasks + [TaskAssignment(matched.value.taskId, matched.value.description, primaryAgent, reviewingAgent.value)];
        taskIndex := taskIndex + 1;
      }
    }
    assert lines[..|lines|] == lines;
    result := Assigned(tasks);
  }

  lemma Unassignable(implementers: seq<string>, reviewers: seq<string>, index: nat, found: Option<string>)
    requires implementers != []
    requires found.None? ==> !Reviewable(reviewers, Primary(implementers, index))
    requires found.Some? ==> found.value == "" && Chosen(reviewers, index, Primary(implementers, index), found.value)
    ensures !Assignable(implementers, reviewers, index)
  {
    var primary := Primary(implementers, index);
    forall r ensures Chosen(reviewers, index, primary, r) ==> r == "" {
      ChosenIsDistinct(reviewers, index, primary, r);
      if found.Some? && Chosen(reviewers, index, primary, r) {
        ChosenOnce(reviewers, index, primary, r, found.value);
      }
    }
  }

  lemma {:induction false} HeadingsGrow(lines: seq<string>, parse: string -> Option<Heading>, i: nat)
    requires i <= |lines|
    ensures |Headings(lines[..i], parse)| <= |Headings(lines, parse)|
    decreases |lines|
  {
    if i < |lines| {
      var shorter := lines[..|lines| - 1];
      HeadingsGrow(shorter, parse, i);
      assert shorter[..i] == lines[..i];
    } else {
      assert lines[..i] == lines;
    }
  }

  // ----- Shares -----

  /** How many tasks an agent is to implement. */
  function Load(tasks: seq<TaskAssignment>, agent: string): nat {
    if tasks == [] then 0
    else Load(tasks[..|tasks| - 1], agent) + if tasks[|tasks| - 1].primaryAgent == agent then 1 else 0
  }

  /** The size of the i-th of n shares of m things dealt in turn. */
  function Share(m: nat, n: nat, i: nat): nat
    requires i < n
  {
    m / n + if i < m % n then 1 else 0
  }

  lemma DealOne(m: nat, n: nat, i: nat)
    requires i < n && m > 0
    ensures Share(m, n, i) == Share(m - 1, n, i) + if (m - 1) % n == i then 1 else 0
  {
    var q, r := (m - 1) / n, (m - 1) % n;
    assert m - 1 == q * n + r;
    if r + 1 < n {
      RemainderIs(m, n, q, r + 1);
    } else {
      assert m == (q + 1) * n;
      RemainderIs(m, n, q + 1, 0);
    }
  }

  lemma {:induction false} LoadIsShare(tasks: seq<TaskAssignment>, implementers: seq<string>, i: nat)
    requires NoDup(implementers) && i < |implementers|
    requires forall k :: 0 <= k < |tasks| ==> tasks[k].primaryAgent == Primary(implementers, k)
    ensures Load(tasks, implementers[i]) == Share(|tasks|, |implementers|, i)
    decreases |tasks|
  {
    if tasks != [] {
      LoadIsShare(tasks[..|tasks| - 1], implementers, i);
      DealOne(|tasks|, |implementers|, i);
    }
  }

  /** With distinct implementers, no two of them differ by more than one task, and earlier ones never have fewer. */
  lemma {:induction false} LoadsAreEven(tasks: seq<TaskAssignment>, headings: seq<Heading>, implementers: seq<string>, reviewers: seq<string>, i: nat, j: nat)
    requires implementers != [] && NoDup(implementers) && AssignedTo(tasks, headings, implementers, reviewers)
    requires i < j < |implementers|
    ensures Load(tasks, implementers[j]) <= Load(tasks, implementers[i]) <= Load(tasks, implementers[j]) + 1
  {
    LoadIsShare(tasks, implementers, i);
    LoadIsShare(tasks, implementers, j);
  }

  /** How many tasks an agent is to review. */
  function ReviewLoad(tasks: seq<TaskAssignment>, agent: string): nat {
    if tasks == [] then 0
    else ReviewLoad(tasks[..|tasks| - 1], agent) + if tasks[|tasks| - 1].reviewingAgent == agent then 1 else 0
  }

  lemma FirstCandidateChosen(reviewers: seq<string>, index: nat, primary: string, r: string)
    requires reviewers != [] && reviewers[index % |reviewers|] != primary && Chosen(reviewers, index, primary, r)
    ensures r == reviewers[index % |reviewers|]
  {
    assert ChosenAt(reviewers, index, primary, Candidate(reviewers, index, 0), 0);
    ChosenOnce(reviewers, index, primary, r, Candidate(reviewers, index, 0));
  }

  lemma {:induction false} ReviewLoadIsShare(tasks: seq<TaskAssignment>, reviewers: seq<string>, i: nat)
    requires NoDup(reviewers) && i < |reviewers|
    requires forall k :: 0 <= k < |tasks| ==> tasks[k].reviewingAgent == reviewers[k % |reviewers|]
    ensures ReviewLoad(tasks, reviewers[i]) == Share(|tasks|, |reviewers|, i)
    decreases |tasks|
  {
    if tasks != [] {
      ReviewLoadIsShare(tasks[..|tasks| - 1], reviewers, i);
      DealOne(|tasks|, |reviewers|, i);
    }
  }

  /** Where no reviewer implements, the reviews are dealt in turn as well: no two loads differ by more than one. */
  lemma {:induction false} ReviewLoadsAreEven(tasks: seq<TaskAssignment>, headings: seq<Heading>, implementers: seq<string>, reviewers: seq<string>, i: nat, j: nat)
    requires implementers != [] && NoDup(reviewers) && AssignedTo(tasks, headings, implementers, reviewers)
    requires forall r :: r in reviewers ==> r !in implementers
    requires i < j < |reviewers|
    ensures ReviewLoad(tasks, reviewers[j]) <= ReviewLoad(tasks, reviewers[i]) <= ReviewLoad(tasks, reviewers[j]) + 1
  {
    forall k | 0 <= k < |tasks| ensures tasks[k].reviewingAgent == reviewers[k % |reviewers|] {
      assert tasks[k].primaryAgent in implementers;
      assert reviewers[k % |reviewers|] in reviewers;
      FirstCandidateChosen(reviewers, k, tasks[k].primaryAgent, tasks[k].reviewingAgent);
    }
    ReviewLoadIsShare(tasks, reviewers, i);
    ReviewLoadIsShare(tasks, reviewers, j);
  }
}
