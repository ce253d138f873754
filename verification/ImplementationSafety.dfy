/** What a task that ends up integrated has merged, and what that takes of the others. */
module ImplementationSafety {
  import opened Prelude
  import opened Git
  import opened Implementation

  // ----- The tree -----

  /** Between the check of the session head and the merge, the branch did not move. */
  predicate Quiet(next: Next)
    requires next.Integrated?
  {
    next.before == next.checked
  }

  /** The session branch has the tree of the verified commit, which has the branch's old head in its history. */
  ghost predicate MergedRight(next: Next)
    requires next.Integrated?
  {
    next.repo.session.tree == next.verified.tree && Anc(next.before, next.verified)
  }

  /** Both sides of the merge stay in the history; and if nothing moved in between, it merged the verified tree. */
  ghost predicate Contained(next: Next)
    requires next.Integrated?
  {
    Anc(next.before, next.repo.session) && Anc(next.verified, next.repo.session) && (Quiet(next) ==> MergedRight(next))
  }

  lemma {:induction false} IntegrateMerges(t: Task, verifiedHead: Commit, round: Round)
    requires Anc(verifiedHead, t.repo.head)
    ensures Integrate(t, verifiedHead, round).Integrated? ==> Contained(Integrate(t, verifiedHead, round))
  {
    var w := Moved(Moved(t.repo, round.beforeCheck), round.inWindow);
    if round.merge.Merges? {
      MergeContains(w.session, w.head, round.merge.change);
      if w.session == verifiedHead {
        MergeOfDescendant(w.session, w.head, round.merge.change);
      }
    }
  }

  lemma AttemptMerges(t: Task, round: Round)
    ensures Attempt(t, round).Integrated? ==> Contained(Attempt(t, round))
  {
    var u := t.(approved := Some(t.diff));
    var r := Moved(u.repo, round.beforeHead);
    var q := Moved(r, round.beforeMergeBase);
    if IsMergeBase(round.mergeBase, q.head, q.session) && round.mergeBase == r.session {
      IntegrateMerges(u.(repo := q), r.session, round);
    }
  }

  lemma {:induction false} AttemptsMerge(t: Task, script: seq<Round>)
    ensures Attempts(t, script).Integrated? ==> Contained(Attempts(t, script))
    decreases |script|
  {
    if script != [] {
      AttemptMerges(t, script[0]);
      var next := Attempt(t, script[0]);
      if next.Again? {
        AttemptsMerge(next.task, script[1..]);
      }
    }
  }

  /** An integrated task whose merge nobody got in front of leaves the session branch with exactly the tree that the verifier passed. */
  lemma IntegratedTree(session: Commit, base: Commit, patch: Option<Change>, moved: Commit, script: seq<Round>)
    ensures RunTask(session, base, patch, moved, script).Integrated? ==> Contained(RunTask(session, base, patch, moved, script))
  {
    var first := FirstDiff(session, base, patch, moved);
    if first.Again? {
      AttemptsMerge(first.task, script);
    }
  }

  // ----- The review -----

  ghost predicate Apart(r: Repo) {
    forall m :: m in r.made ==> !Anc(m, r.session)
  }

  /** Beyond `d`, the task branch holds nothing but its own commits. */
  ghost predicate Tight(r: Repo, d: Commit) {
    forall x :: Anc(d, x) && Anc(x, r.head) && x != d ==> x in r.made
  }

  /** The session branch is at `d`, or the task branch does not contain it. */
  ghost predicate Current(r: Repo, d: Commit) {
    r.session == d || !Anc(r.session, r.head)
  }

  ghost predicate RepoOk(r: Repo, d: Commit) {
    Apart(r) && Tight(r, d) && Current(r, d)
  }

  /** The diff under review runs from where the session branch was to the head of the task branch. */
  ghost predicate Inv(t: Task) {
    && RepoOk(t.repo, t.diff.from)
    && t.diff.to == t.repo.head
    && (t.base.Pinned? ==> t.base.commit == t.diff.from && Anc(t.diff.from, t.repo.head))
  }

  lemma MoveKeeps(r: Repo, d: Commit, to: Commit)
    requires RepoOk(r, d)
    ensures RepoOk(Moved(r, to), d)
  {
    if MayMove(r, to) && Anc(to, r.head) {
      AncTransitive(r.session, to, r.head);
    }
  }

  /** Where the session branch is now is as good a start for the diff. */
  lemma FromSession(r: Repo, d: Commit)
    requires RepoOk(r, d)
    ensures RepoOk(r, r.session)
  {
    forall x ensures Anc(r.session, x) && Anc(x, r.head) ==> Anc(r.session, r.head) {
      if Anc(r.session, x) && Anc(x, r.head) {
        AncTransitive(r.session, x, r.head);
      }
    }
  }

  lemma {:induction false} MaterializeKeeps(r: Repo, base: Commit, patch: Option<Change>)
    requires Apart(r) && (r.session == base || !Anc(r.session, base)) && Materialize(r, base, patch).Some?
    ensures RepoOk(Materialize(r, base, patch).value, base)
    ensures Anc(base, Materialize(r, base, patch).value.head)
  {
    var q := Materialize(r, base, patch).value;
    assert q.head.parents == [base];
    assert Anc(base, q.head.parents[0]);
    forall x | Anc(base, x) && Anc(x, q.head) && x != base ensures x in q.made {
      if x != q.head {
        AncAntisymmetric(base, x);
      }
    }
  }

  lemma RebaseKeeps(r: Repo, d: Commit, result: RebaseResult)
    requires RepoOk(r, d) && Rebase(r, result).Some?
    ensures RepoOk(Rebase(r, result).value, r.session) && Rebase(r, result).value.session == r.session
  {
    FromSession(r, d);
    if result.Replayed? {
      var q, s := Rebase(r, result).value, r.session;
      forall m | m in q.made ensures !Anc(m, s) {
        if m in NewCommits(s, result.changes) {
          NewCommitsFollow(s, result.changes, m);
        }
      }
      forall x | Anc(s, x) && Anc(x, q.head) && x != s ensures x in q.made {
        OnTopHistory(s, result.changes, x);
        if Anc(x, s) {
          AncAntisymmetric(s, x);
        }
      }
    }
  }

  lemma ReplayDiffKeeps(t: Task, r: Repo, d: Commit, move: Commit)
    requires RepoOk(r, d)
    ensures Inv(ReplayDiff(t, r, move))
  {
    MoveKeeps(r, d, move);
    FromSession(Moved(r, move), d);
  }

  lemma ReplayKeeps(t: Task, d: Commit, round: Round)
    requires RepoOk(t.repo, d) && Replay(t, round).Again?
    ensures Inv(Replay(t, round).task)
  {
    var r := Moved(t.repo, round.beforeRebase);
    MoveKeeps(t.repo, d, round.beforeRebase);
    RebaseKeeps(r, d, round.rebase);
    ReplayDiffKeeps(t, Rebase(r, round.rebase).value, r.session, round.beforeReplayDiff);
  }

  lemma ReviseKeeps(t: Task, round: Round)
    requires Inv(t) && Revise(t, round).Again?
    ensures Inv(Revise(t, round).task)
  {
    var d := t.diff.from;
    var r := Moved(t.repo, round.beforeReset);
    MoveKeeps(t.repo, d, round.beforeReset);
    var base := Resolve(t.base, r);
    if t.base.Pinned? && Anc(r.session, base) {
      AncTransitive(r.session, base, r.head);
    }
    MaterializeKeeps(r, base, round.patch);
    var q := Materialize(r, base, round.patch).value;
    MoveKeeps(q, base, round.beforeDiff);
    FromSession(Moved(q, round.beforeDiff), base);
  }

  /** What was approved is what is merged. */
  ghost predicate Covered(next: Next)
    requires next.Integrated?
  {
    next.approved == Some(Range(next.before, next.verified))
  }

  /** Whether the branch moved in front of the merge decides everything. */
  ghost predicate Decided(next: Next)
    requires next.Integrated?
  {
    (Covered(next) <==> Quiet(next)) && (Anc(next.before, next.verified) <==> Quiet(next))
  }

  lemma {:induction false} IntegrateKeeps(t: Task, verifiedHead: Commit, round: Round)
    requires RepoOk(t.repo, t.diff.from) && t.diff.to == t.repo.head && Anc(verifiedHead, t.repo.head)
    requires verifiedHead == t.diff.from && t.approved == Some(t.diff)
    ensures var next := Integrate(t, verifiedHead, round);
            (next.Again? ==> Inv(next.task)) && (next.Integrated? ==> Decided(next))
  {
    var d := t.diff.from;
    var r := Moved(t.repo, round.beforeCheck);
    var w := Moved(r, round.inWindow);
    MoveKeeps(t.repo, d, round.beforeCheck);
    MoveKeeps(r, d, round.inWindow);
    var next := Integrate(t, verifiedHead, round);
    if next.Again? {
      if r.session != verifiedHead && !(round.merge.MergeFails? && round.merge.early) {
        ReplayDiffKeeps(t, r, d, round.beforeReplayDiff);
      } else {
        ReplayKeeps(t.(repo := w), d, round);
      }
    }
  }

  lemma ProceedKeeps(t: Task, round: Round)
    requires Inv(t) && t.approved == Some(t.diff)
    ensures var next := Proceed(t, round);
            (next.Again? ==> Inv(next.task)) && (next.Integrated? ==> Decided(next))
  {
    var d := t.diff.from;
    var r := Moved(t.repo, round.beforeHead);
    var q := Moved(r, round.beforeMergeBase);
    MoveKeeps(t.repo, d, round.beforeHead);
    MoveKeeps(r, d, round.beforeMergeBase);
    if IsMergeBase(round.mergeBase, q.head, q.session) {
      if round.mergeBase != r.session {
        if Proceed(t, round).Again? {
          ReplayKeeps(t.(repo := q), d, round);
        }
      } else if round.verified {
        assert Anc(r.session, r.head);
        IntegrateKeeps(t.(repo := q), r.session, round);
      }
    }
  }

  lemma {:induction false} AttemptsCover(t: Task, script: seq<Round>)
    requires Inv(t)
    ensures Attempts(t, script).Integrated? ==> Decided(Attempts(t, script))
    decreases |script|
  {
    if script != [] {
      var next := Attempt(t, script[0]);
      match Review(script[0].answers, script[0].humanAborts, MAX_REVIEW_ROUNDS)
      case Threw =>
      case NeedsRevision =>
        if next.Again? {
          ReviseKeeps(t, script[0]);
          AttemptsCover(next.task, script[1..]);
        }
      case _ =>
        ProceedKeeps(t.(approved := Some(t.diff)), script[0]);
        if next.Again? {
          AttemptsCover(next.task, script[1..]);
        }
    }
  }

  lemma {:induction false} FirstDiffHolds(session: Commit, base: Commit, patch: Option<Change>, moved: Commit)
    requires session == base || !Anc(session, base)
    requires FirstDiff(session, base, patch, moved).Again?
    ensures Inv(FirstDiff(session, base, patch, moved).task)
  {
    var r := Repo(session, base, {});
    MaterializeKeeps(r, base, patch);
    MoveKeeps(Materialize(r, base, patch).value, base, moved);
  }

  /**
   * From a base that is the session head or does not contain it, in every run: the merge is of the
   * verified tree onto an ancestor, and just what the reviewer or the human last approved, if and only if
   * the branch did not move between the check of its head and the merge.
   */
  lemma {:induction false} WindowDecides(session: Commit, base: Commit, patch: Option<Change>, moved: Commit, script: seq<Round>)
    requires session == base || !Anc(session, base)
    ensures var next := RunTask(session, base, patch, moved, script);
            next.Integrated? ==> (MergedRight(next) <==> Quiet(next)) && (Covered(next) <==> Quiet(next))
  {
    IntegratedTree(session, base, patch, moved, script);
    var first := FirstDiff(session, base, patch, moved);
    if first.Again? {
      FirstDiffHolds(session, base, patch, moved);
      AttemptsCover(first.task, script);
    }
  }

  /** A straight run, but for a move in front of the merge: approved, verified, merged. */
  function Straight(session: Commit, inWindow: Commit, merged: Change): Round {
    Round([Approve], false, None, session, session, session, session, session, session, Conflict, session, true, session, inWindow, Merges(merged))
  }

  function Different(tree: Tree): Tree {
    if tree == "" then "x" else ""
  }

  /** How a straight run ends. */
  lemma {:induction false} StraightRun(session: Commit, base: Commit, change: Change, inWindow: Commit, merged: Change)
    requires Anc(session, base) && change.tree != base.tree && Anc(session, inWindow)
    requires !Anc(Commit([base], change.tree, change.nonce), inWindow)
    ensures var c := Commit([base], change.tree, change.nonce);
            RunTask(session, base, Some(change), session, [Straight(session, inWindow, merged)])
            == Integrated(Repo(Merge(inWindow, c, merged), c, {c}), session, inWindow, c, Some(Range(base, c)))
  {
    var c := Commit([base], change.tree, change.nonce);
    assert c.parents[0] == base;
    assert Anc(base, c);
    AncTransitive(session, base, c);
    if Anc(c, session) {
      AncTransitive(c, session, inWindow);
    }
    MergeBaseOfAncestor(session, c, session);
    var t := Rediff(Task(Repo(session, c, {c}), Pinned(base), Range(base, base), None));
    assert FirstDiff(session, base, Some(change), session) == Again(t);
    var u := t.(approved := Some(t.diff));
    assert Attempt(t, Straight(session, inWindow, merged)) == Integrate(u, session, Straight(session, inWindow, merged));
  }

  /**
   * A fast-forward in the window: the check has passed, and the merge has whatever tree combining the
   * moved branch with the verified commit gives, under no approval that covers it.
   */
  lemma {:induction false} MovedWindow(session: Commit, to: Commit, change: Change, merged: Change)
    requires Anc(session, to) && session != to && change.tree != session.tree
    requires !Anc(Commit([session], change.tree, change.nonce), to)
    ensures var next := RunTask(session, session, Some(change), session, [Straight(session, to, merged)]);
            next.Integrated? && !Quiet(next) && next.repo.session.tree == merged.tree && next.verified.tree == change.tree && !Covered(next)
  {
    var c := Commit([session], change.tree, change.nonce);
    StraightRun(session, session, change, to, merged);
    if Anc(to, c) {
      assert Anc(to, c.parents[0]);
      AncAntisymmetric(session, to);
    }
  }

  /** From a base strictly ahead of the session branch, commits that no diff showed are merged, with no move at all. */
  lemma {:induction false} UnreviewedMerge(session: Commit, base: Commit)
    requires session != base && Anc(session, base)
    ensures var change := Change(Different(base.tree), 0);
            var next := RunTask(session, base, Some(change), session, [Straight(session, session, change)]);
            next.Integrated? && Quiet(next) && !Covered(next)
  {
    var change := Change(Different(base.tree), 0);
    var c := Commit([base], change.tree, 0);
    assert c.parents[0] == base;
    assert Anc(base, c);
    if Anc(c, session) {
      AncTransitive(base, c, session);
      AncAntisymmetric(base, session);
    }
    StraightRun(session, base, change, session, change);
  }

  /** In this run, if it integrates and nothing moved in front of its merge, the approval covers the merge. */
  ghost predicate CoveredWhenQuiet(session: Commit, base: Commit, patch: Option<Change>, moved: Commit, script: seq<Round>) {
    var next := RunTask(session, base, patch, moved, script);
    next.Integrated? && Quiet(next) ==> Covered(next)
  }

  /**
   * Given that, the review covers what is merged, in every run of a task, if and only if the commit the
   * task starts from is the session head or does not contain it.
   */
  lemma {:induction false} ReviewCoversMerge(session: Commit, base: Commit)
    ensures (forall patch, moved, script :: CoveredWhenQuiet(session, base, patch, moved, script)) <==> session == base || !Anc(session, base)
  {
    if session == base || !Anc(session, base) {
      forall patch, moved, script ensures CoveredWhenQuiet(session, base, patch, moved, script) {
        WindowDecides(session, base, patch, moved, script);
      }
    } else {
      UnreviewedMerge(session, base);
      var change := Change(Different(base.tree), 0);
      assert !CoveredWhenQuiet(session, base, Some(change), session, [Straight(session, session, change)]);
    }
  }

  // ----- The session branch only moves forward -----

  function SessionOf(next: Next): Commit {
    match next
    case Again(t) => t.repo.session
    case Integrated(r, _, _, _, _) => r.session
    case Failed(r) => r.session
  }

  /** From `s`, the branch only went forward: to where it is, by way of where it was merged into. */
  ghost predicate Advances(s: Commit, next: Next) {
    Anc(s, SessionOf(next)) && (next.Integrated? ==> Anc(s, next.before))
  }

  lemma {:induction false} AdvancesFrom(s: Commit, r: Commit, next: Next)
    requires Anc(s, r) && Advances(r, next)
    ensures Advances(s, next)
  {
    AncTransitive(s, r, SessionOf(next));
    if next.Integrated? {
      AncTransitive(s, r, next.before);
    }
  }

  lemma ReplayAdvances(t: Task, round: Round)
    ensures Anc(t.repo.session, SessionOf(Replay(t, round)))
  {
    var r := Moved(t.repo, round.beforeRebase);
    var q := Rebase(r, round.rebase);
    if q.Some? {
      AncTransitive(t.repo.session, r.session, Moved(q.value, round.beforeReplayDiff).session);
    }
  }

  lemma IntegrateAdvances(t: Task, verifiedHead: Commit, round: Round)
    ensures Advances(t.repo.session, Integrate(t, verifiedHead, round))
  {
    var r := Moved(t.repo, round.beforeCheck);
    var w := Moved(r, round.inWindow);
    AncTransitive(t.repo.session, r.session, w.session);
    if r.session != verifiedHead && !(round.merge.MergeFails? && round.merge.early) {
      AncTransitive(t.repo.session, r.session, Moved(r, round.beforeReplayDiff).session);
    } else if round.merge.MergeFails? {
      ReplayAdvances(t.(repo := w), round);
      AncTransitive(t.repo.session, w.session, SessionOf(Integrate(t, verifiedHead, round)));
    } else {
      MergeContains(w.session, w.head, round.merge.change);
      AncTransitive(t.repo.session, w.session, Merge(w.session, w.head, round.merge.change));
    }
  }

  lemma ReviseAdvances(t: Task, round: Round)
    ensures Anc(t.repo.session, SessionOf(Revise(t, round)))
  {
    var r := Moved(t.repo, round.beforeReset);
    var q := Materialize(r, Resolve(t.base, r), round.patch);
    if q.Some? {
      AncTransitive(t.repo.session, r.session, Moved(q.value, round.beforeDiff).session);
    }
  }

  lemma ProceedAdvances(t: Task, round: Round)
    ensures Advances(t.repo.session, Proceed(t, round))
  {
    var r := Moved(t.repo, round.beforeHead);
    var q := Moved(r, round.beforeMergeBase);
    AncTransitive(t.repo.session, r.session, q.session);
    if IsMergeBase(round.mergeBase, q.head, q.session) {
      if round.mergeBase != r.session {
        ReplayAdvances(t.(repo := q), round);
      } else {
        IntegrateAdvances(t.(repo := q), r.session, round);
      }
      AdvancesFrom(t.repo.session, q.session, Proceed(t, round));
    }
  }

  lemma {:induction false} AttemptsAdvance(t: Task, script: seq<Round>)
    ensures Advances(t.repo.session, Attempts(t, script))
    decreases |script|
  {
    if script != [] {
      ReviseAdvances(t, script[0]);
      ProceedAdvances(t.(approved := Some(t.diff)), script[0]);
      var next := Attempt(t, script[0]);
      if next.Again? {
        AttemptsAdvance(next.task, script[1..]);
        AdvancesFrom(t.repo.session, next.task.repo.session, Attempts(t, script));
      }
    }
  }

  /** Whatever happens to a task, what was on the session branch stays on it. */
  lemma TaskAdvances(session: Commit, base: Commit, patch: Option<Change>, moved: Commit, script: seq<Round>)
    ensures Advances(session, RunTask(session, base, patch, moved, script))
  {
    var first := FirstDiff(session, base, patch, moved);
    if first.Again? {
      AttemptsAdvance(first.task, script);
      AdvancesFrom(session, first.task.repo.session, RunTask(session, base, patch, moved, script));
    }
  }
}
