/** The phase object of src/phases/implementation.ts: its loops, and what a whole phase leaves behind. */
module ImplementationPhase {
  import opened Prelude
  import opened Git
  import I = Implementation
  import opened ImplementationSafety
  import opened ImplementationPasses

  /**
   * What decides the course of one task: a move of the others before it starts, the commit that somebody
   * may have checked out at the root instead of the session branch, the first patch, and the passes.
   */
  datatype TaskScript = TaskScript(before: Commit, elsewhere: Option<Commit>, patch: Option<Change>, moved: Commit, script: seq<I.Round>)

  datatype Status = NotStarted | UnderWay | TaskIntegrated | TaskFailed

  /**
   * One integration: the session head and the base when the task started, the session head that was
   * checked and the one merged into, the verified commit, the head after, and the diff last approved.
   */
  datatype Merged = Merged(
    started: Commit, base: Commit, checked: Commit, before: Commit, verified: Commit, after: Commit, approved: Option<I.Range>)

  /**
   * Both sides are in the history. If the branch did not move between the check and the merge, the tree is
   * the verified one, built on the old head. And unless the base was strictly ahead, it is under exactly
   * that condition that every change of the merge was approved.
   */
  ghost predicate Sound(m: Merged) {
    && Anc(m.before, m.after) && Anc(m.verified, m.after)
    && (m.checked == m.before ==> m.after.tree == m.verified.tree && Anc(m.before, m.verified))
    && (m.started == m.base || !Anc(m.started, m.base) ==> (m.approved == Some(I.Range(m.before, m.verified)) <==> m.checked == m.before))
  }

  type Round = I.Round

  /** Between tasks nothing is on a task branch. */
  function StartOf(session: Commit, t: TaskScript): Commit {
    I.Moved(I.Repo(session, session, {}), t.before).session
  }

  /** HEAD at the root: the session branch, which every merge checks out, unless somebody checked out something else. */
  function BaseOf(session: Commit, t: TaskScript): Commit {
    if t.elsewhere.Some? then t.elsewhere.value else StartOf(session, t)
  }

  function Course(session: Commit, t: TaskScript): I.Next {
    I.RunTask(StartOf(session, t), BaseOf(session, t), t.patch, t.moved, t.script)
  }

  function StatusOf(next: I.Next): Status {
    match next
    case Again(_) => UnderWay
    case Integrated(_, _, _, _, _) => TaskIntegrated
    case Failed(_) => TaskFailed
  }

  function MergeOf(session: Commit, t: TaskScript): Merged
    requires Course(session, t).Integrated?
  {
    var next := Course(session, t);
    Merged(StartOf(session, t), BaseOf(session, t), next.checked, next.before, next.verified, next.repo.session, next.approved)
  }

  /** Everything an integration promises, from whatever base. */
  lemma {:induction false} TaskIsSafe(session: Commit, t: TaskScript)
    ensures var next := Course(session, t);
            && Anc(session, SessionOf(next))
            && (next.Integrated? ==> Sound(MergeOf(session, t)) && Anc(session, next.before))
  {
    var start, base, next := StartOf(session, t), BaseOf(session, t), Course(session, t);
    TaskAdvances(start, base, t.patch, t.moved, t.script);
    AdvancesFrom(session, start, next);
    IntegratedTree(start, base, t.patch, t.moved, t.script);
    if start == base || !Anc(start, base) {
      WindowDecides(start, base, t.patch, t.moved, t.script);
    }
  }

  /** The merges of a phase: each sound, each after the one before it, all in the history of `head`. */
  ghost predicate Line(merges: seq<Merged>, head: Commit) {
    && (forall k :: 0 <= k < |merges| ==> Sound(merges[k]) && Anc(merges[k].after, head))
    && forall k :: 0 < k < |merges| ==> Anc(merges[k - 1].after, merges[k].before)
  }

  lemma {:induction false} LineGoesOn(merges: seq<Merged>, head: Commit, later: Commit)
    requires Line(merges, head) && Anc(head, later)
    ensures Line(merges, later)
  {
    forall k | 0 <= k < |merges| ensures Anc(merges[k].after, later) {
      AncTransitive(merges[k].after, head, later);
    }
  }

  lemma LineGrows(merges: seq<Merged>, m: Merged)
    requires Line(merges, m.before) && Sound(m)
    ensures Line(merges + [m], m.after)
  {
    LineGoesOn(merges, m.before, m.after);
    assert Anc(m.after, m.after);
  }

  class ImplementationPhase {
    var repo: I.Repo
    var reviewBase: I.Base
    var diff: I.Range
    var approved: Option<I.Range>
    var statuses: seq<Status>

    constructor (session: Commit)
      ensures repo == I.Repo(session, session, {}) && statuses == []
    {
      repo := I.Repo(session, session, {});
      reviewBase, diff, approved, statuses := I.SessionBranch, I.Range(session, session), None, [];
    }

    function Task(): I.Task
      reads this
    {
      I.Task(repo, reviewBase, diff, approved)
    }

    /** Somebody else had time to move the session branch. */
    method Await(move: Commit)
      modifies this`repo
      ensures repo == I.Moved(old(repo), move)
    {
      if I.MayMove(repo, move) {
        repo := repo.(session := move);
      }
    }

    method TakeDiff()
      modifies this`diff
      ensures Task() == I.Rediff(old(Task()))
    {
      diff := I.Range(I.Resolve(reviewBase, repo), repo.head);
    }

    /** Up to three reviews; the human decides after a block and after the last. */
    method ReviewTask(answers: seq<I.Answer>, humanAborts: bool) returns (outcome: I.ReviewOutcome)
      ensures outcome == I.Review(answers, humanAborts, I.MAX_REVIEW_ROUNDS)
      ensures outcome == I.Approved <==> Decides(answers, 3, I.Approve)
      ensures outcome == I.NeedsRevision <==> Decides(answers, 3, I.RequestChanges)
      ensures outcome == I.HumanApproved <==> !humanAborts && (Decides(answers, 3, I.Block) || Undecided(answers, 3))
    {
      ReviewMeans(answers, humanAborts, I.MAX_REVIEW_ROUNDS);
      for reviewRound := 0 to I.MAX_REVIEW_ROUNDS
        invariant reviewRound <= |answers|
        invariant I.Review(answers, humanAborts, I.MAX_REVIEW_ROUNDS) == I.Review(answers[reviewRound..], humanAborts, I.MAX_REVIEW_ROUNDS - reviewRound)
      {
        if reviewRound == |answers| {
          return I.Threw;
        }
        match answers[reviewRound] {
          case Approve => return I.Approved;
          case RequestChanges => return I.NeedsRevision;
          case Block => return if humanAborts then I.Threw else I.HumanApproved;
          case Fails => return I.Threw;
          case Other =>
        }
      }
      outcome := if humanAborts then I.Threw else I.HumanApproved;
    }

    /** Reset, apply, commit; on failure the worktree is given up. */
    method Materialize(base: Commit, patch: Option<Change>) returns (ok: bool)
      modifies this`repo
      ensures ok <==> I.Materialize(old(repo), base, patch).Some?
      ensures repo == if ok then I.Materialize(old(repo), base, patch).value else old(repo)
    {
      if patch.None? || patch.value.tree == base.tree {
        return false;
      }
      var c := Commit([base], patch.value.tree, patch.value.nonce);
      if Anc(c, repo.session) {
        return false;
      }
      repo := repo.(head := c, made := repo.made + {c});
      ok := true;
    }

    method Revise(round: Round) returns (ok: bool)
      modifies this
      ensures I.Revise(old(Task()), round) == if ok then I.Again(Task()) else I.Failed(repo)
      ensures statuses == old(statuses)
    {
      Await(round.beforeReset);
      ok := Materialize(I.Resolve(reviewBase, repo), round.patch);
      if ok {
        Await(round.beforeDiff);
        TakeDiff();
      }
    }

    method Replay(round: Round) returns (ok: bool)
      modifies this
      ensures I.Replay(old(Task()), round) == if ok then I.Again(Task()) else I.Failed(repo)
      ensures statuses == old(statuses)
    {
      Await(round.beforeRebase);
      var rebased := I.Rebase(repo, round.rebase);
      if rebased.None? {
        return false;
      }
      repo := rebased.value;
      Await(round.beforeReplayDiff);
      reviewBase := I.SessionBranch;
      TakeDiff();
      ok := true;
    }

    /** The end of one pass: merge, replay or fail. */
    method Integrate(verifiedHead: Commit, round: Round) returns (next: I.Next)
      modifies this
      ensures next == I.Integrate(old(Task()), verifiedHead, round)
      ensures next.Again? ==> next.task == Task()
      ensures repo.session == SessionOf(next) && statuses == old(statuses)
    {
      Await(round.beforeCheck);
      var early := round.merge.MergeFails? && round.merge.early;
      if repo.session != verifiedHead && !early {
        Await(round.beforeReplayDiff);
        reviewBase := I.SessionBranch;
        TakeDiff();
        return I.Again(Task());
      }
      Await(round.inWindow);
      if round.merge.MergeFails? {
        if round.merge.humanAborts {
          return I.Failed(repo);
        }
        var ok := Replay(round);
        return if ok then I.Again(Task()) else I.Failed(repo);
      }
      var before := repo.session;
      repo := repo.(session := Merge(before, repo.head, round.merge.change));
      next := I.Integrated(repo, verifiedHead, before, repo.head, approved);
    }

    method Proceed(round: Round) returns (next: I.Next)
      modifies this
      ensures next == I.Proceed(old(Task()), round)
      ensures next.Again? ==> next.task == Task()
      ensures repo.session == SessionOf(next) && statuses == old(statuses)
    {
      Await(round.beforeHead);
      var reviewedSessionHead := repo.session;
      Await(round.beforeMergeBase);
      if !IsMergeBase(round.mergeBase, repo.head, repo.session) {
        return I.Failed(repo);
      }
      if round.mergeBase != reviewedSessionHead {
        var ok := Replay(round);
        return if ok then I.Again(Task()) else I.Failed(repo);
      }
      if !round.verified {
        return I.Failed(repo);
      }
      next := Integrate(reviewedSessionHead, round);
    }

    /** The loop of one task. */
    method RunTask(base: Commit, patch: Option<Change>, moved: Commit, script: seq<Round>) returns (next: I.Next)
      modifies this
      ensures next == I.RunTask(old(repo).session, base, patch, moved, script)
      ensures next.Integrated? <==>
                && Startable(old(repo).session, base, patch)
                && exists k: nat :: IntegratesAt(I.FirstDiff(old(repo).session, base, patch, moved).task, script, k)
      ensures repo.session == SessionOf(next) && statuses == old(statuses)
    {
      TaskIntegrates(repo.session, base, patch, moved, script);
      repo := I.Repo(repo.session, base, {});
      reviewBase, approved := I.Pinned(base), None;
      ghost var goal := I.RunTask(repo.session, base, patch, moved, script);
      var ok := Materialize(base, patch);
      if !ok {
        return I.Failed(repo);
      }
      Await(moved);
      TakeDiff();
      for i := 0 to |script|
        invariant goal == I.Attempts(Task(), script[i..])
        invariant statuses == old(statuses)
      {
        var round := script[i];
        assert script[i..][1..] == script[i + 1..];
        ghost var t := Task();
        var outcome := ReviewTask(round.answers, round.humanAborts);
        if outcome == I.Threw {
          return I.Failed(repo);
        }
        if outcome == I.NeedsRevision {
          ok := Revise(round);
          if !ok {
            return I.Failed(repo);
          }
        } else {
          approved := Some(diff);
          next := Proceed(round);
          if !next.Again? {
            return;
          }
        }
      }
      next := I.Again(Task());
    }

    /**
     * The tasks in order, each from the commit checked out at the root, until one is not integrated. The
     * integrated tasks are a prefix. Each merge follows the merge before it, is in the history of the
     * session branch at the end, and is sound: with no move in front of it, it has the verified tree, and
     * unless its base was strictly ahead of the session branch, which takes somebody to check that base
     * out, that is also when what it merged was approved (`Line`).
     */
    method Run(scripts: seq<TaskScript>) returns (merges: seq<Merged>)
      modifies this
      ensures |statuses| == |scripts| && |merges| <= |scripts|
      ensures forall k :: 0 <= k < |scripts| ==> (statuses[k] == TaskIntegrated <==> k < |merges|)
      ensures forall k :: |merges| < k < |scripts| ==> statuses[k] == NotStarted
      ensures |merges| < |scripts| ==> statuses[|merges|] == TaskFailed || statuses[|merges|] == UnderWay
      ensures Line(merges, repo.session)
      ensures forall k :: 0 <= k < |merges| && scripts[k].elsewhere.None? ==> merges[k].base == merges[k].started
      ensures Anc(old(repo).session, repo.session)
    {
      merges := [];
      statuses := seq(|scripts|, _ => NotStarted);
      for i := 0 to |scripts|
        invariant |merges| == i && |statuses| == |scripts|
        invariant forall k :: 0 <= k < |scripts| ==> statuses[k] == if k < i then TaskIntegrated else NotStarted
        invariant Line(merges, repo.session)
        invariant forall k :: 0 <= k < i && scripts[k].elsewhere.None? ==> merges[k].base == merges[k].started
        invariant Anc(old(repo).session, repo.session)
      {
        var session := repo.session;
        TaskIsSafe(session, scripts[i]);
        repo := I.Repo(session, session, {});
        Await(scripts[i].before);
        var started := repo.session;
        var base := if scripts[i].elsewhere.Some? then scripts[i].elsewhere.value else started;
        var next := RunTask(base, scripts[i].patch, scripts[i].moved, scripts[i].script);
        assert next == Course(session, scripts[i]);
        statuses := statuses[i := StatusOf(next)];
        AncTransitive(old(repo).session, session, repo.session);
        LineGoesOn(merges, session, repo.session);
        if !next.Integrated? {
          return;
        }
        LineGoesOn(merges, session, next.before);
        var m := Merged(started, base, next.checked, next.before, next.verified, next.repo.session, next.approved);
        LineGrows(merges, m);
        merges := merges + [m];
      }
    }
  }
}
