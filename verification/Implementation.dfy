/**
 * One task of the implementation phase (src/phases/implementation.ts): generate, review, replay, verify
 * and merge, while somebody else moves the session branch between any two git commands.
 */
module Implementation {
  import opened Prelude
  import opened Git

  const MAX_REVIEW_ROUNDS := 3

  /** The session branch, the head of the task branch, and the commits made on the task branch. */
  datatype Repo = Repo(session: Commit, head: Commit, made: set<Commit>)

  /** What `git diff a..b` compares. */
  datatype Range = Range(from: Commit, to: Commit)

  /** The review base: the commit the task started from or, after a replay, the name of the session branch. */
  datatype Base = Pinned(commit: Commit) | SessionBranch

  datatype Task = Task(repo: Repo, base: Base, diff: Range, approved: Option<Range>)

  // ----- The others -----

  /** Others only fast-forward the session branch, and never onto commits of the task branch. */
  predicate MayMove(r: Repo, to: Commit) {
    Anc(r.session, to) && forall m :: m in r.made ==> !Anc(m, to)
  }

  /** Between two commands, the session branch may have moved; what is not a move of that kind is taken as none. */
  function Moved(r: Repo, to: Commit): Repo {
    if MayMove(r, to) then r.(session := to) else r
  }

  // ----- Commands on the worktree -----

  function Resolve(base: Base, r: Repo): Commit {
    if base.Pinned? then base.commit else r.session
  }

  /**
   * Reset to the base, apply the patch, commit. No patch means that generating or applying it failed; a
   * patch that changes nothing fails too. The commit is new: the session branch does not hold it yet.
   */
  function Materialize(r: Repo, base: Commit, patch: Option<Change>): Option<Repo> {
    if patch.None? || patch.value.tree == base.tree then None
    else
      var c := Commit([base], patch.value.tree, patch.value.nonce);
      if Anc(c, r.session) then None else Some(r.(head := c, made := r.made + {c}))
  }

  datatype RebaseResult = Conflict | UpToDate | Replayed(changes: seq<Change>)

  /** Only a branch that already contains the session head can be up to date. */
  function Rebase(r: Repo, result: RebaseResult): Option<Repo> {
    match result
    case Conflict => None
    case UpToDate => if Anc(r.session, r.head) then Some(r) else None
    case Replayed(changes) => Some(r.(head := OnTop(r.session, changes), made := r.made + NewCommits(r.session, changes)))
  }

  /** `getDiff` with the base as it resolves now. */
  function Rediff(t: Task): Task {
    t.(diff := Range(Resolve(t.base, t.repo), t.repo.head))
  }

  // ----- Review -----

  datatype Answer = Approve | RequestChanges | Block | Other | Fails

  datatype ReviewOutcome = Approved | NeedsRevision | HumanApproved | Threw

  /** An answer that is none of the three is asked again, up to the cap; a block and the cap go to the human. */
  function Review(answers: seq<Answer>, humanAborts: bool, rounds: nat): ReviewOutcome
    decreases rounds
  {
    if rounds == 0 then if humanAborts then Threw else HumanApproved
    else if answers == [] then Threw
    else
      match answers[0]
      case Approve => Approved
      case RequestChanges => NeedsRevision
      case Block => if humanAborts then Threw else HumanApproved
      case Other => Review(answers[1..], humanAborts, rounds - 1)
      case Fails => Threw
  }

  // ----- One pass of the loop -----

  /** A failure comes before the session head could be read (`early`), or with the checkout or the merge. */
  datatype MergeResult = Merges(change: Change) | MergeFails(early: bool, humanAborts: bool)

  /** Everything that the agents, the human, the verifier, git and the others decide in one pass. */
  datatype Round = Round(
    answers: seq<Answer>, humanAborts: bool,
    patch: Option<Change>, beforeReset: Commit, beforeDiff: Commit,
    beforeHead: Commit, beforeMergeBase: Commit, mergeBase: Commit,
    beforeRebase: Commit, rebase: RebaseResult, beforeReplayDiff: Commit,
    verified: bool, beforeCheck: Commit, inWindow: Commit, merge: MergeResult)

  /** An integration: the session head that was checked, the one merged into, the verified commit, the diff last approved. */
  datatype Next =
    | Again(task: Task)
    | Integrated(repo: Repo, checked: Commit, before: Commit, verified: Commit, approved: Option<Range>)
    | Failed(repo: Repo)

  function Revise(t: Task, round: Round): Next {
    var r := Moved(t.repo, round.beforeReset);
    match Materialize(r, Resolve(t.base, r), round.patch)
    case None => Failed(r)
    case Some(q) => Again(Rediff(t.(repo := Moved(q, round.beforeDiff))))
  }

  /** From here on the base is the session branch. */
  function ReplayDiff(t: Task, r: Repo, move: Commit): Task {
    Rediff(t.(repo := Moved(r, move), base := SessionBranch))
  }

  function Replay(t: Task, round: Round): Next {
    var r := Moved(t.repo, round.beforeRebase);
    match Rebase(r, round.rebase)
    case None => Failed(r)
    case Some(q) => Again(ReplayDiff(t, q, round.beforeReplayDiff))
  }

  /** The session head is checked; then come the checkout and the merge, before which the branch may have moved again. */
  function Integrate(t: Task, verifiedHead: Commit, round: Round): Next {
    var r := Moved(t.repo, round.beforeCheck);
    var early := round.merge.MergeFails? && round.merge.early;
    if r.session != verifiedHead && !early then Again(ReplayDiff(t, r, round.beforeReplayDiff))
    else
      var w := Moved(r, round.inWindow);
      match round.merge
      case Merges(change) => Integrated(w.(session := Merge(w.session, w.head, change)), verifiedHead, w.session, w.head, t.approved)
      case MergeFails(_, humanAborts) => if humanAborts then Failed(w) else Replay(t.(repo := w), round)
  }

  /** The session head is read, then the merge base, before which the branch may have moved again. */
  function Proceed(t: Task, round: Round): Next {
    var r := Moved(t.repo, round.beforeHead);
    var q := Moved(r, round.beforeMergeBase);
    if !IsMergeBase(round.mergeBase, q.head, q.session) then Failed(q)
    else if round.mergeBase != r.session then Replay(t.(repo := q), round)
    else if !round.verified then Failed(q)
    else Integrate(t.(repo := q), r.session, round)
  }

  function Attempt(t: Task, round: Round): Next {
    match Review(round.answers, round.humanAborts, MAX_REVIEW_ROUNDS)
    case Threw => Failed(t.repo)
    case NeedsRevision => Revise(t, round)
    case _ => Proceed(t.(approved := Some(t.diff)), round)
  }

  /** The passes of one task. A script that ends before the task does leaves it under way. */
  function Attempts(t: Task, script: seq<Round>): Next
    decreases |script|
  {
    if script == [] then Again(t)
    else
      match Attempt(t, script[0])
      case Again(next) => Attempts(next, script[1..])
      case done => done
  }

  /** What the first pass starts from: the worktree at the base, patched. */
  function FirstDiff(session: Commit, base: Commit, patch: Option<Change>, moved: Commit): Next {
    match Materialize(Repo(session, base, {}), base, patch)
    case None => Failed(Repo(session, base, {}))
    case Some(r) => Again(Rediff(Task(Moved(r, moved), Pinned(base), Range(base, base), None)))
  }

  function RunTask(session: Commit, base: Commit, patch: Option<Change>, moved: Commit, script: seq<Round>): Next {
    match FirstDiff(session, base, patch, moved)
    case Again(t) => Attempts(t, script)
    case done => done
  }
}
