/** What decides a task of the implementation phase: the reviewers' answers, the verifier, the human and the others. */
module ImplementationPasses {
  import opened Prelude
  import opened Git
  import opened Implementation

  // ----- The review -----

  /** Within the cap, the first answer that is not asked again is this one. */
  ghost predicate Decides(answers: seq<Answer>, rounds: nat, a: Answer) {
    exists k :: 0 <= k < rounds && DecidesAt(answers, a, k)
  }

  ghost predicate DecidesAt(answers: seq<Answer>, a: Answer, k: nat) {
    k < |answers| && answers[k] == a && !a.Other? && forall j :: 0 <= j < k ==> answers[j].Other?
  }

  /** So many answers, and each of them is asked again. */
  ghost predicate Undecided(answers: seq<Answer>, rounds: nat) {
    |answers| >= rounds && forall j :: 0 <= j < rounds ==> answers[j].Other?
  }

  lemma DecidesLater(answers: seq<Answer>, rounds: nat, a: Answer)
    requires rounds > 0 && answers != [] && answers[0].Other?
    ensures Decides(answers, rounds, a) <==> Decides(answers[1..], rounds - 1, a)
    ensures Undecided(answers, rounds) <==> Undecided(answers[1..], rounds - 1)
  {
    if Decides(answers, rounds, a) {
      var k :| 0 <= k < rounds && DecidesAt(answers, a, k);
      assert DecidesAt(answers[1..], a, k - 1);
    }
    if Decides(answers[1..], rounds - 1, a) {
      var k :| 0 <= k < rounds - 1 && DecidesAt(answers[1..], a, k);
      assert DecidesAt(answers, a, k + 1);
    }
  }

  lemma DecidesNow(answers: seq<Answer>, rounds: nat, a: Answer)
    requires rounds > 0 && answers != [] && !answers[0].Other?
    ensures Decides(answers, rounds, a) <==> answers[0] == a
    ensures !Undecided(answers, rounds)
  {
    if answers[0] == a {
      assert DecidesAt(answers, a, 0);
    }
  }

  /**
   * A review approves, or asks for changes, exactly if the first answer that is neither asked again nor
   * beyond the cap does. The human is asked exactly if that answer blocks or there is none, and decides
   * then: to approve, or to abort.
   */
  lemma {:induction false} ReviewMeans(answers: seq<Answer>, humanAborts: bool, rounds: nat)
    ensures var outcome := Review(answers, humanAborts, rounds);
            var asked := Decides(answers, rounds, Block) || Undecided(answers, rounds);
            && (outcome == Approved <==> Decides(answers, rounds, Approve))
            && (outcome == NeedsRevision <==> Decides(answers, rounds, RequestChanges))
            && (outcome == HumanApproved <==> !humanAborts && asked)
            && (humanAborts && asked ==> outcome == Threw)
    decreases rounds
  {
    if rounds > 0 && answers != [] {
      forall a ensures if answers[0].Other? then Decides(answers, rounds, a) <==> Decides(answers[1..], rounds - 1, a)
                       else Decides(answers, rounds, a) <==> answers[0] == a {
        if answers[0].Other? {
          DecidesLater(answers, rounds, a);
        } else {
          DecidesNow(answers, rounds, a);
        }
      }
      if answers[0].Other? {
        DecidesLater(answers, rounds, Approve);
        ReviewMeans(answers[1..], humanAborts, rounds - 1);
      } else {
        DecidesNow(answers, rounds, Approve);
      }
    }
  }

  // ----- One pass -----

  /** A reviewer approved within three answers, or a human who was asked did not abort. */
  ghost predicate Favourable(round: Round) {
    || Decides(round.answers, 3, Approve)
    || (!round.humanAborts && (Decides(round.answers, 3, Block) || Undecided(round.answers, 3)))
  }

  /** The session heads as the pass reads it, as git compares it, and as it is checked. */
  function HeadRead(t: Task, round: Round): Repo {
    Moved(t.repo, round.beforeHead)
  }

  function HeadCompared(t: Task, round: Round): Repo {
    Moved(HeadRead(t, round), round.beforeMergeBase)
  }

  function HeadChecked(t: Task, round: Round): Repo {
    Moved(HeadCompared(t, round), round.beforeCheck)
  }

  /** What git reports is a merge base, it is the session head that was read, and that is still the head when it is checked. */
  predicate Undisturbed(t: Task, round: Round) {
    && IsMergeBase(round.mergeBase, HeadCompared(t, round).head, HeadCompared(t, round).session)
    && round.mergeBase == HeadRead(t, round).session == HeadChecked(t, round).session
  }

  /** A pass integrates exactly if it was approved, nobody moved the branch under it, the verifier passed and the merge worked. */
  lemma PassIntegrates(t: Task, round: Round)
    ensures Attempt(t, round).Integrated? <==> Favourable(round) && Undisturbed(t, round) && round.verified && round.merge.Merges?
  {
    ReviewMeans(round.answers, round.humanAborts, MAX_REVIEW_ROUNDS);
  }

  /** The revised patch changes the base's tree, and its commit is not in the session branch already. */
  predicate Revisable(t: Task, round: Round) {
    var r := Moved(t.repo, round.beforeReset);
    var base := if t.base.Pinned? then t.base.commit else r.session;
    round.patch.Some? && round.patch.value.tree != base.tree && !Anc(Commit([base], round.patch.value.tree, round.patch.value.nonce), r.session)
  }

  /** The task branch can be put on top of the session branch: the rebase goes through, or there is nothing to do. */
  predicate Replayable(r: Repo, round: Round) {
    var q := Moved(r, round.beforeRebase);
    round.rebase.Replayed? || (round.rebase.UpToDate? && Anc(q.session, q.head))
  }

  /** The merge is tried although the head moved, because git failed before it could be read. */
  predicate FailsEarly(round: Round) {
    round.merge.MergeFails? && round.merge.early
  }

  /** The session branch was found moved before the merge: by git's merge base, or by the check. */
  predicate ReplaysForMove(t: Task, round: Round) {
    && IsMergeBase(round.mergeBase, HeadCompared(t, round).head, HeadCompared(t, round).session)
    && round.mergeBase != HeadRead(t, round).session
  }

  /** The verifier passed and the head was still that one, but the checkout or the merge failed. */
  predicate MergeFailed(t: Task, round: Round) {
    && IsMergeBase(round.mergeBase, HeadCompared(t, round).head, HeadCompared(t, round).session)
    && round.mergeBase == HeadRead(t, round).session && round.verified && round.merge.MergeFails?
    && (round.merge.early || HeadChecked(t, round).session == round.mergeBase)
  }

  /** The pass sends the task round again: revised, replayed after a move or a failed merge, or with a new diff after the check. */
  ghost predicate GoesRound(t: Task, round: Round) {
    if Decides(round.answers, 3, RequestChanges) then Revisable(t, round)
    else
      && Favourable(round)
      && (|| (ReplaysForMove(t, round) && Replayable(HeadCompared(t, round), round))
          || (MergeFailed(t, round) && !round.merge.humanAborts && Replayable(Moved(HeadChecked(t, round), round.inWindow), round))
          || (IsMergeBase(round.mergeBase, HeadCompared(t, round).head, HeadCompared(t, round).session)
              && round.mergeBase == HeadRead(t, round).session && round.verified && !FailsEarly(round)
              && HeadChecked(t, round).session != round.mergeBase))
  }

  /** And a pass that does neither fails the task. */
  lemma PassGoesRound(t: Task, round: Round)
    ensures Attempt(t, round).Again? <==> GoesRound(t, round)
  {
    ReviewMeans(round.answers, round.humanAborts, MAX_REVIEW_ROUNDS);
    ReviewIsOne(round.answers, round.humanAborts);
  }

  lemma ReviewIsOne(answers: seq<Answer>, humanAborts: bool)
    ensures Decides(answers, 3, RequestChanges) ==> !Decides(answers, 3, Approve) && !Decides(answers, 3, Block) && !Undecided(answers, 3)
  {
    ReviewMeans(answers, humanAborts, 3);
    ReviewMeans(answers, !humanAborts, 3);
  }

  // ----- A whole task -----

  /** The pass of a run that integrates it: all before it went round, it was favourable and verified, and nobody was in its way. */
  ghost predicate IntegratesAt(t: Task, script: seq<Round>, k: nat) {
    && k < |script| && Attempts(t, script[..k]).Again?
    && Favourable(script[k]) && script[k].verified && script[k].merge.Merges? && Undisturbed(Attempts(t, script[..k]).task, script[k])
  }

  lemma IntegratesNow(t: Task, script: seq<Round>)
    requires script != []
    ensures IntegratesAt(t, script, 0) <==> Attempt(t, script[0]).Integrated?
  {
    assert script[..0] == [];
    PassIntegrates(t, script[0]);
  }

  lemma IntegratesLater(t: Task, script: seq<Round>, k: nat)
    requires script != []
    ensures IntegratesAt(t, script, k + 1) <==>
              Attempt(t, script[0]).Again? && IntegratesAt(Attempt(t, script[0]).task, script[1..], k)
  {
    if k + 1 < |script| {
      assert script[..k + 1][0] == script[0] && script[..k + 1][1..] == script[1..][..k];
    }
  }

  /** A task is integrated exactly if one of its passes is such a pass. */
  lemma {:induction false} OnePassIntegrates(t: Task, script: seq<Round>)
    ensures Attempts(t, script).Integrated? <==> exists k: nat :: IntegratesAt(t, script, k)
    decreases |script|
  {
    if script != [] {
      var next := Attempt(t, script[0]);
      IntegratesNow(t, script);
      forall k: nat ensures IntegratesAt(t, script, k + 1) <==> next.Again? && IntegratesAt(next.task, script[1..], k) {
        IntegratesLater(t, script, k);
      }
      if next.Again? {
        OnePassIntegrates(next.task, script[1..]);
        SomeLater(t, script);
      } else {
        forall k: nat | IntegratesAt(t, script, k) ensures k == 0 {
          assert k > 0 ==> IntegratesAt(t, script, k - 1 + 1);
        }
      }
    }
  }

  lemma SomeLater(t: Task, script: seq<Round>)
    requires script != [] && Attempt(t, script[0]).Again?
    ensures (exists k: nat :: IntegratesAt(t, script, k)) <==> exists k: nat :: IntegratesAt(Attempt(t, script[0]).task, script[1..], k)
  {
    var u := Attempt(t, script[0]).task;
    IntegratesNow(t, script);
    if k: nat :| IntegratesAt(t, script, k) {
      IntegratesLater(t, script, k - 1);
      assert IntegratesAt(u, script[1..], k - 1);
    }
    if k: nat :| IntegratesAt(u, script[1..], k) {
      IntegratesLater(t, script, k);
      assert IntegratesAt(t, script, k + 1);
    }
  }

  /** The first patch changes the base's tree, and its commit is not in the session branch already. */
  predicate Startable(session: Commit, base: Commit, patch: Option<Change>) {
    patch.Some? && patch.value.tree != base.tree && !Anc(Commit([base], patch.value.tree, patch.value.nonce), session)
  }

  /**
   * In every run, a task is integrated if and only if its first patch could be committed and some pass of
   * its review loop, reached through passes that all went round, was approved by the reviewer or by a human
   * who was asked and did not abort, was passed by the verifier, found the session branch where it had left
   * it, and merged.
   */
  lemma TaskIntegrates(session: Commit, base: Commit, patch: Option<Change>, moved: Commit, script: seq<Round>)
    ensures RunTask(session, base, patch, moved, script).Integrated? <==>
              && Startable(session, base, patch)
              && exists k: nat :: IntegratesAt(FirstDiff(session, base, patch, moved).task, script, k)
  {
    if FirstDiff(session, base, patch, moved).Again? {
      OnePassIntegrates(FirstDiff(session, base, patch, moved).task, script);
    }
  }
}
