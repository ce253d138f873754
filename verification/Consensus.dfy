/** The review and revision loop of src/core/consensus.ts. */
module Consensus {
  import opened Prelude

  const PER_AGENT_LIMIT := 2048

  datatype Action = Submit | Approve | RequestChanges | Block

  datatype Message = Message(role: string, action: Action, content: string)

  datatype Evaluation = ConsensusReached | NeedsRevision | Blocked

  predicate AnyBlock(msgs: seq<Message>) {
    msgs != [] && (msgs[0].action == Block || AnyBlock(msgs[1..]))
  }

  predicate AllApprove(msgs: seq<Message>) {
    msgs == [] || (msgs[0].action == Approve && AllApprove(msgs[1..]))
  }

  function Evaluate(msgs: seq<Message>): Evaluation {
    if AnyBlock(msgs) then Blocked else if AllApprove(msgs) then ConsensusReached else NeedsRevision
  }

  /** One block blocks; consensus takes everybody's approval; anything else asks for a revision. */
  lemma {:induction false} EvaluationMeans(msgs: seq<Message>)
    ensures Evaluate(msgs) == Blocked <==> exists i :: 0 <= i < |msgs| && msgs[i].action == Block
    ensures Evaluate(msgs) == ConsensusReached <==> forall i :: 0 <= i < |msgs| ==> msgs[i].action == Approve
  {
    if msgs != [] {
      EvaluationMeans(msgs[1..]);
      assert forall i :: 0 < i < |msgs| ==> msgs[i] == msgs[1..][i - 1];
    }
  }

  datatype Section = Section(role: string, content: string)

  datatype Feedback = Feedback(round: nat, sections: seq<Section>)

  function Shortened(content: string): string {
    if |content| > PER_AGENT_LIMIT then content[..PER_AGENT_LIMIT] + "[truncated]" else content
  }

  function Sections(msgs: seq<Message>): seq<Section> {
    if msgs == [] then []
    else (if msgs[0].action == RequestChanges then [Section(msgs[0].role, Shortened(msgs[0].content))] else []) + Sections(msgs[1..])
  }

  function AggregateFeedback(msgs: seq<Message>, round: nat): Feedback {
    Feedback(round, Sections(msgs))
  }

  // ----- The agents and the human, as oracles -----

  /**
   * How the agents answer. A review is asked for by position in the list of reviewers, round and
   * content, and may fail; a revision may fail too.
   */
  datatype Agents = Agents(
    reviewers: seq<string>,
    review: (nat, nat, string) -> Option<Message>,
    revise: (nat, string, Feedback) -> Option<string>)

  /** A reviewer that fails counts as blocking. */
  function Answer(a: Agents, i: nat, round: nat, content: string): Message
    requires i < |a.reviewers|
  {
    match a.review(i, round, content)
    case Some(m) => m
    case None => Message(a.reviewers[i], Block, "")
  }

  function Answers(a: Agents, round: nat, content: string): (r: seq<Message>)
    ensures |r| == |a.reviewers|
  {
    seq(|a.reviewers|, i requires 0 <= i < |a.reviewers| => Answer(a, i, round, content))
  }

  /** The content under review in a round, if the reviser did its work in every round before. */
  function ContentAt(a: Agents, content: string, round: nat): Option<string> {
    if round == 0 then Some(content)
    else
      match ContentAt(a, content, round - 1)
      case None => None
      case Some(c) => a.revise(round, c, AggregateFeedback(Answers(a, round - 1, c), round))
  }

  predicate Reviewed(a: Agents, content: string, rounds: nat) {
    forall i :: 0 <= i < rounds ==> ContentAt(a, content, i).Some?
  }

  function Verdict(a: Agents, content: string, round: nat): Evaluation
    requires ContentAt(a, content, round).Some?
  {
    Evaluate(Answers(a, round, ContentAt(a, content, round).value))
  }

  datatype Snapshot = Snapshot(artifactId: string, content: string, round: nat)

  datatype Review = Review(agentId: string, round: nat, content: string)

  function RoundReviews(a: Agents, round: nat, content: string): seq<Review> {
    seq(|a.reviewers|, i requires 0 <= i < |a.reviewers| => Review(a.reviewers[i], round, content))
  }

  /** What a run has left behind: the snapshots captured and, round by round, the reviews asked for. */
  datatype Trace = Trace(snapshots: seq<Snapshot>, asked: seq<seq<Review>>)

  function Extended(t: Trace, a: Agents, artifactId: string, round: nat, content: string): Trace {
    Trace(t.snapshots + [Snapshot(artifactId, content, round)], t.asked + [RoundReviews(a, round, content)])
  }

  /** One more review asked for in the round under way. */
  function Noted(t: Trace, review: Review): Trace
    requires t.asked != []
  {
    var last := |t.asked| - 1;
    t.(asked := t.asked[last := t.asked[last] + [review]])
  }

  lemma NoteAppends(snapshots: seq<Snapshot>, asked: seq<seq<Review>>, part: seq<Review>, review: Review)
    ensures Noted(Trace(snapshots, asked + [part]), review) == Trace(snapshots, asked + [part + [review]])
  {
  }

  function Rounds(t: Trace, a: Agents, artifactId: string, content: string, rounds: nat): Trace
    requires Reviewed(a, content, rounds)
  {
    if rounds == 0 then t
    else Extended(Rounds(t, a, artifactId, content, rounds - 1), a, artifactId, rounds - 1, ContentAt(a, content, rounds - 1).value)
  }

  /** Every reviewer was asked once, about this snapshot's content and in its round. */
  ghost predicate AskedOnce(a: Agents, asked: seq<Review>, shot: Snapshot) {
    |asked| == |a.reviewers| && forall r :: 0 <= r < |asked| ==> asked[r] == Review(a.reviewers[r], shot.round, shot.content)
  }

  /** One snapshot a round, and every reviewer of a round is asked once and sees the content of that round's snapshot. */
  lemma {:induction false} ReviewersSeeTheSnapshot(t: Trace, a: Agents, artifactId: string, content: string, rounds: nat)
    requires Reviewed(a, content, rounds) && |t.snapshots| == |t.asked|
    ensures var after := Rounds(t, a, artifactId, content, rounds);
            && |after.snapshots| == |after.asked| == |t.snapshots| + rounds
            && t.snapshots <= after.snapshots && t.asked <= after.asked
            && forall i :: 0 <= i < rounds ==>
                 && after.snapshots[|t.snapshots| + i] == Snapshot(artifactId, ContentAt(a, content, i).value, i)
                 && AskedOnce(a, after.asked[|t.snapshots| + i], after.snapshots[|t.snapshots| + i])
  {
    if rounds > 0 {
      ReviewersSeeTheSnapshot(t, a, artifactId, content, rounds - 1);
      var before, after := Rounds(t, a, artifactId, content, rounds - 1), Rounds(t, a, artifactId, content, rounds);
      forall i | 0 <= i < rounds
        ensures after.snapshots[|t.snapshots| + i] == Snapshot(artifactId, ContentAt(a, content, i).value, i)
        ensures AskedOnce(a, after.asked[|t.snapshots| + i], after.snapshots[|t.snapshots| + i])
      {
        if i < rounds - 1 {
          assert after.snapshots[|t.snapshots| + i] == before.snapshots[|t.snapshots| + i];
          assert after.asked[|t.snapshots| + i] == before.asked[|t.snapshots| + i];
        }
      }
    }
  }

  /** What is reviewed next is what the reviser made of the content before it and of that round's requests, under the next round's number. */
  lemma {:induction false} RevisionsFollow(t: Trace, a: Agents, artifactId: string, content: string, rounds: nat, k: nat)
    requires Reviewed(a, content, rounds) && |t.snapshots| == |t.asked| && k + 1 < rounds
    ensures var shots := Rounds(t, a, artifactId, content, rounds).snapshots;
            var from := |t.snapshots|;
            && |shots| == from + rounds
            && shots[from].content == content
            && a.revise(k + 1, shots[from + k].content, Feedback(k + 1, Sections(Answers(a, k, shots[from + k].content)))) == Some(shots[from + k + 1].content)
  {
    ReviewersSeeTheSnapshot(t, a, artifactId, content, rounds);
    assert ContentAt(a, content, 0) == Some(content);
    assert ContentAt(a, content, k).Some? && ContentAt(a, content, k + 1).Some?;
  }

  function Revisions(stored: map<string, nat>, artifactId: string): nat {
    if artifactId in stored then stored[artifactId] else 0
  }

  function Grown(stored: map<string, nat>, artifactId: string, more: nat): map<string, nat> {
    if more == 0 then stored else stored[artifactId := Revisions(stored, artifactId) + more]
  }

  // ----- The loop -----

  datatype Outcome = Agreed | HumanApproved | Aborted

  datatype Next = Stop(outcome: Outcome) | CapReached | ReviserFailed | Revised(content: string)

  function HumanDecides(humanAborts: bool): Outcome {
    if humanAborts then Aborted else HumanApproved
  }

  /** What follows the answers of a round. */
  function NextOf(a: Agents, maxRounds: nat, round: nat, content: string, humanAborts: bool): Next {
    var msgs := Answers(a, round, content);
    match Evaluate(msgs)
    case Blocked => Stop(HumanDecides(humanAborts))
    case ConsensusReached => Stop(Agreed)
    case NeedsRevision =>
      if round + 1 >= maxRounds then CapReached
      else
        match a.revise(round + 1, content, AggregateFeedback(msgs, round + 1))
        case None => ReviserFailed
        case Some(revised) => Revised(revised)
  }

  /** The first `rounds` rounds happened and each asked for a revision. */
  predicate AllRevised(a: Agents, content: string, rounds: nat) {
    forall i :: 0 <= i < rounds ==> ContentAt(a, content, i).Some? && Verdict(a, content, i) == NeedsRevision
  }

  /** The outcome that a last round leads to; none if the reviser failed. */
  function Final(next: Next, humanAborts: bool): Option<Outcome> {
    match next
    case Stop(outcome) => Some(outcome)
    case ReviserFailed => None
    case _ => Some(HumanDecides(humanAborts))
  }

  /** The outcome and the number of rounds of a run that has come to this round; no outcome if the reviser failed. */
  function RunFrom(a: Agents, maxRounds: nat, current: string, round: nat, humanAborts: bool): (Option<Outcome>, nat)
    decreases maxRounds - round
  {
    if round >= maxRounds then (Some(HumanDecides(humanAborts)), round)
    else
      match NextOf(a, maxRounds, round, current, humanAborts)
      case Stop(outcome) => (Some(outcome), round + 1)
      case CapReached => (Some(HumanDecides(humanAborts)), round + 1)
      case ReviserFailed => (None, round + 1)
      case Revised(next) => RunFrom(a, maxRounds, next, round + 1, humanAborts)
  }

  lemma RevisionAdds(a: Agents, content: string, maxRounds: nat, current: string, round: nat, humanAborts: bool)
    requires round < maxRounds && ContentAt(a, content, round) == Some(current)
    ensures var next := NextOf(a, maxRounds, round, current, humanAborts);
            next.Revised? ==>
              && round + 1 < maxRounds && ContentAt(a, content, round + 1) == Some(next.content)
              && RunFrom(a, maxRounds, current, round, humanAborts) == RunFrom(a, maxRounds, next.content, round + 1, humanAborts)
    ensures var next := NextOf(a, maxRounds, round, current, humanAborts);
            !next.Revised? ==> RunFrom(a, maxRounds, current, round, humanAborts) == (Final(next, humanAborts), round + 1)
  {
  }

  /** How a run ended, in terms of its last round. */
  ghost predicate EndsWell(a: Agents, content: string, maxRounds: nat, outcome: Option<Outcome>, rounds: nat, humanAborts: bool)
    requires rounds > 0 ==> ContentAt(a, content, rounds - 1).Some?
  {
    if rounds == 0 then outcome == Some(HumanDecides(humanAborts)) && maxRounds == 0
    else
      match Verdict(a, content, rounds - 1)
      case ConsensusReached => outcome == Some(Agreed)
      case Blocked => outcome == Some(HumanDecides(humanAborts))
      case NeedsRevision =>
        if rounds == maxRounds then outcome == Some(HumanDecides(humanAborts))
        else outcome == None && ContentAt(a, content, rounds).None?
  }

  /**
   * For any agents and any human: a run ends within the cap, every round but the last asked for a
   * revision and got one, and it ends in agreement exactly when everybody approved the last round.
   */
  lemma {:induction false} RunEnds(a: Agents, content: string, maxRounds: nat, current: string, round: nat, humanAborts: bool)
    requires round <= maxRounds && AllRevised(a, content, round)
    requires round == 0 || round < maxRounds
    requires ContentAt(a, content, round) == Some(current)
    ensures var (outcome, rounds) := RunFrom(a, maxRounds, current, round, humanAborts);
            && round <= rounds <= maxRounds && Reviewed(a, content, rounds)
            && (rounds > 0 ==> AllRevised(a, content, rounds - 1))
            && EndsWell(a, content, maxRounds, outcome, rounds, humanAborts)
    decreases maxRounds - round
  {
    if round < maxRounds {
      var next := NextOf(a, maxRounds, round, current, humanAborts);
      RevisionAdds(a, content, maxRounds, current, round, humanAborts);
      if next.Revised? {
        RunEnds(a, content, maxRounds, next.content, round + 1, humanAborts);
      }
    }
  }

  /** In this round some reviewer blocked, or did not answer at all. */
  ghost predicate SomebodyBlocks(a: Agents, round: nat, content: string) {
    exists i :: 0 <= i < |a.reviewers| && (a.review(i, round, content).None? || a.review(i, round, content).value.action == Block)
  }

  ghost predicate EverybodyApproves(a: Agents, round: nat, content: string) {
    forall i :: 0 <= i < |a.reviewers| ==> a.review(i, round, content).Some? && a.review(i, round, content).value.action == Approve
  }

  lemma RoundMeans(a: Agents, round: nat, content: string)
    ensures Evaluate(Answers(a, round, content)) == Blocked <==> SomebodyBlocks(a, round, content)
    ensures Evaluate(Answers(a, round, content)) == ConsensusReached <==> EverybodyApproves(a, round, content)
  {
    var msgs := Answers(a, round, content);
    EvaluationMeans(msgs);
    forall i | 0 <= i < |msgs|
      ensures msgs[i].action == Block <==> a.review(i, round, content).None? || a.review(i, round, content).value.action == Block
      ensures msgs[i].action == Approve <==> a.review(i, round, content).Some? && a.review(i, round, content).value.action == Approve
    {
      assert msgs[i] == Answer(a, i, round, content);
    }
  }

  /** The run ended with somebody blocking its last round, or at the cap without everybody's approval. */
  ghost predicate AskedTheHuman(a: Agents, content: string, maxRounds: nat, rounds: nat)
    requires rounds > 0 ==> ContentAt(a, content, rounds - 1).Some?
  {
    || rounds == 0
    || SomebodyBlocks(a, rounds - 1, ContentAt(a, content, rounds - 1).value)
    || (rounds == maxRounds && !EverybodyApproves(a, rounds - 1, ContentAt(a, content, rounds - 1).value))
  }

  /**
   * What the outcome of a run says: agreement, that everybody approved the last round; an abort or a human's
   * approval, that the human was asked, after a block or at the cap, and aborted or did not; none, that the
   * reviser failed before the cap.
   */
  ghost predicate OutcomeMeans(a: Agents, content: string, maxRounds: nat, outcome: Option<Outcome>, rounds: nat, humanAborts: bool)
    requires rounds > 0 ==> ContentAt(a, content, rounds - 1).Some?
  {
    && (outcome == Some(Agreed) <==> rounds > 0 && EverybodyApproves(a, rounds - 1, ContentAt(a, content, rounds - 1).value))
    && (outcome == Some(Aborted) <==> humanAborts && AskedTheHuman(a, content, maxRounds, rounds))
    && (outcome == Some(HumanApproved) <==> !humanAborts && AskedTheHuman(a, content, maxRounds, rounds))
    && (outcome == None ==> 0 < rounds < maxRounds && ContentAt(a, content, rounds).None?)
    && (rounds == 0 <==> maxRounds == 0)
  }

  lemma {:induction false} RunMeans(a: Agents, content: string, maxRounds: nat, humanAborts: bool)
    ensures var (outcome, rounds) := RunFrom(a, maxRounds, content, 0, humanAborts);
            && rounds <= maxRounds && Reviewed(a, content, rounds) && (rounds > 0 ==> AllRevised(a, content, rounds - 1))
            && OutcomeMeans(a, content, maxRounds, outcome, rounds, humanAborts)
  {
    RunEnds(a, content, maxRounds, content, 0, humanAborts);
    var (outcome, rounds) := RunFrom(a, maxRounds, content, 0, humanAborts);
    EndMeans(a, content, maxRounds, outcome, rounds, humanAborts);
  }

  lemma {:induction false} EndMeans(a: Agents, content: string, maxRounds: nat, outcome: Option<Outcome>, rounds: nat, humanAborts: bool)
    requires (rounds > 0 ==> ContentAt(a, content, rounds - 1).Some?) && rounds <= maxRounds
    requires EndsWell(a, content, maxRounds, outcome, rounds, humanAborts)
    ensures OutcomeMeans(a, content, maxRounds, outcome, rounds, humanAborts)
  {
    if rounds > 0 {
      RoundMeans(a, rounds - 1, ContentAt(a, content, rounds - 1).value);
    }
  }

  // ----- The feedback -----

  /** The section tells who sent the message and what, the first 2048 characters of it marked as truncated if it is longer. */
  ghost predicate Tells(section: Section, m: Message) {
    section.role == m.role && section.content == if |m.content| <= 2048 then m.content else m.content[..2048] + "[truncated]"
  }

  /** The reviser is told of the messages that ask for changes, in their order, and of no others. */
  lemma {:induction false} FeedbackMeans(msgs: seq<Message>, asks: Message -> bool) returns (requests: seq<Message>)
    requires forall m :: asks(m) <==> m.action == RequestChanges
    ensures Filtered(requests, msgs, asks) && |Sections(msgs)| == |requests|
    ensures forall k :: 0 <= k < |requests| ==> Tells(Sections(msgs)[k], requests[k])
  {
    if msgs == [] {
      requests := [];
    } else {
      var rest := FeedbackMeans(msgs[1..], asks);
      requests := (if asks(msgs[0]) then [msgs[0]] else []) + rest;
      FilteredCons(msgs[0], rest, msgs[1..], asks);
      assert [msgs[0]] + msgs[1..] == msgs;
      SectionsStep(msgs, rest, asks(msgs[0]));
    }
  }

  lemma {:induction false} SectionsStep(msgs: seq<Message>, rest: seq<Message>, asks: bool)
    requires msgs != [] && |Sections(msgs[1..])| == |rest| && (asks <==> msgs[0].action == RequestChanges)
    requires forall k :: 0 <= k < |rest| ==> Tells(Sections(msgs[1..])[k], rest[k])
    ensures var requests := (if asks then [msgs[0]] else []) + rest;
            |Sections(msgs)| == |requests| && forall k :: 0 <= k < |requests| ==> Tells(Sections(msgs)[k], requests[k])
  {
  }

  lemma RoundAdds(t: Trace, a: Agents, artifactId: string, content: string, current: string, round: nat)
    requires Reviewed(a, content, round) && ContentAt(a, content, round) == Some(current)
    ensures Reviewed(a, content, round + 1)
    ensures Rounds(t, a, artifactId, content, round + 1) == Extended(Rounds(t, a, artifactId, content, round), a, artifactId, round, current)
  {
  }

  lemma GrownTwice(stored: map<string, nat>, artifactId: string, k: nat)
    ensures Grown(Grown(stored, artifactId, k), artifactId, 1) == Grown(stored, artifactId, k + 1)
  {
  }

  /** The artifact's stored counter has grown by so much, and no other one has changed. */
  ghost predicate CountedUp(before: map<string, nat>, after: map<string, nat>, artifactId: string, more: nat) {
    && Revisions(after, artifactId) == Revisions(before, artifactId) + more
    && forall x :: x != artifactId ==> Revisions(after, x) == Revisions(before, x)
  }

  lemma {:induction false} RunReport(a: Agents, content: string, maxRounds: nat, humanAborts: bool, outcome: Option<Outcome>, rounds: nat,
                  before: map<string, nat>, after: map<string, nat>, artifactId: string)
    requires (outcome, rounds) == RunFrom(a, maxRounds, content, 0, humanAborts)
    requires after == Grown(before, artifactId, if rounds == 0 then 0 else rounds - 1)
    ensures rounds <= maxRounds && Reviewed(a, content, rounds) && OutcomeMeans(a, content, maxRounds, outcome, rounds, humanAborts)
    ensures CountedUp(before, after, artifactId, if rounds == 0 then 0 else rounds - 1)
  {
    RunMeans(a, content, maxRounds, humanAborts);
  }

  class ConsensusLoop {
    const maxRounds: nat
    const agents: Agents
    var trace: Trace
    var revisionRounds: map<string, nat>

    constructor (agents: Agents, maxRounds: nat)
      ensures this.agents == agents && this.maxRounds == maxRounds
      ensures trace == Trace([], []) && revisionRounds == map[]
    {
      this.agents, this.maxRounds := agents, maxRounds;
      trace, revisionRounds := Trace([], []), map[];
    }

    /** The one way to reach a reviewer: the call leaves its record. A reviewer that fails counts as blocking. */
    method InvokeReviewer(i: nat, round: nat, content: string) returns (msg: Message)
      requires i < |agents.reviewers| && trace.asked != []
      modifies this`trace
      ensures msg == Answer(agents, i, round, content)
      ensures trace == Noted(old(trace), Review(agents.reviewers[i], round, content))
    {
      var last := |trace.asked| - 1;
      trace := trace.(asked := trace.asked[last := trace.asked[last] + [Review(agents.reviewers[i], round, content)]]);
      var answer := agents.review(i, round, content);
      if answer.None? {
        return Message(agents.reviewers[i], Block, "");
      }
      msg := answer.value;
    }

    /** Captures the snapshot, then asks the reviewers one by one. */
    method ReviewAll(artifactId: string, content: string, round: nat) returns (msgs: seq<Message>)
      modifies this`trace
      ensures trace == Extended(old(trace), agents, artifactId, round, content)
      ensures msgs == Answers(agents, round, content)
    {
      var snapshot := Snapshot(artifactId, content, round);
      trace := Trace(trace.snapshots + [snapshot], trace.asked + [[]]);
      msgs := [];
      for i := 0 to |agents.reviewers|
        invariant msgs == Answers(agents, round, content)[..i]
        invariant trace == Trace(old(trace).snapshots + [snapshot], old(trace).asked + [RoundReviews(agents, round, content)[..i]])
      {
        NoteAppends(old(trace).snapshots + [snapshot], old(trace).asked, RoundReviews(agents, round, content)[..i],
                    Review(agents.reviewers[i], round, content));
        assert RoundReviews(agents, round, content)[..i + 1]
            == RoundReviews(agents, round, content)[..i] + [Review(agents.reviewers[i], round, content)];
        var msg := InvokeReviewer(i, round, content);
        msgs := msgs + [msg];
      }
      assert RoundReviews(agents, round, content)[..|agents.reviewers|] == RoundReviews(agents, round, content);
    }

    /** One pass of the loop: snapshot, reviews and, where they ask for one and the cap allows it, a revision. */
    method RunRound(artifactId: string, content: string, round: nat, humanAborts: bool) returns (next: Next)
      modifies this
      ensures trace == Extended(old(trace), agents, artifactId, round, content)
      ensures next == NextOf(agents, maxRounds, round, content, humanAborts)
      ensures revisionRounds == Grown(old(revisionRounds), artifactId, if next.Revised? then 1 else 0)
    {
      var msgs := ReviewAll(artifactId, content, round);
      var evaluation := Evaluate(msgs);
      if evaluation == Blocked {
        return Stop(HumanDecides(humanAborts));
      }
      if evaluation == ConsensusReached {
        return Stop(Agreed);
      }
      if round + 1 >= maxRounds {
        return CapReached;
      }
      var revised := agents.revise(round + 1, content, AggregateFeedback(msgs, round + 1));
      if revised.None? {
        return ReviserFailed;
      }
      revisionRounds := revisionRounds[artifactId := Revisions(revisionRounds, artifactId) + 1];
      next := Revised(revised.value);
    }

    /** Captures one snapshot a round, and counts the revisions made. */
    method Run(artifactId: string, content: string, humanAborts: bool) returns (outcome: Option<Outcome>, rounds: nat)
      modifies this
      ensures (outcome, rounds) == RunFrom(agents, maxRounds, content, 0, humanAborts)
      ensures rounds <= maxRounds && Reviewed(agents, content, rounds) && OutcomeMeans(agents, content, maxRounds, outcome, rounds, humanAborts)
      ensures trace == Rounds(old(trace), agents, artifactId, content, rounds)
      ensures CountedUp(old(revisionRounds), revisionRounds, artifactId, if rounds == 0 then 0 else rounds - 1)
    {
      ghost var goal := RunFrom(agents, maxRounds, content, 0, humanAborts);
      var currentContent := content;
      rounds := 0;
      outcome := Some(HumanDecides(humanAborts));
      while rounds < maxRounds
        invariant rounds == 0 || rounds < maxRounds
        invariant Reviewed(agents, content, rounds) && ContentAt(agents, content, rounds) == Some(currentContent)
        invariant goal == RunFrom(agents, maxRounds, currentContent, rounds, humanAborts)
        invariant trace == Rounds(old(trace), agents, artifactId, content, rounds)
        invariant revisionRounds == Grown(old(revisionRounds), artifactId, rounds)
        invariant outcome == Some(HumanDecides(humanAborts))
      {
        RoundAdds(old(trace), agents, artifactId, content, currentContent, rounds);
        RevisionAdds(agents, content, maxRounds, currentContent, rounds, humanAborts);
        GrownTwice(old(revisionRounds), artifactId, rounds);
        var next := RunRound(artifactId, currentContent, rounds, humanAborts);
        rounds := rounds + 1;
        if !next.Revised? {
          outcome := Final(next, humanAborts);
          break;
        }
        currentContent := next.content;
      }
      RunReport(agents, content, maxRounds, humanAborts, outcome, rounds, old(revisionRounds), revisionRounds, artifactId);
    }
  }
}
