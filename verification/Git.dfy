/** Abstract git: commits with parents and a tree, ancestry, merge bases, rebases and merges. */
module Git {

  type Tree = string

  /** `nonce` stands for author, time and message: what tells apart two commits of one tree on one parent. */
  datatype Commit = Commit(parents: seq<Commit>, tree: Tree, nonce: nat)

  /** `a` is `c` or comes before it. */
  predicate Anc(a: Commit, c: Commit)
    decreases c
  {
    a == c || exists i :: 0 <= i < |c.parents| && Anc(a, c.parents[i])
  }

  lemma {:induction false} AncTransitive(a: Commit, b: Commit, c: Commit)
    requires Anc(a, b) && Anc(b, c)
    ensures Anc(a, c)
    decreases c
  {
    if b != c {
      var i :| 0 <= i < |c.parents| && Anc(b, c.parents[i]);
      AncTransitive(a, b, c.parents[i]);
    }
  }

  /** History has no cycles. */
  lemma {:induction false} AncAntisymmetric(a: Commit, c: Commit)
    requires Anc(a, c) && Anc(c, a)
    ensures a == c
    decreases c
  {
    if a != c {
      var i :| 0 <= i < |c.parents| && Anc(a, c.parents[i]);
      AncTransitive(c, a, c.parents[i]);
      assert Anc(c.parents[i], c);
      AncAntisymmetric(c, c.parents[i]);
    }
  }

  /** All commits that come before `c`, and `c`. */
  function History(c: Commit): set<Commit>
    decreases c
  {
    {c} + set i, x | 0 <= i < |c.parents| && x in History(c.parents[i]) :: x
  }

  lemma {:induction false} HistoryIsAncestry(a: Commit, c: Commit)
    ensures a in History(c) <==> Anc(a, c)
    decreases c
  {
    forall i | 0 <= i < |c.parents| ensures a in History(c.parents[i]) <==> Anc(a, c.parents[i]) {
      HistoryIsAncestry(a, c.parents[i]);
    }
  }

  /** A common ancestor that is not behind another common ancestor. */
  predicate IsMergeBase(m: Commit, a: Commit, b: Commit) {
    Anc(m, a) && Anc(m, b) && forall x :: x in History(a) && Anc(x, b) && Anc(m, x) ==> x == m
  }

  /** When `b` comes before `a`, it is their only merge base. */
  lemma {:induction false} MergeBaseOfAncestor(m: Commit, a: Commit, b: Commit)
    requires Anc(b, a)
    ensures IsMergeBase(m, a, b) <==> m == b
  {
    HistoryIsAncestry(b, a);
    if m == b {
      forall x | x in History(a) && Anc(x, b) && Anc(m, x) ensures x == m {
        AncAntisymmetric(x, b);
      }
    }
  }

  datatype Change = Change(tree: Tree, nonce: nat)

  /** A line of new commits on top of `base`. */
  function OnTop(base: Commit, changes: seq<Change>): Commit {
    if changes == [] then base
    else Commit([OnTop(base, changes[..|changes| - 1])], changes[|changes| - 1].tree, changes[|changes| - 1].nonce)
  }

  function NewCommits(base: Commit, changes: seq<Change>): set<Commit> {
    if changes == [] then {} else NewCommits(base, changes[..|changes| - 1]) + {OnTop(base, changes)}
  }

  lemma {:induction false} OnTopHistory(base: Commit, changes: seq<Change>, x: Commit)
    ensures Anc(x, OnTop(base, changes)) <==> x in NewCommits(base, changes) || Anc(x, base)
  {
    if changes != [] {
      OnTopHistory(base, changes[..|changes| - 1], x);
      assert OnTop(base, changes).parents[0] == OnTop(base, changes[..|changes| - 1]);
    }
  }

  lemma {:induction false} NewCommitsFollow(base: Commit, changes: seq<Change>, x: Commit)
    requires x in NewCommits(base, changes)
    ensures Anc(base, x) && !Anc(x, base)
  {
    var rest := changes[..|changes| - 1];
    if x in NewCommits(base, rest) {
      NewCommitsFollow(base, rest, x);
    } else {
      OnTopHistory(base, rest, base);
      assert x.parents[0] == OnTop(base, rest);
      if Anc(x, base) {
        AncTransitive(x, base, x.parents[0]);
        assert Anc(x.parents[0], x);
        AncAntisymmetric(x, x.parents[0]);
      }
    }
  }

  /** `git merge --no-ff`: nothing to do, or a commit with both parents; a parent behind the other adds nothing to the tree. */
  function Merge(ours: Commit, theirs: Commit, change: Change): Commit {
    if Anc(theirs, ours) then ours
    else Commit([ours, theirs], if Anc(ours, theirs) then theirs.tree else change.tree, change.nonce)
  }

  /** A merge has both sides in its history. */
  lemma {:induction false} MergeContains(ours: Commit, theirs: Commit, change: Change)
    ensures Anc(ours, Merge(ours, theirs, change)) && Anc(theirs, Merge(ours, theirs, change))
  {
    if !Anc(theirs, ours) {
      var m := Merge(ours, theirs, change);
      assert m.parents[0] == ours && m.parents[1] == theirs;
    }
  }

  lemma {:induction false} MergeOfDescendant(ours: Commit, theirs: Commit, change: Change)
    requires Anc(ours, theirs)
    ensures Merge(ours, theirs, change).tree == theirs.tree
  {
    if Anc(theirs, ours) {
      AncAntisymmetric(ours, theirs);
    }
  }
}
