/** Types and sequence facts that the other modules share. */
module Prelude {

  datatype Option<+T> = None | Some(value: T)

  /** No element occurs twice. */
  ghost predicate NoDup<T>(xs: seq<T>) {
    forall i, j :: 0 <= i < j < |xs| ==> xs[i] != xs[j]
  }

  /** The elements of `xs`, in order, that belong to `keep`: a JavaScript filter on membership. */
  function KeepOnly(xs: seq<string>, keep: set<string>): (r: seq<string>)
    ensures |r| <= |xs|
  {
    if xs == [] then []
    else if xs[0] in keep then [xs[0]] + KeepOnly(xs[1..], keep)
    else KeepOnly(xs[1..], keep)
  }

  lemma {:induction false} KeepOnlyCounts(xs: seq<string>, keep: set<string>)
    ensures forall x :: multiset(KeepOnly(xs, keep))[x] == if x in keep then multiset(xs)[x] else 0
  {
    if xs != [] {
      KeepOnlyCounts(xs[1..], keep);
      assert xs == [xs[0]] + xs[1..];
    }
  }

  lemma {:induction false} KeepOnlyMembers(xs: seq<string>, keep: set<string>)
    ensures forall x :: x in KeepOnly(xs, keep) <==> x in xs && x in keep
  {
    if xs != [] {
      KeepOnlyMembers(xs[1..], keep);
      assert xs == [xs[0]] + xs[1..];
    }
  }

  /** Keeping everything changes nothing. */
  lemma {:induction false} KeepOnlyAll(xs: seq<string>, keep: set<string>)
    requires forall x :: x in xs ==> x in keep
    ensures KeepOnly(xs, keep) == xs
  {
    if xs != [] {
      KeepOnlyAll(xs[1..], keep);
    }
  }

  lemma {:induction false} KeepOnlyNone(xs: seq<string>, keep: set<string>)
    requires forall x :: x in xs ==> x !in keep
    ensures KeepOnly(xs, keep) == []
  {
    if xs != [] {
      KeepOnlyNone(xs[1..], keep);
    }
  }

  lemma {:induction false} KeepSame(ids: seq<string>, a: set<string>, b: set<string>)
    requires forall id :: id in ids ==> (id in a <==> id in b)
    ensures KeepOnly(ids, a) == KeepOnly(ids, b)
  {
    if ids != [] {
      KeepSame(ids[1..], a, b);
    }
  }

  lemma {:induction false} KeepOnlyAppend(xs: seq<string>, x: string, keep: set<string>)
    ensures KeepOnly(xs + [x], keep) == KeepOnly(xs, keep) + (if x in keep then [x] else [])
  {
    if xs == [] {
      assert [] + [x] == [x];
    } else {
      KeepOnlyAppend(xs[1..], x, keep);
      assert (xs + [x])[1..] == xs[1..] + [x];
    }
  }

  lemma {:induction false} CountAtMostOne<T>(xs: seq<T>, x: T)
    requires NoDup(xs)
    ensures multiset(xs)[x] <= 1
  {
    if xs != [] {
      CountAtMostOne(xs[1..], x);
      assert xs == [xs[0]] + xs[1..];
      assert x == xs[0] ==> x !in xs[1..];
    }
  }

  lemma {:induction false} CountsNoDup<T>(xs: seq<T>)
    requires forall x :: multiset(xs)[x] <= 1
    ensures NoDup(xs)
  {
    forall i, j | 0 <= i < j < |xs| ensures xs[i] != xs[j] {
      assert xs == xs[..j] + xs[j..];
      assert xs[i] == xs[..j][i];
      assert xs[j] == xs[j..][0];
      assert multiset(xs)[xs[i]] == multiset(xs[..j])[xs[i]] + multiset(xs[j..])[xs[i]];
    }
  }

  // ----- Leaving elements out -----

  /** `xs` is `ys` with elements left out. */
  ghost predicate Subsequence<T>(xs: seq<T>, ys: seq<T>)
    decreases |ys|
  {
    xs == [] || (ys != [] && ((xs[0] == ys[0] && Subsequence(xs[1..], ys[1..])) || Subsequence(xs, ys[1..])))
  }

  /** `part` is what `whole` becomes when just the elements that satisfy `keep` stay, as often as they were there and in their order. */
  ghost predicate Filtered<T(!new)>(part: seq<T>, whole: seq<T>, keep: T -> bool) {
    Subsequence(part, whole) && forall x :: multiset(part)[x] == if keep(x) then multiset(whole)[x] else 0
  }

  lemma {:induction false} SubsequenceCounts<T>(xs: seq<T>, ys: seq<T>)
    requires Subsequence(xs, ys)
    ensures multiset(xs) <= multiset(ys)
    decreases |ys|
  {
    if xs != [] {
      assert ys == [ys[0]] + ys[1..];
      if xs[0] == ys[0] && Subsequence(xs[1..], ys[1..]) {
        SubsequenceCounts(xs[1..], ys[1..]);
        assert xs == [xs[0]] + xs[1..];
      } else {
        SubsequenceCounts(xs, ys[1..]);
      }
    }
  }

  lemma {:induction false} SubsequenceSnoc<T>(xs: seq<T>, ys: seq<T>, y: T)
    requires Subsequence(xs, ys)
    ensures Subsequence(xs, ys + [y]) && Subsequence(xs + [y], ys + [y])
    decreases |ys|
  {
    if ys == [] {
      assert xs == [] && [] + [y] == [y] && [y][1..] == [];
    } else {
      assert (ys + [y])[1..] == ys[1..] + [y];
      if xs == [] {
        SubsequenceSnoc([], ys[1..], y);
        assert [] + [y] == [y];
      } else if xs[0] == ys[0] && Subsequence(xs[1..], ys[1..]) {
        SubsequenceSnoc(xs[1..], ys[1..], y);
        assert (xs + [y])[1..] == xs[1..] + [y];
      } else {
        SubsequenceSnoc(xs, ys[1..], y);
      }
    }
  }

  lemma FilteredCons<T(!new)>(x: T, part: seq<T>, whole: seq<T>, keep: T -> bool)
    requires Filtered(part, whole, keep)
    ensures Filtered((if keep(x) then [x] else []) + part, [x] + whole, keep)
  {
    assert ([x] + whole)[1..] == whole;
    if keep(x) {
      assert ([x] + part)[1..] == part;
    } else {
      assert [] + part == part;
    }
  }

  lemma FilteredSnoc<T(!new)>(part: seq<T>, whole: seq<T>, x: T, keep: T -> bool)
    requires Filtered(part, whole, keep)
    ensures Filtered(part + (if keep(x) then [x] else []), whole + [x], keep)
  {
    SubsequenceSnoc(part, whole, x);
    assert part + [] == part;
  }

  lemma FilteredFirst<T(!new)>(part: seq<T>, whole: seq<T>, keep: T -> bool)
    requires whole != [] && Filtered(part, whole, keep)
    ensures if keep(whole[0]) then part != [] && part[0] == whole[0] && Filtered(part[1..], whole[1..], keep)
            else Filtered(part, whole[1..], keep)
  {
    assert whole == [whole[0]] + whole[1..];
    if keep(whole[0]) {
      assert multiset(part)[whole[0]] == multiset(whole)[whole[0]] > multiset(whole[1..])[whole[0]];
      if Subsequence(part, whole[1..]) {
        SubsequenceCounts(part, whole[1..]);
        assert false;
      }
      assert part == [part[0]] + part[1..];
    }
  }

  /** There is one such part. */
  lemma {:induction false} FilteredOnce<T(!new)>(a: seq<T>, b: seq<T>, whole: seq<T>, keep: T -> bool)
    requires Filtered(a, whole, keep) && Filtered(b, whole, keep)
    ensures a == b
    decreases |whole|
  {
    if whole == [] {
      assert a == [] && b == [];
    } else {
      FilteredFirst(a, whole, keep);
      FilteredFirst(b, whole, keep);
      if keep(whole[0]) {
        FilteredOnce(a[1..], b[1..], whole[1..], keep);
        assert a == [a[0]] + a[1..] && b == [b[0]] + b[1..];
      } else {
        FilteredOnce(a, b, whole[1..], keep);
      }
    }
  }

  lemma {:induction false} KeepOnlyFilters(xs: seq<string>, keep: set<string>, member: string -> bool)
    requires forall x :: member(x) <==> x in keep
    ensures Filtered(KeepOnly(xs, keep), xs, member)
  {
    if xs != [] {
      KeepOnlyFilters(xs[1..], keep, member);
      FilteredCons(xs[0], KeepOnly(xs[1..], keep), xs[1..], member);
      assert [xs[0]] + xs[1..] == xs;
      assert [] + KeepOnly(xs[1..], keep) == KeepOnly(xs[1..], keep);
    }
  }
}
