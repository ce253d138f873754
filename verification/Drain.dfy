/**
 * Draining a mailbox: what `SessionRegistry.drainUnread` (src/core/session-registry.ts) returns,
 * keeps and drops, as functions of the unread ids and of the loaded log.
 */
module Drain {
  import opened Prelude
  import opened Utf8
  import opened MessageStore

  /** A loaded log files every record under its own id. */
  ghost predicate WellKeyed(lookup: map<string, PeerMessage>) {
    forall id :: id in lookup ==> lookup[id].messageId == id
  }

  // ----- Sorting -----

  /** The messages of the ids that the log knows, in the order of the unread list. */
  function Known(unread: seq<string>, lookup: map<string, PeerMessage>): seq<PeerMessage> {
    if unread == [] then []
    else if unread[0] in lookup then [lookup[unread[0]]] + Known(unread[1..], lookup)
    else Known(unread[1..], lookup)
  }

  function Insert(sorted: seq<PeerMessage>, m: PeerMessage): seq<PeerMessage> {
    if sorted == [] then [m]
    else if m.timestamp < sorted[0].timestamp then [m] + sorted
    else [sorted[0]] + Insert(sorted[1..], m)
  }

  /** By timestamp; equal timestamps stay in their order. */
  function StableSort(ms: seq<PeerMessage>): seq<PeerMessage> {
    if ms == [] then [] else Insert(StableSort(ms[..|ms| - 1]), ms[|ms| - 1])
  }

  ghost predicate Chronological(ms: seq<PeerMessage>) {
    forall i, j :: 0 <= i < j < |ms| ==> ms[i].timestamp <= ms[j].timestamp
  }

  lemma {:induction false} InsertCounts(sorted: seq<PeerMessage>, m: PeerMessage)
    ensures multiset(Insert(sorted, m)) == multiset(sorted) + multiset{m}
  {
    if sorted != [] {
      assert sorted == [sorted[0]] + sorted[1..];
      InsertCounts(sorted[1..], m);
    }
  }

  lemma {:induction false} InsertMembers(sorted: seq<PeerMessage>, m: PeerMessage, x: PeerMessage)
    requires x in Insert(sorted, m)
    ensures x in sorted || x == m
  {
    InsertCounts(sorted, m);
    assert x in multiset(Insert(sorted, m));
  }

  lemma {:induction false} InsertOrders(sorted: seq<PeerMessage>, m: PeerMessage)
    requires Chronological(sorted)
    ensures Chronological(Insert(sorted, m))
  {
    if sorted != [] && sorted[0].timestamp <= m.timestamp {
      InsertOrders(sorted[1..], m);
      forall x | x in Insert(sorted[1..], m) ensures sorted[0].timestamp <= x.timestamp {
        InsertMembers(sorted[1..], m, x);
      }
    }
  }

  lemma {:induction false} SortOrders(ms: seq<PeerMessage>)
    ensures Chronological(StableSort(ms))
    ensures multiset(StableSort(ms)) == multiset(ms)
  {
    if ms != [] {
      SortOrders(ms[..|ms| - 1]);
      InsertOrders(StableSort(ms[..|ms| - 1]), ms[|ms| - 1]);
      InsertCounts(StableSort(ms[..|ms| - 1]), ms[|ms| - 1]);
      assert ms == ms[..|ms| - 1] + [ms[|ms| - 1]];
    }
  }

  // ----- The comparator of the source -----

  datatype Candidate = Candidate(idx: nat, msg: PeerMessage)

  /** A negative result of the comparator: by timestamp, then by place in the unread list. */
  predicate Before(a: Candidate, b: Candidate) {
    a.msg.timestamp < b.msg.timestamp || (a.msg.timestamp == b.msg.timestamp && a.idx < b.idx)
  }

  ghost predicate Ordered(cs: seq<Candidate>) {
    forall i, j :: 0 <= i < j < |cs| ==> Before(cs[i], cs[j])
  }

  function InsertCandidate(sorted: seq<Candidate>, c: Candidate): seq<Candidate> {
    if sorted == [] then [c]
    else if Before(c, sorted[0]) then [c] + sorted
    else [sorted[0]] + InsertCandidate(sorted[1..], c)
  }

  function SortCandidates(cs: seq<Candidate>): seq<Candidate> {
    if cs == [] then [] else InsertCandidate(SortCandidates(cs[..|cs| - 1]), cs[|cs| - 1])
  }

  function MessagesOf(cs: seq<Candidate>): (r: seq<PeerMessage>)
    ensures |r| == |cs| && forall i :: 0 <= i < |cs| ==> r[i] == cs[i].msg
  {
    if cs == [] then [] else [cs[0].msg] + MessagesOf(cs[1..])
  }

  ghost predicate Indexed(cs: seq<Candidate>) {
    forall i, j :: 0 <= i < j < |cs| ==> cs[i].idx < cs[j].idx
  }

  ghost predicate IndexedBelow(cs: seq<Candidate>, bound: nat) {
    forall i :: 0 <= i < |cs| ==> cs[i].idx < bound
  }

  lemma {:induction false} InsertCandidateCounts(sorted: seq<Candidate>, c: Candidate)
    ensures multiset(InsertCandidate(sorted, c)) == multiset(sorted) + multiset{c}
  {
    if sorted != [] {
      assert sorted == [sorted[0]] + sorted[1..];
      InsertCandidateCounts(sorted[1..], c);
    }
  }

  lemma {:induction false} InsertCandidateOrders(sorted: seq<Candidate>, c: Candidate)
    requires Ordered(sorted) && IndexedBelow(sorted, c.idx)
    ensures Ordered(InsertCandidate(sorted, c))
  {
    if sorted != [] && !Before(c, sorted[0]) {
      InsertCandidateOrders(sorted[1..], c);
      InsertCandidateCounts(sorted[1..], c);
      forall x | x in InsertCandidate(sorted[1..], c) ensures Before(sorted[0], x) {
        assert x in multiset(InsertCandidate(sorted[1..], c));
      }
    }
  }

  lemma {:induction false} InsertCandidateProjects(sorted: seq<Candidate>, c: Candidate)
    requires IndexedBelow(sorted, c.idx)
    ensures MessagesOf(InsertCandidate(sorted, c)) == Insert(MessagesOf(sorted), c.msg)
  {
    if sorted != [] {
      if Before(c, sorted[0]) {
        assert MessagesOf([c] + sorted) == [c.msg] + MessagesOf(sorted);
      } else {
        InsertCandidateProjects(sorted[1..], c);
      }
    }
  }

  lemma {:induction false} SortCandidatesCounts(cs: seq<Candidate>)
    ensures multiset(SortCandidates(cs)) == multiset(cs)
  {
    if cs != [] {
      var init, last := cs[..|cs| - 1], cs[|cs| - 1];
      SortCandidatesCounts(init);
      InsertCandidateCounts(SortCandidates(init), last);
      assert cs == init + [last];
    }
  }

  lemma {:induction false} SortedBelow(cs: seq<Candidate>, bound: nat)
    requires IndexedBelow(cs, bound)
    ensures IndexedBelow(SortCandidates(cs), bound)
  {
    SortCandidatesCounts(cs);
    forall i | 0 <= i < |SortCandidates(cs)| ensures SortCandidates(cs)[i].idx < bound {
      assert SortCandidates(cs)[i] in multiset(cs);
    }
  }

  lemma {:induction false} MessagesOfPrefix(cs: seq<Candidate>, n: nat)
    requires n <= |cs|
    ensures MessagesOf(cs[..n]) == MessagesOf(cs)[..n]
  {
  }

  /** Sorting by the comparator is the stable sort by timestamp. */
  lemma {:induction false} SortCandidatesOrders(cs: seq<Candidate>)
    requires Indexed(cs)
    ensures Ordered(SortCandidates(cs))
    ensures MessagesOf(SortCandidates(cs)) == StableSort(MessagesOf(cs))
  {
    if cs != [] {
      var init, last := cs[..|cs| - 1], cs[|cs| - 1];
      SortCandidatesOrders(init);
      SortedBelow(init, last.idx);
      InsertCandidateOrders(SortCandidates(init), last);
      InsertCandidateProjects(SortCandidates(init), last);
      MessagesOfPrefix(cs, |cs| - 1);
    }
  }

  /** The comparator is a strict total order, so whatever algorithm sorts by it gives this result. */
  lemma {:induction false} SortIsUnique(a: seq<Candidate>, b: seq<Candidate>)
    requires Ordered(a) && Ordered(b) && multiset(a) == multiset(b)
    ensures a == b
  {
    assert |a| == |multiset(a)| == |b|;
    if a != [] {
      SameFirst(a, b);
      assert a == [a[0]] + a[1..] && b == [b[0]] + b[1..];
      assert multiset(a[1..]) == multiset(a) - multiset{a[0]};
      assert multiset(b[1..]) == multiset(b) - multiset{b[0]};
      SortIsUnique(a[1..], b[1..]);
    }
  }

  lemma SameFirst(a: seq<Candidate>, b: seq<Candidate>)
    requires Ordered(a) && Ordered(b) && multiset(a) == multiset(b) && a != [] && b != []
    ensures a[0] == b[0]
  {
    assert a[0] in multiset(b) && b[0] in multiset(a);
    var i :| 0 <= i < |b| && b[i] == a[0];
    var j :| 0 <= j < |a| && a[j] == b[0];
  }

  // ----- The byte-bounded prefix -----

  function Size(wrap: PeerMessage -> string, m: PeerMessage): nat {
    |Encode(wrap(m))|
  }

  /** How many messages the loop takes, having taken `taken` of them with `cumulative` bytes. */
  function Take(ms: seq<PeerMessage>, wrap: PeerMessage -> string, maxBytes: nat, taken: nat, cumulative: nat): nat {
    if ms == [] then 0
    else
      var size := Size(wrap, ms[0]);
      if cumulative + size > maxBytes then (if taken > 0 then 0 else 1)
      else 1 + Take(ms[1..], wrap, maxBytes, taken + 1, cumulative + size)
  }

  ghost function Total(ms: seq<PeerMessage>, wrap: PeerMessage -> string): nat {
    if ms == [] then 0 else Size(wrap, ms[0]) + Total(ms[1..], wrap)
  }

  /**
   * The prefix taken is the longest whose envelopes fit, or the first message alone when
   * even that does not.
   */
  lemma {:induction false} TakeIsGreedy(ms: seq<PeerMessage>, wrap: PeerMessage -> string, maxBytes: nat, taken: nat, cumulative: nat)
    ensures var k := Take(ms, wrap, maxBytes, taken, cumulative);
            && k <= |ms|
            && (taken == 0 && ms != [] ==> k >= 1)
            && (k > 1 || (k == 1 && taken > 0) ==> cumulative + Total(ms[..k], wrap) <= maxBytes)
            && (k < |ms| ==> cumulative + Total(ms[..k + 1], wrap) > maxBytes)
  {
    if ms != [] {
      var size := Size(wrap, ms[0]);
      assert ms[..1] == [ms[0]] && Total(ms[..1], wrap) == size + Total([], wrap);
      if cumulative + size <= maxBytes {
        TakeIsGreedy(ms[1..], wrap, maxBytes, taken + 1, cumulative + size);
        var k := Take(ms[1..], wrap, maxBytes, taken + 1, cumulative + size);
        assert ms[..1 + k][1..] == ms[1..][..k];
        if k < |ms[1..]| {
          assert ms[..2 + k][1..] == ms[1..][..k + 1];
        }
      } else if |ms| > 1 {
        assert ms[..2][1..] == [ms[1]];
      }
    }
  }

  // ----- One drain -----

  function Drained(unread: seq<string>, lookup: map<string, PeerMessage>, wrap: PeerMessage -> string, maxBytes: nat): seq<PeerMessage> {
    var sorted := StableSort(Known(unread, lookup));
    var k := Take(sorted, wrap, maxBytes, 0, 0);
    if k <= |sorted| then sorted[..k] else sorted
  }

  function Ids(ms: seq<PeerMessage>): (r: seq<string>)
    ensures |r| == |ms| && forall i :: 0 <= i < |ms| ==> r[i] == ms[i].messageId
  {
    if ms == [] then [] else [ms[0].messageId] + Ids(ms[1..])
  }

  function IdSet(ms: seq<PeerMessage>): set<string> {
    set m | m in ms :: m.messageId
  }

  /** What stays unread: not returned, and known to the log. */
  function Remaining(unread: seq<string>, lookup: map<string, PeerMessage>, wrap: PeerMessage -> string, maxBytes: nat): seq<string> {
    KeepOnly(unread, lookup.Keys - IdSet(Drained(unread, lookup, wrap, maxBytes)))
  }

  /** What a drain drops because the log does not know it. */
  function Orphans(unread: seq<string>, lookup: map<string, PeerMessage>): seq<string> {
    KeepOnly(unread, (set id | id in unread) - lookup.Keys)
  }

  lemma {:induction false} KnownMembers(unread: seq<string>, lookup: map<string, PeerMessage>)
    requires WellKeyed(lookup)
    ensures forall m :: m in Known(unread, lookup) <==> m.messageId in unread && m.messageId in lookup && lookup[m.messageId] == m
  {
    if unread != [] {
      KnownMembers(unread[1..], lookup);
      assert unread == [unread[0]] + unread[1..];
    }
  }

  lemma {:induction false} KnownIds(unread: seq<string>, lookup: map<string, PeerMessage>)
    requires WellKeyed(lookup)
    ensures Ids(Known(unread, lookup)) == KeepOnly(unread, lookup.Keys)
  {
    if unread != [] {
      KnownIds(unread[1..], lookup);
    }
  }

  lemma {:induction false} SortedMembers(ms: seq<PeerMessage>)
    ensures forall m :: m in StableSort(ms) <==> m in ms
  {
    SortOrders(ms);
    forall m ensures m in StableSort(ms) <==> m in ms {
      assert m in StableSort(ms) <==> m in multiset(StableSort(ms));
      assert m in ms <==> m in multiset(ms);
    }
  }

  /** A drain returns a prefix of the sorted mailbox; a mailbox with a known message yields at least one. */
  lemma {:induction false} DrainedIsPrefix(unread: seq<string>, lookup: map<string, PeerMessage>, wrap: PeerMessage -> string, maxBytes: nat)
    ensures var sorted := StableSort(Known(unread, lookup));
            var k := Take(sorted, wrap, maxBytes, 0, 0);
            k <= |sorted| && Drained(unread, lookup, wrap, maxBytes) == sorted[..k] && (sorted != [] ==> k >= 1)
  {
    TakeIsGreedy(StableSort(Known(unread, lookup)), wrap, maxBytes, 0, 0);
  }

  lemma DrainedMembers(unread: seq<string>, lookup: map<string, PeerMessage>, wrap: PeerMessage -> string, maxBytes: nat)
    requires WellKeyed(lookup)
    ensures forall m :: m in Drained(unread, lookup, wrap, maxBytes) ==> m.messageId in unread && m.messageId in lookup && lookup[m.messageId] == m
  {
    DrainedIsPrefix(unread, lookup, wrap, maxBytes);
    SortedMembers(Known(unread, lookup));
    KnownMembers(unread, lookup);
  }

  /** A drain that leaves something unread made the list shorter. */
  lemma RemainingShrinks(unread: seq<string>, lookup: map<string, PeerMessage>, wrap: PeerMessage -> string, maxBytes: nat)
    requires WellKeyed(lookup)
    ensures Remaining(unread, lookup, wrap, maxBytes) != [] ==> |Remaining(unread, lookup, wrap, maxBytes)| < |unread|
  {
    var d, rest := Drained(unread, lookup, wrap, maxBytes), Remaining(unread, lookup, wrap, maxBytes);
    if rest != [] {
      KeepOnlyMembers(unread, lookup.Keys - IdSet(d));
      assert rest[0] in unread && rest[0] in lookup;
      KnownMembers(unread, lookup);
      assert lookup[rest[0]] in Known(unread, lookup);
      SortedMembers(Known(unread, lookup));
      DrainedIsPrefix(unread, lookup, wrap, maxBytes);
      DrainedMembers(unread, lookup, wrap, maxBytes);
      assert d[0] in d && d[0].messageId in IdSet(d);
      KeepOnlyShrinks(unread, lookup.Keys - IdSet(d), d[0].messageId);
    }
  }

  lemma {:induction false} KeepOnlyShrinks(xs: seq<string>, keep: set<string>, x: string)
    requires x in xs && x !in keep
    ensures |KeepOnly(xs, keep)| < |xs|
  {
    if xs[0] in keep {
      KeepOnlyShrinks(xs[1..], keep, x);
    }
  }

  /** The loop has more to give exactly when the list is not yet empty. */
  lemma {:induction false} HasMoreMeansUnread(unread: seq<string>, lookup: map<string, PeerMessage>, wrap: PeerMessage -> string, maxBytes: nat)
    requires WellKeyed(lookup)
    requires Drained(unread, lookup, wrap, maxBytes) == StableSort(Known(unread, lookup))
    ensures Remaining(unread, lookup, wrap, maxBytes) == []
  {
    var d := Drained(unread, lookup, wrap, maxBytes);
    KnownMembers(unread, lookup);
    SortedMembers(Known(unread, lookup));
    forall id | id in unread ensures id !in lookup.Keys - IdSet(d) {
      assert id in lookup ==> lookup[id] in d;
    }
    KeepOnlyNone(unread, lookup.Keys - IdSet(d));
  }

  lemma {:induction false} IdsOfPrefix(ms: seq<PeerMessage>, k: nat)
    requires k <= |ms|
    ensures Ids(ms[..k]) == Ids(ms)[..k] && Ids(ms[k..]) == Ids(ms)[k..]
  {
  }

  lemma {:induction false} IdsOfFirst(m: PeerMessage, ms: seq<PeerMessage>)
    ensures Ids([m] + ms) == [m.messageId] + Ids(ms)
  {
  }

  lemma {:induction false} InsertIds(sorted: seq<PeerMessage>, m: PeerMessage)
    ensures multiset(Ids(Insert(sorted, m))) == multiset(Ids(sorted)) + multiset{m.messageId}
  {
    if sorted != [] {
      assert sorted == [sorted[0]] + sorted[1..];
      IdsOfFirst(sorted[0], sorted[1..]);
      if m.timestamp < sorted[0].timestamp {
        IdsOfFirst(m, sorted);
      } else {
        InsertIds(sorted[1..], m);
        IdsOfFirst(sorted[0], Insert(sorted[1..], m));
      }
    }
  }

  lemma {:induction false} SortIdsStep(init: seq<PeerMessage>, last: PeerMessage)
    requires multiset(Ids(StableSort(init))) == multiset(Ids(init))
    ensures multiset(Ids(Insert(StableSort(init), last))) == multiset(Ids(init + [last]))
  {
    InsertIds(StableSort(init), last);
    IdsAppend(init, last);
  }

  lemma {:induction false} SortIds(ms: seq<PeerMessage>)
    ensures multiset(Ids(StableSort(ms))) == multiset(Ids(ms))
  {
    if ms != [] {
      var init, last := ms[..|ms| - 1], ms[|ms| - 1];
      SortIds(init);
      SortIdsStep(init, last);
      LastJoins(ms);
    }
  }

  lemma LastJoins<T>(xs: seq<T>)
    requires xs != []
    ensures xs[..|xs| - 1] + [xs[|xs| - 1]] == xs
  {
  }

  lemma {:induction false} IdsAppend(ms: seq<PeerMessage>, m: PeerMessage)
    ensures multiset(Ids(ms + [m])) == multiset(Ids(ms)) + multiset{m.messageId}
  {
    assert Ids(ms + [m]) == Ids(ms) + [m.messageId];
  }

  /** The ids of the sorted mailbox are the known unread ids. */
  lemma {:induction false} SortedIds(unread: seq<string>, lookup: map<string, PeerMessage>)
    requires WellKeyed(lookup)
    ensures multiset(Ids(StableSort(Known(unread, lookup)))) == multiset(KeepOnly(unread, lookup.Keys))
  {
    SortIds(Known(unread, lookup));
    KnownIds(unread, lookup);
  }

  /** What a drain returns are known ids, each as often as it is unread at most. */
  lemma {:induction false} DrainedIds(unread: seq<string>, lookup: map<string, PeerMessage>, wrap: PeerMessage -> string, maxBytes: nat)
    requires WellKeyed(lookup)
    ensures multiset(Ids(Drained(unread, lookup, wrap, maxBytes))) <= multiset(KeepOnly(unread, lookup.Keys))
  {
    var sorted := StableSort(Known(unread, lookup));
    SortedIds(unread, lookup);
    DrainedIsPrefix(unread, lookup, wrap, maxBytes);
    PrefixIds(sorted, |Drained(unread, lookup, wrap, maxBytes)|);
  }

  lemma {:induction false} PrefixIds(ms: seq<PeerMessage>, k: nat)
    requires k <= |ms|
    ensures multiset(Ids(ms[..k])) <= multiset(Ids(ms))
  {
    IdsOfPrefix(ms, k);
    PrefixCounts(Ids(ms), k);
  }

  lemma PrefixCounts(xs: seq<string>, k: nat)
    requires k <= |xs|
    ensures multiset(xs[..k]) <= multiset(xs)
  {
    assert xs == xs[..k] + xs[k..];
  }

  /** The places of an unread id after a drain: returned, kept, or dropped as orphaned. */
  ghost predicate OnePlace(id: string, returned: set<string>, kept: seq<string>, orphans: seq<string>) {
    || (id in returned && id !in kept && id !in orphans)
    || (id !in returned && id in kept && id !in orphans)
    || (id !in returned && id !in kept && id in orphans)
  }

  /**
   * Each drain splits the list: every unread id is in exactly one of what it returns, what it keeps and
   * what it drops, nothing else is in any, and what it keeps or drops it does as often as it was listed.
   * Without repeated ids the three add up to the list.
   */
  lemma DrainPartitions(unread: seq<string>, lookup: map<string, PeerMessage>, wrap: PeerMessage -> string, maxBytes: nat)
    requires WellKeyed(lookup)
    ensures var returned, kept, orphans := IdSet(Drained(unread, lookup, wrap, maxBytes)), Remaining(unread, lookup, wrap, maxBytes), Orphans(unread, lookup);
            && (forall id :: id in unread ==> OnePlace(id, returned, kept, orphans))
            && (forall id :: id in returned || id in kept || id in orphans ==> id in unread)
            && (forall id :: id in kept || id in orphans ==> multiset(kept)[id] + multiset(orphans)[id] == multiset(unread)[id])
    ensures NoDup(unread) ==>
              multiset(unread)
              == multiset(Ids(Drained(unread, lookup, wrap, maxBytes))) + multiset(Remaining(unread, lookup, wrap, maxBytes)) + multiset(Orphans(unread, lookup))
  {
    var d := Drained(unread, lookup, wrap, maxBytes);
    DrainedMembers(unread, lookup, wrap, maxBytes);
    forall id | id in IdSet(d) ensures id in unread && id in lookup {
      var m :| m in d && m.messageId == id;
    }
    PlacesOf(unread, lookup.Keys, IdSet(d));
    if NoDup(unread) {
      DistinctSplits(unread, lookup, wrap, maxBytes);
    }
  }

  lemma {:induction false} PlacesOf(unread: seq<string>, known: set<string>, returned: set<string>)
    requires forall id :: id in returned ==> id in unread && id in known
    ensures var kept, orphans := KeepOnly(unread, known - returned), KeepOnly(unread, (set id | id in unread) - known);
            && (forall id :: id in unread ==> OnePlace(id, returned, kept, orphans))
            && (forall id :: id in returned || id in kept || id in orphans ==> id in unread)
            && (forall id :: id in kept || id in orphans ==> multiset(kept)[id] + multiset(orphans)[id] == multiset(unread)[id])
  {
    var kept, orphans := KeepOnly(unread, known - returned), KeepOnly(unread, (set id | id in unread) - known);
    KeepOnlyMembers(unread, known - returned);
    KeepOnlyMembers(unread, (set id | id in unread) - known);
    forall id | id in kept || id in orphans ensures multiset(kept)[id] + multiset(orphans)[id] == multiset(unread)[id] {
      KeepOnlyCounts(unread, known - returned);
      KeepOnlyCounts(unread, (set id | id in unread) - known);
    }
  }

  lemma DistinctSplits(unread: seq<string>, lookup: map<string, PeerMessage>, wrap: PeerMessage -> string, maxBytes: nat)
    requires WellKeyed(lookup) && NoDup(unread)
    ensures multiset(unread)
            == multiset(Ids(Drained(unread, lookup, wrap, maxBytes))) + multiset(Remaining(unread, lookup, wrap, maxBytes)) + multiset(Orphans(unread, lookup))
  {
    var d := Drained(unread, lookup, wrap, maxBytes);
    DrainedIds(unread, lookup, wrap, maxBytes);
    KeepOnlyCounts(unread, lookup.Keys);
    KeepOnlyCounts(unread, lookup.Keys - IdSet(d));
    KeepOnlyCounts(unread, (set id | id in unread) - lookup.Keys);
    IdsMembers(d);
    forall x ensures multiset(unread)[x] <= 1 {
      CountAtMostOne(unread, x);
    }
    SplitInThree(multiset(unread), multiset(Ids(d)), multiset(Remaining(unread, lookup, wrap, maxBytes)), multiset(Orphans(unread, lookup)),
      lookup.Keys, IdSet(d));
  }

  lemma SplitInThree(all: multiset<string>, taken: multiset<string>, rest: multiset<string>, orphans: multiset<string>,
      known: set<string>, takenSet: set<string>)
    requires forall x :: all[x] <= 1 && taken[x] <= (if x in known then all[x] else 0)
    requires forall x :: x in takenSet <==> taken[x] > 0
    requires forall x :: rest[x] == if x in known - takenSet then all[x] else 0
    requires forall x :: orphans[x] == if x !in known then all[x] else 0
    ensures all == taken + rest + orphans
  {
    forall x ensures all[x] == taken[x] + rest[x] + orphans[x] {
      assert x in takenSet <==> taken[x] > 0;
    }
  }

  lemma {:induction false} IdsMembers(ms: seq<PeerMessage>)
    ensures forall x :: x in Ids(ms) <==> x in IdSet(ms)
  {
    forall x ensures x in Ids(ms) <==> x in IdSet(ms) {
      if x in Ids(ms) {
        var i :| 0 <= i < |ms| && Ids(ms)[i] == x;
        assert ms[i] in ms;
      }
      if x in IdSet(ms) {
        var m :| m in ms && m.messageId == x;
        var i :| 0 <= i < |ms| && ms[i] == m;
        assert Ids(ms)[i] == x;
      }
    }
  }
}
