/** Draining until `hasMore` is false: the loop that README.md of the repository asks callers to run. */
module Draining {
  import opened Prelude
  import opened MessageStore
  import opened Envelope
  import opened Drain

  /** All that the calls of one drain loop return, in order. The list shrinks with every call, so the loop ends. */
  function DrainAll(unread: seq<string>, lookup: map<string, PeerMessage>, wrap: PeerMessage -> string, maxBytes: nat): seq<PeerMessage>
    requires WellKeyed(lookup)
    decreases |unread|
  {
    var rest := Remaining(unread, lookup, wrap, maxBytes);
    if rest == [] then Drained(unread, lookup, wrap, maxBytes)
    else
      RemainingShrinks(unread, lookup, wrap, maxBytes);
      Drained(unread, lookup, wrap, maxBytes) + DrainAll(rest, lookup, wrap, maxBytes)
  }

  function Among(ms: seq<PeerMessage>, keep: set<string>): seq<PeerMessage> {
    if ms == [] then []
    else if ms[0].messageId in keep then [ms[0]] + Among(ms[1..], keep)
    else Among(ms[1..], keep)
  }

  lemma {:induction false} AmongOne(m: PeerMessage, keep: set<string>)
    ensures Among([m], keep) == if m.messageId in keep then [m] else []
  {
    assert [m][1..] == [];
  }

  lemma {:induction false} AmongAppend(ms: seq<PeerMessage>, ns: seq<PeerMessage>, keep: set<string>)
    ensures Among(ms + ns, keep) == Among(ms, keep) + Among(ns, keep)
  {
    if ms == [] {
      assert ms + ns == ns;
    } else {
      AmongAppend(ms[1..], ns, keep);
      assert (ms + ns)[1..] == ms[1..] + ns;
      assert (ms + ns)[0] == ms[0];
      assert [ms[0]] + (Among(ms[1..], keep) + Among(ns, keep)) == [ms[0]] + Among(ms[1..], keep) + Among(ns, keep);
    }
  }

  lemma {:induction false} AmongMembers(ms: seq<PeerMessage>, keep: set<string>)
    ensures forall m :: m in Among(ms, keep) ==> m in ms
  {
    if ms != [] {
      AmongMembers(ms[1..], keep);
    }
  }

  lemma {:induction false} InsertFirst(sorted: seq<PeerMessage>, m: PeerMessage)
    requires forall x :: x in sorted ==> m.timestamp < x.timestamp
    ensures Insert(sorted, m) == [m] + sorted
  {
    assert sorted != [] ==> sorted[0] in sorted;
  }

  lemma {:induction false} AmongInsert(sorted: seq<PeerMessage>, m: PeerMessage, keep: set<string>)
    requires Chronological(sorted)
    ensures Among(Insert(sorted, m), keep) == if m.messageId in keep then Insert(Among(sorted, keep), m) else Among(sorted, keep)
  {
    if sorted == [] {
      AmongOne(m, keep);
    } else if m.timestamp < sorted[0].timestamp {
      AmongOne(m, keep);
      AmongAppend([m], sorted, keep);
      AmongMembers(sorted, keep);
      InsertFirst(Among(sorted, keep), m);
    } else {
      AmongInsert(sorted[1..], m, keep);
      assert Insert(sorted, m)[1..] == Insert(sorted[1..], m);
    }
  }

  lemma {:induction false} AmongLast(ms: seq<PeerMessage>, m: PeerMessage, keep: set<string>)
    ensures Among(ms + [m], keep) == if m.messageId in keep then Among(ms, keep) + [m] else Among(ms, keep)
  {
    AmongAppend(ms, [m], keep);
    AmongOne(m, keep);
  }

  lemma {:induction false} SortAppend(ms: seq<PeerMessage>, m: PeerMessage)
    ensures StableSort(ms + [m]) == Insert(StableSort(ms), m)
  {
    assert (ms + [m])[..|ms|] == ms;
  }

  /** A stable sort commutes with every filter. */
  lemma {:induction false} SortCommutesWithFilter(ms: seq<PeerMessage>, keep: set<string>)
    ensures Among(StableSort(ms), keep) == StableSort(Among(ms, keep))
  {
    if ms != [] {
      var init, last := ms[..|ms| - 1], ms[|ms| - 1];
      SortCommutesWithFilter(init, keep);
      SortOrders(init);
      AmongInsert(StableSort(init), last, keep);
      AmongLast(init, last, keep);
      SortAppend(Among(init, keep), last);
      SortAppend(init, last);
      assert ms == init + [last];
    }
  }

  lemma {:induction false} KnownOfKept(unread: seq<string>, lookup: map<string, PeerMessage>, keep: set<string>)
    requires WellKeyed(lookup)
    ensures Known(KeepOnly(unread, keep), lookup) == Among(Known(unread, lookup), keep)
  {
    if unread != [] {
      KnownOfKept(unread[1..], lookup, keep);
      if unread[0] in lookup {
        assert Known(unread, lookup)[1..] == Known(unread[1..], lookup);
      }
      if unread[0] in keep {
        assert KeepOnly(unread, keep)[1..] == KeepOnly(unread[1..], keep);
      }
    }
  }

  lemma {:induction false} AmongAll(ms: seq<PeerMessage>, keep: set<string>)
    requires forall m :: m in ms ==> m.messageId in keep
    ensures Among(ms, keep) == ms
  {
    if ms != [] {
      AmongAll(ms[1..], keep);
    }
  }

  lemma {:induction false} AmongNone(ms: seq<PeerMessage>, keep: set<string>)
    requires forall m :: m in ms ==> m.messageId !in keep
    ensures Among(ms, keep) == []
  {
    if ms != [] {
      AmongNone(ms[1..], keep);
    }
  }

  /** Taking the ids of a prefix away leaves exactly the rest, when no id occurs twice. */
  lemma {:induction false} RestAfterPrefix(ms: seq<PeerMessage>, k: nat, known: set<string>)
    requires k <= |ms| && NoDup(Ids(ms))
    requires forall m :: m in ms ==> m.messageId in known
    ensures Among(ms, known - IdSet(ms[..k])) == ms[k..]
  {
    var keep := known - IdSet(ms[..k]);
    assert ms == ms[..k] + ms[k..];
    AmongAppend(ms[..k], ms[k..], keep);
    AmongNone(ms[..k], keep);
    forall m | m in ms[k..] ensures m.messageId in keep {
      var j :| k <= j < |ms| && ms[j] == m;
      forall p | p in ms[..k] ensures p.messageId != m.messageId {
        var i :| 0 <= i < k && ms[i] == p;
        assert Ids(ms)[i] != Ids(ms)[j];
      }
    }
    AmongAll(ms[k..], keep);
  }

  lemma {:induction false} SortedNoDup(unread: seq<string>, lookup: map<string, PeerMessage>)
    requires WellKeyed(lookup) && NoDup(KeepOnly(unread, lookup.Keys))
    ensures NoDup(Ids(StableSort(Known(unread, lookup))))
    ensures forall m :: m in StableSort(Known(unread, lookup)) ==> m.messageId in lookup
  {
    SortedIds(unread, lookup);
    SameCountsNoDup(KeepOnly(unread, lookup.Keys), Ids(StableSort(Known(unread, lookup))));
    KnownMembers(unread, lookup);
    SortedMembers(Known(unread, lookup));
  }

  /** After one drain, what remains sorts to what the drain left of the sorted mailbox. */
  lemma {:induction false} DrainLeavesSuffix(unread: seq<string>, lookup: map<string, PeerMessage>, wrap: PeerMessage -> string, maxBytes: nat)
    requires WellKeyed(lookup) && NoDup(KeepOnly(unread, lookup.Keys))
    ensures var sorted := StableSort(Known(unread, lookup));
            var d := Drained(unread, lookup, wrap, maxBytes);
            sorted == d + StableSort(Known(Remaining(unread, lookup, wrap, maxBytes), lookup))
  {
    var sorted, d := StableSort(Known(unread, lookup)), Drained(unread, lookup, wrap, maxBytes);
    var keep := lookup.Keys - IdSet(d);
    DrainedIsPrefix(unread, lookup, wrap, maxBytes);
    SortedNoDup(unread, lookup);
    RestAfterPrefix(sorted, |d|, lookup.Keys);
    SortCommutesWithFilter(Known(unread, lookup), keep);
    KnownOfKept(unread, lookup, keep);
    SplitsAt(sorted, |d|);
  }

  lemma SplitsAt(ms: seq<PeerMessage>, k: nat)
    requires k <= |ms|
    ensures ms == ms[..k] + ms[k..]
  {
  }

  lemma {:induction false} KeptTwice(xs: seq<string>, a: set<string>, b: set<string>)
    ensures KeepOnly(KeepOnly(xs, a), b) == KeepOnly(xs, a * b)
  {
    if xs != [] {
      KeptTwice(xs[1..], a, b);
      if xs[0] in a {
        assert KeepOnly(xs, a)[1..] == KeepOnly(xs[1..], a);
      }
    }
  }

  lemma {:induction false} KeptNoDup(xs: seq<string>, keep: set<string>)
    requires NoDup(xs)
    ensures NoDup(KeepOnly(xs, keep))
  {
    KeepOnlyCounts(xs, keep);
    forall x ensures multiset(KeepOnly(xs, keep))[x] <= 1 {
      CountAtMostOne(xs, x);
    }
    CountsNoDup(KeepOnly(xs, keep));
  }

  /** What remains after a drain is a filtered version of the known unread ids, and known throughout. */
  lemma {:induction false} RemainingOfKnown(unread: seq<string>, lookup: map<string, PeerMessage>, wrap: PeerMessage -> string, maxBytes: nat)
    ensures var rest := Remaining(unread, lookup, wrap, maxBytes);
            && KeepOnly(rest, lookup.Keys) == rest
            && rest == KeepOnly(KeepOnly(unread, lookup.Keys), lookup.Keys - IdSet(Drained(unread, lookup, wrap, maxBytes)))
  {
    var keep := lookup.Keys - IdSet(Drained(unread, lookup, wrap, maxBytes));
    KeptTwice(unread, lookup.Keys, keep);
    assert lookup.Keys * keep == keep;
    KeepOnlyMembers(unread, keep);
    KeepOnlyAll(KeepOnly(unread, keep), lookup.Keys);
  }

  /** Without repeated ids, repeated drains return the whole mailbox in sorted order. */
  lemma {:induction false} DrainAllIsSort(unread: seq<string>, lookup: map<string, PeerMessage>, wrap: PeerMessage -> string, maxBytes: nat)
    requires WellKeyed(lookup) && NoDup(KeepOnly(unread, lookup.Keys))
    ensures DrainAll(unread, lookup, wrap, maxBytes) == StableSort(Known(unread, lookup))
    decreases |unread|
  {
    var rest := Remaining(unread, lookup, wrap, maxBytes);
    DrainLeavesSuffix(unread, lookup, wrap, maxBytes);
    RemainingOfKnown(unread, lookup, wrap, maxBytes);
    KeptNoDup(KeepOnly(unread, lookup.Keys), lookup.Keys - IdSet(Drained(unread, lookup, wrap, maxBytes)));
    if rest != [] {
      RemainingShrinks(unread, lookup, wrap, maxBytes);
      DrainAllIsSort(rest, lookup, wrap, maxBytes);
    }
  }

  /** With a budget of no bytes a call returns at most one message, and its id does not remain. */
  lemma OneTaken(unread: seq<string>, lookup: map<string, PeerMessage>, wrap: PeerMessage -> string)
    requires WellKeyed(lookup)
    requires forall m: PeerMessage :: Size(wrap, m) > 0
    ensures |Drained(unread, lookup, wrap, 0)| <= 1
    ensures forall m :: m in Drained(unread, lookup, wrap, 0) ==> m.messageId in unread && m.messageId !in Remaining(unread, lookup, wrap, 0)
    ensures forall id :: id in Remaining(unread, lookup, wrap, 0) ==> id in unread
  {
    var d := Drained(unread, lookup, wrap, 0);
    DrainedIsPrefix(unread, lookup, wrap, 0);
    DrainedMembers(unread, lookup, wrap, 0);
    KeepOnlyMembers(unread, lookup.Keys - IdSet(d));
  }

  /** So with that budget the ids of a whole loop are all different. */
  lemma {:induction false} OneByOne(unread: seq<string>, lookup: map<string, PeerMessage>, wrap: PeerMessage -> string)
    requires WellKeyed(lookup)
    requires forall m: PeerMessage :: Size(wrap, m) > 0
    ensures NoDup(Ids(DrainAll(unread, lookup, wrap, 0)))
    ensures forall m :: m in DrainAll(unread, lookup, wrap, 0) ==> m.messageId in unread
    decreases |unread|
  {
    var d, rest := Drained(unread, lookup, wrap, 0), Remaining(unread, lookup, wrap, 0);
    OneTaken(unread, lookup, wrap);
    if rest != [] {
      RemainingShrinks(unread, lookup, wrap, 0);
      OneByOne(rest, lookup, wrap);
      DistinctAppend(d, DrainAll(rest, lookup, wrap, 0));
    }
  }

  lemma {:induction false} DistinctAppend(d: seq<PeerMessage>, more: seq<PeerMessage>)
    requires |d| <= 1 && NoDup(Ids(more))
    requires forall m, n :: m in d && n in more ==> m.messageId != n.messageId
    ensures NoDup(Ids(d + more))
  {
    forall i, j | 0 <= i < j < |d + more| ensures Ids(d + more)[i] != Ids(d + more)[j] {
      assert more[j - |d|] in more;
      if i < |d| {
        assert d[i] in d;
      } else {
        assert Ids(more)[i - |d|] != Ids(more)[j - |d|];
      }
    }
  }

  ghost predicate DrainsInOrder(unread: seq<string>, lookup: map<string, PeerMessage>, wrap: PeerMessage -> string, maxBytes: nat)
    requires WellKeyed(lookup)
  {
    DrainAll(unread, lookup, wrap, maxBytes) == StableSort(Known(unread, lookup))
  }

  /**
   * Repeated drains return the stable timestamp sort of the mailbox under every byte budget
   * exactly when no known id is listed twice.
   */
  lemma {:induction false} RepeatedDrainsSort(unread: seq<string>, lookup: map<string, PeerMessage>, wrap: PeerMessage -> string)
    requires WellKeyed(lookup)
    requires forall m: PeerMessage :: Size(wrap, m) > 0
    ensures (forall maxBytes: nat :: DrainsInOrder(unread, lookup, wrap, maxBytes)) <==> NoDup(KeepOnly(unread, lookup.Keys))
  {
    if NoDup(KeepOnly(unread, lookup.Keys)) {
      forall maxBytes: nat ensures DrainsInOrder(unread, lookup, wrap, maxBytes) {
        DrainAllIsSort(unread, lookup, wrap, maxBytes);
      }
    } else {
      OneByOne(unread, lookup, wrap);
      SortedIds(unread, lookup);
      if DrainsInOrder(unread, lookup, wrap, 0) {
        SameCountsNoDup(Ids(StableSort(Known(unread, lookup))), KeepOnly(unread, lookup.Keys));
        assert false;
      }
    }
  }

  lemma SameCountsNoDup(xs: seq<string>, ys: seq<string>)
    requires NoDup(xs) && multiset(xs) == multiset(ys)
    ensures NoDup(ys)
  {
    forall x ensures multiset(ys)[x] <= 1 {
      CountAtMostOne(xs, x);
    }
    CountsNoDup(ys);
  }

  lemma EnvelopeNeverEmpty(m: PeerMessage)
    ensures Size(WrapEnvelope, m) > 0
  {
    EnvelopeLayout(m);
    assert WrapEnvelope(m) != "";
  }

  /** For the envelopes that reads return, no condition but that one is left. */
  lemma {:induction false} RepeatedReadsSort(unread: seq<string>, lookup: map<string, PeerMessage>)
    requires WellKeyed(lookup)
    ensures (forall maxBytes: nat :: DrainsInOrder(unread, lookup, WrapEnvelope, maxBytes)) <==> NoDup(KeepOnly(unread, lookup.Keys))
  {
    forall m: PeerMessage ensures Size(WrapEnvelope, m) > 0 {
      EnvelopeNeverEmpty(m);
    }
    RepeatedDrainsSort(unread, lookup, WrapEnvelope);
  }

  // ----- Reads of accepted messages -----

  lemma TotalOfFirst(ms: seq<PeerMessage>, wrap: PeerMessage -> string)
    ensures |ms| >= 1 ==> Total(ms[..1], wrap) == Size(wrap, ms[0])
    ensures |ms| >= 2 ==> Total(ms[..2], wrap) == Size(wrap, ms[0]) + Size(wrap, ms[1])
  {
    if |ms| >= 1 {
      assert ms[..1][1..] == [];
    }
    if |ms| >= 2 {
      assert ms[..2][1..] == [ms[1]];
      assert [ms[1]][1..] == [];
    }
  }

  /**
   * When every unread message was accepted by sendMessageTool, a read stays within the response
   * limit, no message is oversize on its own, and two or more messages yield at least two.
   */
  lemma {:induction false} ReadFits(unread: seq<string>, lookup: map<string, PeerMessage>)
    requires WellKeyed(lookup)
    requires forall id :: id in unread && id in lookup ==> Accepted(lookup[id])
    ensures var d := Drained(unread, lookup, WrapEnvelope, PEER_BUS_MAX_RESPONSE_BYTES);
            && Total(d, WrapEnvelope) <= PEER_BUS_MAX_RESPONSE_BYTES
            && (forall m :: m in Known(unread, lookup) ==> Size(WrapEnvelope, m) <= MAX_ENVELOPE_BYTES < PEER_BUS_MAX_RESPONSE_BYTES)
            && (|Known(unread, lookup)| >= 2 ==> |d| >= 2)
  {
    var sorted := StableSort(Known(unread, lookup));
    var max := PEER_BUS_MAX_RESPONSE_BYTES;
    KnownMembers(unread, lookup);
    SortedMembers(Known(unread, lookup));
    SortOrders(Known(unread, lookup));
    assert |sorted| == |multiset(sorted)| == |Known(unread, lookup)|;
    forall m | m in sorted ensures Size(WrapEnvelope, m) <= MAX_ENVELOPE_BYTES {
      EnvelopeSize(m);
    }
    TakeIsGreedy(sorted, WrapEnvelope, max, 0, 0);
    DrainedIsPrefix(unread, lookup, WrapEnvelope, max);
    TotalOfFirst(sorted, WrapEnvelope);
  }
}
