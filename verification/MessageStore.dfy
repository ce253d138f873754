/** The message log of src/core/message-store.ts: an append-only sequence of records. */
module MessageStore {
  import opened Utf8

  const PEER_BUS_MAX_BODY_BYTES := 65536
  const PEER_BUS_MAX_RESPONSE_BYTES := 1048576

  /** A string body, or any other JSON value together with its serialisation. */
  datatype Body = Text(text: string) | Json(serialised: string) {
    function AsText(): string {
      match this
      case Text(t) => t
      case Json(t) => t
    }
  }

  /** `timestamp` is the number of milliseconds that Date.parse reads. */
  datatype PeerMessage = PeerMessage(messageId: string, from: string, to: string, kind: string, body: Body, timestamp: int)

  function BodyByteLength(body: Body): nat {
    |Encode(body.AsText())|
  }

  /** What loading a log gives: for each id the last record that carries it. */
  function Lookup(log: seq<PeerMessage>): (m: map<string, PeerMessage>)
    ensures forall id :: id in m ==> m[id].messageId == id && m[id] in log
  {
    if log == [] then map[]
    else Lookup(log[..|log| - 1])[log[|log| - 1].messageId := log[|log| - 1]]
  }

  /** The record of an id is the last one that carries it. */
  lemma {:induction false} LookupIsLast(log: seq<PeerMessage>, id: string) returns (at: nat)
    requires id in Lookup(log)
    ensures at < |log| && log[at] == Lookup(log)[id] && log[at].messageId == id
    ensures forall j :: at < j < |log| ==> log[j].messageId != id
  {
    var last := |log| - 1;
    if log[last].messageId == id {
      at := last;
    } else {
      at := LookupIsLast(log[..last], id);
      assert log[..last][at] == log[at];
    }
  }

  class MessageStore {
    var records: seq<PeerMessage>

    constructor (records: seq<PeerMessage>)
      ensures this.records == records
    {
      this.records := records;
    }

    method Append(envelope: PeerMessage)
      modifies this
      ensures records == old(records) + [envelope]
    {
      records := records + [envelope];
    }

    method LoadAll() returns (result: map<string, PeerMessage>)
      ensures result == Lookup(records)
    {
      result := map[];
      var i := 0;
      while i < |records|
        invariant 0 <= i <= |records|
        invariant result == Lookup(records[..i])
      {
        assert records[..i + 1][..i] == records[..i];
        result := result[records[i].messageId := records[i]];
        i := i + 1;
      }
      assert records[..i] == records;
    }
  }

  /** From `start` on, each record carries an id that no earlier record has. */
  ghost predicate FreshFrom(log: seq<PeerMessage>, start: nat) {
    forall i, j :: 0 <= i < j < |log| && start <= j ==> log[i].messageId != log[j].messageId
  }

  lemma {:induction false} LookupTakes(log: seq<PeerMessage>, k: nat)
    requires 0 < k <= |log|
    ensures Lookup(log[..k]) == Lookup(log[..k - 1])[log[k - 1].messageId := log[k - 1]]
  {
    assert log[..k][..k - 1] == log[..k - 1];
  }

  lemma {:induction false} LoggedBefore(log: seq<PeerMessage>, lo: nat, id: string) returns (i: nat)
    requires lo <= |log| && id in Lookup(log[..lo])
    ensures i < lo && log[i].messageId == id
  {
    i := LookupIsLast(log[..lo], id);
  }

  lemma {:induction false} NotAgain(log: seq<PeerMessage>, lo: nat, id: string)
    requires lo <= |log| && FreshFrom(log, lo) && id in Lookup(log[..lo])
    ensures forall j :: lo <= j < |log| ==> log[j].messageId != id
  {
    var i := LoggedBefore(log, lo, id);
  }

  /** Records of other ids do not change what the log gives an id. */
  lemma {:induction false} OthersLeave(log: seq<PeerMessage>, lo: nat, k: nat, id: string)
    requires lo <= k <= |log| && forall j :: lo <= j < |log| ==> log[j].messageId != id
    ensures id in Lookup(log[..k]) <==> id in Lookup(log[..lo])
    ensures id in Lookup(log[..lo]) ==> Lookup(log[..k])[id] == Lookup(log[..lo])[id]
    decreases k - lo
  {
    if lo < k {
      OthersLeave(log, lo, k - 1, id);
      LookupTakes(log, k);
    }
  }

  /**
   * A reader that started when the log had `lo` records and saw `k` of them finds every id
   * that was there at the start, with the record that the whole log gives it.
   */
  lemma {:induction false} LookupGrows(log: seq<PeerMessage>, lo: nat, k: nat, id: string)
    requires lo <= k <= |log| && FreshFrom(log, lo)
    requires id in Lookup(log[..lo])
    ensures id in Lookup(log[..k]) && Lookup(log[..k])[id] == Lookup(log[..lo])[id]
  {
    NotAgain(log, lo, id);
    OthersLeave(log, lo, k, id);
  }
}
