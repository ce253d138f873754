/** The notification scrubber of src/core/notifier-cmux.ts. */
module NotifierCmux {
  import opened Prelude
  import opened Utf8

  const NOTIFY_BODY_MAX_BYTES := 256
  const ELLIPSIS: char := '\U{2026}'

  /** C0 controls and DEL. */
  predicate IsControl(c: char) {
    c as int < 0x20 || c as int == 0x7F
  }

  ghost predicate ControlFree(s: string) {
    forall i :: 0 <= i < |s| ==> !IsControl(s[i])
  }

  function StripControls(s: string): (r: string)
    ensures ControlFree(r)
    ensures ControlFree(s) ==> r == s
  {
    if s == "" then ""
    else if IsControl(s[0]) then StripControls(s[1..])
    else [s[0]] + StripControls(s[1..])
  }

  /** Stripping takes out the controls and nothing else. */
  lemma {:induction false} StripKeepsTheRest(s: string, kept: char -> bool)
    requires forall c :: kept(c) <==> !(c as int < 0x20 || c as int == 0x7F)
    ensures Filtered(StripControls(s), s, kept)
  {
    if s != "" {
      StripKeepsTheRest(s[1..], kept);
      FilteredCons(s[0], StripControls(s[1..]), s[1..], kept);
      assert [s[0]] + s[1..] == s;
      assert [] + StripControls(s[1..]) == StripControls(s[1..]);
    }
  }

  /** The number of leading characters of `s` that fit in `limit` bytes. */
  ghost function PrefixWithin(s: string, limit: nat): (k: nat)
    ensures k <= |s|
  {
    if s == "" || |EncodeChar(s[0])| > limit then 0
    else 1 + PrefixWithin(s[1..], limit - |EncodeChar(s[0])|)
  }

  ghost function Scrubbed(s: string): string {
    var clean := StripControls(s);
    if |Encode(clean)| <= NOTIFY_BODY_MAX_BYTES then clean
    else clean[..PrefixWithin(clean, NOTIFY_BODY_MAX_BYTES - 3)] + [ELLIPSIS]
  }

  /**
   * Where the last whole character ends: its end is at most `limit`, the byte there starts a
   * character, and every later byte up to `limit` is inside one.
   */
  lemma {:induction false} PrefixBoundary(s: string, limit: nat)
    requires |Encode(s)| > limit
    ensures var k := PrefixWithin(s, limit);
            var e := |Encode(s[..k])|;
            && k < |s| && e <= limit
            && Encode(s)[..e] == Encode(s[..k])
            && !IsContinuation(Encode(s)[e])
            && forall p :: e < p <= limit ==> IsContinuation(Encode(s)[p])
  {
    var w := EncodeChar(s[0]);
    if |w| <= limit {
      PrefixBoundary(s[1..], limit - |w|);
      var k := PrefixWithin(s[1..], limit - |w|);
      assert s[..1 + k] == [s[0]] + s[1..][..k];
      assert Encode(s[..1 + k]) == w + Encode(s[1..][..k]);
      assert forall p :: |w| <= p < |Encode(s)| ==> Encode(s)[p] == Encode(s[1..])[p - |w|];
    } else {
      assert s[..0] == "";
    }
  }

  /** The prefix kept is the longest that fits: one more character would not. */
  lemma {:induction false} PrefixIsLongest(s: string, limit: nat, k: nat)
    requires k <= |s|
    ensures |Encode(s[..k])| <= limit <==> k <= PrefixWithin(s, limit)
  {
    if k == 0 {
      assert s[..0] == "";
    } else {
      var w := |EncodeChar(s[0])|;
      assert s[..k] == [s[0]] + s[1..][..k - 1];
      if w <= limit {
        PrefixIsLongest(s[1..], limit - w, k - 1);
      }
    }
  }

  method ScrubForCmux(s: string) returns (r: string)
    ensures r == Scrubbed(s)
  {
    var scrubbed := StripControls(s);
    var buf := Encode(scrubbed);
    if |buf| <= NOTIFY_BODY_MAX_BYTES {
      return scrubbed;
    }
    var end := NOTIFY_BODY_MAX_BYTES - 3;
    PrefixBoundary(scrubbed, end);
    ghost var k := PrefixWithin(scrubbed, end);
    ghost var limit := end;
    while end > 0 && IsContinuation(buf[end])
      invariant |Encode(scrubbed[..k])| <= end <= limit
    {
      end := end - 1;
    }
    assert end == |Encode(scrubbed[..k])|;
    DecodeInvertsEncode(scrubbed[..k]);
    r := Decode(buf[..end]) + [ELLIPSIS];
  }

  /** At most 256 bytes, no control character, and a truncated text is the longest that leaves room for the mark. */
  lemma {:induction false} ScrubbedFits(s: string)
    ensures |Encode(Scrubbed(s))| <= NOTIFY_BODY_MAX_BYTES
    ensures ControlFree(Scrubbed(s))
    ensures var clean := StripControls(s);
            |Encode(clean)| > NOTIFY_BODY_MAX_BYTES ==>
              exists k :: 0 <= k < |clean| && Scrubbed(s) == clean[..k] + [ELLIPSIS]
                          && forall j :: 0 <= j <= |clean| ==> (|Encode(clean[..j])| <= NOTIFY_BODY_MAX_BYTES - 3 <==> j <= k)
  {
    var clean := StripControls(s);
    if |Encode(clean)| > NOTIFY_BODY_MAX_BYTES {
      var limit := NOTIFY_BODY_MAX_BYTES - 3;
      var k := PrefixWithin(clean, limit);
      PrefixBoundary(clean, limit);
      EncodeAppend(clean[..k], [ELLIPSIS]);
      assert |Encode([ELLIPSIS])| == 3;
      forall j | 0 <= j <= |clean| ensures |Encode(clean[..j])| <= limit <==> j <= k {
        PrefixIsLongest(clean, limit, j);
      }
    }
  }

  /** Scrubbing what was scrubbed changes nothing, so the double pass of formatNotifyBody is harmless. */
  lemma ScrubbedIdempotent(s: string)
    ensures Scrubbed(Scrubbed(s)) == Scrubbed(s)
  {
    ScrubbedFits(s);
  }
}
