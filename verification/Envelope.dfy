/** Message envelopes: `xmlEscape` and `wrapEnvelope` of src/server/tools/peer-bus.ts. */
module Envelope {
  import opened Prelude
  import opened Utf8
  import opened Names
  import opened MessageStore

  /** A global replacement of one character. */
  function Replace(s: string, c: char, entity: string): string {
    if s == "" then "" else (if s[0] == c then entity else [s[0]]) + Replace(s[1..], c, entity)
  }

  function XmlEscape(s: string): string {
    Replace(Replace(Replace(Replace(Replace(s, '&', "&amp;"), '<', "&lt;"), '>', "&gt;"), '"', "&quot;"), '\'', "&apos;")
  }

  /** One character at a time: what each one turns into. */
  function EscapeChar(c: char): string {
    if c == '&' then "&amp;"
    else if c == '<' then "&lt;"
    else if c == '>' then "&gt;"
    else if c == '"' then "&quot;"
    else if c == '\'' then "&apos;"
    else [c]
  }

  function EscapeMap(s: string): string {
    if s == "" then "" else EscapeChar(s[0]) + EscapeMap(s[1..])
  }

  lemma {:induction false} ReplaceAppend(s: string, t: string, c: char, entity: string)
    ensures Replace(s + t, c, entity) == Replace(s, c, entity) + Replace(t, c, entity)
  {
    if s == "" {
      assert s + t == t;
    } else {
      var head := if s[0] == c then entity else [s[0]];
      ReplaceAppend(s[1..], t, c, entity);
      assert (s + t)[1..] == s[1..] + t && (s + t)[0] == s[0];
      assert head + (Replace(s[1..], c, entity) + Replace(t, c, entity)) == (head + Replace(s[1..], c, entity)) + Replace(t, c, entity);
    }
  }

  lemma {:induction false} ReplaceAbsent(s: string, c: char, entity: string)
    requires c !in s
    ensures Replace(s, c, entity) == s
  {
    if s != "" {
      ReplaceAbsent(s[1..], c, entity);
    }
  }

  lemma {:induction false} ReplaceOne(x: char, c: char, entity: string)
    ensures Replace([x], c, entity) == if x == c then entity else [x]
  {
    assert Replace([x][1..], c, entity) == "";
  }

  /** One pass over a character that no earlier pass has replaced, or over an entity that an earlier pass wrote. */
  lemma {:induction false} PassOver(c: char, before: string, target: char, entity: string)
    requires before == [c] || (c != target && target !in before)
    ensures Replace(before, target, entity) == if c == target then entity else before
  {
    if before == [c] {
      ReplaceOne(c, target, entity);
    } else {
      ReplaceAbsent(before, target, entity);
    }
  }

  /** Nothing in it that a pass after the first one replaces. */
  predicate Unquoted(e: string) {
    '<' !in e && '>' !in e && '"' !in e && '\'' !in e
  }

  lemma EntitiesUnquoted()
    ensures Unquoted("&amp;") && Unquoted("&lt;") && Unquoted("&gt;") && Unquoted("&quot;")
  {
  }

  /** Entities as arguments, so that the passes are followed without computing on their text. */
  lemma {:induction false} PassesOver(c: char, amp: string, lt: string, gt: string, quot: string, apos: string)
    requires Unquoted(amp) && Unquoted(lt) && Unquoted(gt) && Unquoted(quot)
    ensures Replace(Replace(Replace(Replace(Replace([c], '&', amp), '<', lt), '>', gt), '"', quot), '\'', apos)
            == if c == '&' then amp else if c == '<' then lt else if c == '>' then gt else if c == '"' then quot
               else if c == '\'' then apos else [c]
  {
    PassOver(c, [c], '&', amp);
    var s1 := Replace([c], '&', amp);
    PassOver(c, s1, '<', lt);
    var s2 := Replace(s1, '<', lt);
    PassOver(c, s2, '>', gt);
    var s3 := Replace(s2, '>', gt);
    PassOver(c, s3, '"', quot);
    PassOver(c, Replace(s3, '"', quot), '\'', apos);
  }

  /** The ampersand pass comes first, so no later pass touches what an earlier one wrote. */
  lemma EscapeOne(c: char)
    ensures XmlEscape([c]) == EscapeChar(c)
  {
    EntitiesUnquoted();
    PassesOver(c, "&amp;", "&lt;", "&gt;", "&quot;", "&apos;");
  }

  lemma XmlEscapeAppend(s: string, t: string)
    ensures XmlEscape(s + t) == XmlEscape(s) + XmlEscape(t)
  {
    var s1, t1 := Replace(s, '&', "&amp;"), Replace(t, '&', "&amp;");
    ReplaceAppend(s, t, '&', "&amp;");
    var s2, t2 := Replace(s1, '<', "&lt;"), Replace(t1, '<', "&lt;");
    ReplaceAppend(s1, t1, '<', "&lt;");
    var s3, t3 := Replace(s2, '>', "&gt;"), Replace(t2, '>', "&gt;");
    ReplaceAppend(s2, t2, '>', "&gt;");
    var s4, t4 := Replace(s3, '"', "&quot;"), Replace(t3, '"', "&quot;");
    ReplaceAppend(s3, t3, '"', "&quot;");
    ReplaceAppend(s4, t4, '\'', "&apos;");
  }

  /** The five sequential passes are one pass of the character map. */
  lemma {:induction false} XmlEscapeIsCharacterMap(s: string)
    ensures XmlEscape(s) == EscapeMap(s)
  {
    if s != "" {
      XmlEscapeIsCharacterMap(s[1..]);
      EscapeOne(s[0]);
      XmlEscapeAppend([s[0]], s[1..]);
      assert s == [s[0]] + s[1..];
    }
  }

  /** Reads the five predefined entities (section 4.6 of XML 1.0); any other text stands for itself. */
  function Unescape(s: string): string {
    if s == "" then ""
    else if "&amp;" <= s then "&" + Unescape(s[5..])
    else if "&lt;" <= s then "<" + Unescape(s[4..])
    else if "&gt;" <= s then ">" + Unescape(s[4..])
    else if "&quot;" <= s then "\"" + Unescape(s[6..])
    else if "&apos;" <= s then "'" + Unescape(s[6..])
    else [s[0]] + Unescape(s[1..])
  }

  lemma {:induction false} UnescapeInvertsEscape(s: string)
    ensures Unescape(XmlEscape(s)) == s
  {
    XmlEscapeIsCharacterMap(s);
    UnescapeInvertsMap(s);
  }

  lemma {:induction false} UnescapePlain(c: char, rest: string)
    requires c != '&'
    ensures Unescape([c] + rest) == [c] + Unescape(rest)
  {
    assert ([c] + rest)[0] == c && ([c] + rest)[1..] == rest;
  }

  lemma {:induction false} UnescapeEntity(c: char, e: string, rest: string)
    requires EscapeChar(c) == e && |e| > 1
    ensures Unescape(e + rest) == [c] + Unescape(rest)
  {
    assert e <= e + rest && (e + rest)[|e|..] == rest;
    assert (e + rest)[1] == e[1] && (e + rest)[2] == e[2];
  }

  lemma {:induction false} UnescapeStep(c: char, rest: string)
    ensures Unescape(EscapeChar(c) + rest) == [c] + Unescape(rest)
  {
    if |EscapeChar(c)| > 1 {
      UnescapeEntity(c, EscapeChar(c), rest);
    } else {
      UnescapePlain(c, rest);
    }
  }

  lemma {:induction false} UnescapeInvertsMap(s: string)
    ensures Unescape(EscapeMap(s)) == s
  {
    if s != "" {
      UnescapeInvertsMap(s[1..]);
      UnescapeStep(s[0], EscapeMap(s[1..]));
      assert [s[0]] + s[1..] == s;
    }
  }

  /** The character that ends an attribute or begins a tag never occurs in escaped text. */
  lemma {:induction false} EscapedIsInert(s: string)
    ensures '<' !in EscapeMap(s) && '>' !in EscapeMap(s) && '"' !in EscapeMap(s) && '\'' !in EscapeMap(s)
  {
    if s != "" {
      EscapedIsInert(s[1..]);
    }
  }

  /** Control characters outside XML 1.0 (section 2.2): all of C0 but tab, line feed and carriage return. */
  predicate IsIllegalControl(c: char) {
    var n := c as int;
    n <= 0x08 || n == 0x0B || n == 0x0C || 0x0E <= n <= 0x1F
  }

  lemma LegalMeans(c: char)
    ensures !IsIllegalControl(c) <==> c as int >= 0x20 || c == '\t' || c == '\n' || c == '\r'
  {
  }

  function StripIllegal(s: string): (r: string)
    ensures forall i :: 0 <= i < |r| ==> !IsIllegalControl(r[i])
    ensures (forall i :: 0 <= i < |s| ==> !IsIllegalControl(s[i])) ==> r == s
  {
    if s == "" then ""
    else if IsIllegalControl(s[0]) then StripIllegal(s[1..])
    else [s[0]] + StripIllegal(s[1..])
  }

  /** Stripping takes out the illegal controls and nothing else. */
  lemma {:induction false} StripKeepsTheRest(s: string, legal: char -> bool)
    requires forall c :: legal(c) <==> c as int >= 0x20 || c == '\t' || c == '\n' || c == '\r'
    ensures Filtered(StripIllegal(s), s, legal)
  {
    if s != "" {
      LegalMeans(s[0]);
      StripKeepsTheRest(s[1..], legal);
      FilteredCons(s[0], StripIllegal(s[1..]), s[1..], legal);
      assert [s[0]] + s[1..] == s;
      assert [] + StripIllegal(s[1..]) == StripIllegal(s[1..]);
    }
  }

  const OPEN_NAME := "peer-message from=\""
  const CLOSE_NAME := "/peer-message"
  const OPEN := "<" + OPEN_NAME
  const KIND := "\" kind=\""
  const ID := "\" messageId=\""
  const BODY := "\"" + ">"
  const CLOSE := "<" + CLOSE_NAME + ">"

  function Field(s: string): string {
    XmlEscape(StripIllegal(s))
  }

  function WrapEnvelope(msg: PeerMessage): string {
    OPEN + Field(msg.from) + KIND + Field(msg.kind) + ID + Field(msg.messageId) + BODY + Field(msg.body.AsText()) + CLOSE
  }

  // ----- A parser that recovers the parts -----

  datatype Parts = Parts(from: string, kind: string, messageId: string, body: string)

  /** The text before the first `c`, and the text from it on. */
  function Until(s: string, c: char): (string, string) {
    if s == "" || s[0] == c then ("", s)
    else
      var (before, after) := Until(s[1..], c);
      ([s[0]] + before, after)
  }

  lemma {:induction false} UntilFinds(s: string, c: char, rest: string)
    requires c !in s && rest != "" && rest[0] == c
    ensures Until(s + rest, c) == (s, rest)
  {
    if s == "" {
      assert s + rest == rest;
    } else {
      UntilFinds(s[1..], c, rest);
      assert (s + rest)[1..] == s[1..] + rest;
      assert s[0] in s && [s[0]] + s[1..] == s;
    }
  }

  /** Reads one field: the literal `before`, then text up to `stop`. */
  function ParseField(s: string, before: string, stop: char): Option<(string, string)> {
    if before <= s then
      var (text, rest) := Until(s[|before|..], stop);
      Some((Unescape(text), rest))
    else None
  }

  /** Reads the four fields, each after its literal, and nothing after the last literal. */
  function ParseParts(s: string, open: string, kindIs: string, idIs: string, bodyIs: string, close: string): Option<Parts> {
    match ParseField(s, open, '"')
    case None => None
    case Some((from, s1)) =>
      match ParseField(s1, kindIs, '"')
      case None => None
      case Some((kind, s2)) =>
        match ParseField(s2, idIs, '"')
        case None => None
        case Some((id, s3)) =>
          match ParseField(s3, bodyIs, '<')
          case None => None
          case Some((body, s4)) =>
            if s4 == close then Some(Parts(from, kind, id, body)) else None
  }

  /** An element `peer-message` with the attributes `from`, `kind` and `messageId`. */
  function ParseEnvelope(s: string): Option<Parts> {
    ParseParts(s, "<peer-message from=\"", "\" kind=\"", "\" messageId=\"", "\">", "</peer-message>")
  }

  lemma ParseFieldFinds(before: string, raw: string, stop: char, rest: string)
    requires stop == '"' || stop == '<'
    requires rest != "" && rest[0] == stop
    ensures ParseField(before + XmlEscape(raw) + rest, before, stop) == Some((raw, rest))
  {
    var s := before + XmlEscape(raw) + rest;
    assert s == before + (XmlEscape(raw) + rest);
    assert s[|before|..] == XmlEscape(raw) + rest;
    XmlEscapeIsCharacterMap(raw);
    EscapedIsInert(raw);
    UntilFinds(XmlEscape(raw), stop, rest);
    UnescapeInvertsEscape(raw);
  }

  lemma ParsePartsFinds(s: string, open: string, kindIs: string, idIs: string, bodyIs: string, close: string,
                        from: string, kind: string, id: string, body: string)
    requires kindIs != "" && kindIs[0] == '"' && idIs != "" && idIs[0] == '"' && bodyIs != "" && bodyIs[0] == '"' && close != "" && close[0] == '<'
    requires s == open + XmlEscape(from) + (kindIs + XmlEscape(kind) + (idIs + XmlEscape(id) + (bodyIs + XmlEscape(body) + close)))
    ensures ParseParts(s, open, kindIs, idIs, bodyIs, close) == Some(Parts(from, kind, id, body))
  {
    var s3 := bodyIs + XmlEscape(body) + close;
    var s2 := idIs + XmlEscape(id) + s3;
    var s1 := kindIs + XmlEscape(kind) + s2;
    ParseFieldFinds(open, from, '"', s1);
    ParseFieldFinds(kindIs, kind, '"', s2);
    ParseFieldFinds(idIs, id, '"', s3);
    ParseFieldFinds(bodyIs, body, '<', close);
  }

  lemma Literals()
    ensures OPEN == "<peer-message from=\"" && KIND == "\" kind=\"" && ID == "\" messageId=\"" && BODY == "\">" && CLOSE == "</peer-message>"
  {
  }

  lemma Associates(open: string, f: string, kind: string, k: string, id: string, m: string, body: string, b: string, close: string)
    ensures open + f + kind + k + id + m + body + b + close == open + f + (kind + k + (id + m + (body + b + close)))
  {
  }

  /** An envelope determines its sender, kind, id and body, each without the stripped controls. */
  lemma EnvelopeParsesBack(msg: PeerMessage)
    ensures ParseEnvelope(WrapEnvelope(msg))
            == Some(Parts(StripIllegal(msg.from), StripIllegal(msg.kind), StripIllegal(msg.messageId), StripIllegal(msg.body.AsText())))
  {
    Literals();
    Associates(OPEN, Field(msg.from), KIND, Field(msg.kind), ID, Field(msg.messageId), BODY, Field(msg.body.AsText()), CLOSE);
    ParsePartsFinds(WrapEnvelope(msg), OPEN, KIND, ID, BODY, CLOSE,
                    StripIllegal(msg.from), StripIllegal(msg.kind), StripIllegal(msg.messageId), StripIllegal(msg.body.AsText()));
  }

  /** Free of tag delimiters. */
  ghost predicate Inert(s: string) {
    forall i :: 0 <= i < |s| ==> s[i] != '<' && s[i] != '>'
  }

  lemma InertAppend(s: string, t: string)
    requires Inert(s) && Inert(t)
    ensures Inert(s + t)
  {
  }

  lemma FieldInert(s: string)
    ensures Inert(Field(s))
  {
    XmlEscapeIsCharacterMap(StripIllegal(s));
    EscapedIsInert(StripIllegal(s));
  }

  /** What stands between the first `<` and the `>` that ends the opening tag. */
  function Attributes(msg: PeerMessage): string {
    OPEN_NAME + Field(msg.from) + KIND + Field(msg.kind) + ID + Field(msg.messageId) + "\""
  }

  lemma AttributesInert(msg: PeerMessage)
    ensures Inert(Attributes(msg))
  {
    FieldInert(msg.from);
    FieldInert(msg.kind);
    FieldInert(msg.messageId);
    InertAppend(OPEN_NAME, Field(msg.from));
    InertAppend(OPEN_NAME + Field(msg.from), KIND);
    InertAppend(OPEN_NAME + Field(msg.from) + KIND, Field(msg.kind));
    InertAppend(OPEN_NAME + Field(msg.from) + KIND + Field(msg.kind), ID);
    InertAppend(OPEN_NAME + Field(msg.from) + KIND + Field(msg.kind) + ID, Field(msg.messageId));
  }

  lemma Regroup(open: string, f: string, kind: string, k: string, id: string, m: string, b: string, close: string)
    ensures ("<" + open) + f + kind + k + id + m + ("\"" + ">") + b + ("<" + close + ">")
            == "<" + (open + f + kind + k + id + m + "\"") + ">" + b + "<" + close + ">"
  {
  }

  lemma EnvelopeLayout(msg: PeerMessage)
    ensures WrapEnvelope(msg) == "<" + Attributes(msg) + ">" + Field(msg.body.AsText()) + "<" + CLOSE_NAME + ">"
  {
    Regroup(OPEN_NAME, Field(msg.from), KIND, Field(msg.kind), ID, Field(msg.messageId), Field(msg.body.AsText()), CLOSE_NAME);
  }

  /** `<` stands only at the start of the two tags and `>` only at their ends, whatever the sender wrote. */
  lemma OnlyTheOuterTags(msg: PeerMessage)
    ensures var w := WrapEnvelope(msg);
            var bodyEnd := |w| - |CLOSE|;
            var bodyStart := bodyEnd - |Field(msg.body.AsText())|;
            && 0 < bodyStart <= bodyEnd
            && w[bodyStart..bodyEnd] == Field(msg.body.AsText())
            && (forall i :: 0 <= i < |w| ==> (w[i] == '<' <==> i == 0 || i == bodyEnd))
            && (forall i :: 0 <= i < |w| ==> (w[i] == '>' <==> i == bodyStart - 1 || i == |w| - 1))
  {
    EnvelopeLayout(msg);
    AttributesInert(msg);
    FieldInert(msg.body.AsText());
    DelimitersOf(Attributes(msg), Field(msg.body.AsText()), CLOSE_NAME);
  }

  lemma DelimitersOf(a: string, b: string, c: string)
    requires Inert(a) && Inert(b) && Inert(c)
    ensures var w := "<" + a + ">" + b + "<" + c + ">";
            && w[|a| + 2..|a| + 2 + |b|] == b
            && (forall i :: 0 <= i < |w| ==> (w[i] == '<' <==> i == 0 || i == |a| + |b| + 2))
            && (forall i :: 0 <= i < |w| ==> (w[i] == '>' <==> i == |a| + 1 || i == |w| - 1))
  {
  }

  // ----- The size of an envelope -----

  const KINDS: set<string> := {"workflow-event", "chat", "request", "response"}

  /** What sendMessageTool accepts: a registered sender, a known kind, a UUID and a body within the limit. */
  predicate Accepted(msg: PeerMessage) {
    && IsSessionName(msg.from)
    && msg.kind in KINDS
    && |msg.messageId| == 36
    && (forall i :: 0 <= i < 36 ==> IsLowerOrDigit(msg.messageId[i]) || msg.messageId[i] == '-')
    && BodyByteLength(msg.body) <= PEER_BUS_MAX_BODY_BYTES
  }

  lemma {:induction false} EscapedSize(s: string)
    ensures |Encode(EscapeMap(s))| <= 6 * |Encode(s)|
  {
    if s != "" {
      EscapedSize(s[1..]);
      EncodeAppend(EscapeChar(s[0]), EscapeMap(s[1..]));
      EscapedCharSize(s[0]);
    }
  }

  lemma EscapedCharSize(c: char)
    ensures |Encode(EscapeChar(c))| <= 6 * |EncodeChar(c)|
  {
    var e := EscapeChar(c);
    if e == [c] {
      assert Encode(e) == EncodeChar(c) + Encode([]);
    } else {
      EncodeAscii(e);
    }
  }

  lemma {:induction false} StrippedSize(s: string)
    ensures |Encode(StripIllegal(s))| <= |Encode(s)|
  {
    if s != "" {
      StrippedSize(s[1..]);
    }
  }

  /** Text made of letters, digits and dashes is left as it is, one byte a character. */
  lemma {:induction false} PlainField(s: string)
    requires forall i :: 0 <= i < |s| ==> IsLowerOrDigit(s[i]) || s[i] == '-'
    ensures Field(s) == s && |Encode(s)| == |s|
  {
    assert StripIllegal(s) == s;
    XmlEscapeIsCharacterMap(s);
    PlainMap(s);
    EncodeAscii(s);
  }

  lemma {:induction false} PlainMap(s: string)
    requires forall i :: 0 <= i < |s| ==> IsLowerOrDigit(s[i]) || s[i] == '-'
    ensures EscapeMap(s) == s
  {
    if s != "" {
      PlainMap(s[1..]);
    }
  }

  const MAX_ENVELOPE_BYTES := 6 * PEER_BUS_MAX_BODY_BYTES + 171

  lemma KindPlain(kind: string)
    requires kind in KINDS
    ensures |kind| <= 14 && forall i :: 0 <= i < |kind| ==> IsLowerOrDigit(kind[i]) || kind[i] == '-'
  {
  }

  function Head(msg: PeerMessage): string {
    OPEN + msg.from + KIND + msg.kind + ID + msg.messageId + BODY
  }

  lemma AcceptedLayout(msg: PeerMessage)
    requires Accepted(msg)
    ensures WrapEnvelope(msg) == Head(msg) + Field(msg.body.AsText()) + CLOSE
  {
    PlainField(msg.from);
    KindPlain(msg.kind);
    PlainField(msg.kind);
    PlainField(msg.messageId);
  }

  lemma BodySize(body: Body)
    ensures |Encode(Field(body.AsText()))| <= 6 * BodyByteLength(body)
  {
    var clean := StripIllegal(body.AsText());
    XmlEscapeIsCharacterMap(clean);
    EscapedSize(clean);
    StrippedSize(body.AsText());
  }

  lemma CloseSize()
    ensures |Encode(CLOSE)| == |CLOSE| == 15
  {
    EncodeAscii(CLOSE);
  }

  /** An accepted message wraps into at most six bytes per body byte and 171 more; never into nothing. */
  lemma EnvelopeSize(msg: PeerMessage)
    requires Accepted(msg)
    ensures 0 < |Encode(WrapEnvelope(msg))| <= MAX_ENVELOPE_BYTES
  {
    AcceptedLayout(msg);
    BodySize(msg.body);
    HeadSize(msg);
    CloseSize();
    SizeOfParts(Head(msg), Field(msg.body.AsText()), CLOSE);
  }

  lemma {:induction false} SizeOfParts(head: string, body: string, close: string)
    ensures |Encode(head + body + close)| == |Encode(head)| + |Encode(body)| + |Encode(close)|
  {
    EncodeAppend(head + body, close);
    EncodeAppend(head, body);
  }

  lemma HeadSize(msg: PeerMessage)
    requires Accepted(msg)
    ensures 0 < |Encode(Head(msg))| <= 171 - |CLOSE|
  {
    KindPlain(msg.kind);
    var h1 := OPEN + msg.from;
    var h2 := h1 + KIND + msg.kind;
    var h3 := h2 + ID + msg.messageId;
    assert Ascii(h1);
    assert Ascii(h2);
    assert Ascii(h3);
    assert Ascii(h3 + BODY);
    assert h3 + BODY == Head(msg);
    EncodeAscii(h3 + BODY);
  }
}
