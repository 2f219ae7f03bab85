/**
  SIP over TCP framing (custom_components/intratone/sip_client.py, `data_received` and
  `_extract_one_message`; section 18.3 of RFC 3261). A string stands for octets, one per character.
*/
module SipFraming {
  import opened Basics

  const END_OF_HEADERS := "\r\n\r\n"
  const CONTENT_LENGTH := "content-length:"

  // ---------- the Content-Length pattern, anchored at line starts ----------

  predicate IsSpace(c: char) { c in " \t\n\r" || ('\U{b}' <= c <= '\U{c}') || ('\U{1c}' <= c <= '\U{1f}') }

  predicate IsDigit(c: char) { '0' <= c <= '9' }

  function Lower(c: char): char { if 'A' <= c <= 'Z' then c - 'A' + 'a' else c }

  /** Case-insensitive: s has the (lower-case) text at position i. */
  predicate HasAt(s: string, i: nat, text: string)
  {
    i + |text| <= |s| && forall k :: 0 <= k < |text| ==> Lower(s[i + k]) == text[k]
  }

  function SkipSpace(s: string, i: nat): (j: nat)
    requires i <= |s|
    ensures i <= j <= |s|
    ensures forall k :: i <= k < j ==> IsSpace(s[k])
    ensures j < |s| ==> !IsSpace(s[j])
    decreases |s| - i
  {
    if i < |s| && IsSpace(s[i]) then SkipSpace(s, i + 1) else i
  }

  function SkipDigits(s: string, i: nat): (j: nat)
    requires i <= |s|
    ensures i <= j <= |s|
    ensures forall k :: i <= k < j ==> IsDigit(s[k])
    ensures j < |s| ==> !IsDigit(s[j])
    decreases |s| - i
  {
    if i < |s| && IsDigit(s[i]) then SkipDigits(s, i + 1) else i
  }

  function DigitValue(c: char): nat
    requires IsDigit(c)
  {
    (c as int - '0' as int) as nat
  }

  function Number(s: string): nat
    requires forall k :: 0 <= k < |s| ==> IsDigit(s[k])
  {
    if s == [] then 0 else 10 * Number(s[..|s| - 1]) + DigitValue(s[|s| - 1])
  }

  predicate LineStart(s: string, i: nat) { i == 0 || (i <= |s| && s[i - 1] == '\n') }

  /** White space up to the end of a line: `\s*$`. */
  predicate EndsLine(s: string, j: nat)
    requires j <= |s|
  {
    SkipSpace(s, j) == |s| || '\n' in s[j..SkipSpace(s, j)]
  }

  /** The length a match at position i announces, if the pattern matches there. */
  function LengthAt(s: string, i: nat): Option<nat>
  {
    if !LineStart(s, i) || !HasAt(s, i, CONTENT_LENGTH) then None
    else
      var a := SkipSpace(s, i + |CONTENT_LENGTH|);
      var b := SkipDigits(s, a);
      if a == b || !EndsLine(s, b) then None else Some(Number(s[a..b]))
  }

  /** The first match at or after i; a header without one announces no body. */
  function BodyLength(s: string, i: nat): nat
    decreases |s| - i
  {
    if i >= |s| then 0
    else if LengthAt(s, i).Some? then LengthAt(s, i).value
    else BodyLength(s, i + 1)
  }

  // ---------- popping one message ----------

  predicate EndsAt(s: string, i: nat) { i + 4 <= |s| && s[i..i + 4] == END_OF_HEADERS }

  /** The first blank line at or after i. */
  function FindEnd(s: string, i: nat): (h: Option<nat>)
    ensures h.Some? ==> i <= h.value && EndsAt(s, h.value)
    ensures h.Some? ==> forall k :: i <= k < h.value ==> !EndsAt(s, k)
    ensures h.None? ==> forall k :: i <= k ==> !EndsAt(s, k)
    decreases |s| - i
  {
    if i + 4 > |s| then None
    else if s[i..i + 4] == END_OF_HEADERS then Some(i)
    else FindEnd(s, i + 1)
  }

  /** How many octets the first complete message takes, if there is one. */
  function FirstLength(buf: string): (n: Option<nat>)
    ensures n.Some? ==> 4 <= n.value <= |buf|
  {
    var h := FindEnd(buf, 0);
    if h.None? then None
    else
      var total := h.value + 4 + BodyLength(buf[..h.value + 4], 0);
      if |buf| < total then None else Some(total)
  }

  datatype Framed = Framed(messages: seq<string>, rest: string)

  /** All complete messages at the front of the buffer, and what is left. */
  function Frames(buf: string): Framed
    decreases |buf|
  {
    var n := FirstLength(buf);
    if n.None? then Framed([], buf)
    else
      var f := Frames(buf[n.value..]);
      Framed([buf[..n.value]] + f.messages, f.rest)
  }

  function Concat(ss: seq<string>): string
  {
    if ss == [] then "" else ss[0] + Concat(ss[1..])
  }

  // ---------- framing does not depend on how TCP cuts the stream ----------

  lemma {:induction false} FindEndStable(a: string, b: string, i: nat)
    requires FindEnd(a, i).Some?
    ensures FindEnd(a + b, i) == FindEnd(a, i)
    decreases |a| - i
  {
    assert (a + b)[i..i + 4] == a[i..i + 4];
    if a[i..i + 4] != END_OF_HEADERS { FindEndStable(a, b, i + 1); }
  }

  lemma FirstLengthStable(a: string, b: string)
    requires FirstLength(a).Some?
    ensures FirstLength(a + b) == FirstLength(a)
  {
    FindEndStable(a, b, 0);
    var h := FindEnd(a, 0).value;
    assert (a + b)[..h + 4] == a[..h + 4];
  }

  /** MAIN RESULT: framing what is left of one read together with the next read gives what framing
      both together gives, in the same order and with the same remainder. */
  lemma {:induction false} FramesAppend(a: string, b: string)
    ensures var f := Frames(a);
      Frames(a + b) == Framed(f.messages + Frames(f.rest + b).messages, Frames(f.rest + b).rest)
    decreases |a|
  {
    var n := FirstLength(a);
    if n.None? {
      assert Frames(a).messages + Frames(a + b).messages == Frames(a + b).messages;
    } else {
      FirstLengthStable(a, b);
      hide FirstLength;
      assert (a + b)[..n.value] == a[..n.value];
      assert (a + b)[n.value..] == a[n.value..] + b;
      FramesAppend(a[n.value..], b);
      var f := Frames(a[n.value..]);
      Regroup(a[..n.value], f.messages, Frames(f.rest + b).messages);
    }
  }

  lemma Regroup(m: string, ms: seq<string>, more: seq<string>)
    ensures ([m] + ms) + more == [m] + (ms + more)
  {}

  /** What a client dispatches over a series of reads, starting with some buffer. */
  function Feed(rest: string, chunks: seq<string>): Framed
    decreases |chunks|
  {
    if chunks == [] then Framed([], rest)
    else
      var f := Frames(rest + chunks[0]);
      var g := Feed(f.rest, chunks[1..]);
      Framed(f.messages + g.messages, g.rest)
  }

  lemma {:induction false} FeedIsFrames(rest: string, chunks: seq<string>)
    requires Frames(rest) == Framed([], rest)
    ensures Feed(rest, chunks) == Frames(rest + Concat(chunks))
    decreases |chunks|
  {
    hide FirstLength;
    if chunks == [] {
      assert rest + "" == rest;
    } else {
      var f := Frames(rest + chunks[0]);
      FramesRestIsIncomplete(rest + chunks[0]);
      FeedIsFrames(f.rest, chunks[1..]);
      FramesAppend(rest + chunks[0], Concat(chunks[1..]));
      assert rest + Concat(chunks) == (rest + chunks[0]) + Concat(chunks[1..]);
    }
  }

  lemma {:induction false} FramesRestIsIncomplete(buf: string)
    ensures Frames(Frames(buf).rest) == Framed([], Frames(buf).rest)
    decreases |buf|
  {
    if FirstLength(buf).Some? { FramesRestIsIncomplete(buf[FirstLength(buf).value..]); }
  }

  /** MAIN RESULT: two ways of cutting one stream into reads, from whatever incomplete message was
      left before, dispatch the same messages in the same order and leave the same buffer. */
  lemma ChunkingDoesNotMatter(rest: string, chunks: seq<string>, others: seq<string>)
    requires FirstLength(rest).None? && Concat(chunks) == Concat(others)
    ensures Feed(rest, chunks) == Feed(rest, others)
  {
    assert Frames(rest) == Framed([], rest);
    hide FirstLength, Feed;
    FeedIsFrames(rest, chunks);
    FeedIsFrames(rest, others);
  }

  lemma ConcatCons(head: string, ms: seq<string>, rest: string)
    ensures Concat([head] + ms) + rest == head + (Concat(ms) + rest)
  {
    assert ([head] + ms)[1..] == ms;
  }

  /** MAIN RESULT: no octet is lost or invented: the messages and the remainder are the stream. */
  lemma {:induction false} NothingLost(buf: string)
    ensures Concat(Frames(buf).messages) + Frames(buf).rest == buf
    decreases |buf|
  {
    var n := FirstLength(buf);
    if n.Some? {
      var f := Frames(buf[n.value..]);
      NothingLost(buf[n.value..]);
      ConcatCons(buf[..n.value], f.messages, f.rest);
      hide FirstLength, Concat;
    }
  }

  /** Every pop removes at least four octets, so the loop ends. */
  lemma {:induction false} MessagesHaveFour(buf: string, i: nat)
    requires i < |Frames(buf).messages|
    ensures |Frames(buf).messages[i]| >= 4
    decreases |buf|
  {
    if i > 0 { MessagesHaveFour(buf[FirstLength(buf).value..], i - 1); }
  }

  // ---------- the receiving end ----------

  /** The messages the library can parse; the others are dropped. */
  function Parsed(parses: string -> bool, ms: seq<string>): seq<string>
  {
    if ms == [] then [] else (if parses(ms[0]) then [ms[0]] else []) + Parsed(parses, ms[1..])
  }

  /** The receive buffer of the client. `dispatched` records what `_dispatch` was called with. */
  class Receiver {
    const parses: string -> bool
    var rxBuf: string
    var dispatched: seq<string>

    constructor (parses: string -> bool)
      ensures this.parses == parses && rxBuf == "" && dispatched == []
    {
      this.parses := parses;
      rxBuf, dispatched := "", [];
    }

    /** `_extract_one_message`: pops messages until one parses or the buffer is incomplete. */
    method ExtractOneMessage() returns (msg: Option<string>)
      modifies this`rxBuf
      ensures msg.None? ==> FirstLength(rxBuf).None?
      ensures msg.None? ==> Parsed(parses, Frames(old(rxBuf)).messages) == [] && rxBuf == Frames(old(rxBuf)).rest
      ensures msg.Some? ==> |rxBuf| < |old(rxBuf)| && Frames(rxBuf).rest == Frames(old(rxBuf)).rest
      ensures msg.Some? ==>
        Parsed(parses, Frames(old(rxBuf)).messages) == [msg.value] + Parsed(parses, Frames(rxBuf).messages)
    {
      while true
        invariant |rxBuf| <= |old(rxBuf)|
        invariant Parsed(parses, Frames(rxBuf).messages) == Parsed(parses, Frames(old(rxBuf)).messages)
        invariant Frames(rxBuf).rest == Frames(old(rxBuf)).rest
        decreases |rxBuf|
      {
        var headerEnd := FindEnd(rxBuf, 0);
        if headerEnd.None? { return None; }
        var bodyLen := BodyLength(rxBuf[..headerEnd.value + 4], 0);
        var total := headerEnd.value + 4 + bodyLen;
        if |rxBuf| < total { return None; }
        var raw := rxBuf[..total];
        ghost var f := Frames(rxBuf);
        rxBuf := rxBuf[total..];
        assert f.messages[0] == raw && f.messages[1..] == Frames(rxBuf).messages;
        if parses(raw) { return Some(raw); }
      }
    }

    /** `data_received` */
    method DataReceived(data: string)
      modifies this
      ensures dispatched == old(dispatched) + Parsed(parses, Frames(old(rxBuf) + data).messages)
      ensures rxBuf == Frames(old(rxBuf) + data).rest
    {
      hide Frames, Parsed, FirstLength;
      rxBuf := rxBuf + data;
      ghost var start := rxBuf;
      while true
        invariant dispatched + Parsed(parses, Frames(rxBuf).messages)
               == old(dispatched) + Parsed(parses, Frames(start).messages)
        invariant Frames(rxBuf).rest == Frames(start).rest
        decreases |rxBuf|
      {
        ghost var before := Parsed(parses, Frames(rxBuf).messages);
        var msg := ExtractOneMessage();
        ghost var after := Parsed(parses, Frames(rxBuf).messages);
        if msg.None? { return; }
        assert dispatched + ([msg.value] + after) == (dispatched + [msg.value]) + after;
        dispatched := dispatched + [msg.value];
      }
    }
  }
}
