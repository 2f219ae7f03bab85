/** A reader of SIP messages that knows nothing of how we write them: it cuts the octets at each CRLF
    up to the blank line, and each line at its first colon (section 7 of RFC 3261). */
module SipReader {
  import opened Basics
  import opened SipFraming
  import opened SipMessages
  import opened SipRoundTrip

  /** The lines before the blank line, and what follows it. */
  datatype Read = Read(lines: seq<string>, body: string)

  datatype Header = Header(name: string, value: string)

  /** Where the first CRLF at or after i begins. */
  function LineEnd(s: string, i: nat): (n: Option<nat>)
    ensures n.Some? ==> i <= n.value && n.value + 2 <= |s|
    decreases |s| - i
  {
    if i + 2 > |s| then None
    else if s[i] == '\r' && s[i + 1] == '\n' then Some(i)
    else LineEnd(s, i + 1)
  }

  function ReadMessage(s: string): Option<Read>
    decreases |s|
  {
    var n := LineEnd(s, 0);
    if n.None? then None
    else if n.value == 0 then Some(Read([], s[2..]))
    else
      var r := ReadMessage(s[n.value + 2..]);
      if r.None? then None else Some(Read([s[..n.value]] + r.value.lines, r.value.body))
  }

  /** The first colon at or after i, or the end. */
  function Colon(l: string, i: nat): (n: nat)
    requires i <= |l|
    ensures i <= n <= |l|
    decreases |l| - i
  {
    if i == |l| || l[i] == ':' then i else Colon(l, i + 1)
  }

  /** A name, and the value after the colon and one space. */
  function ReadHeader(l: string): Header
  {
    var n := Colon(l, 0);
    var from_ := if n + 1 < |l| && l[n + 1] == ' ' then n + 2 else if n < |l| then n + 1 else n;
    Header(l[..n], l[from_..])
  }

  /** Header names are compared without regard to case. */
  predicate SameName(a: string, b: string) { |a| == |b| && forall k :: 0 <= k < |a| ==> Lower(a[k]) == Lower(b[k]) }

  /** The values of all header lines with a name, in order. */
  function Under(lines: seq<string>, name: string): seq<string>
  {
    if lines == [] then []
    else
      var h := ReadHeader(lines[0]);
      (if SameName(h.name, name) then [h.value] else []) + Under(lines[1..], name)
  }

  // ---------- clean lines are read back ----------

  lemma {:induction false} LineEndIs(l: string, x: string, i: nat)
    requires Clean(l) && i <= |l|
    ensures LineEnd(l + CRLF + x, i) == Some(|l|)
    decreases |l| - i
  {
    var s := l + CRLF + x;
    if i < |l| {
      assert s[i] == l[i];
      LineEndIs(l, x, i + 1);
    } else {
      assert s[i] == '\r' && s[i + 1] == '\n';
    }
  }

  lemma {:induction false} LinesReadBack(ls: seq<string>, body: string)
    requires forall i :: 0 <= i < |ls| ==> ls[i] != "" && Clean(ls[i])
    ensures ReadMessage(Lines(ls) + CRLF + body) == Some(Read(ls, body))
    decreases |ls|
  {
    var s := Lines(ls) + CRLF + body;
    if ls == [] {
      LineEndIs("", body, 0);
      assert s == "" + CRLF + body && s[2..] == body;
    } else {
      var l, rest := ls[0], Lines(ls[1..]) + CRLF + body;
      assert s == l + CRLF + rest;
      LineEndIs(l, rest, 0);
      assert s[..|l|] == l && s[|l| + 2..] == rest;
      LinesReadBack(ls[1..], body);
      assert [l] + ls[1..] == ls;
    }
  }

  lemma {:induction false} ColonIs(name: string, x: string, i: nat)
    requires i <= |name| && forall k :: 0 <= k < |name| ==> name[k] != ':'
    ensures Colon(name + ":" + x, i) == |name|
    decreases |name| - i
  {
    if i < |name| {
      assert (name + ":" + x)[i] == name[i];
      ColonIs(name, x, i + 1);
    } else {
      assert (name + ":" + x)[i] == ':';
    }
  }

  lemma HeaderReadsBack(name: string, value: string)
    requires forall k :: 0 <= k < |name| ==> name[k] != ':'
    ensures ReadHeader(name + ": " + value) == Header(name, value)
  {
    var l := name + ": " + value;
    ColonIs(name, " " + value, 0);
    assert l == name + ":" + (" " + value);
    hide Colon;
    assert l[|name| + 1] == ' ';
    assert l[..|name|] == name && l[|name| + 2..] == value;
  }
}
