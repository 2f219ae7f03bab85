/** What an independent reader finds under each header name in the octets we write (section 8.1.1 of
    RFC 3261 for requests, section 8.2.6.2 for responses). */
module SipHeaders {
  import opened Basics
  import opened SipFraming
  import opened SipMessages
  import opened SipRoundTrip
  import opened SipReader

  /** The values of all fields with a name, in order. */
  function ValuesOf(fs: seq<Field>, name: string): seq<string>
  {
    if fs == [] then []
    else (if SameName(fs[0].name, name) then [fs[0].value] else []) + ValuesOf(fs[1..], name)
  }

  lemma {:induction false} ValuesAppend(a: seq<Field>, b: seq<Field>, name: string)
    ensures ValuesOf(a + b, name) == ValuesOf(a, name) + ValuesOf(b, name)
    decreases |a|
  {
    if a == [] {
      assert [] + b == b;
    } else {
      assert (a + b)[1..] == a[1..] + b;
      ValuesAppend(a[1..], b, name);
    }
  }

  lemma ValuesOne(f: Field, name: string)
    ensures ValuesOf([f], name) == if SameName(f.name, name) then [f.value] else []
  {
    assert [f][1..] == [];
  }

  lemma {:induction false} ValuesAbsent(fs: seq<Field>, name: string)
    requires forall i :: 0 <= i < |fs| ==> !SameName(fs[i].name, name)
    ensures ValuesOf(fs, name) == []
    decreases |fs|
  {
    if fs != [] { ValuesAbsent(fs[1..], name); }
  }

  lemma {:induction false} ValuesRepeated(n: string, values: seq<string>, name: string)
    ensures ValuesOf(Repeated(n, values), name) == if SameName(n, name) then values else []
    decreases |values|
  {
    if values != [] {
      assert Repeated(n, values)[1..] == Repeated(n, values[1..]);
      ValuesRepeated(n, values[1..], name);
    }
  }

  /** Enough of a name to tell the names in use apart. */
  function Tag(s: string): int
    requires |s| > 1
  {
    1_000_000_000 * |s| + 10_000 * (Lower(s[0]) as int) + Lower(s[1]) as int
  }

  lemma SameTag(a: string, b: string)
    requires |a| > 1 && |b| > 1
    ensures SameName(a, b) ==> Tag(a) == Tag(b)
    ensures SameName(a, a)
  {
    hide Lower;
  }

  /** The headers every request must have, and Route. */
  predicate Kept(name: string)
  {
    name == "Via: " || name == "Max-Forwards: " || name == "From: " || name == "To: " || name == "Call-ID: "
    || name == "CSeq: " || name == "Route: " || name == "Content-Length: "
  }

  /** The tags of those. */
  predicate KeptTag(t: int)
  {
    t == 5_001_180_105 || t == 14_001_090_097 || t == 6_001_020_114 || t == 4_001_160_111 || t == 9_000_990_097
    || t == 6_000_990_115 || t == 7_001_140_111 || t == 16_000_990_111
  }

  lemma TagsDiffer()
    ensures Tag("Via: ") == 5_001_180_105 && Tag("Max-Forwards: ") == 14_001_090_097 && Tag("From: ") == 6_001_020_114
    ensures Tag("To: ") == 4_001_160_111 && Tag("Call-ID: ") == 9_000_990_097 && Tag("CSeq: ") == 6_000_990_115
    ensures Tag("Route: ") == 7_001_140_111 && Tag("Content-Length: ") == 16_000_990_111
  {}

  /** Names that are none of those. */
  predicate Other(name: string) { |name| > 1 && !KeptTag(Tag(name)) }

  lemma KeptIsNotOther(name: string, n: string)
    requires Kept(name) && Other(n)
    ensures !SameName(n, name)
  {
    TagsDiffer();
    SameTag(n, name);
    hide Tag, SameName;
  }

  lemma OthersAre()
    ensures Other("Contact: ") && Other("User-Agent: ") && Other("Allow: ") && Other("Supported: ")
    ensures Other("Session-Expires: ") && Other("Min-SE: ") && Other("Content-Type: ")
    ensures Other("Authorization: ") && Other("Proxy-Authorization: ")
  {}

  lemma OtherFields(fs: seq<Field>, name: string)
    requires Kept(name) && forall i :: 0 <= i < |fs| ==> Other(fs[i].name)
    ensures ValuesOf(fs, name) == []
  {
    forall i | 0 <= i < |fs| ensures !SameName(fs[i].name, name) { KeptIsNotOther(name, fs[i].name); }
    ValuesAbsent(fs, name);
  }

  lemma SessionValues(p: Party, name: string)
    requires Kept(name)
    ensures ValuesOf(Session(p), name) == [] && ValuesOf(Agent(), name) == []
  {
    OthersAre();
    hide Other, Kept, Contact;
    assert Contact(p).name == "Contact: " by { NameOfContact(p); }
    OtherFields(Session(p), name);
    OtherFields(Agent(), name);
  }

  lemma NameOfContact(p: Party)
    ensures Contact(p).name == "Contact: "
  {}

  /** The value each block of a request gives to a name. */
  function OpeningValue(p: Party, branch: string, name: string): seq<string>
  {
    if name == "Via: " then [Via(p, branch).value] else if name == "Max-Forwards: " then ["70"] else []
  }

  /** From, To, Call-ID and CSeq. */
  function Four(from_: string, to: string, id: string, cseq: string): seq<Field>
  {
    [Field("From: ", from_), Field("To: ", to), Field("Call-ID: ", id), Field("CSeq: ", cseq)]
  }

  function FourValue(from_: string, to: string, id: string, cseq: string, name: string): seq<string>
  {
    if name == "From: " then [from_] else if name == "To: " then [to]
    else if name == "Call-ID: " then [id] else if name == "CSeq: " then [cseq] else []
  }

  /** Among the names that are kept, the same is equal. */
  lemma KeptNames(a: string, b: string)
    requires Kept(a) && Kept(b)
    ensures SameName(a, b) <==> a == b
  {
    TagsDiffer();
    SameTag(a, b);
    hide Tag, SameName;
  }

  lemma OpeningValues(p: Party, branch: string, name: string)
    requires Kept(name)
    ensures ValuesOf(Opening(p, branch), name) == OpeningValue(p, branch, name)
  {
    assert Kept("Via: ") && Kept("Max-Forwards: ");
    KeptNames("Via: ", name);
    KeptNames("Max-Forwards: ", name);
    hide SameName, Kept;
    var v, m := Via(p, branch), Field("Max-Forwards: ", "70");
    assert Opening(p, branch) == [v] + [m];
    ValuesAppend([v], [m], name);
    ValuesOne(v, name);
    ValuesOne(m, name);
  }

  lemma FourValues(from_: string, to: string, id: string, cseq: string, name: string)
    requires Kept(name)
    ensures ValuesOf(Four(from_, to, id, cseq), name) == FourValue(from_, to, id, cseq, name)
  {
    assert Kept("From: ") && Kept("To: ") && Kept("Call-ID: ") && Kept("CSeq: ");
    KeptNames("From: ", name);
    KeptNames("To: ", name);
    KeptNames("Call-ID: ", name);
    KeptNames("CSeq: ", name);
    hide SameName, Kept;
    var a, b, c, d := Field("From: ", from_), Field("To: ", to), Field("Call-ID: ", id), Field("CSeq: ", cseq);
    assert Four(from_, to, id, cseq) == [a] + ([b] + ([c] + [d]));
    ValuesAppend([a], [b] + ([c] + [d]), name);
    ValuesAppend([b], [c] + [d], name);
    ValuesAppend([c], [d], name);
    ValuesOne(a, name);
    ValuesOne(b, name);
    ValuesOne(c, name);
    ValuesOne(d, name);
  }

  // ---------- requests ----------

  predicate IsRequest(o: Out) { !o.Ok? && !o.OkSdp? }

  function Method(o: Out): string
    requires IsRequest(o)
  {
    match o
    case Invite(_, _, _, _) => "INVITE"
    case ReInvite(_, _, _, _, _, _) => "INVITE"
    case Ack(_, _, _, _, _, _) => "ACK"
    case Cancel(_, _) => "CANCEL"
    case Message(_, _, _, _, _, _) => "MESSAGE"
    case Bye(_, _, _, _, _) => "BYE"
  }

  function UriOf(p: Party, o: Out): string
    requires IsRequest(o)
  {
    if o.Invite? || o.Cancel? then p.target else o.uri
  }

  function ToOf(p: Party, o: Out): string
    requires IsRequest(o)
  {
    if o.Invite? || o.Cancel? then "<" + p.target + ">" else o.to
  }

  function RoutesOf(o: Out): seq<string>
    requires IsRequest(o)
  {
    if o.Invite? || o.Cancel? then [] else o.routes
  }

  function IdentityOf(p: Party, o: Out): seq<Field>
    requires IsRequest(o)
  {
    Four(From(p).value, ToOf(p, o), p.callId, Dec(o.cseq) + (" " + Method(o)))
  }

  /** What a request says under a name, but for Content-Length. */
  function RequestValue(p: Party, o: Out, name: string): seq<string>
    requires IsRequest(o)
  {
    OpeningValue(p, o.branch, name) + (if name == "Route: " then RoutesOf(o) else [])
      + FourValue(From(p).value, ToOf(p, o), p.callId, Dec(o.cseq) + (" " + Method(o)), name)
  }

  /** The lines all requests share, whatever follows them. */
  function Common(p: Party, o: Out): seq<Field>
    requires IsRequest(o)
  {
    Opening(p, o.branch) + Repeated("Route: ", RoutesOf(o)) + IdentityOf(p, o)
  }

  lemma CommonValues(p: Party, o: Out, name: string)
    requires IsRequest(o) && Kept(name)
    ensures ValuesOf(Common(p, o), name) == RequestValue(p, o, name)
  {
    assert Kept("Route: ");
    KeptNames("Route: ", name);
    OpeningValues(p, o.branch, name);
    ValuesRepeated("Route: ", RoutesOf(o), name);
    FourValues(From(p).value, ToOf(p, o), p.callId, Dec(o.cseq) + (" " + Method(o)), name);
    hide From, Opening, Repeated, Four, Kept, Method, ToOf, RoutesOf, OpeningValue, FourValue, ValuesOf, SameName, Dec;
    var a, r, i := Opening(p, o.branch), Repeated("Route: ", RoutesOf(o)), IdentityOf(p, o);
    ValuesAppend(a, r, name);
    ValuesAppend(a + r, i, name);
  }

  /** What follows the shared lines. */
  function Rest(p: Party, o: Out): seq<Field>
    requires IsRequest(o)
  {
    match o
    case Invite(_, _, _, auth) =>
      Session(p) + (if auth.Some? then [Field(auth.value.header + ": ", auth.value.value)] else [])
    case ReInvite(_, _, _, _, _, _) => Session(p)
    case Message(_, _, _, _, _, _) => Agent() + [Field("Content-Type: ", "text/plain;charset=UTF-8")]
    case _ => Agent()
  }

  lemma Regroup(s: seq<Field>, o: seq<Field>, r: seq<Field>, i: seq<Field>, x: seq<Field>)
    ensures s + o + r + i + x == s + ((o + r + i) + x)
    ensures r == [] ==> s + o + i + x == s + o + r + i + x
  {}

  lemma Spelled()
    ensures "INVITE" + " " == "INVITE " && "ACK" + " " == "ACK " && "CANCEL" + " " == "CANCEL "
    ensures "MESSAGE" + " " == "MESSAGE " && "BYE" + " " == "BYE "
    ensures " " + "INVITE" == " INVITE" && " " + "ACK" == " ACK" && " " + "CANCEL" == " CANCEL"
    ensures " " + "MESSAGE" == " MESSAGE" && " " + "BYE" == " BYE"
  {}

  /** The blocks of the builders, and what follows them. */
  function Blocks(p: Party, o: Out): seq<Field>
    requires IsRequest(o)
  {
    [Start(Method(o) + " ", UriOf(p, o))] + Opening(p, o.branch) + Repeated("Route: ", RoutesOf(o))
      + Identity(p, ToOf(p, o), o.cseq, " " + Method(o)) + Rest(p, o)
  }

  lemma BlocksAre(p: Party, o: Out)
    requires IsRequest(o)
    ensures Fields(p, o) == Blocks(p, o)
  {
    Spelled();
    hide Opening, Session, Agent, Start, Identity;
    if o.Invite? || o.Cancel? {
      Regroup([Start(Method(o) + " ", UriOf(p, o))], Opening(p, o.branch), Repeated("Route: ", RoutesOf(o)),
              Identity(p, ToOf(p, o), o.cseq, " " + Method(o)), Rest(p, o));
      InviteBlocks(p, o);
    }
  }

  lemma InviteBlocks(p: Party, o: Out)
    requires o.Invite? || o.Cancel?
    ensures Fields(p, o) == [Start(Method(o) + " ", UriOf(p, o))] + Opening(p, o.branch)
      + Identity(p, ToOf(p, o), o.cseq, " " + Method(o)) + Rest(p, o)
  {
    Spelled();
    hide Opening, Session, Agent, Start, Identity;
  }

  lemma FieldsAre(p: Party, o: Out)
    requires IsRequest(o)
    ensures Fields(p, o) == [Start(Method(o) + " ", UriOf(p, o))] + (Common(p, o) + Rest(p, o))
  {
    BlocksAre(p, o);
    assert IdentityOf(p, o) == Identity(p, ToOf(p, o), o.cseq, " " + Method(o));
    Regroup([Start(Method(o) + " ", UriOf(p, o))], Opening(p, o.branch), Repeated("Route: ", RoutesOf(o)),
            IdentityOf(p, o), Rest(p, o));
    hide IdentityOf, Start, Identity, Opening, Rest, Fields, Repeated;
  }

  lemma AuthValues(auth: Option<Credentials>, name: string)
    requires Kept(name)
    requires auth.Some? ==> auth.value.header == "Authorization" || auth.value.header == "Proxy-Authorization"
    ensures ValuesOf(if auth.Some? then [Field(auth.value.header + ": ", auth.value.value)] else [], name) == []
  {
    OthersAre();
    hide Kept, Other;
    assert "Authorization" + ": " == "Authorization: " && "Proxy-Authorization" + ": " == "Proxy-Authorization: ";
    OtherFields(if auth.Some? then [Field(auth.value.header + ": ", auth.value.value)] else [], name);
  }

  lemma TextValues(name: string)
    requires Kept(name)
    ensures ValuesOf([Field("Content-Type: ", "text/plain;charset=UTF-8")], name) == []
  {
    OthersAre();
    hide Kept, Other;
    OtherFields([Field("Content-Type: ", "text/plain;charset=UTF-8")], name);
  }

  lemma RestValues(p: Party, o: Out, name: string)
    requires IsRequest(o) && Kept(name)
    requires o.Invite? && o.auth.Some? ==> o.auth.value.header == "Authorization" || o.auth.value.header == "Proxy-Authorization"
    ensures ValuesOf(Rest(p, o), name) == []
  {
    SessionValues(p, name);
    hide Session, Agent, Kept, ValuesOf;
    match o {
      case Invite(_, _, _, auth) =>
        AuthValues(auth, name);
        ValuesAppend(Session(p), if auth.Some? then [Field(auth.value.header + ": ", auth.value.value)] else [], name);
      case Message(_, _, _, _, _, _) =>
        TextValues(name);
        ValuesAppend(Agent(), [Field("Content-Type: ", "text/plain;charset=UTF-8")], name);
      case _ =>
    }
  }

  lemma RequestValues(p: Party, o: Out, name: string)
    requires IsRequest(o) && Kept(name)
    requires o.Invite? && o.auth.Some? ==> o.auth.value.header == "Authorization" || o.auth.value.header == "Proxy-Authorization"
    ensures ValuesOf(Common(p, o) + Rest(p, o), name) == RequestValue(p, o, name)
  {
    CommonValues(p, o, name);
    RestValues(p, o, name);
    hide Common, Rest, RequestValue, Kept;
    ValuesAppend(Common(p, o), Rest(p, o), name);
  }

  // ---------- responses ----------

  /** What follows the echoed lines. */
  function AnswerRest(p: Party, o: Out): seq<Field>
    requires !IsRequest(o)
  {
    if o.Ok? then Agent()
    else [Contact(p), Field("User-Agent: ", USER_AGENT), Field("Supported: ", "timer"),
          Field("Session-Expires: ", SESSION_EXPIRES), Field("Content-Type: ", "application/sdp")]
  }

  function Echoed(o: Out): seq<Field>
    requires !IsRequest(o)
  {
    Repeated("Via: ", o.vias) + Four(o.from_, o.to, o.callId, o.cseqHeader)
  }

  function ResponseValue(o: Out, name: string): seq<string>
    requires !IsRequest(o)
  {
    (if name == "Via: " then o.vias else []) + FourValue(o.from_, o.to, o.callId, o.cseqHeader, name)
  }

  lemma AnswersAre(p: Party, o: Out)
    requires !IsRequest(o)
    ensures Fields(p, o) == [Field("SIP/2.0 200 OK", "")] + (Echoed(o) + AnswerRest(p, o))
  {
    hide Contact, Repeated;
  }

  lemma ResponseValues(p: Party, o: Out, name: string)
    requires !IsRequest(o) && Kept(name)
    ensures ValuesOf(Echoed(o) + AnswerRest(p, o), name) == ResponseValue(o, name)
  {
    AnswerRestValues(p, o, name);
    assert Kept("Via: ");
    KeptNames("Via: ", name);
    ValuesRepeated("Via: ", o.vias, name);
    FourValues(o.from_, o.to, o.callId, o.cseqHeader, name);
    hide Kept, SameName, Four, FourValue, Repeated, AnswerRest, ValuesOf;
    ValuesAppend(Repeated("Via: ", o.vias), Four(o.from_, o.to, o.callId, o.cseqHeader), name);
    ValuesAppend(Echoed(o), AnswerRest(p, o), name);
  }

  lemma AnswerRestValues(p: Party, o: Out, name: string)
    requires !IsRequest(o) && Kept(name)
    ensures ValuesOf(AnswerRest(p, o), name) == []
  {
    OthersAre();
    NameOfContact(p);
    hide Other, Kept, Contact;
    OtherFields(AnswerRest(p, o), name);
  }

  // ---------- from fields to octets ----------

  /** A header name as the builders write it: no colon before the final one, and a space. */
  predicate Named(n: string)
  {
    |n| >= 2 && n[|n| - 2] == ':' && n[|n| - 1] == ' ' && forall k :: 0 <= k < |n| - 2 ==> n[k] != ':'
  }

  predicate AllNamed(fs: seq<Field>) { forall i :: 0 <= i < |fs| ==> Named(fs[i].name) }

  lemma FieldReadsBack(f: Field, name: string)
    requires Named(f.name)
    ensures var h := ReadHeader(f.name + f.value);
      h.value == f.value && (SameName(h.name, name) <==> SameName(f.name, name + ": "))
  {
    var bare := f.name[..|f.name| - 2];
    assert f.name == bare + ": ";
    HeaderReadsBack(bare, f.value);
    assert SameName(bare + ": ", name + ": ") <==> SameName(bare, name) by { SameNameColon(bare, name); }
    hide ReadHeader, SameName;
  }

  lemma SameNameColon(a: string, b: string)
    ensures SameName(a + ": ", b + ": ") <==> SameName(a, b)
  {
    hide Lower;
    var x, y := a + ": ", b + ": ";
    if SameName(x, y) {
      forall k | 0 <= k < |a| ensures Lower(a[k]) == Lower(b[k]) { assert x[k] == a[k] && y[k] == b[k]; }
    }
  }

  /** What the reader finds in the lines is what the fields say. */
  lemma {:induction false} UnderIs(fs: seq<Field>, name: string)
    requires AllNamed(fs)
    ensures Under(LinesOf(fs), name) == ValuesOf(fs, name + ": ")
    decreases |fs|
  {
    hide ReadHeader, SameName, Named;
    if fs != [] {
      FieldReadsBack(fs[0], name);
      assert LinesOf(fs)[1..] == LinesOf(fs[1..]);
      UnderIs(fs[1..], name);
    }
  }

  lemma LengthIsLast(fs: seq<Field>, d: string)
    ensures LinesOf(fs) + ["Content-Length: " + d] == LinesOf(fs + [Field("Content-Length: ", d)])
  {}

  /** The field that follows all others. */
  function LengthField(p: Party, o: Out): Field { Field("Content-Length: ", Dec(|Body(p, o)|)) }

  /** Every message is read back line by line. */
  lemma LinesAreRead(p: Party, o: Out)
    requires CleanParty(p) && CleanOut(o)
    ensures ReadMessage(Wire(p, o)) == Some(Read(LinesOf(Fields(p, o) + [LengthField(p, o)]), Body(p, o)))
  {
    CleanFields(p, o);
    SafeLines(Fields(p, o));
    LengthIsLast(Fields(p, o), Dec(|Body(p, o)|));
    CleanLengthLine(|Body(p, o)|);
    var d := Dec(|Body(p, o)|);
    var ls := LinesOf(Fields(p, o)) + ["Content-Length: " + d];
    hide Fields, Body, Lines, ReadMessage, Dec;
    forall i | 0 <= i < |ls| ensures ls[i] != "" && Clean(ls[i]) {
      if i < |ls| - 1 { assert PlainLine(LinesOf(Fields(p, o))[i]); }
    }
    LinesReadBack(ls, Body(p, o));
  }

  lemma NamesAreNamed()
    ensures Named("Via: ") && Named("Max-Forwards: ") && Named("From: ") && Named("To: ") && Named("Call-ID: ")
    ensures Named("CSeq: ") && Named("Route: ") && Named("Content-Length: ") && Named("Contact: ") && Named("User-Agent: ")
    ensures Named("Allow: ") && Named("Supported: ") && Named("Session-Expires: ") && Named("Min-SE: ")
    ensures Named("Content-Type: ") && Named("Authorization" + ": ") && Named("Proxy-Authorization" + ": ")
  {}

  lemma NamedAppend(a: seq<Field>, b: seq<Field>)
    requires AllNamed(a) && AllNamed(b)
    ensures AllNamed(a + b)
  {
    hide Named;
  }

  lemma NamedRepeated(n: string, values: seq<string>)
    requires Named(n)
    ensures AllNamed(Repeated(n, values))
  {
    hide Named;
  }

  lemma NamedSession(p: Party)
    ensures AllNamed(Session(p)) && AllNamed(Agent())
  {
    NamesAreNamed();
    NameOfContact(p);
    hide Named, Contact;
  }

  lemma NamedFour(from_: string, to: string, id: string, cseq: string)
    ensures AllNamed(Four(from_, to, id, cseq))
  {
    NamesAreNamed();
    hide Named;
  }

  lemma NamedRest(p: Party, o: Out)
    requires IsRequest(o) && CleanOut(o)
    ensures AllNamed(Rest(p, o))
  {
    NamesAreNamed();
    NamedSession(p);
    hide Named, Session, Agent, Clean;
    match o {
      case Invite(_, _, _, auth) =>
        NamedAppend(Session(p), if auth.Some? then [Field(auth.value.header + ": ", auth.value.value)] else []);
      case Message(_, _, _, _, _, _) => NamedAppend(Agent(), [Field("Content-Type: ", "text/plain;charset=UTF-8")]);
      case _ =>
    }
  }

  lemma NamedRequest(p: Party, o: Out)
    requires IsRequest(o) && CleanOut(o)
    ensures AllNamed(Common(p, o) + Rest(p, o))
  {
    NamesAreNamed();
    NamedRest(p, o);
    NamedRepeated("Route: ", RoutesOf(o));
    NamedFour(From(p).value, ToOf(p, o), p.callId, Dec(o.cseq) + (" " + Method(o)));
    assert AllNamed(Opening(p, o.branch));
    var a, r, i := Opening(p, o.branch), Repeated("Route: ", RoutesOf(o)), IdentityOf(p, o);
    hide AllNamed, Opening, Repeated, Four, Rest, Named, CleanOut;
    NamedAppend(a, r);
    NamedAppend(a + r, i);
    NamedAppend(a + r + i, Rest(p, o));
  }

  /** The first line, and what the reader finds under a name in the lines after it. */
  lemma TailRead(first: Field, fs: seq<Field>, d: string, name: string)
    requires AllNamed(fs) && Kept(name + ": ")
    ensures var ls := LinesOf([first] + fs + [Field("Content-Length: ", d)]);
      && ls[0] == first.name + first.value
      && Under(ls[1..], name) == ValuesOf(fs, name + ": ") + (if name + ": " == "Content-Length: " then [d] else [])
  {
    var last := [Field("Content-Length: ", d)];
    NamesAreNamed();
    assert Kept("Content-Length: ");
    KeptNames("Content-Length: ", name + ": ");
    hide Kept, Named, SameName, ReadHeader;
    assert LinesOf([first] + fs + last)[1..] == LinesOf(fs + last);
    NamedAppend(fs, last);
    UnderIs(fs + last, name);
    ValuesAppend(fs, last, name + ": ");
    ValuesOne(last[0], name + ": ");
  }

  predicate FoundUnder(read: Option<Read>, name: string, values: seq<string>)
  {
    read.Some? && read.value.lines != [] && Under(read.value.lines[1..], name) == values
  }

  predicate FirstLine(read: Option<Read>, line: string)
  {
    read.Some? && read.value.lines != [] && read.value.lines[0] == line
  }

  lemma RequestRead(p: Party, o: Out, name: string)
    requires IsRequest(o) && CleanParty(p) && CleanOut(o) && Kept(name + ": ")
    ensures var r := ReadMessage(Wire(p, o));
      && r.Some? && r.value.body == Body(p, o) && FirstLine(r, Method(o) + " " + UriOf(p, o) + " SIP/2.0")
      && FoundUnder(r, name, RequestValue(p, o, name + ": ")
                             + (if name + ": " == "Content-Length: " then [Dec(|Body(p, o)|)] else []))
  {
    LinesAreRead(p, o);
    FieldsAre(p, o);
    NamedRequest(p, o);
    RequestValues(p, o, name + ": ");
    var fs := Common(p, o) + Rest(p, o);
    var first := Start(Method(o) + " ", UriOf(p, o));
    TailRead(first, fs, Dec(|Body(p, o)|), name);
    assert first.name + first.value == Method(o) + " " + UriOf(p, o) + " SIP/2.0";
    hide *;
  }

  lemma NamedResponse(p: Party, o: Out)
    requires !IsRequest(o)
    ensures AllNamed(Echoed(o) + AnswerRest(p, o))
  {
    NamesAreNamed();
    NameOfContact(p);
    NamedRepeated("Via: ", o.vias);
    NamedFour(o.from_, o.to, o.callId, o.cseqHeader);
    hide Named, Contact, Repeated, Four;
    assert AllNamed(AnswerRest(p, o));
    NamedAppend(Repeated("Via: ", o.vias), Four(o.from_, o.to, o.callId, o.cseqHeader));
    hide AllNamed, AnswerRest;
    NamedAppend(Echoed(o), AnswerRest(p, o));
  }

  lemma ResponseRead(p: Party, o: Out, name: string)
    requires !IsRequest(o) && CleanParty(p) && CleanOut(o) && Kept(name + ": ")
    ensures var r := ReadMessage(Wire(p, o));
      && r.Some? && r.value.body == Body(p, o) && FirstLine(r, "SIP/2.0 200 OK")
      && FoundUnder(r, name, ResponseValue(o, name + ": ")
                             + (if name + ": " == "Content-Length: " then [Dec(|Body(p, o)|)] else []))
  {
    LinesAreRead(p, o);
    AnswersAre(p, o);
    NamedResponse(p, o);
    ResponseValues(p, o, name + ": ");
    var fs := Echoed(o) + AnswerRest(p, o);
    var first := Field("SIP/2.0 200 OK", "");
    TailRead(first, fs, Dec(|Body(p, o)|), name);
    assert first.name + first.value == "SIP/2.0 200 OK";
    hide *;
  }

  // ---------- the theorems ----------

  lemma Suffixed()
    ensures "Via" + ": " == "Via: " && "Max-Forwards" + ": " == "Max-Forwards: " && "From" + ": " == "From: "
    ensures "To" + ": " == "To: " && "Call-ID" + ": " == "Call-ID: " && "CSeq" + ": " == "CSeq: "
    ensures "Route" + ": " == "Route: " && "Content-Length" + ": " == "Content-Length: "
  {}

  lemma RequestValuesAre(p: Party, o: Out)
    requires IsRequest(o)
    ensures RequestValue(p, o, "Via: ") == ["SIP/2.0/TCP " + p.host + ":" + Dec(p.port) + ";branch=" + o.branch + ";rport"]
    ensures RequestValue(p, o, "Max-Forwards: ") == ["70"]
    ensures RequestValue(p, o, "From: ") == ["<sip:" + p.username + "@" + p.host + ">;tag=" + p.fromTag]
    ensures RequestValue(p, o, "To: ") == [ToOf(p, o)] && RequestValue(p, o, "Call-ID: ") == [p.callId]
    ensures RequestValue(p, o, "CSeq: ") == [Dec(o.cseq) + (" " + Method(o))]
    ensures RequestValue(p, o, "Route: ") == RoutesOf(o) && RequestValue(p, o, "Content-Length: ") == []
  {
    TagsDiffer();
    hide Tag, Dec, Method, ToOf, RoutesOf;
  }

  /** MAIN RESULT: an independent reader of the octets of any request of ours, whichever builder wrote
      it, finds the request line and the body, and after the request line exactly one Via with its
      branch, one Max-Forwards, From, To, Call-ID, CSeq and Content-Length, the CSeq with its own
      number and the method of the request line, the Content-Length with the size of the body, and
      exactly its routes as Route lines, in order. */
  lemma RequestsCarryTheirHeaders(p: Party, o: Out)
    requires IsRequest(o) && CleanParty(p) && CleanOut(o)
    ensures var r := ReadMessage(Wire(p, o));
      && r.Some? && r.value.body == Body(p, o) && FirstLine(r, Method(o) + " " + UriOf(p, o) + " SIP/2.0")
      && FoundUnder(r, "Via", ["SIP/2.0/TCP " + p.host + ":" + Dec(p.port) + ";branch=" + o.branch + ";rport"])
      && FoundUnder(r, "Max-Forwards", ["70"])
      && FoundUnder(r, "From", ["<sip:" + p.username + "@" + p.host + ">;tag=" + p.fromTag])
      && FoundUnder(r, "To", [ToOf(p, o)]) && FoundUnder(r, "Call-ID", [p.callId])
      && FoundUnder(r, "CSeq", [Dec(o.cseq) + (" " + Method(o))])
      && FoundUnder(r, "Route", RoutesOf(o)) && FoundUnder(r, "Content-Length", [Dec(|Body(p, o)|)])
  {
    Suffixed();
    RequestValuesAre(p, o);
    TagsDiffer();
    hide RequestValue, CleanParty, CleanOut, Body, Dec, Method, UriOf, ToOf, RoutesOf, FoundUnder, FirstLine, Tag;
    RequestRead(p, o, "Via");
    RequestRead(p, o, "Max-Forwards");
    RequestRead(p, o, "From");
    RequestRead(p, o, "To");
    RequestRead(p, o, "Call-ID");
    RequestRead(p, o, "CSeq");
    RequestRead(p, o, "Route");
    RequestRead(p, o, "Content-Length");
  }

  lemma ResponseValuesAre(o: Out)
    requires !IsRequest(o)
    ensures ResponseValue(o, "Via: ") == o.vias && ResponseValue(o, "From: ") == [o.from_]
    ensures ResponseValue(o, "To: ") == [o.to] && ResponseValue(o, "Call-ID: ") == [o.callId]
    ensures ResponseValue(o, "CSeq: ") == [o.cseqHeader] && ResponseValue(o, "Content-Length: ") == []
  {
    TagsDiffer();
    hide Tag;
  }

  /** MAIN RESULT: an independent reader of the octets of any response of ours finds all Via values of
      the request in their order, its From, To, Call-ID and CSeq, and the size of the body. */
  lemma ResponsesEchoTheRequest(p: Party, o: Out)
    requires !IsRequest(o) && CleanParty(p) && CleanOut(o)
    ensures var r := ReadMessage(Wire(p, o));
      && r.Some? && r.value.body == Body(p, o) && FirstLine(r, "SIP/2.0 200 OK")
      && FoundUnder(r, "Via", o.vias) && FoundUnder(r, "From", [o.from_]) && FoundUnder(r, "To", [o.to])
      && FoundUnder(r, "Call-ID", [o.callId]) && FoundUnder(r, "CSeq", [o.cseqHeader])
      && FoundUnder(r, "Content-Length", [Dec(|Body(p, o)|)])
  {
    Suffixed();
    ResponseValuesAre(o);
    TagsDiffer();
    hide ResponseValue, CleanParty, CleanOut, Body, Dec, FoundUnder, FirstLine, Tag;
    ResponseRead(p, o, "Via");
    ResponseRead(p, o, "From");
    ResponseRead(p, o, "To");
    ResponseRead(p, o, "Call-ID");
    ResponseRead(p, o, "CSeq");
    ResponseRead(p, o, "Content-Length");
  }
}
