/** What an independent reader finds in our messages beside the headers that every request has: who to
    contact, the session timer, what we allow and what the body is. */
module SipSessions {
  import opened Basics
  import opened SipFraming
  import opened SipMessages
  import opened SipRoundTrip
  import opened SipReader
  import opened SipHeaders

  /** No field has a name with this tag, and so none has the name. */
  predicate NoneTagged(fs: seq<Field>, t: int) { forall i :: 0 <= i < |fs| ==> |fs[i].name| > 1 && Tag(fs[i].name) != t }

  lemma {:induction false} NoneHasTag(fs: seq<Field>, name: string)
    requires |name| > 1 && NoneTagged(fs, Tag(name))
    ensures ValuesOf(fs, name) == []
    decreases |fs|
  {
    hide Tag, SameName;
    if fs != [] {
      SameTag(fs[0].name, name);
      NoneHasTag(fs[1..], name);
    }
  }

  /** Field k has the name, and no other field has its tag. */
  predicate OnlyAt(fs: seq<Field>, k: nat, name: string)
  {
    && |name| > 1 && k < |fs| && fs[k].name == name
    && forall i :: 0 <= i < |fs| && i != k ==> |fs[i].name| > 1 && Tag(fs[i].name) != Tag(name)
  }

  lemma OnlyThere(fs: seq<Field>, k: nat, name: string)
    requires OnlyAt(fs, k, name)
    ensures ValuesOf(fs, name) == [fs[k].value]
  {
    hide Tag, SameName;
    var a, b := fs[..k], fs[k + 1..];
    assert fs == a + [fs[k]] + b;
    NoneHasTag(a, name);
    NoneHasTag(b, name);
    SameTag(name, name);
    assert [fs[k]][1..] == [];
    ValuesAppend(a, [fs[k]], name);
    ValuesAppend(a + [fs[k]], b, name);
  }

  // ---------- the tags of all names ----------

  predicate SessionName(n: string)
  {
    n == "Contact" || n == "User-Agent" || n == "Allow" || n == "Supported" || n == "Session-Expires" || n == "Min-SE"
    || n == "Content-Type"
  }

  lemma SessionTags()
    ensures Tag("Contact: ") == 9_000_990_111 && Tag("User-Agent: ") == 12_001_170_115 && Tag("Allow: ") == 7_000_970_108
    ensures Tag("Supported: ") == 11_001_150_117 && Tag("Session-Expires: ") == 17_001_150_101 && Tag("Min-SE: ") == 8_001_090_105
    ensures Tag("Content-Type: ") == 14_000_990_111
    ensures Tag("Authorization: ") == 15_000_970_117 && Tag("Proxy-Authorization: ") == 21_001_120_114
  {}

  /** The names that come with them in the same message. */
  lemma CommonTags(p: Party, o: Out, name: string)
    requires IsRequest(o) && SessionName(name)
    ensures NoneTagged(Common(p, o), Tag(name + ": ")) && NoneTagged([Field("Content-Length: ", "")], Tag(name + ": "))
  {
    var t := Tag(name + ": ");
    KeptTagged(name);
    hide Tag, Dec, From, Method, ToOf, RoutesOf, SessionName;
    assert NoneTagged(Opening(p, o.branch), t);
    assert NoneTagged(Repeated("Route: ", RoutesOf(o)), t);
    assert NoneTagged(IdentityOf(p, o), t);
    hide Opening, Repeated, IdentityOf;
  }

  lemma KeptTagged(name: string)
    requires SessionName(name)
    ensures var t := Tag(name + ": ");
      && Tag("Via: ") != t && Tag("Max-Forwards: ") != t && Tag("From: ") != t && Tag("To: ") != t && Tag("Call-ID: ") != t
      && Tag("CSeq: ") != t && Tag("Route: ") != t && Tag("Content-Length: ") != t
  {
    SessionTags();
    TagsDiffer();
    Spelt();
    hide Tag;
  }

  lemma Spelt()
    ensures "Contact" + ": " == "Contact: " && "User-Agent" + ": " == "User-Agent: " && "Allow" + ": " == "Allow: "
    ensures "Supported" + ": " == "Supported: " && "Session-Expires" + ": " == "Session-Expires: "
    ensures "Min-SE" + ": " == "Min-SE: " && "Content-Type" + ": " == "Content-Type: "
  {}

  // ---------- reading ----------

  lemma ReadUnder(first: Field, fs: seq<Field>, d: string, name: string)
    requires AllNamed(fs) && SessionName(name)
    ensures var ls := LinesOf([first] + fs + [Field("Content-Length: ", d)]);
      ls != [] && Under(ls[1..], name) == ValuesOf(fs, name + ": ")
  {
    var last := [Field("Content-Length: ", d)];
    NamesAreNamed();
    KeptTagged(name);
    assert NoneTagged(last, Tag(name + ": "));
    hide Named, SameName, ReadHeader, Tag;
    assert LinesOf([first] + fs + last)[1..] == LinesOf(fs + last);
    NoneHasTag(last, name + ": ");
    hide NoneTagged;
    NamedAppend(fs, last);
    UnderIs(fs + last, name);
    ValuesAppend(fs, last, name + ": ");
  }

  lemma RequestUnder(p: Party, o: Out, name: string)
    requires IsRequest(o) && CleanParty(p) && CleanOut(o) && SessionName(name)
    ensures FoundUnder(ReadMessage(Wire(p, o)), name, ValuesOf(Rest(p, o), name + ": "))
  {
    LinesAreRead(p, o);
    FieldsAre(p, o);
    NamedRequest(p, o);
    CommonTags(p, o, name);
    var fs := Common(p, o) + Rest(p, o);
    var first := Start(Method(o) + " ", UriOf(p, o));
    ReadUnder(first, fs, Dec(|Body(p, o)|), name);
    hide Tag, Common, Rest, Fields, Wire, Body, Dec, ReadMessage, CleanParty, CleanOut, Method, UriOf, Start, Under, SessionName;
    NoneHasTag(Common(p, o), name + ": ");
    ValuesAppend(Common(p, o), Rest(p, o), name + ": ");
    hide ValuesOf, NoneTagged, AllNamed;
  }

  lemma ResponseUnder(p: Party, o: Out, name: string)
    requires o.OkSdp? && CleanParty(p) && CleanOut(o) && SessionName(name)
    ensures FoundUnder(ReadMessage(Wire(p, o)), name, ValuesOf(AnswerRest(p, o), name + ": "))
  {
    LinesAreRead(p, o);
    AnswersAre(p, o);
    NamedResponse(p, o);
    EchoTags(p, o, name);
    var fs := Echoed(o) + AnswerRest(p, o);
    ReadUnder(Field("SIP/2.0 200 OK", ""), fs, Dec(|Body(p, o)|), name);
    hide Tag, Echoed, AnswerRest, Fields, Wire, Body, Dec, ReadMessage, CleanParty, CleanOut, Under, SessionName;
    NoneHasTag(Echoed(o), name + ": ");
    ValuesAppend(Echoed(o), AnswerRest(p, o), name + ": ");
    hide ValuesOf, NoneTagged, AllNamed;
  }

  lemma EchoTags(p: Party, o: Out, name: string)
    requires o.OkSdp? && SessionName(name)
    ensures NoneTagged(Echoed(o), Tag(name + ": "))
  {
    KeptTagged(name);
    var t := Tag(name + ": ");
    hide Tag;
    assert NoneTagged(Repeated("Via: ", o.vias), t);
    assert NoneTagged(Four(o.from_, o.to, o.callId, o.cseqHeader), t);
    hide Repeated, Four;
  }

  /** Our own address, with the transport and the instance. */
  function ContactOf(p: Party): string
  {
    "<sip:" + p.username + "@" + p.host + ":" + Dec(p.port) + ";transport=tcp>;+sip.instance=" + p.instance
  }

  lemma SessionOnly(p: Party)
    ensures OnlyAt(Session(p), 0, "Contact: ") && OnlyAt(Session(p), 1, "User-Agent: ") && OnlyAt(Session(p), 2, "Allow: ")
    ensures OnlyAt(Session(p), 3, "Supported: ") && OnlyAt(Session(p), 4, "Session-Expires: ") && OnlyAt(Session(p), 5, "Min-SE: ")
    ensures OnlyAt(Session(p), 6, "Content-Type: ")
    ensures Session(p)[0].value == ContactOf(p) && |Session(p)| == 7
  {
    NameOfContact(p);
    assert Contact(p).value == ContactOf(p);
    hide Contact, ContactOf;
    SessionApart(Session(p));
  }

  lemma SessionApart(fs: seq<Field>)
    requires |fs| == 7 && fs[0].name == "Contact: " && fs[1].name == "User-Agent: " && fs[2].name == "Allow: "
    requires fs[3].name == "Supported: " && fs[4].name == "Session-Expires: " && fs[5].name == "Min-SE: " && fs[6].name == "Content-Type: "
    ensures forall k :: 0 <= k < 7 ==> OnlyAt(fs, k, fs[k].name)
  {
    SessionTags();
    hide Tag;
  }

  lemma SessionValues(p: Party)
    ensures ValuesOf(Session(p), "Contact: ") == [ContactOf(p)] && ValuesOf(Session(p), "User-Agent: ") == [USER_AGENT]
    ensures ValuesOf(Session(p), "Allow: ") == [ALLOWED] && ValuesOf(Session(p), "Supported: ") == ["timer"]
    ensures ValuesOf(Session(p), "Session-Expires: ") == ["1800;refresher=uas"] && ValuesOf(Session(p), "Min-SE: ") == ["90"]
    ensures ValuesOf(Session(p), "Content-Type: ") == ["application/sdp"]
  {
    SessionOnly(p);
    hide OnlyAt, ContactOf, ValuesOf;
    OnlyThere(Session(p), 0, "Contact: ");
    OnlyThere(Session(p), 1, "User-Agent: ");
    OnlyThere(Session(p), 2, "Allow: ");
    OnlyThere(Session(p), 3, "Supported: ");
    OnlyThere(Session(p), 4, "Session-Expires: ");
    OnlyThere(Session(p), 5, "Min-SE: ");
    OnlyThere(Session(p), 6, "Content-Type: ");
  }

  lemma RestValues(p: Party, o: Out, name: string)
    requires (o.Invite? || o.ReInvite?) && SessionName(name) && CleanOut(o)
    ensures ValuesOf(Rest(p, o), name + ": ") == ValuesOf(Session(p), name + ": ")
  {
    if o.Invite? && o.auth.Some? {
      var last := [Field(o.auth.value.header + ": ", o.auth.value.value)];
      SessionTags();
      Spelt();
      assert "Authorization" + ": " == "Authorization: " && "Proxy-Authorization" + ": " == "Proxy-Authorization: ";
      hide Tag, Session;
      assert NoneTagged(last, Tag(name + ": "));
      NoneHasTag(last, name + ": ");
      ValuesAppend(Session(p), last, name + ": ");
    } else if o.Invite? {
      assert Session(p) + [] == Session(p);
    }
  }

  /** MAIN RESULT: an independent reader of the octets of any INVITE or re-INVITE finds exactly one
      Contact, which is our address, and exactly one of each of the headers of the session timer
      (RFC 4028) and of what we allow, and that the body is a session description. */
  lemma InvitesShowTheirSession(p: Party, o: Out)
    requires (o.Invite? || o.ReInvite?) && CleanParty(p) && CleanOut(o)
    ensures var r := ReadMessage(Wire(p, o));
      && FoundUnder(r, "Contact", [ContactOf(p)]) && FoundUnder(r, "User-Agent", [USER_AGENT])
      && FoundUnder(r, "Allow", ["INVITE, ACK, CANCEL, BYE, MESSAGE"]) && FoundUnder(r, "Supported", ["timer"])
      && FoundUnder(r, "Session-Expires", ["1800;refresher=uas"]) && FoundUnder(r, "Min-SE", ["90"])
      && FoundUnder(r, "Content-Type", ["application/sdp"])
  {
    Spelt();
    SessionValues(p);
    hide FoundUnder, Rest, Session, ValuesOf, ContactOf, CleanParty, Wire, ReadMessage, CleanOut;
    InviteUnder(p, o, "Contact");
    InviteUnder(p, o, "User-Agent");
    InviteUnder(p, o, "Allow");
    InviteUnder(p, o, "Supported");
    InviteUnder(p, o, "Session-Expires");
    InviteUnder(p, o, "Min-SE");
    InviteUnder(p, o, "Content-Type");
  }

  lemma InviteUnder(p: Party, o: Out, name: string)
    requires (o.Invite? || o.ReInvite?) && CleanParty(p) && CleanOut(o) && SessionName(name)
    ensures FoundUnder(ReadMessage(Wire(p, o)), name, ValuesOf(Session(p), name + ": "))
  {
    RequestUnder(p, o, name);
    RestValues(p, o, name);
    hide FoundUnder, Rest, Session, ValuesOf, CleanParty, Wire, ReadMessage, CleanOut;
  }

  lemma AnswerOnly(p: Party, o: Out)
    requires o.OkSdp?
    ensures OnlyAt(AnswerRest(p, o), 0, "Contact: ") && OnlyAt(AnswerRest(p, o), 2, "Supported: ")
    ensures OnlyAt(AnswerRest(p, o), 3, "Session-Expires: ") && OnlyAt(AnswerRest(p, o), 4, "Content-Type: ")
    ensures AnswerRest(p, o)[0].value == ContactOf(p) && |AnswerRest(p, o)| == 5
  {
    SessionTags();
    NameOfContact(p);
    assert Contact(p).value == ContactOf(p);
    hide Tag, Contact, ContactOf;
  }

  /** So does one that reads an answer to a session refresh; and that of a MESSAGE finds plain text. */
  lemma AnswersShowTheirSession(p: Party, o: Out)
    requires o.OkSdp? && CleanParty(p) && CleanOut(o)
    ensures var r := ReadMessage(Wire(p, o));
      && FoundUnder(r, "Contact", [ContactOf(p)]) && FoundUnder(r, "Supported", ["timer"])
      && FoundUnder(r, "Session-Expires", ["1800;refresher=uas"]) && FoundUnder(r, "Content-Type", ["application/sdp"])
  {
    Spelt();
    AnswerOnly(p, o);
    hide FoundUnder, OnlyAt, ValuesOf, ContactOf, CleanParty, Wire, ReadMessage, CleanOut;
    OnlyThere(AnswerRest(p, o), 0, "Contact: ");
    OnlyThere(AnswerRest(p, o), 2, "Supported: ");
    OnlyThere(AnswerRest(p, o), 3, "Session-Expires: ");
    OnlyThere(AnswerRest(p, o), 4, "Content-Type: ");
    ResponseUnder(p, o, "Contact");
    ResponseUnder(p, o, "Supported");
    ResponseUnder(p, o, "Session-Expires");
    ResponseUnder(p, o, "Content-Type");
  }

  lemma MessageOnly(p: Party, o: Out)
    requires o.Message?
    ensures OnlyAt(Rest(p, o), 1, "Content-Type: ") && |Rest(p, o)| == 2 && Rest(p, o)[1].value == "text/plain;charset=UTF-8"
  {
    SessionTags();
    hide Tag;
  }

  lemma MessagesAreText(p: Party, o: Out)
    requires o.Message? && CleanParty(p) && CleanOut(o)
    ensures FoundUnder(ReadMessage(Wire(p, o)), "Content-Type", ["text/plain;charset=UTF-8"])
  {
    Spelt();
    MessageOnly(p, o);
    hide FoundUnder, OnlyAt, ValuesOf, CleanParty, Wire, ReadMessage, CleanOut, Rest;
    OnlyThere(Rest(p, o), 1, "Content-Type: ");
    RequestUnder(p, o, "Content-Type");
  }
}
