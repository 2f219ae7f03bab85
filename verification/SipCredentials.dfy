/** The challenged call, end to end: from the challenge of the server to the octets of the second INVITE,
    read and checked by that server. */
module SipCredentials {
  import opened Basics
  import opened SipMessages
  import opened SipRoundTrip
  import opened SipReader
  import opened SipHeaders
  import SipDialog
  import SipTranscript
  import SipAnswers
  import Digest
  import DigestServer

  // ---------- the credentials in the octets ----------

  /** No field has a name of this length. */
  predicate NoneAsLong(fs: seq<Field>, n: nat) { forall i :: 0 <= i < |fs| ==> |fs[i].name| != n }

  lemma {:induction false} NoneHasThatName(fs: seq<Field>, name: string)
    requires NoneAsLong(fs, |name|)
    ensures ValuesOf(fs, name) == []
    decreases |fs|
  {
    if fs != [] { NoneHasThatName(fs[1..], name); }
  }

  lemma NoneAppend(a: seq<Field>, b: seq<Field>, n: nat)
    requires NoneAsLong(a, n) && NoneAsLong(b, n)
    ensures NoneAsLong(a + b, n)
  {}

  /** The lengths of the names of the two credential headers. */
  predicate Long(n: nat) { n == 15 || n == 21 }

  lemma CommonIsShort(p: Party, o: Out, n: nat)
    requires o.Invite? && Long(n)
    ensures NoneAsLong(Common(p, o), n) && NoneAsLong(Session(p), n)
  {
    NameOfContact(p);
    hide Dec, Contact, From, Method, ToOf;
    assert NoneAsLong(Opening(p, o.branch), n);
    assert NoneAsLong(IdentityOf(p, o), n);
    assert RoutesOf(o) == [] && Repeated("Route: ", []) == [];
  }

  lemma OwnValue(name: string, v: string)
    ensures ValuesOf([Field(name, v)], name) == [v]
  {
    assert [Field(name, v)][1..] == [];
  }

  lemma CredentialValues(p: Party, o: Out)
    requires o.Invite? && o.auth.Some? && Long(|o.auth.value.header + ": "|)
    ensures ValuesOf(Common(p, o) + Rest(p, o), o.auth.value.header + ": ") == [o.auth.value.value]
  {
    var name := o.auth.value.header + ": ";
    var last := [Field(name, o.auth.value.value)];
    CommonIsShort(p, o, |name|);
    assert Rest(p, o) == Session(p) + last;
    hide Common, Rest, Session, Long;
    NoneHasThatName(Common(p, o), name);
    NoneHasThatName(Session(p), name);
    OwnValue(name, o.auth.value.value);
    ValuesAppend(Session(p), last, name);
    ValuesAppend(Common(p, o), Rest(p, o), name);
    hide ValuesOf;
  }

  /** An independent reader of the octets of an INVITE with credentials finds them, once, in the header
      they are for. */
  lemma OctetsShowTheCredentials(p: Party, o: Out)
    requires o.Invite? && o.auth.Some? && CleanParty(p) && CleanOut(o)
    ensures FoundUnder(ReadMessage(Wire(p, o)), o.auth.value.header, [o.auth.value.value])
  {
    var name := o.auth.value.header;
    LongNames(name);
    LinesAreRead(p, o);
    FieldsAre(p, o);
    NamedRequest(p, o);
    CredentialValues(p, o);
    var fs := Common(p, o) + Rest(p, o);
    var first := Start(Method(o) + " ", UriOf(p, o));
    LengthIsShort(fs, Dec(|Body(p, o)|), name);
    hide Common, Rest, Wire, ReadMessage, Fields, Body, Dec, Start, Method, UriOf, CleanOut, CleanParty, ValuesOf, Under, AllNamed;
    SkipFirst(first, fs, Field("Content-Length: ", Dec(|Body(p, o)|)));
  }

  lemma LongNames(name: string)
    requires name == "Authorization" || name == "Proxy-Authorization"
    ensures Long(|name + ": "|)
  {}

  lemma LengthIsShort(fs: seq<Field>, d: string, name: string)
    requires AllNamed(fs) && Long(|name + ": "|)
    ensures var last := Field("Content-Length: ", d);
      Under(LinesOf(fs + [last]), name) == ValuesOf(fs, name + ": ")
  {
    var last := [Field("Content-Length: ", d)];
    NamesAreNamed();
    assert |"Content-Length: "| == 16;
    assert NoneAsLong(last, |name + ": "|);
    NoneHasThatName(last, name + ": ");
    hide Named, ValuesOf, Under;
    NamedAppend(fs, last);
    UnderIs(fs + last, name);
    ValuesAppend(fs, last, name + ": ");
  }

  lemma SkipFirst(first: Field, fs: seq<Field>, last: Field)
    ensures var ls := LinesOf([first] + fs + [last]); ls != [] && ls[1..] == LinesOf(fs + [last])
  {
    assert ([first] + fs + [last])[1..] == fs + [last];
  }

  // ---------- the whole exchange ----------

  /** What the handler makes of the challenge in a message, for the INVITE of this party; None for the
      ValueErrors of the Digest code. */
  function AnswerTo(md5: string -> string, m: SipDialog.Msg, p: Party, password: string, cnonce: string): Option<string>
    requires m.Response?
  {
    var text := SipDialog.Challenge(m);
    if text.None? then None
    else
      var c := Digest.ParseChallenge(text.value);
      if c.None? || !Digest.Answerable(c.value) then None
      else Some(AnswerText(md5, c.value, p, password, cnonce))
  }

  function AccountOf(p: Party, password: string, cnonce: string): Digest.Account
  {
    Digest.Account(p.username, password, "INVITE", p.target, cnonce, 1)
  }

  function AnswerText(md5: string -> string, c: Digest.Challenge, p: Party, password: string, cnonce: string): string
  {
    "Digest " + Digest.CommaJoin(Digest.Parts(md5, c, AccountOf(p, password, cnonce)))
  }

  /** No value that the answer quotes holds a quote. */
  predicate Quotable(md5: string -> string, c: Digest.Challenge, a: Digest.Account)
  {
    Digest.QuoteFreeChallenge(c) && Digest.QuoteFreeAccount(a) && Digest.QuoteFree(Digest.ResponseOf(md5, c, a))
  }

  predicate Accepted(md5: string -> string, c: Digest.Challenge, p: Party, o: Out, header: string, password: string)
  {
    var r := ReadMessage(Wire(p, o));
    && r.Some? && r.value.lines != []
    && var vs := Under(r.value.lines[1..], header);
      |vs| == 1 && DigestServer.Accepts(md5, c, vs[0], password, "INVITE")
  }

  /** Two acts were added from c to d, and the second is an INVITE that the server accepts. */
  predicate Satisfied(md5: string -> string, ch: Digest.Challenge, c: SipDialog.Client, m: SipDialog.Msg, d: SipDialog.Client,
                      password: string)
    requires m.Response? && c.call.Some?
  {
    var n := |c.trace|;
    && |d.trace| == n + 2 && d.trace[n + 1].Sent? && d.trace[n + 1].who == c.call.value.party && d.trace[n + 1].what.Invite?
    && Accepted(md5, ch, c.call.value.party, d.trace[n + 1].what,
                if m.proxyAuth.Some? then "Proxy-Authorization" else "Authorization", password)
  }

  /** MAIN RESULT: a call that is challenged for the first time, with a challenge that can be answered,
      writes an INVITE whose octets satisfy the server: it reads them, finds one header of credentials,
      under Proxy-Authorization exactly if it had sent Proxy-Authenticate, and accepts it for its own
      challenge, the password and the method INVITE. */
  lemma ServerAcceptsTheInvite(es: seq<SipDialog.Event>, c: SipDialog.Client, m: SipDialog.Msg, md5: string -> string,
                               ch: Digest.Challenge, password: string, cnonce: string, token: string)
    requires SipDialog.Reached(es, c) && c.call.Some? && c.call.value.state == SipDialog.Inviting
    requires m.Response? && (m.code == 401 || m.code == 407) && SipAnswers.Addressed(c, m)
    requires SipDialog.Challenge(m).Some? && Digest.ParseChallenge(SipDialog.Challenge(m).value) == Some(ch) && Digest.Answerable(ch)
    requires Quotable(md5, ch, AccountOf(c.call.value.party, password, cnonce))
    requires CleanParty(c.call.value.party) && Clean(token) && Clean(AnswerText(md5, ch, c.call.value.party, password, cnonce))
    ensures var answer := AnswerTo(md5, m, c.call.value.party, password, cnonce);
      Satisfied(md5, ch, c, m, SipDialog.Next(c, SipDialog.Receive(m, answer, token)), password)
  {
    hide *;
    var p := c.call.value.party;
    var answer := AnswerText(md5, ch, p, password, cnonce);
    AnswerToIs(md5, m, ch, p, password, cnonce);
    TheInvite(es, c, m, answer, token);
    var d := SipDialog.Next(c, SipDialog.Receive(m, Some(answer), token));
    InviteIsAccepted(md5, ch, p, d.trace[|c.trace| + 1].what, password, cnonce);
    IsSatisfied(md5, ch, c, m, d, password);
  }

  lemma IsSatisfied(md5: string -> string, ch: Digest.Challenge, c: SipDialog.Client, m: SipDialog.Msg, d: SipDialog.Client,
                    password: string)
    requires m.Response? && c.call.Some? && |d.trace| == |c.trace| + 2 && d.trace[|c.trace| + 1].Sent?
    requires d.trace[|c.trace| + 1].who == c.call.value.party && d.trace[|c.trace| + 1].what.Invite?
    requires Accepted(md5, ch, c.call.value.party, d.trace[|c.trace| + 1].what,
                      if m.proxyAuth.Some? then "Proxy-Authorization" else "Authorization", password)
    ensures Satisfied(md5, ch, c, m, d, password)
  {
    hide Accepted;
  }

  lemma AnswerToIs(md5: string -> string, m: SipDialog.Msg, ch: Digest.Challenge, p: Party, password: string, cnonce: string)
    requires m.Response? && SipDialog.Challenge(m).Some?
    requires Digest.ParseChallenge(SipDialog.Challenge(m).value) == Some(ch) && Digest.Answerable(ch)
    ensures AnswerTo(md5, m, p, password, cnonce) == Some(AnswerText(md5, ch, p, password, cnonce))
  {
    hide Digest.Answerable, Digest.ParseChallenge, SipDialog.Challenge, AnswerText;
  }

  /** The INVITE that follows the ACK of a challenge. */
  lemma TheInvite(es: seq<SipDialog.Event>, c: SipDialog.Client, m: SipDialog.Msg, answer: string, token: string)
    requires SipDialog.Reached(es, c) && c.call.Some? && c.call.value.state == SipDialog.Inviting
    requires m.Response? && (m.code == 401 || m.code == 407) && SipAnswers.Addressed(c, m) && SipDialog.Challenge(m).Some?
    ensures var d := SipDialog.Next(c, SipDialog.Receive(m, Some(answer), token)); var n := |c.trace|;
      && |d.trace| == n + 2 && d.trace[n + 1].Sent? && d.trace[n + 1].who == c.call.value.party
      && var o := d.trace[n + 1].what;
        && o.Invite? && o.branch == token && o.auth.Some? && o.auth.value.value == answer
        && o.auth.value.header == (if m.proxyAuth.Some? then "Proxy-Authorization" else "Authorization")
  {
    ChallengesIs(m);
    hide SipDialog.Next, SipDialog.Reached, SipTranscript.See, SipAnswers.Shows, SipAnswers.Challenges, SipAnswers.Offer,
      SipDialog.Challenge, SipAnswers.Addressed;
    SipAnswers.PhasesAre(es, c);
    SipAnswers.ChallengeIsAnswered(es, c, m, Some(answer), token);
  }

  lemma ChallengesIs(m: SipDialog.Msg)
    requires m.Response?
    ensures SipAnswers.Challenges(m) <==> SipDialog.Challenge(m).Some?
  {}

  lemma InviteIsAccepted(md5: string -> string, ch: Digest.Challenge, p: Party, o: Out, password: string, cnonce: string)
    requires o.Invite? && o.auth.Some? && o.auth.value.value == AnswerText(md5, ch, p, password, cnonce)
    requires o.auth.value.header == "Authorization" || o.auth.value.header == "Proxy-Authorization"
    requires Digest.Answerable(ch) && Quotable(md5, ch, AccountOf(p, password, cnonce))
    requires CleanParty(p) && Clean(o.branch) && Clean(o.auth.value.value)
    ensures Accepted(md5, ch, p, o, o.auth.value.header, password)
  {
    OctetsShowTheCredentials(p, o);
    hide CleanParty, ReadMessage, Wire, Under, DigestServer.Accepts, Digest.Answerable, Digest.ResponseOf, Digest.CommaJoin, Digest.Parts;
    DigestServer.ServerAccepts(md5, ch, AccountOf(p, password, cnonce));
  }
}
