/** The builders and the framer undo each other. */
module SipRoundTrip {
  import opened Basics
  import opened SipFraming
  import opened SipMessages

  // ---------- decimal numbers ----------

  lemma {:induction false} DecRoundTrip(n: nat)
    ensures Dec(n) != "" && (forall k :: 0 <= k < |Dec(n)| ==> IsDigit(Dec(n)[k]))
    ensures Number(Dec(n)) == n
  {
    if n >= 10 {
      DecRoundTrip(n / 10);
      var s := Dec(n);
      assert s[..|s| - 1] == Dec(n / 10);
      assert DigitValue(Digit(n % 10)) == n % 10;
    } else {
      assert Dec(n)[..0] == "";
      assert DigitValue(Digit(n)) == n;
    }
  }

  // ---------- clean lines ----------

  predicate Clean(s: string) { forall k :: 0 <= k < |s| ==> s[k] != '\r' && s[k] != '\n' }

  /** A line the framer cannot mistake for Content-Length. */
  predicate PlainLine(l: string) { l != "" && Clean(l) && !HasAt(l, 0, CONTENT_LENGTH) }

  ghost predicate PlainLines(ls: seq<string>) { forall i :: 0 <= i < |ls| ==> PlainLine(ls[i]) }

  // ---------- where the header ends ----------

  /** No blank line before the end of some clean, non-empty lines. */
  lemma {:induction false} NoBlankLine(ls: seq<string>, x: string, k: nat)
    requires ls != [] && forall i :: 0 <= i < |ls| ==> ls[i] != "" && Clean(ls[i])
    requires k + 2 < |Lines(ls)|
    ensures !EndsAt(Lines(ls) + CRLF + x, k)
    decreases |ls|
  {
    var s := Lines(ls) + CRLF + x;
    var l, rest := ls[0], ls[1..];
    var t := Lines(rest) + CRLF + x;
    assert s == (l + CRLF) + t;
    if k < |l| {
      assert s[k] == l[k];
    } else if k == |l| {
      assert rest != [];
      FirstCharacter(rest, x);
      assert s[k + 2] == t[0];
    } else if k == |l| + 1 {
      assert s[k] == '\n';
    } else {
      var j := k - (|l| + 2);
      assert rest != [];
      NoBlankLine(rest, x, j);
      EndsAtShift(l + CRLF, t, j);
    }
  }

  lemma FirstCharacter(ls: seq<string>, x: string)
    requires ls != [] && ls[0] != ""
    ensures Lines(ls) + CRLF + x != "" && (Lines(ls) + CRLF + x)[0] == ls[0][0]
  {
    assert Lines(ls) == ls[0] + CRLF + Lines(ls[1..]);
  }

  lemma EndsAtShift(p: string, t: string, j: nat)
    ensures EndsAt(p + t, |p| + j) == EndsAt(t, j)
  {
    if j + 4 <= |t| { assert (p + t)[|p| + j..|p| + j + 4] == t[j..j + 4]; }
  }

  lemma HeaderEnd(ls: seq<string>, x: string)
    requires ls != [] && forall i :: 0 <= i < |ls| ==> ls[i] != "" && Clean(ls[i])
    ensures |Lines(ls)| >= 2 && FindEnd(Lines(ls) + CRLF + x, 0) == Some(|Lines(ls)| - 2)
  {
    var s := Lines(ls) + CRLF + x;
    LinesEnd(ls);
    var h := |Lines(ls)| - 2;
    assert s[h..h + 4] == Lines(ls)[h..] + CRLF;
    assert EndsAt(s, h);
    var f := FindEnd(s, 0);
    if f.Some? && f.value < h { NoBlankLine(ls, x, f.value); }
  }

  lemma {:induction false} LinesEnd(ls: seq<string>)
    requires ls != []
    ensures |Lines(ls)| >= 2 && Lines(ls)[|Lines(ls)| - 2..] == CRLF
    decreases |ls|
  {
    if |ls| > 1 {
      LinesEnd(ls[1..]);
      assert Lines(ls) == ls[0] + CRLF + Lines(ls[1..]);
    } else {
      assert Lines(ls[1..]) == "";
    }
  }

  // ---------- which length the header announces ----------

  lemma {:induction false} BodyLengthSkip(s: string, i: nat, j: nat)
    requires i <= j <= |s| && forall k :: i <= k < j ==> LengthAt(s, k).None?
    ensures BodyLength(s, i) == BodyLength(s, j)
    decreases j - i
  {
    if i < j {
      assert LengthAt(s, i).None?;
      BodyLengthSkip(s, i + 1, j);
    }
  }

  /** A position inside a clean line, or at the start of a plain one, announces nothing. */
  lemma PlainLineSilent(a: string, l: string, x: string, k: nat)
    requires PlainLine(l) && (a == "" || a[|a| - 1] == '\n') && |a| <= k < |a| + |l| + 2
    ensures LengthAt(a + (l + CRLF + x), k).None?
  {
    var s := a + (l + CRLF + x);
    if k == |a| {
      forall j | 0 <= j < |l| ensures s[k + j] == l[j] {}
      if |l| < |CONTENT_LENGTH| {
        assert s[k + |l|] == '\r' && CONTENT_LENGTH[|l|] != '\r';
      }
    } else if k <= |a| + |l| {
      assert s[k - 1] == l[k - 1 - |a|];
    } else {
      assert s[k - 1] == '\r';
    }
  }

  lemma {:induction false} PlainLinesSilent(a: string, ls: seq<string>, x: string, k: nat)
    requires PlainLines(ls) && (a == "" || a[|a| - 1] == '\n') && |a| <= k < |a| + |Lines(ls)|
    ensures LengthAt(a + (Lines(ls) + x), k).None?
    decreases |ls|
  {
    var l, rest := ls[0], ls[1..];
    assert PlainLine(ls[0]);
    assert Lines(ls) + x == l + CRLF + (Lines(rest) + x);
    if k < |a| + |l| + 2 {
      PlainLineSilent(a, l, Lines(rest) + x, k);
    } else {
      var b := a + (l + CRLF);
      assert a + (Lines(ls) + x) == b + (Lines(rest) + x);
      forall i | 0 <= i < |rest| ensures PlainLine(rest[i]) { assert PlainLine(ls[i + 1]); }
      PlainLinesSilent(b, rest, x, k);
    }
  }

  lemma {:induction false} SkipDigitsAll(s: string, i: nat, j: nat)
    requires i <= j <= |s| && (forall k :: i <= k < j ==> IsDigit(s[k])) && (j < |s| ==> !IsDigit(s[j]))
    ensures SkipDigits(s, i) == j
    decreases j - i
  {
    if i < j { SkipDigitsAll(s, i + 1, j); }
  }

  lemma {:induction false} SkipSpaceAll(s: string, i: nat, j: nat)
    requires i <= j <= |s| && (forall k :: i <= k < j ==> IsSpace(s[k])) && (j < |s| ==> !IsSpace(s[j]))
    ensures SkipSpace(s, i) == j
    decreases j - i
  {
    if i < j { SkipSpaceAll(s, i + 1, j); }
  }

  const NAME := "Content-Length: "

  /** The character at each place of a header's end. */
  lemma TailCharacters(a: string, d: string, s: string)
    requires s == a + (NAME + d + CRLF + CRLF)
    ensures |s| == |a| + 16 + |d| + 4 && (a == "" || s[|a| - 1] == a[|a| - 1])
    ensures HasAt(s, |a|, CONTENT_LENGTH)
    ensures s[|a| + 16..|a| + 16 + |d|] == d && s[|a| + 15] == ' '
    ensures var to := |a| + 16 + |d|;
      s[to] == '\r' && s[to + 1] == '\n' && s[to + 2] == '\r' && s[to + 3] == '\n'
  {
    var t := NAME + d + CRLF + CRLF;
    assert s[|a|..] == t;
    assert t[16..16 + |d|] == d;
    forall k | 0 <= k < 16 ensures s[|a| + k] == NAME[k] { assert s[|a|..][k] == t[k]; }
    NameMatches(s, |a|);
    hide HasAt;
  }

  lemma DigitsInPlace(s: string, d: string, from_: nat)
    requires forall k :: 0 <= k < |d| ==> IsDigit(d[k])
    requires from_ + |d| <= |s| && s[from_..from_ + |d|] == d
    ensures forall k :: from_ <= k < from_ + |d| ==> IsDigit(s[k])
  {
    hide IsDigit;
    forall k | from_ <= k < from_ + |d| ensures IsDigit(s[k]) { assert s[k] == d[k - from_]; }
  }

  lemma NameMatches(s: string, i: nat)
    requires i + 16 <= |s| && forall k :: 0 <= k < 16 ==> s[i + k] == NAME[k]
    ensures HasAt(s, i, CONTENT_LENGTH)
  {
    forall k | 0 <= k < |CONTENT_LENGTH| ensures Lower(s[i + k]) == CONTENT_LENGTH[k] {
      assert s[i + k] == NAME[k];
    }
  }

  /** The Content-Length line that ends a header announces the number printed in it. */
  lemma LastLineAnnounces(a: string, d: string, n: nat, s: string)
    requires a == "" || a[|a| - 1] == '\n'
    requires d != "" && (forall k :: 0 <= k < |d| ==> IsDigit(d[k])) && Number(d) == n
    requires s == a + (NAME + d + CRLF + CRLF)
    ensures LengthAt(s, |a|) == Some(n)
  {
    hide *;
    TailCharacters(a, d, s);
    TailAnnounces(s, |a|, d);
  }

  lemma TailAnnounces(s: string, i: nat, d: string)
    requires d != "" && (forall k :: 0 <= k < |d| ==> IsDigit(d[k]))
    requires |s| == i + 16 + |d| + 4 && HasAt(s, i, CONTENT_LENGTH) && (i == 0 || s[i - 1] == '\n')
    requires s[i + 16..i + 16 + |d|] == d && s[i + 15] == ' '
    requires var to := i + 16 + |d|;
      s[to] == '\r' && s[to + 1] == '\n' && s[to + 2] == '\r' && s[to + 3] == '\n'
    ensures LengthAt(s, i) == Some(Number(d))
  {
    hide *;
    DigitsInPlace(s, d, i + 16);
    NumberScans(s, i + 16, i + 16 + |d|);
    MatchAnnounces(s, i, d);
  }

  lemma MatchAnnounces(s: string, i: nat, d: string)
    requires i == 0 || (i <= |s| && s[i - 1] == '\n')
    requires HasAt(s, i, CONTENT_LENGTH) && i + 16 + |d| <= |s| && s[i + 16..i + 16 + |d|] == d
    requires SkipSpace(s, i + 15) == i + 16 && SkipDigits(s, i + 16) == i + 16 + |d| && EndsLine(s, i + 16 + |d|)
    requires d != "" && (forall k :: 0 <= k < |d| ==> IsDigit(d[k]))
    ensures LengthAt(s, i) == Some(Number(d))
  {
    hide Number, HasAt, EndsLine, SkipSpace, SkipDigits, IsDigit;
  }

  /** After the name: one space, digits, and nothing but white space. */
  lemma NumberScans(s: string, from_: nat, to: nat)
    requires 0 < from_ < to && |s| == to + 4 && s[from_ - 1] == ' '
    requires forall k :: from_ <= k < to ==> IsDigit(s[k])
    requires s[to] == '\r' && s[to + 1] == '\n' && s[to + 2] == '\r' && s[to + 3] == '\n'
    ensures SkipSpace(s, from_ - 1) == from_ && SkipDigits(s, from_) == to && EndsLine(s, to)
  {
    SkipSpaceAll(s, from_ - 1, from_);
    SkipDigitsAll(s, from_, to);
    SkipSpaceAll(s, to, |s|);
    hide SkipSpace, SkipDigits;
  }

  /** A header of plain lines and Content-Length, whatever follows it, is framed as that header and
      exactly the announced number of octets. */
  lemma FramedLength(ls: seq<string>, body: string, x: string)
    requires PlainLines(ls)
    ensures var m := Lines(ls + [NAME + Dec(|body|)]) + CRLF + body;
      FirstLength(m + x) == Some(|m|)
  {
    var cl := NAME + Dec(|body|);
    AnnouncesBody(ls, |body|);
    HeaderIs(ls, cl, body + x);
    hide *;
    FirstIsHeaderAndBody(Lines(ls + [cl]) + CRLF, body, x);
  }

  lemma FirstIsHeaderAndBody(head: string, body: string, x: string)
    requires |head| >= 4 && FindEnd(head + (body + x), 0) == Some(|head| - 4) && BodyLength(head, 0) == |body|
    ensures FirstLength(head + body + x) == Some(|head + body|)
  {
    hide FindEnd, BodyLength;
    assert head + body + x == head + (body + x);
    assert (head + (body + x))[..|head|] == head;
  }

  lemma HeaderIs(ls: seq<string>, cl: string, rest: string)
    requires PlainLines(ls) && cl != "" && Clean(cl)
    ensures var head := Lines(ls + [cl]) + CRLF;
      |head| >= 4 && FindEnd(head + rest, 0) == Some(|head| - 4)
  {
    var all := ls + [cl];
    forall i | 0 <= i < |all| ensures all[i] != "" && Clean(all[i]) {
      if i < |ls| { assert PlainLine(ls[i]); }
    }
    HeaderEnd(all, rest);
  }

  lemma AnnouncesBody(ls: seq<string>, n: nat)
    requires PlainLines(ls)
    ensures Clean(NAME + Dec(n))
    ensures BodyLength(Lines(ls + [NAME + Dec(n)]) + CRLF, 0) == n
  {
    DecRoundTrip(n);
    CleanLengthLine(n);
    var d := Dec(n);
    hide Dec, Number;
    var tail := NAME + d + CRLF + CRLF;
    var head := Lines(ls + [NAME + d]) + CRLF;
    LinesAppend(ls, NAME + d);
    assert head == Lines(ls) + tail;
    LinesEndLine(ls);
    LastLineAnnounces(Lines(ls), d, n, head);
    LinesAreSilent(ls, tail);
    hide LengthAt, BodyLength;
    BodyLengthSkip(head, 0, |Lines(ls)|);
  }

  lemma LinesAreSilent(ls: seq<string>, tail: string)
    requires PlainLines(ls)
    ensures forall k :: 0 <= k < |Lines(ls)| ==> LengthAt(Lines(ls) + tail, k).None?
  {
    hide LengthAt, Lines;
    forall k | 0 <= k < |Lines(ls)| ensures LengthAt(Lines(ls) + tail, k).None? {
      PlainLinesSilent("", ls, tail, k);
      assert "" + (Lines(ls) + tail) == Lines(ls) + tail;
    }
  }

  lemma CleanLengthLine(n: nat)
    ensures Clean(NAME + Dec(n))
  {
    DecRoundTrip(n);
  }

  lemma {:induction false} LinesAppend(ls: seq<string>, l: string)
    ensures Lines(ls + [l]) == Lines(ls) + l + CRLF
    decreases |ls|
  {
    if ls == [] {
      assert ([] + [l])[1..] == [];
    } else {
      assert (ls + [l])[1..] == ls[1..] + [l];
      LinesAppend(ls[1..], l);
      assert ls[0] + CRLF + (Lines(ls[1..]) + l + CRLF) == ls[0] + CRLF + Lines(ls[1..]) + l + CRLF;
    }
  }

  lemma LinesEndLine(ls: seq<string>)
    ensures Lines(ls) == "" || Lines(ls)[|Lines(ls)| - 1] == '\n'
  {
    if ls != [] {
      LinesEnd(ls);
      assert Lines(ls)[|Lines(ls)| - 1] == Lines(ls)[|Lines(ls)| - 2..][1];
    }
  }

  // ---------- every line our builders write is plain ----------

  /** A fixed beginning of a line that cannot be read as Content-Length. */
  predicate SafeName(n: string)
  {
    && n != "" && Clean(n)
    && (Lower(n[0]) != 'c' || (|n| > 1 && Lower(n[1]) != 'o') || (|n| > 4 && Lower(n[4]) != 'e')
        || (|n| > 8 && Lower(n[8]) != 'l'))
  }

  predicate SafeField(f: Field) { SafeName(f.name) && Clean(f.value) }

  ghost predicate SafeFields(fs: seq<Field>) { forall f :: f in fs ==> SafeField(f) }

  ghost predicate AllClean(ss: seq<string>) { forall s :: s in ss ==> Clean(s) }

  predicate CleanParty(p: Party)
  {
    Clean(p.username) && Clean(p.host) && Clean(p.fromTag) && Clean(p.callId) && Clean(p.instance) && Clean(p.target)
  }

  predicate CleanCredentials(c: Credentials)
  {
    (c.header == "Authorization" || c.header == "Proxy-Authorization") && Clean(c.value)
  }

  /** No header field of the message holds a CR or LF. Nothing is asked of bodies. */
  ghost predicate CleanOut(o: Out)
  {
    match o
    case Invite(branch, _, _, auth) => Clean(branch) && (auth.Some? ==> CleanCredentials(auth.value))
    case ReInvite(uri, branch, _, routes, to, _) => Clean(uri) && Clean(branch) && Clean(to) && AllClean(routes)
    case Ack(uri, branch, _, routes, to, _) => Clean(uri) && Clean(branch) && Clean(to) && AllClean(routes)
    case Cancel(branch, _) => Clean(branch)
    case Message(uri, branch, _, routes, to, _) => Clean(uri) && Clean(branch) && Clean(to) && AllClean(routes)
    case Bye(uri, branch, _, routes, to) => Clean(uri) && Clean(branch) && Clean(to) && AllClean(routes)
    case Ok(vias, from_, to, id, cseq) => AllClean(vias) && Clean(from_) && Clean(to) && Clean(id) && Clean(cseq)
    case OkSdp(vias, from_, to, id, cseq, _) => AllClean(vias) && Clean(from_) && Clean(to) && Clean(id) && Clean(cseq)
  }

  lemma SafeLine(f: Field)
    requires SafeField(f)
    ensures PlainLine(f.name + f.value)
  {
    var l, n := f.name + f.value, f.name;
    var k := if Lower(n[0]) != 'c' then 0 else if |n| > 1 && Lower(n[1]) != 'o' then 1
             else if |n| > 4 && Lower(n[4]) != 'e' then 4 else 8;
    assert l[0 + k] == n[k] && Lower(l[0 + k]) != CONTENT_LENGTH[k];
  }

  lemma SafeLines(fs: seq<Field>)
    requires SafeFields(fs)
    ensures PlainLines(LinesOf(fs))
  {
    hide PlainLine, SafeField;
    forall i | 0 <= i < |fs| ensures PlainLine(LinesOf(fs)[i]) {
      assert fs[i] in fs;
      SafeLine(fs[i]);
    }
  }

  lemma SafeRepeated(name: string, values: seq<string>)
    requires SafeName(name) && AllClean(values)
    ensures SafeFields(Repeated(name, values))
  {
    hide SafeName, Clean;
    forall f | f in Repeated(name, values) ensures SafeField(f) {
      var i :| 0 <= i < |values| && f == Repeated(name, values)[i];
      assert values[i] in values;
    }
  }

  lemma CleanDec(n: nat)
    ensures Clean(Dec(n))
  {
    DecRoundTrip(n);
  }

  lemma CleanTwo(a: string, b: string)
    requires Clean(a) && Clean(b)
    ensures Clean(a + b)
  {}

  lemma CleanStart(m: string, uri: string)
    requires SafeName(m) && Clean(uri)
    ensures SafeField(Start(m, uri))
  {
    hide SafeName;
  }

  lemma CleanOpening(p: Party, branch: string)
    requires CleanParty(p) && Clean(branch)
    ensures SafeFields(Opening(p, branch))
  {
    CleanDec(p.port);
    CleanVia(p, branch, Dec(p.port));
    assert SafeField(Field("Max-Forwards: ", "70"));
    hide SafeField, Via;
  }

  lemma CleanVia(p: Party, branch: string, port: string)
    requires CleanParty(p) && Clean(branch) && Clean(port) && port == Dec(p.port)
    ensures SafeField(Via(p, branch))
  {
    hide Dec;
    assert Clean(p.host + ":");
    CleanTwo("SIP/2.0/TCP ", p.host + ":");
  }

  lemma CleanFrom(p: Party)
    requires CleanParty(p)
    ensures SafeField(From(p))
  {}

  lemma CleanContact(p: Party)
    requires CleanParty(p)
    ensures SafeField(Contact(p))
  {
    CleanDec(p.port);
    hide Dec;
  }

  lemma CleanCSeq(cseq: nat, m: string)
    requires Clean(m)
    ensures SafeField(CSeq(cseq, m))
  {
    CleanDec(cseq);
    hide Dec;
  }

  lemma CleanIdentity(p: Party, to: string, cseq: nat, m: string)
    requires CleanParty(p) && Clean(to) && Clean(m)
    ensures SafeFields(Identity(p, to, cseq, m))
  {
    CleanFrom(p);
    CleanCSeq(cseq, m);
    assert SafeField(Field("To: ", to)) && SafeField(Field("Call-ID: ", p.callId));
    hide SafeField, From, CSeq;
  }

  lemma CleanFixed()
    ensures SafeField(Field("User-Agent: ", USER_AGENT)) && SafeField(Field("Allow: ", ALLOWED))
    ensures SafeField(Field("Supported: ", "timer")) && SafeField(Field("Session-Expires: ", SESSION_EXPIRES))
    ensures SafeField(Field("Min-SE: ", "90")) && SafeField(Field("Content-Type: ", "application/sdp"))
    ensures SafeField(Field("Content-Type: ", "text/plain;charset=UTF-8")) && SafeField(Field("SIP/2.0 200 OK", ""))
  {
    CleanNames();
    CleanValues();
    hide SafeName, Clean;
  }

  lemma CleanNames()
    ensures SafeName("User-Agent: ") && SafeName("Allow: ") && SafeName("Supported: ")
    ensures SafeName("Session-Expires: ") && SafeName("Min-SE: ") && SafeName("Content-Type: ")
    ensures SafeName("SIP/2.0 200 OK")
  {}

  lemma CleanValues()
    ensures Clean(USER_AGENT) && Clean(ALLOWED) && Clean("timer") && Clean(SESSION_EXPIRES) && Clean("90")
    ensures Clean("application/sdp") && Clean("text/plain;charset=UTF-8") && Clean("")
  {}

  lemma CleanSession(p: Party)
    requires CleanParty(p)
    ensures SafeFields(Session(p)) && SafeFields(Agent())
  {
    CleanContact(p);
    CleanFixed();
    hide SafeField, Contact;
  }

  lemma CleanMethods()
    ensures SafeName("INVITE ") && SafeName("ACK ") && SafeName("CANCEL ") && SafeName("MESSAGE ") && SafeName("BYE ")
    ensures Clean(" INVITE") && Clean(" ACK") && Clean(" CANCEL") && Clean(" MESSAGE") && Clean(" BYE")
    ensures SafeName("Via: ") && SafeName("Route: ")
  {}

  lemma CleanTarget(p: Party)
    requires CleanParty(p)
    ensures Clean("<" + p.target + ">")
  {}

  lemma CleanEcho(o: Out)
    requires (o.Ok? || o.OkSdp?) && CleanOut(o)
    ensures SafeFields(Echo(o))
  {
    CleanMethods();
    CleanFixed();
    EchoNames();
    hide SafeName, Clean;
    SafeRepeated("Via: ", o.vias);
    assert SafeField(Field("From: ", o.from_)) && SafeField(Field("To: ", o.to));
    assert SafeField(Field("Call-ID: ", o.callId)) && SafeField(Field("CSeq: ", o.cseqHeader));
    hide SafeField, Repeated;
  }

  lemma EchoNames()
    ensures SafeName("From: ") && SafeName("To: ") && SafeName("Call-ID: ") && SafeName("CSeq: ")
  {}

  lemma CleanAuth(auth: Option<Credentials>)
    requires auth.Some? ==> CleanCredentials(auth.value)
    ensures SafeFields(if auth.Some? then [Field(auth.value.header + ": ", auth.value.value)] else [])
  {
    if auth.Some? {
      if auth.value.header == "Authorization" {
        assert SafeName("Authorization" + ": ");
      } else {
        assert SafeName("Proxy-Authorization" + ": ");
      }
    }
  }

  /** The lines a request inside a dialog begins with. */
  lemma CleanInDialog(p: Party, m: string, cm: string, uri: string, branch: string, cseq: nat,
                      routes: seq<string>, to: string)
    requires CleanParty(p) && SafeName(m) && Clean(cm) && Clean(uri) && Clean(branch) && AllClean(routes) && Clean(to)
    ensures SafeFields([Start(m, uri)] + Opening(p, branch) + Repeated("Route: ", routes) + Identity(p, to, cseq, cm))
  {
    CleanStart(m, uri);
    CleanOpening(p, branch);
    CleanMethods();
    SafeRepeated("Route: ", routes);
    CleanIdentity(p, to, cseq, cm);
    hide SafeField, Start, Opening, Repeated, Identity;
  }

  lemma CleanFields(p: Party, o: Out)
    requires CleanParty(p) && CleanOut(o)
    ensures SafeFields(Fields(p, o))
  {
    CleanMethods();
    CleanFixed();
    CleanSession(p);
    hide SafeField, SafeName, Session, Agent, Clean, AllClean;
    match o {
      case Invite(branch, cseq, _, auth) => CleanInvite(p, branch, cseq, auth);
      case ReInvite(uri, branch, cseq, routes, to, _) =>
        CleanInDialog(p, "INVITE ", " INVITE", uri, branch, cseq, routes, to);
      case Ack(uri, branch, cseq, routes, to, _) =>
        CleanInDialog(p, "ACK ", " ACK", uri, branch, cseq, routes, to);
      case Cancel(branch, cseq) => CleanCancel(p, branch, cseq);
      case Message(uri, branch, cseq, routes, to, _) =>
        CleanInDialog(p, "MESSAGE ", " MESSAGE", uri, branch, cseq, routes, to);
      case Bye(uri, branch, cseq, routes, to) =>
        CleanInDialog(p, "BYE ", " BYE", uri, branch, cseq, routes, to);
      case Ok(_, _, _, _, _) => CleanEcho(o);
      case OkSdp(_, _, _, _, _, _) =>
        CleanEcho(o);
        CleanContact(p);
    }
  }

  lemma CleanInvite(p: Party, branch: string, cseq: nat, auth: Option<Credentials>)
    requires CleanParty(p) && Clean(branch) && (auth.Some? ==> CleanCredentials(auth.value))
    ensures SafeFields([Start("INVITE ", p.target)] + Opening(p, branch)
      + Identity(p, "<" + p.target + ">", cseq, " INVITE") + Session(p)
      + (if auth.Some? then [Field(auth.value.header + ": ", auth.value.value)] else []))
  {
    CleanMethods();
    CleanStart("INVITE ", p.target);
    CleanOpening(p, branch);
    CleanTarget(p);
    CleanIdentity(p, "<" + p.target + ">", cseq, " INVITE");
    CleanSession(p);
    CleanAuth(auth);
    hide SafeField, Start, Opening, Identity, Session, Agent;
  }

  lemma CleanCancel(p: Party, branch: string, cseq: nat)
    requires CleanParty(p) && Clean(branch)
    ensures SafeFields([Start("CANCEL ", p.target)] + Opening(p, branch)
      + Identity(p, "<" + p.target + ">", cseq, " CANCEL") + Agent())
  {
    CleanMethods();
    CleanStart("CANCEL ", p.target);
    CleanOpening(p, branch);
    CleanTarget(p);
    CleanIdentity(p, "<" + p.target + ">", cseq, " CANCEL");
    CleanSession(p);
    hide SafeField, Start, Opening, Identity, Session, Agent;
  }

  // ---------- the theorem ----------

  lemma WireIsOneFrame(p: Party, o: Out, x: string)
    requires CleanParty(p) && CleanOut(o)
    ensures FirstLength(Wire(p, o) + x) == Some(|Wire(p, o)|)
  {
    CleanFields(p, o);
    SafeLines(Fields(p, o));
    FramedLength(LinesOf(Fields(p, o)), Body(p, o), x);
    hide SafeFields, PlainLines, Fields, Body, Lines, LinesOf, Dec, FirstLength, CleanParty, CleanOut;
  }

  function Wires(p: Party, os: seq<Out>): seq<string>
  {
    if os == [] then [] else [Wire(p, os[0])] + Wires(p, os[1..])
  }

  /** MAIN RESULT: whatever list of messages the builders wrote, one after the other, framing the
      octets gives back exactly these messages, and then frames what follows. Bodies are arbitrary;
      they may hold blank lines or Content-Length lines. */
  lemma {:induction false} BuildersAndFramerAgree(p: Party, os: seq<Out>, rest: string)
    requires CleanParty(p) && forall i :: 0 <= i < |os| ==> CleanOut(os[i])
    ensures Frames(Concat(Wires(p, os)) + rest) == Framed(Wires(p, os) + Frames(rest).messages, Frames(rest).rest)
    decreases |os|
  {
    hide FirstLength, CleanOut, CleanParty, Wire;
    if os == [] {
      assert "" + rest == rest;
      assert [] + Frames(rest).messages == Frames(rest).messages;
    } else {
      var w, ws := Wire(p, os[0]), Wires(p, os[1..]);
      var tail := Concat(ws) + rest;
      BuildersAndFramerAgree(p, os[1..], rest);
      WireIsOneFrame(p, os[0], tail);
      ConcatCons(w, ws, rest);
      assert (w + tail)[..|w|] == w && (w + tail)[|w|..] == tail;
      assert [w] + (ws + Frames(rest).messages) == ([w] + ws) + Frames(rest).messages;
    }
  }
}
