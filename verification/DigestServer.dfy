/** The other side of Digest authentication (RFC 7616): a server that knows the password and checks what
    it reads, and the challenges it sends. */
module DigestServer {
  import opened Basics
  import opened SipFraming
  import opened Digest
  import SipRoutes

  /** KD(secret, data) of section 3.3. */
  function KD(md5: string -> string, secret: string, data: string): string { md5(secret + ":" + data) }

  /** The strings joined by colons. */
  function Colons(ss: seq<string>): string
  {
    if ss == [] then "" else if |ss| == 1 then ss[0] else ss[0] + ":" + Colons(ss[1..])
  }

  /** Sections 3.4.1 to 3.4.3: what the response must be, from the parameters of the header alone and
      the password the server has for that user. None if one is missing. */
  function Expected(md5: string -> string, m: map<string, string>, password: string, verb: string): Option<string>
  {
    if !({"username", "realm", "nonce", "uri"} <= m.Keys) then None
    else
      var a1 := Colons([m["username"], m["realm"], password]);
      var a2 := Colons([verb, m["uri"]]);
      if "qop" !in m then Some(KD(md5, md5(a1), Colons([m["nonce"], md5(a2)])))
      else if !({"nc", "cnonce"} <= m.Keys) then None
      else Some(KD(md5, md5(a1), Colons([m["nonce"], m["nc"], m["cnonce"], m["qop"], md5(a2)])))
  }

  /** The header belongs to the server's challenge, and proves the password. */
  predicate Accepts(md5: string -> string, sent: Challenge, header: string, password: string, verb: string)
  {
    && "Digest " <= header
    && var m := Params(header[7..]);
      && Get(m, "realm") == Some(sent.realm) && Get(m, "nonce") == Some(sent.nonce)
      && (NonEmpty(sent.opaque_) ==> Get(m, "opaque") == sent.opaque_)
      && ("qop" in m ==> NonEmpty(sent.qop) && m["qop"] in StripAll(SplitAtCommas(sent.qop.value)))
      && (NonEmpty(sent.qop) ==> "qop" in m)
      && "response" in m && Expected(md5, m, password, verb) == Get(m, "response")
  }

  lemma TwoColons(a: string, b: string)
    ensures Colons([a, b]) == a + ":" + b
  {
    assert [a, b][1..] == [b];
  }

  lemma MoreColons(a: string, rest: seq<string>)
    requires rest != []
    ensures Colons([a] + rest) == a + ":" + Colons(rest)
  {
    assert ([a] + rest)[1..] == rest;
  }

  lemma ThreeColons(a: string, b: string, c: string)
    ensures Colons([a, b, c]) == a + ":" + b + ":" + c
  {
    TwoColons(b, c);
    MoreColons(a, [b, c]);
    assert [a] + [b, c] == [a, b, c];
  }

  lemma FiveColons(a: string, b: string, c: string, d: string, e: string)
    ensures Colons([a, b, c, d, e]) == a + ":" + b + ":" + c + ":" + d + ":" + e
  {
    ThreeColons(c, d, e);
    MoreColons(b, [c, d, e]);
    MoreColons(a, [b, c, d, e]);
    assert [b] + [c, d, e] == [b, c, d, e] && [a] + [b, c, d, e] == [a, b, c, d, e];
    hide Colons;
  }

  lemma ResponseIsExpected(md5: string -> string, c: Challenge, a: Account, m: map<string, string>)
    requires m.Keys >= {"username", "realm", "nonce", "uri"}
    requires m["username"] == a.username && m["realm"] == c.realm && m["nonce"] == c.nonce && m["uri"] == a.uri
    requires if NonEmpty(c.qop) then
        m.Keys >= {"qop", "nc", "cnonce"} && m["qop"] == "auth" && m["nc"] == Padded(Hex(a.nc)) && m["cnonce"] == a.cnonce
      else "qop" !in m
    ensures Expected(md5, m, a.password, a.verb) == Some(ResponseOf(md5, c, a))
  {
    ThreeColons(a.username, c.realm, a.password);
    TwoColons(a.verb, a.uri);
    var ha1 := md5(a.username + ":" + c.realm + ":" + a.password);
    var ha2 := md5(a.verb + ":" + a.uri);
    var nc := Padded(Hex(a.nc));
    hide Padded, Hex, Colons;
    if NonEmpty(c.qop) {
      FiveColons(c.nonce, nc, a.cnonce, "auth", ha2);
      assert ha1 + ":" + c.nonce + ":" + nc + ":" + a.cnonce + ":" + "auth" + ":" + ha2
          == ha1 + ":" + (c.nonce + ":" + nc + ":" + a.cnonce + ":" + "auth" + ":" + ha2);
    } else {
      TwoColons(c.nonce, ha2);
      assert ha1 + ":" + c.nonce + ":" + ha2 == ha1 + ":" + (c.nonce + ":" + ha2);
    }
  }

  lemma ParamsHold(md5: string -> string, c: Challenge, a: Account)
    ensures var m := PartsMap(Parts(md5, c, a));
      && Get(m, "nc") == (if NonEmpty(c.qop) then Some(Padded(Hex(a.nc))) else None)
      && Get(m, "cnonce") == (if NonEmpty(c.qop) then Some(a.cnonce) else None)
  {
    hide Parts, PartsMap, ResponseOf, Padded, Hex, Get;
    PartsHold(md5, c, a, Nc);
    PartsHold(md5, c, a, Cnonce);
  }

  lemma AuthIsOffered(c: Challenge)
    requires Answerable(c) && NonEmpty(c.qop)
    ensures "auth" in StripAll(SplitAtCommas(c.qop.value))
  {
    hide StripAll, SplitAtCommas;
  }

  /** What the parameters of an answer hold. */
  predicate Carries(md5: string -> string, c: Challenge, a: Account, m: map<string, string>)
  {
    && Get(m, "username") == Some(a.username) && Get(m, "uri") == Some(a.uri)
    && Get(m, "realm") == Some(c.realm) && Get(m, "nonce") == Some(c.nonce)
    && Get(m, "response") == Some(ResponseOf(md5, c, a))
    && Get(m, "qop") == (if NonEmpty(c.qop) then Some("auth") else None)
    && Get(m, "nc") == (if NonEmpty(c.qop) then Some(Padded(Hex(a.nc))) else None)
    && Get(m, "cnonce") == (if NonEmpty(c.qop) then Some(a.cnonce) else None)
    && Get(m, "opaque") == (if NonEmpty(c.opaque_) then c.opaque_ else None)
  }

  lemma AnswerCarries(md5: string -> string, c: Challenge, a: Account)
    ensures Carries(md5, c, a, PartsMap(Parts(md5, c, a)))
  {
    AnswerAlwaysHolds(md5, c, a);
    AnswerMayHold(md5, c, a);
    ParamsHold(md5, c, a);
    hide Parts, PartsMap, ResponseOf, Padded, Hex, Get, NonEmpty;
  }

  lemma CarriedIsExpected(md5: string -> string, c: Challenge, a: Account, m: map<string, string>)
    requires Carries(md5, c, a, m)
    ensures Expected(md5, m, a.password, a.verb) == Get(m, "response") && "response" in m
  {
    hide ResponseOf, Padded, Hex, Expected;
    ResponseIsExpected(md5, c, a, m);
  }

  lemma CarriedIsAccepted(md5: string -> string, c: Challenge, a: Account, header: string, m: map<string, string>)
    requires Answerable(c) && Carries(md5, c, a, m) && "Digest " <= header && Params(header[7..]) == m
    ensures Accepts(md5, c, header, a.password, a.verb)
  {
    CarriedIsExpected(md5, c, a, m);
    if NonEmpty(c.qop) { AuthIsOffered(c); }
    hide Answerable, ResponseOf, Padded, Hex, StripAll, SplitAtCommas, Expected, Params;
  }

  /** MAIN RESULT: the server that sent the challenge accepts the answer. It reads the header, finds its
      own realm, nonce and opaque and a qop it offered, recomputes the response from the parameters it
      read, the password it has and the method of the request, and finds the one in the header. */
  lemma ServerAccepts(md5: string -> string, c: Challenge, a: Account)
    requires Answerable(c) && QuoteFreeChallenge(c) && QuoteFreeAccount(a) && QuoteFree(ResponseOf(md5, c, a))
    ensures Accepts(md5, c, "Digest " + CommaJoin(Parts(md5, c, a)), a.password, a.verb)
  {
    hide Answerable, Parts, CommaJoin, Params, PartsMap, ResponseOf, Accepts, Carries;
    var body := CommaJoin(Parts(md5, c, a));
    AnswerParams(md5, c, a);
    AnswerCarries(md5, c, a);
    assert ("Digest " + body)[7..] == body;
    CarriedIsAccepted(md5, c, a, "Digest " + body, Params(body));
  }

  // ---------- the nonce count ----------

  function HexValue(c: char): nat { if '0' <= c <= '9' then c as int - '0' as int else if 'a' <= c <= 'f' then c as int - 'a' as int + 10 else 0 }

  /** A number in hexadecimal. */
  function ReadHex(s: string): nat
  {
    if s == "" then 0 else 16 * ReadHex(s[..|s| - 1]) + HexValue(s[|s| - 1])
  }

  lemma DigitReadsBack(d: nat)
    requires d < 16
    ensures HexValue(HexDigit(d)) == d
  {
    if d < 10 {
      assert "0123456789abcdef"[d] == "0123456789"[d];
      DecimalDigit(d);
    } else {
      assert "0123456789abcdef"[d] == "abcdef"[d - 10];
      LetterDigit(d - 10);
    }
  }

  lemma DecimalDigit(d: nat)
    requires d < 10
    ensures '0' <= "0123456789"[d] <= '9' && "0123456789"[d] as int - '0' as int == d
  {}

  lemma LetterDigit(d: nat)
    requires d < 6
    ensures 'a' <= "abcdef"[d] <= 'f' && "abcdef"[d] as int - 'a' as int == d
  {}

  lemma {:induction false} HexReadsBack(n: nat)
    ensures ReadHex(Hex(n)) == n
    decreases n
  {
    var front := if n < 16 then "" else Hex(n / 16);
    assert Hex(n) == front + [HexDigit(n % 16)];
    hide HexDigit, HexValue;
    DigitReadsBack(n % 16);
    OneMoreDigit(front, HexDigit(n % 16));
    if n >= 16 { HexReadsBack(n / 16); }
  }

  lemma OneMoreDigit(front: string, d: char)
    ensures ReadHex(front + [d]) == 16 * ReadHex(front) + HexValue(d)
  {
    assert (front + [d])[..|front|] == front;
    hide HexValue;
  }

  lemma {:induction false} ZeroInFront(s: string)
    ensures ReadHex("0" + s) == ReadHex(s)
    decreases |s|
  {
    if s != "" {
      assert ("0" + s)[..|s|] == "0" + s[..|s| - 1];
      ZeroInFront(s[..|s| - 1]);
    } else {
      assert "0" + s == "0" && "0"[..0] == "";
    }
  }

  /** The nonce count has eight digits or more and reads back as the number. */
  lemma {:induction false} CountReadsBack(s: string)
    ensures ReadHex(Padded(s)) == ReadHex(s) && |Padded(s)| >= 8
    decreases 8 - |s|
  {
    if |s| < 8 {
      ZeroInFront(s);
      CountReadsBack("0" + s);
    }
  }

  // ---------- challenges of the server ----------

  lemma EndsInNoSpace(ps: seq<Part>)
    requires ps != [] && Readable(ps[|ps| - 1])
    ensures CommaJoin(ps) != "" && !IsSpace(CommaJoin(ps)[|CommaJoin(ps)| - 1])
    decreases |ps|
  {
    if |ps| > 1 { EndsInNoSpace(ps[1..]); }
  }

  /** MAIN RESULT: whatever parameters a Digest challenge has, in whatever order, quoted or not, it is
      read as the realm and nonce among them, with qop and opaque if they are there, and the algorithm
      in upper case, MD5 if there is none; without a realm or a nonce it is refused. */
  lemma ChallengeReadsBack(ps: seq<Part>)
    requires ps != [] && forall i :: 0 <= i < |ps| ==> Readable(ps[i])
    ensures var m := PartsMap(ps); var c := ParseChallenge("Digest " + CommaJoin(ps));
      && (c.Some? <==> "realm" in m && "nonce" in m)
      && (c.Some? ==>
            && c.value.realm == m["realm"] && c.value.nonce == m["nonce"]
            && c.value.qop == Get(m, "qop") && c.value.opaque_ == Get(m, "opaque")
            && c.value.algorithm == if "algorithm" in m then Upper(m["algorithm"]) else "MD5")
  {
    var body := CommaJoin(ps);
    var h := "Digest " + body;
    hide LowerCase, SipRoutes.Strip, Params, PartsMap, CommaJoin, Readable, Upper, IsSpace;
    PartsReadBack(ps);
    EndsInNoSpace(ps);
    DigestPrefix(h, body);
    StripsNothing(h);
    SeparatorSkipped(' ', body);
    ParsesTo(h, PartsMap(ps));
  }

  lemma StripsNothing(h: string)
    requires h != "" && h[0] == 'D' && !IsSpace(h[|h| - 1])
    ensures SipRoutes.Strip(h) == h
  {
    NothingToStrip(h);
  }

  lemma ParsesTo(h: string, m: map<string, string>)
    requires SipRoutes.Strip(h) == h && "digest" <= LowerCase(h) && |h| >= 6 && Params(h[6..]) == m
    ensures var c := ParseChallenge(h);
      && (c.Some? <==> "realm" in m && "nonce" in m)
      && (c.Some? ==>
            && c.value.realm == m["realm"] && c.value.nonce == m["nonce"]
            && c.value.qop == Get(m, "qop") && c.value.opaque_ == Get(m, "opaque")
            && c.value.algorithm == if "algorithm" in m then Upper(m["algorithm"]) else "MD5")
  {
    hide SipRoutes.Strip, LowerCase, Params, Upper;
  }
}
