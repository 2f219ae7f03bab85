/** Digest authentication (custom_components/intratone/digest_auth.py). MD5 is a parameter. */
module Digest {
  import opened Basics
  import opened SipFraming
  import SipRoutes

  datatype Challenge = Challenge(realm: string, nonce: string, qop: Option<string>, opaque_: Option<string>, algorithm: string)

  // ---------- reading parameters ----------

  predicate KeyChar(c: char) { 'a' <= c <= 'z' || 'A' <= c <= 'Z' || '0' <= c <= '9' || c == '_' || c == '-' }

  predicate ValueChar(c: char) { c != ',' && !IsSpace(c) }

  /** How many characters at the front satisfy p. */
  function Run(s: string, p: char -> bool): (n: nat)
    ensures n <= |s| && (forall k :: 0 <= k < n ==> p(s[k])) && (n < |s| ==> !p(s[n]))
  {
    if s != "" && p(s[0]) then 1 + Run(s[1..], p) else 0
  }

  function AfterSpace(s: string): string { s[Run(s, IsSpace)..] }

  datatype Pair = Pair(key: string, value: string, rest: string)

  /** A quoted value, or a run of other characters; an unclosed quote is part of such a run. */
  function ValueHere(key: string, s: string): (m: Option<Pair>)
    ensures m.Some? ==> |m.value.rest| < |s|
  {
    var close := if s != "" && s[0] == '"' then SipRoutes.Find(s, '"', 1) else None;
    if close.Some? then Some(Pair(key, s[1..close.value], s[close.value + 1..]))
    else
      var n := Run(s, ValueChar);
      if n == 0 then None else Some(Pair(key, s[..n], s[n..]))
  }

  /** A `key = value` at the front of s. */
  function PairHere(s: string): (m: Option<Pair>)
    ensures m.Some? ==> |m.value.rest| < |s|
  {
    var n := Run(s, KeyChar);
    var t := AfterSpace(s[n..]);
    if n == 0 || t == "" || t[0] != '=' then None else ValueHere(s[..n], AfterSpace(t[1..]))
  }

  function LowerCase(s: string): string
  {
    if s == "" then "" else [Lower(s[0])] + LowerCase(s[1..])
  }

  /** Every pair in the text, from left to right; a later one replaces an earlier one. */
  function Params(s: string): map<string, string>
    decreases |s|
  {
    if s == "" then map[]
    else
      var m := PairHere(s);
      if m.None? then Params(s[1..])
      else map[LowerCase(m.value.key) := m.value.value] + Params(m.value.rest)
  }

  function Get(m: map<string, string>, key: string): Option<string>
  {
    if key in m then Some(m[key]) else None
  }

  /** `parse_challenge`; None for a ValueError. */
  function ParseChallenge(header: string): Option<Challenge>
  {
    var stripped := SipRoutes.Strip(header);
    if !("digest" <= LowerCase(stripped)) || |stripped| < 6 then None
    else
      var m := Params(stripped[6..]);
      if "realm" !in m || "nonce" !in m then None
      else Some(Challenge(m["realm"], m["nonce"], Get(m, "qop"), Get(m, "opaque"),
                          if "algorithm" in m then Upper(m["algorithm"]) else "MD5"))
  }

  // ---------- writing parameters ----------

  datatype Part = Part(key: string, value: string, quoted: bool)

  function Text(p: Part): string
  {
    if p.quoted then p.key + "=\"" + p.value + "\"" else p.key + "=" + p.value
  }

  function CommaJoin(ps: seq<Part>): string
  {
    if ps == [] then "" else if |ps| == 1 then Text(ps[0]) else Text(ps[0]) + ", " + CommaJoin(ps[1..])
  }

  function HexDigit(d: nat): char
    requires d < 16
  {
    "0123456789abcdef"[d]
  }

  function Hex(n: nat): (s: string)
    ensures s != "" && forall k :: 0 <= k < |s| ==> KeyChar(s[k])
  {
    (if n < 16 then "" else Hex(n / 16)) + [HexDigit(n % 16)]
  }

  function Padded(s: string): string
    decreases 8 - |s|
  {
    if |s| >= 8 then s else Padded("0" + s)
  }

  /** `str.split(",")` */
  function SplitAtCommas(s: string): seq<string>
    decreases |s|
  {
    var k := SipRoutes.Find(s, ',', 0);
    if k.None? then [s] else [s[..k.value]] + SplitAtCommas(s[k.value + 1..])
  }

  function StripAll(ss: seq<string>): (r: seq<string>)
    ensures |r| == |ss| && forall i :: 0 <= i < |r| ==> r[i] == SipRoutes.Strip(ss[i])
  {
    seq(|ss|, i requires 0 <= i < |ss| => SipRoutes.Strip(ss[i]))
  }

  predicate OffersAuth(qop: string) { "auth" in StripAll(SplitAtCommas(qop)) }

  function NonEmpty(s: Option<string>): bool { s.Some? && s.value != "" }

  datatype Account = Account(username: string, password: string, verb: string, uri: string, cnonce: string, nc: nat)

  /** The proof of the password (section 3.4.1 of RFC 7616, section 3.2.2.1 of RFC 2617). */
  function ResponseOf(md5: string -> string, c: Challenge, a: Account): string
  {
    var ha1 := md5(a.username + ":" + c.realm + ":" + a.password);
    var ha2 := md5(a.verb + ":" + a.uri);
    if NonEmpty(c.qop) then
      md5(ha1 + ":" + c.nonce + ":" + Padded(Hex(a.nc)) + ":" + a.cnonce + ":" + "auth" + ":" + ha2)
    else md5(ha1 + ":" + c.nonce + ":" + ha2)
  }

  /** The challenges that can be answered. */
  predicate Answerable(c: Challenge) { c.algorithm == "MD5" && (NonEmpty(c.qop) ==> OffersAuth(c.qop.value)) }

  datatype Key = Username | Realm | Nonce | Uri | Algorithm | Qop | Nc | Cnonce | Response | Opaque

  function Name(k: Key): string
  {
    match k
    case Username => "username" case Realm => "realm" case Nonce => "nonce" case Uri => "uri"
    case Algorithm => "algorithm" case Qop => "qop" case Nc => "nc" case Cnonce => "cnonce"
    case Response => "response" case Opaque => "opaque"
  }

  /** The parameters of an answer, in order. */
  function Keys(c: Challenge): seq<Key>
  {
    [Username, Realm, Nonce, Uri, Algorithm] + (if NonEmpty(c.qop) then [Qop, Nc, Cnonce] else [])
    + [Response] + (if NonEmpty(c.opaque_) then [Opaque] else [])
  }

  function PartOf(md5: string -> string, c: Challenge, a: Account, k: Key): Part
  {
    match k
    case Username => Part(Name(k), a.username, true)
    case Realm => Part(Name(k), c.realm, true)
    case Nonce => Part(Name(k), c.nonce, true)
    case Uri => Part(Name(k), a.uri, true)
    case Algorithm => Part(Name(k), c.algorithm, false)
    case Qop => Part(Name(k), "auth", false)
    case Nc => Part(Name(k), Padded(Hex(a.nc)), false)
    case Cnonce => Part(Name(k), a.cnonce, true)
    case Response => Part(Name(k), ResponseOf(md5, c, a), true)
    case Opaque => Part(Name(k), if c.opaque_.Some? then c.opaque_.value else "", true)
  }

  function Parts(md5: string -> string, c: Challenge, a: Account): (ps: seq<Part>)
    ensures |ps| == |Keys(c)| && forall i :: 0 <= i < |ps| ==> ps[i] == PartOf(md5, c, a, Keys(c)[i])
  {
    seq(|Keys(c)|, i requires 0 <= i < |Keys(c)| => PartOf(md5, c, a, Keys(c)[i]))
  }

  lemma PartsAre(md5: string -> string, c: Challenge, a: Account)
    ensures Parts(md5, c, a)
      == [Part("username", a.username, true), Part("realm", c.realm, true), Part("nonce", c.nonce, true),
          Part("uri", a.uri, true), Part("algorithm", c.algorithm, false)]
        + (if NonEmpty(c.qop) then
             [Part("qop", "auth", false), Part("nc", Padded(Hex(a.nc)), false), Part("cnonce", a.cnonce, true)] else [])
        + [Part("response", ResponseOf(md5, c, a), true)]
        + (if NonEmpty(c.opaque_) then [Part("opaque", c.opaque_.value, true)] else [])
  {
    hide Hex, Padded, ResponseOf;
  }

  /** `build_authorization`; None for a ValueError. */
  method BuildAuthorization(md5: string -> string, c: Challenge, a: Account) returns (r: Option<string>)
    ensures r.Some? <==> Answerable(c)
    ensures r.Some? ==> r.value == "Digest " + CommaJoin(Parts(md5, c, a))
  {
    hide Hex, Padded, SplitAtCommas, StripAll, CommaJoin, Parts, Keys, PartOf, Name;
    if c.algorithm != "MD5" { return None; }
    var ha1 := md5(a.username + ":" + c.realm + ":" + a.password);
    var ha2 := md5(a.verb + ":" + a.uri);
    var parts := [Part("username", a.username, true), Part("realm", c.realm, true), Part("nonce", c.nonce, true),
                  Part("uri", a.uri, true), Part("algorithm", c.algorithm, false)];
    if NonEmpty(c.qop) {
      if "auth" !in StripAll(SplitAtCommas(c.qop.value)) { return None; }
      var nc := Padded(Hex(a.nc));
      var response := md5(ha1 + ":" + c.nonce + ":" + nc + ":" + a.cnonce + ":" + "auth" + ":" + ha2);
      parts := parts + ([Part("qop", "auth", false), Part("nc", nc, false), Part("cnonce", a.cnonce, true)]
                        + [Part("response", response, true)]);
    } else {
      var response := md5(ha1 + ":" + c.nonce + ":" + ha2);
      parts := parts + [Part("response", response, true)];
    }
    if NonEmpty(c.opaque_) { parts := parts + [Part("opaque", c.opaque_.value, true)]; }
    PartsAre(md5, c, a);
    assert parts == Parts(md5, c, a);
    return Some("Digest " + CommaJoin(parts));
  }

  // ---------- what was written reads back ----------

  predicate Keyword(s: string) { s != "" && forall k :: 0 <= k < |s| ==> KeyChar(s[k]) }

  predicate Readable(p: Part)
  {
    && Keyword(p.key)
    && if p.quoted then '"' !in p.value
       else p.value != "" && p.value[0] != '"' && forall k :: 0 <= k < |p.value| ==> ValueChar(p.value[k])
  }

  function PartsMap(ps: seq<Part>): map<string, string>
  {
    if ps == [] then map[] else map[LowerCase(ps[0].key) := ps[0].value] + PartsMap(ps[1..])
  }

  lemma {:induction false} RunIs(s: string, p: char -> bool, n: nat)
    requires n <= |s| && (forall k :: 0 <= k < n ==> p(s[k])) && (n < |s| ==> !p(s[n]))
    ensures Run(s, p) == n
  {
    if n > 0 { RunIs(s[1..], p, n - 1); }
  }

  /** A key ends at its equals sign. */
  lemma KeyEnds(key: string, t: string)
    requires Keyword(key)
    ensures var s := key + "=" + t;
      PairHere(s) == ValueHere(key, AfterSpace(t))
  {
    var s := key + "=" + t;
    RunIs(s, KeyChar, |key|);
    assert s[|key|..] == "=" + t && s[..|key|] == key;
    RunIs("=" + t, IsSpace, 0);
    assert ("=" + t)[1..] == t && ("=" + t)[0..] == "=" + t;
  }

  lemma QuotedValue(key: string, v: string, rest: string)
    requires '"' !in v
    ensures ValueHere(key, "\"" + v + "\"" + rest) == Some(Pair(key, v, rest))
  {
    var t := "\"" + v + "\"" + rest;
    var close := 1 + |v|;
    assert t[close] == '"';
    forall k | 1 <= k < close ensures t[k] != '"' { assert t[k] == v[k - 1]; }
    assert SipRoutes.Find(t, '"', 1) == Some(close);
    assert t[1..close] == v && t[close + 1..] == rest;
    hide SipRoutes.Find;
  }

  lemma QuotedText(p: Part, rest: string)
    requires p.quoted
    ensures Text(p) + rest == p.key + "=" + ("\"" + p.value + "\"" + rest)
  {}

  lemma NoSpaceAhead(t: string)
    requires t != "" && t[0] == '"'
    ensures AfterSpace(t) == t
  {
    RunIs(t, IsSpace, 0);
    assert t[0..] == t;
  }

  lemma QuotedReads(p: Part, rest: string)
    requires Readable(p) && p.quoted
    ensures PairHere(Text(p) + rest) == Some(Pair(p.key, p.value, rest))
  {
    assert Keyword(p.key) && '"' !in p.value;
    hide *;
    QuotedText(p, rest);
    KeyEnds(p.key, "\"" + p.value + "\"" + rest);
    NoSpaceAhead("\"" + p.value + "\"" + rest);
    QuotedValue(p.key, p.value, rest);
  }

  lemma PlainReads(p: Part, rest: string)
    requires Readable(p) && !p.quoted && (rest == "" || rest[0] == ',')
    ensures PairHere(Text(p) + rest) == Some(Pair(p.key, p.value, rest))
  {
    var t := p.value + rest;
    assert Text(p) + rest == p.key + "=" + t;
    KeyEnds(p.key, t);
    assert t[0] == p.value[0];
    RunIs(t, IsSpace, 0);
    assert t[0..] == t;
    RunIs(t, ValueChar, |p.value|);
    assert t[..|p.value|] == p.value && t[|p.value|..] == rest;
  }

  lemma SeparatorSkipped(c: char, s: string)
    requires !KeyChar(c)
    ensures Params([c] + s) == Params(s)
  {
    RunIs([c] + s, KeyChar, 0);
    assert ([c] + s)[1..] == s;
  }

  /** What follows the first of some joined parts. */
  function Tail(ps: seq<Part>): string
    requires ps != []
  {
    if |ps| == 1 then "" else ", " + CommaJoin(ps[1..])
  }

  lemma FirstReads(ps: seq<Part>)
    requires ps != [] && Readable(ps[0])
    ensures Params(CommaJoin(ps)) == map[LowerCase(ps[0].key) := ps[0].value] + Params(Tail(ps))
  {
    TailStartsWithComma(ps);
    hide *;
    var p, tail := ps[0], Tail(ps);
    if p.quoted { QuotedReads(p, tail); } else { PlainReads(p, tail); }
    PairReads(CommaJoin(ps), Pair(p.key, p.value, tail));
  }

  lemma TailStartsWithComma(ps: seq<Part>)
    requires ps != []
    ensures CommaJoin(ps) == Text(ps[0]) + Tail(ps) && (Tail(ps) == "" || Tail(ps)[0] == ',')
  {
    hide Text;
  }

  lemma PairReads(s: string, m: Pair)
    requires PairHere(s) == Some(m)
    ensures Params(s) == map[LowerCase(m.key) := m.value] + Params(m.rest)
  {}

  lemma TailReads(ps: seq<Part>)
    requires |ps| > 1
    ensures Params(Tail(ps)) == Params(CommaJoin(ps[1..]))
  {
    var t := CommaJoin(ps[1..]);
    assert Tail(ps) == [','] + ([' '] + t);
    hide *;
    NoKeyChars();
    SeparatorSkipped(',', [' '] + t);
    SeparatorSkipped(' ', t);
  }

  lemma NoKeyChars()
    ensures !KeyChar(',') && !KeyChar(' ')
  {}

  /** MAIN RESULT: any list of parameters, written with quotes where marked and joined with commas,
      reads back as those parameters. */
  lemma {:induction false} PartsReadBack(ps: seq<Part>)
    requires forall i :: 0 <= i < |ps| ==> Readable(ps[i])
    ensures Params(CommaJoin(ps)) == PartsMap(ps)
    decreases |ps|
  {
    if ps != [] {
      FirstReads(ps);
      hide Readable;
      PartsReadBack(ps[1..]);
      if |ps| > 1 {
        TailReads(ps);
      } else {
        assert CommaJoin(ps[1..]) == "" == Tail(ps);
      }
      hide CommaJoin, Params, Tail;
    }
  }

  predicate QuoteFree(s: string) { '"' !in s }

  predicate QuoteFreeChallenge(c: Challenge)
  {
    QuoteFree(c.realm) && QuoteFree(c.nonce) && (c.opaque_.Some? ==> QuoteFree(c.opaque_.value))
  }

  predicate QuoteFreeAccount(a: Account) { QuoteFree(a.username) && QuoteFree(a.uri) && QuoteFree(a.cnonce) }

  lemma KeywordsAre(k: Key)
    ensures Keyword(Name(k)) && LowerCase(Name(k)) == Name(k)
  {
    hide LowerCase;
    LowerStays(Name(k));
  }

  lemma NamesDiffer(k: Key, l: Key)
    requires k != l
    ensures Name(k) != Name(l)
  {
    assert |Name(k)| != |Name(l)| || Name(k)[0] != Name(l)[0];
  }

  lemma {:induction false} LowerStays(s: string)
    requires forall k :: 0 <= k < |s| ==> !('A' <= s[k] <= 'Z')
    ensures LowerCase(s) == s
  {
    if s != "" { LowerStays(s[1..]); }
  }

  lemma {:induction false} PaddedIsPlain(s: string)
    requires s != "" && forall k :: 0 <= k < |s| ==> KeyChar(s[k])
    ensures Padded(s) != "" && Padded(s)[0] != '"' && forall k :: 0 <= k < |Padded(s)| ==> ValueChar(Padded(s)[k])
    decreases 8 - |s|
  {
    if |s| < 8 { PaddedIsPlain("0" + s); }
  }

  lemma PartIsReadable(md5: string -> string, c: Challenge, a: Account, k: Key)
    requires QuoteFreeChallenge(c) && QuoteFreeAccount(a) && c.algorithm == "MD5" && QuoteFree(ResponseOf(md5, c, a))
    ensures Readable(PartOf(md5, c, a, k))
  {
    KeywordsAre(k);
    PaddedIsPlain(Hex(a.nc));
    hide Keyword, KeyChar, Padded, Hex, ResponseOf, Name;
  }

  lemma {:induction false} PartsMapKeys(ps: seq<Part>, key: string)
    requires forall i :: 0 <= i < |ps| ==> LowerCase(ps[i].key) != key
    ensures key !in PartsMap(ps)
    decreases |ps|
  {
    if ps != [] { PartsMapKeys(ps[1..], key); }
  }

  lemma {:induction false} Lookup(ps: seq<Part>, i: nat)
    requires i < |ps| && forall j :: i < j < |ps| ==> LowerCase(ps[j].key) != LowerCase(ps[i].key)
    ensures Get(PartsMap(ps), LowerCase(ps[i].key)) == Some(ps[i].value)
    decreases |ps|
  {
    hide LowerCase;
    if i == 0 {
      PartsMapKeys(ps[1..], LowerCase(ps[0].key));
    } else {
      assert ps[1..][i - 1] == ps[i];
      Lookup(ps[1..], i - 1);
    }
  }

  lemma NamesApart(k: Key)
    ensures forall l: Key :: LowerCase(Name(l)) == Name(l) && (k != l ==> Name(k) != Name(l))
  {
    hide *;
    forall l: Key ensures LowerCase(Name(l)) == Name(l) && (k != l ==> Name(k) != Name(l)) {
      KeywordsAre(l);
      if k != l { NamesDiffer(k, l); }
    }
  }

  lemma PartKey(md5: string -> string, c: Challenge, a: Account, k: Key)
    ensures PartOf(md5, c, a, k).key == Name(k)
  {}

  /** A parameter of an answer is found under its name, and only if it is there. */
  lemma PartsHold(md5: string -> string, c: Challenge, a: Account, k: Key)
    ensures Get(PartsMap(Parts(md5, c, a)), Name(k)) == if k in Keys(c) then Some(PartOf(md5, c, a, k).value) else None
  {
    hide Name, PartOf, LowerCase, Keys, Parts, PartsMap;
    var ps, ks := Parts(md5, c, a), Keys(c);
    NamesApart(k);
    forall i | 0 <= i < |ps| ensures ps[i].key == Name(ks[i]) { PartKey(md5, c, a, ks[i]); }
    if k in ks {
      var i :| 0 <= i < |ks| && ks[i] == k;
      KeysOnce(c, i);
      Lookup(ps, i);
    } else {
      PartsMapKeys(ps, Name(k));
    }
  }

  lemma KeysOnce(c: Challenge, i: nat)
    requires i < |Keys(c)|
    ensures forall j :: i < j < |Keys(c)| ==> Keys(c)[j] != Keys(c)[i]
  {}

  // ---------- the whole header ----------

  lemma {:induction false} LowerCaseAt(s: string)
    ensures |LowerCase(s)| == |s| && forall k :: 0 <= k < |s| ==> LowerCase(s)[k] == Lower(s[k])
  {
    if s != "" { LowerCaseAt(s[1..]); }
  }

  lemma NothingToStrip(s: string)
    requires s != "" && !IsSpace(s[0]) && !IsSpace(s[|s| - 1])
    ensures SipRoutes.Strip(s) == s
  {}

  lemma {:induction false} EndsWithQuote(ps: seq<Part>)
    requires ps != [] && ps[|ps| - 1].quoted
    ensures CommaJoin(ps) != "" && CommaJoin(ps)[|CommaJoin(ps)| - 1] == '"'
    decreases |ps|
  {
    if |ps| > 1 { EndsWithQuote(ps[1..]); }
  }

  lemma DigestPrefix(h: string, body: string)
    requires h == "Digest " + body
    ensures "digest" <= LowerCase(h) && h[6..] == [' '] + body
  {
    LowerCaseAt(h);
    hide LowerCase;
    assert LowerCase(h)[..6] == "digest";
  }

  /** A header that says Digest and then some parameters. */
  lemma DigestHeader(body: string)
    requires body != "" && body[|body| - 1] == '"'
    ensures var h := "Digest " + body;
      SipRoutes.Strip(h) == h && "digest" <= LowerCase(h) && Params(h[6..]) == Params(body)
  {
    var h := "Digest " + body;
    hide LowerCase, SipRoutes.Strip, Params;
    NothingToStrip(h);
    DigestPrefix(h, body);
    hide IsSpace;
    SeparatorSkipped(' ', body);
  }

  lemma Reads(h: string, m: map<string, string>)
    requires SipRoutes.Strip(h) == h && "digest" <= LowerCase(h) && |h| >= 6 && Params(h[6..]) == m
    requires Get(m, "realm").Some? && Get(m, "nonce").Some? && Get(m, "algorithm") == Some("MD5")
    ensures ParseChallenge(h)
      == Some(Challenge(Get(m, "realm").value, Get(m, "nonce").value, Get(m, "qop"), Get(m, "opaque"), "MD5"))
  {
    hide SipRoutes.Strip, LowerCase, Params, Upper;
    UpperMd5();
  }

  lemma UpperMd5()
    ensures Upper("MD5") == "MD5"
  {}

  lemma AnswerParams(md5: string -> string, c: Challenge, a: Account)
    requires Answerable(c) && QuoteFreeChallenge(c) && QuoteFreeAccount(a) && QuoteFree(ResponseOf(md5, c, a))
    ensures var body := CommaJoin(Parts(md5, c, a));
      Params(body) == PartsMap(Parts(md5, c, a)) && body != "" && body[|body| - 1] == '"'
  {
    hide Readable, CommaJoin, Params, PartsMap, ResponseOf, OffersAuth, Padded, Hex, Name;
    var ps := Parts(md5, c, a);
    forall i | 0 <= i < |ps| ensures Readable(ps[i]) { PartIsReadable(md5, c, a, Keys(c)[i]); }
    PartsReadBack(ps);
    EndsWithQuote(ps);
  }

  lemma AnswerAlwaysHolds(md5: string -> string, c: Challenge, a: Account)
    ensures var m := PartsMap(Parts(md5, c, a));
      && Get(m, "username") == Some(a.username) && Get(m, "uri") == Some(a.uri)
      && Get(m, "response") == Some(ResponseOf(md5, c, a))
      && Get(m, "realm") == Some(c.realm) && Get(m, "nonce") == Some(c.nonce) && Get(m, "algorithm") == Some(c.algorithm)
  {
    hide Parts, PartsMap, ResponseOf, Padded, Hex, Get, NonEmpty;
    PartsHold(md5, c, a, Username);
    PartsHold(md5, c, a, Realm);
    PartsHold(md5, c, a, Nonce);
    PartsHold(md5, c, a, Uri);
    PartsHold(md5, c, a, Algorithm);
    PartsHold(md5, c, a, Response);
  }

  lemma AnswerMayHold(md5: string -> string, c: Challenge, a: Account)
    ensures var m := PartsMap(Parts(md5, c, a));
      && Get(m, "qop") == (if NonEmpty(c.qop) then Some("auth") else None)
      && Get(m, "opaque") == (if NonEmpty(c.opaque_) then c.opaque_ else None)
  {
    hide Parts, PartsMap, ResponseOf, Padded, Hex, Get;
    PartsHold(md5, c, a, Qop);
    PartsHold(md5, c, a, Opaque);
  }

  /** MAIN RESULT: parsing the answer to a challenge gives back the challenge's realm, nonce and
      opaque, for values without quotes; and the server finds in it the user, the URI and the
      response that RFC 7616 prescribes. */
  lemma AnswerReadsBack(md5: string -> string, c: Challenge, a: Account)
    requires Answerable(c) && QuoteFreeChallenge(c) && QuoteFreeAccount(a) && QuoteFree(ResponseOf(md5, c, a))
    ensures var body := CommaJoin(Parts(md5, c, a));
      && ParseChallenge("Digest " + body) == Some(Challenge(c.realm, c.nonce, if NonEmpty(c.qop) then Some("auth") else None,
                                             if NonEmpty(c.opaque_) then c.opaque_ else None, "MD5"))
      && Get(Params(body), "username") == Some(a.username) && Get(Params(body), "uri") == Some(a.uri)
      && Get(Params(body), "response") == Some(ResponseOf(md5, c, a))
  {
    assert c.algorithm == "MD5";
    hide *;
    var body := CommaJoin(Parts(md5, c, a));
    AnswerParams(md5, c, a);
    AnswerAlwaysHolds(md5, c, a);
    AnswerMayHold(md5, c, a);
    DigestHeader(body);
    Reads("Digest " + body, Params(body));
  }
}
