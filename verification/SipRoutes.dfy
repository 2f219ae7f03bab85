/** Route lists and contact addresses (custom_components/intratone/sip_client.py,
    `_split_route_values`, `_extract_record_routes`, `_extract_uri_from_contact`). */
module SipRoutes {
  import opened Basics
  import opened SipFraming

  // ---------- splitting at commas outside angle brackets ----------

  /** Bracket depth after one more character. A stray `>` does not count. */
  function DepthAfter(d: nat, c: char): nat
  {
    if c == '<' then d + 1 else if c == '>' && d > 0 then d - 1 else d
  }

  /** The first comma at depth 0 at or after i, or the end of the line. */
  function NextComma(s: string, i: nat, d: nat): (k: nat)
    requires i <= |s|
    ensures i <= k <= |s|
    ensures k < |s| ==> s[k] == ','
    decreases |s| - i
  {
    if i == |s| || (s[i] == ',' && d == 0) then i else NextComma(s, i + 1, DepthAfter(d, s[i]))
  }

  function Depth(s: string, i: nat, d: nat): nat
    requires i <= |s|
    decreases |s| - i
  {
    if i == |s| then d else Depth(s, i + 1, DepthAfter(d, s[i]))
  }

  function SplitAt(s: string, start: nat): (parts: seq<string>)
    requires start <= |s|
    ensures parts != []
    decreases |s| - start
  {
    var k := NextComma(s, start, 0);
    if k == |s| then [s[start..]] else [s[start..k]] + SplitAt(s, k + 1)
  }

  function Split(s: string): seq<string> { SplitAt(s, 0) }

  lemma SplitAtComma(s: string, start: nat, k: nat)
    requires start <= k < |s| && NextComma(s, start, 0) == k
    ensures SplitAt(s, start) == [s[start..k]] + SplitAt(s, k + 1)
  {
    hide NextComma;
  }

  lemma SplitAtEnd(s: string, start: nat)
    requires start <= |s| && NextComma(s, start, 0) == |s|
    ensures SplitAt(s, start) == [s[start..]]
  {
    hide NextComma;
  }

  /** `_split_route_values` */
  method SplitRouteValues(line: string) returns (out: seq<string>)
    ensures out == Split(line)
  {
    hide SplitAt;
    out := [];
    var depth, start := 0, 0;
    for i := 0 to |line|
      invariant 0 <= depth && 0 <= start <= i
      invariant NextComma(line, start, 0) == NextComma(line, i, depth)
      invariant Split(line) == out + SplitAt(line, start)
    {
      var ch := line[i];
      if ch == '<' {
        depth := depth + 1;
      } else if ch == '>' {
        depth := if depth - 1 > 0 then depth - 1 else 0;
      } else if ch == ',' && depth == 0 {
        SplitAtComma(line, start, i);
        assert out + ([line[start..i]] + SplitAt(line, i + 1)) == (out + [line[start..i]]) + SplitAt(line, i + 1);
        out := out + [line[start..i]];
        start := i + 1;
      }
    }
    SplitAtEnd(line, start);
    out := out + [line[start..]];
  }

  function Join(parts: seq<string>): string
    requires parts != []
  {
    if |parts| == 1 then parts[0] else parts[0] + "," + Join(parts[1..])
  }

  /** Holds no comma outside brackets. */
  predicate Entry(s: string) { NextComma(s, 0, 0) == |s| }

  /** Every `<` in it is closed again. */
  predicate Closed(s: string) { Depth(s, 0, 0) == 0 }

  lemma {:induction false} NextCommaLocal(a: string, b: string, i: nat, j: nat, d: nat)
    requires i <= |a| && j <= |b| && a[i..] == b[j..]
    ensures NextComma(a, i, d) - i == NextComma(b, j, d) - j
    decreases |a| - i
  {
    if i < |a| {
      assert a[i] == a[i..][0] == b[j..][0] == b[j];
      assert a[i + 1..] == a[i..][1..] == b[j..][1..] == b[j + 1..];
      NextCommaLocal(a, b, i + 1, j + 1, DepthAfter(d, a[i]));
    } else {
      assert |b[j..]| == 0;
    }
  }

  lemma {:induction false} SplitAtLocal(a: string, b: string, i: nat, j: nat)
    requires i <= |a| && j <= |b| && a[i..] == b[j..]
    ensures SplitAt(a, i) == SplitAt(b, j)
    decreases |a| - i
  {
    NextCommaLocal(a, b, i, j, 0);
    hide NextComma, SplitAt;
    var k, l := NextComma(a, i, 0), NextComma(b, j, 0);
    assert |a[i..]| == |b[j..]|;
    if k < |a| {
      SlicesAgree(a, b, i, j, k - i);
      SplitAtLocal(a, b, k + 1, l + 1);
      SplitAtCommas(a, b, i, j, k, l);
    } else {
      SplitAtEnd(a, i);
      SplitAtEnd(b, j);
    }
  }

  lemma SplitAtCommas(a: string, b: string, i: nat, j: nat, k: nat, l: nat)
    requires i <= k < |a| && j <= l < |b| && k == NextComma(a, i, 0) && l == NextComma(b, j, 0)
    requires a[i..k] == b[j..l] && SplitAt(a, k + 1) == SplitAt(b, l + 1)
    ensures SplitAt(a, i) == SplitAt(b, j)
  {
    hide NextComma, SplitAt;
    SplitAtComma(a, i, k);
    SplitAtComma(b, j, l);
  }

  lemma SlicesAgree(a: string, b: string, i: nat, j: nat, n: nat)
    requires i + n < |a| && j + n < |b| && a[i..] == b[j..]
    ensures a[i..i + n] == b[j..j + n] && a[i + n + 1..] == b[j + n + 1..]
  {
    assert a[i..i + n] == a[i..][..n] && b[j..j + n] == b[j..][..n];
    assert a[i + n + 1..] == a[i..][n + 1..] && b[j + n + 1..] == b[j..][n + 1..];
  }

  /** Joining the parts gives the line back. */
  lemma {:induction false} JoinSplit(s: string, start: nat)
    requires start <= |s|
    ensures Join(SplitAt(s, start)) == s[start..]
    decreases |s| - start
  {
    var k := NextComma(s, start, 0);
    if k < |s| {
      JoinSplit(s, k + 1);
      var rest := SplitAt(s, k + 1);
      assert ([s[start..k]] + rest)[1..] == rest;
      assert s[start..] == s[start..k] + "," + s[k + 1..];
    }
  }

  lemma {:induction false} DepthAppend(a: string, b: string, i: nat, d: nat)
    requires i <= |a|
    ensures Depth(a + b, i, d) == Depth(b, 0, Depth(a, i, d))
    decreases |a| - i
  {
    if i < |a| {
      assert (a + b)[i] == a[i];
      DepthAppend(a, b, i + 1, DepthAfter(d, a[i]));
    } else {
      DepthLocal(a + b, b, i, 0, d);
    }
  }

  lemma {:induction false} DepthLocal(a: string, b: string, i: nat, j: nat, d: nat)
    requires i <= |a| && j <= |b| && a[i..] == b[j..]
    ensures Depth(a, i, d) == Depth(b, j, d)
    decreases |a| - i
  {
    if i < |a| {
      assert a[i] == a[i..][0] == b[j..][0] == b[j];
      assert a[i + 1..] == a[i..][1..] == b[j..][1..] == b[j + 1..];
      DepthLocal(a, b, i + 1, j + 1, DepthAfter(d, a[i]));
    } else {
      assert |b[j..]| == 0;
    }
  }

  /** A comma at the end of some text, seen from inside the text. */
  lemma {:induction false} NextCommaAppend(a: string, b: string, i: nat, d: nat)
    requires i <= |a|
    ensures NextComma(a, i, d) < |a| ==> NextComma(a + "," + b, i, d) == NextComma(a, i, d)
    ensures NextComma(a, i, d) == |a| ==>
      NextComma(a + "," + b, i, d) == NextComma(a + "," + b, |a|, Depth(a, i, d))
    decreases |a| - i
  {
    if i < |a| {
      assert (a + "," + b)[i] == a[i];
      if !(a[i] == ',' && d == 0) { NextCommaAppend(a, b, i + 1, DepthAfter(d, a[i])); }
    }
  }

  /** How many parts there are: one more than commas outside brackets. */
  function OpenCommas(s: string, i: nat, d: nat): nat
    requires i <= |s|
    decreases |s| - i
  {
    if i == |s| then 0
    else (if s[i] == ',' && d == 0 then 1 else 0) + OpenCommas(s, i + 1, DepthAfter(d, s[i]))
  }

  lemma {:induction false} OpenCommasFrom(s: string, i: nat, d: nat)
    requires i <= |s|
    ensures var k := NextComma(s, i, d);
      OpenCommas(s, i, d) == if k == |s| then 0 else 1 + OpenCommas(s, k + 1, 0)
    decreases |s| - i
  {
    if i < |s| && !(s[i] == ',' && d == 0) { OpenCommasFrom(s, i + 1, DepthAfter(d, s[i])); }
  }

  lemma {:induction false} CountParts(s: string, start: nat)
    requires start <= |s|
    ensures |SplitAt(s, start)| == 1 + OpenCommas(s, start, 0)
    decreases |s| - start
  {
    OpenCommasFrom(s, start, 0);
    if NextComma(s, start, 0) < |s| { CountParts(s, NextComma(s, start, 0) + 1); }
  }

  lemma {:induction false} DeeperHidesCommas(s: string, i: nat, d: nat, e: nat)
    requires i <= |s| && d <= e
    ensures OpenCommas(s, i, e) <= OpenCommas(s, i, d)
    decreases |s| - i
  {
    if i < |s| { DeeperHidesCommas(s, i + 1, DepthAfter(d, s[i]), DepthAfter(e, s[i])); }
  }

  lemma {:induction false} OpenCommasAppend(a: string, b: string, i: nat, d: nat)
    requires i <= |a|
    ensures OpenCommas(a + b, i, d) == OpenCommas(a, i, d) + OpenCommas(b, 0, Depth(a, i, d))
    decreases |a| - i
  {
    if i < |a| {
      assert (a + b)[i] == a[i];
      OpenCommasAppend(a, b, i + 1, DepthAfter(d, a[i]));
    } else {
      OpenCommasLocal(a + b, b, i, 0, d);
    }
  }

  lemma {:induction false} OpenCommasLocal(a: string, b: string, i: nat, j: nat, d: nat)
    requires i <= |a| && j <= |b| && a[i..] == b[j..]
    ensures OpenCommas(a, i, d) == OpenCommas(b, j, d)
    decreases |a| - i
  {
    if i < |a| {
      assert a[i] == a[i..][0] == b[j..][0] == b[j];
      assert a[i + 1..] == a[i..][1..] == b[j..][1..] == b[j + 1..];
      OpenCommasLocal(a, b, i + 1, j + 1, DepthAfter(d, a[i]));
    } else {
      assert |b[j..]| == 0;
    }
  }

  lemma {:induction false} SplitClosed(a: string, b: string, i: nat)
    requires i <= |a| && Depth(a, i, 0) == 0
    ensures SplitAt(a + "," + b, i) == SplitAt(a, i) + Split(b)
    decreases |a| - i
  {
    hide *;
    NextCommaAppend(a, b, i, 0);
    if NextComma(a, i, 0) < |a| {
      DepthAtComma(a, i, 0);
      SplitClosed(a, b, NextComma(a, i, 0) + 1);
      SplitFirst(a, b, i, NextComma(a, i, 0));
    } else {
      SplitLast(a, b, i);
    }
  }

  lemma SplitFirst(a: string, b: string, i: nat, k: nat)
    requires i <= k < |a| && k == NextComma(a, i, 0) && NextComma(a + "," + b, i, 0) == k
    requires SplitAt(a + "," + b, k + 1) == SplitAt(a, k + 1) + Split(b)
    ensures SplitAt(a + "," + b, i) == SplitAt(a, i) + Split(b)
  {
    hide NextComma, Split;
    assert (a + "," + b)[i..k] == a[i..k];
    assert [a[i..k]] + (SplitAt(a, k + 1) + Split(b)) == ([a[i..k]] + SplitAt(a, k + 1)) + Split(b);
  }

  lemma SplitLast(a: string, b: string, i: nat)
    requires i <= |a| && Depth(a, i, 0) == 0 && NextComma(a, i, 0) == |a|
    ensures SplitAt(a + "," + b, i) == SplitAt(a, i) + Split(b)
  {
    NextCommaAppend(a, b, i, 0);
    var s := a + "," + b;
    assert s[i..|a|] == a[i..] && s[|a| + 1..] == b[0..] && s[|a|] == ',';
    SplitAtLocal(s, b, |a| + 1, 0);
    hide Depth;
    SplitLastParts(s, a, b, i);
  }

  lemma SplitLastParts(s: string, a: string, b: string, i: nat)
    requires i <= |a| < |s| && s[|a|] == ',' && NextComma(s, i, 0) == NextComma(s, |a|, 0)
    requires NextComma(a, i, 0) == |a| && s[i..|a|] == a[i..] && SplitAt(s, |a| + 1) == SplitAt(b, 0)
    ensures SplitAt(s, i) == SplitAt(a, i) + Split(b)
  {
    assert NextComma(s, i, 0) == |a|;
    hide NextComma, SplitAt;
    SplitAtEnd(a, i);
    SplitAtComma(s, i, |a|);
  }

  lemma {:induction false} DepthAtComma(s: string, i: nat, d: nat)
    requires i <= |s| && NextComma(s, i, d) < |s|
    ensures Depth(s, i, d) == Depth(s, NextComma(s, i, d) + 1, 0)
    decreases |s| - i
  {
    if !(s[i] == ',' && d == 0) { DepthAtComma(s, i + 1, DepthAfter(d, s[i])); }
  }

  /** MAIN RESULT: two lines joined with a comma split like the lines do, if and only if the first
      closes its brackets. */
  lemma SplitDistributes(a: string, b: string)
    ensures Split(a + "," + b) == Split(a) + Split(b) <==> Closed(a)
  {
    if Closed(a) {
      SplitClosed(a, b, 0);
    } else {
      var d := Depth(a, 0, 0);
      CountParts(a + "," + b, 0);
      CountParts(a, 0);
      CountParts(b, 0);
      assert a + "," + b == a + ("," + b);
      OpenCommasAppend(a, "," + b, 0, 0);
      OpenCommasLocal("," + b, b, 1, 0, d);
      DeeperHidesCommas(b, 0, 0, d);
      assert |Split(a + "," + b)| < |Split(a) + Split(b)|;
    }
  }

  lemma {:induction false} SplitJoin(parts: seq<string>)
    requires parts != [] && forall i :: 0 <= i < |parts| ==> Entry(parts[i])
    requires forall i :: 0 <= i < |parts| - 1 ==> Closed(parts[i])
    ensures Split(Join(parts)) == parts
    decreases |parts|
  {
    hide Closed;
    assert Entry(parts[0]) && Split(parts[0]) == [parts[0]];
    if |parts| > 1 {
      assert Closed(parts[0]);
      SplitDistributes(parts[0], Join(parts[1..]));
      forall i | 0 <= i < |parts[1..]| - 1 ensures Closed(parts[1..][i]) { assert Closed(parts[i + 1]); }
      SplitJoin(parts[1..]);
      assert [parts[0]] + parts[1..] == parts;
    }
  }

  lemma {:induction false} PartsAreEntries(s: string, start: nat, i: nat)
    requires start <= |s| && i < |SplitAt(s, start)|
    ensures Entry(SplitAt(s, start)[i])
    ensures i < |SplitAt(s, start)| - 1 ==> Closed(SplitAt(s, start)[i])
    decreases |s| - start
  {
    var k := NextComma(s, start, 0);
    if i > 0 {
      PartsAreEntries(s, k + 1, i - 1);
    } else {
      assert SplitAt(s, start)[0] == s[start..k];
      PrefixIsEntry(s, start, start, 0);
    }
  }

  lemma {:induction false} PrefixIsEntry(s: string, start: nat, i: nat, d: nat)
    requires start <= i <= |s|
    ensures var k, p := NextComma(s, i, d), s[start..NextComma(s, i, d)];
      && NextComma(p, i - start, d) == |p|
      && (k < |s| ==> Depth(p, i - start, d) == 0)
    decreases |s| - i
  {
    var k := NextComma(s, i, d);
    if i < k {
      PrefixIsEntry(s, start, i + 1, DepthAfter(d, s[i]));
      assert s[start..k][i - start] == s[i];
    }
  }

  /** MAIN RESULT: splitting undoes joining if and only if no entry holds a comma outside brackets
      and all but the last close their brackets; joining undoes splitting always (`JoinSplit`). */
  lemma SplitUndoesJoin(parts: seq<string>)
    requires parts != []
    ensures Split(Join(parts)) == parts <==>
      (forall i :: 0 <= i < |parts| ==> Entry(parts[i]) && (i < |parts| - 1 ==> Closed(parts[i])))
  {
    hide Entry, Closed;
    if Split(Join(parts)) == parts {
      forall i | 0 <= i < |parts| ensures Entry(parts[i]) && (i < |parts| - 1 ==> Closed(parts[i])) {
        PartsAreEntries(Join(parts), 0, i);
      }
    }
    if forall i :: 0 <= i < |parts| ==> Entry(parts[i]) && (i < |parts| - 1 ==> Closed(parts[i])) { SplitJoin(parts); }
  }

  // ---------- Record-Route ----------

  function DropSpace(s: string): string
  {
    if s != "" && IsSpace(s[0]) then DropSpace(s[1..]) else s
  }

  function DropSpaceEnd(s: string): string
  {
    if s != "" && IsSpace(s[|s| - 1]) then DropSpaceEnd(s[..|s| - 1]) else s
  }

  function Strip(s: string): string { DropSpaceEnd(DropSpace(s)) }

  /** The parts that are not blank, without the white space around them. */
  function Stripped(parts: seq<string>): seq<string>
  {
    if parts == [] then []
    else (if Strip(parts[0]) == "" then [] else [Strip(parts[0])]) + Stripped(parts[1..])
  }

  /** `_extract_record_routes`, from the values of the Record-Route lines. */
  function RecordRoutes(lines: seq<string>): seq<string>
  {
    if lines == [] then [] else Stripped(Split(lines[0])) + RecordRoutes(lines[1..])
  }

  lemma {:induction false} StrippedAppend(a: seq<string>, b: seq<string>)
    ensures Stripped(a + b) == Stripped(a) + Stripped(b)
    decreases |a|
  {
    hide Strip;
    if a == [] {
      assert [] + b == b;
    } else {
      assert (a + b)[1..] == a[1..] + b;
      StrippedAppend(a[1..], b);
    }
  }

  /** MAIN RESULT: as long as all lines but the last close their brackets, routes on separate lines and
      the same routes comma-joined on one line give one list, in the same order. */
  lemma {:induction false} OneLineOrMany(lines: seq<string>)
    requires lines != [] && forall i :: 0 <= i < |lines| - 1 ==> Closed(lines[i])
    ensures RecordRoutes([Join(lines)]) == RecordRoutes(lines)
    decreases |lines|
  {
    hide Closed, Split, Stripped;
    var all := Join(lines);
    assert RecordRoutes([all]) == Stripped(Split(all)) + RecordRoutes([]) == Stripped(Split(all));
    if |lines| > 1 {
      var rest := lines[1..];
      assert Closed(lines[0]);
      SplitDistributes(lines[0], Join(rest));
      StrippedAppend(Split(lines[0]), Split(Join(rest)));
      forall i | 0 <= i < |rest| - 1 ensures Closed(rest[i]) { assert Closed(lines[i + 1]); }
      OneLineOrMany(rest);
      assert RecordRoutes([Join(rest)]) == Stripped(Split(Join(rest))) + RecordRoutes([]) == Stripped(Split(Join(rest)));
    }
  }

  function Reverse<T>(s: seq<T>): (r: seq<T>)
    ensures |r| == |s| && forall i :: 0 <= i < |s| ==> r[i] == s[|s| - 1 - i]
  {
    if s == [] then [] else Reverse(s[1..]) + [s[0]]
  }

  // ---------- Contact ----------

  function Find(s: string, c: char, i: nat): (r: Option<nat>)
    ensures r.Some? ==> i <= r.value < |s| && s[r.value] == c && forall k :: i <= k < r.value ==> s[k] != c
    ensures r.None? ==> forall k :: i <= k < |s| ==> s[k] != c
    decreases |s| - i
  {
    if i >= |s| then None else if s[i] == c then Some(i) else Find(s, c, i + 1)
  }

  /** `_extract_uri_from_contact`; the empty string stands for None. */
  function ContactUri(contact: string): string
  {
    var start := Find(contact, '<', 0);
    var end := if start.Some? then Find(contact, '>', start.value + 1) else None;
    if start.Some? && end.Some? then contact[start.value + 1..end.value]
    else
      var semi := Find(contact, ';', 0);
      Strip(if semi.Some? then contact[..semi.value] else contact)
  }

  /** The URI between the brackets comes back whatever stands before and after them. */
  lemma ContactUriOf(display: string, uri: string, parameters: string)
    requires '<' !in display && '>' !in uri
    ensures ContactUri(display + "<" + uri + ">" + parameters) == uri
  {
    var s := display + "<" + uri + ">" + parameters;
    var start := Find(s, '<', 0);
    assert s[|display|] == '<';
    forall k | 0 <= k < |display| ensures s[k] != '<' { assert s[k] == display[k]; }
    assert start == Some(|display|);
    var close := |display| + 1 + |uri|;
    assert s[close] == '>';
    forall k | |display| + 1 <= k < close ensures s[k] != '>' { assert s[k] == uri[k - |display| - 1]; }
    assert Find(s, '>', |display| + 1) == Some(close);
    assert s[|display| + 1..close] == uri;
  }
}
