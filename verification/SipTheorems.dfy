/** What a regular transcript means, by positions in it, and what single answers of the server do. */
module SipTheorems {
  import opened Basics
  import opened SipMessages
  import opened SipDialog
  import opened SipTranscript
  import SipRoutes

  // ---------- kinds of acts ----------

  /** INVITE, MESSAGE and BYE take a CSeq of their own; ACK and CANCEL repeat one. */
  predicate Numbered(a: Act) { a.Sent? && (a.what.Invite? || a.what.ReInvite? || a.what.Message? || a.what.Bye?) }

  predicate AnyInvite(a: Act) { a.Sent? && (a.what.Invite? || a.what.ReInvite?) }

  predicate Repeats(a: Act) { a.Sent? && (a.what.Ack? || a.what.Cancel?) }

  predicate InDialogRequest(a: Act) { a.Sent? && (a.what.ReInvite? || a.what.Message? || a.what.Bye?) }

  predicate AMessage(a: Act) { a.Sent? && a.what.Message? }

  function CSeqs(tr: seq<Act>): seq<nat>
  {
    if tr == [] then []
    else
      var a := tr[|tr| - 1];
      CSeqs(tr[..|tr| - 1]) + (if Numbered(a) then [a.what.cseq] else [])
  }

  function Count(tr: seq<Act>, initial: bool): nat
  {
    if tr == [] then 0
    else
      var a := tr[|tr| - 1];
      Count(tr[..|tr| - 1], initial) + (if a.Sent? && (if initial then a.what.Invite? else a.what.ReInvite?) then 1 else 0)
  }

  lemma {:induction false} RegularAt(tr: seq<Act>, i: nat)
    requires Regular(tr) && i <= |tr|
    ensures Regular(tr[..i]) && (i < |tr| ==> Allowed(See(tr[..i]), tr[i]) && See(tr[..i + 1]) == Advance(See(tr[..i]), tr[i]))
    decreases |tr|
  {
    hide Allowed, Advance;
    if i == |tr| {
      assert tr[..i] == tr;
    } else {
      var front := tr[..|tr| - 1];
      assert tr[..i] == front[..i];
      if i < |front| {
        RegularAt(front, i);
        assert tr[..i + 1] == front[..i + 1];
      } else {
        assert front[..i] == front && tr[..i + 1] == tr;
      }
    }
  }

  lemma Peel(tr: seq<Act>)
    requires Regular(tr) && tr != []
    ensures var front, a := tr[..|tr| - 1], tr[|tr| - 1];
      Regular(front) && Allowed(See(front), a) && See(tr) == Advance(See(front), a)
    ensures forall k :: 0 <= k < |tr| - 1 ==> tr[k] == tr[..|tr| - 1][k]
  {}

  // ---------- CSeq numbers and counts ----------

  lemma {:induction false} CSeqsCountUp(tr: seq<Act>)
    requires Regular(tr)
    ensures See(tr).last == INITIAL_CSEQ - 1 + |CSeqs(tr)|
    ensures forall k :: 0 <= k < |CSeqs(tr)| ==> CSeqs(tr)[k] == INITIAL_CSEQ + k
    decreases |tr|
  {
    if tr != [] {
      Peel(tr);
      CSeqsCountUp(tr[..|tr| - 1]);
      hide See, Regular;
    }
  }

  lemma {:induction false} CountsAreSeen(tr: seq<Act>)
    requires Regular(tr)
    ensures See(tr).invites == Count(tr, true) <= 2 && See(tr).reinvites == Count(tr, false) <= 1
    decreases |tr|
  {
    if tr != [] {
      Peel(tr);
      CountsAreSeen(tr[..|tr| - 1]);
      hide See, Regular;
    }
  }

  /** MAIN RESULT: the INVITE, MESSAGE and BYE requests of every run carry CSeq 50, 51, 52 and so on
      without a gap; there are at most two initial INVITEs and one re-INVITE. */
  lemma NumbersHaveNoGap(es: seq<Event>, c: Client, k: nat)
    requires Reached(es, c)
    ensures k < |CSeqs(c.trace)| ==> CSeqs(c.trace)[k] == 50 + k
    ensures Count(c.trace, true) <= 2 && Count(c.trace, false) <= 1
  {
    EveryRunIsRegular(es, c);
    CSeqsCountUp(c.trace);
    CountsAreSeen(c.trace);
    hide Reached;
  }

  // ---------- ACK and CANCEL belong to an INVITE ----------

  /** The latest INVITE in a transcript, or -1. */
  function LatestInvite(tr: seq<Act>): (j: int)
    ensures -1 <= j < |tr| && (j >= 0 ==> AnyInvite(tr[j]))
    ensures forall k :: j < k < |tr| ==> !AnyInvite(tr[k])
  {
    if tr == [] then -1
    else if AnyInvite(tr[|tr| - 1]) then |tr| - 1
    else LatestInvite(tr[..|tr| - 1])
  }

  predicate LatestAgrees(tr: seq<Act>, s: Seen)
  {
    var j := LatestInvite(tr);
    && 0 <= j && tr[j].what.branch == s.branch
    && (InProgress(s) ==> s.last == tr[j].what.cseq + s.since)
    && (s.since == 0 <==> forall k :: j < k < |tr| ==> !AMessage(tr[k]))
  }

  lemma AdvanceLatest(s: Seen, a: Act)
    requires Allowed(s, a)
    ensures var t := Advance(s, a);
      && t.phase != Quiet
      && (AnyInvite(a) ==> t.branch == a.what.branch && t.since == 0 && t.last == a.what.cseq)
      && (AMessage(a) ==> t.branch == s.branch && t.since == s.since + 1 && (InProgress(s) && t.last == s.last + 1))
      && (!AnyInvite(a) && !AMessage(a) ==> s.phase != Quiet && t.branch == s.branch && t.since == s.since)
      && (!AnyInvite(a) && !AMessage(a) && InProgress(t) ==> InProgress(s) && t.last == s.last)
  {}

  lemma {:induction false} LatestIsSeen(tr: seq<Act>)
    requires Regular(tr) && tr != []
    ensures LatestAgrees(tr, See(tr)) && See(tr).phase != Quiet
    decreases |tr|
  {
    var front, a := tr[..|tr| - 1], tr[|tr| - 1];
    Peel(tr);
    AdvanceLatest(See(front), a);
    if front == [] {
      assert AnyInvite(a);
    } else {
      hide Regular, Allowed, Advance, See;
      LatestIsSeen(front);
      if !AnyInvite(a) {
        assert LatestInvite(tr) == LatestInvite(front);
        hide LatestInvite, AnyInvite;
      }
    }
  }

  /** MAIN RESULT: every ACK and CANCEL carries the branch of the latest INVITE before it, and its
      CSeq if and only if no MESSAGE was written in between. */
  lemma AcksFollowTheLatestInvite(es: seq<Event>, c: Client, i: nat)
    requires Reached(es, c) && i < |c.trace| && Repeats(c.trace[i])
    ensures var tr := c.trace; var j := LatestInvite(tr[..i]);
      && 0 <= j < i && tr[i].what.branch == tr[j].what.branch
      && (tr[i].what.cseq == tr[j].what.cseq <==> forall k :: j < k < i ==> !AMessage(tr[k]))
  {
    var tr := c.trace;
    EveryRunIsRegular(es, c);
    hide Reached, Regular, LatestInvite;
    RegularAt(tr, i);
    if i > 0 {
      LatestIsSeen(tr[..i]);
      assert forall k :: 0 <= k < i ==> tr[..i][k] == tr[k];
      hide See;
    }
  }

  // ---------- legal transcripts ----------

  lemma {:induction false} InviteIsSeen(tr: seq<Act>)
    requires Regular(tr)
    ensures InProgress(See(tr)) ==> See(tr).last == See(tr).invite + See(tr).since
    ensures See(tr).phase == Calling ==> See(tr).since == 0
    decreases |tr|
  {
    if tr != [] {
      Peel(tr);
      InviteIsSeen(tr[..|tr| - 1]);
      hide See, Regular;
    }
  }

  /** A request that draws branch b. */
  predicate Draws(a: Act, b: string) { Numbered(a) && a.what.branch == b }

  lemma AdvanceBranches(s: Seen, a: Act, b: string)
    requires Allowed(s, a) && (s.phase != Quiet ==> s.branch in s.branches)
    ensures var t := Advance(s, a);
      && t.branch in t.branches && (b in t.branches <==> b in s.branches || Draws(a, b))
      && (!AnOkAck(a) && s.acked == {} ==> t.acked == {})
  {}

  lemma {:induction false} BranchesAreSeen(tr: seq<Act>, b: string)
    requires Regular(tr)
    ensures b in See(tr).branches <==> exists j :: 0 <= j < |tr| && Draws(tr[j], b)
    ensures See(tr).phase != Quiet ==> See(tr).branch in See(tr).branches
    ensures (forall j :: 0 <= j < |tr| ==> !AnOkAck(tr[j])) ==> See(tr).acked == {}
    decreases |tr|
  {
    if tr != [] {
      var front, a := tr[..|tr| - 1], tr[|tr| - 1];
      Peel(tr);
      BranchesAreSeen(front, b);
      AdvanceBranches(See(front), a, b);
      hide See, Regular, Draws, Allowed, Advance, AnOkAck;
      if Draws(a, b) { assert Draws(tr[|tr| - 1], b); }
      if j :| 0 <= j < |front| && Draws(front[j], b) { assert Draws(tr[j], b); }
    }
  }

  lemma LawfulButForOk(s: Seen, a: Act)
    requires Allowed(s, a) && (InProgress(s) ==> s.last == s.invite + s.since)
    ensures AnOkAck(a) || Lawful(s, a)
       <==> (Numbered(a) ==> a.what.branch !in s.branches) && (Repeats(a) && !AnOkAck(a) ==> s.since == 0)
  {}

  /** No MESSAGE was written between the latest INVITE and position i. */
  predicate NoMessageSinceInvite(tr: seq<Act>, i: nat)
    requires i <= |tr|
  {
    forall k :: LatestInvite(tr[..i]) < k < i ==> !AMessage(tr[k])
  }

  /** The request at position i, if there is one, draws a branch that no earlier one drew. */
  predicate Fresh(tr: seq<Act>, i: nat)
    requires i < |tr|
  {
    Numbered(tr[i]) ==> forall j :: 0 <= j < i ==> !Draws(tr[j], tr[i].what.branch)
  }

  /** A request at position i has a new branch, and an ACK or CANCEL there, unless it is the ACK of
      a 2xx, follows no MESSAGE of its INVITE. */
  predicate Sound(tr: seq<Act>, i: nat)
    requires i < |tr|
  {
    && Fresh(tr, i)
    && (Repeats(tr[i]) && !AnOkAck(tr[i]) ==> NoMessageSinceInvite(tr, i))
  }

  lemma SoundLast(tr: seq<Act>)
    requires Regular(tr) && tr != []
    ensures var front, a := tr[..|tr| - 1], tr[|tr| - 1];
      AnOkAck(a) || Lawful(See(front), a) <==> Sound(tr, |tr| - 1)
  {
    var front, a := tr[..|tr| - 1], tr[|tr| - 1];
    Peel(tr);
    InviteIsSeen(front);
    LawfulButForOk(See(front), a);
    if Numbered(a) { BranchesAreSeen(front, a.what.branch); }
    hide Regular, Lawful, See, LatestInvite, Draws, AnOkAck;
    if Repeats(a) { SinceIsSeen(tr); }
  }

  lemma SinceIsSeen(tr: seq<Act>)
    requires Regular(tr) && tr != [] && Repeats(tr[|tr| - 1])
    ensures See(tr[..|tr| - 1]).since == 0 <==> NoMessageSinceInvite(tr, |tr| - 1)
  {
    var front := tr[..|tr| - 1];
    Peel(tr);
    assert See(front).phase != Quiet;
    hide Regular, LatestInvite, Allowed;
    if front != [] {
      LatestIsSeen(front);
      hide See;
    }
  }

  lemma SoundFront(tr: seq<Act>, i: nat)
    requires i < |tr| - 1
    ensures Sound(tr, i) <==> Sound(tr[..|tr| - 1], i)
  {
    assert tr[..|tr| - 1][..i] == tr[..i];
    hide LatestInvite, AnOkAck, Draws, AMessage;
  }

  lemma {:induction false} LegalButForOksIff(tr: seq<Act>)
    requires Regular(tr)
    ensures LegalButForOks(tr) <==> forall i :: 0 <= i < |tr| ==> Sound(tr, i)
    decreases |tr|
  {
    if tr != [] {
      var front := tr[..|tr| - 1];
      Peel(tr);
      LegalButForOksIff(front);
      SoundLast(tr);
      hide See, Regular, Lawful, Allowed, Sound;
      forall i | 0 <= i < |front| ensures Sound(tr, i) <==> Sound(front, i) { SoundFront(tr, i); }
    }
  }

  lemma OkAckIsUnlawful(s: Seen, a: Act)
    requires Allowed(s, a) && AnOkAck(a) && s.branch in s.branches && s.acked == {}
    ensures !Lawful(s, a)
  {}

  lemma {:induction false} LegalIff(tr: seq<Act>)
    requires Regular(tr)
    ensures Legal(tr) <==> LegalButForOks(tr) && forall i :: 0 <= i < |tr| ==> !AnOkAck(tr[i])
    decreases |tr|
  {
    if tr != [] {
      var front, a := tr[..|tr| - 1], tr[|tr| - 1];
      Peel(tr);
      LegalIff(front);
      BranchesAreSeen(front, "");
      if AnOkAck(a) && See(front).acked == {} { OkAckIsUnlawful(See(front), a); }
      hide See, Regular, Lawful, Allowed, AnOkAck;
    }
  }

  lemma {:induction false} UnansweredStaysCalling(tr: seq<Act>)
    requires Regular(tr) && forall i :: 0 <= i < |tr| ==> !AnOkAck(tr[i])
    ensures See(tr).phase != Talking && See(tr).since == 0
    ensures See(tr).previous.Some? ==> !AcksOk(See(tr).previous.value)
    decreases |tr|
  {
    if tr != [] {
      Peel(tr);
      UnansweredStaysCalling(tr[..|tr| - 1]);
      hide See, Regular;
    }
  }

  /** MAIN RESULT: but for its ACKs of a 2xx, the transcript of every run is one that RFC 3261 allows
      a client exactly if every request draws a new branch and no ACK of another answer has a MESSAGE
      between the latest INVITE and it. An ACK of a 2xx repeats the branch of the INVITE and is never
      allowed, so the whole transcript is allowed exactly if there is none. */
  lemma EveryRunIsLegal(es: seq<Event>, c: Client)
    requires Reached(es, c)
    ensures LegalButForOks(c.trace) <==> forall i :: 0 <= i < |c.trace| ==> Sound(c.trace, i)
    ensures Legal(c.trace) <==> LegalButForOks(c.trace) && forall i :: 0 <= i < |c.trace| ==> !AnOkAck(c.trace[i])
  {
    EveryRunIsRegular(es, c);
    GoodIsRegular(c);
    hide Reached, Legal, LegalButForOks, Regular, Good, Sound, AnOkAck;
    LegalButForOksIff(c.trace);
    LegalIff(c.trace);
  }

  lemma UnansweredHasNoMessage(tr: seq<Act>, i: nat)
    requires Regular(tr) && i < |tr| && Repeats(tr[i]) && forall k :: 0 <= k < |tr| ==> !AnOkAck(tr[k])
    ensures NoMessageSinceInvite(tr, i)
  {
    RegularAt(tr, i);
    RegularAt(tr, i + 1);
    hide Regular, Allowed, AnOkAck, Repeats, See, Advance, LatestInvite, NoMessageSinceInvite;
    UnansweredStaysCalling(tr[..i]);
    assert tr[..i + 1][..i] == tr[..i];
    SinceIsSeen(tr[..i + 1]);
    NoMessageFront(tr, i);
  }

  lemma NoMessageFront(tr: seq<Act>, i: nat)
    requires i < |tr|
    ensures NoMessageSinceInvite(tr[..i + 1], i) <==> NoMessageSinceInvite(tr, i)
  {
    assert tr[..i + 1][..i] == tr[..i];
    hide LatestInvite, AMessage;
  }

  /** A call that no 2xx answers is legal exactly if every request draws a new branch. */
  lemma UnansweredIsLegal(es: seq<Event>, c: Client)
    requires Reached(es, c) && forall i :: 0 <= i < |c.trace| ==> !AnOkAck(c.trace[i])
    ensures Legal(c.trace) <==> forall i :: 0 <= i < |c.trace| ==> Fresh(c.trace, i)
  {
    var tr := c.trace;
    EveryRunIsLegal(es, c);
    EveryRunIsRegular(es, c);
    GoodIsRegular(c);
    hide Reached, Legal, LegalButForOks, Regular, Good, AnOkAck, Fresh, NoMessageSinceInvite, Repeats;
    forall i: nat | i < |tr| ensures Sound(tr, i) <==> Fresh(tr, i) {
      if Repeats(tr[i]) { UnansweredHasNoMessage(tr, i); }
    }
  }

  // ---------- callbacks ----------

  lemma {:induction false} PhaseIsSeen(tr: seq<Act>)
    requires Regular(tr)
    ensures See(tr).phase == Over <==> tr != [] && tr[|tr| - 1].Terminated?
    ensures tr != [] && tr[|tr| - 1].Terminated? ==> forall a :: !Allowed(See(tr), a)
    ensures (See(tr).phase == Quiet || See(tr).phase == Calling) ==> forall k :: 0 <= k < |tr| ==> !tr[k].Established?
    ensures See(tr).phase == Quiet <==> tr == []
    decreases |tr|
  {
    if tr != [] {
      var front := tr[..|tr| - 1];
      Peel(tr);
      PhaseIsSeen(front);
      hide See, Regular;
    }
  }

  /** MAIN RESULT: `on_call_established` fires at most once, nothing at all follows
      `on_call_terminated`, and the call is live exactly between its first INVITE and that
      callback, always with a transport. */
  lemma CallbacksAreOrdered(es: seq<Event>, c: Client, i: nat, j: nat)
    requires Reached(es, c) && i < j < |c.trace|
    ensures !c.trace[i].Terminated?
    ensures !(c.trace[i].Established? && c.trace[j].Established?)
  {
    hide Reached, See, Regular;
    EveryRunIsRegular(es, c);
    GoodIsRegular(c);
    var tr := c.trace;
    RegularAt(tr, i);
    RegularAt(tr, i + 1);
    RegularAt(tr, j);
    PhaseIsSeen(tr[..i + 1]);
    PhaseIsSeen(tr[..j]);
    assert tr[..i + 1][i] == tr[i] && tr[..j][i] == tr[i];
  }

  lemma LiveIffNotTerminated(es: seq<Event>, c: Client)
    requires Reached(es, c)
    ensures c.call.Some? <==> c.trace != [] && !c.trace[|c.trace| - 1].Terminated?
    ensures c.call.Some? ==> c.connected
  {
    EveryRunIsRegular(es, c);
    hide Reached;
    PhaseIsSeen(c.trace);
    if c.trace == [] { EmptyMeansNoCall(c); }
    hide See, Regular;
  }

  lemma EmptyMeansNoCall(c: Client)
    requires Good(c) && c.trace == []
    ensures c.call.None?
  {
    assert See([]).phase == Quiet;
  }

  // ---------- requests inside the dialog ----------

  /** The first 2xx was acknowledged at j - 1 and reported at j. */
  predicate EstablishedAt(tr: seq<Act>, j: nat)
  {
    0 < j < |tr| && tr[j].Established? && tr[j - 1].Sent? && tr[j - 1].what.Ack?
  }

  /** An observer's dialog is the one shown at some position. */
  ghost predicate Shown(tr: seq<Act>, d: Dialog)
  {
    exists j :: EstablishedAt(tr, j) && d == DialogOf(tr[j - 1].who, tr[j - 1].what)
  }

  lemma ShownLater(front: seq<Act>, tr: seq<Act>, d: Dialog)
    requires Shown(front, d) && front <= tr
    ensures Shown(tr, d)
  {
    var j: nat :| EstablishedAt(front, j) && d == DialogOf(front[j - 1].who, front[j - 1].what);
    assert tr[j] == front[j] && tr[j - 1] == front[j - 1];
    assert EstablishedAt(tr, j);
  }

  lemma AdvanceDialog(s: Seen, a: Act)
    requires Allowed(s, a)
    ensures var t := Advance(s, a);
      && (a.Sent? ==> t.previous == Some(a.what) && t.party == a.who) && (!a.Sent? ==> t.previous == None)
      && (a.Established? ==> s.previous.Some? && s.previous.value.Ack? && t.dialog == DialogOf(s.party, s.previous.value))
      && (!a.Established? ==> t.phase != Talking || (s.phase == Talking && t.dialog == s.dialog))
  {}

  lemma {:induction false} DialogIsSeen(tr: seq<Act>)
    requires Regular(tr)
    ensures var s := See(tr);
      && (s.previous.Some? ==> tr != [] && tr[|tr| - 1] == Sent(s.party, s.previous.value))
      && (s.phase == Talking ==> Shown(tr, s.dialog))
    decreases |tr|
  {
    if tr != [] {
      var front, a := tr[..|tr| - 1], tr[|tr| - 1];
      Peel(tr);
      AdvanceDialog(See(front), a);
      DialogIsSeen(front);
      hide See, Regular, Allowed, Advance, Shown, DialogOf;
      if a.Established? {
        EstablishedShows(tr, See(front).party, See(front).previous.value);
      } else if See(tr).phase == Talking {
        ShownLater(front, tr, See(front).dialog);
      }
    }
  }

  lemma EstablishedShows(tr: seq<Act>, p: Party, ack: Out)
    requires |tr| > 1 && tr[|tr| - 1].Established? && ack.Ack? && tr[|tr| - 2] == Sent(p, ack)
    ensures Shown(tr, DialogOf(p, ack))
  {
    assert EstablishedAt(tr, |tr| - 1);
  }

  /** MAIN RESULT: MESSAGE, BYE and re-INVITE are written only after the first 2xx was acknowledged
      and reported, and all of them carry the Request-URI, To and Route list that ACK showed. */
  lemma DialogRequestsShareTheDialog(es: seq<Event>, c: Client, i: nat)
    requires Reached(es, c) && i < |c.trace| && InDialogRequest(c.trace[i])
    ensures var o := c.trace[i].what; Shown(c.trace[..i], Dialog(o.uri, o.to, o.routes))
  {
    hide Reached, See, Regular, Shown;
    EveryRunIsRegular(es, c);
    GoodIsRegular(c);
    RegularAt(c.trace, i);
    DialogIsSeen(c.trace[..i]);
  }

  lemma GoodIsRegular(c: Client)
    requires Good(c)
    ensures Regular(c.trace)
  {}

  // ---------- the downgrade is final ----------

  predicate OffersVideo(a: Act)
  {
    a.Sent? && (a.what.Invite? || a.what.ReInvite? || a.what.OkSdp?) && a.what.sdp.videoPort.Some?
  }

  lemma {:induction false} ReinvitesStay(tr: seq<Act>, i: nat)
    requires Regular(tr) && i < |tr| && tr[i].Sent? && tr[i].what.ReInvite?
    ensures See(tr).reinvites > 0 && See(tr).invites > 0 && See(tr).phase != Calling && See(tr).phase != Quiet
    decreases |tr|
  {
    Peel(tr);
    hide See, Regular;
    if i < |tr| - 1 { ReinvitesStay(tr[..|tr| - 1], i); } else { InvitedWhenTalking(tr[..|tr| - 1]); }
  }

  lemma {:induction false} InvitedWhenTalking(tr: seq<Act>)
    requires Regular(tr) && See(tr).phase != Quiet
    ensures See(tr).invites > 0
    decreases |tr|
  {
    if See(tr[..|tr| - 1]).phase != Quiet {
      Peel(tr);
      hide See, Regular;
      InvitedWhenTalking(tr[..|tr| - 1]);
    }
  }

  /** MAIN RESULT: from the audio-only re-INVITE on, no SDP of ours offers video, not even in a
      200 OK to a session refresh. */
  lemma DowngradeIsFinal(es: seq<Event>, c: Client, i: nat, j: nat)
    requires Reached(es, c) && i <= j < |c.trace|
    requires c.trace[i].Sent? && c.trace[i].what.ReInvite?
    ensures !OffersVideo(c.trace[j])
  {
    hide Reached, See, Regular;
    EveryRunIsRegular(es, c);
    GoodIsRegular(c);
    var tr := c.trace;
    RegularAt(tr, j);
    if i < j {
      assert tr[..j][i] == tr[i];
      ReinvitesStay(tr[..j], i);
    }
  }

  // ---------- answers of the server ----------

  /** The first new act is an ACK, and no other new act is one. */
  predicate OneNewAck(before: seq<Act>, after: seq<Act>)
  {
    && before < after && after[|before|].Sent? && after[|before|].what.Ack?
    && forall k :: |before| < k < |after| ==> !(after[k].Sent? && after[k].what.Ack?)
  }

  /** Where the ACK of a final answer goes: before the call is confirmed, to the original target or
      the dialog that a first 2xx opens; then to the open dialog, for a 2xx and for the answer to a
      pending re-INVITE. Any other refusal in a confirmed call goes to the original target along the
      routes of the dialog, which is the code's own rule. */
  function AckTarget(call: Call, m: Msg): (string, seq<string>)
    requires m.Response?
  {
    if call.state != Confirmed then
      if m.code < 300 then
        var uri := SipRoutes.ContactUri(m.contact);
        (if uri == "" then call.party.target else uri, SipRoutes.Reverse(SipRoutes.RecordRoutes(m.recordRoutes)))
      else (call.party.target, call.routes)
    else if m.code < 300 || call.reinviting then (Uri(call), call.routes)
    else (call.party.target, call.routes)
  }

  predicate AckedAt(c: Client, m: Msg, d: Client)
    requires c.call.Some? && m.Response?
  {
    && OneNewAck(c.trace, d.trace)
    && var ack := d.trace[|c.trace|].what;
      (ack.uri, ack.routes) == AckTarget(c.call.value, m)
      && ack.branch == c.call.value.branch && ack.cseq == c.call.value.cseq && ack.code == m.code
      && ack.to == (if m.to.Some? then m.to.value else "<" + c.call.value.party.target + ">")
  }

  lemma ChallengeIsAcked(c: Client, m: Msg, authorization: Option<string>, token: string)
    requires c.call.Some? && m.Response? && m.code >= 300 && c.call.value.state == Inviting
    ensures AckedAt(c, m, HandleAuthChallenge(c, m, authorization, token))
  {
    hide Challenge, Uri, SipRoutes.ContactUri, SipRoutes.RecordRoutes, SipRoutes.Reverse;
  }

  lemma OkIsAcked(c: Client, m: Msg)
    requires c.call.Some? && m.Response? && m.code < 300 && c.call.value.state != Confirmed
    ensures AckedAt(c, m, HandleOk(c, m))
  {
    hide Uri, SipRoutes.ContactUri, SipRoutes.RecordRoutes, SipRoutes.Reverse;
  }

  /** MAIN RESULT: each final answer to an INVITE of a live call is acknowledged exactly once, with
      the branch and number the call keeps. The ACK goes where sections 13.2.2.4 and 17.1.1.3 of RFC
      3261 send it, but for a refusal in a confirmed call that has no re-INVITE pending. */
  lemma FinalInviteAnswersAreAcked(c: Client, m: Msg, authorization: Option<string>, token: string)
    requires ForCall(c, m) && m.Response? && m.code >= 200 && OfInvite(m.cseq)
    ensures AckedAt(c, m, Dispatch(c, m, authorization, token))
  {
    var call := c.call.value;
    hide SipRoutes.ContactUri, SipRoutes.RecordRoutes, SipRoutes.Reverse, Upper, HandleOk, HandleAuthChallenge, Uri;
    if (m.code == 401 || m.code == 407) && call.state == Inviting {
      ChallengeIsAcked(c, m, authorization, token);
      hide AckedAt;
    } else if m.code < 300 && call.state != Confirmed {
      OkIsAcked(c, m);
      hide AckedAt;
    } else {
      OtherIsAcked(c, m);
      hide AckedAt, AckFor;
    }
  }

  lemma OtherIsAcked(c: Client, m: Msg)
    requires c.call.Some? && m.Response? && (c.call.value.state == Confirmed || m.code >= 300)
    ensures var call := c.call.value;
      && (call.state == Confirmed && (m.code < 300 || call.reinviting) ==>
            AckedAt(c, m, Write(With(c, call.(reinviting := false)), AckFor(call, m, Uri(call)))))
      && (m.code >= 300 && !(call.state == Confirmed && call.reinviting) ==>
            AckedAt(c, m, Terminate(Write(c, AckFor(call, m, call.party.target)))))
  {
    hide SipRoutes.ContactUri, SipRoutes.RecordRoutes, SipRoutes.Reverse, Uri;
  }

  lemma {:induction false} MessagesOnlyWhenTalking(tr: seq<Act>, i: nat)
    requires Regular(tr) && i < |tr| && AMessage(tr[i])
    ensures See(tr).phase != Quiet && See(tr).phase != Calling
    decreases |tr|
  {
    Peel(tr);
    hide See, Regular;
    if i < |tr| - 1 { MessagesOnlyWhenTalking(tr[..|tr| - 1], i); }
  }

  /** MAIN RESULT: once a MESSAGE was written, no answer to it, whatever its code, writes an ACK or
      changes anything. */
  lemma MessageAnswersChangeNothing(es: seq<Event>, c: Client, i: nat, m: Msg, authorization: Option<string>, token: string)
    requires Reached(es, c) && i < |c.trace| && AMessage(c.trace[i])
    requires m.Response? && OfOther(m.cseq)
    ensures Dispatch(c, m, authorization, token) == c
  {
    hide Reached, See, Regular;
    EveryRunIsRegular(es, c);
    GoodIsRegular(c);
    MessagesOnlyWhenTalking(c.trace, i);
    if c.call.Some? { GoodFacts(c); }
    hide Good, Upper;
  }

  /** Before the call is confirmed, every ACK and CANCEL carries the CSeq of its INVITE. */
  lemma CSeqMatchesBeforeConfirmed(es: seq<Event>, c: Client, i: nat)
    requires Reached(es, c) && i < |c.trace| && Repeats(c.trace[i])
    requires forall k :: 0 <= k < i ==> !c.trace[k].Established?
    ensures var tr := c.trace; var j := LatestInvite(tr[..i]);
      0 <= j < i && tr[i].what.cseq == tr[j].what.cseq && tr[i].what.branch == tr[j].what.branch
  {
    AcksFollowTheLatestInvite(es, c, i);
    hide Reached, See, Regular, LatestInvite;
    var tr := c.trace;
    forall k | 0 <= k < i ensures !AMessage(tr[k]) {
      if AMessage(tr[k]) { MessageMeansEstablished(es, c, k); }
    }
  }

  lemma MessageMeansEstablished(es: seq<Event>, c: Client, k: nat)
    requires Reached(es, c) && k < |c.trace| && AMessage(c.trace[k])
    ensures exists j :: 0 <= j < k && c.trace[j].Established?
  {
    hide Reached, Shown;
    DialogRequestsShareTheDialog(es, c, k);
    var tr := c.trace;
    ShownMeansEstablished(tr[..k], Dialog(tr[k].what.uri, tr[k].what.to, tr[k].what.routes));
    var j :| 0 <= j < k && tr[..k][j].Established?;
    assert tr[j].Established?;
  }

  lemma ShownMeansEstablished(tr: seq<Act>, d: Dialog)
    requires Shown(tr, d)
    ensures exists j :: 0 <= j < |tr| && tr[j].Established?
  {}

  const SOMEBODY := Party("u", "h", 1, "t", "id", "i", "sip:door")
  const ACCEPTED := Response("", 200, ["50", "INVITE"], Some("<sip:door>;tag=1"), "", [], None, None,
                             Some(Endpoint("h", 2)), None)

  /** A call that was accepted and then carried one MESSAGE. */
  predicate Chatting(c: Client)
  {
    && c.call.Some? && c.call.value.state == Confirmed && c.call.value.cseq == 51 && c.call.value.party.callId == "id"
    && |c.trace| == 4 && AnyInvite(c.trace[0]) && c.trace[0].what.cseq == 50
    && !AnyInvite(c.trace[1]) && !AnyInvite(c.trace[2]) && !AnyInvite(c.trace[3])
  }

  const DIAL := Dial(SOMEBODY, 4, None, "b0")
  const ACCEPT := Receive(ACCEPTED, None, "b1")
  const SEND := SendMessage("id", "MUTE_OFF", "b2")

  lemma ChattingIsReachable()
    ensures Reached([ConnectionMade, DIAL, ACCEPT, SEND], Next(Next(Next(Next(NEW, ConnectionMade), DIAL), ACCEPT), SEND))
  {
    hide Next;
    ReachedStart();
    ReachedMore([], NEW, ConnectionMade);
    assert [] + [ConnectionMade] == [ConnectionMade];
    ReachedMore([ConnectionMade], Next(NEW, ConnectionMade), DIAL);
    assert [ConnectionMade] + [DIAL] == [ConnectionMade, DIAL];
    ReachedMore([ConnectionMade, DIAL], Next(Next(NEW, ConnectionMade), DIAL), ACCEPT);
    assert [ConnectionMade, DIAL] + [ACCEPT] == [ConnectionMade, DIAL, ACCEPT];
    ReachedMore([ConnectionMade, DIAL, ACCEPT], Next(Next(Next(NEW, ConnectionMade), DIAL), ACCEPT), SEND);
    assert [ConnectionMade, DIAL, ACCEPT] + [SEND] == [ConnectionMade, DIAL, ACCEPT, SEND];
  }

  lemma ChattingState()
    ensures Chatting(Next(Next(Next(Next(NEW, ConnectionMade), DIAL), ACCEPT), SEND))
  {
    hide SipRoutes.ContactUri, SipRoutes.RecordRoutes, SipRoutes.Reverse, Upper;
    var c2 := Next(Next(NEW, ConnectionMade), DIAL);
    assert c2.call.Some? && c2.call.value.state == Inviting && c2.call.value.cseq == 50 && c2.call.value.party == SOMEBODY;
  }

  predicate AckDiffers(c: Client, i: nat)
  {
    && i < |c.trace| && Repeats(c.trace[i])
    && var j := LatestInvite(c.trace[..i]);
      0 <= j && c.trace[i].what.cseq != c.trace[j].what.cseq
  }

  lemma ReAck(c: Client)
    requires c.call.Some? && c.call.value.state == Confirmed && c.call.value.party.callId == "id"
    ensures var d := Next(c, ACCEPT);
      && |d.trace| == |c.trace| + 1 && d.trace[..|c.trace|] == c.trace
      && Repeats(d.trace[|c.trace|]) && d.trace[|c.trace|].what.cseq == c.call.value.cseq
  {
    assert Upper("INVITE") == "INVITE";
    hide Upper, Uri, Bracketed;
  }

  /** Without that restriction the CSeq can differ: a retransmitted 2xx after a MESSAGE. */
  lemma AckAfterMessageDiffers()
    ensures exists es, c, i :: Reached(es, c) && AckDiffers(c, i)
  {
    hide ACCEPTED, SOMEBODY, Next;
    var es := [ConnectionMade, DIAL, ACCEPT, SEND];
    var c := Next(Next(Next(Next(NEW, ConnectionMade), DIAL), ACCEPT), SEND);
    ChattingIsReachable();
    ChattingState();
    ReachedMore(es, c, ACCEPT);
    hide Reached;
    ReAck(c);
    LatestIs(c.trace, 0);
    assert AckDiffers(Next(c, ACCEPT), 4);
  }

  lemma LatestIs(tr: seq<Act>, j: nat)
    requires j < |tr| && AnyInvite(tr[j]) && forall k :: j < k < |tr| ==> !AnyInvite(tr[k])
    ensures LatestInvite(tr) == j
  {}
}
