/** The lazy INVITE: camera, lock and backlight taps that race for one ring
    (custom_components/intratone/coordinator.py, `async_ensure_call_started`), in every
    interleaving. */
module LazyInvite {
  import opened Basics
  import opened CallFlow
  import opened CallFrames
  import opened CallRings

  function InFlight(connects: seq<ConnectPc>, p: nat): nat
  {
    if connects == [] then 0
    else InFlight(connects[..|connects| - 1], p) + (if connects[|connects| - 1].Connecting? && connects[|connects| - 1].invite == p then 1 else 0)
  }

  function Times(deeds: seq<Deed>, d: Deed): nat
  {
    if deeds == [] then 0 else Times(deeds[..|deeds| - 1], d) + (if deeds[|deeds| - 1] == d then 1 else 0)
  }

  lemma {:induction false} InFlightOver(connects: seq<ConnectPc>, k: nat, p: nat)
    requires k < |connects|
    ensures InFlight(connects[k := ConnectOver], p)
         == InFlight(connects, p) - (if connects[k].Connecting? && connects[k].invite == p then 1 else 0)
    decreases |connects|
  {
    var front := connects[..|connects| - 1];
    if k < |front| {
      InFlightOver(front, k, p);
      assert connects[k := ConnectOver][..|connects| - 1] == front[k := ConnectOver];
    } else {
      assert connects[k := ConnectOver][..|connects| - 1] == front;
    }
  }

  lemma InFlightPush(connects: seq<ConnectPc>, c: ConnectPc, p: nat)
    ensures InFlight(connects + [c], p) == InFlight(connects, p) + (if c.Connecting? && c.invite == p then 1 else 0)
  {
    assert (connects + [c])[..|connects|] == connects;
  }

  lemma TimesPush(deeds: seq<Deed>, d: Deed, e: Deed)
    ensures Times(deeds + [d], e) == Times(deeds, e) + (if d == e then 1 else 0)
  {
    assert (deeds + [d])[..|deeds|] == deeds;
  }

  /** For one invite: it is marked as started exactly while a connect is in flight or after a call
      was placed, and `/answer` was sent exactly as often as a call was placed. */
  predicate InviteOk(l: Ring, p: nat)
  {
    if p < |l.invites| then
      && InFlight(l.connects, p) + Times(l.deeds, Placed(p)) == (if l.invites[p].started then 1 else 0)
      && Times(l.deeds, Answered(p)) == Times(l.deeds, Placed(p))
      && (l.invites[p].answered <==> Times(l.deeds, Placed(p)) == 1)
    else InFlight(l.connects, p) == 0 && Times(l.deeds, Placed(p)) == 0 && Times(l.deeds, Answered(p)) == 0
  }

  /** `/answer` goes out only when the call was placed just before. */
  predicate AnswersFollow(deeds: seq<Deed>)
  {
    forall i :: 0 <= i < |deeds| && deeds[i].Answered? ==> i > 0 && deeds[i - 1] == Placed(deeds[i].invite)
  }

  ghost predicate LazyOk(l: Ring) { (forall p: nat :: InviteOk(l, p)) && AnswersFollow(l.deeds) }

  lemma HandledKeeps(r: Ring, k: Then)
    requires LazyOk(r)
    ensures LazyOk(Handled(r, k)) && LazyOk(r.(invite := None))
  {
    var m := Handled(r, k);
    assert r.connects == m.connects && r.deeds == m.deeds;
    assert m.invites == r.invites || m.invites == r.invites + [Invite(false, false)];
    hide Handled, InFlight, Times;
    forall p: nat ensures InviteOk(m, p) && InviteOk(r.(invite := None), p) { assert InviteOk(r, p); }
  }

  lemma TapKeeps(w: World, video: bool)
    requires LazyOk(RingOf(w))
    ensures LazyOk(RingOf(TapBegins(w, video)))
  {
    var l, m := RingOf(w), RingOf(TapBegins(w, video));
    if m != l {
      var q := w.invite.value;
      assert m == l.(invites := w.invites[q := w.invites[q].(started := true)],
                     connects := w.connects + [Connecting(q, video)]);
      hide TapBegins, InFlight, Times;
      forall p: nat ensures InviteOk(m, p) {
        assert InviteOk(l, p);
        InFlightPush(w.connects, Connecting(q, video), p);
      }
    }
  }

  /** What the end of a connect does to the invite it was for. */
  function ConnectLazy(l: Ring, k: nat, how: Connect): Ring
    requires k < |l.connects| && l.connects[k].Connecting? && l.connects[k].invite < |l.invites|
  {
    var q := l.connects[k].invite;
    var i := l.invites[q];
    var over := l.connects[k := ConnectOver];
    if how != Connected then l.(invites := l.invites[q := i.(started := false)], connects := over)
    else if i.answered then l.(connects := over, deeds := l.deeds + [Placed(q)])
    else l.(invites := l.invites[q := i.(answered := true)], connects := over, deeds := l.deeds + [Placed(q)] + [Answered(q)])
  }

  lemma RingOfConnect(w: World, k: nat, how: Connect, alive: Ffmpeg)
    requires k < |w.connects| && w.connects[k].Connecting? && w.connects[k].invite < |w.invites|
    ensures RingOf(ConnectEnds(w, k, how, alive)) == ConnectLazy(RingOf(w), k, how)
  {
    var v := w.(connects := w.connects[k := ConnectOver]);
    hide Running, ClosePending;
    match how {
      case Connected =>
      case Refused => RingOfPending(v);
      case Raises => RingOfPending(v);
    }
  }

  lemma RingOfPending(w: World)
    ensures RingOf(ClosePending(w)) == RingOf(w) && ClosePending(w).sipId == w.sipId
  {}

  lemma ConnectKeepsOne(l: Ring, k: nat, how: Connect, p: nat)
    requires k < |l.connects| && l.connects[k].Connecting? && l.connects[k].invite < |l.invites|
    requires InviteOk(l, p) && InviteOk(l, l.connects[k].invite)
    ensures InviteOk(ConnectLazy(l, k, how), p)
  {
    var q := l.connects[k].invite;
    InFlightOver(l.connects, k, p);
    InFlightOver(l.connects, k, q);
    InFlightSome(l.connects, k);
    TimesPush(l.deeds, Placed(q), Placed(p));
    TimesPush(l.deeds, Placed(q), Answered(p));
    TimesPush(l.deeds + [Placed(q)], Answered(q), Placed(p));
    TimesPush(l.deeds + [Placed(q)], Answered(q), Answered(p));
    hide Times, InFlight;
  }

  lemma InFlightSome(connects: seq<ConnectPc>, k: nat)
    requires k < |connects| && connects[k].Connecting?
    ensures InFlight(connects, connects[k].invite) >= 1
  {
    InFlightOver(connects, k, connects[k].invite);
  }

  lemma ConnectKeeps(w: World, k: nat, how: Connect, alive: Ffmpeg)
    requires LazyOk(RingOf(w))
    ensures LazyOk(RingOf(ConnectEnds(w, k, how, alive)))
  {
    if k < |w.connects| && w.connects[k].Connecting? {
      var l := RingOf(w);
      KnownInvite(l, k);
      RingOfConnect(w, k, how, alive);
      hide ConnectEnds;
      ConnectKeepsOrder(l, k, how);
      hide InviteOk, ConnectLazy, AnswersFollow;
      forall p: nat ensures InviteOk(ConnectLazy(l, k, how), p) {
        assert InviteOk(l, p) && InviteOk(l, l.connects[k].invite);
        ConnectKeepsOne(l, k, how, p);
      }
    }
  }

  lemma ConnectKeepsOrder(l: Ring, k: nat, how: Connect)
    requires k < |l.connects| && l.connects[k].Connecting? && l.connects[k].invite < |l.invites| && AnswersFollow(l.deeds)
    ensures AnswersFollow(ConnectLazy(l, k, how).deeds)
  {}

  lemma KnownInvite(l: Ring, k: nat)
    requires k < |l.connects| && l.connects[k].Connecting? && LazyOk(l)
    ensures l.connects[k].invite < |l.invites|
  {
    assert InviteOk(l, l.connects[k].invite);
    InFlightSome(l.connects, k);
  }

  lemma NextKeeps(w: World, e: Event)
    requires LazyOk(RingOf(w))
    ensures LazyOk(RingOf(Next(w, e)))
  {
    hide LazyOk, TapBegins, ConnectEnds, Handled;
    if e.Tap? {
      TapKeeps(w, e.video);
    } else if e.ConnectDone? {
      ConnectKeeps(w, e.k, e.how, e.alive);
    } else {
      NextRing(w, e);
      hide Next, PushDone, TrackedEnds;
      HandledKeeps(RingOf(w), if PushDone(w, e).Some? then PushDone(w, e).value else CancelRing);
    }
  }

  lemma {:induction false} RunsAreLazyOk(es: seq<Event>, w: World)
    requires Reached(es, w)
    ensures LazyOk(RingOf(w))
    decreases |es|
  {
    if es != [] {
      var v := ReachedLast(es, w);
      RunsAreLazyOk(es[..|es| - 1], v);
      hide Reached, LazyOk, Next;
      NextKeeps(v, es[|es| - 1]);
    }
  }

  /** MAIN RESULT: in every interleaving of taps, pushes and everything else, for each ring at most
      one `start_call` is in flight, at most one succeeds, never both; `/answer` is sent once for
      the one that succeeds, right after it, and otherwise not at all. */
  lemma OneCallPerRing(es: seq<Event>, w: World, p: nat)
    requires Reached(es, w)
    ensures InFlight(w.connects, p) + Times(w.deeds, Placed(p)) <= 1
    ensures Times(w.deeds, Answered(p)) == Times(w.deeds, Placed(p))
    ensures AnswersFollow(w.deeds)
  {
    RunsAreLazyOk(es, w);
    hide Reached, InFlight, Times;
    assert InviteOk(RingOf(w), p);
  }

  /** MAIN RESULT: every failed connect re-arms its invite: unless a connect is in flight or a call
      was placed, the next tap on the ring starts a connect again. */
  lemma FailedConnectsRearm(es: seq<Event>, w: World, p: nat, video: bool)
    requires Reached(es, w) && w.invite == Some(p) && p < |w.invites|
    requires InFlight(w.connects, p) == 0 && Times(w.deeds, Placed(p)) == 0
    requires w.started && w.active.None?
    ensures InFlight(TapBegins(w, video).connects, p) == 1
  {
    RunsAreLazyOk(es, w);
    hide Reached;
    assert InviteOk(RingOf(w), p);
    InFlightPush(w.connects, Connecting(p, video), p);
  }
}
