/** Binding media sockets (custom_components/intratone/call_manager.py, `_bind_rtp_socket` and
    `_bind_rtp_pair`) against the sockets of the host. */
module PortBinding {
  import opened Basics

  const FIRST := 16384
  const LIMIT := 16484

  datatype Sock = Sock(open: bool, port: Option<nat>)

  /** Nothing holds the port: no other program, and no open socket of ours. */
  predicate Free(taken: set<nat>, sockets: seq<Sock>, port: nat)
  {
    port !in taken && forall i :: 0 <= i < |sockets| && sockets[i].open ==> sockets[i].port != Some(port)
  }

  predicate PairFree(taken: set<nat>, sockets: seq<Sock>, port: nat)
  {
    Free(taken, sockets, port) && Free(taken, sockets, port + 1)
  }

  predicate InRange(port: nat) { FIRST <= port < LIMIT && port % 2 == 0 }

  /** The lowest port of the range that is free, or free together with the next one. */
  ghost predicate LowestFree(taken: set<nat>, sockets: seq<Sock>, p: nat)
  {
    InRange(p) && Free(taken, sockets, p) && forall q: nat :: InRange(q) && q < p ==> !Free(taken, sockets, q)
  }

  ghost predicate LowestPairFree(taken: set<nat>, sockets: seq<Sock>, p: nat)
  {
    InRange(p) && PairFree(taken, sockets, p) && forall q: nat :: InRange(q) && q < p ==> !PairFree(taken, sockets, q)
  }

  predicate BoundTo(s: Sock, port: nat) { s == Sock(true, Some(port)) }

  /** All sockets from position n on are closed, those before are as they were. */
  predicate OnlyClosedAfter(before: seq<Sock>, now: seq<Sock>)
  {
    && |before| <= |now| && now[..|before|] == before
    && forall i :: |before| <= i < |now| ==> !now[i].open
  }

  lemma ClosedSocketsHoldNothing(taken: set<nat>, before: seq<Sock>, now: seq<Sock>, port: nat)
    requires OnlyClosedAfter(before, now)
    ensures Free(taken, now, port) == Free(taken, before, port)
  {
    assert forall i :: 0 <= i < |before| ==> now[i] == before[i];
  }

  /** The sockets of this process, in order of creation; `taken` are ports other programs hold. */
  class Host {
    const taken: set<nat>
    var sockets: seq<Sock>

    constructor (taken: set<nat>)
      ensures this.taken == taken && sockets == []
    {
      this.taken := taken;
      sockets := [];
    }

    method NewSocket() returns (k: nat)
      modifies this
      ensures k == |old(sockets)| && sockets == old(sockets) + [Sock(true, None)]
    {
      k := |sockets|;
      sockets := sockets + [Sock(true, None)];
    }

    /** Fails, and leaves the socket unbound, when the port is held. */
    method Bind(k: nat, port: nat) returns (ok: bool)
      requires k < |sockets| && sockets[k] == Sock(true, None)
      modifies this
      ensures ok == Free(taken, old(sockets), port)
      ensures sockets == if ok then old(sockets)[k := Sock(true, Some(port))] else old(sockets)
    {
      ok := Free(taken, sockets, port);
      if ok { sockets := sockets[k := Sock(true, Some(port))]; }
    }

    method Close(k: nat)
      requires k < |sockets|
      modifies this
      ensures sockets == old(sockets)[k := old(sockets)[k].(open := false)]
    {
      sockets := sockets[k := sockets[k].(open := false)];
    }

    /** `_bind_rtp_socket`: the lowest free even port of the range, every other socket it opened
        closed again, and a failure only if no port is free. */
    method BindRtpSocket() returns (r: Option<nat>)
      modifies this
      ensures r.None? ==> OnlyClosedAfter(old(sockets), sockets)
      ensures r.None? ==> forall q: nat :: InRange(q) ==> !Free(taken, old(sockets), q)
      ensures r.Some? ==> r.value == |sockets| - 1 && OnlyClosedAfter(old(sockets), sockets[..r.value])
      ensures r.Some? ==> sockets[r.value].port.Some? && BoundTo(sockets[r.value], sockets[r.value].port.value)
      ensures r.Some? ==> LowestFree(taken, old(sockets), sockets[r.value].port.value)
    {
      var port := FIRST;
      while port < LIMIT
        invariant FIRST <= port <= LIMIT && port % 2 == 0
        invariant OnlyClosedAfter(old(sockets), sockets)
        invariant forall q: nat :: InRange(q) && q < port ==> !Free(taken, old(sockets), q)
      {
        ghost var before := sockets;
        var sock := NewSocket();
        var ok := Bind(sock, port);
        UnboundHoldsNothing(before, port);
        ClosedSocketsHoldNothing(taken, old(sockets), before, port);
        if ok {
          assert sockets[..sock] == before;
          return Some(sock);
        }
        Close(sock);
        assert sockets == before + [Sock(false, None)];
        port := port + 2;
      }
      return None;
    }

    lemma UnboundHoldsNothing(before: seq<Sock>, port: nat)
      ensures Free(taken, before + [Sock(true, None)], port) == Free(taken, before, port)
    {
      var now := before + [Sock(true, None)];
      assert forall i :: 0 <= i < |before| ==> now[i] == before[i];
    }

    lemma OtherPortStaysFree(before: seq<Sock>, p: nat, q: nat)
      requires p != q
      ensures Free(taken, before + [Sock(true, Some(p))] + [Sock(true, None)], q) == Free(taken, before, q)
    {
      var now := before + [Sock(true, Some(p))] + [Sock(true, None)];
      assert forall i :: 0 <= i < |before| ==> now[i] == before[i];
      assert now[|before|] == Sock(true, Some(p));
    }

    /** `_bind_rtp_pair`: the lowest even port of the range that is free together with the next
        one, every other socket it opened closed again, and a failure only if there is none. */
    method BindRtpPair() returns (r: Option<(nat, nat)>)
      modifies this
      ensures r.None? ==> OnlyClosedAfter(old(sockets), sockets)
      ensures r.None? ==> forall q: nat :: InRange(q) ==> !PairFree(taken, old(sockets), q)
      ensures r.Some? ==> |sockets| >= 2 && r.value == (|sockets| - 2, |sockets| - 1)
      ensures r.Some? ==> OnlyClosedAfter(old(sockets), sockets[..r.value.0]) && sockets[r.value.0].port.Some?
      ensures r.Some? ==> var p := sockets[r.value.0].port.value;
        LowestPairFree(taken, old(sockets), p) && BoundTo(sockets[r.value.0], p) && BoundTo(sockets[r.value.1], p + 1)
    {
      var port := FIRST;
      while port < LIMIT
        invariant FIRST <= port <= LIMIT && port % 2 == 0
        invariant OnlyClosedAfter(old(sockets), sockets)
        invariant forall q: nat :: InRange(q) && q < port ==> !PairFree(taken, old(sockets), q)
      {
        ghost var before := sockets;
        ClosedSocketsHoldNothing(taken, old(sockets), before, port);
        ClosedSocketsHoldNothing(taken, old(sockets), before, port + 1);
        var rtpSock := NewSocket();
        var ok := Bind(rtpSock, port);
        UnboundHoldsNothing(before, port);
        if !ok {
          Close(rtpSock);
          assert sockets == before + [Sock(false, None)];
          port := port + 2;
          continue;
        }
        assert sockets == before + [Sock(true, Some(port))];
        var rtcpSock := NewSocket();
        ok := Bind(rtcpSock, port + 1);
        OtherPortStaysFree(before, port, port + 1);
        if ok {
          assert sockets[..rtpSock] == before;
          return Some((rtpSock, rtcpSock));
        }
        Close(rtpSock);
        Close(rtcpSock);
        assert sockets == before + [Sock(false, Some(port)), Sock(false, None)];
        port := port + 2;
      }
      return None;
    }
  }
}
