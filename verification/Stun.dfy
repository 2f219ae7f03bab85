/**
  The STUN responder (custom_components/intratone/stun.py): Binding Requests are recognised by
  type and cookie, and answered with the sender's address in an XOR-MAPPED-ADDRESS attribute.
*/
module Stun {
  import opened Basics
  import opened Octets

  const COOKIE := 0x2112_A442
  const BINDING_REQUEST := 0x0001
  const BINDING_RESPONSE := 0x0101
  const XOR_MAPPED_ADDRESS := 0x0020
  const FAMILY_IPV4 := 0x01
  const HEADER_SIZE := 20

  predicate IsBindingRequest(data: seq<byte>)
  {
    |data| >= HEADER_SIZE && U16At(data, 0) == BINDING_REQUEST && U32At(data, 4) == COOKIE
  }

  /** The four octets of an IPv4 address, and a port. */
  datatype Address = Address(ip: seq<byte>, port: nat)

  predicate IsAddress(a: Address) { |a.ip| == 4 && a.port < U16 }

  const COOKIE_OCTETS: seq<byte> := [0x21, 0x12, 0xA4, 0x42]

  function XorOctets(a: seq<byte>, b: seq<byte>): (r: seq<byte>)
    ensures |r| == if |a| < |b| then |a| else |b|
  {
    BitWidths();
    seq(if |a| < |b| then |a| else |b|, i requires 0 <= i < |a| && 0 <= i < |b| => Xor(8, a[i], b[i]))
  }

  function BuildResponse(request: seq<byte>, from_: Address): seq<byte>
    requires |request| >= HEADER_SIZE && IsAddress(from_)
  {
    var attr := BigEndian(2, XOR_MAPPED_ADDRESS) + BigEndian(2, 8) + [0] + [FAMILY_IPV4]
                + BigEndian(2, Xor(16, from_.port, COOKIE / U16)) + XorOctets(from_.ip, COOKIE_OCTETS);
    BigEndian(2, BINDING_RESPONSE) + BigEndian(2, |attr|) + BigEndian(4, COOKIE) + request[8..HEADER_SIZE] + attr
  }

  // ---------- an independent reader of Binding Responses (sections 6 and 15 of RFC 5389) ----------

  datatype Reply = Reply(txid: seq<byte>, mapped: Address)

  /** Walks the attributes, each padded to four octets, to the first XOR-MAPPED-ADDRESS. */
  function FindMapped(attrs: seq<byte>): Option<Address>
    decreases |attrs|
  {
    if |attrs| < 4 then None
    else
      var len := U16At(attrs, 2);
      var padded := (len + 3) / 4 * 4;
      if |attrs| < 4 + padded then None
      else if U16At(attrs, 0) == XOR_MAPPED_ADDRESS then
        if len == 8 && attrs[5] == FAMILY_IPV4 then
          Some(Address(XorOctets(attrs[8..12], COOKIE_OCTETS), Xor(16, U16At(attrs, 6), COOKIE / U16)))
        else None
      else FindMapped(attrs[4 + padded..])
  }

  function ReadResponse(msg: seq<byte>): Option<Reply>
  {
    if |msg| < HEADER_SIZE || U16At(msg, 0) != BINDING_RESPONSE || U32At(msg, 4) != COOKIE
       || U16At(msg, 2) != |msg| - HEADER_SIZE
    then None
    else
      var a := FindMapped(msg[HEADER_SIZE..]);
      if a.None? then None else Some(Reply(msg[8..HEADER_SIZE], a.value))
  }

  lemma XorOctetsCancels(a: seq<byte>, b: seq<byte>)
    requires |a| == |b|
    ensures XorOctets(XorOctets(a, b), b) == a
  {
    BitWidths();
    forall i | 0 <= i < |a| ensures XorOctets(XorOctets(a, b), b)[i] == a[i] { XorCancels(8, a[i], b[i]); }
  }

  lemma MappedReadsBack(from_: Address, attr: seq<byte>)
    requires IsAddress(from_)
    requires attr == BigEndian(2, XOR_MAPPED_ADDRESS) + BigEndian(2, 8) + [0] + [FAMILY_IPV4]
                     + BigEndian(2, Xor(16, from_.port, COOKIE / U16)) + XorOctets(from_.ip, COOKIE_OCTETS)
    ensures FindMapped(attr) == Some(from_)
  {
    Widths();
    BitWidths();
    var port := Xor(16, from_.port, COOKIE / U16);
    assert attr[0..2] == BigEndian(2, XOR_MAPPED_ADDRESS);
    assert attr[2..4] == BigEndian(2, 8);
    assert attr[6..8] == BigEndian(2, port);
    assert attr[8..12] == XorOctets(from_.ip, COOKIE_OCTETS);
    BigEndianRoundTrip(2, XOR_MAPPED_ADDRESS);
    BigEndianRoundTrip(2, 8);
    BigEndianRoundTrip(2, port);
    XorCancels(16, from_.port, COOKIE / U16);
    XorOctetsCancels(from_.ip, COOKIE_OCTETS);
  }

  /** MAIN RESULT: whatever the request and the sender, a reader of the reply recovers the
      transaction id and the sender's address. */
  lemma ResponseReadsBack(request: seq<byte>, from_: Address)
    requires IsBindingRequest(request) && IsAddress(from_)
    ensures ReadResponse(BuildResponse(request, from_)) == Some(Reply(request[8..HEADER_SIZE], from_))
  {
    Widths();
    var attr := BigEndian(2, XOR_MAPPED_ADDRESS) + BigEndian(2, 8) + [0] + [FAMILY_IPV4]
                + BigEndian(2, Xor(16, from_.port, COOKIE / U16)) + XorOctets(from_.ip, COOKIE_OCTETS);
    var msg := BuildResponse(request, from_);
    assert msg[0..2] == BigEndian(2, BINDING_RESPONSE);
    assert msg[2..4] == BigEndian(2, 12);
    assert msg[4..8] == BigEndian(4, COOKIE);
    assert msg[8..HEADER_SIZE] == request[8..HEADER_SIZE];
    assert msg[HEADER_SIZE..] == attr;
    BigEndianRoundTrip(2, BINDING_RESPONSE);
    BigEndianRoundTrip(2, 12);
    BigEndianRoundTrip(4, COOKIE);
    MappedReadsBack(from_, attr);
  }

  /** No datagram is both a Binding Request and RTP: the version bits differ. */
  lemma RequestIsNotRtp(data: seq<byte>)
    requires IsBindingRequest(data)
    ensures data[0] / 64 != 2
  {
    var s := data[0..2];
    assert FromBigEndian(s[..1]) == 256 * FromBigEndian(s[..1][..0]) + s[0];
    assert FromBigEndian(s) == 256 * FromBigEndian(s[..1]) + s[1];
  }

  /** The Binding Requests of section 6 of RFC 5389: type, length, cookie, transaction id, attributes. */
  function Request(length: nat, txid: seq<byte>, attrs: seq<byte>): seq<byte>
    requires length < U16 && |txid| == 12
  {
    [0x00, 0x01] + BigEndian(2, length) + COOKIE_OCTETS + txid + attrs
  }

  lemma {:induction false} OctetsAreTheirNumber(s: seq<byte>)
    ensures BigEndian(|s|, FromBigEndian(s)) == s
    decreases |s|
  {
    if s != [] {
      var front := s[..|s| - 1];
      OctetsAreTheirNumber(front);
      assert FromBigEndian(s) / 256 == FromBigEndian(front) && FromBigEndian(s) % 256 == s[|s| - 1];
      assert s == front + [s[|s| - 1]];
    }
  }

  lemma RequestNumbers()
    ensures BigEndian(2, BINDING_REQUEST) == [0x00, 0x01] && BigEndian(4, COOKIE) == COOKIE_OCTETS
    ensures FromBigEndian([0x00, 0x01]) == BINDING_REQUEST && FromBigEndian(COOKIE_OCTETS) == COOKIE
  {
    assert BigEndian(1, 0) == [0] && BigEndian(0, 0) == [];
    assert BigEndian(1, 0x21) == [0x21] && BigEndian(2, 0x2112) == [0x21, 0x12] && BigEndian(3, 0x2112A4) == [0x21, 0x12, 0xA4];
    Widths();
    BigEndianRoundTrip(2, BINDING_REQUEST);
    BigEndianRoundTrip(4, COOKIE);
  }

  /** MAIN RESULT: the datagrams recognised are exactly the Binding Requests with the cookie, whatever
      their length field, transaction id and attributes. */
  lemma RequestsAreRecognised(data: seq<byte>, length: nat, txid: seq<byte>, attrs: seq<byte>)
    requires length < U16 && |txid| == 12
    ensures IsBindingRequest(Request(length, txid, attrs))
    ensures IsBindingRequest(data) ==> data == Request(U16At(data, 2), data[8..20], data[20..])
  {
    RequestNumbers();
    var r := Request(length, txid, attrs);
    assert r[0..2] == [0x00, 0x01] && r[4..8] == COOKIE_OCTETS;
    if IsBindingRequest(data) {
      OctetsAreTheirNumber(data[0..2]);
      OctetsAreTheirNumber(data[2..4]);
      OctetsAreTheirNumber(data[4..8]);
      hide BigEndian, FromBigEndian;
      assert data == data[0..2] + data[2..4] + data[4..8] + data[8..20] + data[20..];
    }
  }
}
