// The DHCP client: the frames it sends, how it reads replies, and what holds over its runs.
module Dhcp {
  import opened Bytes
  import C = Checksum

  const DHCPDISCOVER: byte := 1
  const DHCPOFFER: byte := 2
  const DHCPREQUEST: byte := 3
  const DHCPACK: byte := 5
  const DHCPRELEASE: byte := 7

  const MESSAGE_TYPE: byte := 53
  const REQUESTED_ADDRESS: byte := 50
  const SERVER_IDENTIFIER: byte := 54
  const SUBNET_MASK: byte := 1
  const END: byte := 255

  // Reading stops once the index has passed this.
  const MAX_OPTIONS := 300

  // Addresses and transaction ids as they lie in memory.
  type Quad = s: seq<byte> | |s| == 4 witness [0, 0, 0, 0]

  const ZERO: Quad := [0, 0, 0, 0]
  const BROADCAST: Quad := [255, 255, 255, 255]

  // ---- Options ----

  datatype Opt = Opt(code: byte, value: seq<byte>)

  function EncodeOpt(o: Opt): seq<byte>
    requires |o.value| < 256
  {
    [o.code, |o.value|] + o.value
  }

  predicate Short(opts: seq<Opt>) {
    forall i :: 0 <= i < |opts| ==> |opts[i].value| < 256
  }

  function Encode(opts: seq<Opt>): seq<byte>
    requires Short(opts)
  {
    if opts == [] then [END] else EncodeOpt(opts[0]) + Encode(opts[1..])
  }

  // Four bytes of a buffer.
  function QuadAt(b: seq<byte>, i: int): Quad {
    [At(b, i), At(b, i + 1), At(b, i + 2), At(b, i + 3)]
  }

  // What the client looks for in the options.
  datatype Found = Found(message: byte, server: Quad, mask: Quad)

  const NOTHING := Found(0, ZERO, ZERO)

  // The option at i, as the client reads it: without regard to its length.
  function ReadOpt(f: Found, b: seq<byte>, i: nat): Found {
    if At(b, i) == MESSAGE_TYPE then f.(message := At(b, i + 2))
    else if At(b, i) == SERVER_IDENTIFIER then f.(server := QuadAt(b, i + 2))
    else if At(b, i) == SUBNET_MASK then f.(mask := QuadAt(b, i + 2))
    else f
  }

  // The walk over the options; the end option leaves it.
  function Walk(b: seq<byte>, i: nat, f: Found): Found
    decreases MAX_OPTIONS - i
  {
    if i >= MAX_OPTIONS || At(b, i) == END then f
    else Walk(b, i + At(b, i + 1) + 2, ReadOpt(f, b, i))
  }

  method WalkOptions(b: seq<byte>) returns (f: Found)
    ensures f == Walk(b, 0, NOTHING)
  {
    f := NOTHING;
    var i := 0;
    while i < MAX_OPTIONS
      invariant i >= 0 && Walk(b, i, f) == Walk(b, 0, NOTHING)
      decreases MAX_OPTIONS - i
    {
      if At(b, i) == END { break; }
      f := ReadOpt(f, b, i);
      i := i + At(b, i + 1) + 2;
    }
  }

  // Options as the standard has them: no pads, no early end, and values long enough.
  predicate Proper(o: Opt) {
    && o.code != 0 && o.code != END && |o.value| < 256
    && (o.code == MESSAGE_TYPE ==> |o.value| >= 1)
    && (o.code == SERVER_IDENTIFIER || o.code == SUBNET_MASK ==> |o.value| >= 4)
  }

  // What one option says.
  function Take(f: Found, o: Opt): Found
    requires Proper(o)
  {
    if o.code == MESSAGE_TYPE then f.(message := o.value[0])
    else if o.code == SERVER_IDENTIFIER then f.(server := o.value[..4])
    else if o.code == SUBNET_MASK then f.(mask := o.value[..4])
    else f
  }

  // What a list of options says from position i on: later ones win, and those starting past the limit
  // are not seen.
  function TakeAll(f: Found, opts: seq<Opt>, i: nat): Found
    requires forall k :: 0 <= k < |opts| ==> Proper(opts[k])
    decreases |opts|
  {
    if opts == [] || i >= 300 then f else TakeAll(Take(f, opts[0]), opts[1..], i + 2 + |opts[0].value|)
  }

  // Walking an encoded list visits exactly its options, in order, and ends.
  lemma {:induction false} WalkVisitsAll(before: seq<byte>, opts: seq<Opt>, f: Found)
    requires forall k :: 0 <= k < |opts| ==> Proper(opts[k])
    ensures Short(opts) && Walk(before + Encode(opts), |before|, f) == TakeAll(f, opts, |before|)
    decreases |opts|
  {
    var b, i := before + Encode(opts), |before|;
    if opts != [] && i < MAX_OPTIONS {
      var o, rest := opts[0], opts[1..];
      assert Proper(o) && Short(rest);
      ReadsOne(before, o, Encode(rest), f);
      assert b == before + (EncodeOpt(o) + Encode(rest)) == (before + EncodeOpt(o)) + Encode(rest);
      WalkVisitsAll(before + EncodeOpt(o), rest, Take(f, o));
    } else if opts == [] {
      assert b[i] == END;
    }
  }

  lemma {:induction false} ReadsOne(before: seq<byte>, o: Opt, after: seq<byte>, f: Found)
    requires Proper(o)
    ensures var b, i := before + (EncodeOpt(o) + after), |before|;
      && At(b, i) == o.code && At(b, i + 1) == |o.value| && ReadOpt(f, b, i) == Take(f, o)
  {
    var b, i := before + (EncodeOpt(o) + after), |before|;
    forall k | 0 <= k < |o.value| ensures At(b, i + 2 + k) == o.value[k] {
      assert b[i + 2 + k] == EncodeOpt(o)[2 + k];
    }
    assert b[i] == EncodeOpt(o)[0] && b[i + 1] == EncodeOpt(o)[1];
    if |o.value| >= 4 {
      assert At(b, i + 2 + 0) == o.value[0] && At(b, i + 2 + 1) == o.value[1] && At(b, i + 2 + 2) == o.value[2]
        && At(b, i + 2 + 3) == o.value[3];
      assert QuadAt(b, i + 2) == o.value[..4];
    } else if |o.value| >= 1 {
      assert At(b, i + 2 + 0) == o.value[0];
    }
  }

  // ---- What is sent ----

  // A message to the servers, with the address and server it names.
  datatype Message = Message(kind: byte, ip: Quad, server: Quad)

  function Options(m: Message): seq<Opt> {
    if m.kind == DHCPDISCOVER then [Opt(MESSAGE_TYPE, [m.kind])]
    else [Opt(MESSAGE_TYPE, [m.kind]), Opt(REQUESTED_ADDRESS, m.ip), Opt(SERVER_IDENTIFIER, m.server)]
  }

  predicate Sendable(m: Message) {
    m.kind == DHCPDISCOVER || m.kind == DHCPREQUEST || m.kind == DHCPRELEASE
  }

  // send_packet writes the options byte by byte.
  method WriteOptions(m: Message) returns (b: seq<byte>)
    requires Sendable(m)
    ensures Short(Options(m)) && b == Encode(Options(m))
    ensures |b| == if m.kind == DHCPDISCOVER then 4 else 16
  {
    b := [];
    b := b + [MESSAGE_TYPE];
    b := b + [1];
    b := b + [m.kind];
    if m.kind != DHCPDISCOVER {
      b := b + [REQUESTED_ADDRESS];
      b := b + [4];
      b := b + m.ip;
      b := b + [SERVER_IDENTIFIER];
      b := b + [4];
      b := b + m.server;
    }
    b := b + [END];
    EncodedOptions(m);
  }

  lemma {:induction false} EncodedOptions(m: Message)
    requires Sendable(m)
    ensures Short(Options(m))
    ensures Encode(Options(m)) ==
      if m.kind == DHCPDISCOVER then [MESSAGE_TYPE, 1, m.kind, END]
      else [MESSAGE_TYPE, 1, m.kind, REQUESTED_ADDRESS, 4] + m.ip + [SERVER_IDENTIFIER, 4] + m.server + [END]
  {
    var opts := Options(m);
    if m.kind == DHCPDISCOVER {
      assert opts[1..] == [];
    } else {
      var o1, o2 := opts[1], opts[2];
      assert opts[1..] == [o1, o2] && [o1, o2][1..] == [o2] && [o2][1..] == [];
      assert Encode([o2]) == [SERVER_IDENTIFIER, 4] + m.server + [END];
      assert Encode([o1, o2]) == [REQUESTED_ADDRESS, 4] + m.ip + ([SERVER_IDENTIFIER, 4] + m.server + [END]);
    }
  }

  // The walk inverts the encoding: kind and server come back.
  lemma {:induction false} WalkInvertsOptions(m: Message)
    requires Sendable(m)
    ensures Short(Options(m))
    ensures Walk(Encode(Options(m)), 0, NOTHING) ==
      Found(m.kind, if m.kind == DHCPDISCOVER then ZERO else m.server, ZERO)
  {
    var opts := Options(m);
    WalkVisitsAll([], opts, NOTHING);
    assert [] + Encode(opts) == Encode(opts);
    TakesOptions(m);
  }

  lemma {:induction false} TakesOptions(m: Message)
    requires Sendable(m)
    ensures forall k :: 0 <= k < |Options(m)| ==> Proper(Options(m)[k])
    ensures TakeAll(NOTHING, Options(m), 0) == Found(m.kind, if m.kind == DHCPDISCOVER then ZERO else m.server, ZERO)
  {
    var opts := Options(m);
    var f := NOTHING.(message := m.kind);
    if m.kind == DHCPDISCOVER {
      assert opts[1..] == [];
    } else {
      var o1, o2 := opts[1], opts[2];
      assert opts[1..] == [o1, o2] && [o1, o2][1..] == [o2] && [o2][1..] == [];
      assert m.server[..4] == m.server;
      assert TakeAll(f.(server := m.server), [], 15) == f.(server := m.server);
      assert TakeAll(f, [o2], 9) == f.(server := m.server);
      assert TakeAll(f, [o1, o2], 3) == f.(server := m.server);
    }
  }

  // ---- Frames ----

  const ETHERNET_LENGTH := 14
  const IP_LENGTH := 20
  const UDP_LENGTH := 8
  const DHCP_LENGTH := 240

  // The hardware address and transaction id of a client.
  type Mac = s: seq<byte> | |s| == 6 witness [0, 0, 0, 0, 0, 0]

  function Zeros(n: nat): (s: seq<byte>)
    ensures |s| == n
  {
    seq(n, _ => 0)
  }

  // The header of section 3.1 of RFC 791 with its checksum still zero.
  function IpHeader(length: nat): (s: seq<byte>)
    ensures |s| == IP_LENGTH
  {
    [0x45, 0, (length / 256) % 256, length % 256, 0, 0, 0, 0, 128, C.IPPROTO_UDP, 0, 0] + ZERO + BROADCAST
  }

  function DhcpHeader(xid: Quad, mac: Mac): (s: seq<byte>)
    ensures |s| == DHCP_LENGTH
  {
    [1, 1, 6, 0] + xid + Zeros(20) + mac + Zeros(202) + [0x63, 0x82, 0x53, 0x63]
  }

  // The UDP datagram with its checksum still zero.
  function Datagram(xid: Quad, mac: Mac, options: seq<byte>): (s: seq<byte>)
    ensures |s| == UDP_LENGTH + DHCP_LENGTH + |options|
  {
    var length := UDP_LENGTH + DHCP_LENGTH + |options|;
    [0, 68, 0, 67, (length / 256) % 256, length % 256, 0, 0] + DhcpHeader(xid, mac) + options
  }

  function UdpChecked(datagram: seq<byte>): (s: seq<byte>)
    requires |datagram| >= UDP_LENGTH
    ensures |s| == |datagram|
  {
    C.Stored(datagram, 3, C.Checksum(C.PseudoHeader(ZERO, BROADCAST, |datagram|) + datagram))
  }

  function IpChecked(header: seq<byte>): (s: seq<byte>)
    requires |header| == IP_LENGTH
    ensures |s| == |header|
  {
    C.Stored(header, 5, C.Checksum(header))
  }

  function Frame(xid: Quad, mac: Mac, m: Message): seq<byte>
    requires Sendable(m) && Short(Options(m))
  {
    var datagram := Datagram(xid, mac, Encode(Options(m)));
    [255, 255, 255, 255, 255, 255] + mac + [8, 0] + IpChecked(IpHeader(IP_LENGTH + |datagram|)) + UdpChecked(datagram)
  }

  // The header checksum of a frame verifies.
  lemma {:induction false} IpVerifies(length: nat)
    ensures C.Checksum(IpChecked(IpHeader(length))) == 0
  {
    C.StoredVerifies(IpHeader(length), 5);
  }

  // So does the UDP checksum, over the pseudo-header of RFC 768 and the whole datagram.
  lemma {:induction false} UdpVerifies(datagram: seq<byte>)
    requires |datagram| >= UDP_LENGTH && datagram[6] == 0 && datagram[7] == 0
    ensures C.Checksum(C.PseudoHeader(ZERO, BROADCAST, |datagram|) + UdpChecked(datagram)) == 0
  {
    hide C.Checksum, C.PseudoHeader;
    var ph := C.PseudoHeader(ZERO, BROADCAST, |datagram|);
    var whole := ph + datagram;
    assert whole[2 * 9] == datagram[6] && whole[2 * 9 + 1] == datagram[7];
    C.StoredVerifies(whole, 9);
    assert C.Stored(whole, 9, C.Checksum(whole)) == ph + UdpChecked(datagram);
  }

  lemma {:induction false} DatagramZero(xid: Quad, mac: Mac, options: seq<byte>)
    ensures Datagram(xid, mac, options)[6] == 0 && Datagram(xid, mac, options)[7] == 0
  {
  }

  // In every frame sent, both checksums verify where a receiver finds them.
  lemma {:induction false} FrameVerifies(xid: Quad, mac: Mac, m: Message)
    requires Sendable(m) && Short(Options(m))
    ensures var frame := Frame(xid, mac, m);
      && |frame| > 42 && C.Checksum(frame[14..34]) == 0
      // over the frame's own addresses, the protocol, its own UDP length, and the datagram
      && C.Checksum(frame[26..34] + [0, 17] + frame[38..40] + frame[34..]) == 0
  {
    hide C.Checksum, Encode, Options, Datagram, IpChecked, UdpChecked, IpHeader;
    var datagram := Datagram(xid, mac, Encode(Options(m)));
    var header, udp := IpChecked(IpHeader(IP_LENGTH + |datagram|)), UdpChecked(datagram);
    DatagramZero(xid, mac, Encode(Options(m)));
    IpVerifies(IP_LENGTH + |datagram|);
    UdpVerifies(datagram);
    var frame := Frame(xid, mac, m);
    assert frame[14..34] == header && frame[34..] == udp;
    OwnAddresses(IP_LENGTH + |datagram|);
    OwnLength(xid, mac, Encode(Options(m)));
    assert frame[26..34] == header[12..20] == ZERO + BROADCAST;
    var n := |datagram|;
    assert frame[38..40] == udp[4..6] == [(n / 256) % 256, n % 256];
    assert ZERO + BROADCAST + [0, 17] + udp[4..6] == C.PseudoHeader(ZERO, BROADCAST, n);
  }

  lemma {:induction false} OwnAddresses(length: nat)
    ensures IpChecked(IpHeader(length))[12..20] == ZERO + BROADCAST
  {
    hide C.Checksum;
  }

  lemma {:induction false} OwnLength(xid: Quad, mac: Mac, options: seq<byte>)
    ensures var d := Datagram(xid, mac, options); UdpChecked(d)[4..6] == [(|d| / 256) % 256, |d| % 256]
  {
    hide C.Checksum;
  }

  // Short buffers cannot overflow the register of the sum.
  lemma {:induction false} ShortFits(b: seq<byte>)
    requires |b| < 2048
    ensures C.WordSum(b, |b| / 2) < C.LONG
  {
  }

  // send_packet: the frame, with both checksums computed over even lengths.
  method BuildFrame(xid: Quad, mac: Mac, m: Message) returns (frame: seq<byte>)
    requires Sendable(m)
    ensures Short(Options(m)) && frame == Frame(xid, mac, m) && |frame| % 2 == 0
  {
    hide C.Checksum, C.WordSum, C.PseudoHeader, Encode, Options;
    var options := WriteOptions(m);
    var datagram := Datagram(xid, mac, options);
    ShortFits(C.PseudoHeader(ZERO, BROADCAST, |datagram|) + datagram);
    var udp := C.UdpCsum(datagram, ZERO, BROADCAST);
    datagram := C.Stored(datagram, 3, udp);
    var header := IpHeader(IP_LENGTH + |datagram|);
    ShortFits(header);
    var ip := C.IpCsum(header);
    header := C.Stored(header, 5, ip);
    frame := [255, 255, 255, 255, 255, 255] + mac + [8, 0] + header + datagram;
  }

  // ---- Replies ----

  // Where the DHCP header of a packet starts.
  function DhcpAt(packet: seq<byte>): nat {
    ETHERNET_LENGTH + (At(packet, ETHERNET_LENGTH) % 16) * 4 + UDP_LENGTH
  }

  // An IPv4 packet carrying UDP, with the magic cookie and the reply code where they belong.
  predicate IsReply(packet: seq<byte>) {
    var d := DhcpAt(packet);
    && At(packet, 12) == 8 && At(packet, 13) == 0 && At(packet, ETHERNET_LENGTH + 9) == C.IPPROTO_UDP
    && QuadAt(packet, d + 236) == [0x63, 0x82, 0x53, 0x63] && At(packet, d) == 2
  }

  predicate IsOurs(packet: seq<byte>, xid: Quad) {
    IsReply(packet) && QuadAt(packet, DhcpAt(packet) + 4) == xid
  }

  function OfferedAddress(packet: seq<byte>): Quad {
    QuadAt(packet, DhcpAt(packet) + 16)
  }

  function OptionsOf(packet: seq<byte>): seq<byte> {
    var d := DhcpAt(packet) + DHCP_LENGTH;
    if d <= |packet| then packet[d..] else []
  }

  function FoundIn(packet: seq<byte>): Found {
    Walk(OptionsOf(packet), 0, NOTHING)
  }

  // The frames a client sends are requests: no client takes them for replies.
  lemma {:induction false} OwnFramesIgnored(xid: Quad, mac: Mac, m: Message)
    requires Sendable(m) && Short(Options(m))
    ensures !IsReply(Frame(xid, mac, m))
  {
    hide C.Checksum, Encode, Options;
    var frame, datagram := Frame(xid, mac, m), Datagram(xid, mac, Encode(Options(m)));
    var header := IpChecked(IpHeader(IP_LENGTH + |datagram|));
    var head := [255, 255, 255, 255, 255, 255] + mac + [8, 0];
    assert frame[14] == header[0] == 0x45;
    assert DhcpAt(frame) == 42;
    assert frame[42] == UdpChecked(datagram)[8] == datagram[8] == DhcpHeader(xid, mac)[0] == 1;
  }

  // ---- The client ----

  // sent and acks are history only: the messages sent, and how many acknowledgements for us arrived.
  datatype Client = Client(ip: Quad, server: Quad, mask: Quad, configured: bool, sent: seq<Message>, acks: nat)

  const NEW := Client(ZERO, ZERO, ZERO, false, [], 0)

  datatype Event = Discover | Request | Release | Packet(bytes: seq<byte>)

  function Send(c: Client, kind: byte): Client {
    c.(sent := c.sent + [Message(kind, c.ip, c.server)], configured := false)
  }

  function Step(c: Client, xid: Quad, e: Event): Client {
    match e
    case Discover => Send(c, DHCPDISCOVER)
    case Request => Send(c, DHCPREQUEST)
    case Release => if c.configured then Send(c, DHCPRELEASE) else c
    case Packet(bytes) =>
      if !IsOurs(bytes, xid) then c
      else
        var f := FoundIn(bytes);
        if f.message == DHCPOFFER then
          Send(c.(ip := OfferedAddress(bytes), server := f.server, mask := f.mask), DHCPREQUEST)
        else if f.message == DHCPACK then c.(configured := true, acks := c.acks + 1)
        else c
  }

  // ---- Replies, field by field ----

  // A packet as it is laid out: hardware addresses and type, an IP header of any length, a UDP header, and the
  // fields of a message up to its options.
  datatype Reply = Reply(macs: seq<byte>, etherType: seq<byte>, ipHeader: seq<byte>, udpHeader: seq<byte>,
                         op: byte, hardware: seq<byte>, xid: Quad, secsAndFlags: Quad, ciaddr: Quad, yiaddr: Quad,
                         siaddr: Quad, giaddr: Quad, names: seq<byte>, cookie: Quad, options: seq<Opt>)

  // The low four bits of the IP header tell its length in words; `names' is the hardware address, the server name
  // and the file name, of 16, 64 and 128 bytes.
  predicate Laid(r: Reply) {
    && |r.macs| == 12 && |r.etherType| == 2 && |r.ipHeader| >= 20 && |r.ipHeader| == r.ipHeader[0] % 16 * 4
    && |r.udpHeader| == 8 && |r.hardware| == 3 && |r.names| == 208
    && forall k :: 0 <= k < |r.options| ==> Proper(r.options[k])
  }

  // An IPv4 packet with UDP in it, the magic cookie, and the code of a reply.
  predicate Genuine(r: Reply)
    requires Laid(r)
  {
    r.etherType == [8, 0] && r.ipHeader[9] == 17 && r.cookie == [0x63, 0x82, 0x53, 0x63] && r.op == 2
  }

  function FixedFields(r: Reply): seq<byte> {
    [r.op] + r.hardware + r.xid + r.secsAndFlags + r.ciaddr + r.yiaddr + r.siaddr + r.giaddr + r.names + r.cookie
  }

  function ReplyBytes(r: Reply): seq<byte>
    requires Laid(r)
  {
    r.macs + r.etherType + r.ipHeader + r.udpHeader + FixedFields(r) + Encode(r.options)
  }

  lemma {:induction false} QuadIn(b: seq<byte>, i: nat, head: seq<byte>, q: Quad, tail: seq<byte>)
    requires b == head + q + tail && |head| == i
    ensures QuadAt(b, i) == q
  {
    assert b[i] == q[0] && b[i + 1] == q[1] && b[i + 2] == q[2] && b[i + 3] == q[3];
  }

  lemma {:induction false} FixedRead(r: Reply)
    requires Laid(r)
    ensures var d := FixedFields(r);
      && |d| == 240 && d[0] == r.op && d[4..8] == r.xid && d[16..20] == r.yiaddr && d[236..240] == r.cookie
  {
  }

  // Where the client finds what: the four bytes k into the fixed fields.
  lemma {:induction false} FixedQuad(r: Reply, k: nat)
    requires Laid(r) && k + 4 <= 240 && |FixedFields(r)| == 240
    ensures QuadAt(ReplyBytes(r), 22 + |r.ipHeader| + k) == FixedFields(r)[k..k + 4]
  {
    hide FixedFields, Encode;
    var d := FixedFields(r);
    var front := r.macs + r.etherType + r.ipHeader + r.udpHeader;
    var b := ReplyBytes(r);
    assert d == d[..k] + d[k..k + 4] + d[k + 4..];
    assert b == (front + d[..k]) + d[k..k + 4] + (d[k + 4..] + Encode(r.options));
    QuadIn(b, 22 + |r.ipHeader| + k, front + d[..k], d[k..k + 4], d[k + 4..] + Encode(r.options));
  }

  lemma {:induction false} FrontRead(r: Reply)
    requires Laid(r) && |FixedFields(r)| == 240
    ensures var b, n := ReplyBytes(r), |r.ipHeader|;
      && |b| >= 262 + n && b[12] == r.etherType[0] && b[13] == r.etherType[1] && b[14] == r.ipHeader[0]
      && b[23] == r.ipHeader[9] && b[22 + n] == FixedFields(r)[0] && b[262 + n..] == Encode(r.options)
  {
    hide FixedFields, Encode;
    var front := r.macs + r.etherType + r.ipHeader + r.udpHeader;
    var b := ReplyBytes(r);
    assert b == front + FixedFields(r) + Encode(r.options);
    assert b[..|front|] == front;
    assert front[12] == r.etherType[0] && front[13] == r.etherType[1] && front[14] == r.ipHeader[0];
    assert front[23] == r.ipHeader[9];
  }

  // The client reads the fields where the server laid them, whatever the length of the IP header.
  lemma {:induction false} ReplyRead(r: Reply)
    requires Laid(r)
    ensures var b := ReplyBytes(r);
      && (IsReply(b) <==> Genuine(r))
      && QuadAt(b, DhcpAt(b) + 4) == r.xid && OfferedAddress(b) == r.yiaddr
      && FoundIn(b) == TakeAll(NOTHING, r.options, 0)
  {
    hide FixedFields, Encode, Walk, QuadAt, TakeAll, ReplyBytes;
    var b := ReplyBytes(r);
    FixedRead(r);
    FrontRead(r);
    FixedQuad(r, 4);
    FixedQuad(r, 16);
    FixedQuad(r, 236);
    assert DhcpAt(b) == 22 + |r.ipHeader|;
    assert r.etherType == [8, 0] <==> r.etherType[0] == 8 && r.etherType[1] == 0;
    WalkVisitsAll([], r.options, NOTHING);
    assert [] + Encode(r.options) == Encode(r.options);
  }

  // What a client does with such a packet: it takes the address and, from the options, server and mask of an offer
  // and requests them; an acknowledgement configures it; another client's reply, and anything else, changes nothing.
  ghost predicate TakesReply(c: Client, xid: Quad, r: Reply, c': Client)
    requires Laid(r)
  {
    var f := TakeAll(NOTHING, r.options, 0);
    if !Genuine(r) || r.xid != xid then c' == c
    else if f.message == 2 then
      && c'.ip == r.yiaddr && c'.server == f.server && c'.mask == f.mask && !c'.configured && c'.acks == c.acks
      && c'.sent == c.sent + [Message(3, r.yiaddr, f.server)]
    else if f.message == 5 then c' == c.(configured := true, acks := c.acks + 1)
    else c' == c
  }

  lemma {:induction false} ReplyTaken(c: Client, xid: Quad, r: Reply)
    requires Laid(r)
    ensures TakesReply(c, xid, r, Step(c, xid, Packet(ReplyBytes(r))))
  {
    hide IsReply, FoundIn, TakeAll, QuadAt, OfferedAddress, DhcpAt, ReplyBytes, Laid, Genuine;
    ReplyRead(r);
  }

  // An offer with the usual options: address, server and mask are taken from where the server put them.
  lemma {:induction false} OfferTaken(c: Client, r: Reply, server: Quad, mask: Quad)
    requires Laid(r) && Genuine(r) && r.options == [Opt(53, [2]), Opt(54, server), Opt(1, mask)]
    ensures var c' := Step(c, r.xid, Packet(ReplyBytes(r)));
      && c'.ip == r.yiaddr && c'.server == server && c'.mask == mask && !c'.configured
      && c'.sent == c.sent + [Message(3, r.yiaddr, server)]
  {
    hide IsReply, FoundIn, TakeAll, QuadAt, OfferedAddress, DhcpAt, ReplyBytes, Step;
    ReplyTaken(c, r.xid, r);
    UsualOptions(server, mask);
  }

  lemma {:induction false} UsualOptions(server: Quad, mask: Quad)
    ensures var opts := [Opt(53, [2]), Opt(54, server), Opt(1, mask)];
      && (forall k :: 0 <= k < |opts| ==> Proper(opts[k]))
      && TakeAll(NOTHING, opts, 0) == Found(2, server, mask)
  {
    var o1, o2, o3 := Opt(53, [2]), Opt(54, server), Opt(1, mask);
    assert [o1, o2, o3][1..] == [o2, o3] && [o2, o3][1..] == [o3] && [o3][1..] == [];
    assert server[..4] == server && mask[..4] == mask;
    var f1 := Found(2, ZERO, ZERO);
    var f2 := f1.(server := server);
    assert TakeAll(f2.(mask := mask), [], 15) == f2.(mask := mask);
    assert TakeAll(f2, [o3], 9) == f2.(mask := mask);
    assert TakeAll(f1, [o2, o3], 3) == f2.(mask := mask);
  }

  // ---- What is sent, byte by byte ----

  // A frame holds, at the offsets of its headers: broadcast and own hardware address and the type of IPv4; a plain
  // IP header for UDP, from no address to all; and ports 68 and 67.
  lemma {:induction false} FrameHeaders(xid: Quad, mac: Mac, m: Message)
    requires Sendable(m) && Short(Options(m))
    ensures var frame := Frame(xid, mac, m);
      && |frame| == (if m.kind == 1 then 286 else 298)
      && frame[..14] == [255, 255, 255, 255, 255, 255] + mac + [8, 0]
      && frame[14..24] == [0x45, 0, (|frame| - 14) / 256, (|frame| - 14) % 256, 0, 0, 0, 0, 128, 17]
      && frame[26..34] == [0, 0, 0, 0, 255, 255, 255, 255]
      && frame[34..40] == [0, 68, 0, 67, (|frame| - 34) / 256, (|frame| - 34) % 256]
  {
    hide C.Checksum, Encode, Options, Datagram, IpChecked, UdpChecked, IpHeader;
    var options := Encode(Options(m));
    var datagram := Datagram(xid, mac, options);
    var header, udp := IpChecked(IpHeader(IP_LENGTH + |datagram|)), UdpChecked(datagram);
    EncodedOptions(m);
    IpFields(IP_LENGTH + |datagram|);
    UdpFields(xid, mac, options);
    var head := [255, 255, 255, 255, 255, 255] + mac + [8, 0];
    assert Frame(xid, mac, m) == head + header + udp;
    HeaderAt(head, header, udp);
    DatagramAt(head + header, udp);
  }

  // Then a request with the client's transaction and hardware address, no other field set, and the options.
  lemma {:induction false} FrameMessage(xid: Quad, mac: Mac, m: Message)
    requires Sendable(m) && Short(Options(m))
    ensures var frame := Frame(xid, mac, m);
      && |frame| > 282
      && frame[42..50] == [1, 1, 6, 0] + xid && frame[70..76] == mac && frame[278..282] == [0x63, 0x82, 0x53, 0x63]
      && (forall k :: 50 <= k < 70 || 76 <= k < 278 ==> frame[k] == 0)
      && frame[282..] ==
           [53, 1, m.kind] + (if m.kind == 1 then [] else [50, 4] + m.ip + [54, 4] + m.server) + [255]
  {
    hide C.Checksum, Encode, Options, Datagram, IpChecked, UdpChecked, IpHeader;
    var options := Encode(Options(m));
    var datagram := Datagram(xid, mac, options);
    var front := [255, 255, 255, 255, 255, 255] + mac + [8, 0] + IpChecked(IpHeader(IP_LENGTH + |datagram|));
    var udp := UdpChecked(datagram);
    UdpFields(xid, mac, options);
    assert Frame(xid, mac, m) == front + udp;
    DatagramAt(front, udp);
    OptionBytes(m);
  }

  lemma {:induction false} OptionBytes(m: Message)
    requires Sendable(m) && Short(Options(m))
    ensures Encode(Options(m)) ==
      [53, 1, m.kind] + (if m.kind == 1 then [] else [50, 4] + m.ip + [54, 4] + m.server) + [255]
  {
    hide Encode, Options;
    EncodedOptions(m);
  }

  lemma {:induction false} HeaderAt(head: seq<byte>, header: seq<byte>, udp: seq<byte>)
    requires |head| == 14 && |header| == 20
    ensures var f := head + header + udp; f[..14] == head && f[14..24] == header[..10] && f[26..34] == header[12..]
  {
  }

  lemma {:induction false} DatagramAt(front: seq<byte>, udp: seq<byte>)
    requires |front| == 34 && |udp| >= 248
    ensures var f := front + udp;
      && f[34..40] == udp[..6] && f[42..50] == udp[8..16] && f[70..76] == udp[36..42] && f[278..282] == udp[244..248]
      && f[282..] == udp[248..] && forall k :: 34 <= k < |f| ==> f[k] == udp[k - 34]
  {
  }

  lemma {:induction false} IpFields(length: nat)
    ensures var h := IpChecked(IpHeader(length));
      && h[..10] == [0x45, 0, (length / 256) % 256, length % 256, 0, 0, 0, 0, 128, 17]
      && h[12..] == [0, 0, 0, 0, 255, 255, 255, 255]
  {
    hide C.Checksum;
  }

  lemma {:induction false} UdpFields(xid: Quad, mac: Mac, options: seq<byte>)
    ensures var u := UdpChecked(Datagram(xid, mac, options));
      && |u| == 248 + |options|
      && u[..6] == [0, 68, 0, 67, (|u| / 256) % 256, |u| % 256]
      && u[8..16] == [1, 1, 6, 0] + xid && u[36..42] == mac && u[244..248] == [0x63, 0x82, 0x53, 0x63]
      && (forall k :: 16 <= k < 36 || 42 <= k < 244 ==> u[k] == 0)
      && u[248..] == options
  {
    hide C.Checksum, DhcpHeader;
    var d := Datagram(xid, mac, options);
    var u := UdpChecked(d);
    assert d[8..] == u[8..] && d[..6] == u[..6];
    RequestFields(xid, mac);
    var h := DhcpHeader(xid, mac);
    assert d[8..248] == h && d[248..] == options;
    assert u[8..16] == h[..8] && u[36..42] == h[28..34] && u[244..248] == h[236..];
    forall k | 16 <= k < 36 || 42 <= k < 244 ensures u[k] == 0 { assert u[k] == d[k] == h[k - 8]; }
  }

  lemma {:induction false} RequestFields(xid: Quad, mac: Mac)
    ensures var h := DhcpHeader(xid, mac);
      && h[..8] == [1, 1, 6, 0] + xid && h[28..34] == mac && h[236..] == [0x63, 0x82, 0x53, 0x63]
      && forall k :: 8 <= k < 28 || 34 <= k < 236 ==> h[k] == 0
  {
  }

  // What a client sends of its own accord: a discover, a request for what it holds, and a release only when it is
  // configured; after each of them it is not.
  lemma {:induction false} SendsOwn(c: Client, xid: Quad)
    ensures var d, q, r := Step(c, xid, Discover), Step(c, xid, Request), Step(c, xid, Release);
      && d.sent == c.sent + [Message(1, c.ip, c.server)] && q.sent == c.sent + [Message(3, c.ip, c.server)]
      && r.sent == c.sent + (if c.configured then [Message(7, c.ip, c.server)] else [])
      && !d.configured && !q.configured && !r.configured
      && forall c' :: c' in {d, q, r} ==>
           c'.ip == c.ip && c'.server == c.server && c'.mask == c.mask && c'.acks == c.acks
  {
    assert c.sent + [] == c.sent;
  }

  class DhcpClient {
    var ip: Quad
    var server: Quad
    var mask: Quad
    var isConfigured: bool
    const mac: Mac
    const xid: Quad
    var outbox: seq<seq<byte>>
    ghost var sent: seq<Message>
    ghost var acks: nat

    ghost function Now(): Client
      reads this
    {
      Client(ip, server, mask, isConfigured, sent, acks)
    }

    // The frames handed to the transport are those of the messages sent.
    ghost predicate Valid()
      reads this
    {
      |outbox| == |sent| &&
      forall i :: 0 <= i < |sent| ==>
        Sendable(sent[i]) && Short(Options(sent[i])) && outbox[i] == Frame(xid, mac, sent[i])
    }

    constructor (mac: Mac, xid: Quad)
      ensures Valid() && Now() == NEW
    {
      this.mac, this.xid := mac, xid;
      ip, server, mask, isConfigured, outbox := ZERO, ZERO, ZERO, false, [];
      sent, acks := [], 0;
    }

    method SendPacket(kind: byte)
      requires Valid() && (kind == DHCPDISCOVER || kind == DHCPREQUEST || kind == DHCPRELEASE)
      modifies this`outbox, this`sent
      ensures Valid() && sent == old(sent) + [Message(kind, ip, server)]
    {
      hide Frame, Options, Short;
      var m := Message(kind, ip, server);
      var frame := BuildFrame(xid, mac, m);
      outbox := outbox + [frame];
      sent := sent + [m];
    }

    method SendDiscover()
      requires Valid()
      modifies this
      ensures Valid() && Now() == Step(old(Now()), xid, Discover)
    {
      SendPacket(DHCPDISCOVER);
      isConfigured := false;
    }

    method SendRequest()
      requires Valid()
      modifies this
      ensures Valid() && Now() == Step(old(Now()), xid, Request)
    {
      SendPacket(DHCPREQUEST);
      isConfigured := false;
    }

    method SendRelease()
      requires Valid()
      modifies this
      ensures Valid() && Now() == Step(old(Now()), xid, Release)
    {
      if isConfigured { SendPacket(DHCPRELEASE); }
      isConfigured := false;
    }

    // True for replies meant for another client.
    method Dispatch(packet: seq<byte>) returns (foreign: bool)
      requires Valid()
      modifies this
      ensures Valid() && Now() == Step(old(Now()), xid, Packet(packet))
      ensures foreign == (IsReply(packet) && !IsOurs(packet, xid))
      // said of the fields a server lays out
      ensures forall r: Reply :: Laid(r) && packet == ReplyBytes(r) ==>
        TakesReply(old(Now()), xid, r, Now()) && foreign == (Genuine(r) && r.xid != xid)
    {
      hide Walk, Frame, Options, Short, QuadAt, TakesReply, Laid, ReplyBytes, Genuine;
      forall r: Reply | Laid(r) && packet == ReplyBytes(r)
        ensures TakesReply(Now(), xid, r, Step(Now(), xid, Packet(packet)))
        ensures Genuine(r) && r.xid != xid <==> IsReply(packet) && !IsOurs(packet, xid)
      {
        ReplyTaken(Now(), xid, r);
        ReplyRead(r);
      }
      if !IsReply(packet) { return false; }
      if QuadAt(packet, DhcpAt(packet) + 4) != xid { return true; }
      var f := WalkOptions(OptionsOf(packet));
      if f.message == DHCPOFFER {
        ip, server, mask := OfferedAddress(packet), f.server, f.mask;
        SendRequest();
      } else if f.message == DHCPACK {
        isConfigured := true;
        acks := acks + 1;
      }
      return false;
    }
  }

  // ---- Runs ----

  function Run(xid: Quad, events: seq<Event>): Client {
    if events == [] then NEW else Step(Run(xid, events[..|events| - 1]), xid, events[|events| - 1])
  }

  // The last request sent, or one for nothing.
  function LastRequest(sent: seq<Message>): Message {
    if sent == [] then Message(DHCPREQUEST, ZERO, ZERO)
    else if sent[|sent| - 1].kind == DHCPREQUEST then sent[|sent| - 1]
    else LastRequest(sent[..|sent| - 1])
  }

  function Releases(sent: seq<Message>): nat {
    if sent == [] then 0 else Releases(sent[..|sent| - 1]) + if sent[|sent| - 1].kind == DHCPRELEASE then 1 else 0
  }

  lemma {:induction false} OneSent(sent: seq<Message>, m: Message)
    ensures LastRequest(sent + [m]) == if m.kind == DHCPREQUEST then m else LastRequest(sent)
    ensures Releases(sent + [m]) == Releases(sent) + if m.kind == DHCPRELEASE then 1 else 0
  {
    var s := sent + [m];
    assert s[..|s| - 1] == sent;
  }

  // Over every run: the address and server held are those of the last request sent, and releases never
  // outnumber the acknowledgements received for the client's own transaction.
  lemma {:induction false} ClientRuns(xid: Quad, events: seq<Event>)
    ensures var c := Run(xid, events);
      && LastRequest(c.sent).ip == c.ip && LastRequest(c.sent).server == c.server
      && Releases(c.sent) + (if c.configured then 1 else 0) <= c.acks
  {
    hide Walk, IsReply, QuadAt, LastRequest, Releases;
    if events == [] {
      NothingSent();
    } else {
      var n := |events| - 1;
      ClientRuns(xid, events[..n]);
      var c := Run(xid, events[..n]);
      match events[n]
      case Discover => OneSent(c.sent, Message(DHCPDISCOVER, c.ip, c.server));
      case Request => OneSent(c.sent, Message(DHCPREQUEST, c.ip, c.server));
      case Release => OneSent(c.sent, Message(DHCPRELEASE, c.ip, c.server));
      case Packet(b) => OneSent(c.sent, Message(DHCPREQUEST, OfferedAddress(b), FoundIn(b).server));
    }
  }

  lemma {:induction false} NothingSent()
    ensures LastRequest([]) == Message(DHCPREQUEST, ZERO, ZERO) && Releases([]) == 0
  {
  }

  // ---- What an acknowledgement answers ----

  // The headers of an Ethernet frame with UDP in it, as far as the client looks at them.
  const ACK_HEADERS: seq<byte> :=
    [0, 0, 0, 0, 0, 0, 0, 0, 0, 0, 0, 0, 8, 0, 0x45, 0, 0, 0, 0, 0, 0, 0, 0, 17] + Zeros(18)

  // A reply for this transaction whose only option is the message type.
  function AckPacket(xid: Quad): seq<byte> {
    ACK_HEADERS + ([2, 0, 0, 0] + xid + Zeros(228) + [0x63, 0x82, 0x53, 0x63]) + [MESSAGE_TYPE, 1, DHCPACK, END]
  }

  lemma {:induction false} AckIsOurs(xid: Quad)
    ensures IsOurs(AckPacket(xid), xid) && FoundIn(AckPacket(xid)).message == DHCPACK
  {
    hide Walk;
    var p := AckPacket(xid);
    assert |ACK_HEADERS| == 42 && |p| == 286;
    assert p[14] == 0x45 && DhcpAt(p) == 42;
    assert p[278..282] == [0x63, 0x82, 0x53, 0x63] && p[46..50] == xid;
    assert QuadAt(p, 278) == p[278..282] && QuadAt(p, 46) == p[46..50];
    assert p[282..] == [MESSAGE_TYPE, 1, DHCPACK, END];
    AckOptions();
  }

  lemma {:induction false} AckOptions()
    ensures Walk([MESSAGE_TYPE, 1, DHCPACK, END], 0, NOTHING).message == DHCPACK
  {
    var b: seq<byte> := [MESSAGE_TYPE, 1, DHCPACK, END];
    assert Walk(b, 3, NOTHING.(message := DHCPACK)).message == DHCPACK;
  }

  // An acknowledgement configures the client whether or not it asked for anything: a client can be
  // configured with no address at all.
  lemma {:induction false} ConfiguredWithoutRequest(xid: Quad)
    ensures var c := Run(xid, [Packet(AckPacket(xid))]); c.configured && c.ip == ZERO && c.sent == []
  {
    hide Walk, IsReply, AckPacket, FoundIn;
    var events := [Packet(AckPacket(xid))];
    AckIsOurs(xid);
    assert events[..0] == [];
  }

  predicate Asked(sent: seq<Message>) {
    exists m <- sent :: m.kind == DHCPREQUEST
  }

  predicate IsAck(e: Event, xid: Quad) {
    e.Packet? && IsOurs(e.bytes, xid) && FoundIn(e.bytes).message == DHCPACK
  }

  // No acknowledgement for the client's transaction comes before its first request.
  predicate Answers(xid: Quad, events: seq<Event>) {
    forall k :: 0 <= k < |events| && IsAck(events[k], xid) ==> Asked(Run(xid, events[..k]).sent)
  }

  predicate AlwaysAsked(xid: Quad, events: seq<Event>) {
    forall k :: 0 <= k <= |events| && Run(xid, events[..k]).configured ==> Asked(Run(xid, events[..k]).sent)
  }

  lemma {:induction false} OneEvent(c: Client, xid: Quad, e: Event)
    ensures var c' := Step(c, xid, e);
      && (Asked(c.sent) ==> Asked(c'.sent))
      && (IsAck(e, xid) ==> c'.configured && c'.sent == c.sent)
      && (!IsAck(e, xid) && c'.configured ==> c.configured)
  {
    hide IsReply, FoundIn, QuadAt;
    var c' := Step(c, xid, e);
    assert forall m <- c.sent :: m in c'.sent;
  }

  // That is exactly what it takes: at every point of a run a client that is configured has sent a request, the
  // last of them for the address it holds, if and only if no acknowledgement comes before the first request.
  lemma {:induction false} ConfiguredMeansAsked(xid: Quad, events: seq<Event>)
    ensures AlwaysAsked(xid, events) <==> Answers(xid, events)
  {
    hide Step, IsAck, Asked;
    forall k | 0 <= k < |events|
      ensures events[..k + 1][..k] == events[..k] && events[..k + 1][k] == events[k]
      ensures Run(xid, events[..k + 1]) == Step(Run(xid, events[..k]), xid, events[k])
    {
    }
    forall k | 0 <= k < |events| && AlwaysAsked(xid, events) && IsAck(events[k], xid)
      ensures Asked(Run(xid, events[..k]).sent) {
      OneEvent(Run(xid, events[..k]), xid, events[k]);
      var next := k + 1;
      assert Run(xid, events[..next]).configured;
    }
    if Answers(xid, events) { AskedSoFar(xid, events, |events|); }
  }

  lemma {:induction false} AskedSoFar(xid: Quad, events: seq<Event>, n: nat)
    requires Answers(xid, events) && n <= |events|
    ensures forall k :: 0 <= k <= n && Run(xid, events[..k]).configured ==> Asked(Run(xid, events[..k]).sent)
  {
    hide Step, IsAck, Asked;
    if n > 0 {
      AskedSoFar(xid, events, n - 1);
      assert events[..n][..n - 1] == events[..n - 1] && events[..n][n - 1] == events[n - 1];
      OneEvent(Run(xid, events[..n - 1]), xid, events[n - 1]);
    }
  }
}
