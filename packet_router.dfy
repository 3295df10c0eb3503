/**
 * The packet router of the VPN service: every IPv4 packet read from the tun
 * device is either answered by the embedded nameserver, handed to the TCP
 * connection its 4-tuple names, or dropped. The router owns the table of TCP
 * connections, keyed by "src:sport-dst:dport".
 *
 * Packet parsing, the per-connection TCP state machine and the nameserver are
 * collaborators whose code is not part of this model: a packet is the parsed
 * record, a connection follows the abstract transition functions of a
 * `TcpMachine`, and the nameserver answers through an abstract function.
 */
module PacketRouting {
  import opened Wrappers
  import opened Octets
  import opened FlowKey

  /** IANA protocol numbers of the two transports the router distinguishes. */
  const TCP_PROTOCOL: Octet := 6
  const UDP_PROTOCOL: Octet := 17

  /** The TCP header fields the router reads; `syn` is the SYN control bit (section 3.1 of RFC 793). */
  datatype TcpHeader = TcpHeader(srcPort: Port, dstPort: Port, syn: bool)

  /** What the parser made of an IPv4 packet's payload: nothing (a null `payload`), a TCP segment, or something else. */
  datatype Payload = NoPayload | TcpSegment(header: TcpHeader) | OtherPayload

  /** A packet as parsed from the tun device. */
  datatype Packet =
    | NonIpv4
    | Ipv4(src: Ipv4Address, dst: Ipv4Address, protocol: Octet, payload: Payload)

  /** Connection states of section 3.2 of RFC 793; the router only tests for `Closed`. */
  datatype TcpState =
    | Listen | SynSent | SynReceived | Established | FinWait1 | FinWait2
    | CloseWait | Closing | LastAck | TimeWait | Closed

  /** What a connection reports: its `state`, and its `isClosed()`. */
  datatype ConnStatus = ConnStatus(state: TcpState, closed: bool)

  /** The abstract TCP state machine of a tunnel connection. */
  datatype TcpMachine = TcpMachine(
    accept: Packet -> ConnStatus,
    receive: (ConnStatus, Packet) -> ConnStatus,
    closeOutbound: ConnStatus -> ConnStatus)

  /** Why `route` throws. */
  datatype RouteError =
    | IllegalState  // a SYN for a connection that already exists
    | NullPointer   // a TCP or UDP packet without a payload
    | ClassCast     // a TCP packet whose payload is not a TCP segment

  datatype Outcome = Routed | Threw(error: RouteError)

  /** Where `route` sends a packet, in the order it decides. */
  datatype Path = Unhandled | ToNameserver | ToTcp | ToUdp | Dropped

  function Dispatch(p: Packet, dnsAddr: string): (r: Path)
    ensures r == Unhandled <==> p.NonIpv4?
    ensures r == ToNameserver <==> p.Ipv4? && HostAddress(p.dst) == dnsAddr
    ensures r == ToTcp <==> p.Ipv4? && HostAddress(p.dst) != dnsAddr && p.protocol == TCP_PROTOCOL
    ensures r == ToUdp <==> p.Ipv4? && HostAddress(p.dst) != dnsAddr && p.protocol == UDP_PROTOCOL
  {
    if p.NonIpv4? then Unhandled
    else if HostAddress(p.dst) == dnsAddr then ToNameserver
    else if p.protocol == TCP_PROTOCOL then ToTcp
    else if p.protocol == UDP_PROTOCOL then ToUdp
    else Dropped
  }

  /** The table key of a TCP packet's flow. */
  function FlowOf(p: Packet): string
    requires p.Ipv4? && p.payload.TcpSegment?
  {
    ConnKey(p.src, p.payload.header.srcPort, p.dst, p.payload.header.dstPort)
  }

  /** `ZitiTunnelConnection`. */
  class Connection {
    const machine: TcpMachine
    /** The SYN that opened the connection. */
    const opening: Packet
    var status: ConnStatus
    /** Every packet passed to `process`, in order. */
    var received: seq<Packet>
    var outboundClosed: bool

    constructor (machine: TcpMachine, syn: Packet)
      ensures this.machine == machine && opening == syn
      ensures status == machine.accept(syn) && received == [] && !outboundClosed
    {
      this.machine := machine;
      opening := syn;
      status := machine.accept(syn);
      received := [];
      outboundClosed := false;
    }

    /** `process(msg)`. */
    method Process(p: Packet)
      modifies this
      ensures status == machine.receive(old(status), p)
      ensures received == old(received) + [p] && outboundClosed == old(outboundClosed)
    {
      status := machine.receive(status, p);
      received := received + [p];
    }

    /** `closeOutbound()`. */
    method CloseOutbound()
      modifies this
      ensures status == machine.closeOutbound(old(status))
      ensures received == old(received) && outboundClosed
    {
      status := machine.closeOutbound(status);
      outboundClosed := true;
    }
  }

  /** `ZitiNameserver`: answers the queries addressed to the DNS address. */
  class Nameserver {
    const answer: Packet -> Option<seq<Octet>>
    /** Every packet passed to `process`, in order. */
    var queries: seq<Packet>

    constructor (answer: Packet -> Option<seq<Octet>>)
      ensures this.answer == answer && queries == []
    {
      this.answer := answer;
      queries := [];
    }

    /** `process(packet)`: the raw reply, or None for no reply. */
    method Process(p: Packet) returns (reply: Option<seq<Octet>>)
      modifies this
      ensures queries == old(queries) + [p] && reply == answer(p)
    {
      queries := queries + [p];
      reply := answer(p);
    }
  }

  /** The connections whose state is not `Closed`: what the periodic sweep keeps. */
  function Unclosed(table: map<string, Connection>): (r: map<string, Connection>)
    reads table.Values
    ensures r.Keys <= table.Keys
    ensures forall k :: k in table ==> (k in r <==> table[k].status.state != Closed)
    ensures forall k :: k in r ==> r[k] == table[k]
  {
    map k | k in table && table[k].status.state != Closed :: table[k]
  }

  /** `PacketRouterImpl`. */
  class Router {
    const dnsAddr: string
    const nameserver: Nameserver
    const machine: TcpMachine
    var tcpConnections: map<string, Connection>
    /** Every buffer the router itself passed to `inbound`, in order. */
    var delivered: seq<seq<Octet>>

    /** Each connection object sits under one key only. */
    ghost predicate Valid()
      reads this
    {
      forall k, k' :: k in tcpConnections && k' in tcpConnections && k != k' ==>
        tcpConnections[k] != tcpConnections[k']
    }

    constructor (dnsAddr: string, nameserver: Nameserver, machine: TcpMachine)
      ensures Valid()
      ensures this.dnsAddr == dnsAddr && this.nameserver == nameserver && this.machine == machine
      ensures tcpConnections == map[] && delivered == []
    {
      this.dnsAddr := dnsAddr;
      this.nameserver := nameserver;
      this.machine := machine;
      tcpConnections := map[];
      delivered := [];
    }

    /** The connection a packet is forwarded to: that of a non-SYN TCP segment whose flow has an entry. */
    function Target(msg: Packet): (r: set<Connection>)
      reads this
      ensures r <= tcpConnections.Values
      ensures |r| <= 1
    {
      if msg.Ipv4? && msg.payload.TcpSegment? && !msg.payload.header.syn && FlowOf(msg) in tcpConnections
      then {tcpConnections[FlowOf(msg)]} else {}
    }

    /** The effect of `routeTCP(msg)` on the table and on the connection it forwards to. */
    twostate predicate RoutedTcp(msg: Packet, outcome: Outcome)
      requires msg.Ipv4?
      reads *
    {
      && delivered == old(delivered)
      && (msg.payload.NoPayload? ==>
            outcome == Threw(NullPointer) && tcpConnections == old(tcpConnections))
      && (msg.payload.OtherPayload? ==>
            outcome == Threw(ClassCast) && tcpConnections == old(tcpConnections))
      && (msg.payload.TcpSegment? ==>
            var key := FlowOf(msg);
            if msg.payload.header.syn then
              if key in old(tcpConnections) then
                outcome == Threw(IllegalState) && tcpConnections == old(tcpConnections)
              else
                && outcome == Routed
                && key in tcpConnections
                && tcpConnections == old(tcpConnections)[key := tcpConnections[key]]
                && fresh(tcpConnections[key])
                && tcpConnections[key].opening == msg
                && tcpConnections[key].machine == machine
                && tcpConnections[key].status == machine.accept(msg)
                && tcpConnections[key].received == []
                && !tcpConnections[key].outboundClosed
            else if key in old(tcpConnections) then
              var conn := old(tcpConnections)[key];
              && outcome == Routed
              && conn.received == old(conn.received) + [msg]
              && conn.status == conn.machine.receive(old(conn.status), msg)
              && conn.outboundClosed == old(conn.outboundClosed)
              && tcpConnections == if conn.status.closed then old(tcpConnections) - {key} else old(tcpConnections)
            else
              outcome == Routed && tcpConnections == old(tcpConnections))
    }

    /** `route(b)`. */
    method Route(p: Packet) returns (outcome: Outcome)
      requires Valid()
      modifies this, nameserver, if Dispatch(p, dnsAddr) == ToTcp then Target(p) else {}
      ensures Valid()
      ensures Dispatch(p, dnsAddr) != ToNameserver ==> nameserver.queries == old(nameserver.queries)
      ensures Dispatch(p, dnsAddr) != ToTcp ==> tcpConnections == old(tcpConnections)
      ensures Dispatch(p, dnsAddr) in {Unhandled, ToNameserver, Dropped} ==> outcome == Routed
      ensures Dispatch(p, dnsAddr) == ToUdp ==>
        outcome == if p.payload.NoPayload? then Threw(NullPointer) else Routed
      ensures Dispatch(p, dnsAddr) in {Unhandled, ToUdp, Dropped} ==> delivered == old(delivered)
      ensures Dispatch(p, dnsAddr) == ToNameserver ==>
        && nameserver.queries == old(nameserver.queries) + [p]
        && var reply := nameserver.answer(p);
           delivered == old(delivered) + (if reply.Some? then [reply.value] else [])
      ensures Dispatch(p, dnsAddr) == ToTcp ==> RoutedTcp(p, outcome)
    {
      if p.NonIpv4? {
        return Routed;
      }
      if HostAddress(p.dst) == dnsAddr {
        var reply := nameserver.Process(p);
        if reply.Some? {
          delivered := delivered + [reply.value];
        }
        return Routed;
      }
      if p.protocol == TCP_PROTOCOL {
        outcome := RouteTcp(p);
      } else if p.protocol == UDP_PROTOCOL {
        outcome := ProcessUdp(p);
      } else {
        outcome := Routed;
      }
    }

    /**
     * `processUDP`: UDP is not supported, so the packet is only logged. The log
     * message reads the payload's header, which throws when there is no payload.
     */
    method ProcessUdp(p: Packet) returns (outcome: Outcome)
      requires p.Ipv4?
      ensures outcome.Threw? <==> p.payload.NoPayload?
      ensures outcome.Threw? ==> outcome.error == NullPointer
    {
      if p.payload.NoPayload? {
        return Threw(NullPointer);
      }
      return Routed;
    }

    /** `routeTCP(msg)`. */
    method RouteTcp(msg: Packet) returns (outcome: Outcome)
      requires Valid() && msg.Ipv4?
      modifies this, Target(msg)
      ensures Valid()
      ensures RoutedTcp(msg, outcome)
    {
      if msg.payload.NoPayload? {
        return Threw(NullPointer);
      } else if msg.payload.OtherPayload? {
        return Threw(ClassCast);
      }
      var key := FlowOf(msg);
      if msg.payload.header.syn {
        if key in tcpConnections {
          return Threw(IllegalState);
        }
        var conn := new Connection(machine, msg);
        tcpConnections := tcpConnections[key := conn];
        return Routed;
      } else if key in tcpConnections {
        var conn := tcpConnections[key];
        conn.Process(msg);
        if conn.status.closed {
          tcpConnections := tcpConnections - {key};
        }
        return Routed;
      }
      return Routed;
    }

    /** `stop()`: every connection closes its outbound side; the table keeps its entries. */
    method Stop()
      requires Valid()
      modifies tcpConnections.Values
      ensures tcpConnections == old(tcpConnections)
      ensures forall c :: c in tcpConnections.Values ==>
        && c.outboundClosed
        && c.status == c.machine.closeOutbound(old(c.status))
        && c.received == old(c.received)
    {
      var pending := tcpConnections.Keys;
      while pending != {}
        invariant pending <= tcpConnections.Keys
        invariant forall k :: k in tcpConnections && k !in pending ==>
          var c := tcpConnections[k];
          c.outboundClosed && c.status == c.machine.closeOutbound(old(c.status)) && c.received == old(c.received)
        invariant forall k :: k in pending ==>
          var c := tcpConnections[k];
          c.outboundClosed == old(c.outboundClosed) && c.status == old(c.status) && c.received == old(c.received)
        decreases pending
      {
        var k :| k in pending;
        tcpConnections[k].CloseOutbound();
        pending := pending - {k};
      }
    }

    /** The body of the periodic timer: drop every connection whose state is `Closed`. */
    method Sweep()
      requires Valid()
      modifies this
      ensures Valid()
      ensures tcpConnections == Unclosed(old(tcpConnections))
      ensures delivered == old(delivered)
    {
      var pending := tcpConnections.Keys;
      while pending != {}
        invariant pending <= old(tcpConnections).Keys
        invariant delivered == old(delivered)
        invariant tcpConnections.Keys <= old(tcpConnections).Keys
        invariant forall k :: k in tcpConnections ==> tcpConnections[k] == old(tcpConnections)[k]
        invariant forall k :: k in old(tcpConnections) ==>
          (k in tcpConnections <==> k in pending || old(tcpConnections)[k].status.state != Closed)
        decreases pending
      {
        var k :| k in pending;
        if tcpConnections[k].status.state == Closed {
          tcpConnections := tcpConnections - {k};
        }
        pending := pending - {k};
      }
    }
  }
}
