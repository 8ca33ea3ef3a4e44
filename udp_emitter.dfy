/**
 * `UDPDaemonSegmentEmitter` (src/emitter/udp.emitter.ts): sends each segment
 * to the X-Ray daemon as one UDP datagram, one after the other, to the address
 * configured by `AWS_XRAY_DAEMON_ADDRESS` or to 127.0.0.1:2000.
 *
 * The socket is abstract: every datagram handed to it is recorded, and its
 * answer to the `n`-th send (an error or none) is fixed by `failure`.
 * `JSON.stringify` is the parameter `serialize`.
 */
module UdpEmitter {
  import opened Wrappers
  import opened Strings
  import opened Js
  import opened Util
  import opened Document

  // ---------------------------------------------------------------------------
  // The daemon address.

  /** Where datagrams go; the ip is `undefined` when the address names none. */
  datatype DaemonConfig = DaemonConfig(udpIp: Option<string>, udpPort: Number)

  const DEFAULT_CONFIG := DaemonConfig(Some("127.0.0.1"), Finite(2000.0))

  const NO_PORT := "Invalid Daemon Address. You must specify an IP and port."
  const NO_IP := "Invalid Daemon Address. You must specify an IP."
  /** What V8 throws when `addrMap['udp']` is missing and `[1]` is read from it. */
  const NO_UDP := "Cannot read properties of undefined (reading '1')"

  /** `p[k]`, `undefined` past the end. */
  function At(p: seq<string>, k: nat): (r: Option<string>)
    ensures r.Some? <==> k < |p|
    ensures r.Some? ==> r.value == p[k]
  {
    if k < |p| then Some(p[k]) else None
  }

  /** `addrMap['udp']` after both tokens are entered by their first colon-separated piece; the second token wins a tie. */
  function UdpPart(part1: seq<string>, part2: seq<string>): Option<seq<string>>
    requires |part1| >= 1 && |part2| >= 1
  {
    if part2[0] == "udp" then Some(part2)
    else if part1[0] == "udp" then Some(part1)
    else None
  }

  /** `processAddress(address)` applied to `cfg`: the new configuration, or the error it throws. */
  function ProcessAddress(address: string, cfg: DaemonConfig): (r: Result<DaemonConfig>)
    ensures Free(address, ':') <==> r == Throws(NO_PORT)
    ensures |Split(address, ' ')| >= 3 && !Free(address, ':') ==> r == Ok(cfg)
  {
    if IndexOf(address, ':') == -1 then Throws(NO_PORT)
    else
      var tokens := Split(address, ' ');
      if |tokens| == 1 then
        var addr := Split(address, ':');
        if addr[0] == "" then Throws(NO_IP)
        else Ok(DaemonConfig(Some(addr[0]), ParseInt(addr[1], 0)))
      else if |tokens| == 2 then
        match UdpPart(Split(tokens[0], ':'), Split(tokens[1], ':'))
        case None => Throws(NO_UDP)
        case Some(p) => Ok(DaemonConfig(At(p, 1), ParseInt(Show(At(p, 2)), 0)))
      else Ok(cfg)
  }

  /** Splitting a string without the separator gives the string alone. */
  lemma SplitFree(s: string, sep: char)
    requires Free(s, sep)
    ensures Split(s, sep) == [s]
  {
  }

  /** `host:port` alone sets the host and `parseInt` of the port. */
  lemma {:induction false} OneToken(host: string, port: string, cfg: DaemonConfig)
    requires host != [] && Free(host, ':') && Free(port, ':')
    requires Free(host + ":" + port, ' ')
    ensures ProcessAddress(host + ":" + port, cfg) == Ok(DaemonConfig(Some(host), ParseInt(port, 0)))
  {
    var address := host + ":" + port;
    SplitFree(address, ' ');
    assert Join([host, port], ':') == address;
    SplitJoin([host, port], ':');
    IndexOfPrefix(host, ":" + port, ':');
    assert address == host + (":" + port);
  }

  /** A single token that starts with its colon names no host. */
  lemma {:induction false} EmptyHost(rest: string, cfg: DaemonConfig)
    requires Free(":" + rest, ' ')
    ensures ProcessAddress(":" + rest, cfg) == Throws(NO_IP)
  {
    var address := ":" + rest;
    SplitFree(address, ' ');
    assert IndexOf(address, ':') == 0;
    assert address[..0] == "";
  }

  /** A `udp:ip:port` token splits into its three pieces and holds no space. */
  lemma UdpToken(ip: string, port: string)
    requires Free(ip, ':') && Free(port, ':') && Free(ip, ' ') && Free(port, ' ')
    ensures var token := "udp:" + ip + ":" + port;
      Split(token, ':') == ["udp", ip, port] && Free(token, ' ') && token[3] == ':'
  {
    var token := "udp:" + ip + ":" + port;
    var parts := ["udp", ip, port];
    assert parts[1..][1..] == [port];
    assert Join(parts[1..], ':') == ip + [':'] + port;
    assert Join(parts, ':') == "udp" + [':'] + (ip + [':'] + port);
    assert token == Join(parts, ':');
    SplitJoin(parts, ':');
    forall j | 0 <= j < |token| ensures token[j] != ' ' {
      if j >= 4 + |ip| + 1 { assert token[j] == port[j - 5 - |ip|]; }
      else if j >= 4 && j < 4 + |ip| { assert token[j] == ip[j - 4]; }
    }
  }

  /** Two space-free tokens, a colon somewhere: the udp token chosen by `addrMap` gives the ip and the port. */
  lemma TwoTokenAddress(a: string, b: string, cfg: DaemonConfig)
    requires Free(a, ' ') && Free(b, ' ') && !Free(a + " " + b, ':')
    ensures ProcessAddress(a + " " + b, cfg)
      == match UdpPart(Split(a, ':'), Split(b, ':'))
         case None => Throws(NO_UDP)
         case Some(p) => Ok(DaemonConfig(At(p, 1), ParseInt(Show(At(p, 2)), 0)))
  {
    assert a + " " + b == Join([a, b], ' ');
    SplitJoin([a, b], ' ');
  }

  /** `udp:ip:port` next to another token whose first piece is not `udp`: the ip and port come from the udp token, in either order. */
  lemma {:induction false} TwoTokens(ip: string, port: string, other: string, udpFirst: bool, cfg: DaemonConfig)
    requires Free(ip, ':') && Free(port, ':') && Free(ip, ' ') && Free(port, ' ') && Free(other, ' ')
    requires Split(other, ':')[0] != "udp"
    ensures var token := "udp:" + ip + ":" + port;
      ProcessAddress(if udpFirst then token + " " + other else other + " " + token, cfg)
        == Ok(DaemonConfig(Some(ip), ParseInt(port, 0)))
  {
    var token := "udp:" + ip + ":" + port;
    UdpToken(ip, port);
    if udpFirst {
      assert (token + " " + other)[3] == ':';
      TwoTokenAddress(token, other, cfg);
    } else {
      assert (other + " " + token)[|other| + 4] == ':';
      TwoTokenAddress(other, token, cfg);
    }
  }

  /** When both tokens start with `udp`, the second one is used. */
  lemma {:induction false} SecondUdpWins(ip1: string, port1: string, ip2: string, port2: string, cfg: DaemonConfig)
    requires Free(ip1, ':') && Free(port1, ':') && Free(ip1, ' ') && Free(port1, ' ')
    requires Free(ip2, ':') && Free(port2, ':') && Free(ip2, ' ') && Free(port2, ' ')
    ensures ProcessAddress("udp:" + ip1 + ":" + port1 + " " + "udp:" + ip2 + ":" + port2, cfg)
      == Ok(DaemonConfig(Some(ip2), ParseInt(port2, 0)))
  {
    var t1 := "udp:" + ip1 + ":" + port1;
    var t2 := "udp:" + ip2 + ":" + port2;
    UdpToken(ip1, port1);
    UdpToken(ip2, port2);
    assert t1 + " " + t2 == "udp:" + ip1 + ":" + port1 + " " + "udp:" + ip2 + ":" + port2;
    assert (t1 + " " + t2)[3] == ':';
    TwoTokenAddress(t1, t2, cfg);
  }

  /** Two tokens, neither of whose first colon-separated piece is `udp`: reading `addrMap['udp'][1]` throws. */
  lemma {:induction false} NoUdpToken(a: string, b: string, cfg: DaemonConfig)
    requires Free(a, ' ') && Free(b, ' ') && !Free(a, ':')
    requires Split(a, ':')[0] != "udp" && Split(b, ':')[0] != "udp"
    ensures ProcessAddress(a + " " + b, cfg) == Throws(NO_UDP)
  {
    var k :| 0 <= k < |a| && a[k] == ':';
    assert (a + " " + b)[k] == ':';
    TwoTokenAddress(a, b, cfg);
  }

  // ---------------------------------------------------------------------------
  // Datagrams.

  const HEADER := "{\"format\":\"json\",\"version\":1}"

  /** The datagram of one serialised segment: the header line, then the document. */
  function Frame(serialized: string): string {
    HEADER + "\n" + serialized
  }

  /** What the daemon reads back: the document after a header line, if the header is this one. */
  function Unframe(data: string): Option<string> {
    var i := IndexOf(data, '\n');
    if i >= 0 && data[..i] == HEADER then Some(data[i + 1..]) else None
  }

  /** The framing loses nothing: the document can be read back from its datagram. */
  lemma FrameRoundTrip(serialized: string)
    ensures Unframe(Frame(serialized)) == Some(serialized)
  {
    assert Free(HEADER, '\n');
    IndexOfPrefix(HEADER, "\n" + serialized, '\n');
    assert Frame(serialized) == HEADER + ("\n" + serialized);
  }

  /** One datagram handed to the socket: the bytes and the destination. */
  datatype Datagram = Datagram(data: string, port: Number, ip: Option<string>)

  /** `trace.map(frame)`: one datagram per segment, in order, to the configured address. */
  function Datagrams(trace: seq<Segment>, serialize: Segment -> string, cfg: DaemonConfig): (r: seq<Datagram>)
    ensures |r| == |trace|
    ensures forall i :: 0 <= i < |r| ==>
      r[i] == Datagram(Frame(serialize(trace[i])), cfg.udpPort, cfg.udpIp)
  {
    if trace == [] then []
    else [Datagram(Frame(serialize(trace[0])), cfg.udpPort, cfg.udpIp)] + Datagrams(trace[1..], serialize, cfg)
  }

  /**
   * Sending `ds` one at a time from the `start`-th send on, stopping at the
   * first error: how many sends were made, and the error, if any.
   */
  function SendAll(failure: nat -> Option<string>, start: nat, ds: seq<Datagram>): (r: (nat, Option<string>))
    ensures r.0 <= |ds|
    ensures r.1.Some? ==> r.0 >= 1
    decreases |ds|
  {
    if ds == [] then (0, None)
    else if failure(start).Some? then (1, failure(start))
    else
      var (n, err) := SendAll(failure, start + 1, ds[1..]);
      (n + 1, err)
  }

  class UdpDaemonSegmentEmitter {
    var config: DaemonConfig
    /** Every datagram handed to the socket, in order. */
    var sent: seq<Datagram>
    var closed: bool
    const failure: nat -> Option<string>
    const serialize: Segment -> string

    /** The configuration before the environment is read: 127.0.0.1:2000. */
    constructor(failure: nat -> Option<string>, serialize: Segment -> string)
      ensures config == DEFAULT_CONFIG && sent == [] && !closed
      ensures this.failure == failure && this.serialize == serialize
    {
      config := DEFAULT_CONFIG;
      sent := [];
      closed := false;
      this.failure := failure;
      this.serialize := serialize;
    }

    /**
     * `new UDPDaemonSegmentEmitter()` with `AWS_XRAY_DAEMON_ADDRESS` read as
     * `daemonAddress`: a truthy address is processed and may make the
     * constructor throw.
     */
    static method Create(daemonAddress: Option<string>, failure: nat -> Option<string>, serialize: Segment -> string)
      returns (r: Result<UdpDaemonSegmentEmitter>)
      ensures !NonEmpty(daemonAddress) ==> r.Ok? && r.value.config == DEFAULT_CONFIG
      ensures NonEmpty(daemonAddress) ==> match ProcessAddress(daemonAddress.value, DEFAULT_CONFIG)
        case Throws(e) => r == Throws(e)
        case Ok(cfg) => r.Ok? && r.value.config == cfg
      ensures r.Ok? ==> (fresh(r.value) && r.value.sent == [] && !r.value.closed
        && r.value.failure == failure && r.value.serialize == serialize)
    {
      var e := new UdpDaemonSegmentEmitter(failure, serialize);
      if NonEmpty(daemonAddress) {
        var err := e.SetAddress(daemonAddress.value);
        if err.Some? {
          return Throws(err.value);
        }
      }
      r := Ok(e);
    }

    /** `processAddress(address)`: overwrites the configuration, or throws and leaves it. */
    method SetAddress(address: string) returns (err: Option<string>)
      modifies this
      ensures match ProcessAddress(address, old(config))
        case Throws(e) => err == Some(e) && config == old(config)
        case Ok(cfg) => err.None? && config == cfg
      ensures sent == old(sent) && closed == old(closed)
    {
      match ProcessAddress(address, config)
      case Throws(e) =>
        err := Some(e);
      case Ok(cfg) =>
        config := cfg;
        err := None;
    }

    /**
     * `emit(trace)`: the framed segments are sent one at a time, in order, to
     * the configured address; the first send that fails rejects the call and
     * nothing after it is sent.
     */
    method Emit(trace: seq<Segment>) returns (err: Option<string>)
      modifies this
      ensures var ds := Datagrams(trace, serialize, config);
        var (n, e) := SendAll(failure, |old(sent)|, ds);
        sent == old(sent) + ds[..n] && err == e
      ensures config == old(config) && closed == old(closed)
    {
      var ds := Datagrams(trace, serialize, config);
      ghost var start := |sent|;
      var i := 0;
      while i < |ds|
        invariant 0 <= i <= |ds|
        invariant |sent| == start + i
        invariant sent == old(sent) + ds[..i]
        invariant forall n :: start <= n < start + i ==> failure(n).None?
        invariant config == old(config) && closed == old(closed)
      {
        var answer := failure(|sent|);
        sent := sent + [ds[i]];
        assert ds[..i + 1] == ds[..i] + [ds[i]];
        if answer.Some? {
          StopsAtFirstFailure(failure, start, ds, i);
          return answer;
        }
        i := i + 1;
      }
      assert ds[..i] == ds;
      AllSentWithoutFailure(failure, start, ds);
      err := None;
    }

    /** `shutdown()`: closes the socket. */
    method Shutdown()
      modifies this
      ensures closed && sent == old(sent) && config == old(config)
    {
      closed := true;
    }
  }

  /**
   * What `SendAll` means: it succeeds exactly when every send succeeds, and
   * otherwise its error is that of the last send it made, every earlier one
   * having succeeded.
   */
  lemma {:induction false} SendAllSpec(failure: nat -> Option<string>, start: nat, ds: seq<Datagram>)
    ensures var r := SendAll(failure, start, ds);
      (r.1.None? <==> r.0 == |ds| && forall n :: start <= n < start + |ds| ==> failure(n).None?)
      && (r.1.Some? ==> failure(start + r.0 - 1) == r.1)
      && forall n :: start <= n < start + r.0 - 1 ==> failure(n).None?
    decreases |ds|
  {
    if ds != [] && failure(start).None? {
      SendAllSpec(failure, start + 1, ds[1..]);
    }
  }

  /** Every segment gets exactly one datagram, in order, when no send fails. */
  lemma {:induction false} AllSentWithoutFailure(failure: nat -> Option<string>, start: nat, ds: seq<Datagram>)
    requires forall n :: start <= n < start + |ds| ==> failure(n).None?
    ensures SendAll(failure, start, ds) == (|ds|, None)
    decreases |ds|
  {
    if ds != [] {
      assert failure(start).None?;
      AllSentWithoutFailure(failure, start + 1, ds[1..]);
    }
  }

  /** A failure at the `k`-th send, after `k` good ones, stops the emit there: `k + 1` sends and that error. */
  lemma {:induction false} StopsAtFirstFailure(failure: nat -> Option<string>, start: nat, ds: seq<Datagram>, k: nat)
    requires k < |ds| && failure(start + k).Some?
    requires forall n :: start <= n < start + k ==> failure(n).None?
    ensures SendAll(failure, start, ds) == (k + 1, failure(start + k))
    decreases k
  {
    if k > 0 {
      assert failure(start).None?;
      StopsAtFirstFailure(failure, start + 1, ds[1..], k - 1);
    }
  }
}
