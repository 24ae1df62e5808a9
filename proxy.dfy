/**
 * The KDC proxy of proxy/proxy.go, the generation before pkg/proxy: the same envelope decode
 * and encode, a forwarding loop that reads KDC replies inline and takes a UDP reply without
 * checking it, and a handler without a rate limit that sets Content-Type only on the way out.
 */
module Proxy {
  import opened Prelude
  import opened Net
  import opened Envelope
  import opened Forwarding
  import Io
  import Wire
  import Http
  import Krb5
  import Failover
  import PkgProxy

  /** The transports initproxy gives every KerberosProxy. */
  const DefaultProtocols := [Udp, Tcp]

  /** KerberosProxy: the loaded krb5 configuration and the transports to try, in order. */
  datatype KerberosProxy = KerberosProxy(config: Krb5.Config, protocols: seq<Proto>)

  /** initproxy with the configuration it loaded (or the DNS-lookup default): both transports, UDP first. */
  function InitProxy(config: Krb5.Config): (k: KerberosProxy)
    ensures k.config == config && k.protocols == DefaultProtocols
  {
    KerberosProxy(config, DefaultProtocols)
  }

  // Length framing

  /** bytesToUint32: the big-endian value of the first four bytes; fewer than four is an error. */
  function BytesToUint32(b: seq<byte>): (r: Result<uint32>)
    ensures r.Err? <==> |b| < 4
    ensures r.Err? ==> r.error == InvalidLength
    ensures r.Ok? ==> Wire.PutUint32(r.value) == b[..4]
  {
    if |b| < 4 then
      Err(InvalidLength)
    else
      Wire.WriteRead(b[..4]);
      Ok(Wire.Uint32(b))
  }

  /** uint32ToBytes: four big-endian bytes that bytesToUint32 reads back as n. */
  function Uint32ToBytes(n: uint32): (b: seq<byte>)
    ensures |b| == 4
    ensures BytesToUint32(b) == Ok(n)
  {
    Wire.ReadWritten(n);
    Wire.PutUint32(n)
  }

  /** Reading four bytes and writing the value back gives the same four bytes. */
  lemma BytesRoundTrip(b: seq<byte>)
    requires |b| == 4
    ensures Uint32ToBytes(BytesToUint32(b).value) == b
  {
  }

  // Forwarding

  /** The transports forward tries: the proxy's own list, or TCP alone when the message without its prefix exceeds the UDP limit. */
  function Protocols(k: KerberosProxy, len: int): seq<Proto>
  {
    if len - 4 > k.config.udpPreferenceLimit then [Tcp] else k.protocols
  }

  /** For a proxy made by initproxy the choice of transports is the one pkg/proxy makes. */
  lemma InitProtocolsAsPkg(config: Krb5.Config, len: int)
    ensures Protocols(InitProxy(config), len) == PkgProxy.Protocols(len, config.udpPreferenceLimit)
  {
  }

  /** What forward returns for a decoded message: replies are taken unchecked. */
  function ForwardResult(k: KerberosProxy, peers: (Proto, Addr) -> Option<Peer>, msg: KdcProxyMsg): Result<seq<byte>>
    requires |msg.kerbMessage| >= 4
  {
    TurnByTurn(None, k.config, peers, msg, Protocols(k, |msg.kerbMessage|)).0
  }

  /** The (protocol, KDC) pairs forward dials for a decoded message, in order. */
  function ForwardDials(k: KerberosProxy, peers: (Proto, Addr) -> Option<Peer>, msg: KdcProxyMsg): seq<(Proto, Addr)>
    requires |msg.kerbMessage| >= 4
  {
    TurnByTurn(None, k.config, peers, msg, Protocols(k, |msg.kerbMessage|)).1
  }

  /**
   * forward returns the first success among the attempts of its plan, or "no kdcs found", and
   * dials the plan up to and including that success.
   */
  lemma ForwardIsFirstOk(k: KerberosProxy, peers: (Proto, Addr) -> Option<Peer>, msg: KdcProxyMsg)
    requires |msg.kerbMessage| >= 4
    ensures var plan := Plan(k.config, msg.targetDomain, Protocols(k, |msg.kerbMessage|));
            var outcomes := Outcomes(None, peers, msg.kerbMessage, plan);
            ForwardResult(k, peers, msg) == Failover.FirstOk(outcomes)
            && ForwardDials(k, peers, msg) == plan[..Failover.Tried(outcomes)]
  {
    TurnByTurnIsFirstOk(None, k.config, peers, msg, Protocols(k, |msg.kerbMessage|));
  }

  /**
   * Against the same KDCs, a proxy made by initproxy gets a reply whenever pkg/proxy does:
   * pkg/proxy's reply check only turns successes into failures. The replies can differ, as a
   * UDP reply pkg/proxy rejects may be the one this proxy returns.
   */
  lemma AcceptsWhatPkgAccepts(config: Krb5.Config, libs: PkgProxy.Libs, limiter: Http.Limiter,
                              peers: (Proto, Addr) -> Option<Peer>, msg: KdcProxyMsg)
    requires |msg.kerbMessage| >= 4
    requires PkgProxy.ForwardResult(PkgProxy.KerberosProxy(config, limiter), libs, peers, msg).Ok?
    ensures ForwardResult(InitProxy(config), peers, msg).Ok?
  {
    var plan := Plan(config, msg.targetDomain, PkgProxy.Protocols(|msg.kerbMessage|, config.udpPreferenceLimit));
    PkgProxy.ForwardIsFirstOk(PkgProxy.KerberosProxy(config, limiter), libs, peers, msg);
    ForwardIsFirstOk(InitProxy(config), peers, msg);
    var checked := Outcomes(Some(libs.krb), peers, msg.kerbMessage, plan);
    var i := Failover.FirstOkIndex(checked);
    OutcomeAt(Some(libs.krb), peers, msg.kerbMessage, plan, i);
    OutcomeAt(None, peers, msg.kerbMessage, plan, i);
    CheckOnlyNarrows(libs.krb, peers, msg.kerbMessage, plan[i]);
  }

  /**
   * The body of forward's inner loop for one KDC: dial it, write the payload, close the
   * connection on a failed or short write, otherwise read the reply.
   */
  method Try(net: Network, proto: Proto, kdc: Addr, kerbMessage: seq<byte>, ghost from: nat)
    returns (r: Result<seq<byte>>)
    requires |kerbMessage| >= 4
    requires net.Settled(from, kerbMessage[4..], kerbMessage)
    requires net.Logged()
    modifies net
    ensures net.Logged() && net.Grown()
    ensures r == Attempt(None, net.peers, kerbMessage, (proto, kdc))
    ensures net.dials == old(net.dials) + [(proto, kdc)]
    ensures net.Settled(from, kerbMessage[4..], kerbMessage)
  {
    var conn := net.Dial(proto, kdc);
    if conn == null {
      return Err(DialError);
    }
    var req := kerbMessage;
    if proto == Udp {
      req := kerbMessage[4..];
    }
    var n := conn.Write(req);
    if n.Err? {
      conn.Close();
      return Err(n.error);
    }
    if n.value != |req| {
      conn.Close();
      return Err(ShortWrite);
    }
    r := ReadReply(conn);
  }

  /**
   * The reply-reading part of forward's inner loop, on a connection written to: over UDP
   * everything up to EOF, with a length prefix put in front; over TCP a 4-byte header and then
   * the length it announces. The connection is closed on every path, once.
   */
  method ReadReply(conn: Conn) returns (r: Result<seq<byte>>)
    requires conn.Valid() && !conn.Closed()
    modifies conn`cursor, conn`closes
    ensures conn.closes == old(conn.closes) + 1
    ensures r == Response(None, conn.proto, old(conn.Unread()))
  {
    ghost var s := conn.Unread();
    if conn.proto == Udp {
      var msg := conn.ReadAll();
      if msg.Err? {
        conn.Close();
        return Err(msg.error);
      }
      conn.Close();
      return Ok(Uint32ToBytes(Wire.ToUint32(|msg.value|)) + msg.value);
    }
    var buf := conn.ReadFull(4);
    if buf.Err? {
      conn.Close();
      return Err(buf.error);
    }
    var length := BytesToUint32(buf.value);
    if length.Err? {
      // The close-and-continue branch of the source cannot run: buf holds four bytes, and
      // bytesToUint32 fails only on fewer.
      assert false;
    }
    assert Io.Skip(s, 4) == conn.Unread();
    var msg := conn.ReadFull(length.value);
    if msg.Err? {
      conn.Close();
      return Err(msg.error);
    }
    conn.Close();
    return Ok(buf.value + msg.value);
  }

  /**
   * The inner loop of forward for one protocol: each KDC in turn until one answers; dials
   * exactly the KDCs up to and including that one.
   */
  method TryEach(net: Network, proto: Proto, kdcs: seq<Addr>, kerbMessage: seq<byte>, ghost from: nat)
    returns (r: Result<seq<byte>>)
    requires |kerbMessage| >= 4
    requires net.Settled(from, kerbMessage[4..], kerbMessage)
    requires net.Logged()
    modifies net
    ensures net.Logged() && net.Grown()
    ensures var t := TurnOver(None, net.peers, kerbMessage, proto, kdcs);
            r == t.0 && net.dials == old(net.dials) + t.1
    ensures net.Settled(from, kerbMessage[4..], kerbMessage)
  {
    ghost var whole := TurnOver(None, net.peers, kerbMessage, proto, kdcs);
    ghost var start := net.dials;
    for ki := 0 to |kdcs|
      invariant whole.0 == TurnOver(None, net.peers, kerbMessage, proto, kdcs[ki..]).0
      invariant start + whole.1 == net.dials + TurnOver(None, net.peers, kerbMessage, proto, kdcs[ki..]).1
      invariant net.Settled(from, kerbMessage[4..], kerbMessage)
      invariant net.Logged() && net.Grown()
    {
      var kdc := kdcs[ki];
      assert kdcs[ki..][0] == kdc && kdcs[ki..][1..] == kdcs[ki + 1..];
      ghost var dialled := net.dials;
      var resp := Try(net, proto, kdc, kerbMessage, from);
      if resp.Ok? {
        return resp;
      }
      ghost var rest := TurnOver(None, net.peers, kerbMessage, proto, kdcs[ki + 1..]).1;
      assert dialled + ([(proto, kdc)] + rest) == net.dials + rest;
    }
    r := Err(NoKdcsFound);
  }

  /**
   * One turn of forward's outer loop: look up the KDCs for the protocol and, unless the
   * lookup failed or found none, try them in order.
   */
  method TryProtocol(k: KerberosProxy, net: Network, msg: KdcProxyMsg, proto: Proto, ghost from: nat)
    returns (r: Result<seq<byte>>)
    requires |msg.kerbMessage| >= 4
    requires net.Settled(from, msg.kerbMessage[4..], msg.kerbMessage)
    requires net.Logged()
    modifies net
    ensures net.Logged() && net.Grown()
    ensures var t := TurnResult(None, k.config, net.peers, msg, proto);
            r == t.0 && net.dials == old(net.dials) + t.1
    ensures net.Settled(from, msg.kerbMessage[4..], msg.kerbMessage)
  {
    var lookup := k.config.getKdcs(msg.targetDomain, proto == Tcp);
    if lookup.failed || lookup.count < 1 {
      return Err(NoKdcsFound);
    }
    r := TryEach(net, proto, lookup.kdcs, msg.kerbMessage, from);
  }

  /**
   * forward: tries the proxy's transports (TCP only for a large message) and, per transport,
   * the KDCs the lookup offers, in order; returns the first reply obtained. Every connection it
   * opens gets one write and is closed exactly once.
   */
  method Forward(k: KerberosProxy, net: Network, msg: KdcProxyMsg) returns (r: Result<seq<byte>>)
    requires |msg.kerbMessage| >= 4
    requires net.Logged()
    modifies net
    ensures net.Logged() && net.Grown()
    ensures r == ForwardResult(k, net.peers, msg)
    ensures net.dials == old(net.dials) + ForwardDials(k, net.peers, msg)
    ensures net.Settled(old(|net.conns|), msg.kerbMessage[4..], msg.kerbMessage)
    ensures InStep(net.peers, ForwardDials(k, net.peers, msg), net.conns[old(|net.conns|)..])
  {
    var protocols := Protocols(k, |msg.kerbMessage|);
    r := TryProtocols(k, net, msg, protocols, |net.conns|);
    AddedInStep(net.peers, old(net.dials), ForwardDials(k, net.peers, msg), old(net.conns), net.conns);
  }

  /** forward's outer loop: each protocol of `protocols` in turn, until one yields a reply. */
  method TryProtocols(k: KerberosProxy, net: Network, msg: KdcProxyMsg, protocols: seq<Proto>, ghost from: nat)
    returns (r: Result<seq<byte>>)
    requires |msg.kerbMessage| >= 4
    requires net.Settled(from, msg.kerbMessage[4..], msg.kerbMessage)
    requires net.Logged()
    modifies net
    ensures net.Logged() && net.Grown()
    ensures var t := TurnByTurn(None, k.config, net.peers, msg, protocols);
            r == t.0 && net.dials == old(net.dials) + t.1
    ensures net.Settled(from, msg.kerbMessage[4..], msg.kerbMessage)
  {
    ghost var whole := TurnByTurn(None, k.config, net.peers, msg, protocols);
    ghost var start := net.dials;
    for pi := 0 to |protocols|
      invariant whole.0 == TurnByTurn(None, k.config, net.peers, msg, protocols[pi..]).0
      invariant start + whole.1 == net.dials + TurnByTurn(None, k.config, net.peers, msg, protocols[pi..]).1
      invariant net.Settled(from, msg.kerbMessage[4..], msg.kerbMessage)
      invariant net.Logged() && net.Grown()
    {
      var proto := protocols[pi];
      ghost var dialled := net.dials;
      TurnByTurnStep(None, k.config, net.peers, msg, protocols, pi, dialled);
      var resp := TryProtocol(k, net, msg, proto, from);
      if resp.Ok? {
        return resp;
      }
    }
    r := Err(NoKdcsFound);
  }

  // HTTP handler

  /** What the client receives for `req` when the KDCs behave as `peers`. */
  function Serve(k: KerberosProxy, libs: PkgProxy.Libs, peers: (Proto, Addr) -> Option<Peer>, req: Http.Request)
    : Http.HttpResponse
  {
    if req.verb != "POST" then Http.ErrorResponse(map[], 405, "Method not allowed")
    else if req.contentLength == -1 then Http.ErrorResponse(map[], 411, "Content length required")
    else if req.contentLength > Http.MaxLength then Http.ErrorResponse(map[], 413, "Request entity too large")
    else
      match Io.ReadAll(req.body)
      case Err(_) => Http.ErrorResponse(map[], 500, "Error reading from stream")
      case Ok(data) => Relayed(k, libs, peers, data)
  }

  /** What the client receives for a request body that passed the HTTP gates: decode, realm check, forward, encode. */
  function Relayed(k: KerberosProxy, libs: PkgProxy.Libs, peers: (Proto, Addr) -> Option<Peer>, data: seq<byte>)
    : Http.HttpResponse
  {
    match PkgProxy.Decode(libs, data)
    case Err(e) =>
      if e == SliceOutOfRange then Http.Aborted else Http.ErrorResponse(map[], 400, "Invalid request")
    case Ok(msg) =>
      if msg.targetDomain == "" then Http.ErrorResponse(map[], 400, "Invalid request")
      else
        match ForwardResult(k, peers, msg)
        case Err(_) => Http.ErrorResponse(map[], 503, "Service unavailable")
        case Ok(resp) =>
          match PkgProxy.Encode(libs, resp)
          case Err(_) => Http.ErrorResponse(map[], 500, "encoding error")
          case Ok(reply) => Http.Sent(200, Http.KerberosHeader, reply)
  }

  /** The dials made for a request body that passed the HTTP gates: forward's, once decode and the realm check pass; none otherwise. */
  function RelayDials(k: KerberosProxy, libs: PkgProxy.Libs, peers: (Proto, Addr) -> Option<Peer>, data: seq<byte>)
    : seq<(Proto, Addr)>
  {
    match PkgProxy.Decode(libs, data)
    case Err(_) => []
    case Ok(msg) => if msg.targetDomain == "" then [] else ForwardDials(k, peers, msg)
  }

  /** Whether a request passes the HTTP gates: a POST of acceptable, known length whose body was read. */
  predicate PassesGates(req: Http.Request)
  {
    req.verb == "POST" && req.contentLength != -1 && req.contentLength <= Http.MaxLength && Io.ReadAll(req.body).Ok?
  }

  /** The dials made for `req`: none unless it passes the HTTP gates. */
  function ServeDials(k: KerberosProxy, libs: PkgProxy.Libs, peers: (Proto, Addr) -> Option<Peer>, req: Http.Request)
    : seq<(Proto, Addr)>
  {
    if PassesGates(req) then RelayDials(k, libs, peers, Io.ReadAll(req.body).value) else []
  }

  /** A request refused by a gate before forward (405, 411, 413 or 400) never reaches a KDC. */
  lemma RefusedBeforeForward(k: KerberosProxy, libs: PkgProxy.Libs, peers: (Proto, Addr) -> Option<Peer>, req: Http.Request)
    requires Serve(k, libs, peers, req).Sent?
    requires Serve(k, libs, peers, req).status in {405, 411, 413, 400}
    ensures ServeDials(k, libs, peers, req) == []
  {
  }

  /**
   * A request is answered 200 exactly when it passes every gate in turn, and the reply is then
   * the KDC's answer re-wrapped by encode; any other answer is a plain-text error or an abort.
   */
  lemma ServeSucceeds(k: KerberosProxy, libs: PkgProxy.Libs, peers: (Proto, Addr) -> Option<Peer>, req: Http.Request)
    ensures var s := Serve(k, libs, peers, req);
            var body := Io.ReadAll(req.body);
            var msg := if body.Ok? then PkgProxy.Decode(libs, body.value) else Err(Asn1Error);
            && ((s.Sent? && s.status == 200) <==>
                 && req.verb == "POST" && req.contentLength != -1 && req.contentLength <= Http.MaxLength && body.Ok?
                 && msg.Ok? && msg.value.targetDomain != ""
                 && ForwardResult(k, peers, msg.value).Ok?
                 && PkgProxy.Encode(libs, ForwardResult(k, peers, msg.value).value).Ok?)
            && (s.Sent? && s.status == 200 ==>
                 s == Http.Sent(200, Http.KerberosHeader, PkgProxy.Encode(libs, ForwardResult(k, peers, msg.value).value).value))
            && (s.Sent? && s.status != 200 ==> s.header[Http.ContentType] == Http.PlainText)
  {
  }

  /**
   * The second half of the handler, from the decode on, for a writer nothing was done to. On
   * an encode failure it writes the 500 and then carries on: it sets Content-Type and writes
   * the empty reply, which reach the client too late to change anything.
   */
  method Relay(k: KerberosProxy, libs: PkgProxy.Libs, net: Network, w: Http.ResponseWriter, data: seq<byte>)
    requires w.Unused()
    requires net.Logged()
    modifies w, net
    ensures net.Logged() && net.Grown()
    ensures w.Outcome() == Relayed(k, libs, net.peers, data)
    ensures net.dials == old(net.dials) + RelayDials(k, libs, net.peers, data)
    ensures InStep(net.peers, RelayDials(k, libs, net.peers, data), net.conns[old(|net.conns|)..])
    ensures var m := PkgProxy.Decode(libs, data);
            m.Ok? ==> net.Settled(old(|net.conns|), m.value.kerbMessage[4..], m.value.kerbMessage)
    ensures RelayDials(k, libs, net.peers, data) == [] ==> net.conns == old(net.conns)
    ensures net.ClosedSince(old(|net.conns|))
  {
    var msg := PkgProxy.Decode(libs, data);
    if msg.Err? {
      if msg.error == SliceOutOfRange {
        w.Abort();
        return;
      }
      w.Error("Invalid request", 400);
      return;
    }
    if msg.value.targetDomain == "" {
      w.Error("Invalid request", 400);
      return;
    }
    var resp := Forward(k, net, msg.value);
    if resp.Err? {
      w.Error("Service unavailable", 503);
      return;
    }
    var reply := PkgProxy.Encode(libs, resp.value);
    Reply(w, reply);
  }

  /**
   * The handler's last lines, on a writer nothing was done to: a failed encode is answered
   * with 500 but the code carries on, setting Content-Type and writing the empty reply, which
   * reach the client too late to change anything; a successful one is sent with status 200.
   */
  method Reply(w: Http.ResponseWriter, reply: Result<seq<byte>>)
    requires w.Unused()
    modifies w
    ensures reply.Err? ==> w.Outcome() == Http.ErrorResponse(map[], 500, "encoding error")
    ensures reply.Ok? ==> w.Outcome() == Http.Sent(200, Http.KerberosHeader, reply.value)
  {
    var body: seq<byte> := [];
    if reply.Err? {
      w.Error("encoding error", 500);
    } else {
      body := reply.value;
    }
    w.SetHeader(Http.ContentType, Http.Kerberos);
    w.Write(body);
  }

  /**
   * Handler: the gates in order (method, length known, length bound, body read, decode, realm,
   * forward, encode), each answering with its own status; every connection forward opens is
   * closed by the time it returns.
   */
  method Handler(k: KerberosProxy, libs: PkgProxy.Libs, net: Network, w: Http.ResponseWriter, req: Http.Request)
    requires w.Unused()
    requires net.Logged()
    modifies w, net
    ensures net.Logged() && net.Grown()
    ensures w.Outcome() == Serve(k, libs, net.peers, req)
    ensures var dials := ServeDials(k, libs, net.peers, req);
            && net.dials == old(net.dials) + dials
            && InStep(net.peers, dials, net.conns[old(|net.conns|)..])
            && (dials == [] ==> net.conns == old(net.conns))
    ensures var body := Io.ReadAll(req.body);
            var m := if body.Ok? then PkgProxy.Decode(libs, body.value) else Err(Asn1Error);
            m.Ok? ==> net.Settled(old(|net.conns|), m.value.kerbMessage[4..], m.value.kerbMessage)
    ensures net.ClosedSince(old(|net.conns|))
  {
    if req.verb != "POST" {
      w.Error("Method not allowed", 405);
      return;
    }
    var length := req.contentLength;
    if length == -1 {
      w.Error("Content length required", 411);
      return;
    }
    if length > Http.MaxLength {
      w.Error("Request entity too large", 413);
      return;
    }
    var data := Io.ReadAll(req.body);
    if data.Err? {
      w.Error("Error reading from stream", 500);
      return;
    }
    Relay(k, libs, net, w, data.value);
  }
}
