/**
 * The KDC proxy of pkg/proxy/proxy.go: the 4-byte length codec, the envelope codec with
 * realm classification, the UDP/TCP forwarding loop with reply validation, and the HTTP
 * handler with its rate-limit gate.
 */
module PkgProxy {
  import opened Prelude
  import opened Net
  import opened Envelope
  import Io
  import Wire
  import Http
  import Krb5
  import Kerberos
  import Failover
  import opened Forwarding

  /** The foreign libraries the file calls: an ASN.1 codec for the envelope and gokrb5's message parsers. */
  datatype Libs = Libs(asn1: Codec<KdcProxyMsg>, krb: Kerberos.Parsers)

  /** KerberosProxy: the loaded krb5 configuration and the process-wide rate limiter. */
  datatype KerberosProxy = KerberosProxy(config: Krb5.Config, limiter: Http.Limiter)

  // Length framing

  /** UnmarshalKerbLength: the length a 4-byte big-endian prefix announces; fewer than four bytes is an error. */
  function UnmarshalKerbLength(b: seq<byte>): (r: Result<int>)
    ensures r.Err? <==> |b| < 4
    ensures r.Err? ==> r.error == InvalidLength
    ensures r.Ok? ==> 0 <= r.value < 0x1_0000_0000 && Wire.PutUint32(r.value) == b[..4]
  {
    if |b| < 4 then
      Err(InvalidLength)
    else
      Wire.WriteRead(b[..4]);
      Ok(Wire.Uint32(b))
  }

  /** MarshalKerbLength: n, cut to 32 bits as uint32(n) does, as a 4-byte big-endian prefix. */
  method MarshalKerbLength(n: int) returns (b: seq<byte>)
    ensures |b| == 4
    ensures UnmarshalKerbLength(b) == Ok(Wire.ToUint32(n))
    ensures 0 <= n < 0x1_0000_0000 ==> UnmarshalKerbLength(b) == Ok(n)
  {
    var buf := new byte[4];
    var v := Wire.ToUint32(n);
    buf[0] := v / 0x100_0000;
    buf[1] := (v / 0x1_0000) % 0x100;
    buf[2] := (v / 0x100) % 0x100;
    buf[3] := v % 0x100;
    b := buf[..];
    assert b == Wire.PutUint32(v);
    Wire.ReadWritten(v);
  }

  /** The unmarshalling unit tests: short inputs fail, and three sample prefixes. */
  lemma LengthCodecExamples()
    ensures UnmarshalKerbLength([]).Err? && UnmarshalKerbLength([0]).Err?
    ensures UnmarshalKerbLength([0, 0]).Err? && UnmarshalKerbLength([0, 0, 0]).Err?
    ensures UnmarshalKerbLength([0, 0, 0, 0]) == Ok(0)
    ensures UnmarshalKerbLength([0, 0, 0, 1]) == Ok(1)
    ensures UnmarshalKerbLength([0, 0, 1, 1]) == Ok(257)
  {
  }

  /** The marshalling unit tests: MarshalKerbLength itself turns 0, 1 and 257 into the expected prefixes. */
  method MarshalExamples() returns (zero: seq<byte>, one: seq<byte>, big: seq<byte>)
    ensures zero == [0, 0, 0, 0] && one == [0, 0, 0, 1] && big == [0, 0, 1, 1]
  {
    zero := MarshalKerbLength(0);
    one := MarshalKerbLength(1);
    big := MarshalKerbLength(257);
    assert zero == zero[..4] && one == one[..4] && big == big[..4];
  }

  // Envelope codec

  /**
   * decode: the envelope must use up every byte; the Kerberos message it carries is then
   * classified (AS-REQ, TGS-REQ, AP-REQ, first match) to find the realm. The result keeps the
   * message and takes the realm from it; the envelope's own target-domain and hint are dropped.
   * Slicing off the prefix of a message shorter than four bytes panics.
   */
  function Decode(libs: Libs, data: seq<byte>): (r: Result<KdcProxyMsg>)
    ensures r.Ok? ==> |r.value.kerbMessage| >= 4
  {
    match libs.asn1.unmarshal(data)
    case Err(_) => Err(Asn1Error)
    case Ok((m, rest)) =>
      if |rest| > 0 then Err(TrailingData)
      else if |m.kerbMessage| < 4 then Err(SliceOutOfRange)
      else
        match Kerberos.Classify(libs.krb, m.kerbMessage[4..])
        case None => Err(MessageNotValid)
        case Some(realm) => Ok(KdcProxyMsg(m.kerbMessage, realm, 0))
  }

  /**
   * What decode accepts and what it makes of it: an envelope that parses with nothing left
   * over, whose message has a 4-byte prefix and classifies; the result keeps the message and
   * takes the realm from the classification. Each way of failing has its own error.
   */
  lemma DecodeMeaning(libs: Libs, data: seq<byte>)
    ensures var u := libs.asn1.unmarshal(data);
            var r := Decode(libs, data);
            && (u.Err? ==> r == Err(Asn1Error))
            && (u.Ok? && u.value.1 != [] ==> r == Err(TrailingData))
            && (r == Err(SliceOutOfRange) <==> u.Ok? && u.value.1 == [] && |u.value.0.kerbMessage| < 4)
            && (r.Ok? <==>
                 u.Ok? && u.value.1 == [] && |u.value.0.kerbMessage| >= 4
                 && Kerberos.Classify(libs.krb, u.value.0.kerbMessage[4..]).Some?)
            && (r.Ok? ==>
                 && r.value.kerbMessage == u.value.0.kerbMessage
                 && Kerberos.Classify(libs.krb, r.value.kerbMessage[4..]) == Some(r.value.targetDomain)
                 && r.value.dcLocatorHint == 0)
  {
  }

  /** encode: the reply in an envelope with only the kerb-message field set. */
  function Encode(libs: Libs, data: seq<byte>): (r: Result<seq<byte>>)
    ensures r.Ok? <==> libs.asn1.marshal(Wrap(data)).Ok?
    ensures Sound(libs.asn1) && r.Ok? ==> libs.asn1.unmarshal(r.value) == Ok((Wrap(data), []))
  {
    match libs.asn1.marshal(Wrap(data))
    case Err(_) => Err(Asn1Error)
    case Ok(enc) =>
      Envelope.ReadsBack(libs.asn1, Wrap(data));
      Ok(enc)
  }

  /** What decode makes of an envelope depends only on its kerb-message field. */
  lemma DecodeIgnoresEnvelopeRealm(libs: Libs, a: seq<byte>, b: seq<byte>)
    requires libs.asn1.unmarshal(a).Ok? && libs.asn1.unmarshal(b).Ok?
    requires libs.asn1.unmarshal(a).value.1 == libs.asn1.unmarshal(b).value.1
    requires libs.asn1.unmarshal(a).value.0.kerbMessage == libs.asn1.unmarshal(b).value.0.kerbMessage
    ensures Decode(libs, a) == Decode(libs, b)
  {
  }

  /**
   * An envelope built around a classifiable Kerberos message decodes to that message and its
   * realm, and the same bytes with anything appended are rejected as trailing data.
   */
  lemma DecodeEncoded(libs: Libs, m: KdcProxyMsg, extra: seq<byte>)
    requires Sound(libs.asn1) && libs.asn1.marshal(m).Ok?
    requires |m.kerbMessage| >= 4 && Kerberos.Classify(libs.krb, m.kerbMessage[4..]).Some?
    ensures Decode(libs, libs.asn1.marshal(m).value)
         == Ok(KdcProxyMsg(m.kerbMessage, Kerberos.Classify(libs.krb, m.kerbMessage[4..]).value, 0))
    ensures extra != [] ==> Decode(libs, libs.asn1.marshal(m).value + extra) == Err(TrailingData)
  {
    Envelope.ReadsBack(libs.asn1, m);
    Envelope.LeavesTrailing(libs.asn1, m, extra);
  }

  // Forwarding

  /** The transports to try for a Kerberos message of `len` bytes, prefix included. */
  function Protocols(len: int, udpPreferenceLimit: int): seq<Proto>
  {
    if len - 4 > udpPreferenceLimit then [Tcp] else [Udp, Tcp]
  }

  /** UDP is skipped only when the message without its prefix is strictly longer than the limit. */
  lemma UdpCutover(limit: int)
    ensures Protocols(limit + 4, limit) == [Udp, Tcp]
    ensures Protocols(limit + 5, limit) == [Tcp]
  {
  }

  /** The attempts forward makes, in order, for a decoded message. */
  function ForwardPlan(k: KerberosProxy, msg: KdcProxyMsg): seq<(Proto, Addr)>
  {
    Plan(k.config, msg.targetDomain, Protocols(|msg.kerbMessage|, k.config.udpPreferenceLimit))
  }

  /** What forward returns for a decoded message. */
  function ForwardResult(k: KerberosProxy, libs: Libs, peers: (Proto, Addr) -> Option<Peer>, msg: KdcProxyMsg)
    : Result<seq<byte>>
    requires |msg.kerbMessage| >= 4
  {
    TurnByTurn(Some(libs.krb), k.config, peers, msg, Protocols(|msg.kerbMessage|, k.config.udpPreferenceLimit)).0
  }

  /** The (protocol, KDC) pairs forward dials for a decoded message, in order. */
  function ForwardDials(k: KerberosProxy, libs: Libs, peers: (Proto, Addr) -> Option<Peer>, msg: KdcProxyMsg)
    : seq<(Proto, Addr)>
    requires |msg.kerbMessage| >= 4
  {
    TurnByTurn(Some(libs.krb), k.config, peers, msg, Protocols(|msg.kerbMessage|, k.config.udpPreferenceLimit)).1
  }

  /**
   * forward returns the first success among all the attempts of its plan, or "no kdcs found",
   * and dials the plan up to and including that success.
   */
  lemma ForwardIsFirstOk(k: KerberosProxy, libs: Libs, peers: (Proto, Addr) -> Option<Peer>, msg: KdcProxyMsg)
    requires |msg.kerbMessage| >= 4
    ensures var outcomes := Outcomes(Some(libs.krb), peers, msg.kerbMessage, ForwardPlan(k, msg));
            ForwardResult(k, libs, peers, msg) == Failover.FirstOk(outcomes)
            && ForwardDials(k, libs, peers, msg) == ForwardPlan(k, msg)[..Failover.Tried(outcomes)]
  {
    TurnByTurnIsFirstOk(Some(libs.krb), k.config, peers, msg, Protocols(|msg.kerbMessage|, k.config.udpPreferenceLimit));
  }

  /** Every reply forward returns carries a 4-byte prefix announcing the length of the rest. */
  lemma {:induction false} ForwardRepliesAreFramed(
    k: KerberosProxy, libs: Libs, peers: (Proto, Addr) -> Option<Peer>, msg: KdcProxyMsg)
    requires |msg.kerbMessage| >= 4
    requires ForwardResult(k, libs, peers, msg).Ok?
    ensures var resp := ForwardResult(k, libs, peers, msg).value;
      |resp| >= 4 && UnmarshalKerbLength(resp) == Ok(Wire.ToUint32(|resp| - 4))
  {
    ForwardIsFirstOk(k, libs, peers, msg);
    var plan := ForwardPlan(k, msg);
    var outcomes := Outcomes(Some(libs.krb), peers, msg.kerbMessage, plan);
    var i := Failover.FirstOkIndex(outcomes);
    var t := plan[i];
    OutcomeAt(Some(libs.krb), peers, msg.kerbMessage, plan, i);
    var peer := peers(t.0, t.1).value;
    assert outcomes[i] == Response(Some(libs.krb), t.0, peer.reply);
  }

  /** When no protocol's lookup offers a KDC, forward dials nothing and fails. */
  lemma NothingToTry(k: KerberosProxy, libs: Libs, peers: (Proto, Addr) -> Option<Peer>, msg: KdcProxyMsg)
    requires |msg.kerbMessage| >= 4
    requires forall tcp: bool :: Offered(k.config.getKdcs(msg.targetDomain, tcp)) == []
    ensures ForwardPlan(k, msg) == []
    ensures ForwardResult(k, libs, peers, msg) == Err(NoKdcsFound)
  {
    ForwardIsFirstOk(k, libs, peers, msg);
    var protos := Protocols(|msg.kerbMessage|, k.config.udpPreferenceLimit);
    assert Offered(k.config.getKdcs(msg.targetDomain, false)) == [];
    assert Offered(k.config.getKdcs(msg.targetDomain, true)) == [];
    assert Plan(k.config, msg.targetDomain, [Tcp]) == [] by {
      assert [Tcp][1..] == [];
    }
    if protos == [Udp, Tcp] {
      assert protos[1..] == [Tcp];
    }
  }

  /** getresponse: reads the reply for the connection's protocol; the deferred Close runs on every path. */
  method GetResponse(p: Kerberos.Parsers, conn: Conn) returns (r: Result<seq<byte>>)
    requires conn.Valid() && !conn.Closed()
    modifies conn`cursor, conn`closes
    ensures conn.closes == old(conn.closes) + 1
    ensures r == Response(Some(p), conn.proto, old(conn.Unread()))
  {
    ghost var s := conn.Unread();
    if conn.proto == Udp {
      var msg := conn.ReadAll();
      if msg.Err? {
        r := Err(msg.error);
      } else if !ValidReply(p, msg.value) {
        r := Err(ReplyNotValid);
      } else {
        var prefix := MarshalKerbLength(|msg.value|);
        assert prefix == Wire.PutUint32(Wire.ToUint32(|msg.value|)) by {
          Wire.WriteRead(prefix);
        }
        r := Ok(prefix + msg.value);
      }
    } else {
      var buf := conn.ReadFull(4);
      if buf.Err? {
        r := Err(buf.error);
      } else {
        var length := UnmarshalKerbLength(buf.value);
        if length.Err? {
          r := Err(InvalidLength);
        } else {
          assert Io.Skip(s, 4) == conn.Unread();
          var msg := conn.ReadFull(length.value);
          if msg.Err? {
            r := Err(msg.error);
          } else {
            r := Ok(buf.value + msg.value);
          }
        }
      }
    }
    conn.Close();
  }

  /**
   * The body of forward's inner loop for one KDC: dial it, write the payload, close the
   * connection on a failed or short write, otherwise hand it to getresponse.
   */
  method Try(libs: Libs, net: Network, proto: Proto, kdc: Addr, kerbMessage: seq<byte>, ghost from: nat)
    returns (r: Result<seq<byte>>)
    requires |kerbMessage| >= 4
    requires net.Settled(from, kerbMessage[4..], kerbMessage)
    requires net.Logged()
    modifies net
    ensures net.Logged() && net.Grown()
    ensures r == Attempt(Some(libs.krb), net.peers, kerbMessage, (proto, kdc))
    ensures net.dials == old(net.dials) + [(proto, kdc)]
    ensures net.Settled(from, kerbMessage[4..], kerbMessage)
  {
    var conn := net.Dial(proto, kdc);
    if conn == null {
      return Err(DialError);
    }
    var req := kerbMessage;
    if proto == Udp {
      req := kerbMessage[4..];
    }
    var n := conn.Write(req);
    if n.Err? {
      conn.Close();
      return Err(n.error);
    }
    if n.value != |req| {
      conn.Close();
      return Err(ShortWrite);
    }
    r := GetResponse(libs.krb, conn);
  }

  /**
   * The inner loop of forward for one protocol: each KDC in turn until one answers; dials
   * exactly the KDCs up to and including that one.
   */
  method TryEach(libs: Libs, net: Network, proto: Proto, kdcs: seq<Addr>, kerbMessage: seq<byte>, ghost from: nat)
    returns (r: Result<seq<byte>>)
    requires |kerbMessage| >= 4
    requires net.Settled(from, kerbMessage[4..], kerbMessage)
    requires net.Logged()
    modifies net
    ensures net.Logged() && net.Grown()
    ensures var t := TurnOver(Some(libs.krb), net.peers, kerbMessage, proto, kdcs);
            r == t.0 && net.dials == old(net.dials) + t.1
    ensures net.Settled(from, kerbMessage[4..], kerbMessage)
  {
    ghost var whole := TurnOver(Some(libs.krb), net.peers, kerbMessage, proto, kdcs);
    ghost var start := net.dials;
    for ki := 0 to |kdcs|
      invariant whole.0 == TurnOver(Some(libs.krb), net.peers, kerbMessage, proto, kdcs[ki..]).0
      invariant start + whole.1 == net.dials + TurnOver(Some(libs.krb), net.peers, kerbMessage, proto, kdcs[ki..]).1
      invariant net.Settled(from, kerbMessage[4..], kerbMessage)
      invariant net.Logged() && net.Grown()
    {
      var kdc := kdcs[ki];
      assert kdcs[ki..][0] == kdc && kdcs[ki..][1..] == kdcs[ki + 1..];
      ghost var dialled := net.dials;
      var resp := Try(libs, net, proto, kdc, kerbMessage, from);
      if resp.Ok? {
        return resp;
      }
      ghost var rest := TurnOver(Some(libs.krb), net.peers, kerbMessage, proto, kdcs[ki + 1..]).1;
      assert dialled + ([(proto, kdc)] + rest) == net.dials + rest;
    }
    r := Err(NoKdcsFound);
  }

  /**
   * One turn of forward's outer loop: look up the KDCs for the protocol and, unless the
   * lookup failed or found none, try them in order.
   */
  method TryProtocol(k: KerberosProxy, libs: Libs, net: Network, msg: KdcProxyMsg, proto: Proto, ghost from: nat)
    returns (r: Result<seq<byte>>)
    requires |msg.kerbMessage| >= 4
    requires net.Settled(from, msg.kerbMessage[4..], msg.kerbMessage)
    requires net.Logged()
    modifies net
    ensures net.Logged() && net.Grown()
    ensures var t := TurnResult(Some(libs.krb), k.config, net.peers, msg, proto);
            r == t.0 && net.dials == old(net.dials) + t.1
    ensures net.Settled(from, msg.kerbMessage[4..], msg.kerbMessage)
  {
    var lookup := k.config.getKdcs(msg.targetDomain, proto == Tcp);
    if lookup.failed || lookup.count < 1 {
      return Err(NoKdcsFound);
    }
    r := TryEach(libs, net, proto, lookup.kdcs, msg.kerbMessage, from);
  }

  /**
   * forward: tries UDP then TCP (TCP only for a large message) and, per protocol, the KDCs the
   * lookup offers, in order; returns the first reply obtained. Every connection it opens gets
   * one write and is closed exactly once.
   */
  method Forward(k: KerberosProxy, libs: Libs, net: Network, msg: KdcProxyMsg) returns (r: Result<seq<byte>>)
    requires |msg.kerbMessage| >= 4
    requires net.Logged()
    modifies net
    ensures net.Logged() && net.Grown()
    ensures r == ForwardResult(k, libs, net.peers, msg)
    ensures net.dials == old(net.dials) + ForwardDials(k, libs, net.peers, msg)
    ensures net.Settled(old(|net.conns|), msg.kerbMessage[4..], msg.kerbMessage)
    ensures InStep(net.peers, ForwardDials(k, libs, net.peers, msg), net.conns[old(|net.conns|)..])
  {
    var protocols := Protocols(|msg.kerbMessage|, k.config.udpPreferenceLimit);
    r := TryProtocols(k, libs, net, msg, protocols, |net.conns|);
    AddedInStep(net.peers, old(net.dials), ForwardDials(k, libs, net.peers, msg), old(net.conns), net.conns);
  }

  /** forward's outer loop: each protocol of `protocols` in turn, until one yields a reply. */
  method TryProtocols(k: KerberosProxy, libs: Libs, net: Network, msg: KdcProxyMsg, protocols: seq<Proto>, ghost from: nat)
    returns (r: Result<seq<byte>>)
    requires |msg.kerbMessage| >= 4
    requires net.Settled(from, msg.kerbMessage[4..], msg.kerbMessage)
    requires net.Logged()
    modifies net
    ensures net.Logged() && net.Grown()
    ensures var t := TurnByTurn(Some(libs.krb), k.config, net.peers, msg, protocols);
            r == t.0 && net.dials == old(net.dials) + t.1
    ensures net.Settled(from, msg.kerbMessage[4..], msg.kerbMessage)
  {
    ghost var whole := TurnByTurn(Some(libs.krb), k.config, net.peers, msg, protocols);
    ghost var start := net.dials;
    for pi := 0 to |protocols|
      invariant whole.0 == TurnByTurn(Some(libs.krb), k.config, net.peers, msg, protocols[pi..]).0
      invariant start + whole.1 == net.dials + TurnByTurn(Some(libs.krb), k.config, net.peers, msg, protocols[pi..]).1
      invariant net.Settled(from, msg.kerbMessage[4..], msg.kerbMessage)
      invariant net.Logged() && net.Grown()
    {
      var proto := protocols[pi];
      ghost var dialled := net.dials;
      TurnByTurnStep(Some(libs.krb), k.config, net.peers, msg, protocols, pi, dialled);
      var resp := TryProtocol(k, libs, net, msg, proto, from);
      if resp.Ok? {
        return resp;
      }
    }
    r := Err(NoKdcsFound);
  }

  // HTTP handler

  /** Whether a request gets as far as the rate limiter: a POST of acceptable, known length whose body was read. */
  predicate ConsultsLimiter(req: Http.Request)
  {
    req.verb == "POST" && req.contentLength != -1 && req.contentLength <= Http.MaxLength && Io.ReadAll(req.body).Ok?
  }

  /** What the client receives for `req` when the limiter answers `allowed` and the KDCs behave as `peers`. */
  function Serve(k: KerberosProxy, libs: Libs, peers: (Proto, Addr) -> Option<Peer>, req: Http.Request, allowed: bool)
    : Http.HttpResponse
  {
    if req.verb != "POST" then Http.ErrorResponse(Http.KerberosHeader, 405, "Method not allowed")
    else if req.contentLength == -1 then Http.ErrorResponse(Http.KerberosHeader, 411, "Content length required")
    else if req.contentLength > Http.MaxLength then Http.ErrorResponse(Http.KerberosHeader, 413, "Request entity too large")
    else
      match Io.ReadAll(req.body)
      case Err(_) => Http.ErrorResponse(Http.KerberosHeader, 500, "Error reading from stream")
      case Ok(data) =>
        if !allowed then Http.ErrorResponse(Http.KerberosHeader, 429, "Rate limit exceeded")
        else
          Relayed(k, libs, peers, data)
  }

  /** What the client receives for a request body that passed every HTTP gate: decode, realm check, forward, encode. */
  function Relayed(k: KerberosProxy, libs: Libs, peers: (Proto, Addr) -> Option<Peer>, data: seq<byte>): Http.HttpResponse
  {
    match Decode(libs, data)
    case Err(e) =>
      if e == SliceOutOfRange then Http.Aborted else Http.ErrorResponse(Http.KerberosHeader, 400, "Invalid request")
    case Ok(msg) =>
      if msg.targetDomain == "" then Http.ErrorResponse(Http.KerberosHeader, 400, "Invalid request")
      else
        match ForwardResult(k, libs, peers, msg)
        case Err(_) => Http.ErrorResponse(Http.KerberosHeader, 503, "Service unavailable")
        case Ok(resp) =>
          match Encode(libs, resp)
          case Err(_) => Http.ErrorResponse(Http.KerberosHeader, 500, "encoding error")
          case Ok(reply) => Http.Sent(200, Http.KerberosHeader, reply)
  }

  /** The dials made for a request body that passed every HTTP gate: forward's, once decode and the realm check pass; none otherwise. */
  function RelayDials(k: KerberosProxy, libs: Libs, peers: (Proto, Addr) -> Option<Peer>, data: seq<byte>): seq<(Proto, Addr)>
  {
    match Decode(libs, data)
    case Err(_) => []
    case Ok(msg) => if msg.targetDomain == "" then [] else ForwardDials(k, libs, peers, msg)
  }

  /** The dials made for `req`: none unless it passes the HTTP gates and the limiter. */
  function ServeDials(k: KerberosProxy, libs: Libs, peers: (Proto, Addr) -> Option<Peer>, req: Http.Request, allowed: bool)
    : seq<(Proto, Addr)>
  {
    if ConsultsLimiter(req) && allowed then RelayDials(k, libs, peers, Io.ReadAll(req.body).value) else []
  }

  /** A request refused by a gate before forward (405, 411, 413, 429 or 400) never reaches a KDC. */
  lemma RefusedBeforeForward(k: KerberosProxy, libs: Libs, peers: (Proto, Addr) -> Option<Peer>, req: Http.Request, allowed: bool)
    requires Serve(k, libs, peers, req, allowed).Sent?
    requires Serve(k, libs, peers, req, allowed).status in {405, 411, 413, 429, 400}
    ensures ServeDials(k, libs, peers, req, allowed) == []
  {
  }

  /**
   * A request is answered 200 exactly when it passes every gate in turn, and the reply is then
   * the KDC's answer re-wrapped by encode; any other answer is a plain-text error or an abort.
   */
  lemma ServeSucceeds(k: KerberosProxy, libs: Libs, peers: (Proto, Addr) -> Option<Peer>, req: Http.Request, allowed: bool)
    ensures var s := Serve(k, libs, peers, req, allowed);
            var body := Io.ReadAll(req.body);
            var msg := if body.Ok? then Decode(libs, body.value) else Err(Asn1Error);
            && ((s.Sent? && s.status == 200) <==>
                 && ConsultsLimiter(req) && allowed && msg.Ok? && msg.value.targetDomain != ""
                 && ForwardResult(k, libs, peers, msg.value).Ok?
                 && Encode(libs, ForwardResult(k, libs, peers, msg.value).value).Ok?)
            && (s.Sent? && s.status == 200 ==>
                 s == Http.Sent(200, Http.KerberosHeader, Encode(libs, ForwardResult(k, libs, peers, msg.value).value).value))
            && (s.Sent? && s.status != 200 ==> s.header[Http.ContentType] == Http.PlainText)
  {
  }

  /** A body longer than 128 KiB is refused with 413 before it is read; one of exactly 128 KiB is not. */
  lemma LengthLimit(k: KerberosProxy, libs: Libs, peers: (Proto, Addr) -> Option<Peer>, body: Io.Stream, allowed: bool)
    ensures Serve(k, libs, peers, Http.Request("POST", 131073, body), allowed).status == 413
    ensures var s := Serve(k, libs, peers, Http.Request("POST", 131072, body), allowed);
            s.Sent? ==> s.status != 413
  {
  }

  /** A request the limiter turns down gets 429 whatever its body holds. */
  lemma DeniedWhateverTheBody(k: KerberosProxy, libs: Libs, peers: (Proto, Addr) -> Option<Peer>, a: Http.Request, b: Http.Request)
    requires ConsultsLimiter(a) && ConsultsLimiter(b)
    ensures Serve(k, libs, peers, a, false) == Serve(k, libs, peers, b, false)
    ensures Serve(k, libs, peers, a, false).status == 429
  {
  }

  /**
   * End to end, with a sound envelope library: a 200 reply is an envelope that reads back with
   * nothing left over and carries a KDC reply whose 4-byte prefix gives the length of the rest.
   */
  lemma SuccessIsFramedEnvelope(k: KerberosProxy, libs: Libs, peers: (Proto, Addr) -> Option<Peer>, req: Http.Request, allowed: bool)
    requires Sound(libs.asn1)
    requires Serve(k, libs, peers, req, allowed).Sent? && Serve(k, libs, peers, req, allowed).status == 200
    ensures var s := Serve(k, libs, peers, req, allowed);
            var u := libs.asn1.unmarshal(s.body);
            && s.header == Http.KerberosHeader
            && u.Ok? && u.value.1 == [] && u.value.0.targetDomain == "" && u.value.0.dcLocatorHint == 0
            && |u.value.0.kerbMessage| >= 4
            && UnmarshalKerbLength(u.value.0.kerbMessage) == Ok(Wire.ToUint32(|u.value.0.kerbMessage| - 4))
  {
    var msg := Decode(libs, Io.ReadAll(req.body).value).value;
    ForwardRepliesAreFramed(k, libs, peers, msg);
  }

  /**
   * The second half of the handler, from the decode on, for a writer that holds only the
   * Content-Type header and has written nothing.
   */
  method Relay(k: KerberosProxy, libs: Libs, net: Network, w: Http.ResponseWriter, data: seq<byte>)
    requires w.header == Http.KerberosHeader && !w.WroteHeader() && w.body == [] && !w.aborted
    requires net.Logged()
    modifies w, net
    ensures net.Logged() && net.Grown()
    ensures w.Outcome() == Relayed(k, libs, net.peers, data)
    ensures net.dials == old(net.dials) + RelayDials(k, libs, net.peers, data)
    ensures InStep(net.peers, RelayDials(k, libs, net.peers, data), net.conns[old(|net.conns|)..])
    ensures var m := Decode(libs, data);
            m.Ok? ==> net.Settled(old(|net.conns|), m.value.kerbMessage[4..], m.value.kerbMessage)
    ensures RelayDials(k, libs, net.peers, data) == [] ==> net.conns == old(net.conns)
    ensures net.ClosedSince(old(|net.conns|))
  {
    var msg := Decode(libs, data);
    if msg.Err? {
      if msg.error == SliceOutOfRange {
        w.Abort();
        return;
      }
      w.Error("Invalid request", 400);
      return;
    }
    if msg.value.targetDomain == "" {
      w.Error("Invalid request", 400);
      return;
    }
    var resp := Forward(k, libs, net, msg.value);
    if resp.Err? {
      w.Error("Service unavailable", 503);
      return;
    }
    var reply := Encode(libs, resp.value);
    if reply.Err? {
      w.Error("encoding error", 500);
      return;
    }
    w.Write(reply.value);
  }

  /**
   * Handler: the gates in order (method, length known, length bound, body read, rate limit,
   * decode, realm, forward, encode), each answering with its own status and stopping there.
   */
  method Handler(k: KerberosProxy, libs: Libs, net: Network, w: Http.ResponseWriter, req: Http.Request)
    requires w.Unused()
    requires net.Logged()
    modifies w, k.limiter, net
    ensures net.Logged() && net.Grown()
    ensures w.Outcome() == Serve(k, libs, net.peers, req, k.limiter.decide(old(k.limiter.calls)))
    ensures k.limiter.calls == old(k.limiter.calls) + (if ConsultsLimiter(req) then 1 else 0)
    ensures var dials := ServeDials(k, libs, net.peers, req, k.limiter.decide(old(k.limiter.calls)));
            && net.dials == old(net.dials) + dials
            && InStep(net.peers, dials, net.conns[old(|net.conns|)..])
            && (dials == [] ==> net.conns == old(net.conns))
    ensures var body := Io.ReadAll(req.body);
            var m := if body.Ok? then Decode(libs, body.value) else Err(Asn1Error);
            m.Ok? ==> net.Settled(old(|net.conns|), m.value.kerbMessage[4..], m.value.kerbMessage)
    ensures net.ClosedSince(old(|net.conns|))
  {
    w.SetHeader(Http.ContentType, Http.Kerberos);
    assert w.header == Http.KerberosHeader;
    if req.verb != "POST" {
      w.Error("Method not allowed", 405);
      return;
    }
    var length := req.contentLength;
    if length == -1 {
      w.Error("Content length required", 411);
      return;
    }
    if length > Http.MaxLength {
      w.Error("Request entity too large", 413);
      return;
    }
    var data := Io.ReadAll(req.body);
    if data.Err? {
      w.Error("Error reading from stream", 500);
      return;
    }
    var allowed := k.limiter.Allow();
    if !allowed {
      w.Error("Rate limit exceeded", 429);
      return;
    }
    Relay(k, libs, net, w, data.value);
  }
}
