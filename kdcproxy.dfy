/**
 * The KDC proxy of kdcproxy/proxy.go, the earliest generation: the envelope is decoded as it
 * is, with no look at the Kerberos message inside; forward falls back to the default realm,
 * uses TCP only, sends every KDC the message re-wrapped in a fresh envelope and returns the
 * first reply read, unframed and unchecked.
 */
module KdcProxy {
  import opened Prelude
  import opened Net
  import opened Envelope
  import Io
  import Http
  import Krb5
  import Failover
  import Proxy

  /** KerberosProxy: the krb5 configuration, whose DefaultRealm InitKdcProxy sets. */
  datatype KerberosProxy = KerberosProxy(config: Krb5.Config)

  /**
   * InitKdcProxy: a fresh krb5 configuration with `realm` as its default realm and KDCs looked
   * up through DNS, here the `resolver` given. The UDP preference limit is the library default,
   * which this proxy never consults.
   */
  function InitKdcProxy(resolver: (string, bool) -> Krb5.Lookup, realm: string): (k: KerberosProxy)
    ensures k.config.defaultRealm == realm && k.config.getKdcs == resolver
  {
    KerberosProxy(Krb5.Config(resolver, 1465, realm))
  }

  // Envelope codec (encoding/asn1 of the standard library)

  /** decode: the envelope, as it is, provided it uses up every byte. */
  function Decode(asn1: Codec<KdcProxyMsg>, data: seq<byte>): (r: Result<KdcProxyMsg>)
    ensures r.Ok? <==> asn1.unmarshal(data).Ok? && asn1.unmarshal(data).value.1 == []
    ensures r.Ok? ==> asn1.unmarshal(data) == Ok((r.value, []))
    ensures asn1.unmarshal(data).Ok? && asn1.unmarshal(data).value.1 != [] ==> r == Err(TrailingData)
  {
    match asn1.unmarshal(data)
    case Err(_) => Err(Asn1Error)
    case Ok((m, rest)) => if |rest| > 0 then Err(TrailingData) else Ok(m)
  }

  /** encode: the reply in an envelope with only the message field set. */
  function Encode(asn1: Codec<KdcProxyMsg>, data: seq<byte>): (r: Result<seq<byte>>)
    ensures r.Ok? <==> asn1.marshal(Wrap(data)).Ok?
    ensures Sound(asn1) && r.Ok? ==> Decode(asn1, r.value) == Ok(Wrap(data))
  {
    match asn1.marshal(Wrap(data))
    case Err(_) => Err(Asn1Error)
    case Ok(enc) =>
      Envelope.ReadsBack(asn1, Wrap(data));
      Ok(enc)
  }

  /**
   * With a sound library every envelope decodes to itself, realm and flags included, and the
   * same bytes with anything appended are rejected as trailing data.
   */
  lemma DecodeEncoded(asn1: Codec<KdcProxyMsg>, m: KdcProxyMsg, extra: seq<byte>)
    requires Sound(asn1) && asn1.marshal(m).Ok?
    ensures Decode(asn1, asn1.marshal(m).value) == Ok(m)
    ensures extra != [] ==> Decode(asn1, asn1.marshal(m).value + extra) == Err(TrailingData)
  {
    Envelope.ReadsBack(asn1, m);
    Envelope.LeavesTrailing(asn1, m, extra);
  }

  // Forwarding

  /** The realm forward looks up: the one asked for, or the configured default when none was. */
  function Realm(k: KerberosProxy, realm: string): string
  {
    if realm == "" then k.config.defaultRealm else realm
  }

  /** The bytes forward sends every KDC: the message re-wrapped in an envelope (nothing when that fails). */
  function Sent(asn1: Codec<KdcProxyMsg>, data: seq<byte>): (m: seq<byte>)
    ensures asn1.marshal(Wrap(data)).Ok? ==> m == asn1.marshal(Wrap(data)).value
  {
    match asn1.marshal(Wrap(data))
    case Err(_) => []
    case Ok(m) => m
  }

  /** With a sound library, what a KDC receives reads back as an envelope holding just the message. */
  lemma SentIsEnvelope(asn1: Codec<KdcProxyMsg>, data: seq<byte>)
    requires Sound(asn1) && asn1.marshal(Wrap(data)).Ok?
    ensures asn1.unmarshal(Sent(asn1, data)) == Ok((KdcProxyMsg(data, "", 0), []))
  {
    Envelope.ReadsBack(asn1, Wrap(data));
  }

  /**
   * One attempt of the loop: dial over TCP, write the envelope, read everything up to EOF. The
   * count of bytes the write took is not looked at.
   */
  function Attempt(peers: (Proto, Addr) -> Option<Peer>, m: seq<byte>, kdc: Addr): Result<seq<byte>>
  {
    match peers(Tcp, kdc)
    case None => Err(DialError)
    case Some(peer) =>
      match WriteResult(peer.onWrite, |m|)
      case Err(e) => Err(e)
      case Ok(_) => Io.ReadAll(peer.reply)
  }

  /** The outcome of an attempt on each KDC, in order. */
  function Outcomes(peers: (Proto, Addr) -> Option<Peer>, m: seq<byte>, kdcs: seq<Addr>): (r: seq<Result<seq<byte>>>)
    ensures |r| == |kdcs|
  {
    seq(|kdcs|, i requires 0 <= i < |kdcs| => Attempt(peers, m, kdcs[i]))
  }

  /** The loop over `kdcs`: the reply it returns and the dials it makes. The first success ends it. */
  function TurnOver(peers: (Proto, Addr) -> Option<Peer>, m: seq<byte>, kdcs: seq<Addr>): (Result<seq<byte>>, seq<(Proto, Addr)>)
  {
    if kdcs == [] then (Err(NoKdcsFound), [])
    else
      var first := Attempt(peers, m, kdcs[0]);
      if first.Ok? then (first, [(Tcp, kdcs[0])])
      else
        var rest := TurnOver(peers, m, kdcs[1..]);
        (rest.0, [(Tcp, kdcs[0])] + rest.1)
  }

  /** forward for `realm` and the Kerberos message `data`: the reply it returns and the dials it makes. */
  function Forwarded(k: KerberosProxy, asn1: Codec<KdcProxyMsg>, peers: (Proto, Addr) -> Option<Peer>, realm: string, data: seq<byte>)
    : (Result<seq<byte>>, seq<(Proto, Addr)>)
  {
    var lookup := k.config.getKdcs(Realm(k, realm), true);
    if lookup.failed || lookup.count < 1 then (Err(CannotGetKdc), [])
    else
      match asn1.marshal(Wrap(data))
      case Err(_) => (Err(EncodingMessage), [])
      case Ok(m) => TurnOver(peers, m, lookup.kdcs)
  }

  /** The loop's result and dials are those of the first success among its attempts. */
  predicate IsFirstOk(peers: (Proto, Addr) -> Option<Peer>, m: seq<byte>, kdcs: seq<Addr>)
  {
    var outcomes := Outcomes(peers, m, kdcs);
    TurnOver(peers, m, kdcs) == (Failover.FirstOk(outcomes), Failover.Pairs(Tcp, kdcs)[..Failover.Tried(outcomes)])
  }

  /** The loop returns the first success among its attempts, or "no kdcs found", and dials the KDCs up to it. */
  lemma {:induction false} TurnOverIsFirstOk(peers: (Proto, Addr) -> Option<Peer>, m: seq<byte>, kdcs: seq<Addr>)
    ensures IsFirstOk(peers, m, kdcs)
  {
    if kdcs != [] {
      TurnOverIsFirstOk(peers, m, kdcs[1..]);
      if Attempt(peers, m, kdcs[0]).Ok? {
        FirstSucceeds(peers, m, kdcs);
      } else {
        FirstFails(peers, m, kdcs);
      }
    }
  }

  /** The outcomes and the dial plan of a non-empty list of KDCs: its first one, then the rest. */
  lemma Unfold(peers: (Proto, Addr) -> Option<Peer>, m: seq<byte>, kdcs: seq<Addr>)
    requires kdcs != []
    ensures Outcomes(peers, m, kdcs) == [Attempt(peers, m, kdcs[0])] + Outcomes(peers, m, kdcs[1..])
    ensures Failover.Pairs(Tcp, kdcs) == [(Tcp, kdcs[0])] + Failover.Pairs(Tcp, kdcs[1..])
  {
  }

  /** A reply from the first KDC ends the loop after one dial. */
  lemma FirstSucceeds(peers: (Proto, Addr) -> Option<Peer>, m: seq<byte>, kdcs: seq<Addr>)
    requires kdcs != [] && Attempt(peers, m, kdcs[0]).Ok?
    ensures IsFirstOk(peers, m, kdcs)
  {
    var first := [Attempt(peers, m, kdcs[0])];
    Unfold(peers, m, kdcs);
    Failover.FirstOkAt(first, 0);
    Failover.StopsAtSuccess(first, Outcomes(peers, m, kdcs[1..]));
    assert Failover.Pairs(Tcp, kdcs)[..1] == [(Tcp, kdcs[0])];
  }

  /** A failure on the first KDC leaves the loop to go on with the rest. */
  lemma FirstFails(peers: (Proto, Addr) -> Option<Peer>, m: seq<byte>, kdcs: seq<Addr>)
    requires kdcs != [] && Attempt(peers, m, kdcs[0]).Err?
    requires IsFirstOk(peers, m, kdcs[1..])
    ensures IsFirstOk(peers, m, kdcs)
  {
    var first := [Attempt(peers, m, kdcs[0])];
    var later := Outcomes(peers, m, kdcs[1..]);
    var head := [(Tcp, kdcs[0])];
    var tail := Failover.Pairs(Tcp, kdcs[1..]);
    var rest := TurnOver(peers, m, kdcs[1..]);
    Unfold(peers, m, kdcs);
    Failover.AfterFailures(first, later);
    Failover.PrefixAfter(head, tail, Failover.Tried(later));
    var all := Outcomes(peers, m, kdcs);
    assert Failover.FirstOk(all) == rest.0;
    assert Failover.Pairs(Tcp, kdcs)[..Failover.Tried(all)] == head + rest.1;
    assert TurnOver(peers, m, kdcs) == (rest.0, head + rest.1);
  }

  /**
   * forward fails before dialling anything when the lookup fails or finds no KDC, or when the
   * envelope cannot be built; otherwise it returns the first reply obtained from the KDCs in
   * lookup order, or "no kdcs found", having dialled them up to that reply.
   */
  lemma ForwardIsFirstOk(k: KerberosProxy, asn1: Codec<KdcProxyMsg>, peers: (Proto, Addr) -> Option<Peer>, realm: string, data: seq<byte>)
    ensures var lookup := k.config.getKdcs(Realm(k, realm), true);
            var f := Forwarded(k, asn1, peers, realm, data);
            && (lookup.failed || lookup.count < 1 ==> f == (Err(CannotGetKdc), []))
            && (!lookup.failed && lookup.count >= 1 && asn1.marshal(Wrap(data)).Err? ==> f == (Err(EncodingMessage), []))
            && (!lookup.failed && lookup.count >= 1 && asn1.marshal(Wrap(data)).Ok? ==>
                  var outcomes := Outcomes(peers, Sent(asn1, data), lookup.kdcs);
                  f == (Failover.FirstOk(outcomes), Failover.Pairs(Tcp, lookup.kdcs)[..Failover.Tried(outcomes)]))
  {
    TurnOverIsFirstOk(peers, Sent(asn1, data), k.config.getKdcs(Realm(k, realm), true).kdcs);
  }

  /**
   * A request without a realm is forwarded exactly as one naming the realm given at init, and
   * a request naming a realm looks up that realm's TCP KDCs.
   */
  lemma EmptyRealmIsDefault(resolver: (string, bool) -> Krb5.Lookup, realm: string, asn1: Codec<KdcProxyMsg>,
                            peers: (Proto, Addr) -> Option<Peer>, asked: string, data: seq<byte>)
    ensures var k := InitKdcProxy(resolver, realm);
            && Forwarded(k, asn1, peers, "", data) == Forwarded(k, asn1, peers, realm, data)
            && (asked != "" ==> k.config.getKdcs(Realm(k, asked), true) == resolver(asked, true))
  {
  }

  /**
   * The count conn.Write returns is never read: after any write that reports no error, whatever
   * the KDC sends back is the reply, whatever count the write gave.
   */
  lemma ShortWriteGoesUnnoticed(peers: (Proto, Addr) -> Option<Peer>, m: seq<byte>, kdc: Addr)
    requires peers(Tcp, kdc).Some? && peers(Tcp, kdc).value.onWrite.Takes?
    requires !peers(Tcp, kdc).value.reply.fails
    ensures Attempt(peers, m, kdc) == Ok(peers(Tcp, kdc).value.reply.data)
  {
  }

  /**
   * The body of forward's loop for one KDC: dial it over TCP, write the envelope, read the
   * reply up to EOF; the connection is closed on every path.
   */
  method Try(net: Network, kdc: Addr, m: seq<byte>, ghost from: nat) returns (r: Result<seq<byte>>)
    requires net.Settled(from, m, m)
    requires net.Logged()
    modifies net
    ensures net.Logged() && net.Grown()
    ensures r == Attempt(net.peers, m, kdc)
    ensures net.dials == old(net.dials) + [(Tcp, kdc)]
    ensures net.Settled(from, m, m)
  {
    var conn := net.Dial(Tcp, kdc);
    if conn == null {
      return Err(DialError);
    }
    var n := conn.Write(m);
    if n.Err? {
      conn.Close();
      return Err(n.error);
    }
    var resp := conn.ReadAll();
    if resp.Err? {
      conn.Close();
      return Err(resp.error);
    }
    conn.Close();
    return resp;
  }

  /**
   * forward: resolves the realm (the default one when empty), looks up its TCP KDCs, builds the
   * envelope, and tries the KDCs in order; every connection it opens gets the envelope and is
   * closed exactly once.
   */
  method Forward(k: KerberosProxy, asn1: Codec<KdcProxyMsg>, net: Network, realm: string, data: seq<byte>)
    returns (r: Result<seq<byte>>)
    requires net.Logged()
    modifies net
    ensures net.Logged() && net.Grown()
    ensures r == Forwarded(k, asn1, net.peers, realm, data).0
    ensures net.dials == old(net.dials) + Forwarded(k, asn1, net.peers, realm, data).1
    ensures net.Settled(old(|net.conns|), Sent(asn1, data), Sent(asn1, data))
    ensures InStep(net.peers, Forwarded(k, asn1, net.peers, realm, data).1, net.conns[old(|net.conns|)..])
  {
    var target := realm;
    if target == "" {
      target := k.config.defaultRealm;
    }
    var lookup := k.config.getKdcs(target, true);
    if lookup.failed || lookup.count < 1 {
      return Err(CannotGetKdc);
    }
    var enc := asn1.marshal(Wrap(data));
    if enc.Err? {
      return Err(EncodingMessage);
    }
    r := TryEach(net, enc.value, lookup.kdcs, |net.conns|);
    AddedInStep(net.peers, old(net.dials), Forwarded(k, asn1, net.peers, realm, data).1, old(net.conns), net.conns);
  }

  /** forward's loop: each KDC in turn until one answers; dials exactly the KDCs up to and including that one. */
  method TryEach(net: Network, m: seq<byte>, kdcs: seq<Addr>, ghost from: nat) returns (r: Result<seq<byte>>)
    requires net.Settled(from, m, m)
    requires net.Logged()
    modifies net
    ensures net.Logged() && net.Grown()
    ensures var t := TurnOver(net.peers, m, kdcs);
            r == t.0 && net.dials == old(net.dials) + t.1
    ensures net.Settled(from, m, m)
  {
    ghost var whole := TurnOver(net.peers, m, kdcs);
    ghost var start := net.dials;
    for i := 0 to |kdcs|
      invariant whole.0 == TurnOver(net.peers, m, kdcs[i..]).0
      invariant start + whole.1 == net.dials + TurnOver(net.peers, m, kdcs[i..]).1
      invariant net.Settled(from, m, m)
      invariant net.Logged() && net.Grown()
    {
      var kdc := kdcs[i];
      assert kdcs[i..][0] == kdc && kdcs[i..][1..] == kdcs[i + 1..];
      ghost var dialled := net.dials;
      var resp := Try(net, kdc, m, from);
      if resp.Ok? {
        return resp;
      }
      ghost var rest := TurnOver(net.peers, m, kdcs[i + 1..]).1;
      assert dialled + ([(Tcp, kdc)] + rest) == net.dials + rest;
    }
    r := Err(NoKdcsFound);
  }

  // HTTP handler

  /** What the client receives for `req` when the KDCs behave as `peers`. */
  function Serve(k: KerberosProxy, asn1: Codec<KdcProxyMsg>, peers: (Proto, Addr) -> Option<Peer>, req: Http.Request)
    : Http.HttpResponse
    requires req.contentLength >= -1
  {
    if req.verb != "POST" then Http.ErrorResponse(map[], 405, "Method not allowed")
    else if req.contentLength == -1 then Http.ErrorResponse(map[], 411, "Content length required")
    else if req.contentLength > Http.MaxLength then Http.ErrorResponse(map[], 413, "Request entity too large")
    else
      match Io.ReadFull(req.body, req.contentLength)
      case Err(_) => Http.ErrorResponse(map[], 500, "Error reading from stream")
      case Ok(data) => Relayed(k, asn1, peers, data)
  }

  /** What the client receives for a request body that passed the HTTP gates: decode, forward, encode. */
  function Relayed(k: KerberosProxy, asn1: Codec<KdcProxyMsg>, peers: (Proto, Addr) -> Option<Peer>, data: seq<byte>)
    : Http.HttpResponse
  {
    match Decode(asn1, data)
    case Err(_) => Http.ErrorResponse(map[], 400, "Invalid request")
    case Ok(msg) =>
      match Forwarded(k, asn1, peers, msg.targetDomain, msg.kerbMessage).0
      case Err(_) => Http.ErrorResponse(map[], 503, "Service unavailable")
      case Ok(resp) =>
        match Encode(asn1, resp)
        case Err(_) => Http.ErrorResponse(map[], 500, "encoding error")
        case Ok(reply) => Http.Sent(200, Http.KerberosHeader, reply)
  }

  /** The dials made for a request body that passed the HTTP gates: forward's, once decode passes; none otherwise. */
  function RelayDials(k: KerberosProxy, asn1: Codec<KdcProxyMsg>, peers: (Proto, Addr) -> Option<Peer>, data: seq<byte>)
    : seq<(Proto, Addr)>
  {
    match Decode(asn1, data)
    case Err(_) => []
    case Ok(msg) => Forwarded(k, asn1, peers, msg.targetDomain, msg.kerbMessage).1
  }

  /** Whether a request passes the HTTP gates: a POST of acceptable, known length whose announced body was read in full. */
  predicate PassesGates(req: Http.Request)
  {
    req.verb == "POST" && 0 <= req.contentLength <= Http.MaxLength && Io.ReadFull(req.body, req.contentLength).Ok?
  }

  /** The dials made for `req`: none unless it passes the HTTP gates. */
  function ServeDials(k: KerberosProxy, asn1: Codec<KdcProxyMsg>, peers: (Proto, Addr) -> Option<Peer>, req: Http.Request)
    : seq<(Proto, Addr)>
  {
    if PassesGates(req) then RelayDials(k, asn1, peers, Io.ReadFull(req.body, req.contentLength).value) else []
  }

  /** A request refused by a gate before forward (405, 411, 413 or 400) never reaches a KDC. */
  lemma RefusedBeforeForward(k: KerberosProxy, asn1: Codec<KdcProxyMsg>, peers: (Proto, Addr) -> Option<Peer>, req: Http.Request)
    requires req.contentLength >= -1
    requires Serve(k, asn1, peers, req).status in {405, 411, 413, 400}
    ensures ServeDials(k, asn1, peers, req) == []
  {
  }

  /**
   * A request is answered 200 exactly when it passes every gate in turn, and the reply is then
   * the KDC's answer re-wrapped by encode; every other answer is a plain-text error.
   */
  lemma ServeSucceeds(k: KerberosProxy, asn1: Codec<KdcProxyMsg>, peers: (Proto, Addr) -> Option<Peer>, req: Http.Request)
    requires req.contentLength >= -1
    ensures var s := Serve(k, asn1, peers, req);
            var body := if req.contentLength >= 0 then Io.ReadFull(req.body, req.contentLength) else Err(ReadError);
            var msg := if body.Ok? then Decode(asn1, body.value) else Err(Asn1Error);
            var resp := if msg.Ok? then Forwarded(k, asn1, peers, msg.value.targetDomain, msg.value.kerbMessage).0 else Err(Asn1Error);
            && s.Sent?
            && (s.status == 200 <==>
                 && req.verb == "POST" && 0 <= req.contentLength <= Http.MaxLength && body.Ok? && msg.Ok?
                 && resp.Ok? && Encode(asn1, resp.value).Ok?)
            && (s.status == 200 ==> s == Http.Sent(200, Http.KerberosHeader, Encode(asn1, resp.value).value))
            && (s.status != 200 ==> s.header[Http.ContentType] == Http.PlainText)
  {
  }

  /**
   * End to end, with a sound envelope library: a 200 reply is an envelope holding, untouched,
   * everything one of the looked-up KDCs sent back over TCP.
   */
  lemma SuccessCarriesKdcReply(k: KerberosProxy, asn1: Codec<KdcProxyMsg>, peers: (Proto, Addr) -> Option<Peer>, req: Http.Request)
    requires req.contentLength >= -1
    requires Sound(asn1)
    requires Serve(k, asn1, peers, req).status == 200
    ensures var msg := Decode(asn1, Io.ReadFull(req.body, req.contentLength).value).value;
            var kdcs := k.config.getKdcs(Realm(k, msg.targetDomain), true).kdcs;
            var reply := Decode(asn1, Serve(k, asn1, peers, req).body);
            && reply.Ok? && reply.value.targetDomain == "" && reply.value.dcLocatorHint == 0
            && exists i :: 0 <= i < |kdcs| && peers(Tcp, kdcs[i]).Some? && !peers(Tcp, kdcs[i]).value.reply.fails
                 && reply.value.kerbMessage == peers(Tcp, kdcs[i]).value.reply.data
  {
    ServeSucceeds(k, asn1, peers, req);
    var msg := Decode(asn1, Io.ReadFull(req.body, req.contentLength).value).value;
    var realm := msg.targetDomain;
    var data := msg.kerbMessage;
    ForwardIsFirstOk(k, asn1, peers, realm, data);
    var kdcs := k.config.getKdcs(Realm(k, realm), true).kdcs;
    var outcomes := Outcomes(peers, Sent(asn1, data), kdcs);
    var i := Failover.FirstOkIndex(outcomes);
    assert outcomes[i] == Attempt(peers, Sent(asn1, data), kdcs[i]);
  }

  /**
   * The second half of the handler, from the decode on, for a writer nothing was done to. On
   * an encode failure it writes the 500 and then carries on: it sets Content-Type and writes
   * the empty reply, which reach the client too late to change anything.
   */
  method Relay(k: KerberosProxy, asn1: Codec<KdcProxyMsg>, net: Network, w: Http.ResponseWriter, data: seq<byte>)
    requires w.Unused()
    requires net.Logged()
    modifies w, net
    ensures net.Logged() && net.Grown()
    ensures w.Outcome() == Relayed(k, asn1, net.peers, data)
    ensures net.dials == old(net.dials) + RelayDials(k, asn1, net.peers, data)
    ensures InStep(net.peers, RelayDials(k, asn1, net.peers, data), net.conns[old(|net.conns|)..])
    ensures var m := Decode(asn1, data);
            m.Ok? ==> net.Settled(old(|net.conns|), Sent(asn1, m.value.kerbMessage), Sent(asn1, m.value.kerbMessage))
    ensures RelayDials(k, asn1, net.peers, data) == [] ==> net.conns == old(net.conns)
    ensures net.ClosedSince(old(|net.conns|))
  {
    var msg := Decode(asn1, data);
    if msg.Err? {
      w.Error("Invalid request", 400);
      return;
    }
    var resp := Forward(k, asn1, net, msg.value.targetDomain, msg.value.kerbMessage);
    if resp.Err? {
      w.Error("Service unavailable", 503);
      return;
    }
    var reply := Encode(asn1, resp.value);
    Proxy.Reply(w, reply);
  }

  /**
   * Handler: the gates in order (method, length known, length bound, body read into a buffer of
   * the announced length, decode, forward, encode), each answering with its own status; every
   * connection forward opens is closed by the time it returns.
   */
  method Handler(k: KerberosProxy, asn1: Codec<KdcProxyMsg>, net: Network, w: Http.ResponseWriter, req: Http.Request)
    requires req.contentLength >= -1
    requires w.Unused()
    requires net.Logged()
    modifies w, net
    ensures net.Logged() && net.Grown()
    ensures w.Outcome() == Serve(k, asn1, net.peers, req)
    ensures var dials := ServeDials(k, asn1, net.peers, req);
            && net.dials == old(net.dials) + dials
            && InStep(net.peers, dials, net.conns[old(|net.conns|)..])
            && (dials == [] ==> net.conns == old(net.conns))
    ensures var body := if req.contentLength >= 0 then Io.ReadFull(req.body, req.contentLength) else Err(ReadError);
            var m := if body.Ok? then Decode(asn1, body.value) else Err(Asn1Error);
            m.Ok? ==> net.Settled(old(|net.conns|), Sent(asn1, m.value.kerbMessage), Sent(asn1, m.value.kerbMessage))
    ensures net.ClosedSince(old(|net.conns|))
  {
    if req.verb != "POST" {
      w.Error("Method not allowed", 405);
      return;
    }
    var length := req.contentLength;
    if length == -1 {
      w.Error("Content length required", 411);
      return;
    }
    if length > Http.MaxLength {
      w.Error("Request entity too large", 413);
      return;
    }
    var data := Io.ReadFull(req.body, length);
    if data.Err? {
      w.Error("Error reading from stream", 500);
      return;
    }
    Relay(k, asn1, net, w, data.value);
  }
}
