/**
 * The forwarding loop shared by pkg/proxy and proxy, as a specification: for each protocol in
 * turn, the KDCs the lookup offers, in order, each tried once, until one of them yields a reply.
 * The two versions differ only in what they accept as a UDP reply: pkg/proxy requires one of the
 * reply parsers to accept it, proxy takes it as it is. `check` says which: Some(parsers) or None.
 */
module Forwarding {
  import opened Prelude
  import opened Net
  import opened Envelope
  import Io
  import Wire
  import Krb5
  import Kerberos
  import Failover

  /** validReply: some reply parser (AS-REP, TGS-REP, AP-REP) accepts the bytes. */
  predicate ValidReply(p: Kerberos.Parsers, msg: seq<byte>)
  {
    p.asRep(msg) || p.tgsRep(msg) || p.apRep(msg)
  }

  /** Whether a UDP reply is taken: always without a check, otherwise only when it is a valid reply. */
  predicate Accepted(check: Option<Kerberos.Parsers>, msg: seq<byte>)
  {
    check.None? || ValidReply(check.value, msg)
  }

  /** The KDCs a lookup offers: none when GetKDCs failed or counted fewer than one. */
  function Offered(l: Krb5.Lookup): seq<Addr>
  {
    if l.failed || l.count < 1 then [] else l.kdcs
  }

  /** The attempts one protocol's turn makes: each KDC the lookup for that protocol offers. */
  function Turn(cfg: Krb5.Config, realm: string, proto: Proto): seq<(Proto, Addr)>
  {
    Failover.Pairs(proto, Offered(cfg.getKdcs(realm, proto == Tcp)))
  }

  /** The (protocol, KDC) attempts in the order the nested loops make them: protocols outside, resolver order inside. */
  function Plan(cfg: Krb5.Config, realm: string, protos: seq<Proto>): seq<(Proto, Addr)>
  {
    if protos == [] then []
    else Turn(cfg, realm, protos[0]) + Plan(cfg, realm, protos[1..])
  }

  /** The bytes written to a KDC: over UDP the message without its length prefix, over TCP all of it. */
  function Payload(proto: Proto, kerbMessage: seq<byte>): (r: seq<byte>)
    requires |kerbMessage| >= 4
    ensures proto == Tcp ==> r == kerbMessage
    ensures proto == Udp ==> kerbMessage == kerbMessage[..4] + r
  {
    if proto == Udp then kerbMessage[4..] else kerbMessage
  }

  /**
   * Reading the reply from a connection whose unread bytes are `s`. Over UDP everything up to
   * EOF is the reply, which must be accepted, and a length prefix is put in front of it. Over
   * TCP a 4-byte prefix is read and then exactly the length it announces.
   */
  function Response(check: Option<Kerberos.Parsers>, proto: Proto, s: Io.Stream): (r: Result<seq<byte>>)
    ensures r.Ok? ==> |r.value| >= 4 && Wire.Uint32(r.value) == Wire.ToUint32(|r.value| - 4)
    ensures proto == Udp ==> (r.Ok? <==> !s.fails && Accepted(check, s.data))
    ensures r.Ok? && proto == Udp ==> r.value[4..] == s.data
    ensures proto == Tcp ==> (r.Ok? <==> |s.data| >= 4 && |s.data| - 4 >= Wire.Uint32(s.data))
    ensures r.Ok? && proto == Tcp ==> r.value == s.data[..4 + Wire.Uint32(s.data)]
  {
    if proto == Udp then
      match Io.ReadAll(s)
      case Err(e) => Err(e)
      case Ok(msg) =>
        if !Accepted(check, msg) then Err(ReplyNotValid)
        else
          var prefix := Wire.PutUint32(Wire.ToUint32(|msg|));
          Wire.ReadWritten(Wire.ToUint32(|msg|));
          assert (prefix + msg)[..4] == prefix;
          Ok(prefix + msg)
    else
      match Io.ReadFull(s, 4)
      case Err(e) => Err(e)
      case Ok(buf) =>
        match Io.ReadFull(Io.Skip(s, 4), Wire.Uint32(buf))
        case Err(e) => Err(e)
        case Ok(msg) =>
          assert (buf + msg)[..4] == buf;
          assert buf + msg == s.data[..4 + Wire.Uint32(buf)];
          Ok(buf + msg)
  }

  /**
   * A KDC that takes the whole request and answers properly is heard: over TCP with a length
   * prefix and the bytes it announces, whatever follows them; over UDP with a datagram the
   * check accepts, which comes back behind a length prefix.
   */
  lemma AnswerIsHeard(check: Option<Kerberos.Parsers>, peers: (Proto, Addr) -> Option<Peer>, kerbMessage: seq<byte>,
                      t: (Proto, Addr), body: seq<byte>, after: Io.Stream)
    requires |kerbMessage| >= 4 && |body| < 0x1_0000_0000
    requires t.0 == Tcp ==> peers(t.0, t.1) == Some(Peer(TakesAll, Io.Stream(Wire.PutUint32(|body|) + body + after.data, after.fails)))
    requires t.0 == Udp ==> peers(t.0, t.1) == Some(Peer(TakesAll, Io.Stream(body, false))) && Accepted(check, body)
    ensures Attempt(check, peers, kerbMessage, t) == Ok(Wire.PutUint32(|body|) + body)
  {
    var reply := peers(t.0, t.1).value.reply;
    Wire.ReadWritten(|body|);
    var r := Response(check, t.0, reply);
    if t.0 == Tcp {
      assert Wire.Uint32(reply.data) == |body| by {
        assert reply.data[..4] == Wire.PutUint32(|body|);
      }
      assert reply.data[..4 + |body|] == Wire.PutUint32(|body|) + body;
    } else {
      assert r.value[..4] == Wire.PutUint32(|body|) by {
        Wire.WriteRead(r.value[..4]);
      }
      assert r.value == r.value[..4] + r.value[4..];
    }
  }

  /** One attempt of the loop: dial, write the payload, check it was all taken, read the reply. */
  function Attempt(check: Option<Kerberos.Parsers>, peers: (Proto, Addr) -> Option<Peer>, kerbMessage: seq<byte>, t: (Proto, Addr))
    : Result<seq<byte>>
    requires |kerbMessage| >= 4
  {
    match peers(t.0, t.1)
    case None => Err(DialError)
    case Some(peer) =>
      var req := Payload(t.0, kerbMessage);
      match WriteResult(peer.onWrite, |req|)
      case Err(e) => Err(e)
      case Ok(n) => if n != |req| then Err(ShortWrite) else Response(check, t.0, peer.reply)
  }

  /** The outcome of every attempt in a plan, in order. */
  function Outcomes(check: Option<Kerberos.Parsers>, peers: (Proto, Addr) -> Option<Peer>, kerbMessage: seq<byte>, plan: seq<(Proto, Addr)>)
    : (r: seq<Result<seq<byte>>>)
    requires |kerbMessage| >= 4
    ensures |r| == |plan|
  {
    seq(|plan|, i requires 0 <= i < |plan| => Attempt(check, peers, kerbMessage, plan[i]))
  }

  /** The i-th outcome is that of the i-th attempt. */
  lemma OutcomeAt(check: Option<Kerberos.Parsers>, peers: (Proto, Addr) -> Option<Peer>, kerbMessage: seq<byte>,
                  plan: seq<(Proto, Addr)>, i: nat)
    requires |kerbMessage| >= 4 && i < |plan|
    ensures Outcomes(check, peers, kerbMessage, plan)[i] == Attempt(check, peers, kerbMessage, plan[i])
  {
  }

  /** The outcomes of two plans run one after the other. */
  lemma OutcomesAppend(check: Option<Kerberos.Parsers>, peers: (Proto, Addr) -> Option<Peer>, kerbMessage: seq<byte>,
                       a: seq<(Proto, Addr)>, b: seq<(Proto, Addr)>)
    requires |kerbMessage| >= 4
    ensures Outcomes(check, peers, kerbMessage, a + b)
         == Outcomes(check, peers, kerbMessage, a) + Outcomes(check, peers, kerbMessage, b)
  {
    var all := Outcomes(check, peers, kerbMessage, a + b);
    var both := Outcomes(check, peers, kerbMessage, a) + Outcomes(check, peers, kerbMessage, b);
    forall i | 0 <= i < |a + b|
      ensures all[i] == both[i]
    {
      if i >= |a| {
        assert (a + b)[i] == b[i - |a|];
      }
    }
  }

  /**
   * One protocol's turn of the loop over the KDCs `kdcs`, in order: the reply it returns and
   * the dials it makes. The first attempt that succeeds ends the turn.
   */
  function TurnOver(check: Option<Kerberos.Parsers>, peers: (Proto, Addr) -> Option<Peer>, kerbMessage: seq<byte>,
                    proto: Proto, kdcs: seq<Addr>): (Result<seq<byte>>, seq<(Proto, Addr)>)
    requires |kerbMessage| >= 4
  {
    if kdcs == [] then (Err(NoKdcsFound), [])
    else
      var first := Attempt(check, peers, kerbMessage, (proto, kdcs[0]));
      if first.Ok? then (first, [(proto, kdcs[0])])
      else
        var rest := TurnOver(check, peers, kerbMessage, proto, kdcs[1..]);
        (rest.0, [(proto, kdcs[0])] + rest.1)
  }

  /** One protocol's turn: over the KDCs the lookup for that protocol offers. */
  function TurnResult(check: Option<Kerberos.Parsers>, cfg: Krb5.Config, peers: (Proto, Addr) -> Option<Peer>, msg: KdcProxyMsg, proto: Proto)
    : (Result<seq<byte>>, seq<(Proto, Addr)>)
    requires |msg.kerbMessage| >= 4
  {
    TurnOver(check, peers, msg.kerbMessage, proto, Offered(cfg.getKdcs(msg.targetDomain, proto == Tcp)))
  }

  /**
   * The loop over the protocols `protos`, one protocol's turn at a time: the reply it returns
   * and the dials it makes. A turn with a success ends the loop there.
   */
  function TurnByTurn(check: Option<Kerberos.Parsers>, cfg: Krb5.Config, peers: (Proto, Addr) -> Option<Peer>, msg: KdcProxyMsg, protos: seq<Proto>)
    : (Result<seq<byte>>, seq<(Proto, Addr)>)
    requires |msg.kerbMessage| >= 4
  {
    if protos == [] then (Err(NoKdcsFound), [])
    else
      var t := TurnResult(check, cfg, peers, msg, protos[0]);
      if t.0.Ok? then t
      else
        var rest := TurnByTurn(check, cfg, peers, msg, protos[1..]);
        (rest.0, t.1 + rest.1)
  }

  /**
   * The loop over the protocols from position i on: protocol i's turn decides it when that turn
   * succeeds; otherwise the loop goes on with the rest, after that turn's dials.
   */
  lemma TurnByTurnStep(check: Option<Kerberos.Parsers>, cfg: Krb5.Config, peers: (Proto, Addr) -> Option<Peer>, msg: KdcProxyMsg,
                       protos: seq<Proto>, i: nat, before: seq<(Proto, Addr)>)
    requires |msg.kerbMessage| >= 4 && i < |protos|
    ensures var t := TurnResult(check, cfg, peers, msg, protos[i]);
            var rest := TurnByTurn(check, cfg, peers, msg, protos[i + 1..]);
            var now := TurnByTurn(check, cfg, peers, msg, protos[i..]);
            && (t.0.Ok? ==> now == t)
            && (t.0.Err? ==> now.0 == rest.0 && before + now.1 == (before + t.1) + rest.1)
  {
    assert protos[i..][0] == protos[i] && protos[i..][1..] == protos[i + 1..];
  }

  /** A turn with a success decides the whole plan: its reply, reached after its own dials. */
  lemma TurnDecides(check: Option<Kerberos.Parsers>, peers: (Proto, Addr) -> Option<Peer>, kerbMessage: seq<byte>,
                    turn: seq<(Proto, Addr)>, later: seq<(Proto, Addr)>)
    requires |kerbMessage| >= 4
    requires Failover.FirstOk(Outcomes(check, peers, kerbMessage, turn)).Ok?
    ensures var mine := Outcomes(check, peers, kerbMessage, turn);
            var all := Outcomes(check, peers, kerbMessage, turn + later);
            Failover.FirstOk(all) == Failover.FirstOk(mine)
            && (turn + later)[..Failover.Tried(all)] == turn[..Failover.Tried(mine)]
  {
    var mine := Outcomes(check, peers, kerbMessage, turn);
    OutcomesAppend(check, peers, kerbMessage, turn, later);
    Failover.StopsAtSuccess(mine, Outcomes(check, peers, kerbMessage, later));
  }

  /** A turn without a success is dialled in full and the plan goes on with the later turns. */
  lemma TurnPasses(check: Option<Kerberos.Parsers>, peers: (Proto, Addr) -> Option<Peer>, kerbMessage: seq<byte>,
                   turn: seq<(Proto, Addr)>, later: seq<(Proto, Addr)>)
    requires |kerbMessage| >= 4
    requires Failover.FirstOk(Outcomes(check, peers, kerbMessage, turn)).Err?
    ensures var ol := Outcomes(check, peers, kerbMessage, later);
            var all := Outcomes(check, peers, kerbMessage, turn + later);
            Failover.FirstOk(all) == Failover.FirstOk(ol)
            && (turn + later)[..Failover.Tried(all)] == turn + later[..Failover.Tried(ol)]
  {
    var mine := Outcomes(check, peers, kerbMessage, turn);
    var ol := Outcomes(check, peers, kerbMessage, later);
    OutcomesAppend(check, peers, kerbMessage, turn, later);
    Failover.AfterFailures(mine, ol);
    Failover.PrefixAfter(turn, later, Failover.Tried(ol));
  }

  /** A turn returns the first success among its attempts, or "no kdcs found", and dials its KDCs up to that success. */
  lemma {:induction false} TurnOverIsFirstOk(check: Option<Kerberos.Parsers>, peers: (Proto, Addr) -> Option<Peer>, kerbMessage: seq<byte>,
                                            proto: Proto, kdcs: seq<Addr>)
    requires |kerbMessage| >= 4
    ensures var plan := Failover.Pairs(proto, kdcs);
            var outcomes := Outcomes(check, peers, kerbMessage, plan);
            TurnOver(check, peers, kerbMessage, proto, kdcs) == (Failover.FirstOk(outcomes), plan[..Failover.Tried(outcomes)])
  {
    var plan := Failover.Pairs(proto, kdcs);
    if kdcs == [] {
      assert Outcomes(check, peers, kerbMessage, plan) == [];
    } else {
      var head := [(proto, kdcs[0])];
      var tail := Failover.Pairs(proto, kdcs[1..]);
      assert plan == head + tail;
      var mine := Outcomes(check, peers, kerbMessage, head);
      assert mine[0] == Attempt(check, peers, kerbMessage, (proto, kdcs[0]));
      TurnOverIsFirstOk(check, peers, kerbMessage, proto, kdcs[1..]);
      if mine[0].Ok? {
        Failover.FirstOkAt(mine, 0);
        TurnDecides(check, peers, kerbMessage, head, tail);
      } else {
        TurnPasses(check, peers, kerbMessage, head, tail);
      }
    }
  }

  /** Turn by turn, the loop returns the first success of its whole plan and dials the plan up to it. */
  lemma {:induction false} TurnByTurnIsFirstOk(
    check: Option<Kerberos.Parsers>, cfg: Krb5.Config, peers: (Proto, Addr) -> Option<Peer>, msg: KdcProxyMsg, protos: seq<Proto>)
    requires |msg.kerbMessage| >= 4
    ensures var plan := Plan(cfg, msg.targetDomain, protos);
            var outcomes := Outcomes(check, peers, msg.kerbMessage, plan);
            TurnByTurn(check, cfg, peers, msg, protos) == (Failover.FirstOk(outcomes), plan[..Failover.Tried(outcomes)])
  {
    if protos != [] {
      var turn := Turn(cfg, msg.targetDomain, protos[0]);
      var later := Plan(cfg, msg.targetDomain, protos[1..]);
      assert Plan(cfg, msg.targetDomain, protos) == turn + later;
      TurnOverIsFirstOk(check, peers, msg.kerbMessage, protos[0], Offered(cfg.getKdcs(msg.targetDomain, protos[0] == Tcp)));
      if Failover.FirstOk(Outcomes(check, peers, msg.kerbMessage, turn)).Ok? {
        TurnDecides(check, peers, msg.kerbMessage, turn, later);
      } else {
        assert turn[..|turn|] == turn;
        TurnByTurnIsFirstOk(check, cfg, peers, msg, protos[1..]);
        TurnPasses(check, peers, msg.kerbMessage, turn, later);
      }
    }
  }

  /**
   * With the check, a UDP datagram that arrived whole is taken exactly when the AS-REP, TGS-REP or
   * AP-REP parser accepts it; without it, the same datagram is always taken.
   */
  lemma UdpReplyIsChecked(p: Kerberos.Parsers, peers: (Proto, Addr) -> Option<Peer>, kerbMessage: seq<byte>, kdc: Addr)
    requires |kerbMessage| >= 4
    requires peers(Udp, kdc).Some? && peers(Udp, kdc).value.onWrite.TakesAll? && !peers(Udp, kdc).value.reply.fails
    ensures var d := peers(Udp, kdc).value.reply.data;
            Attempt(Some(p), peers, kerbMessage, (Udp, kdc)).Ok? <==> p.asRep(d) || p.tgsRep(d) || p.apRep(d)
    ensures Attempt(None, peers, kerbMessage, (Udp, kdc)).Ok?
  {
  }

  /** The reply check only turns successes into failures: what is accepted with it is accepted, alike, without it. */
  lemma CheckOnlyNarrows(p: Kerberos.Parsers, peers: (Proto, Addr) -> Option<Peer>, kerbMessage: seq<byte>, t: (Proto, Addr))
    requires |kerbMessage| >= 4
    requires Attempt(Some(p), peers, kerbMessage, t).Ok?
    ensures Attempt(None, peers, kerbMessage, t) == Attempt(Some(p), peers, kerbMessage, t)
  {
  }
}
