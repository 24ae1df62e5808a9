/**
 * Connections to KDCs. A KDC is scripted by a Peer value: what its end answers to a write and
 * what it sends back. A Conn is the proxy's end of one dialled connection; a Network dials
 * Conns and logs every dial attempt, in order.
 */
module Net {
  import opened Prelude
  import Io

  datatype Proto = Udp | Tcp

  /** A KDC's "host:port" as the resolver gives it. */
  type Addr = string

  /** How a KDC's end answers conn.Write: it takes the whole request, reports n bytes taken, or fails. */
  datatype WriteBehaviour = TakesAll | Takes(n: nat) | Fails

  /** A KDC as seen through one connection to it. */
  datatype Peer = Peer(onWrite: WriteBehaviour, reply: Io.Stream)

  /** What conn.Write returns, as (n, err), for a request of `len` bytes. */
  function WriteResult(w: WriteBehaviour, len: nat): (r: Result<nat>)
    ensures r.Err? <==> w.Fails?
    ensures w.TakesAll? ==> r == Ok(len)
  {
    match w
    case TakesAll => Ok(len)
    case Takes(n) => Ok(n)
    case Fails => Err(WriteError)
  }

  class Conn {
    const proto: Proto
    const addr: Addr
    const peer: Peer
    /** The payloads passed to Write, in order. */
    var writes: seq<seq<byte>>
    /** How many bytes of the peer's reply have been consumed. */
    var cursor: nat
    /** How many times Close was called. */
    var closes: nat

    ghost predicate Valid()
      reads this
    {
      cursor <= |peer.reply.data|
    }

    predicate Closed()
      reads this
    {
      closes > 0
    }

    /** The part of the reply not yet read. */
    ghost function Unread(): Io.Stream
      reads this
      requires Valid()
    {
      Io.Skip(peer.reply, cursor)
    }

    constructor (proto: Proto, addr: Addr, peer: Peer)
      ensures this.proto == proto && this.addr == addr && this.peer == peer
      ensures writes == [] && cursor == 0 && closes == 0 && Valid()
    {
      this.proto, this.addr, this.peer := proto, addr, peer;
      writes, cursor, closes := [], 0, 0;
    }

    /** conn.Write(p): on a closed connection it fails with net.ErrClosed. */
    method Write(p: seq<byte>) returns (r: Result<nat>)
      requires Valid()
      modifies this`writes
      ensures Valid()
      ensures r == if Closed() then Err(WriteError) else WriteResult(peer.onWrite, |p|)
      ensures writes == old(writes) + [p]
    {
      writes := writes + [p];
      if closes > 0 {
        r := Err(WriteError);
      } else {
        r := WriteResult(peer.onWrite, |p|);
      }
    }

    /** io.ReadAll(conn). */
    method ReadAll() returns (r: Result<seq<byte>>)
      requires Valid()
      modifies this`cursor
      ensures Valid()
      ensures r == if Closed() then Err(ReadError) else Io.ReadAll(old(Unread()))
      ensures old(Closed()) ==> cursor == old(cursor)
      ensures !old(Closed()) ==> cursor == |peer.reply.data|
    {
      if closes > 0 {
        r := Err(ReadError);
      } else {
        r := Io.ReadAll(Io.Skip(peer.reply, cursor));
        cursor := |peer.reply.data|;
      }
    }

    /** io.ReadFull(conn, buf) with a fresh n-byte buf. */
    method ReadFull(n: nat) returns (r: Result<seq<byte>>)
      requires Valid()
      modifies this`cursor
      ensures Valid()
      ensures r == if Closed() then Err(ReadError) else Io.ReadFull(old(Unread()), n)
      ensures old(Closed()) ==> cursor == old(cursor)
      ensures r.Ok? ==> cursor == old(cursor) + n
      ensures r.Err? && !old(Closed()) ==> cursor == |peer.reply.data|
    {
      if closes > 0 {
        r := Err(ReadError);
      } else {
        r := Io.ReadFull(Io.Skip(peer.reply, cursor), n);
        cursor := if r.Ok? then cursor + n else |peer.reply.data|;
      }
    }

    /** conn.Close(). */
    method Close()
      modifies this`closes
      ensures closes == old(closes) + 1
    {
      closes := closes + 1;
    }
  }

  /** The dials of `ds` that reached a KDC, in order: those that opened a connection. */
  function Reached(peers: (Proto, Addr) -> Option<Peer>, ds: seq<(Proto, Addr)>): (r: seq<(Proto, Addr)>)
    ensures |r| <= |ds|
  {
    if ds == [] then []
    else
      var last := ds[|ds| - 1];
      Reached(peers, ds[..|ds| - 1]) + if peers(last.0, last.1).Some? then [last] else []
  }

  /** The dials that reached a KDC in two runs of dials, one after the other, are those of each run in turn. */
  lemma {:induction false} ReachedAppend(peers: (Proto, Addr) -> Option<Peer>, a: seq<(Proto, Addr)>, b: seq<(Proto, Addr)>)
    ensures Reached(peers, a + b) == Reached(peers, a) + Reached(peers, b)
  {
    if b == [] {
      assert a + b == a;
    } else {
      assert (a + b)[..|a + b| - 1] == a + b[..|b| - 1];
      ReachedAppend(peers, a, b[..|b| - 1]);
    }
  }

  /**
   * `conns` holds the connections the dials `ds` opened: one for each dial that reached a KDC,
   * in the order of the dials, each over that dial's protocol to that dial's address.
   */
  ghost predicate InStep(peers: (Proto, Addr) -> Option<Peer>, ds: seq<(Proto, Addr)>, conns: seq<Conn>)
  {
    var reached := Reached(peers, ds);
    |conns| == |reached| && forall j :: 0 <= j < |conns| ==> (conns[j].proto, conns[j].addr) == reached[j]
  }

  /**
   * When a log of connections in step with its dials is extended, and is again in step with the
   * dials extended by `ds`, the connections added are exactly those the dials `ds` opened.
   */
  lemma AddedInStep(peers: (Proto, Addr) -> Option<Peer>, before: seq<(Proto, Addr)>, ds: seq<(Proto, Addr)>,
                    was: seq<Conn>, now: seq<Conn>)
    requires InStep(peers, before, was) && InStep(peers, before + ds, now) && was <= now
    ensures InStep(peers, ds, now[|was|..])
  {
    ReachedAppend(peers, before, ds);
    var added := now[|was|..];
    forall j | 0 <= j < |added|
      ensures (added[j].proto, added[j].addr) == Reached(peers, ds)[j]
    {
      assert added[j] == now[|was| + j];
    }
  }

  /**
   * net.Dial against a fixed set of KDCs: `peers` says which (protocol, address) pairs answer and how.
   * `dials` logs every attempt; `conns` holds every connection that was established, in order.
   */
  class Network {
    const peers: (Proto, Addr) -> Option<Peer>
    var dials: seq<(Proto, Addr)>
    ghost var conns: seq<Conn>

    constructor (peers: (Proto, Addr) -> Option<Peer>)
      ensures this.peers == peers && dials == [] && conns == []
      ensures Logged()
    {
      this.peers := peers;
      dials, conns := [], [];
    }

    /** The connection log is in step with the dial log: one connection per dial that reached a KDC. */
    ghost predicate Logged()
      reads this
    {
      InStep(peers, dials, conns)
    }

    /** Since the earlier state the connection log has only grown, and every connection added to it is new. */
    twostate predicate Grown()
      reads this
    {
      old(conns) <= conns && forall i :: old(|conns|) <= i < |conns| ==> fresh(conns[i])
    }

    /** Every connection established from position `from` of `conns` on has been closed exactly once. */
    ghost predicate ClosedSince(from: nat)
      reads this, conns
    {
      from <= |conns| && forall i :: from <= i < |conns| ==> conns[i].closes == 1
    }

    /**
     * Every connection established from position `from` of `conns` on got exactly one write,
     * `udp` over UDP and `tcp` over TCP, and has been closed exactly once.
     */
    ghost predicate Settled(from: nat, udp: seq<byte>, tcp: seq<byte>)
      reads this, conns
    {
      from <= |conns|
      && forall i :: from <= i < |conns| ==>
           conns[i].closes == 1 && conns[i].writes == [if conns[i].proto == Udp then udp else tcp]
    }

    /** net.Dial(proto, addr): a fresh connection, or nil when the dial fails. */
    method Dial(proto: Proto, addr: Addr) returns (c: Conn?)
      requires Logged()
      modifies this`dials, this`conns
      ensures Logged() && Grown()
      ensures dials == old(dials) + [(proto, addr)]
      ensures c == null <==> peers(proto, addr).None?
      ensures c == null ==> conns == old(conns)
      ensures c != null ==>
        && fresh(c) && c.proto == proto && c.addr == addr && c.peer == peers(proto, addr).value
        && c.writes == [] && c.cursor == 0 && c.closes == 0 && c.Valid()
        && conns == old(conns) + [c]
    {
      ghost var before := dials;
      dials := dials + [(proto, addr)];
      assert dials[..|dials| - 1] == before;
      match peers(proto, addr)
      case None =>
        c := null;
      case Some(peer) =>
        c := new Conn(proto, addr, peer);
        conns := conns + [c];
    }
  }
}
