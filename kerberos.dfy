/**
 * gokrb5's Kerberos message parsers as the proxies use them: a request parser yields the realm
 * the proxy routes by, a reply parser only whether the bytes parse. The parsers are foreign code
 * and are parameters here.
 */
module Kerberos {
  import opened Prelude

  /** The request kinds the classifier tries. */
  datatype Kind = AsReq | TgsReq | ApReq

  /**
   * asReq and tgsReq give ReqBody.Realm of a successfully parsed AS-REQ / TGS-REQ, apReq gives
   * Ticket.Realm of an AP-REQ, and None when Unmarshal fails; asRep, tgsRep, apRep say whether
   * the reply parsers accept the bytes.
   */
  datatype Parsers = Parsers(
    asReq: seq<byte> -> Option<string>,
    tgsReq: seq<byte> -> Option<string>,
    apReq: seq<byte> -> Option<string>,
    asRep: seq<byte> -> bool,
    tgsRep: seq<byte> -> bool,
    apRep: seq<byte> -> bool)

  function Parse(p: Parsers, k: Kind, msg: seq<byte>): Option<string>
  {
    match k
    case AsReq => p.asReq(msg)
    case TgsReq => p.tgsReq(msg)
    case ApReq => p.apReq(msg)
  }

  /** The order the classifier tries the kinds in. */
  function Rank(k: Kind): nat
  {
    match k
    case AsReq => 0
    case TgsReq => 1
    case ApReq => 2
  }

  /**
   * The realm of the first kind, in the order AS-REQ, TGS-REQ, AP-REQ, whose parser accepts
   * `msg`; None when no parser accepts it.
   */
  function Classify(p: Parsers, msg: seq<byte>): (r: Option<string>)
    ensures r.None? <==> p.asReq(msg).None? && p.tgsReq(msg).None? && p.apReq(msg).None?
  {
    if p.asReq(msg).Some? then p.asReq(msg)
    else if p.tgsReq(msg).Some? then p.tgsReq(msg)
    else if p.apReq(msg).Some? then p.apReq(msg)
    else None
  }

  /**
   * A classified message has the realm one of the kinds' parsers gives, and every kind tried
   * before that one rejected the message.
   */
  lemma FirstMatch(p: Parsers, msg: seq<byte>)
    requires Classify(p, msg).Some?
    ensures exists k: Kind ::
      Classify(p, msg) == Parse(p, k, msg) && forall k': Kind :: Rank(k') < Rank(k) ==> Parse(p, k', msg).None?
  {
    if p.asReq(msg).Some? {
      assert Parse(p, AsReq, msg) == p.asReq(msg);
    } else if p.tgsReq(msg).Some? {
      assert Parse(p, TgsReq, msg) == p.tgsReq(msg) && Parse(p, AsReq, msg).None?;
    } else {
      assert Parse(p, ApReq, msg) == p.apReq(msg) && Parse(p, AsReq, msg).None? && Parse(p, TgsReq, msg).None?;
    }
  }

  /** The classification of a message that parses as more than one kind follows the fixed order. */
  lemma EarlierKindWins(p: Parsers, msg: seq<byte>, k: Kind)
    requires Parse(p, k, msg).Some?
    requires forall k': Kind :: Rank(k') < Rank(k) ==> Parse(p, k', msg).None?
    ensures Classify(p, msg) == Parse(p, k, msg)
  {
    match k
    case AsReq =>
    case TgsReq =>
      assert Rank(AsReq) < Rank(k);
    case ApReq =>
      assert Rank(AsReq) < Rank(k) && Rank(TgsReq) < Rank(k);
  }
}
