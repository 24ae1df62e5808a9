/**
 * The KDC-PROXY-MESSAGE envelope of MS-KKDCP (section 2.2.2) and the ASN.1 library that
 * encodes it. The library is foreign code: it is a parameter here, a pair of functions,
 * and the one property the proofs rely on is stated as the predicate Sound.
 */
module Envelope {
  import opened Prelude

  /**
   * KDC-PROXY-MESSAGE: [0] kerb-message (the Kerberos message with its 4-byte length prefix),
   * [1] target-domain (optional), [2] dclocator-hint (optional). Go gives an absent optional
   * field its zero value: "" and 0.
   */
  datatype KdcProxyMsg = KdcProxyMsg(kerbMessage: seq<byte>, targetDomain: string, dcLocatorHint: int)

  /**
   * An ASN.1 library for values of type M: `unmarshal` is asn1.Unmarshal (the value read and the
   * bytes left after it), `marshal` is asn1.Marshal.
   */
  datatype Codec<!M> = Codec(unmarshal: seq<byte> -> Result<(M, seq<byte>)>, marshal: M -> Result<seq<byte>>)

  /**
   * What DER guarantees of a working library: an encoding reads back as the value encoded, and
   * reading stops exactly where the encoding ends, leaving whatever follows it.
   */
  ghost predicate Sound<M(!new)>(c: Codec<M>)
  {
    forall m: M, rest: seq<byte> | c.marshal(m).Ok? :: c.unmarshal(c.marshal(m).value + rest) == Ok((m, rest))
  }

  /** The envelope the encoders build around a reply: only the kerb-message field is set. */
  function Wrap(data: seq<byte>): (m: KdcProxyMsg)
    ensures m.kerbMessage == data && m.targetDomain == "" && m.dcLocatorHint == 0
  {
    KdcProxyMsg(data, "", 0)
  }

  /** Under Sound, what marshal produced unmarshals to the same value with nothing left over. */
  lemma ReadsBack<M(!new)>(c: Codec<M>, m: M)
    requires c.marshal(m).Ok?
    ensures Sound(c) ==> c.unmarshal(c.marshal(m).value) == Ok((m, []))
  {
    if Sound(c) {
      assert c.marshal(m).value + [] == c.marshal(m).value;
    }
  }

  /** Under Sound, bytes appended after an encoding are handed back as trailing data. */
  lemma LeavesTrailing<M(!new)>(c: Codec<M>, m: M, extra: seq<byte>)
    requires Sound(c) && c.marshal(m).Ok?
    ensures c.unmarshal(c.marshal(m).value + extra) == Ok((m, extra))
  {
  }
}
