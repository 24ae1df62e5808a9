/** Values shared by the whole model: Go's byte and uint32, optional values and error results. */
module Prelude {

  /** A Go `byte`. */
  type byte = b: int | 0 <= b < 0x100

  /** A Go `uint32`. */
  type uint32 = n: int | 0 <= n < 0x1_0000_0000

  datatype Option<+T> = None | Some(value: T)

  /** The `error` values the three proxies produce or receive, one per distinct cause. */
  datatype Error =
    | InvalidLength     // "invalid length" from the 4-byte length codecs
    | Asn1Error         // the ASN.1 library refused to unmarshal or marshal
    | TrailingData      // "trailing data in request"
    | MessageNotValid   // "message was not valid": no request parser accepted the Kerberos bytes
    | ReplyNotValid     // "reply message was not valid": no reply parser accepted a UDP reply
    | SliceOutOfRange   // a run-time panic: KerbMessage[4:] on fewer than four bytes
    | DialError         // net.Dial failed
    | WriteError        // conn.Write returned an error
    | ShortWrite        // conn.Write took fewer bytes than the request holds
    | ReadError         // io.ReadAll / io.ReadFull returned an error
    | NoKdcsFound       // "no kdcs found for realm %s"
    | CannotGetKdc      // "cannot get kdc for realm %s due to %s"
    | EncodingMessage   // "error encoding message: %w"

  /** A Go `(T, error)` pair: exactly one of the two is meaningful. */
  datatype Result<+T> = Ok(value: T) | Err(error: Error)
}
