# kdcproxy in Dafny

A model of the request-forwarding pipeline of kdcproxy, an HTTP-tunnelled Kerberos KDC proxy.
A client POSTs a KDC-PROXY-MESSAGE (MS-KKDCP section 2.2.2): an ASN.1 envelope around a
Kerberos message that carries the 4-byte length prefix of section 7.2.2 of RFC 4120. The proxy
unwraps the envelope, finds the KDCs of the target realm, and sends them the message, over UDP
(section 7.2.1 of RFC 4120) or TCP. It returns the first KDC reply it obtains, wrapped in an
envelope again.

The repository holds three generations of this component. Each is modelled in its own module,
because they differ in observable ways:

- `PkgProxy` (pkg/proxy/proxy.go, the current one).
  - The length codec `UnmarshalKerbLength` / `MarshalKerbLength`.
  - `decode`, which classifies the inner message as AS-REQ, TGS-REQ or AP-REQ (first match) to find the realm.
  - `encode`.
  - `forward`, which runs over UDP then TCP with failover across KDCs.
  - `getresponse`, which checks UDP replies with `validReply` and frames them.
  - The HTTP `Handler`, whose gates are 405, 411, 413, 500, 429 (rate limit), 400, 400, 503 and 500.
- `Proxy` (proxy/proxy.go, the generation before).
  - `bytesToUint32` / `uint32ToBytes`.
  - The same decode and encode.
  - A `forward` that reads the reply inline and takes UDP replies unchecked.
  - A `Handler` with no rate limit. On an encode failure it writes the 500 and then carries on.
- `KdcProxy` (kdcproxy/proxy.go, the first generation).
  - A `decode` with no classification.
  - A TCP-only `forward` that falls back to the default realm. It sends each KDC the message wrapped in a new envelope and returns the raw bytes it reads back.
  - Its `Handler`, which reads the body into a buffer of the announced length.

Shared modules hold what the three have in common, or what they call:

- `Prelude`: bytes, `uint32`, `Option`, and Go's `(T, error)` as `Result`.
- `Wire`: big-endian `encoding/binary`.
- `Io`: `io.ReadAll` / `io.ReadFull` over a scripted stream.
- `Net`: a `Conn` class with a read cursor, a write log and a close count. A `Network` class whose `Dial` logs every attempt and records every connection it opens, keeping the connection log in step with the dial log (`Network.Logged`).
- `Http`: a `ResponseWriter` class with net/http's semantics (headers frozen when the status is written; `http.Error`), and a `Limiter` class whose `Allow` answers are scripted.
- `Envelope`: the KDC-PROXY-MESSAGE and the ASN.1 library as a pair of functions.
- `Kerberos`: gokrb5's parsers as functions, and the first-match classification.
- `Krb5`: the configuration and its KDC lookup.
- `Failover`: "first success among attempts in order".
- `Forwarding`: the forwarding loop of pkg/proxy and proxy as a specification, parameterised by whether UDP replies are checked.

Foreign code (the ASN.1 libraries, gokrb5's parsers, `GetKDCs`, what each KDC does when dialled) enters as parameters. Nothing is assumed about it, except where a lemma names the one property it needs. `Sound` is the DER property that an encoding reads back as the value encoded and leaves whatever follows.

Each imperative function of the source is a method proved against a specification function:

- `Forward` returns `ForwardResult` and makes exactly the dials `ForwardDials` lists.
- Every connection `Forward` opens gets exactly one write, the right payload for its protocol, and is closed exactly once (`Network.Settled`).
- Every method that dials only adds to the connection log, and only new connections (`Network.Grown`). `Forward` states that the connections added are exactly one per dial of `ForwardDials` that reached a KDC, in order (`Net.InStep`).
- `Handler` leaves the writer with exactly the response `Serve` describes.

The lemmas then state what the source promises about those functions: first success wins, UDP cut-over, framing, the status of every gate, and round trips.

## Model

| member | source | states |
|---|---|---|
| PkgProxy.UnmarshalKerbLength | pkg/proxy/proxy.go:369-376 | Errors (InvalidLength) exactly when given fewer than 4 bytes; otherwise the value is below 2^32 and is the big-endian reading of the first four bytes, whatever follows them |
| PkgProxy.MarshalKerbLength | pkg/proxy/proxy.go:379-384 | Fills a 4-byte buffer that UnmarshalKerbLength reads back as uint32(n), so as n itself for 0 <= n < 2^32 |
| PkgProxy.LengthCodecExamples | pkg/proxy/proxy_test.go:8-35 | The unmarshalling unit-test cases: nil and 1-3 bytes fail; {0,0,0,0}, {0,0,0,1}, {0,0,1,1} read as 0, 1, 257 |
| PkgProxy.MarshalExamples | pkg/proxy/proxy_test.go:37-56 | The marshalling unit-test cases, on MarshalKerbLength itself: 0, 1 and 257 become {0,0,0,0}, {0,0,0,1} and {0,0,1,1} |
| Kerberos.Classify | pkg/proxy/proxy.go:257-284 | No realm exactly when none of the AS-REQ, TGS-REQ and AP-REQ parsers accepts the message |
| Kerberos.FirstMatch | pkg/proxy/proxy.go:257-284 | A classified message gets the realm of some kind whose parser accepts it, and every kind tried before it rejected the message |
| Kerberos.EarlierKindWins | pkg/proxy/proxy.go:257-284 | When several parsers accept a message, the realm comes from the earliest in the order AS-REQ, TGS-REQ, AP-REQ |
| PkgProxy.Decode | pkg/proxy/proxy.go:243-285 | A decoded message always has at least the 4-byte prefix |
| PkgProxy.DecodeMeaning | pkg/proxy/proxy.go:243-285 | Unmarshal failure gives Asn1Error and leftover bytes give TrailingData; a message under 4 bytes is the slicing panic, in both directions; success exactly when the message classifies; success keeps the message and takes the realm from the classification, dropping the envelope's own target-domain and hint |
| PkgProxy.DecodeIgnoresEnvelopeRealm | pkg/proxy/proxy.go:257-284 | Two envelopes with the same kerb-message and the same leftover decode alike, whatever their target-domain or hint |
| PkgProxy.Encode | pkg/proxy/proxy.go:337-344 | Fails exactly when marshalling the message-only envelope fails; with a sound library the result reads back as that envelope with nothing left over |
| PkgProxy.DecodeEncoded | pkg/proxy/proxy.go:243-285 | With a sound library, an envelope around a classifiable message decodes to that message and its realm, and the same bytes plus anything appended give TrailingData |
| Forwarding.Payload | pkg/proxy/proxy.go:210-214 | The message is written verbatim over TCP; over UDP it is written without its 4-byte prefix |
| Forwarding.Response | pkg/proxy/proxy.go:287-334 | Every reply starts with a 4-byte prefix giving the length of the rest. Over UDP there is a reply exactly when the stream did not fail and the check accepts its bytes, and the reply is those bytes behind the prefix. Over TCP there is a reply exactly when the stream holds 4 bytes and then at least the length they announce, and the reply is exactly the prefix and that many bytes |
| Forwarding.AnswerIsHeard | pkg/proxy/proxy.go:203-236 | A KDC that takes the whole request and answers properly yields a reply: over TCP a prefix and the announced bytes, whatever follows; over UDP an accepted datagram, returned behind its length prefix |
| Forwarding.UdpReplyIsChecked | pkg/proxy/proxy.go:346-366 | validReply: with the check, a UDP datagram that arrived whole is taken exactly when the AS-REP, TGS-REP or AP-REP parser accepts it, and without the check it is always taken (the same condition is in `Forwarding.Response`'s UDP clause, and `Forwarding.CheckOnlyNarrows` shows the check never changes an accepted reply) |
| Forwarding.CheckOnlyNarrows | pkg/proxy/proxy.go:302-305 | Whenever the attempt with validReply succeeds, the attempt without it gives the same result |
| Forwarding.TurnOverIsFirstOk | pkg/proxy/proxy.go:198-237 | One protocol's loop over its KDCs returns the first success among the attempts, or "no kdcs found", and dials exactly the KDCs up to it |
| Forwarding.TurnByTurnIsFirstOk | pkg/proxy/proxy.go:190-240 | Turn by turn, the loop over protocols returns the first success of the whole protocol x KDC plan and dials the plan up to it |
| PkgProxy.UdpCutover | pkg/proxy/proxy.go:183-188 | UDP is still tried when the message without its prefix equals the UDP preference limit, and dropped at one byte more |
| PkgProxy.ForwardIsFirstOk | pkg/proxy/proxy.go:175-241 | forward returns the first success among every attempt of its plan (protocols in order, the KDCs each lookup offers in order) or "no kdcs found", and dials the plan up to and including that success |
| PkgProxy.ForwardRepliesAreFramed | pkg/proxy/proxy.go:229-236 | Every reply forward returns has a 4-byte prefix that UnmarshalKerbLength reads as the length of the rest |
| PkgProxy.NothingToTry | pkg/proxy/proxy.go:190-240 | When no lookup offers a KDC (error or count < 1), the plan is empty and forward fails with "no kdcs found" |
| PkgProxy.GetResponse | pkg/proxy/proxy.go:287-334 | Consumes the connection's stream into the reply Response describes, with validReply, and closes the connection exactly once on every path |
| PkgProxy.Try | pkg/proxy/proxy.go:203-236 | One KDC: the result is the attempt's specification; exactly that dial is logged; the connection log only grows, with new connections, in step with the dials; every connection is written once with its protocol's payload and closed once |
| PkgProxy.TryEach | pkg/proxy/proxy.go:198-237 | The inner loop returns TurnOver's result and logs exactly TurnOver's dials, keeping every connection settled |
| PkgProxy.TryProtocol | pkg/proxy/proxy.go:191-237 | One protocol: the lookup, a skip on error or count < 1, then the KDCs offered, as TurnResult describes |
| PkgProxy.TryProtocols | pkg/proxy/proxy.go:190-240 | The outer loop over a list of protocols returns TurnByTurn's result and logs exactly its dials |
| PkgProxy.Forward | pkg/proxy/proxy.go:175-241 | Returns ForwardResult, logs exactly ForwardDials, adds to the connection log exactly one new connection per dial that reached a KDC, and leaves each written once and closed once |
| PkgProxy.ServeSucceeds | pkg/proxy/proxy.go:88-173 | 200 exactly when every gate passes (POST, length known and <= 128 KiB, body read, limiter allows, decodes, realm non-empty, forward and encode succeed), with the encoded KDC reply as body; every other sent answer is plain text |
| PkgProxy.LengthLimit | pkg/proxy/proxy.go:115-119 | A body announced at 131073 bytes gets 413; one of 131072 never does |
| PkgProxy.DeniedWhateverTheBody | pkg/proxy/proxy.go:130-135 | The limiter is asked before decoding: a denied request gets 429 whatever its body |
| PkgProxy.SuccessIsFramedEnvelope | pkg/proxy/proxy.go:160-172 | With a sound library, a 200 body is a message-only envelope that reads back whole, around a reply whose prefix gives its length |
| PkgProxy.Relay | pkg/proxy/proxy.go:137-172 | From decode on, the writer ends with exactly the response Relayed describes; the dials made are exactly forward's when the body decodes to a message with a realm, and none otherwise; the connections added are one per dial that reached a KDC, each written once with the decoded message's payload and closed once; the connection log only grows, with new connections in step with the dials, and every connection added is closed |
| PkgProxy.Handler | pkg/proxy/proxy.go:88-173 | The writer ends with the response Serve gives for the limiter's next answer; the limiter is consulted exactly when the request gets that far; the dials made are exactly forward's when every gate up to forward passes, and none otherwise, so a refused request reaches no KDC; each connection added is written once with the request's payload and closed once; the connection log only grows, with new connections in step with the dials, and every connection added is closed |
| PkgProxy.RefusedBeforeForward | pkg/proxy/proxy.go:88-152 | A request answered 405, 411, 413, 429 or 400 makes no dial |
| Proxy.InitProxy | proxy/proxy.go:45-61 | A new proxy keeps the configuration and tries UDP then TCP |
| Proxy.BytesToUint32 | proxy/proxy.go:273-280 | Errors exactly on fewer than 4 bytes; otherwise the value whose big-endian bytes are the first four |
| Proxy.Uint32ToBytes | proxy/proxy.go:283-288 | Four bytes that bytesToUint32 reads back as n, for every uint32 n |
| Proxy.BytesRoundTrip | proxy/proxy.go:273-288 | Reading four bytes and writing the value gives the same four bytes |
| Proxy.InitProtocolsAsPkg | proxy/proxy.go:131-136 | With the transports initproxy sets, the protocol choice is pkg/proxy's: UDP then TCP, or TCP alone past the UDP limit |
| Proxy.ForwardIsFirstOk | proxy/proxy.go:131-216 | forward returns the first success of its plan, with UDP replies unchecked, or "no kdcs found", dialling the plan up to it |
| Proxy.AcceptsWhatPkgAccepts | proxy/proxy.go:174-185 | Against the same KDCs, this forward gets a reply whenever pkg/proxy's does: the reply check only removes successes |
| Proxy.Try | proxy/proxy.go:147-172 | One KDC: dial, write, close on a failed or short write; result and dial log as the attempt's specification says; the connection log only grows, with new connections, in step with the dials; every connection is written once and closed once |
| Proxy.ReadReply | proxy/proxy.go:174-211 | The inline reply read: UDP reply framed with uint32ToBytes, TCP prefix then exactly that many bytes; the connection closed once on each branch |
| Proxy.TryEach | proxy/proxy.go:146-212 | The inner loop returns TurnOver's result and logs exactly its dials |
| Proxy.TryProtocol | proxy/proxy.go:139-212 | One protocol's lookup and turn, as TurnResult describes |
| Proxy.TryProtocols | proxy/proxy.go:138-215 | The outer loop over a list of protocols returns TurnByTurn's result and logs exactly its dials |
| Proxy.Forward | proxy/proxy.go:131-216 | Returns ForwardResult, logs exactly ForwardDials, adds to the connection log exactly one new connection per dial that reached a KDC, and leaves each written once and closed once |
| Proxy.ServeSucceeds | proxy/proxy.go:64-129 | 200 exactly when every gate passes (there is no rate limit), with the encoded reply as body; every other sent answer is plain text |
| Proxy.Relay | proxy/proxy.go:93-126 | From decode on, the writer ends with the response Relayed describes; the dials made are exactly forward's when the body decodes to a message with a realm, and none otherwise; each connection added is written once with the decoded message's payload and closed once; the connection log only grows, with new connections in step with the dials, and every connection added is closed |
| Proxy.Reply | proxy/proxy.go:116-125 | After an encode failure the client sees the 500, whatever the later Content-Type and empty write do; after a successful encode it sees 200 with the Kerberos content type and the reply |
| Proxy.Handler | proxy/proxy.go:64-129 | The writer ends with exactly the response Serve describes; the dials made are exactly forward's when every gate up to forward passes, and none otherwise; each connection added is written once with the request's payload and closed once; the connection log only grows, with new connections in step with the dials, and every connection added is closed |
| Proxy.RefusedBeforeForward | proxy/proxy.go:64-108 | A request answered 405, 411, 413 or 400 makes no dial |
| KdcProxy.InitKdcProxy | kdcproxy/proxy.go:32-37 | The configuration's default realm is the realm given, and KDCs are looked up through the resolver given |
| KdcProxy.Decode | kdcproxy/proxy.go:143-155 | Success exactly when the envelope unmarshals with nothing left, and then the envelope itself, unclassified; leftover bytes give TrailingData |
| KdcProxy.Encode | kdcproxy/proxy.go:157-164 | Fails exactly when marshalling fails; with a sound library decode reads the result back as the message-only envelope |
| KdcProxy.DecodeEncoded | kdcproxy/proxy.go:143-155 | With a sound library, every envelope, realm and flags included, decodes to itself, and appended bytes give TrailingData |
| KdcProxy.Sent | kdcproxy/proxy.go:106-111 | The bytes sent to the KDCs are the marshalled envelope around the message |
| KdcProxy.SentIsEnvelope | kdcproxy/proxy.go:106-111 | With a sound library, what a KDC receives reads back as an envelope holding only the message, not the raw Kerberos message |
| KdcProxy.TurnOverIsFirstOk | kdcproxy/proxy.go:113-140 | The loop returns the first success among its TCP attempts, or "no kdcs found", and dials exactly the KDCs up to it |
| KdcProxy.ForwardIsFirstOk | kdcproxy/proxy.go:93-141 | A failed lookup or count < 1 gives CannotGetKdc, and a marshalling failure gives EncodingMessage, both before any dial; otherwise the first success among the looked-up KDCs in order |
| KdcProxy.EmptyRealmIsDefault | kdcproxy/proxy.go:95-103 | An empty realm is forwarded exactly as the realm given at init; a named realm's TCP KDCs are looked up |
| KdcProxy.ShortWriteGoesUnnoticed | kdcproxy/proxy.go:119-131 | The count `conn.Write` returns is never read: after any write without an error, whatever the KDC sends back is returned as the reply |
| KdcProxy.Try | kdcproxy/proxy.go:114-131 | One KDC: dial over TCP, write, read to EOF, close on each path; result and dial log as Attempt says; the connection log only grows, with new connections, in step with the dials; every connection gets the envelope once and is closed once |
| KdcProxy.TryEach | kdcproxy/proxy.go:113-140 | The loop over the KDCs returns TurnOver's result and logs exactly its dials, keeping every connection settled |
| KdcProxy.Forward | kdcproxy/proxy.go:93-141 | Returns Forwarded's result, logs exactly its dials, adds to the connection log exactly one new connection per dial that reached a KDC, and each gets the envelope once and is closed once |
| KdcProxy.ServeSucceeds | kdcproxy/proxy.go:39-91 | Every answer is sent; 200 exactly when every gate passes (POST, 0 <= length <= 128 KiB, body read, decodes, forward and encode succeed), with the encoded reply; all others are plain text |
| KdcProxy.SuccessCarriesKdcReply | kdcproxy/proxy.go:73-90 | With a sound library, a 200 body decodes to a message-only envelope holding, untouched, everything one of the looked-up KDCs sent back |
| KdcProxy.Relay | kdcproxy/proxy.go:65-90 | From decode on, the writer ends with the response Relayed describes, the 500 after an encode failure included; the dials made are exactly forward's when the body decodes, and none otherwise; each connection added gets the re-wrapped envelope once and is closed once; the connection log only grows, with new connections in step with the dials, and every connection added is closed |
| KdcProxy.Handler | kdcproxy/proxy.go:39-91 | The writer ends with exactly the response Serve describes; the dials made are exactly forward's when every gate up to forward passes, and none otherwise; each connection added gets the re-wrapped envelope once and is closed once; the connection log only grows, with new connections in step with the dials, and every connection added is closed |
| KdcProxy.RefusedBeforeForward | kdcproxy/proxy.go:39-73 | A request answered 405, 411, 413 or 400 makes no dial |

## Left out

- ASN.1 DER marshalling: gofork `asn1` in pkg/proxy and proxy, and the standard `encoding/asn1` in kdcproxy. It is a parameter (`Envelope.Codec`). The only property assumed, and only in the lemmas that name it, is `Sound`.
- The field tags differ between the generations (kdcproxy's Message/Realm/Flags; the GeneralString realm in pkg/proxy). They are the library's concern. All three use the same three-field value, with the library passed in.
- gokrb5's AS/TGS/AP request and reply parsers are parameters (`Kerberos.Parsers`).
- `GetKDCs` (DNS SRV or krb5.conf) is a parameter of the configuration. gokrb5 returns the KDCs in a Go map, so `range` visits them in an unspecified order. The model takes the order visited as a sequence.
- Configuration loading (krb5.conf, `InitKdcProxy` and its options in pkg/proxy, the file branch of `initproxy`) is left out. Each model starts from a loaded configuration.
- The rate limiter's token bucket is left out. It is time-based and shared between goroutines; only the answers of `Allow` are modelled.
- `net.Dial`, deadlines and timeouts, UDP datagram boundaries and real HTTP body streaming are left out. Each dial, write and read has a scripted outcome chosen by the KDC's `Peer`.
- Logging (zerolog) and the Prometheus metrics are left out, as are `main.go`, `cmd/kdcproxy/main.go` and `options.go`.
- The bodies of forward's inner loops (and the rest of each handler from the decode on) are separate methods: `Try`, `TryEach`, `TryProtocol`, `TryProtocols`, `ReadReply`, `Relay` and `Reply`. Each is still proved against the same specification.
- proxy/proxy.go's `decode` and `encode` are the same code as pkg/proxy's, so `Proxy` calls `PkgProxy.Decode` and `PkgProxy.Encode` rather than repeating them. Likewise the last lines of kdcproxy/proxy.go's handler (84-90) are those of proxy/proxy.go (116-125), so `KdcProxy.Relay` calls `Proxy.Reply`.
- The connection log `Network.conns` is ghost state. Its contracts say it only grows, by new connections in step with the dials, but a method could still replace a connection it leaked by another new one; the log shows what the model's code does, and nothing in it is read by that code.
- Go panics are not modelled as panics. A Kerberos message shorter than four bytes makes `decode` panic in pkg/proxy and proxy; net/http recovers and drops the connection. The model shows this as the response `Aborted`.
- KdcProxy.Handler: requires ContentLength >= -1. That is all net/http ever sets, and `make([]byte, length)` would panic below -1.
- A KDC's `Peer` may answer a write with `Takes(n)` for an `n` below the request's length and no error. Go's `net.Conn.Write` never does this: by the `io.Writer` contract it reports an error whenever it takes fewer bytes. So `Takes(n)` with `n` short is a case only the model has. The `ShortWrite` branches of pkg/proxy and proxy (the `n != len` checks) are reachable only through it, and `KdcProxy.ShortWriteGoesUnnoticed` shows only that kdcproxy never reads the count.
- Go's `int` is taken to be 64 bits, so the length read from a TCP prefix always fits.
