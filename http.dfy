/**
 * The parts of Go's net/http that the handlers use: the request facts they read, the
 * ResponseWriter they write to (headers are frozen by the first WriteHeader, as net/http does),
 * http.Error, and the rate limiter's Allow decision.
 */
module Http {
  import opened Prelude
  import Io

  const ContentType := "Content-Type"
  const ContentLength := "Content-Length"
  const NoSniff := "X-Content-Type-Options"
  const Kerberos := "application/kerberos"
  const PlainText := "text/plain; charset=utf-8"

  /** The largest request body the handlers accept, in bytes. */
  const MaxLength := 128 * 1024

  /** The header map a handler sends with a KDC reply: Content-Type application/kerberos and nothing else. */
  const KerberosHeader: map<string, string> := map[ContentType := Kerberos]

  /** An inbound request: its method (`verb`), its ContentLength (-1 when unknown) and its body. */
  datatype Request = Request(verb: string, contentLength: int, body: Io.Stream)

  /** What the client receives: a status line, the headers sent with it and the body; or nothing, when the handler panicked. */
  datatype HttpResponse = Sent(status: int, header: map<string, string>, body: seq<byte>) | Aborted

  /** The bytes http.Error writes for its message text; the messages here are ASCII. */
  function Text(s: string): (b: seq<byte>)
    ensures |b| == |s|
  {
    seq(|s|, i requires 0 <= i < |s| => (s[i] as int) % 0x100)
  }

  /** The headers http.Error leaves in place of `h`. */
  function ErrorHeader(h: map<string, string>): (r: map<string, string>)
    ensures ContentLength !in r
    ensures ContentType in r && r[ContentType] == PlainText
    ensures NoSniff in r && r[NoSniff] == "nosniff"
  {
    (h - {ContentLength})[ContentType := PlainText][NoSniff := "nosniff"]
  }

  /** What the client receives after http.Error(w, text, code) on a writer with headers `h` and nothing written yet. */
  function ErrorResponse(h: map<string, string>, code: int, text: string): (r: HttpResponse)
    ensures r.Sent? && r.status == code
    ensures ContentType in r.header && r.header[ContentType] == PlainText
  {
    Sent(code, ErrorHeader(h), Text(text + "\n"))
  }

  class ResponseWriter {
    /** w.Header(): the header map handlers may still change. */
    var header: map<string, string>
    /** The status sent, 0 until the header is written. */
    var status: int
    /** The header map as it was when the header was written. */
    var sentHeader: map<string, string>
    var body: seq<byte>
    /** Set when the handler panicked: net/http then drops the connection. */
    var aborted: bool

    predicate WroteHeader()
      reads this
    {
      status != 0
    }

    ghost predicate Unused()
      reads this
    {
      header == map[] && status == 0 && sentHeader == map[] && body == [] && !aborted
    }

    /** What the client ends up receiving from this writer. */
    function Outcome(): HttpResponse
      reads this
    {
      if aborted then Aborted
      else if status == 0 then Sent(200, header, body)
      else Sent(status, sentHeader, body)
    }

    constructor ()
      ensures Unused()
    {
      header, status, sentHeader, body, aborted := map[], 0, map[], [], false;
    }

    /** w.Header().Set(key, value). */
    method SetHeader(key: string, value: string)
      modifies this`header
      ensures header == old(header)[key := value]
    {
      header := header[key := value];
    }

    /** w.WriteHeader(code): only the first call has an effect. */
    method WriteHeader(code: int)
      requires code != 0
      modifies this`status, this`sentHeader
      ensures old(WroteHeader()) ==> status == old(status) && sentHeader == old(sentHeader)
      ensures !old(WroteHeader()) ==> status == code && sentHeader == header
    {
      if status == 0 {
        status, sentHeader := code, header;
      }
    }

    /** w.Write(data): writes the header with status 200 first if nothing was written yet. */
    method Write(data: seq<byte>)
      modifies this`status, this`sentHeader, this`body
      ensures old(WroteHeader()) ==> status == old(status) && sentHeader == old(sentHeader)
      ensures !old(WroteHeader()) ==> status == 200 && sentHeader == header
      ensures body == old(body) + data
    {
      WriteHeader(200);
      body := body + data;
    }

    /** http.Error(w, text, code). */
    method Error(text: string, code: int)
      requires code != 0
      modifies this
      ensures aborted == old(aborted)
      ensures header == ErrorHeader(old(header))
      ensures !old(WroteHeader()) ==> status == code && sentHeader == header
      ensures old(WroteHeader()) ==> status == old(status) && sentHeader == old(sentHeader)
      ensures body == old(body) + Text(text + "\n")
    {
      header := ErrorHeader(header);
      WriteHeader(code);
      Write(Text(text + "\n"));
    }

    /** A panic in the handler: net/http recovers it and closes the connection without a response. */
    method Abort()
      modifies this`aborted
      ensures aborted
    {
      aborted := true;
    }
  }

  /** The rate limiter, reduced to its answers: `decide(i)` is what the i-th call to Allow returns. */
  class Limiter {
    const decide: nat -> bool
    var calls: nat

    constructor (decide: nat -> bool)
      ensures this.decide == decide && calls == 0
    {
      this.decide, calls := decide, 0;
    }

    /** limiter.Allow(): consumes one decision. */
    method Allow() returns (ok: bool)
      modifies this`calls
      ensures ok == decide(old(calls)) && calls == old(calls) + 1
    {
      ok := decide(calls);
      calls := calls + 1;
    }
  }
}
