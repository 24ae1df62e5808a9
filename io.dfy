/** Byte streams as the Go io package reads them: scripted, so that every read outcome is an input. */
module Io {
  import opened Prelude

  /**
   * A reader that yields `data` and then ends: with io.EOF when `fails` is false,
   * with some other error when it is true.
   */
  datatype Stream = Stream(data: seq<byte>, fails: bool)

  /** io.ReadAll: everything up to EOF, or the error that ended the stream. */
  function ReadAll(s: Stream): (r: Result<seq<byte>>)
    ensures r.Ok? <==> !s.fails
    ensures r.Ok? ==> r.value == s.data
  {
    if s.fails then Err(ReadError) else Ok(s.data)
  }

  /** io.ReadFull into an n-byte buffer: exactly n bytes, or an error when the stream ends first. */
  function ReadFull(s: Stream, n: nat): (r: Result<seq<byte>>)
    ensures r.Ok? <==> n <= |s.data|
    ensures r.Ok? ==> |r.value| == n && s.data == r.value + s.data[n..]
  {
    if n <= |s.data| then Ok(s.data[..n]) else Err(ReadError)
  }

  /** The stream left after the first n bytes have been consumed. */
  function Skip(s: Stream, n: nat): (r: Stream)
    requires n <= |s.data|
    ensures s.data == s.data[..n] + r.data && r.fails == s.fails
  {
    Stream(s.data[n..], s.fails)
  }
}
