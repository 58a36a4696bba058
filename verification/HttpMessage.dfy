/** What request and response parsing share: header lists and the questions asked about them. */
module HttpMessage {
  import opened Ascii
  import opened Numerals
  import opened Options

  datatype Header = Header(name: string, value: string)

  /**
    The outcome of one `parse` call. `ParsingAborted` is not a value of the source's enum: it stands for a call
    that produces none, because `reserve` throws `std::length_error`, a version number overflows an int, or
    `headers.back()` is taken on an empty list.
   */
  datatype ParseResult = ParsingCompleted | ParsingIncompleted | ParsingError | ParsingAborted

  predicate IsContentLength(h: Header) {
    EqualIgnoreCase(h.name, "Content-Length")
  }

  predicate IsTransferEncoding(h: Header) {
    EqualIgnoreCase(h.name, "Transfer-Encoding")
  }

  predicate IsConnection(h: Header) {
    EqualIgnoreCase(h.name, "Connection")
  }

  predicate IsChunkedCoding(h: Header) {
    IsTransferEncoding(h) && EqualIgnoreCase(h.value, "chunked")
  }

  /** The value of the last Content-Length header, 0 if there is none. */
  function ContentLength(headers: seq<Header>): int {
    if headers == [] then 0
    else if IsContentLength(headers[|headers| - 1]) then Atoi(headers[|headers| - 1].value)
    else ContentLength(headers[..|headers| - 1])
  }

  /** Some Transfer-Encoding header has exactly the value "chunked", ignoring case. */
  predicate SaysChunked(headers: seq<Header>) {
    exists i :: 0 <= i < |headers| && IsChunkedCoding(headers[i])
  }

  /** Some Transfer-Encoding header may have had the value "chunked" when one of its lines ended. */
  predicate MayHaveSaidChunked(headers: seq<Header>) {
    exists i :: 0 <= i < |headers| && StartsChunked(headers[i])
  }

  /** "chunked", ignoring case, and what a continuation line can have added to it: its first byte is not a space. */
  predicate StartsChunked(h: Header) {
    && IsTransferEncoding(h) && |h.value| >= 7 && EqualIgnoreCase(h.value[..7], "chunked")
    && (|h.value| > 7 ==> h.value[7] != ' ')
  }

  function FirstConnection(headers: seq<Header>): Option<Header> {
    if headers == [] then None
    else if IsConnection(headers[0]) then Some(headers[0])
    else FirstConnection(headers[1..])
  }

  /** Whether the connection persists: the first Connection header decides, the version if there is none. */
  predicate KeepsAlive(versionMajor: nat, versionMinor: nat, headers: seq<Header>) {
    match FirstConnection(headers)
    case Some(h) => EqualIgnoreCase(h.value, "Keep-Alive")
    case None => versionMajor > 1 || (versionMajor == 1 && versionMinor == 1)
  }

  predicate HeaderOk(h: Header) {
    && h.name != ""
    && (forall i :: 0 <= i < |h.name| ==> IsToken(h.name[i]))
    && (forall i :: 0 <= i < |h.value| ==> !IsControl(h.value[i]))
  }

  predicate HeadersOk(headers: seq<Header>) {
    forall i :: 0 <= i < |headers| ==> HeaderOk(headers[i])
  }

  /** No Content-Length header holds a negative number (which `reserve` answers with an exception). */
  predicate LengthsOk(headers: seq<Header>) {
    forall i :: 0 <= i < |headers| && IsContentLength(headers[i]) ==> Atoi(headers[i].value) >= 0
  }

  /** The header lines as the serializers write them: one line for each header, no continuation lines. */
  function PrintHeaders(headers: seq<Header>): string {
    if headers == [] then ""
    else PrintHeaders(headers[..|headers| - 1]) + PrintHeader(headers[|headers| - 1])
  }

  function PrintHeader(h: Header): string {
    h.name + ": " + h.value + "\r\n"
  }
}
