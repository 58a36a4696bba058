/**
  The chunked coding (RFC 7230, section 4.1) as the parsers accept it: any alphanumeric text may stand for a size
  as long as `strtol` reads it so, extensions and trailers hold alphanumerics and spaces.
 */
module HttpChunks {
  import opened Ascii
  import opened Numerals

  datatype Extension =
    | NoExtension
    | Named(name: string)
    | Valued(name: string, value: string)

  datatype Chunk = Chunk(size: string, ext: Extension, data: string)

  datatype Trailer = Trailer(first: char, name: string, value: string)

  datatype ChunkedBody = ChunkedBody(chunks: seq<Chunk>, size: string, ext: Extension, trailers: seq<Trailer>)

  predicate AllAlnum(s: string) {
    forall i :: 0 <= i < |s| ==> IsAlnum(s[i])
  }

  predicate AllAlnumOrSpace(s: string) {
    forall i :: 0 <= i < |s| ==> IsAlnum(s[i]) || s[i] == ' '
  }

  predicate ExtensionOk(ext: Extension) {
    match ext
    case NoExtension => true
    case Named(name) => AllAlnumOrSpace(name)
    case Valued(name, value) => AllAlnumOrSpace(name) && AllAlnumOrSpace(value)
  }

  predicate SizeOk(size: string, n: nat) {
    AllAlnum(size) && Strtol(size, 16) == n
  }

  predicate ChunkOk(chunk: Chunk) {
    chunk.data != "" && SizeOk(chunk.size, |chunk.data|) && ExtensionOk(chunk.ext)
  }

  predicate TrailerOk(trailer: Trailer) {
    IsAlpha(trailer.first) && AllAlnum(trailer.name) && AllAlnumOrSpace(trailer.value)
  }

  predicate BodyOk(body: ChunkedBody) {
    && (forall i :: 0 <= i < |body.chunks| ==> ChunkOk(body.chunks[i]))
    && SizeOk(body.size, 0)
    && ExtensionOk(body.ext)
    && (forall i :: 0 <= i < |body.trailers| ==> TrailerOk(body.trailers[i]))
  }

  function PrintExtension(ext: Extension): string {
    match ext
    case NoExtension => ""
    case Named(name) => ";" + name
    case Valued(name, value) => ";" + name + "=" + value
  }

  function PrintSizeLine(size: string, ext: Extension): string {
    size + PrintExtension(ext) + "\r\n"
  }

  function PrintChunk(chunk: Chunk): string {
    PrintSizeLine(chunk.size, chunk.ext) + chunk.data + "\r\n"
  }

  function PrintTrailer(trailer: Trailer): string {
    [trailer.first] + trailer.name + ":" + trailer.value + "\r\n"
  }

  function PrintTrailers(trailers: seq<Trailer>): string {
    if trailers == [] then "\r\n" else PrintTrailer(trailers[0]) + PrintTrailers(trailers[1..])
  }

  function PrintChunked(body: ChunkedBody): string
    decreases |body.chunks|
  {
    if body.chunks == [] then PrintSizeLine(body.size, body.ext) + PrintTrailers(body.trailers)
    else PrintChunk(body.chunks[0]) + PrintChunked(body.(chunks := body.chunks[1..]))
  }

  /** The content a chunked body carries. */
  function Data(chunks: seq<Chunk>): string {
    if chunks == [] then "" else chunks[0].data + Data(chunks[1..])
  }

  /** The canonical chunked body of a content: one chunk and the zero chunk, nothing else. */
  function OneChunk(content: string): ChunkedBody {
    ChunkedBody(if content == "" then [] else [Chunk(Print(|content|, 16), NoExtension, content)],
                "0", NoExtension, [])
  }

  lemma OneChunkOk(content: string)
    requires |content| <= LONG_MAX
    ensures BodyOk(OneChunk(content)) && Data(OneChunk(content).chunks) == content
  {
    PrintIsDigits(|content|, 16);
    StrtolReadsPrint(|content|, 16);
    PrintIsDigits(0, 16);
    StrtolReadsPrint(0, 16);
    assert Print(0, 16) == "0";
    hide Strtol;
    if content != "" {
      var chunks := OneChunk(content).chunks;
      assert Data(chunks[1..]) == "";
    }
  }

  /** The canonical body: the content as it is, or as one chunk. */
  function PrintBody(chunked: bool, content: string): string {
    if chunked then PrintChunked(OneChunk(content)) else content
  }
}
