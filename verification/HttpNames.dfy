/**
  The names and values the parsers look for, spelled out: each byte the upper or the lower case letter. And the
  character classes as the standards list them.
 */
module HttpNames {
  import opened Ascii
  import opened HttpMessage
  import opened Options

  /** Byte by byte one of two spellings. */
  predicate Spells(text: string, upper: string, lower: string)
    requires |upper| == |lower|
  {
    |text| == |upper| && forall i :: 0 <= i < |text| ==> text[i] == upper[i] || text[i] == lower[i]
  }

  predicate SpellsContentLength(text: string) {
    Spells(text, "CONTENT-LENGTH", "content-length")
  }

  predicate SpellsTransferEncoding(text: string) {
    Spells(text, "TRANSFER-ENCODING", "transfer-encoding")
  }

  predicate SpellsConnection(text: string) {
    Spells(text, "CONNECTION", "connection")
  }

  predicate SpellsChunked(text: string) {
    Spells(text, "CHUNKED", "chunked")
  }

  predicate SpellsKeepAlive(text: string) {
    Spells(text, "KEEP-ALIVE", "keep-alive")
  }

  /** A letter in both cases, or a byte that has none; `word` is written in either. */
  predicate Cases(word: char, upper: char, lower: char) {
    && (word == upper || word == lower)
    && if 'A' <= upper <= 'Z' then lower as int == upper as int + 32
       else upper == lower && !('a' <= upper <= 'z')
  }

  lemma OneByteIgnoresCase(c: char, word: char, upper: char, lower: char)
    requires Cases(word, upper, lower)
    ensures ToLower(c) == ToLower(word) <==> c == upper || c == lower
  {
  }

  lemma SpellingIgnoresCase(text: string, word: string, upper: string, lower: string)
    requires |word| == |upper| == |lower| && forall i :: 0 <= i < |word| ==> Cases(word[i], upper[i], lower[i])
    ensures EqualIgnoreCase(text, word) <==> Spells(text, upper, lower)
  {
    if |text| == |word| {
      forall i | 0 <= i < |text|
        ensures ToLower(text[i]) == ToLower(word[i]) <==> text[i] == upper[i] || text[i] == lower[i]
      {
        OneByteIgnoresCase(text[i], word[i], upper[i], lower[i]);
      }
    }
  }

  lemma ContentLengthSpelling(h: Header)
    ensures IsContentLength(h) <==> SpellsContentLength(h.name)
  {
    hide ToLower;
    SpellingIgnoresCase(h.name, "Content-Length", "CONTENT-LENGTH", "content-length");
  }

  lemma TransferEncodingSpelling(h: Header)
    ensures IsTransferEncoding(h) <==> SpellsTransferEncoding(h.name)
  {
    hide ToLower;
    SpellingIgnoresCase(h.name, "Transfer-Encoding", "TRANSFER-ENCODING", "transfer-encoding");
  }

  lemma ConnectionSpelling(h: Header)
    ensures IsConnection(h) <==> SpellsConnection(h.name)
  {
    hide ToLower;
    SpellingIgnoresCase(h.name, "Connection", "CONNECTION", "connection");
  }

  lemma ChunkedSpelling(value: string)
    ensures EqualIgnoreCase(value, "chunked") <==> SpellsChunked(value)
  {
    hide ToLower;
    SpellingIgnoresCase(value, "chunked", "CHUNKED", "chunked");
  }

  lemma KeepAliveSpelling(value: string)
    ensures EqualIgnoreCase(value, "Keep-Alive") <==> SpellsKeepAlive(value)
  {
    hide ToLower;
    SpellingIgnoresCase(value, "Keep-Alive", "KEEP-ALIVE", "keep-alive");
  }

  /** The five questions the parsers ask of a header, in spelled out form. */
  lemma HeaderSpelling(h: Header)
    ensures IsContentLength(h) <==> SpellsContentLength(h.name)
    ensures IsTransferEncoding(h) <==> SpellsTransferEncoding(h.name)
    ensures IsConnection(h) <==> SpellsConnection(h.name)
    ensures IsChunkedCoding(h) <==> SpellsTransferEncoding(h.name) && SpellsChunked(h.value)
    ensures EqualIgnoreCase(h.value, "Keep-Alive") <==> SpellsKeepAlive(h.value)
  {
    hide IsContentLength, IsTransferEncoding, IsConnection, EqualIgnoreCase, SpellsContentLength,
         SpellsTransferEncoding, SpellsConnection, SpellsChunked, SpellsKeepAlive;
    ContentLengthSpelling(h);
    TransferEncodingSpelling(h);
    ConnectionSpelling(h);
    ChunkedSpelling(h.value);
    KeepAliveSpelling(h.value);
  }

  /** A token, from the characters that section 3.2.6 of RFC 7230 lists. */
  predicate TokenText(s: string) {
    s != "" && forall i :: 0 <= i < |s| ==> TokenChar(s[i])
  }

  predicate TokenChar(c: char) {
    || c == '!' || '#' <= c <= '\'' || c == '*' || c == '+' || c == '-' || c == '.'
    || '0' <= c <= '9' || 'A' <= c <= 'Z' || '^' <= c <= 'z' || c == '|' || c == '~'
  }

  /** Any bytes but the control characters; the high half of a byte counts as text. */
  predicate FieldText(s: string) {
    forall i :: 0 <= i < |s| ==> 32 <= s[i] as int && s[i] as int != 127
  }

  /** Spaces may only stand at the very front. */
  predicate UriText(s: string) {
    s != "" && FieldText(s) && forall i :: 1 <= i < |s| ==> s[i] != ' '
  }

  /** 7-bit characters, with a CR at most at the very front. */
  predicate ReasonText(s: string) {
    s != "" && (forall i :: 0 <= i < |s| ==> s[i] as int < 128) && forall i :: 1 <= i < |s| ==> s[i] != '\r'
  }

  lemma TokenCharacters(c: char)
    ensures IsToken(c) <==> TokenChar(c)
  {
  }

  lemma HeaderTexts(h: Header)
    ensures HeaderOk(h) <==> TokenText(h.name) && FieldText(h.value)
  {
    hide IsToken, TokenChar;
    forall c: char ensures IsToken(c) <==> TokenChar(c) {
      TokenCharacters(c);
    }
  }
}
