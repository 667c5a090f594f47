/** The Content-Length framing of python_mcp/servers/base_server.py, the
    header part of the Language Server Protocol's base protocol: a response
    goes out as `Content-Length: N\r\n\r\n` and N bytes of UTF-8 JSON
    (`_send_response`), and a request is read back by accumulating header
    bytes one at a time until a blank line, then reading the body
    (`_read_header_and_content`).

    The unbuffered standard input is a pipe. What the peer has written is a
    sequence of non-empty chunks, and one raw `read(n)` returns at most the
    rest of the chunk at the front: up to `n` bytes of it, never bytes of
    the next one. */
module McpFraming {
  import opened Prelude
  import opened Utf8

  // ---------------------------------------------------------------------
  // The pipe

  predicate Chunked(cs: seq<seq<byte>>)
  {
    forall i | 0 <= i < |cs| :: |cs[i]| > 0
  }

  /** All the bytes still to be read, in order. */
  function Flatten(cs: seq<seq<byte>>): seq<byte>
  {
    if cs == [] then [] else cs[0] + Flatten(cs[1..])
  }

  /** The pipe after the first `k` of its bytes have been read. */
  function Skip(cs: seq<seq<byte>>, k: nat): seq<seq<byte>>
    decreases |cs|
  {
    if k == 0 || cs == [] then cs
    else if k < |cs[0]| then [cs[0][k..]] + cs[1..]
    else Skip(cs[1..], k - |cs[0]|)
  }

  /** One raw `read(n)`: up to `n` bytes of the front chunk, and the pipe
      afterwards; nothing at the end of the input. */
  function ReadOnce(cs: seq<seq<byte>>, n: nat): (seq<byte>, seq<seq<byte>>)
  {
    if n == 0 || cs == [] then ([], cs)
    else if n < |cs[0]| then (cs[0][..n], [cs[0][n..]] + cs[1..])
    else (cs[0], cs[1..])
  }

  /** A read that goes on until it has `n` bytes or the input ends. */
  function ReadFully(cs: seq<seq<byte>>, n: nat): (seq<byte>, seq<seq<byte>>)
  {
    var m := if n <= |Flatten(cs)| then n else |Flatten(cs)|;
    (Flatten(cs)[..m], Skip(cs, m))
  }

  lemma {:induction false} SkipKeepsChunks(cs: seq<seq<byte>>, k: nat)
    requires Chunked(cs)
    ensures Chunked(Skip(cs, k))
    decreases |cs|
  {
    if k != 0 && cs != [] && k >= |cs[0]| {
      SkipKeepsChunks(cs[1..], k - |cs[0]|);
    }
  }

  /** Skipping bytes drops them from the front of the input. */
  lemma {:induction false} SkipFlatten(cs: seq<seq<byte>>, k: nat)
    requires Chunked(cs) && k <= |Flatten(cs)|
    ensures Flatten(Skip(cs, k)) == Flatten(cs)[k..]
    decreases |cs|
  {
    if k != 0 && cs != [] {
      if k < |cs[0]| {
        assert Flatten(cs) == cs[0] + Flatten(cs[1..]);
        assert Flatten([cs[0][k..]] + cs[1..]) == cs[0][k..] + Flatten(cs[1..]);
      } else {
        SkipFlatten(cs[1..], k - |cs[0]|);
      }
    }
  }

  /** A raw read whose start lies in the front chunk. */
  lemma ReadInFrontChunk(cs: seq<seq<byte>>, k: nat, m: nat)
    requires cs != [] && k < |cs[0]| && m >= 1
    ensures Flatten(cs) == cs[0] + Flatten(cs[1..])
    ensures var (bs, rest) := ReadOnce(Skip(cs, k), m);
      && 1 <= |bs| <= m && k + |bs| <= |cs[0]| && bs == cs[0][k..k + |bs|]
      && rest == Skip(cs, k + |bs|)
  {
    var c := cs[0];
    var h := c[k..];
    assert Skip(cs, k) == [h] + cs[1..];
    if m < |h| {
      assert Skip(cs, k + m) == [c[k + m..]] + cs[1..];
    } else {
      assert Skip(cs, k + |h|) == cs[1..];
    }
  }

  /** One raw read after the first `k` bytes: nothing exactly when the
      input is used up, otherwise between one and `m` of the next bytes. */
  lemma {:induction false} ReadAfterSkip(cs: seq<seq<byte>>, k: nat, m: nat)
    requires Chunked(cs) && m >= 1
    ensures var bs := ReadOnce(Skip(cs, k), m).0;
      && (k >= |Flatten(cs)| ==> bs == [] && ReadOnce(Skip(cs, k), m).1 == Skip(cs, k))
      && (k < |Flatten(cs)| ==>
            1 <= |bs| <= m && k + |bs| <= |Flatten(cs)| && bs == Flatten(cs)[k..k + |bs|]
            && ReadOnce(Skip(cs, k), m).1 == Skip(cs, k + |bs|))
    decreases |cs|
  {
    if cs != [] {
      assert Flatten(cs) == cs[0] + Flatten(cs[1..]);
      if k < |cs[0]| {
        ReadInFrontChunk(cs, k, m);
      } else {
        ReadAfterSkip(cs[1..], k - |cs[0]|, m);
        ReadPastFrontChunk(cs, k, m);
      }
    }
  }

  /** A raw read whose start lies past the front chunk is a read of the
      chunks after it. */
  lemma ReadPastFrontChunk(cs: seq<seq<byte>>, k: nat, m: nat)
    requires cs != [] && |cs[0]| > 0 && k >= |cs[0]|
    requires Flatten(cs) == cs[0] + Flatten(cs[1..])
    ensures var j := k - |cs[0]|;
      var bs := ReadOnce(Skip(cs, k), m).0;
      && Skip(cs, k) == Skip(cs[1..], j)
      && Skip(cs, k + |bs|) == Skip(cs[1..], j + |bs|)
      && (k < |Flatten(cs)| && j + |bs| <= |Flatten(cs[1..])| ==>
            Flatten(cs)[k..k + |bs|] == Flatten(cs[1..])[j..j + |bs|])
  {
  }

  /** The unbuffered standard input. */
  class RawStdin {
    var chunks: seq<seq<byte>>

    constructor(chunks: seq<seq<byte>>)
      requires Chunked(chunks)
      ensures this.chunks == chunks
    {
      this.chunks := chunks;
    }

    /** `raw_stdin.read(n)`. */
    method Read(n: nat) returns (bs: seq<byte>)
      modifies this
      ensures (bs, chunks) == ReadOnce(old(chunks), n)
    {
      if n == 0 || chunks == [] {
        bs := [];
      } else if n < |chunks[0]| {
        bs := chunks[0][..n];
        chunks := [chunks[0][n..]] + chunks[1..];
      } else {
        bs := chunks[0];
        chunks := chunks[1..];
      }
    }
  }

  // ---------------------------------------------------------------------
  // The header

  /** The three header terminators the reader accepts: CRLF CRLF, LF LF,
      and the eight characters `\r\n\r\n` written out with backslashes. */
  datatype Terminator = CrLf | Lf | EscapedCrLf

  const CrLfCrLf: seq<byte> := [13, 10, 13, 10]
  const LfLf: seq<byte> := [10, 10]
  const EscapedCrLfCrLf: seq<byte> := [92, 114, 92, 110, 92, 114, 92, 110]

  /** A header longer than this many bytes is given up on. */
  const MaxHeaderBytes: nat := 4096

  function TerminatorBytes(t: Terminator): seq<byte>
  {
    match t
    case CrLf => CrLfCrLf
    case Lf => LfLf
    case EscapedCrLf => EscapedCrLfCrLf
  }

  predicate AnyTerminator(h: seq<byte>)
  {
    Contains(h, CrLfCrLf) || Contains(h, LfLf) || Contains(h, EscapedCrLfCrLf)
  }

  datatype HeaderScan = Eof | TooLarge | Found(length: nat, terminator: Terminator)

  /** The header loop from the moment `n` bytes of `s` have been taken:
      the next byte is appended, the terminators are looked for in the
      order the source checks them, and then the size limit. */
  function ScanHeader(s: seq<byte>, n: nat): (r: HeaderScan)
    requires n <= |s|
    ensures r.Found? ==> n < r.length <= |s|
    decreases |s| - n
  {
    if n == |s| then Eof
    else
      var h := s[..n + 1];
      if Contains(h, CrLfCrLf) then Found(n + 1, CrLf)
      else if Contains(h, LfLf) then Found(n + 1, Lf)
      else if Contains(h, EscapedCrLfCrLf) then Found(n + 1, EscapedCrLf)
      else if n + 1 > MaxHeaderBytes then TooLarge
      else ScanHeader(s, n + 1)
  }

  lemma PrefixContains(s: seq<byte>, i: nat, j: nat, t: seq<byte>)
    requires i <= j <= |s| && Contains(s[..i], t)
    ensures Contains(s[..j], t)
  {
    var p :| 0 <= p <= i - |t| && OccursAt(s[..i], t, p);
    assert s[..j][p..p + |t|] == s[..i][p..p + |t|];
    assert OccursAt(s[..j], t, p);
  }

  /** A byte sequence that gains an occurrence by one appended byte has it
      at its end. */
  lemma NewOccurrenceAtEnd(h: seq<byte>, t: seq<byte>)
    requires |h| > 0 && Contains(h, t) && !Contains(h[..|h| - 1], t)
    ensures EndsWith(h, t)
  {
    var p :| 0 <= p <= |h| - |t| && OccursAt(h, t, p);
    if p + |t| < |h| {
      assert h[..|h| - 1][p..p + |t|] == h[p..p + |t|];
      assert OccursAt(h[..|h| - 1], t, p);
    }
  }

  /** What the header loop finds: the shortest prefix holding a
      terminator, which then ends with it, provided it is at most one byte
      over the limit (the limit is checked after the terminators); or the
      end of the input before any terminator; or more than 4096 bytes
      without one. */
  lemma {:induction false} ScanHeaderMeaning(s: seq<byte>, n: nat)
    requires n <= |s| && n <= MaxHeaderBytes && !AnyTerminator(s[..n])
    ensures match ScanHeader(s, n)
      case Found(k, t) =>
        n < k <= |s| && k <= MaxHeaderBytes + 1
        && EndsWith(s[..k], TerminatorBytes(t)) && !AnyTerminator(s[..k - 1])
      case Eof => |s| <= MaxHeaderBytes && !AnyTerminator(s)
      case TooLarge => |s| > MaxHeaderBytes && !AnyTerminator(s[..MaxHeaderBytes + 1])
    decreases |s| - n
  {
    if n == |s| {
      assert s[..n] == s;
    } else {
      var h := s[..n + 1];
      assert h[..n] == s[..n] && h[..|h| - 1] == s[..n];
      if Contains(h, CrLfCrLf) {
        assert ScanHeader(s, n) == Found(n + 1, CrLf);
        NewOccurrenceAtEnd(h, CrLfCrLf);
      } else if Contains(h, LfLf) {
        assert ScanHeader(s, n) == Found(n + 1, Lf);
        NewOccurrenceAtEnd(h, LfLf);
      } else if Contains(h, EscapedCrLfCrLf) {
        assert ScanHeader(s, n) == Found(n + 1, EscapedCrLf);
        NewOccurrenceAtEnd(h, EscapedCrLfCrLf);
      } else if n + 1 > MaxHeaderBytes {
        assert ScanHeader(s, n) == TooLarge;
      } else {
        assert ScanHeader(s, n) == ScanHeader(s, n + 1);
        ScanHeaderMeaning(s, n + 1);
      }
    }
  }

  /** The scan stops at the first prefix that ends with CRLF CRLF when no
      shorter one holds a terminator and it is within reach of the limit. */
  lemma {:induction false} ScanFindsCrLf(s: seq<byte>, n: nat, k: nat)
    requires n < k <= |s| && k <= MaxHeaderBytes + 1
    requires !AnyTerminator(s[..k - 1]) && Contains(s[..k], CrLfCrLf)
    ensures ScanHeader(s, n) == Found(k, CrLf)
    decreases k - n
  {
    if n + 1 < k {
      var h := s[..n + 1];
      if Contains(h, CrLfCrLf) { PrefixContains(s, n + 1, k - 1, CrLfCrLf); }
      if Contains(h, LfLf) { PrefixContains(s, n + 1, k - 1, LfLf); }
      if Contains(h, EscapedCrLfCrLf) { PrefixContains(s, n + 1, k - 1, EscapedCrLfCrLf); }
      ScanFindsCrLf(s, n + 1, k);
    }
  }

  // ---------------------------------------------------------------------
  // Content-Length

  /** The bytes of `Content-Length: `. */
  const ContentLengthTag: seq<byte> :=
    [67, 111, 110, 116] + [101, 110, 116, 45] + [76, 101, 110, 103] + [116, 104, 58, 32]

  predicate IsDigitByte(b: byte)
  {
    48 <= b <= 57
  }

  /** The longest run of ASCII digits starting at `j` (what `\d+` takes). */
  function DigitRun(h: seq<byte>, j: nat): (d: seq<byte>)
    requires j <= |h|
    ensures j + |d| <= |h| && d == h[j..j + |d|]
    ensures forall i | 0 <= i < |d| :: IsDigitByte(d[i])
    ensures j + |d| == |h| || !IsDigitByte(h[j + |d|])
    decreases |h| - j
  {
    if j < |h| && IsDigitByte(h[j]) then [h[j]] + DigitRun(h, j + 1) else []
  }

  /** `int()` of a run of ASCII digits. */
  function DigitsValue(d: seq<byte>): nat
    requires forall i | 0 <= i < |d| :: IsDigitByte(d[i])
  {
    if d == [] then 0 else DigitsValue(d[..|d| - 1]) * 10 + DigitOf(d[|d| - 1])
  }

  function DigitOf(b: byte): (v: nat)
    requires IsDigitByte(b)
    ensures v < 10
  {
    (b - 48) as nat
  }

  /** `re.search(rb'Content-Length: (\d+)', header_data)` from position
      `i`: the leftmost tag followed by at least one digit, and the value of
      all the digits that follow it. */
  function FindContentLength(h: seq<byte>, i: nat): Option<nat>
    decreases |h| - i
  {
    if i + |ContentLengthTag| + 1 > |h| then None
    else if h[i..i + |ContentLengthTag|] == ContentLengthTag && IsDigitByte(h[i + |ContentLengthTag|]) then
      Some(DigitsValue(DigitRun(h, i + |ContentLengthTag|)))
    else FindContentLength(h, i + 1)
  }

  function ContentLength(h: seq<byte>): Option<nat>
  {
    FindContentLength(h, 0)
  }

  /** A length the reader finds is announced by a `Content-Length: ` tag in
      the header. */
  lemma {:induction false} ContentLengthHasTag(h: seq<byte>, i: nat)
    requires FindContentLength(h, i).Some?
    ensures Contains(h, ContentLengthTag)
    decreases |h| - i
  {
    if h[i..i + |ContentLengthTag|] == ContentLengthTag {
      assert OccursAt(h, ContentLengthTag, i);
    } else {
      ContentLengthHasTag(h, i + 1);
    }
  }

  lemma {:induction false} DigitRunOf(p: seq<byte>, d: seq<byte>, r: seq<byte>)
    requires forall i | 0 <= i < |d| :: IsDigitByte(d[i])
    requires r == [] || !IsDigitByte(r[0])
    ensures DigitRun(p + d + r, |p|) == d
    decreases |d|
  {
    var h := p + d + r;
    if d == [] {
      assert |p| == |h| || h[|p|] == r[0];
    } else {
      assert h[|p|] == d[0];
      assert h == (p + [d[0]]) + d[1..] + r;
      DigitRunOf(p + [d[0]], d[1..], r);
    }
  }

  lemma {:induction false} DigitsValueOfDecimal(s: string)
    requires forall i | 0 <= i < |s| :: '0' <= s[i] <= '9'
    ensures IsAscii(s)
    ensures forall i | 0 <= i < |s| :: IsDigitByte(AsciiBytes(s)[i])
    ensures DigitsValue(AsciiBytes(s)) == DecimalValue(s)
  {
    if s != [] {
      var init := s[..|s| - 1];
      DigitsValueOfDecimal(init);
      assert AsciiBytes(s)[..|s| - 1] == AsciiBytes(init);
    }
  }

  // ---------------------------------------------------------------------
  // Writing and reading a message

  /** The header `_send_response` writes before a body of `n` bytes. */
  function HeaderText(n: nat): string
  {
    ContentLengthText + NatToDecimal(n) + BlankLineText
  }

  /** What `_send_response` writes for a JSON text: the header, then the
      UTF-8 body, whose byte length the header announces. */
  function Frame(body: string): seq<byte>
  {
    Encode(HeaderText(ByteLength(body))) + Encode(body)
  }

  // (written in pieces only to keep the proofs about them small)
  const ContentLengthText: string := "Cont" + "ent-" + "Leng" + "th: "
  const BlankLineText: string := "\r\n\r\n"

  lemma AsciiPiece(s: string, bs: seq<byte>)
    requires |s| == |bs| && forall i | 0 <= i < |s| :: s[i] as int == bs[i] as int && bs[i] < 0x80
    ensures IsAscii(s) && Encode(s) == bs
  {
    EncodeAscii(s);
  }

  lemma AsciiJoin(s: string, bs: seq<byte>, t: string, ts: seq<byte>)
    requires IsAscii(s) && Encode(s) == bs && IsAscii(t) && Encode(t) == ts
    ensures IsAscii(s + t) && Encode(s + t) == bs + ts
  {
    EncodeAppend(s, t);
    assert forall i | |s| <= i < |s + t| :: (s + t)[i] == t[i - |s|];
  }

  lemma TagIsAscii()
    ensures IsAscii(ContentLengthText) && Encode(ContentLengthText) == ContentLengthTag
  {
    var a, b, c, d := "Cont", "ent-", "Leng", "th: ";
    var x, y, z, w: seq<byte> := [67, 111, 110, 116], [101, 110, 116, 45], [76, 101, 110, 103], [116, 104, 58, 32];
    AsciiPiece(a, x);
    AsciiPiece(b, y);
    AsciiPiece(c, z);
    AsciiPiece(d, w);
    AsciiJoin(a, x, b, y);
    AsciiJoin(a + b, x + y, c, z);
    AsciiJoin(a + b + c, x + y + z, d, w);
    assert ContentLengthText == a + b + c + d;
    assert ContentLengthTag == x + y + z + w;
  }

  lemma BlankLineIsAscii()
    ensures IsAscii(BlankLineText) && Encode(BlankLineText) == CrLfCrLf
  {
    AsciiPiece(BlankLineText, CrLfCrLf);
  }

  /** The header's bytes: the tag, the digits and the blank line. */
  lemma HeaderLayout(n: nat)
    ensures IsAscii(NatToDecimal(n))
    ensures Encode(HeaderText(n)) == ContentLengthTag + AsciiBytes(NatToDecimal(n)) + CrLfCrLf
  {
    var d := NatToDecimal(n);
    DigitsValueOfDecimal(d);
    assert HeaderText(n) == ContentLengthText + d + BlankLineText;
    EncodeAppend(ContentLengthText + d, BlankLineText);
    EncodeAppend(ContentLengthText, d);
    TagIsAscii();
    EncodeAscii(d);
    BlankLineIsAscii();
  }

  /** What one attempt to read a message leaves: the header and body texts
      or a failure, and the rest of the input. */
  datatype Received = Received(message: Option<(string, string)>, rest: seq<seq<byte>>)

  /** The end of the reader once the body bytes are in: after CRLF CRLF or
      LF LF the body must have exactly the announced length (after the
      backslashed terminator it is not checked), and both parts must be
      valid UTF-8. */
  function Complete(header: seq<byte>, t: Terminator, n: nat, content: seq<byte>): (r: Option<(string, string)>)
  {
    if t != EscapedCrLf && |content| != n then None
    else match (Decode(header), Decode(content))
      case (Some(h), Some(c)) => Some((h, c))
      case _ => None
  }

  /** `_read_header_and_content` with its single raw read of the body. */
  function ReadMessageAsWritten(cs: seq<seq<byte>>): Received
  {
    var s := Flatten(cs);
    match ScanHeader(s, 0)
    case Eof => Received(None, [])
    case TooLarge => Received(None, Skip(cs, MaxHeaderBytes + 1))
    case Found(k, t) =>
      match ContentLength(s[..k])
      case None => Received(None, Skip(cs, k))
      case Some(n) =>
        var (content, rest) := ReadOnce(Skip(cs, k), n);
        Received(Complete(s[..k], t, n, content), rest)
  }

  /** The reader with the body read until it is complete or the input
      ends. */
  function ReadMessage(cs: seq<seq<byte>>): Received
  {
    var s := Flatten(cs);
    match ScanHeader(s, 0)
    case Eof => Received(None, [])
    case TooLarge => Received(None, Skip(cs, MaxHeaderBytes + 1))
    case Found(k, t) =>
      match ContentLength(s[..k])
      case None => Received(None, Skip(cs, k))
      case Some(n) =>
        var (content, rest) := ReadFully(Skip(cs, k), n);
        Received(Complete(s[..k], t, n, content), rest)
  }

  /** A message is only ever read after a header that announces a length. */
  lemma ReadMessageFindsHeader(cs: seq<seq<byte>>)
    requires ReadMessage(cs).message.Some?
    ensures ScanHeader(Flatten(cs), 0).Found?
    ensures ContentLength(Flatten(cs)[..ScanHeader(Flatten(cs), 0).length]).Some?
  {
  }

  /** What a successful read means, for the header of `k` bytes it found
      announcing `n`: the header holds at most 4097 bytes, ends with a
      terminator, has none earlier and holds the tag; header and body are
      the decoded message; the body has exactly `n` bytes unless the
      backslashed terminator was used. */
  lemma {:induction false} ReadMessageMeaning(cs: seq<seq<byte>>, k: nat, t: Terminator, n: nat)
    requires ReadMessage(cs).message.Some?
    requires ScanHeader(Flatten(cs), 0) == Found(k, t) && ContentLength(Flatten(cs)[..k]) == Some(n)
    ensures k <= MaxHeaderBytes + 1
    ensures EndsWith(Flatten(cs)[..k], TerminatorBytes(t)) && !AnyTerminator(Flatten(cs)[..k - 1])
    ensures Contains(Flatten(cs)[..k], ContentLengthTag)
    ensures Decode(Flatten(cs)[..k]) == Some(ReadMessage(cs).message.value.0)
    ensures Decode(ReadFully(Skip(cs, k), n).0) == Some(ReadMessage(cs).message.value.1)
    ensures t != EscapedCrLf ==> |ReadFully(Skip(cs, k), n).0| == n
  {
    HeaderFound(Flatten(cs), k, t);
    ContentLengthHasTag(Flatten(cs)[..k], 0);
    ReaderAfterHeader(cs, k, t, n);
  }

  /** The header the scan finds: at most 4097 bytes, ending with its
      terminator and with none earlier. */
  lemma {:induction false} HeaderFound(s: seq<byte>, k: nat, t: Terminator)
    requires ScanHeader(s, 0) == Found(k, t)
    ensures k <= MaxHeaderBytes + 1 && k <= |s|
    ensures EndsWith(s[..k], TerminatorBytes(t)) && !AnyTerminator(s[..k - 1])
  {
    assert s[..0] == [];
    ScanHeaderMeaning(s, 0);
    var r := ScanHeader(s, 0);
    assert r.Found? && r.length == k && r.terminator == t;
  }

  /** No terminator can be completed before the header's last byte: the
      tag and the digits hold no line feed and no backslash. */
  lemma NoTerminatorBeforeBlankLine(p: seq<byte>)
    requires forall i | 0 <= i < |p| :: p[i] != 10 && p[i] != 92
    ensures !AnyTerminator(p + [13, 10, 13])
  {
    var x := p + [13, 10, 13];
    assert forall i | 0 <= i < |x| :: x[i] == 10 ==> i == |p| + 1;
    forall i | 0 <= i <= |x| - 4
      ensures !OccursAt(x, CrLfCrLf, i)
    {
      assert x[i + 1] != 10 && x[i..i + 4][1] == x[i + 1];
    }
    forall i | 0 <= i <= |x| - 2
      ensures !OccursAt(x, LfLf, i)
    {
      assert x[i] != 10 || x[i + 1] != 10;
      assert x[i..i + 2][0] == x[i] && x[i..i + 2][1] == x[i + 1];
    }
    forall i | 0 <= i <= |x| - 8
      ensures !OccursAt(x, EscapedCrLfCrLf, i)
    {
      assert x[i] != 92 && x[i..i + 8][0] == x[i];
    }
  }

  /** The header loop stops right after a blank line that follows bytes
      with no line feed and no backslash. */
  lemma ScanFindsBlankLine(p: seq<byte>, rest: seq<byte>)
    requires forall i | 0 <= i < |p| :: p[i] != 10 && p[i] != 92
    requires |p| + 4 <= MaxHeaderBytes + 1
    ensures ScanHeader(p + CrLfCrLf + rest, 0) == Found(|p| + 4, CrLf)
  {
    var s := p + CrLfCrLf + rest;
    NoTerminatorBeforeBlankLine(p);
    assert s[..|p| + 3] == p + [13, 10, 13];
    assert s[..|p| + 4][|p|..|p| + 4] == CrLfCrLf;
    assert OccursAt(s[..|p| + 4], CrLfCrLf, |p|);
    ScanFindsCrLf(s, 0, |p| + 4);
  }

  /** A tag followed by digits and then a non-digit announces the digits'
      value. */
  lemma TagAnnounces(digits: seq<byte>, rest: seq<byte>)
    requires |digits| > 0 && forall i | 0 <= i < |digits| :: IsDigitByte(digits[i])
    requires rest == [] || !IsDigitByte(rest[0])
    ensures ContentLength(ContentLengthTag + digits + rest) == Some(DigitsValue(digits))
  {
    var h := ContentLengthTag + digits + rest;
    assert h[..|ContentLengthTag|] == ContentLengthTag;
    assert h[|ContentLengthTag|] == digits[0];
    DigitRunOf(ContentLengthTag, digits, rest);
  }

  /** The header `_send_response` writes ends the reader's header loop
      exactly at its blank line, whatever follows it, provided it fits the
      reader's limit. */
  lemma HeaderEndsScan(n: nat, rest: seq<byte>)
    requires |NatToDecimal(n)| <= MaxHeaderBytes + 1 - 20
    ensures ScanHeader(Encode(HeaderText(n)) + rest, 0) == Found(|Encode(HeaderText(n))|, CrLf)
  {
    var d := NatToDecimal(n);
    var digits := AsciiBytes(d);
    var p := ContentLengthTag + digits;
    HeaderLayout(n);
    forall i | 0 <= i < |p|
      ensures p[i] != 10 && p[i] != 92
    {
      if i >= |ContentLengthTag| {
        assert p[i] == digits[i - |ContentLengthTag|];
      }
    }
    assert Encode(HeaderText(n)) + rest == p + CrLfCrLf + rest;
    ScanFindsBlankLine(p, rest);
  }

  /** The header `_send_response` writes announces the length it was
      written for. */
  lemma HeaderAnnouncesLength(n: nat)
    ensures ContentLength(Encode(HeaderText(n))) == Some(n)
  {
    var d := NatToDecimal(n);
    HeaderLayout(n);
    DigitsValueOfDecimal(d);
    TagAnnounces(AsciiBytes(d), CrLfCrLf);
    DecimalRoundTrip(n);
  }

  /** The reader once a header of `k` bytes announcing `n` has been
      found. */
  lemma ReaderAfterHeader(cs: seq<seq<byte>>, k: nat, t: Terminator, n: nat)
    requires ScanHeader(Flatten(cs), 0) == Found(k, t)
    requires ContentLength(Flatten(cs)[..k]) == Some(n)
    ensures var (content, rest) := ReadFully(Skip(cs, k), n);
      ReadMessage(cs) == Received(Complete(Flatten(cs)[..k], t, n, content), rest)
  {
  }

  /** The as-written reader once a header of `k` bytes announcing `n` has
      been found: it differs only in how the body is read. */
  lemma ReaderAsWrittenAfterHeader(cs: seq<seq<byte>>, k: nat, t: Terminator, n: nat)
    requires ScanHeader(Flatten(cs), 0) == Found(k, t)
    requires ContentLength(Flatten(cs)[..k]) == Some(n)
    ensures var (content, rest) := ReadOnce(Skip(cs, k), n);
      ReadMessageAsWritten(cs) == Received(Complete(Flatten(cs)[..k], t, n, content), rest)
  {
  }

  /** Whatever way the pipe splits a written frame, the reader gets back the
      header and the body, and the input continues right after the frame. */
  lemma {:induction false} FrameRoundTrip(body: string, cs: seq<seq<byte>>, more: seq<byte>)
    requires Chunked(cs) && Flatten(cs) == Frame(body) + more
    requires |NatToDecimal(ByteLength(body))| <= MaxHeaderBytes + 1 - 20
    ensures ReadMessage(cs).message == Some((HeaderText(ByteLength(body)), body))
    ensures Flatten(ReadMessage(cs).rest) == more
  {
    var n := ByteLength(body);
    var header := Encode(HeaderText(n));
    var b := Encode(body);
    var s := Flatten(cs);
    assert s == header + (b + more);
    HeaderEndsScan(n, b + more);
    HeaderAnnouncesLength(n);
    var k := |header|;
    assert s[..k] == header;
    ReaderAfterHeader(cs, k, CrLf, n);
    SkipKeepsChunks(cs, k);
    SkipFlatten(cs, k);
    var after := Skip(cs, k);
    assert Flatten(after) == b + more;
    assert Flatten(after)[..n] == b;
    SkipFlatten(after, n);
    assert Flatten(after)[n..] == more;
    DecodeEncode(HeaderText(n));
    DecodeEncode(body);
  }

  /** A written frame as the pipe may deliver it: the header and the first
      body byte in one chunk, the rest of the body in the next. */
  function SplitFrame(body: string): (cs: seq<seq<byte>>)
    requires ByteLength(body) >= 2
    ensures Chunked(cs) && Flatten(cs) == Frame(body)
  {
    var header := Encode(HeaderText(ByteLength(body)));
    var b := Encode(body);
    FlattenPair(header + b[..1], b[1..]);
    [header + b[..1], b[1..]]
  }

  /** The single raw read of the body loses a frame whose body arrives in
      two pieces: the read returns the one byte that came with the header,
      the length check fails and the message is dropped; reading until
      complete gets it. */
  lemma SplitBodyDroppedAsWritten(body: string)
    requires ByteLength(body) >= 2
    requires |NatToDecimal(ByteLength(body))| <= MaxHeaderBytes + 1 - 20
    ensures ReadMessageAsWritten(SplitFrame(body)).message.None?
    ensures ReadMessage(SplitFrame(body)).message == Some((HeaderText(ByteLength(body)), body))
  {
    var n := ByteLength(body);
    var header := Encode(HeaderText(n));
    var b := Encode(body);
    var k := |header|;
    var cs := SplitFrame(body);
    assert cs == [header + b[..1], b[1..]];
    assert ReadMessage(cs).message == Some((HeaderText(n), body)) by {
      assert Flatten(cs) == Frame(body) + [];
      FrameRoundTrip(body, cs, []);
    }
    assert ScanHeader(Flatten(cs), 0) == Found(k, CrLf) && ContentLength(Flatten(cs)[..k]) == Some(n) by {
      HeaderEndsScan(n, b);
      HeaderAnnouncesLength(n);
      assert Flatten(cs)[..k] == header;
    }
    OneByteRead(header + b[..1], b[1..], k, n);
    ShortReadDropsAsWritten(cs, k, CrLf, n);
  }

  /** With the single raw read, a body read that comes up short loses the
      message. */
  lemma ShortReadDropsAsWritten(cs: seq<seq<byte>>, k: nat, t: Terminator, n: nat)
    requires ScanHeader(Flatten(cs), 0) == Found(k, t) && t != EscapedCrLf
    requires ContentLength(Flatten(cs)[..k]) == Some(n)
    requires |ReadOnce(Skip(cs, k), n).0| != n
    ensures ReadMessageAsWritten(cs).message.None?
  {
    ReaderAsWrittenAfterHeader(cs, k, t, n);
  }

  /** A raw read right after the header, when only one byte of the body
      shares the header's chunk, returns that byte alone. */
  lemma OneByteRead(x: seq<byte>, y: seq<byte>, k: nat, n: nat)
    requires |x| == k + 1 && n >= 2
    ensures |ReadOnce(Skip([x, y], k), n).0| == 1
  {
    if k > 0 {
      assert Skip([x, y], k) == [x[k..]] + [y];
    }
  }

  lemma FlattenPair(x: seq<byte>, y: seq<byte>)
    ensures Flatten([x, y]) == x + y
  {
    assert [x, y][1..] == [y];
    assert [y][1..] == [];
    assert Flatten([y]) == y;
  }

  /** Skipping bytes shortens the input by that many, or empties it. */
  lemma {:induction false} SkipLength(cs: seq<seq<byte>>, k: nat)
    ensures |Flatten(Skip(cs, k))| == if k <= |Flatten(cs)| then |Flatten(cs)| - k else 0
    decreases |cs|
  {
    if k != 0 && cs != [] {
      assert Flatten(cs) == cs[0] + Flatten(cs[1..]);
      if k < |cs[0]| {
        assert Flatten([cs[0][k..]] + cs[1..]) == cs[0][k..] + Flatten(cs[1..]);
      } else {
        SkipLength(cs[1..], k - |cs[0]|);
      }
    } else if k != 0 {
      assert Skip(cs, k) == [];
    }
  }

  /** Every read leaves a well-formed input no longer than before, and a
      read that yields a message consumes at least its header. */
  lemma ReadMessageConsumes(cs: seq<seq<byte>>)
    requires Chunked(cs)
    ensures Chunked(ReadMessage(cs).rest)
    ensures |Flatten(ReadMessage(cs).rest)| <= |Flatten(cs)|
    ensures ReadMessage(cs).message.Some? ==> |Flatten(ReadMessage(cs).rest)| < |Flatten(cs)|
  {
    var s := Flatten(cs);
    match ScanHeader(s, 0)
    case Eof =>
    case TooLarge =>
      SkipKeepsChunks(cs, MaxHeaderBytes + 1);
      SkipLength(cs, MaxHeaderBytes + 1);
    case Found(k, t) =>
      SkipKeepsChunks(cs, k);
      SkipLength(cs, k);
      match ContentLength(s[..k])
      case None =>
      case Some(n) =>
        var after := Skip(cs, k);
        var m := if n <= |Flatten(after)| then n else |Flatten(after)|;
        SkipKeepsChunks(after, m);
        SkipLength(after, m);
        ReaderAfterHeader(cs, k, t, n);
  }

  /** A raw read keeps the input well-formed and takes exactly the bytes
      it returns off the front. */
  lemma ReadOnceShortens(cs: seq<seq<byte>>, n: nat)
    requires Chunked(cs)
    ensures Chunked(ReadOnce(cs, n).1)
    ensures ReadOnce(cs, n).0 + Flatten(ReadOnce(cs, n).1) == Flatten(cs)
  {
    if n == 0 || cs == [] {
      assert ReadOnce(cs, n) == ([], cs);
    } else {
      var c, tail := cs[0], cs[1..];
      assert Chunked(tail) by {
        forall i | 0 <= i < |tail| ensures |tail[i]| > 0 {
          assert tail[i] == cs[i + 1];
        }
      }
      assert Flatten(cs) == c + Flatten(tail);
      if n < |c| {
        var rest := [c[n..]] + tail;
        assert ReadOnce(cs, n) == (c[..n], rest);
        assert rest[1..] == tail;
        assert Flatten(rest) == c[n..] + Flatten(tail);
        assert c[..n] + c[n..] == c;
        assert Chunked(rest) by {
          forall i | 0 <= i < |rest| ensures |rest[i]| > 0 {
            if i > 0 {
              assert rest[i] == tail[i - 1];
            }
          }
        }
      } else {
        assert ReadOnce(cs, n) == (c, tail);
      }
    }
  }

  /** The as-written reader, too, leaves a well-formed input that is no
      longer, and strictly shorter when it yields a message. */
  lemma ReadMessageAsWrittenConsumes(cs: seq<seq<byte>>)
    requires Chunked(cs)
    ensures Chunked(ReadMessageAsWritten(cs).rest)
    ensures |Flatten(ReadMessageAsWritten(cs).rest)| <= |Flatten(cs)|
    ensures ReadMessageAsWritten(cs).message.Some? ==> |Flatten(ReadMessageAsWritten(cs).rest)| < |Flatten(cs)|
  {
    var s := Flatten(cs);
    match ScanHeader(s, 0)
    case Eof =>
    case TooLarge =>
      SkipKeepsChunks(cs, MaxHeaderBytes + 1);
      SkipLength(cs, MaxHeaderBytes + 1);
    case Found(k, t) =>
      SkipKeepsChunks(cs, k);
      SkipLength(cs, k);
      match ContentLength(s[..k])
      case None =>
      case Some(n) =>
        ReadOnceShortens(Skip(cs, k), n);
        ReaderAsWrittenAfterHeader(cs, k, t, n);
  }

  /** A frame that arrives in a chunk of its own is read whole by the single
      raw read, and the input goes on with the chunks after it. */
  lemma {:induction false} WholeFrameReadAsWritten(body: string, tail: seq<seq<byte>>)
    requires Chunked(tail)
    requires |NatToDecimal(ByteLength(body))| <= MaxHeaderBytes + 1 - 20
    ensures Chunked([Frame(body)] + tail)
    ensures ReadMessageAsWritten([Frame(body)] + tail) == Received(Some((HeaderText(ByteLength(body)), body)), tail)
  {
    var n := ByteLength(body);
    var header := Encode(HeaderText(n));
    var cs := [Frame(body)] + tail;
    FrameChunkHeader(body, tail);
    FrameChunkBody(body, tail);
    ReaderAsWrittenAfterHeader(cs, |header|, CrLf, n);
    assert Flatten(cs)[..|header|] == header;
    DecodeEncode(HeaderText(n));
    DecodeEncode(body);
  }

  /** The header scan on a frame in a chunk of its own. */
  lemma {:induction false} FrameChunkHeader(body: string, tail: seq<seq<byte>>)
    requires Chunked(tail)
    requires |NatToDecimal(ByteLength(body))| <= MaxHeaderBytes + 1 - 20
    ensures var header := Encode(HeaderText(ByteLength(body)));
      && Chunked([Frame(body)] + tail)
      && Flatten([Frame(body)] + tail) == header + (Encode(body) + Flatten(tail))
      && ScanHeader(Flatten([Frame(body)] + tail), 0) == Found(|header|, CrLf)
      && ContentLength(Flatten([Frame(body)] + tail)[..|header|]) == Some(ByteLength(body))
  {
    var n := ByteLength(body);
    var header := Encode(HeaderText(n));
    var b := Encode(body);
    var cs := [Frame(body)] + tail;
    HeaderEndsScan(n, b + Flatten(tail));
    HeaderAnnouncesLength(n);
    assert cs[1..] == tail;
    assert Flatten(cs) == Frame(body) + Flatten(tail);
    assert Flatten(cs) == header + (b + Flatten(tail));
    assert Flatten(cs)[..|header|] == header;
  }

  /** After the header of a frame in a chunk of its own, one raw read of the
      announced length returns the whole body. */
  lemma {:induction false} FrameChunkBody(body: string, tail: seq<seq<byte>>)
    requires |NatToDecimal(ByteLength(body))| <= MaxHeaderBytes + 1 - 20
    ensures var k := |Encode(HeaderText(ByteLength(body)))|;
      ReadOnce(Skip([Frame(body)] + tail, k), ByteLength(body)) == (Encode(body), tail)
  {
    var n := ByteLength(body);
    var header := Encode(HeaderText(n));
    var b := Encode(body);
    var cs := [Frame(body)] + tail;
    var k := |header|;
    assert cs[0] == header + b && cs[1..] == tail;
    if n == 0 {
      assert b == [] && k == |cs[0]|;
      assert Skip(cs, k) == Skip(tail, 0) == tail;
    } else {
      assert k < |cs[0]| && cs[0][k..] == b;
      assert Skip(cs, k) == [b] + tail;
      assert ([b] + tail)[0] == b && ([b] + tail)[1..] == tail;
    }
  }

  // ---------------------------------------------------------------------
  // The reader, step by step

  lemma EmptyChunks(cs: seq<seq<byte>>)
    requires Chunked(cs)
    ensures Flatten(cs) == [] <==> cs == []
  {
    if cs != [] {
      assert |Flatten(cs)| >= |cs[0]| > 0;
    }
  }

  /** The header loop of `_read_header_and_content`: bytes are taken one
      raw read at a time until a terminator turns up, the input ends or the
      header grows past the limit. */
  method ReadHeader(stdin: RawStdin) returns (header: seq<byte>, terminator: Option<Terminator>)
    requires Chunked(stdin.chunks)
    modifies stdin
    ensures var s := Flatten(old(stdin.chunks));
      match ScanHeader(s, 0)
      case Found(k, t) => terminator == Some(t) && header == s[..k] && stdin.chunks == Skip(old(stdin.chunks), k)
      case Eof => terminator.None? && stdin.chunks == []
      case TooLarge => terminator.None? && stdin.chunks == Skip(old(stdin.chunks), MaxHeaderBytes + 1)
  {
    ghost var cs := stdin.chunks;
    ghost var s := Flatten(cs);
    header := [];
    while true
      invariant |header| <= MaxHeaderBytes && |header| <= |s| && header == s[..|header|]
      invariant stdin.chunks == Skip(cs, |header|)
      invariant ScanHeader(s, |header|) == ScanHeader(s, 0)
      decreases |s| - |header|
    {
      ReadAfterSkip(cs, |header|, 1);
      var chunk := stdin.Read(1);
      if chunk == [] {
        SkipFlatten(cs, |header|);
        SkipKeepsChunks(cs, |header|);
        EmptyChunks(stdin.chunks);
        return header, None;
      }
      ghost var n := |header|;
      header := header + chunk;
      assert header == s[..n + 1];
      if Contains(header, CrLfCrLf) {
        return header, Some(CrLf);
      }
      if Contains(header, LfLf) {
        return header, Some(Lf);
      }
      if Contains(header, EscapedCrLfCrLf) {
        return header, Some(EscapedCrLf);
      }
      if |header| > MaxHeaderBytes {
        return header, None;
      }
    }
  }

  /** `_read_header_and_content`: the header loop, then one raw read of
      the body. */
  method ReadHeaderAndContent(stdin: RawStdin) returns (r: Option<(string, string)>)
    requires Chunked(stdin.chunks)
    modifies stdin
    ensures Chunked(stdin.chunks)
    ensures r == ReadMessageAsWritten(old(stdin.chunks)).message
    ensures stdin.chunks == ReadMessageAsWritten(old(stdin.chunks)).rest
  {
    ghost var cs := stdin.chunks;
    var headerData, terminator := ReadHeader(stdin);
    if terminator.None? {
      SkipKeepsChunks(cs, MaxHeaderBytes + 1);
      return None;
    }
    SkipKeepsChunks(cs, |headerData|);
    var length := ContentLength(headerData);
    if length.None? {
      return None;
    }
    ReadOnceShortens(Skip(cs, |headerData|), length.value);
    var contentData := stdin.Read(length.value);
    ReaderAsWrittenAfterHeader(cs, |headerData|, terminator.value, length.value);
    r := Complete(headerData, terminator.value, length.value, contentData);
  }
}
