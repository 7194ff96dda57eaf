/** The response scanner of `handle_read` (http_ping.c:740-1168): a state machine that
    reads the response one byte at a time, finds the blank line that ends the headers,
    picks up the value of a `Content-Length:` header, and from then on counts body bytes.

    The 24 states of the source are the constructors of `ConnState`; the fourteen states
    ST_C … ST_CONTENT_LENGTH, one per matched prefix of the header name, are `Name(k)`
    with `k` the number of characters matched (see `Code`). */
module Scanner {

  /** One octet of the received stream. */
  newtype byte = b: int | 0 <= b < 256

  const LF: byte := 10
  const CR: byte := 13
  const TAB: byte := 9
  const SPACE: byte := 32
  const COLON: byte := 58

  /** The header name, in lower case; the scanner compares case-insensitively. */
  const Token: string := "content-length"
  const TokenLength: int := 14

  /** How many characters of `Token` a `Name` state has matched. */
  type Matched = k: int | 1 <= k <= TokenLength witness 1

  datatype ConnState =
    | Bol                   // ST_BOL: nothing received yet
    | Text                  // ST_TEXT: inside a header line
    | Lf                    // ST_LF: just after a LF
    | Cr                    // ST_CR: just after a CR
    | CrLf                  // ST_CRLF
    | CrLfCr                // ST_CRLFCR
    | Name(matched: Matched) // ST_C … ST_CONTENT_LENGTH
    | Colon                 // ST_CONTENT_LENGTH_COLON
    | Whitespace            // ST_CONTENT_LENGTH_COLON_WHITESPACE
    | Number                // ST_CONTENT_LENGTH_COLON_WHITESPACE_NUM
    | Data                  // ST_DATA: past the end of the headers

  /** The numeric value of the corresponding `ST_` constant (http_ping.c:85-108). */
  function Code(s: ConnState): (c: int)
    ensures 0 <= c <= 23
    ensures s.Name? <==> 6 <= c <= 19
  {
    match s
    case Bol => 0
    case Text => 1
    case Lf => 2
    case Cr => 3
    case CrLf => 4
    case CrLfCr => 5
    case Name(k) => 5 + k
    case Colon => 20
    case Whitespace => 21
    case Number => 22
    case Data => 23
  }

  /** Distinct states have distinct constants, so `Code` is the source's numbering. */
  lemma CodeInjective(s: ConnState, t: ConnState)
    ensures Code(s) == Code(t) ==> s == t
  {
  }

  /** The part of the scanner's state that header scanning reads and writes:
      `conn_state` and `content_length`. */
  datatype Header = Header(state: ConnState, contentLength: int)

  /** The state a C/c at the start of a line leads to is only reached from these. */
  predicate IsLineStart(s: ConnState) {
    s == Bol || s == Lf || s == Cr || s == CrLf || s == CrLfCr
  }

  /** States in which no line terminator has just been seen. */
  predicate IsMidLine(s: ConnState) {
    s == Bol || s == Text || s.Name? || s == Colon || s == Whitespace || s == Number
  }

  /** A partial `Content-Length: n` match. */
  predicate IsPartialMatch(s: ConnState) {
    s.Name? || s == Colon || s == Whitespace || s == Number
  }

  function Lower(b: byte): int {
    if 'A' as int <= b as int <= 'Z' as int then b as int + 32 else b as int
  }

  predicate IsDigit(b: byte) {
    '0' as int <= b as int <= '9' as int
  }

  predicate IsBlank(b: byte) {
    b == SPACE || b == TAB
  }

  function Digit(b: byte): int
    requires IsDigit(b)
  {
    b as int - '0' as int
  }

  /** `case 'C': case 'c':` */
  predicate StartsName(b: byte) {
    Lower(b) == Token[0] as int
  }

  /** The default of every partial-match state: LF and CR go to the line-end tracking
      states, anything else to header text. */
  function Fallback(b: byte): ConnState {
    if b == LF then Lf else if b == CR then Cr else Text
  }

  /** The shared shape of the line-start states: LF and CR go where `onLf` and `onCr`
      say, C/c starts a name match, anything else is header text. */
  function AtLineStart(b: byte, onLf: ConnState, onCr: ConnState): ConnState {
    if b == LF then onLf
    else if b == CR then onCr
    else if StartsName(b) then Name(1)
    else Text
  }

  /** One iteration of the `switch ( conn_state )` for a header state (http_ping.c:744-1155).
      In `Data` the source consumes the rest of the chunk at once (see `ScanChunk`);
      as a byte step `Data` changes nothing. */
  function Step(h: Header, b: byte): (r: Header)
    ensures h.state == Data ==> r == h
    ensures r.state == Data && h.state != Data ==>
              (h.state == Lf || h.state == Cr || h.state == CrLf || h.state == CrLfCr) &&
              (b == LF || b == CR)
  {
    var cl := h.contentLength;
    match h.state
    case Bol => Header(AtLineStart(b, Lf, Cr), cl)
    case Text => Header(Fallback(b), cl)
    case Lf => Header(AtLineStart(b, Data, Cr), cl)
    case Cr => Header(AtLineStart(b, CrLf, Data), cl)
    case CrLf => Header(AtLineStart(b, Data, CrLfCr), cl)
    case CrLfCr => Header(AtLineStart(b, Data, Data), cl)
    case Name(k) =>
      if k < TokenLength && Lower(b) == Token[k] as int then Header(Name(k + 1), cl)
      else if k == TokenLength && b == COLON then Header(Colon, cl)
      else Header(Fallback(b), cl)
    case Colon => Header(if IsBlank(b) then Whitespace else Fallback(b), cl)
    case Whitespace =>
      if IsBlank(b) then Header(Whitespace, cl)
      else if IsDigit(b) then Header(Number, Digit(b))
      else Header(Fallback(b), cl)
    case Number =>
      if IsDigit(b) then Header(Number, cl * 10 + Digit(b))
      else Header(Fallback(b), cl)
    case Data => h
  }

  /** Header scanning over a whole byte string: the left fold of `Step`. */
  function Run(h: Header, xs: seq<byte>): Header
    decreases |xs|
  {
    if xs == [] then h else Run(Step(h, xs[0]), xs[1..])
  }

  /** How many bytes of `xs` the scanner counts as body when it starts in `h`. */
  function BodyCount(h: Header, xs: seq<byte>): nat
    decreases |xs|
  {
    if xs == [] then 0
    else if h.state == Data then |xs|
    else BodyCount(Step(h, xs[0]), xs[1..])
  }

  /** The scanner's whole per-connection state: the header state plus `bytes` (body bytes
      of this response) and `total_bytes` (body bytes of all responses). */
  datatype Scan = Scan(header: Header, bytes: int, totalBytes: int)

  /** The state of a new probe once its request is written (http_ping.c:467-469, 544). */
  function Fresh(totalBytes: int): Scan {
    Scan(Header(Bol, -1), 0, totalBytes)
  }

  /** What the inner loop of `handle_read` leaves behind for one chunk: the new state and
      whether it returned early because the announced body is complete. */
  datatype ChunkResult = ChunkResult(scan: Scan, complete: bool)

  /** The inner `for` loop of `handle_read` over one chunk (http_ping.c:740-1168). Header
      bytes go through `Step`; the first byte met in `Data` adds everything left in the
      chunk to `bytes` and `total_bytes` and then tests for completion. */
  function ScanChunk(p: Scan, chunk: seq<byte>): (r: ChunkResult)
    ensures r.complete ==>
              r.scan.header.contentLength != -1 && r.scan.bytes >= r.scan.header.contentLength
    ensures r.scan.bytes >= p.bytes && r.scan.totalBytes - r.scan.bytes == p.totalBytes - p.bytes
    decreases |chunk|
  {
    if chunk == [] then ChunkResult(p, false)
    else if p.header.state == Data then
      var q := Scan(p.header, p.bytes + |chunk|, p.totalBytes + |chunk|);
      ChunkResult(q, q.header.contentLength != -1 && q.bytes >= q.header.contentLength)
    else ScanChunk(Scan(Step(p.header, chunk[0]), p.bytes, p.totalBytes), chunk[1..])
  }

  /** `total_bytes` only accumulates: starting from another total changes nothing else and
      shifts the final total by the same amount. */
  lemma {:induction false} ScanChunkShift(p: Scan, chunk: seq<byte>, t: int)
    ensures var a := ScanChunk(p, chunk);
            var b := ScanChunk(p.(totalBytes := t), chunk);
            b.complete == a.complete &&
            b.scan == a.scan.(totalBytes := a.scan.totalBytes - p.totalBytes + t)
    decreases |chunk|
  {
    if chunk != [] && p.header.state != Data {
      ScanChunkShift(Scan(Step(p.header, chunk[0]), p.bytes, p.totalBytes), chunk[1..], t);
    }
  }

  /** Reference definition: the state after a whole byte string, computed without chunks. */
  function ScanStream(p: Scan, xs: seq<byte>): Scan {
    var n := BodyCount(p.header, xs);
    Scan(Run(p.header, xs), p.bytes + n, p.totalBytes + n)
  }

  /** The chunks concatenated: the byte stream they are a split of. */
  function Concat(chunks: seq<seq<byte>>): seq<byte>
    decreases |chunks|
  {
    if chunks == [] then [] else chunks[0] + Concat(chunks[1..])
  }

  /** Chunks scanned one after the other, ignoring the completion test. */
  function ScanChunks(p: Scan, chunks: seq<seq<byte>>): Scan
    decreases |chunks|
  {
    if chunks == [] then p else ScanChunks(ScanChunk(p, chunks[0]).scan, chunks[1..])
  }

  /** Whether some chunk, scanned in order, passes the completion test. */
  predicate CompletesWithin(p: Scan, chunks: seq<seq<byte>>)
    decreases |chunks|
  {
    chunks != [] &&
    var r := ScanChunk(p, chunks[0]);
    r.complete || CompletesWithin(r.scan, chunks[1..])
  }

  /** The completion condition read off the stream as a whole: some body byte arrived, a
      length is known, and the body bytes reach it. */
  predicate StreamComplete(p: Scan, xs: seq<byte>) {
    var q := ScanStream(p, xs);
    BodyCount(p.header, xs) > 0 && q.header.contentLength != -1 && q.bytes >= q.header.contentLength
  }

  // ---------------------------------------------------------------------------
  // Header terminators (http_ping.c:744-843)

  /** The blank-line forms the state machine accepts after a line. */
  const Terminators: seq<seq<byte>> :=
    [[LF, LF], [CR, CR], [CR, LF, LF], [CR, LF, CR, LF], [CR, LF, CR, CR]]

  /** From a state in the middle of a line (or before the first byte), each terminator
      reaches `Data` on its last byte and not before. */
  lemma TerminatorEndsHeaders(h: Header, i: nat)
    requires IsMidLine(h.state) && i < |Terminators|
    ensures Run(h, Terminators[i]).state == Data
    ensures forall j :: 0 <= j < |Terminators[i]| ==> Run(h, Terminators[i][..j]).state != Data
    ensures Run(h, Terminators[i]).contentLength == h.contentLength
  {
    var t := Terminators[i];
    assert t[..|t|] == t;
    forall j | 0 <= j <= |t|
      ensures Run(h, t[..j]).state == Data <==> j == |t|
      ensures Run(h, t[..j]).contentLength == h.contentLength
    {
      RunUnfold(h, t[..j]);
    }
  }

  /** CR LF CR alone is not a terminator: it leaves the scanner in `CrLfCr`. */
  lemma CrLfCrIsNotTerminator(h: Header)
    requires IsMidLine(h.state)
    ensures Run(h, [CR, LF, CR]).state == CrLfCr
  {
    RunUnfold(h, [CR, LF, CR]);
  }

  /** At a line start, a byte other than CR, LF and C/c is header text. */
  lemma LineStartOtherByte(h: Header, b: byte)
    requires IsLineStart(h.state) && b != LF && b != CR && !StartsName(b)
    ensures Step(h, b) == Header(Text, h.contentLength)
  {
  }

  lemma RunUnfold(h: Header, xs: seq<byte>)
    requires |xs| <= 4
    ensures |xs| == 0 ==> Run(h, xs) == h
    ensures |xs| == 1 ==> Run(h, xs) == Step(h, xs[0])
    ensures |xs| == 2 ==> Run(h, xs) == Step(Step(h, xs[0]), xs[1])
    ensures |xs| == 3 ==> Run(h, xs) == Step(Step(Step(h, xs[0]), xs[1]), xs[2])
    ensures |xs| == 4 ==> Run(h, xs) == Step(Step(Step(Step(h, xs[0]), xs[1]), xs[2]), xs[3])
    decreases |xs|
  {
    if xs != [] {
      RunUnfold(Step(h, xs[0]), xs[1..]);
    }
  }

  // ---------------------------------------------------------------------------
  // Where `Content-Length` is recognised (http_ping.c:753, 762-773, 785, 845-1155)

  /** A name match starts exactly at a line start on C or c; a C inside a line
      (`Text`) does not start one. */
  lemma NameStartsOnlyAtLineStart(h: Header, b: byte)
    ensures Step(h, b).state == Name(1) <==> IsLineStart(h.state) && StartsName(b)
  {
  }

  /** CR and LF anywhere in a partial match go back to line-end tracking and keep the length. */
  lemma PartialMatchLineEnd(h: Header)
    requires IsPartialMatch(h.state)
    ensures Step(h, LF) == Header(Lf, h.contentLength)
    ensures Step(h, CR) == Header(Cr, h.contentLength)
  {
  }

  /** `content_length` is written only by a digit after `Content-Length:` and white space:
      the first digit overwrites whatever was there, later digits append. */
  lemma LengthWrittenOnlyByDigits(h: Header, b: byte)
    ensures Step(h, b).contentLength != h.contentLength ==>
              (h.state == Whitespace || h.state == Number) && IsDigit(b)
    ensures h.state == Whitespace && IsDigit(b) ==> Step(h, b) == Header(Number, Digit(b))
    ensures h.state == Number && IsDigit(b) ==>
              Step(h, b) == Header(Number, h.contentLength * 10 + Digit(b))
    ensures h.state == Number && !IsDigit(b) ==> Step(h, b).contentLength == h.contentLength
  {
  }

  predicate AllDigits(ds: seq<byte>) {
    forall i :: 0 <= i < |ds| ==> IsDigit(ds[i])
  }

  predicate AllBlank(ws: seq<byte>) {
    forall i :: 0 <= i < |ws| ==> IsBlank(ws[i])
  }

  /** `name` spells `Content-Length` in any mix of upper and lower case. */
  predicate SpellsToken(name: seq<byte>) {
    |name| == TokenLength && forall i :: 0 <= i < TokenLength ==> Lower(name[i]) == Token[i] as int
  }

  /** Decimal digits folded into `acc` left to right, `acc * 10 + d` per digit. */
  function Accumulate(acc: int, ds: seq<byte>): int
    requires AllDigits(ds)
    decreases |ds|
  {
    if ds == [] then acc else Accumulate(acc * 10 + Digit(ds[0]), ds[1..])
  }

  /** The value of a digit string. */
  function DigitsValue(ds: seq<byte>): int
    requires AllDigits(ds)
  {
    Accumulate(0, ds)
  }

  lemma {:induction false} RunAppend(h: Header, a: seq<byte>, b: seq<byte>)
    ensures Run(h, a + b) == Run(Run(h, a), b)
    decreases |a|
  {
    if a == [] {
      assert a + b == b;
    } else {
      assert (a + b)[0] == a[0] && (a + b)[1..] == a[1..] + b;
      RunAppend(Step(h, a[0]), a[1..], b);
    }
  }

  lemma {:induction false} RunNameRest(k: Matched, cl: int, w: seq<byte>)
    requires |w| == TokenLength - k
    requires forall i :: 0 <= i < |w| ==> Lower(w[i]) == Token[k + i] as int
    ensures Run(Header(Name(k), cl), w) == Header(Name(TokenLength), cl)
    decreases |w|
  {
    if w != [] {
      assert Step(Header(Name(k), cl), w[0]) == Header(Name(k + 1), cl);
      RunNameRest(k + 1, cl, w[1..]);
    }
  }

  lemma {:induction false} RunBlanks(cl: int, ws: seq<byte>)
    requires AllBlank(ws)
    ensures Run(Header(Whitespace, cl), ws) == Header(Whitespace, cl)
    decreases |ws|
  {
    if ws != [] {
      RunBlanks(cl, ws[1..]);
    }
  }

  lemma {:induction false} RunDigits(cl: int, ds: seq<byte>)
    requires AllDigits(ds)
    ensures Run(Header(Number, cl), ds) == Header(Number, Accumulate(cl, ds))
    decreases |ds|
  {
    if ds != [] {
      RunDigits(cl * 10 + Digit(ds[0]), ds[1..]);
    }
  }

  /** A `Content-Length:` line at a line start, with at least one blank and at least one
      digit, leaves the scanner in the number state holding the digits' value, whatever
      length an earlier header had set. */
  lemma HeaderLineSetsLength(h: Header, name: seq<byte>, ws: seq<byte>, ds: seq<byte>)
    requires IsLineStart(h.state) && SpellsToken(name)
    requires ws != [] && AllBlank(ws)
    requires ds != [] && AllDigits(ds)
    ensures Run(h, name + [COLON] + ws + ds) == Header(Number, DigitsValue(ds))
  {
    var cl := h.contentLength;
    assert Step(h, name[0]) == Header(Name(1), cl);
    RunNameRest(1, cl, name[1..]);
    assert Run(h, name) == Header(Name(TokenLength), cl);
    RunAppend(h, name, [COLON]);
    assert Run(Header(Name(TokenLength), cl), [COLON]) == Header(Colon, cl);
    RunAppend(h, name + [COLON], ws);
    assert Run(Header(Colon, cl), ws) == Run(Header(Whitespace, cl), ws[1..]);
    RunBlanks(cl, ws[1..]);
    RunAppend(h, name + [COLON] + ws, ds);
    assert Run(Header(Whitespace, cl), ds) == Run(Header(Number, Digit(ds[0])), ds[1..]);
    RunDigits(Digit(ds[0]), ds[1..]);
  }

  /** `Content-Length:` followed directly by anything but a blank (`Content-Length:42`)
      abandons the match and leaves `content_length` as it was. */
  lemma ColonNeedsBlank(h: Header, name: seq<byte>, b: byte)
    requires IsLineStart(h.state) && SpellsToken(name) && !IsBlank(b)
    ensures Run(h, name + [COLON, b]) == Header(Fallback(b), h.contentLength)
  {
    var cl := h.contentLength;
    assert Step(h, name[0]) == Header(Name(1), cl);
    RunNameRest(1, cl, name[1..]);
    RunAppend(h, name, [COLON, b]);
    RunUnfold(Header(Name(TokenLength), cl), [COLON, b]);
  }

  function Pow10(n: nat): nat {
    if n == 0 then 1 else 10 * Pow10(n - 1)
  }

  lemma {:induction false} AccumulateBound(acc: nat, ds: seq<byte>)
    requires AllDigits(ds)
    ensures acc * Pow10(|ds|) <= Accumulate(acc, ds) < (acc + 1) * Pow10(|ds|)
    decreases |ds|
  {
    if ds != [] {
      var d := Digit(ds[0]);
      var p := Pow10(|ds| - 1);
      var a := acc * 10 + d;
      assert Accumulate(acc, ds) == Accumulate(a, ds[1..]);
      AccumulateBound(a, ds[1..]);
      assert Pow10(|ds|) == 10 * p;
      MulMonotone(acc * 10, a, p);
      MulMonotone(a + 1, (acc + 1) * 10, p);
      MulAssoc(acc, 10, p);
      MulAssoc(acc + 1, 10, p);
    }
  }

  lemma MulAssoc(x: nat, y: nat, p: nat)
    ensures x * (y * p) == x * y * p
  {
  }

  lemma MulMonotone(x: nat, y: nat, p: nat)
    requires x <= y
    ensures x * p <= y * p
  {
  }

  /** The C `long` `content_length` has 63 value bits. */
  const LongMax: int := 0x7FFF_FFFF_FFFF_FFFF

  /** Lengths of up to 18 digits fit in a C `long`, so on them the unbounded model and the
      unguarded `len * 10 + d` of the source agree. */
  lemma ShortLengthsFit(ds: seq<byte>)
    requires AllDigits(ds) && |ds| <= 18
    ensures 0 <= DigitsValue(ds) <= LongMax
  {
    AccumulateBound(0, ds);
    Pow10Monotone(|ds|, 18);
    assert Pow10(3) == 1000;
    Pow10Add(3, 3);
    Pow10Add(6, 6);
    Pow10Add(12, 6);
  }

  lemma {:induction false} Pow10Add(m: nat, n: nat)
    ensures Pow10(m + n) == Pow10(m) * Pow10(n)
    decreases m
  {
    if m > 0 {
      Pow10Add(m - 1, n);
    }
  }

  lemma {:induction false} Pow10Monotone(m: nat, n: nat)
    requires m <= n
    ensures Pow10(m) <= Pow10(n)
    decreases n
  {
    if m < n {
      Pow10Monotone(m, n - 1);
    }
  }

  // ---------------------------------------------------------------------------
  // Chunking invariance (http_ping.c:740-1166)

  /** `Data` is final: header scanning changes nothing once there. */
  lemma {:induction false} RunData(cl: int, xs: seq<byte>)
    ensures Run(Header(Data, cl), xs) == Header(Data, cl)
    decreases |xs|
  {
    if xs != [] {
      RunData(cl, xs[1..]);
    }
  }

  lemma {:induction false} BodyCountData(cl: int, xs: seq<byte>)
    ensures BodyCount(Header(Data, cl), xs) == |xs|
  {
  }

  /** Body bytes are counted only once the scanner has reached `Data`. */
  lemma {:induction false} BodyMeansData(h: Header, xs: seq<byte>)
    ensures BodyCount(h, xs) > 0 ==> Run(h, xs).state == Data
    decreases |xs|
  {
    if xs != [] {
      if h.state == Data {
        RunData(h.contentLength, xs);
      } else {
        BodyMeansData(Step(h, xs[0]), xs[1..]);
      }
    }
  }

  lemma {:induction false} BodyCountAppend(h: Header, a: seq<byte>, b: seq<byte>)
    ensures BodyCount(h, a + b) == BodyCount(h, a) + BodyCount(Run(h, a), b)
    decreases |a|
  {
    if a == [] {
      assert a + b == b;
    } else if h.state == Data {
      RunData(h.contentLength, a);
    } else {
      assert (a + b)[0] == a[0] && (a + b)[1..] == a[1..] + b;
      BodyCountAppend(Step(h, a[0]), a[1..], b);
    }
  }

  /** The reference definition composes: scanning `a + b` is scanning `a`, then `b`. */
  lemma ScanStreamAppend(p: Scan, a: seq<byte>, b: seq<byte>)
    ensures ScanStream(p, a + b) == ScanStream(ScanStream(p, a), b)
  {
    RunAppend(p.header, a, b);
    BodyCountAppend(p.header, a, b);
  }

  /** One chunk through the inner loop gives the reference state for its bytes, and its
      completion test is the stream-level condition. */
  lemma {:induction false} ScanChunkIsStream(p: Scan, chunk: seq<byte>)
    ensures ScanChunk(p, chunk).scan == ScanStream(p, chunk)
    ensures ScanChunk(p, chunk).complete == StreamComplete(p, chunk)
    decreases |chunk|
  {
    if chunk != [] {
      if p.header.state == Data {
        RunData(p.header.contentLength, chunk);
      } else {
        ScanChunkIsStream(Scan(Step(p.header, chunk[0]), p.bytes, p.totalBytes), chunk[1..]);
      }
    }
  }

  /** Any sequence of chunks leaves the state the concatenated stream does. */
  lemma {:induction false} ScanChunksIsStream(p: Scan, chunks: seq<seq<byte>>)
    ensures ScanChunks(p, chunks) == ScanStream(p, Concat(chunks))
    decreases |chunks|
  {
    if chunks != [] {
      ScanChunkIsStream(p, chunks[0]);
      ScanChunksIsStream(ScanChunk(p, chunks[0]).scan, chunks[1..]);
      ScanStreamAppend(p, chunks[0], Concat(chunks[1..]));
    }
  }

  /** Some chunk passes the completion test exactly when the stream as a whole meets the
      completion condition, however it is split. */
  lemma {:induction false} CompletesWithinIff(p: Scan, chunks: seq<seq<byte>>)
    ensures CompletesWithin(p, chunks) <==> StreamComplete(p, Concat(chunks))
    decreases |chunks|
  {
    if chunks != [] {
      var c, rest := chunks[0], Concat(chunks[1..]);
      var q := ScanChunk(p, c).scan;
      ScanChunkIsStream(p, c);
      CompletesWithinIff(q, chunks[1..]);
      ScanStreamAppend(p, c, rest);
      BodyCountAppend(p.header, c, rest);
      if BodyCount(p.header, c) > 0 {
        BodyMeansData(p.header, c);
        RunData(q.header.contentLength, rest);
        BodyCountData(q.header.contentLength, rest);
      }
    }
  }

  /** Chunking invariance: two splits of the same stream leave the same `conn_state`,
      `content_length`, `bytes` and `total_bytes`, and agree on whether the response
      completes before the stream ends. */
  lemma ChunkingInvariance(p: Scan, xs: seq<seq<byte>>, ys: seq<seq<byte>>)
    requires Concat(xs) == Concat(ys)
    ensures ScanChunks(p, xs) == ScanChunks(p, ys)
    ensures CompletesWithin(p, xs) == CompletesWithin(p, ys)
  {
    ScanChunksIsStream(p, xs);
    ScanChunksIsStream(p, ys);
    CompletesWithinIff(p, xs);
    CompletesWithinIff(p, ys);
  }

  lemma {:induction false} NoBodyBeforeData(h: Header, xs: seq<byte>)
    requires forall j :: 0 <= j < |xs| ==> Run(h, xs[..j]).state != Data
    ensures BodyCount(h, xs) == 0
    decreases |xs|
  {
    if xs != [] {
      assert xs[..0] == [];
      var t := xs[1..];
      forall j | 0 <= j < |t|
        ensures Run(Step(h, xs[0]), t[..j]).state != Data
      {
        assert xs[..j + 1][0] == xs[0] && xs[..j + 1][1..] == t[..j];
      }
      NoBodyBeforeData(Step(h, xs[0]), t);
    }
  }

  /** The body is exactly what follows the first prefix that reaches `Data`: when the
      terminator ends at byte `k`, `bytes` at end of stream is `|xs| - k`. */
  lemma BodyAfterTerminator(h: Header, xs: seq<byte>, k: nat)
    requires k <= |xs| && Run(h, xs[..k]).state == Data
    requires forall j :: 0 <= j < k ==> Run(h, xs[..j]).state != Data
    ensures BodyCount(h, xs) == |xs| - k
  {
    var a, b := xs[..k], xs[k..];
    assert a + b == xs;
    forall j | 0 <= j < |a|
      ensures Run(h, a[..j]).state != Data
    {
      assert a[..j] == xs[..j];
    }
    NoBodyBeforeData(h, a);
    BodyCountAppend(h, a, b);
    BodyCountData(Run(h, a).contentLength, b);
  }
}
