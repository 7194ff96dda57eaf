/** The outer loop of `handle_read` (http_ping.c:711-739 and the early return at
    1161-1166), as a function of a scripted sequence of `read` results: a negative
    count, or the bytes read, none meaning the peer closed the connection.  The clock
    readings `response_at` and `finished_at` become markers: the index of the read after
    which the source takes them. */
module Reader {
  import opened Wrappers
  import opened Scanner

  /** What one `read( conn_fd, buf, sizeof(buf) )` returns. */
  datatype ReadResult = ReadFailed | Received(data: seq<byte>)

  /** `handle_read` returns 0, returns 1, or is still blocked in `read` when the script
      has no more results (where the source waits for the alarm). */
  datatype Outcome = Failed | Succeeded | Waiting

  /** The globals `handle_read` leaves behind, and how it ended. */
  datatype ReadLoop = ReadLoop(
    outcome: Outcome,
    scan: Scan,
    gotResponse: bool,
    responseAt: Option<nat>,
    finishedAt: Option<nat>)

  /** The read loop over the remaining script, whose first element is read
      number `i`. */
  function DriveFrom(p: Scan, got: bool, responseAt: Option<nat>, finishedAt: Option<nat>,
                     script: seq<ReadResult>, i: nat): ReadLoop
    decreases |script|
  {
    if script == [] then ReadLoop(Waiting, p, got, responseAt, finishedAt)
    else match script[0]
      case ReadFailed => ReadLoop(Failed, p, got, responseAt, finishedAt)
      case Received(data) =>
        var resp := if got then responseAt else Some(i);
        if data == [] then ReadLoop(Succeeded, p, true, resp, Some(i))
        else
          var r := ScanChunk(p, data);
          if r.complete then ReadLoop(Succeeded, r.scan, true, resp, Some(i))
          else DriveFrom(r.scan, true, resp, finishedAt, script[1..], i + 1)
  }

  /** `handle_read` over a whole script. */
  function Drive(p: Scan, got: bool, responseAt: Option<nat>, finishedAt: Option<nat>,
                 script: seq<ReadResult>): ReadLoop
  {
    DriveFrom(p, got, responseAt, finishedAt, script, 0)
  }

  /** Once `got_response` is set, `response_at` is never taken again. */
  lemma {:induction false} ResponseAtKept(p: Scan, r: Option<nat>, f: Option<nat>,
                                          script: seq<ReadResult>, i: nat)
    ensures DriveFrom(p, true, r, f, script, i).responseAt == r
    ensures DriveFrom(p, true, r, f, script, i).gotResponse
    decreases |script|
  {
    if script != [] && script[0].Received? && script[0].data != [] {
      var c := ScanChunk(p, script[0].data);
      if !c.complete {
        ResponseAtKept(c.scan, r, f, script[1..], i + 1);
      }
    }
  }

  /** A probe's first read decides the failure case and `response_at`: a negative first
      read fails with nothing scanned and no `response_at`; any other first read, a close
      included, takes `response_at` there and never again. */
  lemma FirstReadDecides(p: Scan, r: Option<nat>, f: Option<nat>, script: seq<ReadResult>)
    ensures script == [] ==> Drive(p, false, r, f, script) == ReadLoop(Waiting, p, false, r, f)
    ensures script != [] && script[0] == ReadFailed ==>
              Drive(p, false, r, f, script) == ReadLoop(Failed, p, false, r, f)
    ensures script != [] && script[0].Received? ==>
              Drive(p, false, r, f, script).responseAt == Some(0) &&
              Drive(p, false, r, f, script).gotResponse
  {
    if script != [] && script[0].Received? && script[0].data != [] {
      var c := ScanChunk(p, script[0].data);
      if !c.complete {
        ResponseAtKept(c.scan, Some(0), f, script[1..], 1);
      }
    }
  }

  /** A read loop that returned 1 did so on a read it reached: `finished_at` is set there. */
  lemma {:induction false} SucceededHasFinish(p: Scan, got: bool, r: Option<nat>, f: Option<nat>,
                                              script: seq<ReadResult>, i: nat)
    ensures var d := DriveFrom(p, got, r, f, script, i);
            d.outcome == Succeeded ==>
              d.finishedAt.Some? && i <= d.finishedAt.value < i + |script| &&
              script[d.finishedAt.value - i].Received?
    decreases |script|
  {
    if script != [] && script[0].Received? && script[0].data != [] {
      var c := ScanChunk(p, script[0].data);
      if !c.complete {
        SucceededHasFinish(c.scan, true, if got then r else Some(i), f, script[1..], i + 1);
      }
    }
  }

  /** Every chunk as a successful read. */
  function Reads(chunks: seq<seq<byte>>): (s: seq<ReadResult>)
    ensures |s| == |chunks|
    ensures forall j :: 0 <= j < |chunks| ==> s[j] == Received(chunks[j])
    decreases |chunks|
  {
    if chunks == [] then [] else [Received(chunks[0])] + Reads(chunks[1..])
  }

  /** Every chunk as a successful read, then `last`. */
  function Script(chunks: seq<seq<byte>>, last: ReadResult): (s: seq<ReadResult>)
    ensures |s| == |chunks| + 1
    ensures forall j :: 0 <= j < |chunks| ==> s[j] == Received(chunks[j])
    ensures s[|chunks|] == last
  {
    Reads(chunks) + [last]
  }

  predicate NonEmpty(chunks: seq<seq<byte>>) {
    forall j :: 0 <= j < |chunks| ==> chunks[j] != []
  }

  /** The read loop over chunks followed by a close or an error.  When some chunk
      completes the announced body, the probe succeeds on that chunk; otherwise all
      chunks are scanned, and the final read decides: a close succeeds whatever
      `content_length` is, an error fails. */
  lemma {:induction false} DriveChunks(p: Scan, got: bool, r: Option<nat>, f: Option<nat>,
                                       chunks: seq<seq<byte>>, last: ReadResult, i: nat)
    requires NonEmpty(chunks)
    requires last == ReadFailed || last == Received([])
    ensures var d := DriveFrom(p, got, r, f, Script(chunks, last), i);
            if CompletesWithin(p, chunks) then
              d.outcome == Succeeded && d.finishedAt.Some? && d.finishedAt.value < i + |chunks| &&
              d.scan.header.contentLength != -1 && d.scan.bytes >= d.scan.header.contentLength
            else
              d.scan == ScanChunks(p, chunks) &&
              (last == ReadFailed ==> d.outcome == Failed) &&
              (last == Received([]) ==> d.outcome == Succeeded && d.finishedAt == Some(i + |chunks|))
    decreases |chunks|
  {
    if chunks != [] {
      var c := ScanChunk(p, chunks[0]);
      assert Script(chunks, last)[0] == Received(chunks[0]);
      assert Script(chunks, last)[1..] == Script(chunks[1..], last);
      if !c.complete {
        DriveChunks(c.scan, true, if got then r else Some(i), f, chunks[1..], last, i + 1);
      }
    }
  }

  /** The read loop over chunks with no result after them: it succeeds on the chunk that
      completes the announced body, and otherwise is still waiting in `read` with all the
      chunks scanned. */
  lemma {:induction false} DriveReads(p: Scan, got: bool, r: Option<nat>, f: Option<nat>,
                                      chunks: seq<seq<byte>>, i: nat)
    requires NonEmpty(chunks)
    ensures var d := DriveFrom(p, got, r, f, Reads(chunks), i);
            if CompletesWithin(p, chunks) then
              d.outcome == Succeeded && d.finishedAt.Some? && d.finishedAt.value < i + |chunks|
            else
              d.outcome == Waiting && d.scan == ScanChunks(p, chunks)
    decreases |chunks|
  {
    if chunks != [] {
      var c := ScanChunk(p, chunks[0]);
      assert Reads(chunks)[1..] == Reads(chunks[1..]);
      if !c.complete {
        DriveReads(c.scan, true, if got then r else Some(i), f, chunks[1..], i + 1);
      }
    }
  }

  /** The read loop does not look at `total_bytes`: starting from another total gives the
      same outcome, markers and per-response state. */
  lemma {:induction false} DriveShift(p: Scan, got: bool, r: Option<nat>, f: Option<nat>,
                                      script: seq<ReadResult>, i: nat, t: int)
    ensures var a := DriveFrom(p, got, r, f, script, i);
            var b := DriveFrom(p.(totalBytes := t), got, r, f, script, i);
            b.outcome == a.outcome && b.gotResponse == a.gotResponse &&
            b.responseAt == a.responseAt && b.finishedAt == a.finishedAt &&
            b.scan.header == a.scan.header && b.scan.bytes == a.scan.bytes
    decreases |script|
  {
    if script != [] && script[0].Received? && script[0].data != [] {
      var c := ScanChunk(p, script[0].data);
      ScanChunkShift(p, script[0].data, t);
      if !c.complete {
        var resp := if got then r else Some(i);
        DriveShift(c.scan, true, resp, f, script[1..], i + 1,
                   c.scan.totalBytes - p.totalBytes + t);
        assert c.scan.(totalBytes := c.scan.totalBytes - p.totalBytes + t) ==
               ScanChunk(p.(totalBytes := t), script[0].data).scan;
      }
    }
  }

  /** However the same byte stream is split into reads, a probe whose stream ends in a
      close (or in an error) has the same outcome; when it ends at the close, the final
      state is the same too, with every byte after the header terminator counted in
      `bytes`. */
  lemma SplitInvariance(p: Scan, r: Option<nat>, f: Option<nat>,
                        xs: seq<seq<byte>>, ys: seq<seq<byte>>, last: ReadResult)
    requires NonEmpty(xs) && NonEmpty(ys) && Concat(xs) == Concat(ys)
    requires last == ReadFailed || last == Received([])
    ensures Drive(p, false, r, f, Script(xs, last)).outcome ==
            Drive(p, false, r, f, Script(ys, last)).outcome
    ensures !CompletesWithin(p, xs) ==>
              Drive(p, false, r, f, Script(xs, last)).scan ==
              Drive(p, false, r, f, Script(ys, last)).scan ==
              ScanStream(p, Concat(xs))
  {
    ChunkingInvariance(p, xs, ys);
    ScanChunksIsStream(p, xs);
    DriveChunks(p, false, r, f, xs, last, 0);
    DriveChunks(p, false, r, f, ys, last, 0);
  }
}
