/** The process state of `http_ping` and the steps `main` drives it through: a probe
    opens a connection and writes the request (`start_connection`, http_ping.c:461-545),
    reads and scans the response (`handle_read`, 705-1168), and `main` counts and times
    it (276-335).  Sockets, the clock and the alarm are the world's: what they do in one
    probe is a `ProbeInput`. */
module Ping {
  import opened Wrappers
  import opened Scanner
  import opened Reader
  import opened Time
  import opened Stats

  /** `sizeof(buf)` in `handle_read`: no read returns more. */
  const ReadBufferSize: int := 5000

  /** The four phases of a completed probe in microseconds: started to finished,
      started to connected, connected to first response, first response to finished. */
  datatype Elapsed = Elapsed(total: int, connect: int, response: int, data: int)

  datatype Phase = TotalPhase | ConnectPhase | ResponsePhase | DataPhase

  function Pick(e: Elapsed, p: Phase): int {
    match p
    case TotalPhase => e.total
    case ConnectPhase => e.connect
    case ResponsePhase => e.response
    case DataPhase => e.data
  }

  /** One phase of each completed probe, in order. */
  function Column(es: seq<Elapsed>, p: Phase): seq<int> {
    seq(|es|, i requires 0 <= i < |es| => Pick(es[i], p))
  }

  /** What the world does during one probe: whether the socket connects, whether the
      request write succeeds, the results of the reads, and the clock at the start, at
      the connection and after each read. */
  datatype ProbeInput = ProbeInput(
    connected: bool,
    written: bool,
    script: seq<ReadResult>,
    startedAt: Timeval,
    connectAt: Timeval,
    readAt: seq<Timeval>)

  /** One clock reading per read, and no read larger than the buffer. */
  predicate WellFormed(input: ProbeInput) {
    |input.readAt| == |input.script| &&
    forall i :: 0 <= i < |input.script| && input.script[i].Received? ==>
      |input.script[i].data| <= ReadBufferSize
  }

  /** How `main` books a probe: completed with its phases, failed, or timed out (the
      reads ran out, where the source blocks until the alarm). */
  datatype ProbeResult = Completed(elapsed: Elapsed) | Failure | Timeout

  /** The phases from the clock readings `main` subtracts (http_ping.c:301-308). */
  function ElapsedAt(input: ProbeInput, r: nat, f: nat): (e: Elapsed)
    requires r < |input.readAt| && f < |input.readAt|
    ensures e.total == e.connect + e.response + e.data
  {
    DeltaAdditive(input.startedAt, input.connectAt, input.readAt[r], input.readAt[f]);
    Elapsed(Delta(input.startedAt, input.readAt[f]), Delta(input.startedAt, input.connectAt),
            Delta(input.connectAt, input.readAt[r]), Delta(input.readAt[r], input.readAt[f]))
  }

  /** The read loop of a probe whose request was written. */
  function ReadPhase(totalBytes: int, script: seq<ReadResult>): ReadLoop {
    Drive(Fresh(totalBytes), false, None, None, script)
  }

  /** Reference definition of one probe's outcome: a failed connection or write, or the
      read loop's outcome; a completed probe was answered on its first read and finished
      on a later or the same one. */
  function ProbeOf(input: ProbeInput, totalBytes: int): (r: ProbeResult)
    requires WellFormed(input)
    ensures r.Completed? ==> input.connected && input.written
    ensures r.Completed? ==> r.elapsed.total == r.elapsed.connect + r.elapsed.response + r.elapsed.data
  {
    if !(input.connected && input.written) then Failure
    else
      var d := ReadPhase(totalBytes, input.script);
      match d.outcome
      case Failed => Failure
      case Waiting => Timeout
      case Succeeded =>
        FirstReadDecides(Fresh(totalBytes), None, None, input.script);
        SucceededHasFinish(Fresh(totalBytes), false, None, None, input.script, 0);
        Completed(ElapsedAt(input, 0, d.finishedAt.value))
  }

  /** `total_bytes` does not decide how a probe ends. */
  lemma ProbeOfShift(input: ProbeInput, t: int, t': int)
    requires WellFormed(input)
    ensures ProbeOf(input, t) == ProbeOf(input, t')
  {
    DriveShift(Fresh(t), false, None, None, input.script, 0, t');
    assert Fresh(t).(totalBytes := t') == Fresh(t');
  }

  /** A probe whose connect or write fails is a failure. */
  lemma ProbeUnsent(input: ProbeInput, t: int)
    requires WellFormed(input) && !(input.connected && input.written)
    ensures ProbeOf(input, t) == Failure
  {
  }

  /** A probe whose chunks never complete the announced body fails when the last read
      fails, times out when no read follows, and completes on a close, with the phases
      measured from the first read and the closing one. */
  lemma ProbeOverChunks(input: ProbeInput, chunks: seq<seq<byte>>, t: int)
    requires WellFormed(input) && input.connected && input.written
    requires NonEmpty(chunks) && !CompletesWithin(Fresh(t), chunks)
    ensures input.script == Script(chunks, ReadFailed) ==> ProbeOf(input, t) == Failure
    ensures input.script == Reads(chunks) ==> ProbeOf(input, t) == Timeout
    ensures input.script == Script(chunks, Received([])) ==>
              var n := |chunks|;
              ProbeOf(input, t) ==
              Completed(Elapsed(Delta(input.startedAt, input.readAt[n]),
                                Delta(input.startedAt, input.connectAt),
                                Delta(input.connectAt, input.readAt[0]),
                                Delta(input.readAt[0], input.readAt[n])))
  {
    if input.script == Script(chunks, ReadFailed) {
      ProbeReadFails(input, chunks, t);
    }
    if input.script == Reads(chunks) {
      ProbeWaits(input, chunks, t);
    }
    if input.script == Script(chunks, Received([])) {
      ProbeCloses(input, chunks, t);
    }
  }

  lemma ProbeReadFails(input: ProbeInput, chunks: seq<seq<byte>>, t: int)
    requires WellFormed(input) && input.connected && input.written
    requires NonEmpty(chunks) && !CompletesWithin(Fresh(t), chunks)
    requires input.script == Script(chunks, ReadFailed)
    ensures ProbeOf(input, t) == Failure
  {
    DriveChunks(Fresh(t), false, None, None, chunks, ReadFailed, 0);
  }

  lemma ProbeWaits(input: ProbeInput, chunks: seq<seq<byte>>, t: int)
    requires WellFormed(input) && input.connected && input.written
    requires NonEmpty(chunks) && !CompletesWithin(Fresh(t), chunks)
    requires input.script == Reads(chunks)
    ensures ProbeOf(input, t) == Timeout
  {
    DriveReads(Fresh(t), false, None, None, chunks, 0);
  }

  lemma ProbeCloses(input: ProbeInput, chunks: seq<seq<byte>>, t: int)
    requires WellFormed(input) && input.connected && input.written
    requires NonEmpty(chunks) && !CompletesWithin(Fresh(t), chunks)
    requires input.script == Script(chunks, Received([]))
    ensures ProbeOf(input, t) == Completed(ElapsedAt(input, 0, |chunks|))
  {
    DriveChunks(Fresh(t), false, None, None, chunks, Received([]), 0);
  }

  /** A probe some chunk of which completes the announced body completes on that chunk,
      whatever would follow. */
  lemma ProbeCompletes(input: ProbeInput, chunks: seq<seq<byte>>, last: ReadResult, t: int)
    requires WellFormed(input) && input.connected && input.written
    requires NonEmpty(chunks) && CompletesWithin(Fresh(t), chunks)
    requires last == ReadFailed || last == Received([])
    requires input.script == Script(chunks, last) || input.script == Reads(chunks)
    ensures exists f :: 0 <= f < |chunks| && ProbeOf(input, t) == Completed(ElapsedAt(input, 0, f))
  {
    var d := ReadPhase(t, input.script);
    if input.script == Reads(chunks) {
      DriveReads(Fresh(t), false, None, None, chunks, 0);
    } else {
      DriveChunks(Fresh(t), false, None, None, chunks, last, 0);
    }
    var f := d.finishedAt.value;
    assert ProbeOf(input, t) == Completed(ElapsedAt(input, 0, f));
  }

  /** The phases of the completed results, in order. */
  function CompletedPhases(rs: seq<ProbeResult>): (es: seq<Elapsed>)
    ensures |es| <= |rs|
  {
    if rs == [] then []
    else
      var last := rs[|rs| - 1];
      CompletedPhases(rs[..|rs| - 1]) + (if last.Completed? then [last.elapsed] else [])
  }

  function FailureCount(rs: seq<ProbeResult>): (n: nat)
    ensures n <= |rs|
  {
    if rs == [] then 0
    else FailureCount(rs[..|rs| - 1]) + (if rs[|rs| - 1].Failure? then 1 else 0)
  }

  function TimeoutCount(rs: seq<ProbeResult>): (n: nat)
    ensures n <= |rs|
  {
    if rs == [] then 0
    else TimeoutCount(rs[..|rs| - 1]) + (if rs[|rs| - 1].Timeout? then 1 else 0)
  }

  /** The counters `main` keeps across probes, and the completed phases recorded. */
  datatype Counters = Counters(count: int, started: int, completed: int, failures: int,
                               timeouts: int, history: seq<Elapsed>)

  /** One probe's effect on the counters. */
  function After(c: Counters, r: ProbeResult): Counters {
    Counters(if c.count > 0 then c.count - 1 else c.count,
             c.started + 1,
             c.completed + (if r.Completed? then 1 else 0),
             c.failures + (if r.Failure? then 1 else 0),
             c.timeouts + (if r.Timeout? then 1 else 0),
             c.history + (if r.Completed? then [r.elapsed] else []))
  }

  /** `now` is `was` after the probes of the first `|results|` inputs, with `results`
      their outcomes. */
  predicate Accounts(now: Counters, was: Counters, inputs: seq<ProbeInput>, results: seq<ProbeResult>) {
    (forall i :: 0 <= i < |inputs| ==> WellFormed(inputs[i])) &&
    |results| <= |inputs| &&
    now.count == (if was.count < 0 then was.count else was.count - |results|) &&
    (was.count >= 0 ==> now.count >= 0) &&
    now.started == was.started + |results| &&
    (forall i :: 0 <= i < |results| ==> results[i] == ProbeOf(inputs[i], 0)) &&
    now.completed == was.completed + |CompletedPhases(results)| &&
    now.failures == was.failures + FailureCount(results) &&
    now.timeouts == was.timeouts + TimeoutCount(results) &&
    now.history == was.history + CompletedPhases(results)
  }

  /** One more pass of the main loop keeps the counters accounted for. */
  lemma AccountsSnoc(now: Counters, was: Counters, inputs: seq<ProbeInput>, results: seq<ProbeResult>,
                     r: ProbeResult)
    requires Accounts(now, was, inputs, results)
    requires now.count != 0 && |results| < |inputs| && r == ProbeOf(inputs[|results|], 0)
    ensures Accounts(After(now, r), was, inputs, results + [r])
  {
    ResultsSnoc(results, r);
    var rs := results + [r];
    assert forall i :: 0 <= i < |results| ==> rs[i] == results[i];
    assert forall i :: 0 <= i < |rs| ==> rs[i] == ProbeOf(inputs[i], 0);
  }

  lemma ResultsSnoc(rs: seq<ProbeResult>, r: ProbeResult)
    ensures CompletedPhases(rs + [r]) == CompletedPhases(rs) + (if r.Completed? then [r.elapsed] else [])
    ensures FailureCount(rs + [r]) == FailureCount(rs) + (if r.Failure? then 1 else 0)
    ensures TimeoutCount(rs + [r]) == TimeoutCount(rs) + (if r.Timeout? then 1 else 0)
  {
    assert (rs + [r])[..|rs|] == rs;
  }

  /** Every result is exactly one of completed, failed and timed out. */
  lemma {:induction false} ResultsAddUp(rs: seq<ProbeResult>)
    ensures |CompletedPhases(rs)| + FailureCount(rs) + TimeoutCount(rs) == |rs|
  {
    if rs != [] {
      ResultsAddUp(rs[..|rs| - 1]);
    }
  }

  /** The counters of the report. */
  datatype Tally = Tally(
    started: nat,
    completed: nat,
    failures: nat,
    timeouts: nat,
    total: PhaseStats,
    connect: PhaseStats,
    response: PhaseStats,
    data: PhaseStats)

  /** The summary of one phase in the report: min, average and max. */
  datatype PhaseSummary = PhaseSummary(min: int, avg: real, max: int)

  /** The report: the three percentages and, when a probe completed, the phases. */
  datatype Report = Report(
    completedPct: int,
    failuresPct: int,
    timeoutsPct: int,
    phases: Option<seq<PhaseSummary>>)

  function Summary(s: PhaseStats, k: nat): PhaseSummary
    requires k > 0
  {
    PhaseSummary(s.min, s.sum as real / k as real, s.max)
  }

  const Phases: seq<Phase> := [TotalPhase, ConnectPhase, ResponsePhase, DataPhase]

  /** The globals of `http_ping.c` that the probes change. */
  class HttpPing {
    var connState: ConnState
    var contentLength: int
    var bytes: int
    var totalBytes: int
    var gotResponse: bool
    var count: int
    var countStarted: nat
    var countCompleted: nat
    var countFailures: nat
    var countTimeouts: nat
    var total: PhaseStats
    var connect: PhaseStats
    var response: PhaseStats
    var data: PhaseStats
    /** The phases of every completed probe so far, which the source does not keep. */
    ghost var history: seq<Elapsed>

    function CurrentScan(): Scan
      reads this
    {
      Scan(Header(connState, contentLength), bytes, totalBytes)
    }

    function CurrentTally(): Tally
      reads this
    {
      Tally(countStarted, countCompleted, countFailures, countTimeouts, total, connect, response, data)
    }

    function StatsOf(p: Phase): PhaseStats
      reads this
    {
      match p
      case TotalPhase => total
      case ConnectPhase => connect
      case ResponsePhase => response
      case DataPhase => data
    }

    /** Every started probe is booked once, and each phase's running values are the
        sentinels folded with that phase of every completed probe, in order. */
    ghost predicate Valid()
      reads this
    {
      countStarted == countCompleted + countFailures + countTimeouts &&
      |history| == countCompleted &&
      total == RecordAll(Initial, Column(history, TotalPhase)) &&
      connect == RecordAll(Initial, Column(history, ConnectPhase)) &&
      response == RecordAll(Initial, Column(history, ResponsePhase)) &&
      data == RecordAll(Initial, Column(history, DataPhase))
    }

    /** The initialisation in `main` (http_ping.c:160, 252-259); `count` is whatever
        the command line made it. */
    constructor (count: int)
      ensures Valid()
      ensures this.count == count && totalBytes == 0 && history == []
      ensures CurrentTally() == Tally(0, 0, 0, 0, Initial, Initial, Initial, Initial)
    {
      connState := Bol;
      contentLength := 0;
      bytes := 0;
      totalBytes := 0;
      gotResponse := false;
      this.count := count;
      countStarted, countCompleted, countFailures, countTimeouts := 0, 0, 0, 0;
      total, connect, response, data := Initial, Initial, Initial, Initial;
      history := [];
    }

    /** `start_connection`: resets the per-probe globals, then connects and writes the
        request; only a successful write resets the scanner to `ST_BOL`. */
    method StartConnection(connected: bool, written: bool) returns (ok: bool)
      modifies this
      ensures ok == (connected && written)
      ensures !gotResponse && contentLength == -1 && bytes == 0
      ensures connState == if ok then Bol else old(connState)
      ensures totalBytes == old(totalBytes) && count == old(count)
      ensures CurrentTally() == old(CurrentTally()) && history == old(history)
    {
      gotResponse := false;
      contentLength := -1;
      bytes := 0;
      if !connected {
        return false;
      }
      if !written {
        return false;
      }
      connState := Bol;
      ok := true;
    }

    /** The inner `for` loop of `handle_read` over the first `n` bytes of `buf`: header
        bytes one at a time through `Step`, and in `ST_DATA` the rest of the buffer at
        once, followed by the completion test. */
    method ScanBuffer(buf: array<byte>, n: int) returns (complete: bool)
      requires 0 < n <= buf.Length
      modifies this
      ensures CurrentScan() == ScanChunk(old(CurrentScan()), buf[..n]).scan
      ensures complete == ScanChunk(old(CurrentScan()), buf[..n]).complete
      ensures gotResponse == old(gotResponse) && count == old(count)
      ensures CurrentTally() == old(CurrentTally()) && history == old(history)
    {
      var handled := 0;
      while handled < n
        invariant 0 <= handled <= n
        invariant ScanChunk(CurrentScan(), buf[handled..n]) == ScanChunk(old(CurrentScan()), buf[..n])
        invariant gotResponse == old(gotResponse) && count == old(count)
        invariant CurrentTally() == old(CurrentTally()) && history == old(history)
      {
        if connState == Data {
          bytes := bytes + (n - handled);
          totalBytes := totalBytes + (n - handled);
          handled := n;
          if contentLength != -1 && bytes >= contentLength {
            return true;
          }
          assert buf[handled..n] == [];
        } else {
          assert buf[handled..n][1..] == buf[handled + 1..n];
          var h := Step(Header(connState, contentLength), buf[handled]);
          connState, contentLength := h.state, h.contentLength;
          handled := handled + 1;
        }
      }
      complete := false;
    }

    /** `handle_read`: reads until an error, a close or a complete body; the read index
        stands for the clock reading taken at `response_at` and at `finished_at`. */
    method HandleRead(script: seq<ReadResult>) returns (outcome: Outcome, responseAt: Option<nat>,
                                                        finishedAt: Option<nat>)
      requires forall i :: 0 <= i < |script| && script[i].Received? ==>
                 |script[i].data| <= ReadBufferSize
      modifies this
      ensures var d := Drive(old(CurrentScan()), old(gotResponse), None, None, script);
              outcome == d.outcome && CurrentScan() == d.scan && gotResponse == d.gotResponse &&
              responseAt == d.responseAt && finishedAt == d.finishedAt
      ensures count == old(count) && CurrentTally() == old(CurrentTally()) && history == old(history)
    {
      var buf := new byte[ReadBufferSize];
      responseAt, finishedAt := None, None;
      var i := 0;
      while i < |script|
        invariant 0 <= i <= |script|
        invariant DriveFrom(CurrentScan(), gotResponse, responseAt, finishedAt, script[i..], i) ==
                  Drive(old(CurrentScan()), old(gotResponse), None, None, script)
        invariant count == old(count) && CurrentTally() == old(CurrentTally()) && history == old(history)
      {
        assert script[i..][1..] == script[i + 1..];
        match script[i]
        case ReadFailed =>
          return Failed, responseAt, finishedAt;
        case Received(chunk) =>
          if !gotResponse {
            gotResponse := true;
            responseAt := Some(i);
          }
          if chunk == [] {
            finishedAt := Some(i);
            return Succeeded, responseAt, finishedAt;
          }
          forall k | 0 <= k < |chunk| {
            buf[k] := chunk[k];
          }
          assert buf[..|chunk|] == chunk;
          var complete := ScanBuffer(buf, |chunk|);
          if complete {
            finishedAt := Some(i);
            return Succeeded, responseAt, finishedAt;
          }
          i := i + 1;
      }
      outcome := Waiting;
    }

    /** One probe of the main loop (http_ping.c:290-326): `count_started` goes up, then
        exactly one of `count_failures`, `count_timeouts` (the alarm's handler) and
        `count_completed` with the phases recorded. */
    method Probe(input: ProbeInput) returns (result: ProbeResult)
      requires Valid() && WellFormed(input)
      modifies this
      ensures Valid()
      ensures result == ProbeOf(input, old(totalBytes))
      ensures countStarted == old(countStarted) + 1 && count == old(count)
      ensures countCompleted == old(countCompleted) + (if result.Completed? then 1 else 0)
      ensures countFailures == old(countFailures) + (if result.Failure? then 1 else 0)
      ensures countTimeouts == old(countTimeouts) + (if result.Timeout? then 1 else 0)
      ensures history == old(history) + (if result.Completed? then [result.elapsed] else [])
      ensures input.connected && input.written ==>
                CurrentScan() == ReadPhase(old(totalBytes), input.script).scan &&
                gotResponse == ReadPhase(old(totalBytes), input.script).gotResponse
      ensures !(input.connected && input.written) ==>
                connState == old(connState) && contentLength == -1 && bytes == 0 &&
                totalBytes == old(totalBytes) && !gotResponse
    {
      countStarted := countStarted + 1;
      var ok := StartConnection(input.connected, input.written);
      if !ok {
        countFailures := countFailures + 1;
        return Failure;
      }
      assert CurrentScan() == Fresh(old(totalBytes));
      var outcome, r, f := HandleRead(input.script);
      match outcome
      case Failed =>
        countFailures := countFailures + 1;
        result := Failure;
      case Waiting =>
        countTimeouts := countTimeouts + 1;
        result := Timeout;
      case Succeeded =>
        FirstReadDecides(Fresh(old(totalBytes)), None, None, input.script);
        SucceededHasFinish(Fresh(old(totalBytes)), false, None, None, input.script, 0);
        var e := ElapsedAt(input, r.value, f.value);
        RecordCompletion(e);
        result := Completed(e);
    }

    /** `count_completed` goes up and each phase is recorded (http_ping.c:310-326). */
    method RecordCompletion(e: Elapsed)
      requires countStarted == countCompleted + countFailures + countTimeouts + 1
      requires |history| == countCompleted
      requires total == RecordAll(Initial, Column(history, TotalPhase))
      requires connect == RecordAll(Initial, Column(history, ConnectPhase))
      requires response == RecordAll(Initial, Column(history, ResponsePhase))
      requires data == RecordAll(Initial, Column(history, DataPhase))
      modifies this
      ensures Valid()
      ensures history == old(history) + [e] && countCompleted == old(countCompleted) + 1
      ensures countStarted == old(countStarted) && countFailures == old(countFailures)
      ensures countTimeouts == old(countTimeouts) && count == old(count)
      ensures CurrentScan() == old(CurrentScan()) && gotResponse == old(gotResponse)
    {
      RecordSnoc(history, e, TotalPhase);
      RecordSnoc(history, e, ConnectPhase);
      RecordSnoc(history, e, ResponsePhase);
      RecordSnoc(history, e, DataPhase);
      countCompleted := countCompleted + 1;
      total := Record(total, Pick(e, TotalPhase));
      connect := Record(connect, Pick(e, ConnectPhase));
      response := Record(response, Pick(e, ResponsePhase));
      data := Record(data, Pick(e, DataPhase));
      history := history + [e];
    }

    /** The main loop over the probes the world allows: it stops when `count` reaches 0
        or the inputs run out (where the source waits for `SIGTERM`). */
    method Run(inputs: seq<ProbeInput>) returns (results: seq<ProbeResult>)
      requires Valid() && forall i :: 0 <= i < |inputs| ==> WellFormed(inputs[i])
      modifies this
      ensures Valid()
      ensures |results| == if old(count) < 0 then |inputs| else Min(old(count), |inputs|)
      ensures count == if old(count) < 0 then old(count) else old(count) - |results|
      ensures countStarted == old(countStarted) + |results|
      ensures forall i :: 0 <= i < |results| ==> results[i] == ProbeOf(inputs[i], 0)
      ensures countCompleted == old(countCompleted) + |CompletedPhases(results)|
      ensures countFailures == old(countFailures) + FailureCount(results)
      ensures countTimeouts == old(countTimeouts) + TimeoutCount(results)
      ensures history == old(history) + CompletedPhases(results)
    {
      results := [];
      while count != 0 && |results| < |inputs|
        invariant Valid()
        invariant Accounts(CurrentCounters(), old(CurrentCounters()), inputs, results)
        decreases |inputs| - |results|
      {
        ghost var before := CurrentCounters();
        var r := RunOne(inputs[|results|]);
        AccountsSnoc(before, old(CurrentCounters()), inputs, results, r);
        results := results + [r];
      }
    }

    ghost function CurrentCounters(): Counters
      reads this
    {
      Counters(count, countStarted, countCompleted, countFailures, countTimeouts, history)
    }

    /** One pass of the main loop: `count` goes down unless it is negative, then the
        input is probed. */
    method RunOne(input: ProbeInput) returns (r: ProbeResult)
      requires Valid() && WellFormed(input)
      modifies this
      ensures Valid()
      ensures r == ProbeOf(input, 0)
      ensures CurrentCounters() == After(old(CurrentCounters()), r)
    {
      if count > 0 {
        count := count - 1;
      }
      ProbeOfShift(input, totalBytes, 0);
      r := Probe(input);
    }

    /** Min, average and max of the four phases, each average between its min and max. */
    function Summaries(): (r: seq<PhaseSummary>)
      reads this
      requires Valid() && countCompleted > 0
      ensures |r| == 4
      ensures forall i :: 0 <= i < 4 ==> r[i].min as real <= r[i].avg <= r[i].max as real
    {
      PhaseBounds(history, countCompleted, total, TotalPhase);
      PhaseBounds(history, countCompleted, connect, ConnectPhase);
      PhaseBounds(history, countCompleted, response, ResponsePhase);
      PhaseBounds(history, countCompleted, data, DataPhase);
      [Summary(total, countCompleted), Summary(connect, countCompleted),
       Summary(response, countCompleted), Summary(data, countCompleted)]
    }

    /** The report (http_ping.c:336-357): each count as a whole percentage of the
        started probes and, after a completion, min, average and max of each phase. */
    function CurrentReport(): (r: Report)
      reads this
      requires Valid() && countStarted > 0
      ensures 0 <= r.completedPct && 0 <= r.failuresPct && 0 <= r.timeoutsPct
      ensures r.completedPct + r.failuresPct + r.timeoutsPct <= 100
      ensures r.phases.Some? <==> countCompleted > 0
      ensures r.phases.Some? ==> r.phases.value == Summaries()
    {
      PercentBounds(countCompleted, countFailures, countTimeouts, countStarted);
      var phases := if countCompleted == 0 then None else Some(Summaries());
      Report(Percent(countCompleted, countStarted), Percent(countFailures, countStarted),
             Percent(countTimeouts, countStarted), phases)
    }
  }

  lemma ColumnSnoc(es: seq<Elapsed>, e: Elapsed)
    ensures forall p :: Column(es + [e], p) == Column(es, p) + [Pick(e, p)]
    ensures forall p :: Column(es + [e], p)[..|es|] == Column(es, p)
    ensures forall p :: |Column(es, p)| == |es| && |Column(es + [e], p)| == |es| + 1
    ensures forall p :: Column(es + [e], p)[|es|] == Pick(e, p)
  {
    forall p
      ensures Column(es + [e], p) == Column(es, p) + [Pick(e, p)]
    {
      assert forall i :: 0 <= i < |es| ==> (es + [e])[i] == es[i];
    }
  }

  lemma RecordSnoc(es: seq<Elapsed>, e: Elapsed, p: Phase)
    ensures RecordAll(Initial, Column(es + [e], p)) == Record(RecordAll(Initial, Column(es, p)), Pick(e, p))
  {
    ColumnSnoc(es, e);
  }

  /** The average of a phase lies between its minimum and maximum. */
  lemma PhaseBounds(es: seq<Elapsed>, k: nat, s: PhaseStats, p: Phase)
    requires k == |es| > 0 && s == RecordAll(Initial, Column(es, p))
    ensures s.min as real <= Summary(s, k).avg <= s.max as real
  {
    Bounds(Column(es, p));
    AverageBetween(s.min, s.sum, s.max, k);
  }

  lemma AverageBetween(lo: int, sum: int, hi: int, k: nat)
    requires k > 0 && lo * k <= sum <= hi * k
    ensures lo as real <= sum as real / k as real <= hi as real
  {
    assert (lo * k) as real == lo as real * k as real;
    assert (hi * k) as real == hi as real * k as real;
  }

  /** Every completed probe's phases lie between the reported minimum and maximum. */
  lemma RecordedWithinBounds(es: seq<Elapsed>, p: Phase, i: nat)
    requires i < |es|
    ensures RecordAll(Initial, Column(es, p)).min <= Pick(es[i], p) <= RecordAll(Initial, Column(es, p)).max
  {
    Bounds(Column(es, p));
    assert Column(es, p)[i] == Pick(es[i], p);
  }
}
