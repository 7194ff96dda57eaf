# http_ping, modelled in Dafny

`http_ping` measures how long HTTP fetches take. It fetches one URL repeatedly. For each fetch
(a *probe*) it times four phases: connecting, waiting for the first response byte, receiving
the body, and the whole probe. At the end it reports counts, percentages and min/avg/max per
phase. Everything lives in `http_ping.c`. This project models the deterministic core of that
file and proves properties of the model:

- **`Scanner`** (`scanner.dfy`): the byte-level response scanner of `handle_read`.
  - It has the 24 `ST_` states. The fourteen name-matching states are written `Name(k)`, and
    `Code` gives each state its C constant.
  - `Step` is one iteration of the `switch`, and `Run` folds it over a byte string.
  - `ScanChunk` is the inner `for` loop over one read. In `ST_DATA` it takes the rest of the
    chunk at once.
  - The scanner finds the blank line that ends the headers, picks up a case-insensitive
    `Content-Length:` value, and counts body bytes.
- **`Reader`** (`reader.dfy`): the outer read loop of `handle_read`.
  - It runs over a scripted sequence of read results: an error, a close, or a chunk.
  - It records on which read `response_at` and `finished_at` are taken.
- **`Time`** (`time.dfy`): `delta_timeval` on `(tv_sec, tv_usec)` pairs.
- **`Stats`** (`stats.dfy`): the running min/max/sum of each phase, started from the
  1e9 / -1e9 / 0 sentinels, and the `n * 100 / count_started` percentages.
- **`CStrings`** (`cstrings.dfy`): the C library behaviour the parsers rely on.
  - `strncmp` used as a prefix test, `strchr`, and `atoi`. `Atoi` is the exact decimal value.
    `AtoiInt` is glibc's `(int) strtol`: it saturates at the `long` range, then it is cut
    to 32 bits.
  - `%d`, `%.500s` and `strncpy` truncation.
  - The `(unsigned short)` cast.
- **`Url`** (`url.dfy`): `parse_url`.
  - The reference function is `UrlOf`. The method `ParseUrl` has the source's two `cp`
    loops and is proved equal to it.
- **`Request`** (`request.dfy`): the request text `start_connection` composes.
  - A reference reader, `ParseRequest`, takes the composed request apart again.
- **`Options`** (`options.dfy`): the command line of `main`.
  - The reference function is `ArgsFrom`, the flag loop started from any initial option
    values.
  - `ArgsAsWritten` starts from the values `main` sets, so `timeout` is the static zero.
  - `ArgsOf` starts from the intended default `timeout` of 15.
  - The method `ParseArgs` has the source's `argn` loop. It is proved equal to `ArgsFrom`
    for any start, and so to `ArgsAsWritten` and to `ArgsOf` for theirs.
- **`Ping`** (`http_ping.dfy`): the process globals as the class `HttpPing`, and the steps
  `main` drives them through.
  - `StartConnection`, `ScanBuffer` (an `array` of 5000 bytes scanned in place) and
    `HandleRead` change the scanner globals.
  - `Probe` books one probe into the counters and statistics. Its result is `ProbeOf`, and
    its new scanner state is the reference read loop's.
  - `Run` is the main loop with its `count` logic. For each probe, the result is `ProbeOf`
    of its input. Each counter moves by the count of its kind among the results. The
    recorded phases are those of the completed results, in order.
  - `CurrentReport` gives the final percentages and min/avg/max.

The world is a parameter in every case:

- A `ProbeInput` says whether the socket connects and the write succeeds.
- It also gives the script of read results and the clock readings.
- When the script runs out before `handle_read` returns, the probe is a timeout. In the
  source, this is where `read` blocks until `SIGALRM` fires.

Times are integer microseconds, exactly as `delta_timeval` computes them. The source divides
them by 1000.0 into `float` milliseconds.

How the scanner frames a response, and how that compares with HTTP/1.1 message framing
(RFC 9112):

- CR LF CR does not end the headers. It only reaches `ST_CRLFCR`, and one more CR or LF is
  needed (`Scanner.CrLfCrIsNotTerminator`).
- The headers end only on a CR or LF that follows a line end (`Scanner.Step`). The
  terminators are `\n\n`, `\r\r`, `\r\n\n`, `\r\n\r\n` and `\r\n\r\r`, each from mid-line
  (`Scanner.TerminatorEndsHeaders`). From `ST_LF`, a single further `\n` ends the headers.
  Section 2.2 of RFC 9112 lets a recipient accept a bare LF as a line terminator.
- At least one space or tab must follow `Content-Length:`. A digit right after the colon
  abandons the match (`Scanner.ColonNeedsBlank`). Section 5 of RFC 9112 makes that
  whitespace optional, so for `Content-Length:42` the program ignores the length and reads
  until the server closes.
- The chunk that completes the body is counted in full (`Scanner.ScanChunk`). So `bytes`
  can exceed `content_length`, where section 6.3 of RFC 9112 ends the body after exactly
  that many octets.

`Url` and `Request` follow the build with `USE_SSL`: `https://` is accepted when `withSsl`
holds, and the proxy request line names the URL's own scheme.

## Model

| member | source | states |
|---|---|---|
| Scanner.Code | http_ping.c:85-108 | each state's C constant is in 0..23, and the name-matching states are exactly constants 6..19 |
| Scanner.CodeInjective | http_ping.c:85-108 | distinct states have distinct constants, so the compact state type is the source's numbering |
| Scanner.Step | http_ping.c:744-1155 | one byte of header scanning: `ST_DATA` is left as it is, and `ST_DATA` is reached only from `ST_LF`, `ST_CR`, `ST_CRLF` or `ST_CRLFCR` on a LF or a CR |
| Scanner.Run | http_ping.c:740-1155 | header scanning of a byte string, one `Step` per byte in order (a definition; `Scanner.RunData` and `Scanner.BodyCountAppend` state its properties) |
| Scanner.TerminatorEndsHeaders | http_ping.c:744-843 | from a mid-line state, each of `\n\n`, `\r\r`, `\r\n\n`, `\r\n\r\n`, `\r\n\r\r` reaches `ST_DATA` on its last byte and on no shorter prefix, keeping `content_length` |
| Scanner.CrLfCrIsNotTerminator | http_ping.c:800-843 | CR LF CR from a mid-line state ends in `ST_CRLFCR`, not `ST_DATA` |
| Scanner.LineStartOtherByte | http_ping.c:744-843 | at a line start, any byte other than CR, LF and C/c goes to `ST_TEXT` with the length unchanged |
| Scanner.NameStartsOnlyAtLineStart | http_ping.c:744-860 | the first name state is reached exactly from a line-start state on `C` or `c` |
| Scanner.PartialMatchLineEnd | http_ping.c:851-856 | LF and CR inside a partial `Content-Length` match go to `ST_LF` and `ST_CR` and keep the length |
| Scanner.LengthWrittenOnlyByDigits | http_ping.c:1115-1155 | `content_length` changes only on a digit after the colon and blanks; the first digit overwrites it, later digits give `len * 10 + d`, a non-digit keeps it |
| Scanner.HeaderLineSetsLength | http_ping.c:845-1136 | a case-insensitive `Content-Length:` at a line start, then blanks, then digits, sets the length to the digits' decimal value |
| Scanner.ColonNeedsBlank | http_ping.c:1097-1112 | `Content-Length:` followed directly by a non-blank abandons the match and keeps the old length |
| Scanner.AccumulateBound | http_ping.c:1120-1155 | folding `n` digits into `acc` gives a value in `[acc * 10^n, (acc + 1) * 10^n)` |
| Scanner.ShortLengthsFit | http_ping.c:1137-1155 | a length of at most 18 digits fits a 64-bit `long`, so there the unbounded model and the unguarded C arithmetic agree |
| Scanner.ScanChunk | http_ping.c:740-1168 | after one chunk, completion implies `content_length != -1` and `bytes >= content_length`; `bytes` only grows and `total_bytes` grows by the same amount |
| Scanner.ScanChunkShift | http_ping.c:1157-1160 | the starting `total_bytes` changes neither the completion nor the state other than the final total, which shifts by the same amount |
| Scanner.RunData | http_ping.c:1157-1166 | `ST_DATA` is final: header scanning changes nothing once there |
| Scanner.BodyCountData | http_ping.c:1157-1160 | in `ST_DATA` every byte is counted as body |
| Scanner.BodyMeansData | http_ping.c:1157-1160 | a body byte is counted only after `ST_DATA` is reached |
| Scanner.BodyCountAppend | http_ping.c:740-1166 | the body count of a concatenation is the first part's count plus the second's from the state the first leaves |
| Scanner.ScanStreamAppend | http_ping.c:740-1166 | the stream-level reference state of `a + b` is that of `a`, then `b` |
| Scanner.ScanChunkIsStream | http_ping.c:740-1166 | one chunk through the inner loop gives the stream-level reference state, and it completes exactly when the stream-level condition holds |
| Scanner.ScanChunksIsStream | http_ping.c:740-1166 | any sequence of chunks leaves the state of their concatenation |
| Scanner.CompletesWithinIff | http_ping.c:1157-1166 | some chunk passes the completion test if and only if the concatenated stream meets it |
| Scanner.ChunkingInvariance | http_ping.c:740-1166 | two splits of the same stream leave the same `conn_state`, `content_length`, `bytes` and `total_bytes`, and agree on completion |
| Scanner.NoBodyBeforeData | http_ping.c:1157-1160 | a stream none of whose prefixes reaches `ST_DATA` counts no body |
| Scanner.BodyAfterTerminator | http_ping.c:1157-1166 | the body count is exactly the number of bytes after the first prefix that reaches `ST_DATA`, whatever the split |
| Reader.DriveFrom | http_ping.c:711-739 | the read loop from read `i` on (a definition): a failing read returns 0; the first successful read takes `response_at`; a close takes `finished_at` and returns 1; a chunk is scanned and, when it completes the body, takes `finished_at` and returns 1; otherwise the loop reads again; a script that runs out leaves it waiting |
| Reader.Drive | http_ping.c:705-739 | `handle_read`: the read loop from read 0 (a definition) |
| Reader.ResponseAtKept | http_ping.c:728-732 | once `got_response` is set it stays set, and `response_at` is not taken again |
| Reader.FirstReadDecides | http_ping.c:722-732 | with no read the loop is still waiting; a failing first read fails with nothing recorded; any successful first read, even a close, sets `response_at` to that read |
| Reader.SucceededHasFinish | http_ping.c:733-739 | a loop that returns 1 took `finished_at` at a read it reached, and that read succeeded |
| Reader.Script | http_ping.c:711-739 | the scripted reads are exactly the chunks, each a successful read in order, followed by `last` |
| Reader.Reads | http_ping.c:711-739 | the scripted reads are exactly the chunks, each a successful read in order, with no result after them |
| Reader.DriveChunks | http_ping.c:711-1168 | over chunks then a close or an error: if some chunk completes the body the probe succeeds there with the body complete; otherwise the state is that of the chunks, an error fails and a close succeeds on the closing read |
| Reader.DriveReads | http_ping.c:711-1168 | over chunks with no result after them: if some chunk completes the body the loop succeeds on one of these chunks; otherwise it is still waiting with the state of all the chunks |
| Reader.DriveShift | http_ping.c:711-1168 | the starting `total_bytes` changes neither the outcome, `got_response`, `response_at`, `finished_at`, the header state nor `bytes` |
| Reader.SplitInvariance | http_ping.c:711-739 | two splits of the same byte stream, ending the same way, give the same outcome, and without a completing chunk the same final state, the stream's |
| Time.Delta | http_ping.c:1203-1209 | `delta_timeval` is the difference of the two readings in microseconds |
| Time.DeltaAdditive | http_ping.c:1203-1209 | consecutive deltas add up: connect + response + data == total exactly |
| Time.DeltaSign | http_ping.c:1203-1209 | for readings with `tv_usec` in range, the delta is non-negative exactly when `finish` is not earlier than `start` |
| Stats.Record | http_ping.c:314-325 | one completion folded into a phase: `min( min_x, e )`, `max( max_x, e )` and `sum_x += e` (a definition) |
| Stats.RecordAll | http_ping.c:314-325 | the phase values folded in order from the starting values (a definition; `Stats.RecordAllIsExact` states the result) |
| Stats.MinMaxOfBound | http_ping.c:314-321 | the exact minimum and maximum of recorded values bound every value and are attained |
| Stats.RecordAllIsExact | http_ping.c:255-325 | the sum is the exact total, and min and max are the exact extremes folded with the sentinels |
| Stats.Bounds | http_ping.c:314-356 | after k >= 1 completions, min <= every value <= max and min * k <= sum <= max * k |
| Stats.SumBetween | http_ping.c:322-325 | values in `[lo, hi]` sum to between `lo * k` and `hi * k` |
| Stats.ExactWithinSentinels | http_ping.c:257-321 | when all values lie strictly between the sentinels, the reported min and max are the exact ones |
| Stats.Percent | http_ping.c:340-342 | `n * 100 / count_started` with C integer division, which for these non-negative operands is the same as Dafny's (a definition; `Stats.PercentBounds` states its bounds) |
| Stats.PercentBounds | http_ping.c:340-342 | each percentage is in 0..100, and the three add up to at most 100 |
| CStrings.StrncmpPrefix | http_ping.c:170 | `strncmp(a, b, strlen(a)) == 0` holds exactly when `a` is a prefix of `b` |
| CStrings.IndexOf | http_ping.c:210 | `strchr`'s index: the first `c`, or the length when there is none |
| CStrings.Truncate | http_ping.c:414-418 | `%.500s` and `strncpy` keep a prefix of at most n characters, the whole string when it is short enough |
| CStrings.UnsignedShort | http_ping.c:421 | the cast lands in 0..65535 and leaves values in range unchanged |
| CStrings.Atoi | http_ping.c:172 | `atoi` without its integer width (a definition): leading whitespace skipped, an optional sign, then the exact value of the decimal digits up to the first non-digit |
| CStrings.Int | http_ping.c:172 | the `(int)` conversion: the result is in the `int` range, equal to the input modulo 2^32, and the input itself when that is in range |
| CStrings.AtoiInt | http_ping.c:172 | `atoi` as glibc computes it, an `int`: always in the `int` range, and the exact decimal value whenever that fits |
| CStrings.Decimal | http_ping.c:513-519 | `%d` writes only digits, with no leading zero |
| CStrings.AtoiDecimal | http_ping.c:170-178 | `atoi` reads back what `%d` wrote, up to the first non-digit |
| CStrings.AtoiNegative | http_ping.c:188-196 | `atoi` reads back a negative number written with `-` |
| Url.HostEnd | http_ping.c:411-413 | the first loop stops at the first `:` or `/` after the scheme, or at the end |
| Url.PathStart | http_ping.c:422-423 | the second loop stops at the first `/` after the `:`, or at the end |
| Url.PortOf | http_ping.c:419-430 | `url_port`: with a `:` after the host, the `(unsigned short)` cast of `atoi` of the text after it, else 443 for `https` and 80 for `http` (a definition; `Url.SplitWithPort` and `Url.SplitWithoutPort` state it on composed URLs) |
| Url.HostOf | http_ping.c:414-418 | the host keeps fewer than 5000 characters |
| Url.PathOf | http_ping.c:434-437 | the path always starts with `/` |
| Url.Split | http_ping.c:411-437 | the protocol, host, port and path after a scheme prefix (a definition; `Url.UrlOf` and `Url.ParseComposed` state its properties) |
| Url.UrlOf | http_ping.c:383-438 | an error exactly when the URL starts with neither `http://` nor, with SSL, `https://`; `https` only with SSL; host below 5000 characters; path starting with `/` |
| Url.ParseUrl | http_ping.c:383-438 | the imperative `parse_url` computes `UrlOf` |
| Url.SplitUrl | http_ping.c:411-437 | the two `cp` loops, the `strncpy`, the port and the path compute the reference split |
| Url.ScanHost | http_ping.c:411-413 | the first loop ends at `HostEnd` |
| Url.ScanPort | http_ping.c:422-423 | the second loop ends at `PathStart` |
| Url.HostSlice | http_ping.c:414-418 | `min(host_len, 4999)` characters from the scheme are the truncated host |
| Url.AtoiStopsAtSlash | http_ping.c:421 | `atoi` after the `:` reads only the port text, not the path after it |
| Url.SchemeDecides | http_ping.c:394-409 | a URL after `http://` (or, with SSL, `https://`) is split after that scheme with that protocol |
| Url.ParseComposed | http_ping.c:383-438 | round trip: scheme, host without `:` or `/`, optional `:port` and path split back into that protocol, host, `atoi` of the port cast or the default 80/443, and the path or `/` |
| Url.SplitComposed | http_ping.c:411-437 | the split of a host, optional `:port` and path after any scheme prefix |
| Url.SplitWithPort | http_ping.c:419-437 | with `:port`, the port is the cast `atoi` of its text and the path follows it |
| Url.SplitWithoutPort | http_ping.c:424-437 | without `:`, the protocol's default port and the rest as path |
| Url.HostAt | http_ping.c:411-418 | the host runs exactly up to the first `:` or `/` |
| Url.PortAt | http_ping.c:419-423 | after `:`, `atoi` reads only the port text and the path starts after it |
| Url.PathAfter | http_ping.c:422-437 | the path starts where a stretch without `/` is followed by one |
| Request.RequestText | http_ping.c:509-527 | the request line (`GET` of the absolute URI over HTTP/1.0 through a proxy, else the method or `GET`, the path cut to 500, HTTP/1.1), the `Host` line with the vhost or the host, `User-Agent: http_ping` and `Connection: Close` with the blank line (a definition; `Request.ParseRequestText` reads it back) |
| Request.Cut | http_ping.c:509-527 | the text before the first separator, which holds none, and the text after it put back together give the input |
| Request.ParseRequest | http_ping.c:509-527 | a request read back has a method and target without spaces, and a version and `Host` value without CR |
| Request.CutAt | http_ping.c:509-527 | cutting at the first separator undoes appending it after a text without one |
| Request.ParseRequestText | http_ping.c:509-527 | round trip: the composed request reads back as its method (or `GET`, always through a proxy), target (path cut to 500, or the absolute URI through a proxy), version (HTTP/1.1, or HTTP/1.0 through a proxy) and `Host` (vhost or host) |
| Request.ParseLines | http_ping.c:509-527 | a request line, `Host` line and the two fixed headers read back as their four parts |
| Request.RequestLength | http_ping.c:509-527 | the request is 56 characters longer than its method, target, version and `Host` value together |
| Request.DirectRequestFits | http_ping.c:517-527 | a direct `GET` with a `Host` value of at most 32 characters fits the 600-byte buffer, whatever the path |
| Options.ProxyOf | http_ping.c:205-218 | the proxy host is the argument up to its first `:` and holds no `:`; without a `:` the port is 80, with one it is the `(unsigned short)` cast of `atoi` of the text after it |
| Options.ApplyFlag | http_ping.c:170-233 | one flag advances `argn` within the arguments, and `count`, `interval` and `timeout` take the `int` value glibc's `atoi` gives their text; it keeps `count` unlimited or positive, `interval` >= 0 and moves `timeout` to at least 1 once it was |
| Options.ParseFlags | http_ping.c:168-234 | the flag loop stops at the first non-flag or the end, and keeps the option bounds |
| Options.ArgsFrom | http_ping.c:168-245 | from any starting option values: an accepted command line ends with exactly one URL that is not a flag, has no request file, and keeps the option bounds |
| Options.ArgsAsWritten | http_ping.c:158-245 | accepted options as written have `count` unlimited or positive, `interval` >= 0 and `timeout` >= 0 only |
| Options.ArgsOf | http_ping.c:158-245 | with the intended default, accepted options have `count` unlimited or positive, `interval` >= 0 and `timeout` >= 1 |
| Options.ParseArgs | http_ping.c:158-245 | from any starting option values, the imperative `argn` loop computes `ArgsFrom`; from the values as written that is `ArgsAsWritten`, from the intended default `ArgsOf` |
| Options.NoTimeoutByDefault | http_ping.c:158-245 | as written, a command line without `-timeout` runs with `timeout` 0 |
| Options.CountRoundTrip | http_ping.c:170-178 | `-count n url` with `n` in the `int` range reads back the count `%d` writes and the URL |
| Options.CountWrapsNegative | http_ping.c:170-178 | a count between 2^31 and 2^32 wraps to a negative `int`, and the command line is refused |
| Options.TimeoutWraps | http_ping.c:188-196 | a timeout between 2^32 and 2^32 + 2^31 wraps around: `-timeout 4294967297` sets one second |
| Options.ProxyComposed | http_ping.c:205-218 | round trip: `-proxy` takes `host` back apart into the host and port 80, and `host:port` into the host and the cast `atoi` of the port |
| Options.AbbreviationIsUnique | http_ping.c:170-231 | an abbreviation of at least two characters is a prefix of one flag name only |
| Options.AbbreviationsAgree | http_ping.c:170-231 | any abbreviation of a flag does exactly what its full name does |
| Options.SameMatches | http_ping.c:170-231 | an abbreviation matches a flag name exactly when its full name does |
| Ping.ElapsedAt | http_ping.c:301-308 | total == connect + response + data for the four phases of a probe |
| Ping.ProbeOf | http_ping.c:290-326 | a completed probe connected and wrote its request, and its phases add up |
| Ping.ProbeOfShift | http_ping.c:290-326 | the `total_bytes` a probe starts with does not decide its result |
| Ping.ProbeUnsent | http_ping.c:292-293 | a probe whose connect or write fails is a failure |
| Ping.ProbeOverChunks | http_ping.c:290-326 | when no chunk completes the announced body: a final read error is a failure, no final read is a timeout, and a close completes with total, connect, response and data measured from the start, the connection, the first read and the closing read |
| Ping.ProbeCompletes | http_ping.c:290-326 | when some chunk completes the announced body, the probe completes with `finished_at` at one of the chunks, whatever read would follow |
| Ping.ResultsAddUp | http_ping.c:290-300 | every result is exactly one of completed, failed and timed out |
| Ping.AccountsSnoc | http_ping.c:282-333 | one more pass of the main loop, with `count` not 0, keeps the counters and the recorded phases accounted for by the results |
| Ping.HttpPing.constructor | http_ping.c:255-259 | all counters zero, all statistics at their sentinels, no history; the invariant holds |
| Ping.HttpPing.StartConnection | http_ping.c:461-545 | resets `got_response`, `content_length` and `bytes`; succeeds exactly when connect and write do; sets `ST_BOL` only on success; nothing else changes |
| Ping.HttpPing.ScanBuffer | http_ping.c:740-1168 | the in-place scan of `buf[0..n)` leaves the state and completion of `ScanChunk`, and changes nothing else |
| Ping.HttpPing.HandleRead | http_ping.c:705-1168 | outcome, scanner globals, `got_response`, `response_at` and `finished_at` are those of the reference read loop |
| Ping.HttpPing.Probe | http_ping.c:290-326 | the result is `ProbeOf`; `count_started` goes up by one and exactly one of completed, failures and timeouts does; a completion is appended to the recorded phases; after a connect and write the scanner globals and `got_response` are those of the reference read loop, otherwise `content_length` is -1, `bytes` 0 and `got_response` unset; the invariant is kept |
| Ping.HttpPing.RecordCompletion | http_ping.c:300-325 | `count_completed` goes up and every phase's running values fold in the new probe; the invariant holds |
| Ping.HttpPing.Run | http_ping.c:282-333 | the loop runs all probes with `count` -1, else `min(count, probes)`, and `count` goes down by one per probe; the i-th result is `ProbeOf` of the i-th input; `count_completed`, `count_failures` and `count_timeouts` grow by the number of results of each kind; the recorded phases grow by those of the completed results, in order; the invariant is kept |
| Ping.HttpPing.RunOne | http_ping.c:288-326 | one pass of the loop: `count` goes down unless it is negative, the result is `ProbeOf` of the input, and the counters move as `After` says |
| Ping.HttpPing.Summaries | http_ping.c:343-356 | four phase summaries, each average between its minimum and maximum |
| Ping.HttpPing.CurrentReport | http_ping.c:336-357 | the percentages are each >= 0 and add up to at most 100; phase summaries exist exactly when a probe completed |
| Ping.PhaseBounds | http_ping.c:314-356 | a phase's average lies between its recorded minimum and maximum |
| Ping.RecordedWithinBounds | http_ping.c:314-321 | every completed probe's phase lies between the reported minimum and maximum |

## Left out

- Sockets, `connect`, `TCP_NODELAY`, `read`, `write` and `close`: a probe's connect and write are two booleans, and its reads are a script.
- OpenSSL setup, the handshake, `SSL_read`/`SSL_write` and the `RAND_seed` seeding: foreign library calls. An SSL handshake failure is a failed connect.
- `lookup_address` and `init_net`: resolver I/O. The proxy host and port are parsed, but the address they lead to is not modelled.
- `alarm`, `SIGALRM`, `handle_alarm` with its `longjmp`, and `handle_term` with `terminate`: asynchronous signal control flow. A timeout is a read script that runs out. A `ProbeInput` cannot express a connect that hangs. An input with `connected` false is booked as a failure, while in the source `handle_alarm` books a hanging connect as a timeout. A late alarm that lands after a probe was booked, and so double-counts it, is not modelled. The end of the input sequence stands for `SIGTERM`.
- The `/ 1000.0` conversion to `float` milliseconds and the `float` arithmetic of min/avg/max: times are exact integer microseconds. The average is a `real`.
- `printf`/`fprintf` output, `usage()` text and exit statuses: errors are `ArgError` and `UrlError` values.
- `sleep( interval )`: the pacing between probes is not modelled. `interval` is parsed.
- `parse_request_file` is an empty stub that leaves `url` unset; the model returns `RequestFileUnsupported` instead of reaching `parse_url` with no URL.
- Request.RequestText: the `snprintf` counting into the 600-byte `buf` is not modelled once the text does not fit. There `b` can pass `sizeof(buf)` and `sizeof(buf) - b` underflows. `Request.Fits` states when the text fits, and `Request.DirectRequestFits` gives a sufficient condition.
- Scanner.Step: `content_length` is an unbounded integer, so the overflow of a 64-bit `long` on more than 18 digits is not modelled; `Scanner.ShortLengthsFit` shows the two agree up to 18 digits.
- Ping.HttpPing.CurrentReport: requires `count_started > 0`. Printing the report after no probe started divides by zero in the source.
- Time.Delta: `long long` overflow is not modelled; the difference is exact.
- Ping.HttpPing.Probe: a read script that runs out is booked as a timeout. The source does that only when `alarm( timeout )` sets a deadline, that is with `timeout` >= 1, as under the corrected default (`Options.ArgsOf`). With the `timeout` 0 of the code as written, `alarm( 0 )` sets no deadline, the read blocks, and `count_timeouts` never moves.
- Ping.ProbeOf: the same assumption as `Ping.HttpPing.Probe`; a `Timeout` result presumes `timeout` >= 1.
- CStrings.Atoi: the exact decimal value, with no integer width. `CStrings.AtoiInt` is the value glibc gives: it saturates at the `long` range, and the `(int)` conversion then cuts it to 32 bits. The options and the ports use `AtoiInt`.
- Options.ApplyFlag: `count`, `interval` and `timeout` are C `int`s, modelled through `AtoiInt`. So `-count 2147483648` wraps to -2147483648 and exits (`Options.CountWrapsNegative`), and `-timeout 4294967297` is one second (`Options.TimeoutWraps`).
- Stats.Percent: `count_completed * 100` is an `int` product in the source, and it overflows once a counter passes 21474836. The model's product is exact.
- Ping.HttpPing.Run: the `count_started`, `count_completed`, `count_failures` and `count_timeouts` counters are unbounded. The source's `int`s would overflow after 2^31 probes.
- Ping.HttpPing.Run: the `count == 0 || terminate` check after `alarm( 0 )` and the one at the top of the loop are one check, since nothing between them changes `count`.

## Findings

| source | as written | input that shows it | evidently intended | confidence | as-written member | corrected member |
|---|---|---|---|---|---|---|
| http_ping.c:158-167 | `timeout` (line 113) is never assigned before the flag loop, so it keeps the static zero; `alarm( timeout )` at line 291 is then `alarm( 0 )`, which sets no deadline, and a probe whose server never answers blocks for ever | `http_ping http://example.com/` (no `-timeout`) | `timeout` starts at `TIMEOUT` (15, line 53), which is defined and never used, so every probe has a deadline of at least one second | not executed | Options.NoTimeoutByDefault | Options.ArgsOf |
