# PEDS forwarding core in Dafny

A Dafny model of two pieces of the PEDS DNS forwarding relay.

- **Duplicate suppression and ID rewrite** (`UdpServer.Process`). Each decoded query gets a key: its ID in decimal, a dash, and the sender's endpoint. The key is admitted to the table of outstanding requests only if it is absent; a duplicate is dropped without a word. For an admitted query the ID is replaced by one the resolver allocates, and the query goes to the resolver. The original ID is restored on the response, which goes back to the sender through the listener that received the query. The key is removed on every path.
- **Telemetry availability latch** (`Performance`). A one-shot, cached check that the performance-counter category and its four counters can be used. Availability is only ever lost, never regained. `Enabled` is the user's flag and availability together. The timer frequency is queried once and then cached. Counter and frequency access throw once the counters are unavailable.

Files and modules:

- `basics.dfy`, module `Basics`: `Option` and the integer widths used (`byte`, `uint16`, `int64`).
- `dedup_key.dfy`, module `DedupKey`: decimal rendering of IDs and ports, `IPEndPoint` rendering, the request key, and the proofs that the key is injective.
- `udp_server.dfy`, module `Forwarding`: class `UdpServer`, with the table `outstandingRequests: map<string, Message>` and a `trace` of what it asks of the resolver and sends. `Process` has two suspension points: the `await` of the resolver call and, on success, the `await` of the send. The `finally` that releases the key runs only after the send completes. `Process` is split into three atomic steps, which a caller may interleave with the steps of other requests:
  - `TryAdmit` runs up to the resolver call.
  - `Complete` resumes after it. On a resolver failure it already reaches the `finally`; on success it starts the send.
  - `Release` is the `finally` after the send.

  Ghost state `live` (the admitted, not yet released requests, by key) and `sending` (the keys whose response is being sent) records which `Process` calls are in progress. The invariant `Valid()` says the table's keys are exactly the live requests' keys, so at most one request per key is in flight. `Complete` and `Release` may only be applied to a request in the matching stage. `Process` itself runs the steps back to back.
- `performance.dfy`, module `PerformanceCounters`: class `Performance` with the source's fields, the invariant `Valid()`, and the two-state predicate `Latched()` that every method keeps. `Latched()` says the check happens once, availability is only lost, a found frequency is kept, and nothing but `enabled` changes once unavailable. The function `Initialise` gives the value-level effect of the check's `try` block. The method `InitialiseCounters` implements that block with the source's filling `for` loop and zeroing loop, and is proved equal to `Initialise`.
- `forwarding_scenarios.dfy`, `telemetry_scenarios.dfy`: client methods that drive fresh objects through interleavings. They show retransmission while pending and during the send, retry after a resolver failure, senders sharing an ID, out-of-order completion, the 0x1234/0x5678 exchange, and the latch's permanence and caching.

Outside collaborators are inputs:

- The DNS codec `Message.Read` is a function parameter `decode`. `None` means it threw.
- `Resolver.NextQueryId()` is a parameter `nextId`.
- The outcome of `Resolver.QueryAsync` is a parameter of `Complete`. `None` means it threw.
- A send is recorded as a `ResponseSent` event, with the listener named by its bound local endpoint.
- The Windows performance-counter provider's answers during the check are a `CounterHost`: category `Exists`, `Create`, each `PerformanceCounter` construction, and `NextSample`.
- The answer of `QueryPerformanceFrequency` is a `FrequencyQuery`. It either returns non-zero after writing the frequency, or returns zero after writing some value (the code then throws a `Win32Exception`), or throws.

In these places the model follows what the code does:

- The frequency and counter accessors throw `InvalidOperationException` when unavailable. They are not silent no-ops.
- Decoding happens before the key exists, so a malformed datagram never creates a table entry.
- `UdpServer` does not touch `Performance`, so no telemetry is recorded on the request path.
- The `Enabled` getter's `&&` short-circuits, so reading it while disabled does not run the availability check.

## Model

| member | source | states |
|---|---|---|
| `DedupKey.Decimal` | src/UdpServer.cs:92 | `Id.ToString()` is a non-empty string of digits only (so it contains no dash) with no leading zero |
| `DedupKey.ParseDecimalOfDecimal` | src/UdpServer.cs:92 | reading the decimal rendering back gives the number: `ParseDecimal(Decimal(n)) == n` |
| `DedupKey.DecimalOfParseDecimal` | src/UdpServer.cs:92 | every canonical digit string is the rendering of the number it denotes (the other direction of the round trip) |
| `DedupKey.DecimalInjective` | src/UdpServer.cs:92 | two numbers render alike exactly when they are equal |
| `DedupKey.EndpointText` | src/UdpServer.cs:92 | `RemoteEndPoint.ToString()` is the host, a colon, and the decimal port (which holds no colon), so it splits at its last colon; injectivity is `EndpointTextInjective` |
| `DedupKey.RequestKey` | src/UdpServer.cs:92 | the key `Id.ToString() + "-" + RemoteEndPoint.ToString()` is the decimal ID (digits only), a dash, and the endpoint text, so it splits at its first dash; injectivity is `RequestKeyInjective` |
| `DedupKey.EndpointTextInjective` | src/UdpServer.cs:92 | `RemoteEndPoint.ToString()` (host, colon, decimal port) is injective: the port is what follows the last colon |
| `DedupKey.RequestKeyInjective` | src/UdpServer.cs:92 | the key `Id + "-" + RemoteEndPoint` is equal for two requests exactly when both the ID and the sender are equal |
| `Forwarding.UdpServer.constructor` | src/UdpServer.cs:20 | the outstanding-request table starts empty and nothing has been sent |
| `Forwarding.UdpServer.TryAdmit` | src/UdpServer.cs:89-102 | keeps `Valid()`; a decode failure changes nothing; a key already present (its request waiting for the resolver or still sending) changes nothing and calls neither `NextQueryId` nor `QueryAsync`; otherwise the key is added and becomes live, `NextQueryId` is called, and the resolver gets the query carrying the allocated ID, not the client's |
| `Forwarding.UdpServer.Complete` | src/UdpServer.cs:102-110 | for a live request waiting for the resolver: on failure nothing is sent and the key is removed with every other entry kept; on success exactly one response is sent, with the client's original ID, to the sender, through the receiving listener, and the key stays held while the send is in progress |
| `Forwarding.UdpServer.Release` | src/UdpServer.cs:105-110 | after the send of a live request completes, its key is removed, every other entry is kept, and it is no longer live |
| `Forwarding.UdpServer.Process` | src/UdpServer.cs:85-116 | run uninterrupted, the table and the live requests end as they began; the trace gains nothing (decode failure or duplicate), or the allocation, the rewritten query and, on success, the restored response to the sender |
| `ForwardingScenarios.RetransmissionWhilePending` | src/UdpServer.cs:92-110 | a retransmission while the first copy is pending is a `Duplicate`: one resolver call, one response; after completion the same key is admitted again |
| `ForwardingScenarios.RetransmissionWhileSending` | src/UdpServer.cs:103-110 | a retransmission that arrives while the response is being sent is still a `Duplicate`: the key is released only after the send |
| `ForwardingScenarios.RetryAfterResolverFailure` | src/UdpServer.cs:102-110 | a failed resolver call sends nothing and releases the key, so the retry is admitted and forwarded afresh |
| `ForwardingScenarios.SameIdFromTwoSenders` | src/UdpServer.cs:92-94 | two senders using the same query ID are both admitted, under different keys |
| `ForwardingScenarios.SlowFirstFastSecond` | src/UdpServer.cs:85-110 | requests with distinct keys complete independently; the later-admitted, faster one is answered first |
| `ForwardingScenarios.ExampleKey` | src/UdpServer.cs:92 | query 0x1234 from 127.0.0.1:5000 has the key `4660-127.0.0.1:5000` |
| `ForwardingScenarios.IdRewriteExchange` | src/UdpServer.cs:99-105 | query 0x1234 from 127.0.0.1:5000, allocated 0x5678: the resolver sees 0x5678 and the response to 127.0.0.1:5000 carries 0x1234 |
| `PerformanceCounters.Opened` | src/Performance.cs:157-161 | construction `i` yields a counter exactly when it does not throw, named after descriptor `i` in category "Privacy enabled DNS" |
| `PerformanceCounters.FirstFailedOpen` | src/Performance.cs:158-161 | the index at which the filling loop stops: every earlier construction succeeds, and the one there throws unless all four succeed |
| `PerformanceCounters.Initialise` | src/Performance.cs:111-187 | the check succeeds exactly when `Exists`, `Create` (if needed), all four constructions and `NextSample` succeed; on success there are exactly four counters, named after the descriptors, and all raw values are 0 when the category was just created |
| `PerformanceCounters.Performance.constructor` | src/Performance.cs:30-35 | initially `frequency == 0`, `enabled`, `available`, not yet checked, no reason, no counters |
| `PerformanceCounters.Performance.InitialiseCounters` | src/Performance.cs:114-179 | the `try` block with its filling and zeroing loops leaves the `counters` array and the failure exactly as `Initialise` says |
| `PerformanceCounters.Performance.CheckAvailability` | src/Performance.cs:105-188 | does its work only on the first call (later calls change nothing); marks the check done; a failure sets `available` to false and the reason to the exception's message; keeps `Valid()` and `Latched()` |
| `PerformanceCounters.Performance.Available` | src/Performance.cs:89-103 | runs the check if it has not run, then returns `available` |
| `PerformanceCounters.Performance.Enabled` | src/Performance.cs:200-205 | returns `enabled && available`, so never true while unavailable; while disabled the check is not run and nothing changes |
| `PerformanceCounters.Performance.SetEnabled` | src/Performance.cs:206-212 | sets only `enabled`; availability is untouched, whatever the value |
| `PerformanceCounters.Performance.Frequency` | src/Performance.cs:62-87 | throws `InvalidOperationException` with the reason when unavailable; returns the cached value without querying once it is non-zero; queries while zero; a failed query clears `available`, records its message and rethrows; succeeds exactly when available afterwards |
| `PerformanceCounters.Performance.GetCounter` | src/Performance.cs:268-274 | throws `InvalidOperationException` ("Can not access counters because: " + reason) when unavailable, otherwise returns `counters[index]`, the counter named after descriptor `index` |
| `PerformanceCounters.Performance.RequestCount` | src/Performance.cs:226-229 | the counter at index 0, "# of DNS requests", under the same rules as `GetCounter` |
| `PerformanceCounters.Performance.RequestCountPerSecond` | src/Performance.cs:242-245 | the counter at index 1, "# of DNS requests/sec" |
| `PerformanceCounters.Performance.AvgResolveTime` | src/Performance.cs:258-261 | the counter at index 2, "Avg DNS request time" |
| `PerformanceCounters.Performance.AvgResolveTimeBase` | src/Performance.cs:263-266 | the counter at index 3, "Avg DNS request time base" |
| `TelemetryScenarios.FailedCheckIsPermanent` | src/Performance.cs:181-187 | after a failed first check, re-enabling and a provider that would now work change nothing: `Enabled` stays false, `Frequency` and counter access throw with the first failure's reason |
| `TelemetryScenarios.CheckRunsOnce` | src/Performance.cs:105-110 | after a successful check a later failing provider is never consulted; the counters are those of the first check |
| `TelemetryScenarios.FrequencyIsCached` | src/Performance.cs:69-85 | a non-zero frequency is returned again without a second query |
| `TelemetryScenarios.FrequencyFailureDisables` | src/Performance.cs:73-81 | a refused timer query throws the `Win32Exception`, and afterwards `Enabled` is false and counter access throws with its message |
| `TelemetryScenarios.DisabledSkipsCheck` | src/Performance.cs:202-205 | reading `Enabled` after setting it false returns false without running the availability check |

## Left out

- Sockets and the receive loop (`Start`, `ReadRequests`, `UdpClient`, swallowing `ConnectionReset`, `SendAsync`) are network I/O. A send is recorded as an event; a failing send or `ToByteArray` is not modelled.
- async/await, the fire-and-forget `async void`, the thread-safety of `ConcurrentDictionary` and the `lock(this)` double check are real concurrency. Admission and removal are atomic sequential steps that the caller interleaves.
- The DNS codec (`Message.Read`, `ToByteArray`) and `IDnsClient` are external library code. A `Message` is its ID plus opaque bytes. `NextQueryId` is assumed to return a value rather than throw.
- The rendering of an `IPAddress` is external: an endpoint carries the host text as `IPEndPoint` prints it before the last colon.
- Resolver timeouts: the code has none, so a resolver call that never completes leaves its key in the table. The model has no step that could fix this.
- Logging, `Dispose` (an empty TODO) and the `Addresses`/`Port` defaults are configuration and plumbing.
- The static `Instance` singleton and `QueryPerformanceCounter` (declared but not used by this core) are not modelled.
- PerformanceCounters.Performance.GetCounter: returns the counter as a value, so a later change through the returned object is not seen in the `counters` array (reference aliasing is not modelled).
- PerformanceCounters.Initialise: setting `RawValue` in the zeroing loop is assumed not to throw, so the success condition leaves out that failure path.
- PerformanceCounters.Performance.InitialiseCounters: likewise assumes that setting `RawValue` to 0 does not throw.
- PerformanceCounters.Performance.GetCounter: requires an index below four, which is what all callers in the source pass; an out-of-range `IndexOutOfRangeException` is not modelled.
