# Middlewares: a verified model

The repository evaluates MCP servers: an operator starts evaluation runs, a runner talks to the server
under test, passes everything the server says through a prompt-injection gate and only then shows it to
language-model agents; a vector corpus with calibrated thresholds backs the gate. This project models the
parts of that pipeline whose correctness is not obvious from reading one function, and proves what they
promise for all inputs, all interleavings and all reachable states.

| module | models |
|---|---|
| `Text`, `Chunking`, `ScanGate` | the untrusted-text gate: cutting texts into overlapping windows, removing duplicates, scanning until the first abort |
| `JsonText`, `JsonExtract`, `JsonExtractProof` | JSON as text (RFC 8259, sections 2 to 7) and the bracket scanner that cuts an answer out of prose |
| `Calibration`, `CorpusScoring` | choosing thresholds under a false-positive budget; the scores they are chosen from |
| `Sentences`, `Vectors`, `VectorQuery`, `Agreement` | the runtime query, and its agreement with the calibration rule |
| `CorpusLoader` | interrupted and repeated loads of a corpus file, and the file the builder writes |
| `Sequences`, `Framing`, `EventStream` | line framing over a FIFO and the server-sent-event parser |
| `Socks5` | the SOCKS5 client handshake (RFC 1928, RFC 1929) |
| `RpcClient` | the JSON-RPC client as a state machine over dispatch, frames, timers, failing sends, crashes, reconnects |
| `RunController`, `ServerController` | the two Kubernetes reconcilers |
| `TargetText` | every string a target server chooses: which of it the gates list, which of it the prompts print |
| `EvaluatorTrace`, `Evaluator`, `VerdictPath` | the evaluator's pass loop as a trace of scans, prompts and status patches; the way of a verdict to the server object |
| `MarkerInjector` | the gateway's event-stream marker injector |

Text is a sequence of UTF-16 code units (integers), whitespace is written out for both languages, and the
whitespace class is a parameter of the chunkers. Scores and distances are exact reals; the embedder, the
logistic head's exponential, JSON codecs in the gateway, the cron schedule and every answer of a scanner,
API server, proxy, agent or target are parameters. Objects the source updates in place are classes whose
methods are tied to functions over the old state, and the whole-run theorems are lemmas about these
functions; where a loop is the model, its method states the result outright.

Results that correct an expectation, each with the exact condition:

- A chunk length of 1 can make the chunker loop for ever (`Chunking.NeverLeaves`); lengths of at least 2 always advance.
- The scanner recovers a printed JSON value exactly when the printed value holds no code fence (`JsonExtractProof.ExtractExact`).
- Line framing is independent of how the stream is cut exactly when no line is longer than the buffer limit, with one unit of slack for a line that is delivered the same way raw or framed (`Framing.ChunkingTheorem`).
- A cron walk finds the most recent fire exactly when no more than 1000 have elapsed (`ServerController.IsDue`).
- Pruning keeps the verdict a server shows except exactly when the newest verdict is pruned away while a run already being deleted still carries one (`ServerController.PruningAndVerdict`, `ServerController.MaliciousGivesWay`).
- A finished run stays finished exactly as long as no later patch of its evaluator carries another phase: the status writer merges unconditionally, and failing a run leaves its Job alive (`RunController.FinishedStaysIff`, `RunController.RunIsRevived`). So a server has at most one active run exactly if no finished run is revived while another is active (`ServerController.OneActiveIff`, `ServerController.RevivedBesideNew`).
- A cron fire starts at most one run exactly if the status patch of the reconcile that started it was written (`ServerController.OneRunPerFireIff`).
- The pod's network label is set before a reconcile reports Running, unless the pod is gone; Evaluating comes from the runner and says nothing of the label (`RunController.RunningOnlyNarrowed`, `RunController.EvaluatingWithoutPod`).
- An abort's Malicious verdict reaches the server exactly when the abort's own status patch was written; the last-chance flush restores the phase only (`EvaluatorTrace.AbortVerdictDelivered`, `VerdictPath.AbortReachesServer`).
- In strict mode a prompt prints nothing of the target that the scanner has not seen, except the strings no gate lists: the error of a failed handshake; protocol version and capabilities; in definitions the MIME types, other schema keywords with all under them, keys inside defaults, examples and annotations, and names of definitions; answers taken for echoes of our own input; notes of the client; and the method names of requests the server sends. All of these are printed, no scan depends on them, and the gates cover a prompt whatever they say exactly if there are none (`TargetText.PromptAccount`, `TargetText.GatesIgnoreBlind`, `TargetText.CoveredIff`, `EvaluatorTrace.AllSeenIff`, `EvaluatorTrace.BlindUnseen`). Two inputs: a server request's method (`TargetText.RequestsUnlisted`, `Evaluator.ServerRequestUnseen`) and a handshake error (`Evaluator.HandshakeErrorUnseen`).
- A reconnect leaves the two crash counters in step exactly if no waiting request is being written (`RpcClient.ReconnectHarmlessIff`); a key may be used again exactly if nothing pending and no undelivered send outcome uses it (`RpcClient.KeyUsableIff`), and a request can be stranded exactly in the second case (`RpcClient.StrandedIff`).
- A request that expects an id can be answered by a raw frame, but only if the id is a raw key that was left stale in the queue (`RpcClient.RawReplyIff`).
- A raw frame reaches the raw request that has waited longest as long as no raw request is resolved by a failed send, by a response to its own key or by closing the client; each of these leaves a stale key in the queue at once, and a stale head swallows a frame (`RpcClient.StepInOrderIff`, `RpcClient.MessageInOrderIff`, `RpcClient.RawFrameToOldest`, `RpcClient.StaleHeadSwallows`). The protocol cases of the fuzzer go on after a failed send, so this can happen.
- A corpus load without RECREATE is never refused because of earlier loads of the same file, interrupted or not, exactly if no collection of the file carries another build's label, except an empty one that is to stay empty: otherwise even one undisturbed load, with any batch size and no vector of the wrong size, leaves entries under the foreign label and the next one refuses them (`CorpusLoader.Loader.LoadRepeatedly`, `CorpusLoader.LoadUninterrupted`).

Where the loader's header text says that a collection with a count above zero is skipped, the code for
calibrated corpora skips only a collection whose count equals the header's; the model follows the code.
The status writer's log says that an unwritten verdict survives in the termination message
(runner/src/k8s.ts:304), but the run controller reads only the phase of a failed message; again the model
follows the code.

## Model

| member | source | states |
|---|---|---|
| `Chunking.FindLastWhitespace` | runner/src/vigilsegments.ts:239-244 | the backward loop finds the position specified by LastWhitespace |
| `Chunking.LastWhitespaceIsLast` | runner/src/vigilsegments.ts:239-244 | no whitespace between the position found and the end of the window |
| `Chunking.CutWindow` | runner/src/vigilsegments.ts:135-147 | the end of a window after the whitespace cut and the surrogate adjustment |
| `Chunking.AdvanceStart` | runner/src/vigilsegments.ts:148-152 | the next start, overlap and surrogate adjustment included |
| `Chunking.ChunkSpans` | runner/src/vigilsegments.ts:129-154 | invalid parameters are reported exactly when they are invalid; otherwise the spans of the specification |
| `Chunking.NeverLeaves` | runner/src/vigilsegments.ts:135-152 | with chunk length 1 the loop never gets past a high surrogate before the last unit |
| `Chunking.SpansGood` | runner/src/vigilsegments.ts:129-154 | starts strictly increase, no span is longer than the maximum, no boundary splits a surrogate pair, the first span starts at 0 |
| `Chunking.EveryUnitCovered` | runner/src/vigilsegments.ts:129-154 | the spans of a well-formed text cover every index |
| `Chunking.ShortPieceCovered` | runner/src/vigilsegments.ts:129-154 | every piece no longer than the overlap lies whole inside one span |
| `Chunking.PyChunkSpans` | hack/vigil-corpus/build_corpus.py:71-88 | the Python loop computes its specified spans |
| `Chunking.PortAgrees` | hack/vigil-corpus/build_corpus.py:71-88 | on surrogate-free text with the same whitespace both chunkers give the same spans |
| `ScanGate.ScanUnits` | runner/src/vigilsegments.ts:160-172 | the units sent are those of the specification; bad parameters are rejected only if there is something to cut |
| `ScanGate.AddPieces` | runner/src/vigilsegments.ts:163-170 | one segment's pieces are added without blanks and duplicates |
| `ScanGate.UnitsGood` | runner/src/vigilsegments.ts:160-172 | no two units have the same text and none is blank |
| `ScanGate.UnitsComplete` | runner/src/vigilsegments.ts:160-172 | every non-blank piece of every segment is sent |
| `ScanGate.UnitsSound` | runner/src/vigilsegments.ts:160-172 | nothing but pieces of the segments is sent |
| `ScanGate.RunGate` | runner/src/vigilsegments.ts:272-289 | scanned count, abort, warnings and thrown error in terms of the scanner's answers, in order |
| `ScanGate.WarnedExactly` | runner/src/vigilsegments.ts:272-289 | a unit is among the warnings exactly if it was answered with one |
| `ScanGate.WarnedInOrder` | runner/src/vigilsegments.ts:272-289 | the warnings stand in scan order |
| `ScanGate.FirstDecides` | runner/src/vigilsegments.ts:272-289 | the first answer that is no pass decides the outcome |
| `ScanGate.NoAbortSeesEveryPhrase` | runner/src/vigilsegments.ts:129-289 | if the gate passes, every non-blank phrase up to the overlap lies whole inside a unit that was analysed and not aborted |
| `ScanGate.GateSegments` | runner/src/evaluator.ts:912-932 | the same with the defaults 500 and 100, for each outcome of a gate |
| `JsonExtract.ExtractLoop` | runner/src/evaluator.ts:324-361 | the depth, string and escape loop computes the specified slice |
| `JsonExtractProof.ValueNeutral` | runner/src/evaluator.ts:336-348 | reading any printed JSON value leaves the bracket depth as it was and never touches zero |
| `JsonExtractProof.ExtractUnfencedExact` | runner/src/evaluator.ts:324-361 | behind a prefix without brackets and before any suffix exactly the printed value is cut out |
| `JsonExtractProof.UnfenceClean` | runner/src/evaluator.ts:323-323 | removing fences leaves no fence |
| `JsonExtractProof.ExtractExact` | runner/src/evaluator.ts:319-362 | with fence removal the value is recovered if and only if its printed form holds no fence |
| `JsonExtractProof.ExtractIsSlice` | runner/src/evaluator.ts:319-362 | nothing that is cut out holds a fence |
| `JsonExtractProof.ExtractFromParts` | runner/src/evaluator.ts:319-362 | a value that one text part shows, behind parts without brackets, is found, and so is whichever value the joined parts show |
| `Calibration.SortAtRank` | hack/vigil-corpus/build_corpus.py:182-192 | the k-th sorted score has at most k scores below it and more than k up to it |
| `Calibration.Calibrate` | hack/vigil-corpus/build_corpus.py:182-192 | no thresholds exactly for a negative target; otherwise the rate is kept and no feasible rank gives larger thresholds |
| `Calibration.SearchIsExhaustive` | hack/vigil-corpus/build_corpus.py:185-191 | ranks beyond the searched range cannot give larger feasible thresholds |
| `Calibration.FromTopCounts` | hack/vigil-corpus/build_corpus.py:208-215 | the i-th largest head score has at most i above it, and any lower threshold has more |
| `Calibration.JointSplits` | hack/vigil-corpus/build_corpus.py:208-215 | the joint count is the neighbour flags plus the unflagged texts above the head threshold |
| `Calibration.HeadThreshold` | hack/vigil-corpus/build_corpus.py:208-215 | the budget is kept; while it is below the number of unflagged texts no lower threshold keeps it, otherwise every threshold does |
| `Calibration.CalibrateJointly` | hack/vigil-corpus/build_corpus.py:286-290 | both steps together flag at most floor(target * n) texts, and the head threshold is minimal when that is below n |
| `Sentences.CutWords` | images/vigil-llm/remote_vectordb.py:94-101 | pieces of 40 words, short ones dropped |
| `Sentences.SplitSentences` | images/vigil-llm/remote_vectordb.py:91-101 | the sentences of the specification, each of 3 to 40 words |
| `Sentences.PartsAreSplit` | images/vigil-llm/remote_vectordb.py:94-94 | the parts lie in order in the text, none holds a newline or whitespace after a stop, and between two lies all the whitespace after a stop or a run of newlines |
| `Sentences.SplitUnique` | images/vigil-llm/remote_vectordb.py:94-94 | there is only one such split |
| `Sentences.PartsKeepWords` | images/vigil-llm/remote_vectordb.py:94-95 | the words of the parts are the words of the text, in order |
| `Sentences.SentencesKeepWords` | images/vigil-llm/remote_vectordb.py:91-101 | the sentences hold all words in order, except a last piece of one or two words of a part |
| `Sentences.SplitJoin` | images/vigil-llm/remote_vectordb.py:96-100 | splitting joined words gives the words back |
| `Sentences.BlankHasNoSentences` | images/vigil-llm/remote_vectordb.py:91-101 | a blank text has no sentence |
| `CorpusScoring.CutChunks` | hack/vigil-corpus/build_corpus.py:91-92 | the non-blank chunks of a text |
| `CorpusScoring.GatherWindows` | hack/vigil-corpus/build_corpus.py:149-155 | the flat lists hold exactly each text's windows and sentences, under their owner |
| `CorpusScoring.Unique` | hack/vigil-corpus/build_corpus.py:160-166 | every text is found again among the unique ones |
| `CorpusScoring.MinimumAt` | hack/vigil-corpus/build_corpus.py:167-170 | each text's entry is below t exactly if one of its windows' values is |
| `CorpusScoring.MaximumAt` | hack/vigil-corpus/build_corpus.py:171-178 | each text's entry is above t exactly if one of its windows' values is |
| `CorpusScoring.ScoreTexts` | hack/vigil-corpus/build_corpus.py:141-179 | W, S and H of a text compare with any threshold as some window of it does, benign side included |
| `VectorQuery.NeighboursDecide` | images/vigil-llm/remote_vectordb.py:227-241 | looking at the n nearest decides whether anything is near enough |
| `VectorQuery.BenignDistances` | images/vigil-llm/remote_vectordb.py:206-211 | each vector's smallest distance to the benign collections |
| `VectorQuery.CollectionHits` | images/vigil-llm/remote_vectordb.py:227-232 | a hit exactly if some entry is within the threshold and nearer than benign text |
| `VectorQuery.KnnHits` | images/vigil-llm/remote_vectordb.py:227-241 | over all windows and collections, a hit exactly if one exists, and every hit is genuine |
| `VectorQuery.HeadHits` | images/vigil-llm/remote_vectordb.py:212-226 | head hits exactly for windows scored above the threshold |
| `VectorQuery.StrongestFirst` | images/vigil-llm/remote_vectordb.py:242-250 | ordered by rank, one hit per corpus text, cut to the limit; every hit is represented or displaced by better ones |
| `VectorQuery.QueryCalibrated` | images/vigil-llm/remote_vectordb.py:202-250 | the answer is non-empty exactly if the text is a hit, ranked, without duplicates, and genuine |
| `Agreement.KnnAgrees` | images/vigil-llm/remote_vectordb.py:206-241 | the two-sided calibration score is below a threshold exactly if the runtime rule hits |
| `Agreement.FlagIffChunkHit` | hack/vigil-corpus/build_corpus.py:294-300 | the calibration rule flags a text exactly if the runtime query hits one of its chunks |
| `Agreement.UnitsAreChunks` | runner/src/vigilsegments.ts:160-172 | on text both languages read alike the runner sends exactly the chunks that were calibrated |
| `Agreement.FlagIffUnitHit` | hack/vigil-corpus/build_corpus.py:294-300 | so a text is flagged exactly if a unit the runner sends is hit |
| `Agreement.CalibrateHeadless` | hack/vigil-corpus/build_corpus.py:283-285 | without a head, loaded with the calibrated thresholds, the runtime hits at most floor(target * n) of the calibration texts |
| `Agreement.CalibrateCorpus` | hack/vigil-corpus/build_corpus.py:286-290 | the same with a head and its threshold, minus infinity included |
| `CorpusLoader.BuiltIsWellBuilt` | hack/vigil-corpus/build_corpus.py:314-330 | the builder's lines give back each collection's entries in order, and the header counts them |
| `CorpusLoader.UpsertPrefix` | images/vigil-corpus-loader/load_corpus.py:308-316 | upserting a batch that starts inside a stored prefix gives a prefix reaching at least as far |
| `CorpusLoader.CountDecides` | images/vigil-corpus-loader/load_corpus.py:299-301 | a stored prefix is complete exactly if its count is the intended one |
| `CorpusLoader.Loader.PrepareOne` | images/vigil-corpus-loader/load_corpus.py:287-304 | skipping happens only for complete collections; refusal exactly for another build's entries without RECREATE |
| `CorpusLoader.Loader.FlushBatch` | images/vigil-corpus-loader/load_corpus.py:308-316 | prefixes survive a flush, answered or not |
| `CorpusLoader.Loader.Feed` | images/vigil-corpus-loader/load_corpus.py:318-334 | each line extends its collection's batch; a vector of the wrong size stops the load |
| `CorpusLoader.Loader.Load` | images/vigil-corpus-loader/load_corpus.py:280-343 | however it ends every collection of the file holds a prefix, whatever its label, unless it is another build's and untouched, and without RECREATE no collection loses its label or an entry; success means exactly the file's entries; if every request of the load is answered and all vectors have the right size it succeeds exactly if no other build's entries are in the way or may be replaced |
| `CorpusLoader.Loader.LoadRepeatedly` | images/vigil-corpus-loader/load_corpus.py:280-343 | the same of the collections over any sequence of interrupted loads with any settings; if the first store is resumable, no other build's entries are ever in the way |
| `CorpusLoader.FirstBatchEstranges` | images/vigil-corpus-loader/load_corpus.py:290-296 | the first batch stored in an empty collection that another build left makes a later load refuse it |
| `CorpusLoader.LoadUninterrupted` | images/vigil-corpus-loader/load_corpus.py:280-343 | a load without RECREATE, with vectors of the right size, whose requests are all answered succeeds exactly if no other build's entries are in the way; afterwards a further load is refused exactly if the store was not resumable |
| `CorpusLoader.ResumableStays` | images/vigil-corpus-loader/load_corpus.py:290-304 | a resumable store stays loadable, whatever loads did to it |
| `Framing.LineReader.DrainBuffer` | runner/src/mcpclient.ts:256-274 | the loop delivers the frames of Drain and keeps or drops the rest |
| `Framing.LineReader.OnData` | runner/src/mcpclient.ts:236-242 | one data event is Feed |
| `Framing.DrainAppend` | runner/src/mcpclient.ts:256-274 | draining a longer buffer continues from the leftover of the shorter |
| `Framing.ChunkingIrrelevant` | runner/src/mcpclient.ts:256-274 | while lines respect the limit any chunking gives the frames and leftover of the whole stream |
| `Framing.SomeSplitMatters` | runner/src/mcpclient.ts:268-273 | otherwise a cut exists that gives something else |
| `Framing.ChunkingTheorem` | runner/src/mcpclient.ts:256-274 | chunking is irrelevant if and only if every line respects the limit |
| `Framing.FramesRecovered` | runner/src/mcpclient.ts:177-196 | frames sent with a newline come back, however the bytes are cut |
| `Framing.LinesRecovered` | runner/src/mcpclient.ts:256-274 | so do frames whose lines end with NL or CR NL in any mix |
| `EventStream.ParseBlock` | runner/src/mcpclient.ts:371-394 | fields, data lines and defaults of one block |
| `EventStream.SseParser.Push` | runner/src/mcpclient.ts:343-369 | the loop yields the events and the rest of the parse of buffer plus chunk |
| `EventStream.SeparatorStable` | runner/src/mcpclient.ts:343-369 | more input never moves the first separator |
| `EventStream.PushAllIsParse` | runner/src/mcpclient.ts:340-394 | any chunking gives the events and leftover of the whole stream |
| `EventStream.BlocksRecovered` | runner/src/mcpclient.ts:340-394 | blocks of any fields, comments, colon styles and line endings (section 9.2.6 of the WHATWG HTML standard) are read as what they say: the last event name or the default, the data lines joined, nothing without data |
| `EventStream.BlocksRecoveredInChunks` | runner/src/mcpclient.ts:340-394 | also when they arrive in arbitrary chunks |
| `EventStream.EventsRecovered` | runner/src/mcpclient.ts:340-394 | every event the format can carry is recovered from its encoding |
| `EventStream.EventsRecoveredInChunks` | runner/src/mcpclient.ts:340-394 | also when the encoding arrives in arbitrary chunks |
| `Socks5.Handshake.OnData` | runner/src/meshhttp.ts:174-248 | one data event is OnSegment: stage, buffer, outcome and bytes written |
| `Socks5.HandshakeSplitIrrelevant` | runner/src/meshhttp.ts:149-248 | outcome and bytes written do not depend on how the proxy's bytes are split |
| `Socks5.ConnectedIff` | runner/src/meshhttp.ts:149-248 | connected exactly if the bytes start with a method dialogue (login accepted if asked for) and an encoded reply of section 6 of RFC 1928 with code 0 |
| `Socks5.ReplyOutcome` | runner/src/meshhttp.ts:212-240 | for every reply code, address and port the client waits for the last byte of the reply, then connects or fails with the code |
| `Socks5.GreetingOffers` | runner/src/meshhttp.ts:109-113 | the greeting decodes (section 3 of RFC 1928) to no authentication, and login exactly if username and password are set |
| `Socks5.HandshakeWrites` | runner/src/meshhttp.ts:149-248 | greeting, at most one login and at most one CONNECT, in this order and nothing else |
| `Socks5.ConnectRoundTrip` | runner/src/meshhttp.ts:122-128 | a decoder of RFC 1928 section 4 gives host and port back if and only if the host has fewer than 256 bytes |
| `Socks5.AuthRoundTrip` | runner/src/meshhttp.ts:115-120 | a decoder of RFC 1929 section 2 gives the login back if and only if both parts have fewer than 256 bytes |
| `RpcClient.StepInv` | runner/src/mcpclient.ts:898-1135 | every step keeps the books of requests, pending keys, timers, raw waiters and counters, reconnects with requests pending included |
| `RpcClient.RunInv` | runner/src/mcpclient.ts:898-1135 | so does every run |
| `RpcClient.ResolvesAtMostOnce` | runner/src/mcpclient.ts:898-952 | no request resolves twice; it is unresolved exactly while its key is pending with an armed timer; a pending raw key waits once in the queue |
| `RpcClient.TimerResolves` | runner/src/mcpclient.ts:917-931 | an unresolved request can always be resolved by its timer |
| `RpcClient.CrashCountersAgree` | runner/src/mcpclient.ts:276-286 | the client's crash count equals the transport's in every reachable state |
| `RpcClient.OpenWriteDrifts` | runner/src/mcpclient.ts:177-196 | a write under way during a teardown can make the counters differ, from every reachable state |
| `RpcClient.ReconnectHarmlessIff` | runner/src/mcpclient.ts:276-299 | the counters agree after every continuation of a reconnect if and only if no waiting request is being written |
| `RpcClient.ReconnectWhilePending` | runner/src/mcpclient.ts:932-950 | an input at which a reconnect makes the counters differ |
| `RpcClient.PendingKeyBreaks` | runner/src/mcpclient.ts:917-931 | dispatching keeps the books if and only if the key is not pending |
| `RpcClient.EarlierSendStrands` | runner/src/mcpclient.ts:932-950 | an undelivered send outcome under the key can strand the new request |
| `RpcClient.KeyUsableIff` | runner/src/mcpclient.ts:898-950 | the books stay right over every continuation if and only if nothing pending and no undelivered send outcome uses the key |
| `RpcClient.RunTimed` | runner/src/mcpclient.ts:917-950 | even with a key used twice, a request without outcome keeps its timer as long as no undelivered send outcome uses its key |
| `RpcClient.StrandedIff` | runner/src/mcpclient.ts:917-950 | some continuation strands a request if and only if an undelivered send outcome uses the key |
| `RpcClient.SharedKeyLosesRequest` | runner/src/mcpclient.ts:898-931 | an input at which two requests under one key leave one unresolved without a timer |
| `RpcClient.StepInOrderIff` | runner/src/mcpclient.ts:898-952 | an event keeps the queue equal to the waiting raw requests in order if and only if it is no failed send of one and no close while one waits |
| `RpcClient.MessageInOrderIff` | runner/src/mcpclient.ts:1009-1108 | a message does if and only if it is not addressed to a waiting raw request by its own key |
| `RpcClient.RawFrameToOldest` | runner/src/mcpclient.ts:1009-1108 | over every run without such events an unaddressed message resolves the raw request that has waited longest, and nothing if none waits |
| `RpcClient.StaleHeadSwallows` | runner/src/mcpclient.ts:932-950 | a failed send of the oldest raw request makes the next unaddressed message resolve nobody |
| `RpcClient.StaleWaiterSwallowsFrame` | runner/src/mcpclient.ts:1076-1108 | a run in which a raw request waits behind a stale key and misses its frame |
| `RpcClient.ResponseResolves` | runner/src/mcpclient.ts:1044-1073 | a response resolves exactly the request it is addressed to, with its reply; a server-initiated message changes nothing |
| `RpcClient.MessageResolvesIff` | runner/src/mcpclient.ts:1009-1108 | a message resolves a waiting request exactly if it answers its key, or answers nobody while its key heads the queue |
| `RpcClient.StepResolvesIff` | runner/src/mcpclient.ts:917-1135 | which other events resolve a waiting request, and with which outcome, exactly |
| `RpcClient.OutcomesCaused` | runner/src/mcpclient.ts:898-1135 | over every run each outcome has its cause: a reply to the own key with that reply, the own timer, the own failed send, a lost connection, a close |
| `RpcClient.RawReplyIff` | runner/src/mcpclient.ts:1076-1108 | some continuation answers a waiting request by a raw frame if and only if its key is queued |
| `RpcClient.McpClient.HandleMessage` | runner/src/mcpclient.ts:1009-1075 | one message is OnMessage, which the rows above pin down |
| `RpcClient.McpClient.TimerFires` | runner/src/mcpclient.ts:917-931 | one timeout is OnTimer |
| `RpcClient.McpClient.SendCatch` | runner/src/mcpclient.ts:932-950 | one failed send is OnSendRejected |
| `RpcClient.McpClient.HandleTransportClose` | runner/src/mcpclient.ts:1121-1135 | a transport close settles everything pending |
| `RunController.StuckPending` | internal/controller/mcpevaluationrun_controller.go:805-817 | old enough and nothing started |
| `RunController.InitContainersDone` | internal/controller/mcpevaluationrun_controller.go:901-921 | every init container terminated or is a running native sidecar |
| `RunController.DerivePhaseFromPod` | internal/controller/mcpevaluationrun_controller.go:873-897 | the phase of a pod |
| `RunController.InfraTransientFailure` | internal/controller/mcpevaluationrun_controller.go:766-787 | eviction, a pod that never started, or an OOM kill |
| `RunController.Reconciler.Reconcile` | internal/controller/mcpevaluationrun_controller.go:390-593 | one reconcile is ReconcileWorld |
| `RunController.Reconciler.CompleteRun` | internal/controller/mcpevaluationrun_controller.go:596-655 | status after completion |
| `RunController.Reconciler.RetryJob` | internal/controller/mcpevaluationrun_controller.go:719-743 | bounded retry |
| `RunController.RunAccounted` | internal/controller/mcpevaluationrun_controller.go:418-593 | Jobs created equal retries plus the live Job, over every run |
| `RunController.AtMostThreeJobs` | internal/controller/mcpevaluationrun_controller.go:719-743 | never more than three Jobs |
| `RunController.FinishedStaysIff` | internal/controller/mcpevaluationrun_controller.go:418-426 | a finished run keeps its phase along a run of the system if and only if no patch of the runner carries another; its retries and Job count then stay too |
| `RunController.RunIsRevived` | internal/controller/mcpevaluationrun_controller.go:448-456 | an input at which a failed run is reopened by a late patch |
| `RunController.ReconcileAdvances` | internal/controller/mcpevaluationrun_controller.go:418-593 | a reconcile raises the phase, spends one retry, or changes neither |
| `RunController.RankNeverLowered` | api/v1alpha1/mcpevaluationrun_types.go:44-64 | no reconcile lowers the phase rank it read |
| `RunController.ChangesAreBounded` | internal/controller/mcpevaluationrun_controller.go:658-743 | every change of phase or retries uses up a fixed budget |
| `RunController.Reconciler.EnsureEvaluateNetPhase` | internal/controller/mcpevaluationrun_controller.go:852-870 | the label patch with its three answers |
| `RunController.NarrowedOnlyWhenReady` | internal/controller/mcpevaluationrun_controller.go:852-921 | over every run a label is never taken back, and set only after a reconcile saw the pod past its init containers or finished |
| `RunController.RunningOnlyNarrowed` | internal/controller/mcpevaluationrun_controller.go:552-592 | a reconcile raises the phase to Running only for a ready pod, which then carries the label unless it is gone |
| `RunController.EvaluatingWithoutPod` | internal/controller/mcpevaluationrun_controller.go:579-588 | with the current agent set the phase rises to Evaluating even without a pod, and nothing is labelled |
| `RunController.RiskSurvives` | internal/controller/mcpevaluationrun_controller.go:596-676 | a recorded risk survives every run in which the runner writes no other |
| `RunController.CompletionKeepsVerdict` | internal/controller/mcpevaluationrun_controller.go:596-655 | completion keeps a recorded risk and never succeeds without any result |
| `RunController.RunEnds` | internal/controller/mcpevaluationrun_controller.go:520-593 | when an open run whose objects were found completes, fails or is retried, each if and only if: done with a result; done without, failed for a reason of its own, or out of retries; an infrastructure fault with retries left |
| `RunController.NotExamined` | internal/controller/mcpevaluationrun_controller.go:438-514 | otherwise it fails exactly if the server or an agent is missing or the Job cannot be created |
| `RunController.OpenPhase` | internal/controller/mcpevaluationrun_controller.go:552-592 | a run that goes on shows the highest of its phase, the pod's and, with an agent at work, Evaluating |
| `RunController.CompletedScores` | internal/controller/mcpevaluationrun_controller.go:616-633 | score, risk and safety score after completion |
| `RunController.FirstEvaluator` | internal/controller/mcpevaluationrun_controller.go:928-943 | the first evaluator container is the one that counts |
| `RunController.DeletionFirst` | internal/controller/mcpevaluationrun_controller.go:394-423 | a run being deleted gives up its finalizer exactly when its Job was deleted; a finished run is left alone |
| `ServerController.IsDue` | internal/controller/mcpserver_controller.go:246-270 | due exactly if a fire elapsed; what is returned is one, and the most recent one exactly if at most 1000 elapsed |
| `ServerController.FindActiveRun` | internal/controller/mcpserver_controller.go:322-332 | finds an active run exactly if there is one |
| `ServerController.ServerReconciler.ReconcileFiring` | internal/controller/mcpserver_controller.go:159-219 | the firing part of a reconcile, error returns included, is Fire |
| `ServerController.FiringEffects` | internal/controller/mcpserver_controller.go:159-219 | exactly when a run is started, the trigger is cleared and a fire is written off |
| `ServerController.ShownRisk` | internal/controller/mcpserver_controller.go:355-361 | a completed run without a risk shows Unknown |
| `ServerController.StepGood` | internal/controller/mcpserver_controller.go:159-219 | every step keeps consumed fires increasing and the last evaluation not in the future |
| `ServerController.HistoryGood` | internal/controller/mcpserver_controller.go:159-219 | so does every history with stale run caches and failing API calls; consumed fires are never forgotten and the last evaluation never goes back |
| `ServerController.StepActiveIff` | internal/controller/mcpserver_controller.go:167-215 | from at most one active run a step leads to at most one if and only if it does not revive a finished run beside an active one |
| `ServerController.OneActiveIff` | internal/controller/mcpserver_controller.go:167-215 | over every history at most one run is active if and only if no such revival happens |
| `ServerController.RevivedBesideNew` | internal/controller/mcpserver_controller.go:167-215 | an input at which two runs are active |
| `ServerController.OneRunPerFire` | internal/controller/mcpserver_controller.go:186-219 | over every history in which each reconcile that starts a run for a fire gets its patch written, no fire starts two runs |
| `ServerController.LostPatchStartsAgain` | internal/controller/mcpserver_controller.go:186-219 | without the patch a continuation starts a second run for the same fire |
| `ServerController.OneRunPerFireIff` | internal/controller/mcpserver_controller.go:186-219 | some continuation starts another run for a fire if and only if the patch was not written |
| `ServerController.SyncLatestRunResult` | internal/controller/mcpserver_controller.go:339-362 | the server shows the newest verdict, the first listed among equals, or what it showed before |
| `ServerController.PruneRuns` | internal/controller/mcpserver_controller.go:415-441 | only finished runs go, as many as exceed the limit unless a delete fails, and none newer than one that stays |
| `ServerController.PrunedIff` | internal/controller/mcpserver_controller.go:415-441 | a finished run goes exactly if at least `limit` finished ones are newer |
| `ServerController.PruningAndVerdict` | internal/controller/mcpserver_controller.go:339-441 | with distinct creation times the shown verdict survives pruning, except exactly in the fall-back case |
| `ServerController.MaliciousGivesWay` | internal/controller/mcpserver_controller.go:339-441 | the fall-back case: a Malicious verdict replaced by an older one |
| `TargetText.AccountTree` | runner/src/vigilsegments.ts:190-237 | every string and key of a schema, at any depth, is blank, inside a text listed for the scanner, or among the missed ones, and these are all printed |
| `TargetText.ListedKeywords` | runner/src/vigilsegments.ts:200-205 | the schema keywords whose strings are listed |
| `TargetText.NestedKeywords` | runner/src/vigilsegments.ts:206-226 | the keywords under which the walk goes on |
| `TargetText.AccountTool` | runner/src/vigilsegments.ts:55-63 | the same for a tool with its schema and annotations |
| `TargetText.AccountDefinitions` | runner/src/vigilsegments.ts:50-78 | the same for all tools, prompts and resources |
| `TargetText.AccountFuzz` | runner/src/vigilsegments.ts:86-97 | the same for a fuzz report: unlisted are exactly the answers marked as echoes and the client's notes |
| `TargetText.AccountProbes` | runner/src/vigilsegments.ts:100-117 | the same for a probe report: unlisted are exactly echoes, notes and the methods of server requests |
| `TargetText.PromptAccount` | runner/src/evaluator.ts:559-656 | every string a prompt prints of the target is blank, inside a text the gates list, or blind; and every blind string is printed |
| `TargetText.CasesPrinted` | runner/src/evaluator.ts:577-582 | the dynamic prompt prints every fuzz answer and note |
| `TargetText.ProbesPrinted` | runner/src/evaluator.ts:597-601 | the adversarial prompt prints every probe answer, hit and request method |
| `TargetText.SurfacePrinted` | runner/src/evaluator.ts:564-593 | both print the instructions, server information and all definitions |
| `TargetText.ListedIsScanned` | runner/src/vigilsegments.ts:176-180 | what stands inside a listed text and is not blank stands inside a segment |
| `TargetText.VeiledListsSame` | runner/src/vigilsegments.ts:190-226 | rewording the missed strings of a schema changes nothing that is listed, and gives the reworded missed strings |
| `TargetText.GatesIgnoreBlind` | runner/src/vigilsegments.ts:50-117 | rewording the blind strings of a target changes nothing the gates list, and the prompt then prints the reworded ones |
| `TargetText.CoveredIff` | runner/src/vigilsegments.ts:50-117 | whatever the blind strings say, all that a prompt prints is listed, if and only if there are none |
| `TargetText.RequestsUnlisted` | runner/src/mcpclient.ts:1022-1026 | any method names of server requests are printed in the adversarial prompt, and the gates list what they would list without them |
| `EvaluatorTrace.ClampScore` | runner/src/evaluator.ts:662-665 | a score from 0 to 100 within half a point of a number in range, none for anything else |
| `EvaluatorTrace.ParseSynthesis` | runner/src/evaluator.ts:682-718 | throws exactly if there is no usable score; scores come from the first present key or alias, in range, each standing in for the other |
| `EvaluatorTrace.MeanWithin` | runner/src/evaluator.ts:1306-1327 | the fallback score lies between the lowest and highest reported score |
| `EvaluatorTrace.ScoresReported` | runner/src/evaluator.ts:1306-1327 | an answer reports exactly the clamped numbers under its four score keys |
| `EvaluatorTrace.PromptedTextWasSeen` | runner/src/evaluator.ts:1152-1244 | in strict mode every phrase of whatever a prompt prints of the target, except its blind strings, was seen whole, before, by an analysis that did not abort |
| `EvaluatorTrace.AllSeenIff` | runner/src/evaluator.ts:559-656 | in strict mode the scanner has seen all that a prompt prints of the target if and only if it has seen the blind strings |
| `EvaluatorTrace.BlindUnseen` | runner/src/evaluator.ts:559-656 | a blind string longer than the texts scanned is printed unseen |
| `EvaluatorTrace.NothingAfterFailure` | runner/src/evaluator.ts:912-1016 | after an abort, an outage or another scanner error only status patches follow |
| `EvaluatorTrace.AbortVerdictDelivered` | runner/src/k8s.ts:233-310 | the run object shows the abort's verdict exactly if the abort's own patch was written |
| `EvaluatorTrace.LatestWins` | runner/src/k8s.ts:233-275 | each field of the run object is what the last written patch carrying it said |
| `Evaluator.EvaluatorRun.ScanUntrusted` | runner/src/evaluator.ts:912-1007 | with the scanner enabled, enforced or not: the scan is the first new event, its outcome that of the units; the findings grow by one for warnings and one for a detection, and patches carry them; it throws exactly on a scanner error that is no outage, and in strict mode on anything but a clear scan |
| `Evaluator.PatchesCarry` | runner/src/evaluator.ts:953-1005 | there are patches exactly if something was found, and the last one carries all findings |
| `Evaluator.SurfaceInTally` | runner/src/evaluator.ts:1152-1160 | with the scanner enabled, in strict and in monitor mode, the surface of a target that is up was scanned |
| `Evaluator.ResponsesInTally` | runner/src/evaluator.ts:1161-1244 | so were the responses a prompt prints, right before the prompt |
| `Evaluator.EvaluatorRun.SurfaceGate` | runner/src/evaluator.ts:1152-1160 | the advertised surface is scanned once before anything prints it |
| `Evaluator.EvaluatorRun.TargetPass` | runner/src/evaluator.ts:1152-1244 | a dynamic or adversarial agent is prompted with the target as the handshake and the latest reports show it, unless a scan ends the run; the trace stays disciplined, so in strict mode all that is printed but the blind strings was seen before |
| `Evaluator.GatesCoverPrompt` | runner/src/evaluator.ts:1152-1244 | once the surface and the latest report have passed their gates, everything the prompt prints of the target has been seen, except its blind strings |
| `Evaluator.ServerRequestUnseen` | runner/src/probes.ts:354-357 | the method of a request the server sent is printed in the adversarial prompt, unseen if longer than the texts scanned |
| `Evaluator.HandshakeErrorUnseen` | runner/src/evaluator.ts:564-568 | the error of a failed handshake is printed in a dynamic prompt and nothing of it was seen |
| `Evaluator.EvaluatorRun.PlainPass` | runner/src/evaluator.ts:1122-1296 | static, synthesis and generic agents; synthesis replaces scores and findings |
| `Evaluator.EvaluatorRun.Evaluate` | runner/src/evaluator.ts:1018-1337 | succeeds exactly if everything was fetched, no signal came, no scan stopped it and some agent answered |
| `Evaluator.EvaluatorRun.Run` | runner/src/evaluator.ts:1505-1553 | for any suite and outcomes: the trace is disciplined, the scans and prompts are a beginning of those of the suite, in order and in both modes; the termination message says Completed exactly on success, with all scans and prompts, the findings, score and risk of the suite, and an abort ends with Failed, 0 and Malicious |
| `VerdictPath.AbortReachesServer` | internal/controller/mcpserver_controller.go:339-362 | after an abort the server counts the run as a Malicious verdict exactly if the abort's patch was written |
| `VerdictPath.AbortStaysVisible` | internal/controller/mcpserver_controller.go:339-362 | once there, the verdict stays visible through all reconciles, Job and deletion events |
| `MarkerInjector.MarkSnapshot` | images/occludra-gateway/main.go:873-911 | the marker is appended to the last text of the completed event and no other field of it changes; none if it has no text |
| `MarkerInjector.SseMarkerInjector.Transform` | images/occludra-gateway/main.go:799-914 | a line comes out last, behind the block owed before it in view of all lines so far; a completed data line as the whole event marked |
| `MarkerInjector.TransformStream` | images/occludra-gateway/main.go:777-914 | over a whole stream the output is each line, altered only if it is a completed data line, behind its block |
| `MarkerInjector.GatewayKinds` | images/occludra-gateway/main.go:816-822 | the gateway's tests of a line exclude each other, and an event line carries no delta |
| `MarkerInjector.TransformGateway` | images/occludra-gateway/main.go:777-914 | the same for the gateway's own reading of lines |
| `MarkerInjector.BlockOwed` | images/occludra-gateway/main.go:816-872 | exactly which lines get a block, and which one |
| `MarkerInjector.LastDeltaIs` | images/occludra-gateway/main.go:804-815 | the ids used are those of the last delta |
| `MarkerInjector.InjectedUnique` | images/occludra-gateway/main.go:777-914 | the lines determine the output |
| `MarkerInjector.OthersUnaltered` | images/occludra-gateway/main.go:873-913 | a line that is no completed data line comes out unaltered |
| `MarkerInjector.LineStands` | images/occludra-gateway/main.go:777-914 | every line stands once and in order with exactly its block before it |
| `MarkerInjector.CompletedPairOwesOne` | images/occludra-gateway/main.go:777-914 | an event line with its data line owes one block, and only once a delta was seen |

## Left out

- Chunking.PortAgrees: does not cover text beyond the basic multilingual plane, where Python counts code points and JavaScript counts code units.
- ServerController.HistoryGood: takes the server object itself as read current; a stale copy of its last evaluation is not modelled.
- RunController.RunAccounted: assumes that only the controller deletes Jobs and that its status writes succeed; deletion of Jobs by their time-to-live and stale informer reads are not modelled, and the bound fails without these assumptions.
- CorpusLoader.Loader.Load: takes one upsert request as atomic, one loader at a time, and a store that leaves an existing collection's metadata alone.
- JSON.parse of the extracted slice; the labels of segments and their order within a schema; the JSON escapes in which a prompt prints strings.
- Names of tools and properties and values of schemas that the fuzz cases and probes repeat; they are printed with the definitions too.
- What prompts print besides text of the target: repository text, the numbers of the telemetry, earlier agents' answers, the notes about warnings.
- Floating-point rounding, float16 vectors, the 6-digit rounding in the corpus file and approximate nearest-neighbour search; the embedder and the training of the head.
- A cron schedule whose next fire is the zero time, paused servers and invalid schedules, which fire nothing.
- Malformed-frame, notification and latency counters of the client; bytes that follow the SOCKS5 success reply in the same segment, which the handshake does not hand on.
- The legacy corpus format, pruning of other collections, and download and checksum of the corpus file.
- Construction of Jobs, pods and network policies; Kubernetes client calls and caches.
- The gateway's proxying, redaction detectors and request-side rewriting; the non-streaming marker.
- Web user interface, terminal output, telemetry, environment parsing, study and deployment scripts.
