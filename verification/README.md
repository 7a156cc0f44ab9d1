# A verified model of the brain service

The brain is the AI back end of a Kubernetes operations tool: it answers chat
turns over a stream, watches metrics and cost, and keeps investigations in
SQLite. This project models the parts of it that are hard to get right and
proves what they are for.

- **Chat turns** (`runtime_events`, `turn_pipeline`, `turn_safety`,
  `turn_theorems`, `turn_faults`, `turn_laws`, `llm_engine`, `llm_adapter`). A turn is a
  transition system: the bridge goroutine, the engine goroutine (tool path and
  text-only path) and the Send loop, joined by two channels of capacity 16, with a
  context that can be cancelled between any two steps and selects that may drop an
  event once it is. Invariants hold over every schedule, and what the client sees is
  told from the provider's events. The two goroutine bodies are also given as the
  loops they are.
- **The chat service** (`chat_server`, `chat_theorems`). Sessions, the Send loop
  over a stream of user messages, refusals, the drain after a failed delivery,
  and what the session store ends up with.
- **Critical path** (`topology`, `critical_path`). The breadth-first search that
  carries whole paths, and the single-point-of-failure and bottleneck detection.
- **Statistics** (`sums`, `trend`, `forecast`, `statistics`, `anomalies`,
  `nearest_rank`, `sorting`). Least squares, R squared, the cost forecast,
  percentiles, z-score anomalies and flapping.
- **Rate limiter** (`rate_limiter`). Token buckets, from above and from below, and a
  cleanup that should not be noticed.
- **Cost** (`cost`, `cost_snapshot`, `cost_laws`). Prices, recommendations, waste,
  aggregation, ranking and the ring of snapshots, and what these figures mean.
- **SQLite store** (`migrations`, `migration_theorems`, `investigations`). Schema
  migration cut off after any statement; saving investigations in a transaction.
- **Render fence** (`render_fence`). What the language model may learn about a
  tool result that is shown to the user.
- **Anomaly feed** (`anomaly_feed`) and **log clustering** (`log_cluster`).

`basics` holds the small shared definitions. `float64` is `real`, times are
integers (nanoseconds in the rate limiter), a Go `string` is a sequence of bytes.
Code that changes state in the source is a method here, proved equal to a
specification function; the theorems are about that function.

Some promises of the code hold only under a condition, and each condition is
proved exact:

- Cleanup of the rate limiter goes unnoticed if and only if the limit is positive
  (`RateLimiter.CleanupUnobservableExactly`).
- The anomaly feed honours a limit for every history if and only if it is at most
  901, although the cache is said to hold 1000 (`AnomalyFeed.HonouredLimits`);
  with a namespace, no limit above zero is honoured for every history
  (`AnomalyFeed.NamespaceLimits`).
- A z-score anomaly is possible if and only if the series is long enough for the
  sensitivity (`Anomalies.QuietLengthIsExact`), and R squared is a number if and
  only if the window varies (`Trend.FitQualityRange`).
- A turn puts out no Done if and only if its select around the terminal Done took
  the cancellation arm. That can happen to every tool turn, whatever its source,
  and to no text turn (`TurnFaults.DoneLostExactly`, `TurnFaults.DoneCanBeLost`).
- On the text path a Done that says "stop" is untrue if and only if the provider
  gave up and the engine then saw its stream end. Every text turn with chunks has
  such a run and no other turn does; cancelling alone never makes "stop" untrue
  (`TurnFaults.TextStopExactly`, `TurnFaults.StopCanLie`).
- The critical path misses a node with only one way in if and only if it has
  several incoming edges, all reachable ones from the node before it, and is no
  single-replica workload (`CriticalPath.SpofMissedExactly`). Parallel edges do
  that, and so does a provider that nothing reaches.
- Child rows outlive their investigation if and only if a delete that did not
  cascade removed it with children and it was not saved again
  (`Investigations.OrphansExactly`). The pragma that enforces foreign keys is set on
  one pooled connection only, and a later enforcing delete finds no row to cascade
  from.

Two things the code is written to report it never does: no z-score anomaly is of low
severity (`Anomalies.SeverityMeans`), since the threshold for moderate is the one for
being reported at all; and the cost pipeline recommends no pod for being idle
(`CostLaws.NoPodIsIdle`), since usage that reads as zero is taken for unknown.

Where the code and its comments disagree the model follows the code: bottlenecks
have at least three downstream edges (the comment says more than three), and
cleanup looks at the last refill, not the last request.

## Model

| member | source | states |
|---|---|---|
| TurnTheorems.EveryInterleaving | brain/internal/runtime/llm_engine.go:73-261 | in every reachable state of every schedule, with cancellation anywhere, what the engine has put out is the in-order translation of a prefix of the source events, at most followed by the terminal Error and/or Done, the latter with the usage of the events acted on |
| TurnTheorems.InFlightInOrder | brain/internal/runtime/llm_adapter.go:231-291 | while the engine reads, the events it acted on, the one in its hand, those in the channel and the one in the bridge's hand form, in this order, a prefix of the source |
| TurnTheorems.AtMostOneDone | brain/internal/runtime/llm_engine.go:129-261 | under every schedule the output holds at most one Done and nothing follows it |
| TurnTheorems.StopIsTruthful | brain/internal/runtime/llm_engine.go:235-252 | on the tool path a final Done that says stop implies an error-free source, fully forwarded, with the last token counts reported |
| TurnTheorems.TextAlwaysEndsInDone | brain/internal/runtime/llm_engine.go:97-122 | the text-only path never closes its output without a Done, cancelled or not |
| TurnFaults.DoneLostExactly | brain/internal/runtime/llm_engine.go:256-261 | a run whose engine closed its output put out no Done if and only if the select around the terminal Done took its cancellation arm, and then the turn was interrupted |
| TurnFaults.DoneCanBeLost | brain/internal/runtime/llm_engine.go:73-261 | over all plans: some run ends every goroutine without a Done put out if and only if the turn takes the tool path, opened or refused |
| TurnFaults.ToolPathCanLoseDone | brain/internal/runtime/llm_engine.go:129-261 | for every source, and when the stream was refused, some cancelled run ends normally with an empty wire |
| TurnFaults.TextStopExactly | brain/internal/runtime/llm_engine.go:97-122 | for every run of the text path: its Done says stop if and only if the engine saw the stream end, and its output is the whole script if and only if moreover the provider had not given up |
| TurnFaults.StopCanLie | brain/internal/runtime/llm_engine.go:73-261 | over all plans: some run ends in a stop although its output is not the script if and only if it is a text turn with chunks |
| TurnFaults.TextStopCanLie | brain/internal/runtime/llm_engine.go:97-122 | for every non-empty source some run reports stop with all its text missing |
| TurnFaults.TextRunInv | brain/internal/runtime/llm_engine.go:97-122 | after every schedule of a text turn: what was taken, what is left and what went out, in terms of the provider's giving up and the stream's end |
| TurnTheorems.UninterruptedIsComplete | brain/internal/runtime/llm_engine.go:129-252 | a turn nobody interrupts delivers exactly its script: the translation up to the first error or the end, then the terminal events, all mapped to the wire |
| TurnLaws.ToolTurnShows | brain/internal/runtime/llm_engine.go:129-252 | told from the provider's events alone: a tool turn nobody interrupts shows each event that has something to show once and in order, a calling tool as a start with its id and arguments, a finished one as an end with its id, success and result or error, a render block as itself, plain text as text; then either the first error and a partial Done, or a Done that says stop with the last usage reported in 32 bits |
| TurnLaws.ToolTurnText | brain/internal/runtime/llm_engine.go:129-252 | without an error the client's text is that of the events that are neither done nor tool events nor render blocks; of a source of plain text it is all of it |
| TurnLaws.TextTurnShows | brain/internal/runtime/llm_engine.go:97-122 | a text turn nobody interrupts shows its chunks, each as text and in order, and a Done that says stop |
| TurnLaws.RefusedTurnShows | brain/internal/runtime/llm_engine.go:73-153 | a stream refused on either path shows its message as an error and a Done that says error |
| TurnLaws.EveryWireDepicts | brain/internal/runtime/llm_engine.go:129-252 | cancelled or not: apart from at most two terminal events what arrived depicts the events with content of a prefix of the source |
| TurnLaws.UsageIsLast | brain/internal/runtime/llm_engine.go:151-164 | the usage kept is that of the last event that reports one, zero if none does |
| TurnLaws.DonesAreConsistent | brain/internal/runtime/llm_engine.go:97-252 | under every schedule a Done is partial unless it says stop, and cancelled exactly when it says cancel |
| TurnLaws.CancelIsPrompt | brain/internal/runtime/llm_engine.go:97-261 | whatever is scheduled after a turn is cancelled, its engine puts out at most two more events |
| TurnLaws.FailureIsFinal | brain/internal/runtime/server.go:385-403 | once a delivery has failed nothing more goes to the client, while the turn drains |
| TurnTheorems.ScriptEndsInDone | brain/internal/runtime/llm_engine.go:129-252 | the script of every plan, on either path, ends in its only Done |
| TurnTheorems.BufferIsWireText | brain/internal/runtime/server.go:385-411 | when the Send loop returns normally, cancelled or not, the assistant buffer equals the text the client received and the wire is the mapped output |
| TurnTheorems.NeverStuck | brain/internal/runtime/llm_engine.go:129-252 | until bridge, engine and Send loop have all ended, one of them can take a step of its own, given a provider that always delivers or closes |
| TurnTheorems.SilenceOutlastsCancel | brain/internal/runtime/llm_adapter.go:246-290 | with a provider that does neither, the only place to hang is the read from it, and cancelling the turn frees nobody |
| TurnTheorems.EveryTurnEnds | brain/internal/runtime/server.go:385-416 | every schedule of a turn is bounded by a number fixed by its plan |
| TurnTheorems.ScriptIsMapped | brain/internal/runtime/server.go:422-463 | the engine emits no event the server would drop |
| TurnTheorems.OutputIsMapped | brain/internal/runtime/server.go:422-463 | under any schedule everything put out has a wire form |
| TurnSafety.RunInv | brain/internal/runtime/llm_engine.go:73-261 | the joint invariant of bridge, channels, engine, Send loop and context holds after every schedule |
| TurnSafety.StepInv | brain/internal/runtime/llm_engine.go:73-261 | each single step of any goroutine, of the provider or of a canceller keeps that invariant |
| TurnPipeline.FirstError | brain/internal/runtime/llm_engine.go:154-176 | the index of the first event that carries an error, the length if none does |
| RuntimeEvents.MappingKeepsText | brain/internal/runtime/server.go:422-463 | mapping to the wire neither loses nor invents assistant text |
| LlmEngine.Emit | brain/internal/runtime/llm_engine.go:256-261 | an event is put out, or dropped only if the context is done |
| LlmEngine.RunWithTools | brain/internal/runtime/llm_engine.go:129-252 | the loop itself, for every answer of the context and every choice of its selects: its output is one the transition system allows; cancelled from the start it is at most a Done that says cancel; without cancellation it is the whole script, whose meaning is ToolTurnShows |
| LlmAdapter.LLMAdapterBridge.Pump | brain/internal/runtime/llm_adapter.go:231-320 | what is sent is the mirrored prefix of the source, at most the last event lost to cancellation; the preview is the first min(4096, total) bytes of the text read; usage and credential error are the last ones read |
| LlmAdapter.GrowIsCapped | brain/internal/runtime/llm_adapter.go:275-285 | growing a capped preview by a token gives the cap of the whole text |
| LlmAdapter.CredentialErrorMeans | brain/internal/runtime/llm_adapter.go:22-32 | an error is put down to the key exactly when one of five phrases is part of its message in lower case |
| LlmAdapter.CaseDoesNotMatter | brain/internal/runtime/llm_adapter.go:22-32 | messages that differ only in the case of letters are judged alike |
| LlmAdapter.LLMAdapterBridge.SetAdapter | brain/internal/runtime/llm_adapter.go:91-96 | a new adapter clears the credential error |
| LlmAdapter.LLMAdapterBridge.MarkCredentialError | brain/internal/runtime/llm_adapter.go:102-106 | the message is remembered and nothing else changes |
| ChatServer.Server.Send | brain/internal/runtime/server.go:270-417 | sessions, store and wire after the loop, and why it stopped, as the specification of the whole stream says |
| ChatServer.Server.RunTurn | brain/internal/runtime/server.go:280-416 | one accepted message: user text stored, block sent as far as the connection carries it, reply stored, turn counted and no longer cancellable |
| ChatServer.Server.Reply | brain/internal/runtime/server.go:327-416 | refused by the gate, failed in dispatch or served: the block that goes out and what is stored |
| ChatServer.Server.Forward | brain/internal/runtime/server.go:385-403 | exactly the mapped events go out, up to the failure, and the buffer is their text |
| ChatServer.Server.Refuse | brain/internal/runtime/server.go:330-352 | a refusal is an Error and a partial Done |
| ChatServer.Server.CancelTurn | brain/internal/runtime/server.go:465-479 | finds the turn to cancel, changes no state, reports a missing session |
| ChatServer.Server.CreateSession | brain/internal/runtime/server.go:250-267 | a fresh session replaces none of the others |
| ChatTheorems.WireIsBlocks | brain/internal/runtime/server.go:270-417 | the wire is the accepted turns' blocks one after the other, never interleaved; if the connection fails only the last block is cut |
| ChatTheorems.EveryBlockIsWhole | brain/internal/runtime/server.go:327-416 | refused, failed in dispatch or run to its end on either engine path, a message's block carries its turn id throughout and ends in its only Done |
| ChatTheorems.EveryBlockIsClean | brain/internal/runtime/server.go:327-416 | even when turns are cancelled nothing in a block follows its Done, and it has at most one |
| ChatTheorems.OneDonePerMessage | brain/internal/runtime/server.go:270-417 | on a working connection with no interrupted turn the wire gains one Done per accepted message, each closing that message's block |
| ChatTheorems.HistoryIsTranscript | brain/internal/runtime/server.go:319-324 | each session's stored history grows by its own turns only, in order: user text, then at most one assistant message |
| ChatTheorems.ReplyIsWireText | brain/internal/runtime/server.go:404-411 | the stored assistant message is the concatenation of the text deltas of that turn's block, and is there whenever there is text to store |
| ChatTheorems.SavedMeans | brain/internal/runtime/server.go:319-411 | what a turn stores: the user's text under the user's role, then at most one message under the assistant's, which is the text of the block |
| ChatTheorems.CodesTellCauses | brain/internal/runtime/server.go:327-384 | the error code in a block tells why there is no answer: spent budget, no engine, or a failing provider, each if and only if |
| ChatTheorems.SentPartMeans | brain/internal/runtime/server.go:385-403 | a connection delivers a block's first events, as many as it has room for |
| ChatTheorems.TurnsAreCounted | brain/internal/runtime/server.go:284-294 | turnCount grows by the session's accepted messages, and any accepted message leaves no cancel function behind |
| ChatTheorems.ServeStops | brain/internal/runtime/server.go:270-284 | how far the loop gets and the status it returns, in terms of the messages and the stream's end |
| ChatTheorems.ServeInduction | brain/internal/runtime/server.go:270-417 | the induction principle of the message loop, from which the statements above follow |
| CriticalPath.ComputeCriticalPath | brain/internal/server/handlers_topology_ai.go:392-551 | the path is a deepest one and the first of those found, repeats no node and starts at an entry point; it is empty exactly when nothing of the entry kinds is in scope; the flagged nodes and bottlenecks are exactly those the definitions give |
| CriticalPath.Search | brain/internal/server/handlers_topology_ai.go:446-487 | the path found is a shortest path to its end and no reachable node is farther; the visited set is exactly the reachable set; the loop terminates |
| CriticalPath.RoundsKeepInv | brain/internal/server/handlers_topology_ai.go:452-487 | queue ordered by length over at most two lengths, shortest paths for visited nodes, nothing forgotten: after every number of rounds |
| CriticalPath.FirstIsShortest | brain/internal/server/handlers_topology_ai.go:452-470 | marking on pop is sound: the first queue entry of an unvisited node carries a shortest path |
| CriticalPath.RoundLowers | brain/internal/server/handlers_topology_ai.go:452-487 | each round visits a new node or shortens the queue |
| CriticalPath.SearchResult | brain/internal/server/handlers_topology_ai.go:446-487 | when the queue is empty the longest path is deepest and the visited nodes are the reachable ones |
| Topology.DeepestLength | brain/internal/server/handlers_topology_ai.go:446-487 | all deepest paths are equally long |
| CriticalPath.FindEntryPoints | brain/internal/server/handlers_topology_ai.go:420-450 | ingresses, without any services, without those workloads, all in scope |
| Topology.EntryPointsMean | brain/internal/server/handlers_topology_ai.go:420-450 | over the listed nodes: if an ingress is in scope the entry points are exactly the ingresses in scope; if none but a service is, exactly the services; with neither exactly the deployments and stateful sets |
| Topology.NoEntryPoints | brain/internal/server/handlers_topology_ai.go:420-450 | there are none exactly when none of these kinds is in scope |
| Topology.ScopeMeans | brain/internal/server/handlers_topology_ai.go:412-419 | an id is in scope without a namespace always, otherwise if the node last listed with it is in that namespace or in none |
| Topology.WalkMeans | brain/internal/server/handlers_topology_ai.go:446-487 | the paths searched are those that start at an entry point, stay in scope and follow edges |
| Topology.TargetsMean | brain/internal/server/handlers_topology_ai.go:400-404 | a node has one downstream entry for each edge that leaves it |
| Topology.SourcesMean | brain/internal/server/handlers_topology_ai.go:400-404 | and one upstream entry for each that enters it |
| Topology.EntryPointsInOrder | brain/internal/server/handlers_topology_ai.go:420-450 | they come in the order of the node list, once for each time they are listed |
| Topology.TargetsInOrder | brain/internal/server/handlers_topology_ai.go:400-404 | the downstream entries come in the order of the edges |
| CriticalPath.KeepsFirst | brain/internal/server/handlers_topology_ai.go:466-485 | a path is given up for a longer one only, so of the deepest the first found is reported |
| CriticalPath.BuildAdjacency | brain/internal/server/handlers_topology_ai.go:400-412 | both maps list exactly the edges' ends, in order |
| CriticalPath.FindSpofs | brain/internal/server/handlers_topology_ai.go:502-539 | exactly the flagged nodes of the path |
| CriticalPath.FindBottlenecks | brain/internal/server/handlers_topology_ai.go:541-548 | exactly the in-scope nodes with three downstream edges or more, in whatever order the map is walked |
| CriticalPath.NoLaterEntryPoint | brain/internal/server/handlers_topology_ai.go:502-539 | no node of the path after the first is an entry point |
| CriticalPath.FlaggedMeans | brain/internal/server/handlers_topology_ai.go:502-539 | past the first node the providers-on-path test is always true for one provider: flagged if and only if single-replica workload or exactly one incoming edge |
| CriticalPath.FlaggedInEdges | brain/internal/server/handlers_topology_ai.go:502-539 | told from the edges: flagged nodes have incoming edges and are single-replica workloads or have their only one from the path |
| CriticalPath.BottleneckInEdges | brain/internal/server/handlers_topology_ai.go:541-548 | told from the edges: bottlenecks have three outgoing ones or more, are listed and in scope |
| CriticalPath.SpofIsUnavoidable | brain/internal/server/handlers_topology_ai.go:502-539 | every in-scope path from any entry point to a node with one incoming edge passes through its predecessor on the reported path |
| CriticalPath.OnlyWayInExactly | brain/internal/server/handlers_topology_ai.go:502-539 | every in-scope path to a later node comes in from its predecessor if and only if all its reachable providers are that predecessor |
| CriticalPath.SpofMissedExactly | brain/internal/server/handlers_topology_ai.go:502-539 | when the detection misses a node with only one way in, and when it flags one with another way in, each if and only if |
| CriticalPath.ParallelEdgesHideSpof | brain/internal/server/handlers_topology_ai.go:502-539 | with its one provider listed twice such a node still has one way in but is flagged only as a single replica |
| CriticalPath.StrayProviderHidesSpof | brain/internal/server/handlers_topology_ai.go:502-539 | a provider that nothing reaches hides such a node too, on a concrete graph |
| Trend.DivisorClosed | brain/internal/analytics/engine.go:225-238 | the slope's divisor is n * n * (n * n - 1) / 12 |
| Trend.DivisorPositive | brain/internal/analytics/engine.go:225-238 | so it is at least one from two points on |
| Trend.LeastSquares | brain/internal/analytics/engine.go:225-249 | no line has a smaller residual sum than the fitted one, and no other line has the same |
| Trend.FitQualityRange | brain/internal/analytics/engine.go:240-268 | R squared is a number exactly when the window varies; then it is in [0, 1], one exactly on a line, zero exactly for slope zero |
| Trend.WindowIsEnd | brain/internal/analytics/engine.go:217-221 | the window is the last min(50, n) points |
| Trend.DirectionMeans | brain/internal/analytics/engine.go:252-260 | rising or falling means more than a hundredth a step |
| Trend.AnalyzeTrend | brain/internal/analytics/engine.go:212-274 | slope, direction and R squared of the last fifty points; an error below two points |
| Forecast.LinearRegression | brain/internal/cost/pipeline.go:647-667 | the same slope and intercept as the analytics fit; the near-zero-divisor branch is dead |
| Forecast.GetCostForecast | brain/internal/cost/pipeline.go:296-339 | six projections from the last cost along the regressed or the default slope |
| Forecast.BandHoldsCost | brain/internal/cost/pipeline.go:316-336 | the band holds the projected cost and no figure is negative |
| Forecast.ProjectionMeans | brain/internal/cost/pipeline.go:310-336 | the band is eight percent either way, the growth is relative to the base, and the word follows the slope |
| Forecast.DefaultGrowth | brain/internal/cost/pipeline.go:300-320 | with fewer than two snapshots the cost grows by three percent of the base a month |
| Forecast.ForecastExtrapolates | brain/internal/cost/pipeline.go:296-339 | a history on a line is continued on that line, cut at zero |
| Forecast.FitIsLine | brain/internal/cost/pipeline.go:647-667 | on exactly linear data the regression returns that line |
| Statistics.CalculateStatistics | brain/internal/analytics/engine.go:383-443 | the figures of the specification, zero for no data |
| Statistics.PercentileMonotone | brain/internal/analytics/engine.go:446-465 | the interpolated percentile is monotone in p and stays within the data |
| Statistics.AtBetweenNeighbours | brain/internal/analytics/engine.go:446-465 | between two neighbouring ranks the percentile moves in proportion |
| Statistics.StatsOnLine | brain/internal/analytics/engine.go:383-443 | all figures of evenly climbing data in closed form |
| Statistics.StatsAreOrdered | brain/internal/analytics/engine.go:383-443 | min <= p50 <= p95 <= p99 <= max, IQR and variance not negative |
| Statistics.ExtremesBound | brain/internal/analytics/engine.go:383-443 | min and max are attained and bound every sample |
| Statistics.StatsForgetOrder | brain/internal/analytics/engine.go:383-443 | no figure depends on the order of the data |
| Anomalies.DetectAnomalies | brain/internal/analytics/engine.go:146-209 | the outliers in order, then the flapping report; an error below three points |
| Anomalies.DetectFlapping | brain/internal/analytics/engine.go:482-524 | reports flapping exactly by the number of direction changes |
| Anomalies.FlappingMeans | brain/internal/analytics/engine.go:482-524 | flapping is reported once, for the last point, exactly when there are five points or more and over three tenths of them are peaks or dips |
| Anomalies.OutliersReportFar | brain/internal/analytics/engine.go:146-209 | each point beyond the threshold has one report, in order, a spike above the mean and a drop below it; no other point has |
| Anomalies.SeverityMeans | brain/internal/analytics/engine.go:468-479 | critical beyond twice the threshold, severe beyond one and a half times, moderate otherwise, never minor |
| Anomalies.FewOutliers | brain/internal/analytics/engine.go:146-209 | Chebyshev: if there are spikes or drops, their number times the squared threshold is below n |
| Anomalies.NoSampleTooFar | brain/internal/analytics/engine.go:383-443 | (x - mean) squared is at most (n - 1) times the variance |
| Anomalies.ShortSeriesIsQuiet | brain/internal/analytics/engine.go:146-209 | a series with n - 1 <= k squared has no z-score anomaly |
| Anomalies.OutliersPossible | brain/internal/analytics/engine.go:146-209 | some series of n points has one if and only if n - 1 > k squared |
| Anomalies.QuietLengthIsExact | brain/internal/analytics/engine.go:146-166 | the longest always-quiet length for each sensitivity |
| NearestRank.PercentileInt | brain/cmd/bench/main.go:681-696 | the rank value, zero for no samples |
| NearestRank.RankValueIsLeast | brain/cmd/bench/main.go:681-696 | for p from 1 to 100 the least value such that at least p percent of the samples are no greater, and a sample itself |
| NearestRank.RankValueClamps | brain/cmd/bench/main.go:681-696 | outside that range the minimum or the maximum |
| RateLimiter.Limiter.Allow | brain/internal/middleware/ratelimit.go:51-83 | the new buckets and the answer, as the specification says |
| RateLimiter.Limiter.Cleanup | brain/internal/middleware/ratelimit.go:86-98 | removes exactly the buckets last refilled more than ten minutes ago |
| RateLimiter.RunKeepsSound | brain/internal/middleware/ratelimit.go:51-98 | 0 <= tokens <= limit after any run of requests and cleanups |
| RateLimiter.SweepsHidden | brain/internal/middleware/ratelimit.go:51-98 | with a positive limit no schedule of cleanups changes any answer |
| RateLimiter.CleanupUnobservableExactly | brain/internal/middleware/ratelimit.go:51-98 | cleanup is unobservable if and only if the limit is positive |
| RateLimiter.RateBound | brain/internal/middleware/ratelimit.go:51-83 | in any window of any run one client is admitted at most rpm + ceil(rpm * d / minute) times; rounded down when its bucket is created in the window |
| RateLimiter.WaitBound | brain/internal/middleware/ratelimit.go:51-98 | in any stretch of any run with cleanups in which a client is only denied, its requests lie less than one token's time apart: who waits that long is admitted |
| RateLimiter.BurstIsAdmitted | brain/internal/middleware/ratelimit.go:51-98 | after a pause a client is admitted as often as the pause has earned, up to the limit, and a new one up to the limit, whatever is cleaned up meanwhile |
| RateLimiter.DeniedIsEarly | brain/internal/middleware/ratelimit.go:60-83 | a denied request leaves the bucket as it was and has earned less than a token |
| Cost.AnalyzePodOptimization | brain/internal/cost/optimizer.go:52-137 | exactly the recommendations of the specification |
| Cost.PodSavings | brain/internal/cost/optimizer.go:52-137 | each recommendation saves something and all of a pod's together at most its monthly cost |
| Cost.NodeSavings | brain/internal/cost/optimizer.go:140-174 | the same for a node |
| Cost.CalculateTotalSavings | brain/internal/cost/optimizer.go:233-239 | the loop computes the sum |
| Cost.WasteWithinCost | brain/internal/cost/pipeline.go:358-409 | a pod's waste lies between zero and its monthly cost |
| Cost.NodeWasteWithinCost | brain/internal/cost/pipeline.go:412-455 | a node's too |
| CostLaws.PodWasteMeans | brain/internal/cost/pipeline.go:358-409 | waste and the used share of the cost make up a pod's cost; a pod that costs something wastes nothing exactly when both resources are used to at least their request |
| CostLaws.NodeWasteMeans | brain/internal/cost/pipeline.go:412-455 | the same for a node and its capacity |
| CostLaws.EqualCostPods | brain/internal/cost/pipeline.go:386-393 | of two pods at the same cost the one with the higher score wastes less, and conversely |
| CostLaws.EqualCostNodes | brain/internal/cost/pipeline.go:436-439 | so of two nodes |
| CostLaws.FullScore | brain/internal/cost/pipeline.go:386-389 | the score is 100 exactly when both resources are fully used, and 0 exactly when neither is used |
| CostLaws.ScoreRises | brain/internal/cost/pipeline.go:386-389 | it rises with the use of either resource up to its limit, and never falls |
| CostLaws.ScoreIsMean | brain/internal/cost/pipeline.go:386-389 | below the limits it is the mean of the two utilizations |
| CostLaws.UnknownUsage | brain/internal/cost/pipeline.go:376-432 | where no usage is known a pod scores 60 and a node 50 |
| CostLaws.PodPrice | brain/internal/cost/calculator.go:128-157 | a pod's monthly cost from its request, or the default one, and the price list, in proportion over hour, day and month |
| CostLaws.NodePrice | brain/internal/cost/calculator.go:159-181 | a node's |
| CostLaws.OtherPrices | brain/internal/cost/calculator.go:183-233 | a volume's, and a load balancer's; other services cost nothing |
| CostLaws.PodAdviceMeans | brain/internal/cost/optimizer.go:52-137 | which recommendations a pod gets, for whom, and what each saves: all but a fifth more than is used, or the whole cost |
| CostLaws.NodeAdviceMeans | brain/internal/cost/optimizer.go:140-174 | a node is recommended away exactly when its mean utilization is below three tenths |
| CostLaws.NoPodIsIdle | brain/internal/cost/pipeline.go:376-407 | the pipeline finds pods overprovisioned only, never idle |
| CostSnapshot.AggregateClusterCost | brain/internal/cost/calculator.go:236-262 | total, totals by type and totals by namespace of all resources |
| CostSnapshot.TypesSumToTotal | brain/internal/cost/calculator.go:236-262 | the totals by type add up to the cluster total |
| CostSnapshot.NamespacesSumToNamespaced | brain/internal/cost/calculator.go:236-262 | visited in any order the totals by namespace add up to the cost of what belongs to one |
| CostSnapshot.NamespaceKeys | brain/internal/cost/calculator.go:236-262 | the namespaces listed are exactly those of the resources |
| CostSnapshot.CostPipeline.Scrape | brain/internal/cost/pipeline.go:109-209 | the snapshot of the specification becomes the last one and joins the ring; what its figures mean is stated by CostLaws |
| CostSnapshot.CostPipeline.SetCustomPricing | brain/internal/cost/pipeline.go:92-98 | replaces the prices the next snapshot is computed with, and nothing else |
| CostSnapshot.CostPipeline.RecordSnapshot | brain/internal/cost/pipeline.go:495-500 | appends, dropping the oldest beyond thirty |
| CostSnapshot.RingHoldsLast | brain/internal/cost/pipeline.go:495-500 | after any run the ring is the last thirty snapshots in order |
| CostSnapshot.SavingsNeverExceedCost | brain/internal/cost/pipeline.go:109-209 | the listed savings, and the listed waste, never exceed the cluster's monthly cost |
| CostSnapshot.AnyRankingIsCovered | brain/internal/cost/pipeline.go:109-209 | the same for every order the unstable sort may leave ties in |
| CostSnapshot.TopIsBest | brain/internal/cost/pipeline.go:166-184 | nothing cut from the top twenty saves more than anything listed |
| CostLaws.TopWasteIsWorst | brain/internal/cost/pipeline.go:166-184 | nothing cut from the twenty most wasteful wastes more than anything listed |
| CostLaws.ListsAreRanked | brain/internal/cost/pipeline.go:166-184 | both lists come in order, the most first |
| CostLaws.EverythingIsCounted | brain/internal/cost/pipeline.go:119-164 | every pod, node, volume and load balancer is counted once, every pod and node scored once |
| CostLaws.NamespaceIsChargedItsOwn | brain/internal/cost/calculator.go:236-262 | a namespace is charged the hours of its own resources |
| CostLaws.TypeIsChargedItsOwn | brain/internal/cost/calculator.go:236-262 | and so is a type |
| CostLaws.MonthIsSum | brain/internal/cost/calculator.go:236-262 | the cluster's monthly total is the sum of what its resources cost in a month |
| Migrations.SqliteStore.MigrateStore | brain/internal/db/sqlite.go:294-323 | one run, cut off after any number of statements, leaves the database of the specification |
| MigrationTheorems.OneRun | brain/internal/db/sqlite.go:294-323 | from any state an interrupted run can leave, a run of any length fails no statement, stops at such a state, and if it finishes has the complete schema |
| MigrationTheorems.Convergence | brain/internal/db/sqlite.go:294-323 | after any number of interrupted runs a run that finishes leaves exactly the database of one uninterrupted run, and a further run changes nothing; it finishes if it may execute as many statements as the whole list has |
| MigrationTheorems.Rerun | brain/internal/db/sqlite.go:310-319 | repeating a migration's statements from any point leaves what was done unchanged and completes the rest |
| MigrationTheorems.CompleteIsFinal | brain/internal/db/sqlite.go:303-311 | once all versions are recorded migration touches nothing, edited or deleted seed rows included |
| MigrationTheorems.UninterruptedFinishes | brain/internal/db/sqlite.go:294-323 | a run with enough statements finishes |
| MigrationTheorems.ResumedFinishes | brain/internal/db/sqlite.go:294-323 | the same from wherever earlier runs were cut off |
| MigrationTheorems.ServiceListIsSound | brain/internal/db/sqlite.go:16-257 | the service's own list satisfies the assumptions, with version 7 before 6 |
| MigrationTheorems.ServiceConverges | brain/internal/db/sqlite.go:16-257 | convergence for the service's own list, with versions 1 to 7 recorded |
| MigrationTheorems.CompleteSchemaMeans | brain/internal/db/sqlite.go:294-323 | a complete schema has exactly the tables and indexes some migration asks for, the table of versions, and a policy for each seed |
| MigrationTheorems.ServiceSeedsStored | brain/internal/db/sqlite.go:208-257 | a run of the service's list that finishes leaves exactly its two policies, as the list has them |
| Investigations.Store.SaveInvestigation | brain/internal/db/sqlite.go:331-400 | all statements or none: a failure at any statement changes nothing |
| Investigations.Store.DeleteInvestigation | brain/internal/db/sqlite.go:484-487 | removes the row if there is one, and then its children if the connection enforces foreign keys |
| Investigations.Store.GetInvestigation | brain/internal/db/sqlite.go:401-461 | the row, findings by id, tool calls and steps ordered by turn and number |
| Investigations.GetAfterRun | brain/internal/db/sqlite.go:331-487 | after any run of saves and deletes Get finds nothing exactly when the id was deleted after its last save; otherwise it returns the last save, with type, description and creation time of the first since deletion, findings in order, tool calls and steps as sorted permutations |
| Investigations.StoredAfterSave | brain/internal/db/sqlite.go:331-399 | a save changes one id only and clears whatever rows were left under it |
| Investigations.StoredAfterDelete | brain/internal/db/sqlite.go:484-487 | a delete makes one id absent and leaves the others, cascading or not |
| Investigations.StrictOrderComesBack | brain/internal/db/sqlite.go:424-458 | children saved in strictly increasing order come back exactly |
| Investigations.ChildrenComeInOrder | brain/internal/db/sqlite.go:424-458 | tool calls come back by turn and steps by number, the lowest first |
| Investigations.CascadeLeavesNoOrphans | brain/internal/db/sqlite.go:484-487 | if every delete cascades no child row outlives its investigation |
| Investigations.DeleteLeavesOrphansExactly | brain/internal/db/sqlite.go:484-487 | from an orphan-free state a delete leaves none if and only if it cascades or there are no children, over all three tables |
| Investigations.OrphansExactly | brain/internal/db/sqlite.go:331-487 | after any run an id has orphans if and only if a delete that did not cascade removed its last save, which had children, and no save of it succeeded later |
| Investigations.NoOrphansMeans | brain/internal/db/sqlite.go:119-155 | no orphans means that every row of every child table has its investigation |
| Investigations.OrphanWithoutCascade | brain/internal/db/sqlite.go:278-283 | for every record with children: save, delete without cascade, and the orphans also survive a later cascading delete |
| RenderFence.RenderExecutor.Execute | brain/internal/llm/executor_wrapper.go:108-151 | a successful call of any registered tool appends exactly one render block, of the tool's type, and answers the stub; another tool or an error passes through with none |
| RenderFence.FenceIsExact | brain/internal/llm/executor_wrapper.go:68-151 | two results of one call look the same to the model if and only if the blocks have the same type and, for types that name one, the same row count |
| RenderFence.RegisteredIsFenced | brain/internal/render/registry.go:60-119 | every registered tool is fenced, each inspection included, and no other |
| RenderFence.AnswersAreFenced | brain/internal/llm/executor_wrapper.go:68-151 | the same of the answers of Execute: two successful results of a registered tool are told apart exactly by type and, where named, count |
| RenderFence.RenderedAsRegistered | brain/internal/render/registry.go:60-119 | lists show tables, single resources documents and logs log blocks whenever they render, and error blocks otherwise |
| RenderFence.RendersMeans | brain/internal/render/chokepoint.go:40-108 | a result is shown exactly when it was shaped, is at most a million bytes and, for a list, has a status in each row; otherwise the block carries at most 200000 bytes of it |
| RenderFence.DocumentsTellOneBit | brain/internal/llm/executor_wrapper.go:68-105 | for document tools the model learns only whether the result could be rendered |
| RenderFence.LogsTellOneBit | brain/internal/llm/executor_wrapper.go:153-172 | for logs too, whatever the number of lines: the count told is always one |
| RenderFence.StubIsReadable | brain/internal/llm/executor_wrapper.go:68-106 | the sentence determines type and count: numerals, kinds and types cannot be confused |
| RenderFence.CountMeans | brain/internal/llm/executor_wrapper.go:153-172 | the count told is the greatest of one, the rows and the total |
| RenderFence.KindIsNamed | brain/internal/llm/executor_wrapper.go:68-106 | the kind is named in lower case and in number |
| RenderFence.ToldMatchesSummary | brain/internal/llm/executor_wrapper.go:153-172 | for rendered tables the count told is max(1, the summary's row count) |
| RenderFence.ToldIsShown | brain/internal/llm/executor_wrapper.go:108-151 | the stub describes the block that was emitted, whatever the session's namespace |
| RenderFence.BuildDeterministicResponse | brain/internal/render/chokepoint.go:40-79 | every failure becomes an error block, never the analytical path |
| RenderFence.MaybeTruncate | brain/internal/render/chokepoint.go:96-108 | fills the buffer with the prefix and the suffix, never more than the limit |
| RenderFence.Derive | brain/internal/render/derive.go:19-77 | the loop computes count, namespace and status histogram |
| RenderFence.DerivedMeans | brain/internal/render/derive.go:19-77 | what the summary input is, for lists, documents and logs: namespace, count, and how often each status occurs |
| RenderFence.ListsIgnoreSession | brain/internal/llm/executor_wrapper.go:108-151 | a table is labelled with the namespace seen in it, never with the session's |
| RenderFence.SummarySeesOnlyCounts | brain/internal/render/derive.go:19-77 | tables with the same bag of statuses, total and namespace have the same summary input |
| RenderFence.HistogramCountsRows | brain/internal/render/derive.go:47-52 | the histogram counts every row once |
| AnomalyFeed.Pipeline.RecordAnomaly | brain/internal/analytics/pipeline.go:264-271 | reslicing, growing and appending in place, the cache stays the one the full history determines |
| AnomalyFeed.Pipeline.GetAnomalies | brain/internal/analytics/pipeline.go:119-142 | an array of its own with the cached records, or those in the namespace |
| AnomalyFeed.Pipeline.HandlePipelineAnomalies | brain/internal/server/handlers_analytics.go:60-82 | answers newest first from the cache; the in-place reversal of the copy leaves every cell of the cache's own buffer alone |
| AnomalyFeed.ReverseFrom | brain/internal/server/handlers_analytics.go:79-82 | the two-index loop reverses the tail and nothing else |
| AnomalyFeed.CacheIsSuffix | brain/internal/analytics/pipeline.go:264-271 | the cache is the end of the history, of a length given in closed form |
| AnomalyFeed.CacheBounds | brain/internal/analytics/pipeline.go:264-271 | at least min(total, 901) and at most min(total, 1000) records |
| AnomalyFeed.ServedFromHistory | brain/internal/server/handlers_analytics.go:60-82 | the answer is that of the full history if and only if the cache still holds as many records as asked for |
| AnomalyFeed.NewestMeans | brain/internal/server/handlers_analytics.go:60-82 | the answer is the last min(limit, n) records counted back from the end; the limit is fifty unless a positive one is given |
| AnomalyFeed.InNamespaceMeans | brain/internal/analytics/pipeline.go:119-142 | a namespace matches whole, up to the slash |
| AnomalyFeed.FilterMeans | brain/internal/analytics/pipeline.go:119-142 | each matching record is kept as often as it is there, and no other |
| AnomalyFeed.HonouredLimits | brain/internal/server/handlers_analytics.go:60-82 | a limit is honoured for every history if and only if it is at most 901 |
| AnomalyFeed.ServedForNamespace | brain/internal/server/handlers_analytics.go:60-82 | the same condition for requests with a namespace, on the matching records |
| AnomalyFeed.NamespaceLimits | brain/internal/analytics/pipeline.go:119-142 | with a namespace a limit is honoured for every history if and only if it is zero, which no request can ask for |
| AnomalyFeed.NamespaceCanLoseAll | brain/internal/analytics/pipeline.go:119-142 | whatever the limit, a record of a namespace is pushed out by a thousand others |
| LogCluster.Cluster | brain/internal/logpattern/cluster.go:34-79 | one pattern per template, greatest counts first, with exact count, pod set, first and last time, however the maps are walked |
| LogCluster.Accumulate | brain/internal/logpattern/cluster.go:43-59 | each template's accumulator describes exactly its lines |
| LogCluster.OrderDoesNotMatter | brain/internal/logpattern/cluster.go:34-79 | for any permutation of the lines and any map order the output is the same sequence but for the samples; for the same lines it is the same entirely |
| LogCluster.CountsSumToLines | brain/internal/logpattern/cluster.go:34-79 | every line is counted once |
| LogCluster.TemplatesDiffer | brain/internal/logpattern/cluster.go:34-79 | no template is listed twice |
| LogCluster.TemplatesListed | brain/internal/logpattern/cluster.go:34-79 | the templates listed are those of the lines |
| LogCluster.MostFrequentFirst | brain/internal/logpattern/cluster.go:72-77 | greater counts come first, and among equal ones the template that is smaller byte by byte |
| LogCluster.FirstMatching | brain/internal/logpattern/cluster.go:46-50 | the sample is the first line of its template in the input |

## Left out

- Floating point: rounding, overflow and NaN are not modelled; the deviation is
  represented by its square, and the coefficient of variation is omitted. The
  bench's percentile takes the exact ceiling of p * n / 100.
- Transport and plumbing: gRPC, HTTP, SQL text, JSON, metrics, audit events,
  traces, durations and random ids. Tables, wire and shaped JSON are kept as data.
- Environment: the provider adapter, budget gate, dispatcher choice, summary
  writer, shapers and `Extract` are arbitrary; the dispatcher passes engine events
  through unchanged. Tool arguments reach the engine already rendered as text.
- Two streams on one session at the same time: `sess.cancel` is overwritten there.
- ChatServer.Server.Send: sessions and log accumulators are value records in a
  map, so aliasing of `*session` pointers is not captured; the interplay of one
  turn's goroutines is in the transition system, and Send receives its events.
- ChatServer.Server.CancelTurn: names the turn whose context is to be cancelled;
  the effect of cancelling is a step of the transition system.
- TurnTheorems.NeverStuck: assumes a provider that always delivers or closes; what a
  silent one means is stated by SilenceOutlastsCancel.
- CriticalPath.FindSpofs: yields a set of ids; the display names and the order of
  the reply are not modelled.
- Cost: savings percentages, priorities, prose, efficiency grades and the split of
  a pod's cost into CPU and memory; volume advice, which the pipeline never asks for.
- Investigations.Store.GetInvestigation: read errors part-way are not modelled,
  and timestamps round-trip as instants.
- RenderFence.StubIsReadable: lower-casing of the kind is ASCII only; arguments are
  the same in both runs, so what the model said itself is not counted as learnt.
- LogCluster.OrderDoesNotMatter: the sample line does depend on the order of the lines.
- Listing endpoints, health scores, recommendations, security and compliance rules,
  policies, configuration and the other store tables: branch tables that would add
  only easy members.
