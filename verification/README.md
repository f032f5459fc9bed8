# Model of the trading bot's data pipeline and clients

The project models four parts of the repository and proves what they promise.

**The market-data pipeline** (`Averages`, `Bars`, `Ema`, `Atr`, `Macd`, `Aggregation`,
`AggregationProperties`, `Engine`, `Pipeline`). One-minute bars go through an aggregator into an
indicator engine that feeds an exponential moving average, an average true range and a MACD. Each
object is a class with the fields of the original. Each has a batch meaning, a function of all the
bars it has received, and every method is proved to keep the object at that meaning. `Run` chains
the objects; `EndToEnd` says how many outputs a run of bars gives and what each output is. About the
batch meaning the project proves closed forms, bounds, forgetting, trends, lags, affine behaviour,
conservation of volume, and when emitted bars are adjacent. Both averages are one smoother
(`Averages.Smooth`) with different weights, so most of this is proved once.

**The REST client's request queue** (`Urls`, `RequestQueue`, `RequestQueueSafety`,
`RequestQueueProgress`, `RequestQueueEvents`, `RestClient`). Requesters and one worker coroutine
share a deque, a connection state, an origin and a TLS flag. The model is a state machine whose events
are the stretches of code between two suspensions; outcomes of awaited operations are parameters of
the events. `AsyncRestClient` is the same client as an object: each method is proved to be one event, and
to keep a valid client valid exactly under the condition on that event. The main results speak of all
runs, each under a condition of its own: order and number of completions, the right connection during
every send, one worker, no lost wake-up, a bound on the work left, and the exact number of connects.

**The WebSocket write pump** (`WebSocketPump`, `WebSocketSession`). A queue of messages that
outlives its connections, again as a state machine and as an object that follows it.

**The order JSON codec** (`Json`, `EnumSerialization`, `OrderCodec`, `OrderCodecLaws`,
`OrderCodecNormalForm`, `OrderMessages`). Printer and parser of orders with legs nested to any depth,
the enumeration tables, closed positions and notional orders: round trips, what exactly the parser
accepts, and the normal form that parsing and printing bring JSON to.

`double` is modelled by `real`, volumes by `nat`, timestamps by `int`.

## Where the code does less than it seems to

For each of these the condition under which the property holds is proved to be exact, and most come
with a lemma that gives an input on which it fails.

- `isConsecutive` also accepts a right bar that ends where the left one starts, so the aggregator
  takes runs that go back and forth. Bars emitted for a target in minutes are adjacent exactly when
  the input went straight, one way or the other, between their starts (`MinuteTargetAdjacent`);
  minutes 0, 1, 0, 1 are taken and give bars that are not (`BackAndForth`).
- The assertion on the target length compares raw counts, and the input's count is 1, so it excludes
  no target. On a forward run, whether neighbouring bars are adjacent is decided by where the first
  of them starts in its unit and by the part of the target that is no whole minute
  (`ForwardAdjacent`). For a unit that divides a minute they are adjacent exactly when the target is
  whole minutes (`DividingUnitAdjacent`), so never for 90 seconds (`NinetySecondsNeverAdjacent`); for
  months and years it depends on the start.
- The cast of the timestamp truncates toward zero, so whole minutes are not enough across the epoch
  (`WholeMinutesAdjacent`): hours counted from minute -30 give two bars that start at hour 0
  (`HourLostAtEpoch`).
- The average true range takes a close of -1.0 for "no previous bar" and drops the true range of the
  next bar (`RangesCount`, `SentinelDropsRange`).
- Two configurations of one name leave one indicator, the later (`NamedExactly`).
- The request queue makes three promises. Each is kept on a run if and only if every event meets a
  condition of its own:
  - The connection is right, and what is sent goes to its origin: if and only if nobody calls
    `connect` from outside during a send or a shutdown (`ConnectionOnRun`, `OutsideConnectExactly`).
  - Every completed task was heard: if and only if the worker is never refused by `connect` before
    its first suspension while the front task has yet to be listened to (`HeardOnRun`). For a request
    that starts the worker in place, `LostExactly` says when that happens; `LostRequest` is such a
    request.
  - What is queued has one worker: if and only if no posted worker gets its turn beside a running one
    (`WorkerOnRun`). Requests that wait for a posted worker's turn see to that (`OnePostedExactly`);
    two requests before the event loop turns do not (`TwoPostedWorkers`).
- A failed TLS shutdown, and nothing else, throws out of the worker, and the queue is never served
  again (`DeadExactly`, `DeadCompletesNothing`).
- The write pump keeps its promise on a run if and only if every handshake finds no write of an
  earlier connection in flight, and the configured messages are empty or the queue is not
  (`WebSocketPump.RunExactly`). Failures, reconnects and overlapping connection chains do no harm
  otherwise.
  - A configured authentication or subscription message that meets an empty queue is written twice
    (`HandshakeWritesExactly`), and in the end a message is popped off an empty queue
    (`LoudHandshakeUnderflows`). The market feed leaves both messages empty.
  - A connection that is lost with a message in flight starts two connection chains
    (`OverlappingChains`), from a state that an ordinary run reaches (`FirstWrite`). When the session
    reconnects before that write is over, the message is written twice (`WrittenTwice`). A chain stays
    single if and only if none begins beside another or beside a write (`ChainsExactly`).
- A session that is stopped stays disconnected when no connection attempt is under way
  (`StoppedForGood`); otherwise it can still connect (`StopOvertaken`).
- The parser of a notional order looks at neither the type nor the time in force
  (`NotionalFixed`).

## Model

| member | source | states |
|---|---|---|
| Averages.StepForm | src/indicators/EMA.cpp:53-64 | warm-up and recursion are one convex step whose weight is 1/k while warming up and fixed afterwards |
| Averages.ClosedForm | src/indicators/EMA.cpp:53-64 | after any samples the smoother is the weighted sum of all of them |
| Averages.WeightsAverage | src/indicators/EMA.cpp:53-64 | the weights of the closed form are non-negative and add up to 1 |
| Averages.SeedForm | src/indicators/EMA.cpp:53-64 | the seed mean decays as a whole, each later sample from its own weight |
| Averages.Bounds | src/indicators/EMA.cpp:53-64 | a smoother never leaves the range of its samples |
| Averages.Forgetting | src/indicators/EMA.cpp:53-64 | two ready smoothers fed the same m samples differ by (1-w)^m times their gap |
| Averages.AffineEquivariant | src/indicators/EMA.cpp:53-64 | mapping the samples by ax+b maps the value by ax+b |
| Averages.FastLeads | src/indicators/EMA.cpp:53-64 | on rising samples the smoother with the larger weight at every step stays ahead, behind the last sample |
| Averages.LineLag | src/indicators/EMA.cpp:53-64 | on a straight line a ready smoother lags by a constant (p-1)/2 samples |
| ExponentialMovingAverage.EMA.constructor | src/indicators/EMA.cpp:9-13 | a new average has received nothing and holds the batch value of nothing |
| ExponentialMovingAverage.EMA.IsReady | src/indicators/EMA.cpp:30-33 | ready exactly when at least period samples were received |
| ExponentialMovingAverage.EMA.Read | src/indicators/EMA.cpp:35-43 | the batch value of all samples, or an error exactly before warm-up is over |
| ExponentialMovingAverage.EMA.Write | src/indicators/EMA.cpp:53-64 | one more sample; the incremental value stays the batch value |
| ExponentialMovingAverage.EMA.WriteBar | src/indicators/EMA.cpp:45-48 | a bar counts by its close |
| ExponentialMovingAverage.EmaStep | src/indicators/EMA.cpp:53-64 | mean update and blend carry the batch value on by one sample |
| ExponentialMovingAverage.EmaClosedForm | src/indicators/EMA.cpp:9-13 | the average is a weighted sum of all samples with weights that are an average |
| ExponentialMovingAverage.EmaSeedForm | src/indicators/EMA.cpp:53-64 | (1-alpha)^(m-p) times the seed mean plus alpha(1-alpha)^(m-1-i) times each later sample |
| ExponentialMovingAverage.EmaForgets | src/indicators/EMA.cpp:53-64 | two ready averages of one period on the same m inputs differ by exactly (1-alpha)^m times their gap |
| ExponentialMovingAverage.EmaBounds | src/indicators/EMA.cpp:53-64 | the average lies between any bounds on the closes |
| ExponentialMovingAverage.EmaAffine | src/indicators/EMA.cpp:53-64 | ax+b on the closes is ax+b on the average |
| ExponentialMovingAverage.FasterStepWeight | src/indicators/EMA.cpp:9-13 | the shorter period has the larger step weight in all three phases of the pair |
| ExponentialMovingAverage.ShorterLeads | src/indicators/EMA.cpp:53-64 | on rising closes: last close, shorter average, longer average, in this order |
| ExponentialMovingAverage.EmaLag | src/indicators/EMA.cpp:53-64 | on closes a+bn the ready average is the last close minus b(p-1)/2, for ever |
| AverageTrueRange.ATR.constructor | include/indicators/ohlcv/ATR.hpp:37-40 | a new indicator has received nothing; the previous close is the sentinel |
| AverageTrueRange.ATR.IsReady | src/indicators/ATR.cpp:30-33 | ready exactly when at least period true ranges were taken |
| AverageTrueRange.ATR.Write | src/indicators/ATR.cpp:35-53 | one more bar; the value stays the Wilder smoothing of the true ranges, which `RangesStep` and `AtrExactly` spell out |
| AverageTrueRange.ATR.Read | src/indicators/ATR.cpp:55-63 | the batch value, or an error exactly before warm-up is over |
| AverageTrueRange.WilderStep | src/indicators/ATR.cpp:45-51 | the running mean with a count that stops at p is Wilder smoothing |
| AverageTrueRange.RangesCount | src/indicators/ATR.cpp:37-41 | every bar but the first gives a true range if and only if no predecessor closed at -1.0 |
| AverageTrueRange.RangesStep | src/indicators/ATR.cpp:37-53 | each bar adds the greatest of its three distances to the previous bar's close, or nothing when that close is -1.0 |
| AverageTrueRange.RangesAt | src/indicators/ATR.cpp:43-45 | without sentinel closes, true range i is that of bar i+1 against the close of bar i, the reach of both when low <= high |
| AverageTrueRange.AtrExactly | src/indicators/ATR.cpp:46-51 | from those true ranges, the value is their mean up to p of them, then one part in p of the latest and the rest of the value so far |
| AverageTrueRange.ReadyAfter | src/indicators/ATR.cpp:35-53 | without sentinel closes, ready from bar p+1 on and never before |
| AverageTrueRange.TrueRangeIsReach | src/indicators/ATR.cpp:65-68 | with low <= high the true range is max(high, previous close) - min(low, previous close) |
| AverageTrueRange.WilderIsEma | src/indicators/ATR.cpp:50-50 | the ready step is an exponential step of period 2p-1 |
| AverageTrueRange.SentinelDropsRange | src/indicators/ATR.cpp:37-41 | after a close of -1.0 the next bar gives no true range |
| AverageTrueRange.AtrSeedForm | src/indicators/ATR.cpp:35-53 | ((p-1)/p)^(m-p) times the mean of the first p true ranges plus the decayed later ones |
| AverageTrueRange.AtrClosedForm | src/indicators/ATR.cpp:35-53 | the value is a weighted average of all true ranges |
| AverageTrueRange.AtrBounds | src/indicators/ATR.cpp:35-53 | the value stays between 0 and any bound on the true ranges |
| AverageTrueRange.TrueRangeScales | src/indicators/ATR.cpp:65-68 | mapping the prices by ax+b scales a true range by the absolute value of a |
| AverageTrueRange.AtrScales | src/indicators/ATR.cpp:35-53 | the same for the indicator, when the map neither creates nor removes a sentinel close |
| MovingAverageConvergence.MACD.constructor | src/indicators/MACD.cpp:20-25 | three separate averages of the three periods, nothing received |
| MovingAverageConvergence.MACD.IsReady | src/indicators/MACD.cpp:35-38 | ready exactly from bar max(fast, slow) + signal on |
| MovingAverageConvergence.MACD.Write | src/indicators/MACD.cpp:40-53 | both averages hold all closes, the signal average the MACD line of every bar after the first max(fast, slow); no inner read throws |
| MovingAverageConvergence.MACD.Read | src/indicators/MACD.cpp:55-69 | under "macd" the gap of the averages, under "signal" the average of the gap, under "histogram" the first less the second, or an error exactly before warm-up is over; no inner read throws |
| MovingAverageConvergence.ReadingExactly | src/indicators/MACD.cpp:61-68 | the three values key by key, from the averages of the closes and of the series of their gaps |
| MovingAverageConvergence.GapSeriesExists | src/indicators/MACD.cpp:42-52 | every run of closes has such a series |
| MovingAverageConvergence.SignalInputAt | src/indicators/MACD.cpp:42-52 | sample i under the signal line is the MACD line of the first max(fast, slow)+1+i bars |
| MovingAverageConvergence.LinesWithinRange | src/indicators/MACD.cpp:40-69 | neither line exceeds the range of the closes |
| MovingAverageConvergence.RisingTrend | src/indicators/MACD.cpp:40-53 | with fast <= slow, rising closes keep both lines from being negative |
| MovingAverageConvergence.FallingTrend | src/indicators/MACD.cpp:40-53 | with fast <= slow, falling closes keep both lines from being positive |
| MovingAverageConvergence.LinesScale | src/indicators/MACD.cpp:40-69 | ax+b on the closes scales line, signal and histogram by a; b vanishes |
| MovingAverageConvergence.StraightLine | src/indicators/MACD.cpp:40-69 | on closes a+bn line and signal are b(slow-fast)/2 and the histogram is 0 at every ready bar |
| Bars.MinutesConsecutive | include/Bar.hpp:115-130 | minute bars are adjacent exactly when one minute apart, forwards or backwards |
| BarAggregation.Highest | include/BarAggregator.hpp:80-80 | the least upper bound of the highs, attained |
| BarAggregation.Lowest | include/BarAggregator.hpp:81-81 | the greatest lower bound of the lows, attained |
| BarAggregation.Accepted | include/BarAggregator.hpp:53-59 | what is taken of a run is adjacent bar by bar |
| AggregationProperties.EmittedExactly | include/BarAggregator.hpp:61-94 | one target bar for every N taken bars; bar i has the start, symbol and open of taken bar i*N, the close of bar (i+1)*N-1, and the attained extremes and the volume of all N |
| BarAggregation.Window | include/BarAggregator.hpp:72-94 | the open window holds taken mod N bars |
| BarAggregation.BarAggregator.constructor | include/BarAggregator.hpp:33-39 | a new aggregator has taken nothing |
| BarAggregation.BarAggregator.OnBar | include/BarAggregator.hpp:43-95 | an error exactly for a bar not adjacent to the last, which then changes nothing; otherwise the bar is taken and what is sent is what the batch meaning gains |
| BarAggregation.EmittedStep | include/BarAggregator.hpp:90-94 | one more taken bar emits the window that it completes, or extends the window |
| BarAggregation.WindowStep | include/BarAggregator.hpp:61-86 | starting and extending the aggregated bar is folding the window |
| BarAggregation.ChunkStays | include/BarAggregator.hpp:61-94 | later bars leave earlier windows alone |
| AggregationProperties.VolumeConserved | include/BarAggregator.hpp:43-95 | the taken volume is in the emitted bars or in the open window |
| AggregationProperties.OrderKept | include/BarAggregator.hpp:76-84 | well-ordered prices stay well-ordered |
| AggregationProperties.FoldOfFolds | include/BarAggregator.hpp:61-94 | folding neighbouring target bars is folding all bars under them |
| AggregationProperties.ScaleComposition | include/BarAggregator.hpp:61-94 | bar i of an aggregator of m*n minutes is the fold of m bars of one of n minutes |
| AggregationProperties.AcceptedWhole | include/BarAggregator.hpp:53-59 | a run is taken whole exactly when every bar is adjacent to the one before |
| AggregationProperties.Displacement | include/Bar.hpp:115-130 | n adjacent steps move n minutes one way exactly when every step goes that way |
| AggregationProperties.MinuteTargetAdjacent | include/Bar.hpp:115-130 | emitted bars are adjacent exactly when the input went straight between their starts |
| AggregationProperties.TruncShift | include/BarAggregator.hpp:63-63 | exactly when truncation toward zero moves by whole units with its argument, on either side of the epoch and across it |
| AggregationProperties.ForwardAdjacent | include/BarAggregator.hpp:45-65 | for every target, on a forward run: neighbouring bars are adjacent if and only if the first starts far enough into its unit for the part that is no whole minute |
| AggregationProperties.WholeMinutesAdjacent | include/BarAggregator.hpp:61-65 | a target of whole minutes: adjacent if and only if no unit is lost across the epoch |
| AggregationProperties.DividingUnitAdjacent | include/BarAggregator.hpp:47-51 | a target in a unit that divides a minute passes the assertion and gives adjacent bars if and only if it is whole minutes |
| AggregationProperties.BackAndForth | include/Bar.hpp:129-129 | minutes 0, 1, 0, 1 are all taken and give two bars that are not adjacent |
| AggregationProperties.HourLostAtEpoch | include/BarAggregator.hpp:63-63 | hours from minute -30 give two bars that are not adjacent |
| AggregationProperties.NinetySecondsNeverAdjacent | include/BarAggregator.hpp:47-51 | a target of 90 seconds passes the assertion and never emits adjacent bars |
| IndicatorEngines.Create | include/IndicatorEngine.hpp:45-45 | a fresh indicator of the configured kind that has received nothing |
| IndicatorEngines.Indicator.IsReady | include/IndicatorEngine.hpp:74-79 | each indicator is ready exactly when its batch meaning says so |
| IndicatorEngines.Indicator.Write | include/IndicatorEngine.hpp:55-56 | each indicator receives exactly the bars of the engine |
| IndicatorEngines.Indicator.Read | include/IndicatorEngine.hpp:65-72 | the batch snapshot, or an error exactly when not ready |
| IndicatorEngines.NamedExactly | include/IndicatorEngine.hpp:43-49 | an indicator is kept if and only if its configuration is the last of its name |
| IndicatorEngines.SnapshotExactly | include/IndicatorEngine.hpp:65-72 | the values of each kind of indicator under their keys |
| IndicatorEngines.SentExactly | include/IndicatorEngine.hpp:43-49 | of the configurations of one kind the last counts, and its values are under the name of its kind |
| IndicatorEngines.SentOnly | include/IndicatorEngine.hpp:65-72 | nothing is sent but for the kinds that are configured |
| IndicatorEngines.IndicatorEngine.constructor | include/IndicatorEngine.hpp:40-50 | one separate fresh indicator for each name, with an empty snapshot |
| IndicatorEngines.IndicatorEngine.Add | include/IndicatorEngine.hpp:45-48 | the new indicator takes the place of one of the same name |
| IndicatorEngines.IndicatorEngine.IsReady | include/IndicatorEngine.hpp:74-79 | ready exactly when all indicators are |
| IndicatorEngines.IndicatorEngine.WriteAll | include/IndicatorEngine.hpp:55-56 | every indicator gets the bar exactly once, in whatever order |
| IndicatorEngines.IndicatorEngine.UpdateSnapshots | include/IndicatorEngine.hpp:65-72 | every snapshot is overwritten by its indicator's batch snapshot; no read throws |
| IndicatorEngines.IndicatorEngine.OnBar | include/IndicatorEngine.hpp:52-63 | sends the batch snapshots of all bars so far exactly when all indicators are ready |
| IndicatorEngines.ReadyStays | include/IndicatorEngine.hpp:74-79 | an indicator that is ready stays ready |
| IndicatorEngines.AllReadyExactly | include/IndicatorEngine.hpp:74-79 | the engine is ready exactly from the longest warm-up on; with an average true range, on bars without sentinel closes |
| MarketDataPipeline.Run | tests/TestIndicatorEngine.cpp:31-60 | aggregator and engine chained over a whole run give the batch outputs of the folded bars |
| MarketDataPipeline.OutputsExactly | include/IndicatorEngine.hpp:52-63 | how many outputs there are, and output k is made of the first R+k bars; with an average true range, on bars without sentinel closes |
| MarketDataPipeline.EndToEnd | include/BarAggregator.hpp:43-95 | for every input run: the number of target bars, the number of outputs, and the content of each output; with an average true range, when no target bar closes at the sentinel |
| MarketDataPipeline.EmittedNoSentinel | include/BarAggregator.hpp:82-82 | input without sentinel closes gives target bars without |
| MarketDataPipeline.FiveMinutePipeline | tests/TestIndicatorEngine.cpp:100-104 | on n adjacent minute bars the five-minute pipeline gives max(0, n/5 - R + 1) outputs, each made of folds of five bars |
| MarketDataPipeline.UsualFirstOutput | tests/TestIndicatorEngine.cpp:100-101 | with the usual three indicators the first output comes with the 35th target bar |
| Urls.NormalExactly | async_rest_client/src/utils.cpp:6-18 | the function is idempotent: its fixed points are exactly its results |
| Urls.NormalisedExactly | async_rest_client/src/utils.cpp:8-17 | http and https only; a missing port becomes 80 or 443; everything else stays |
| Urls.OriginStable | async_rest_client/src/async_rest_client.cpp:193-197 | connecting to a normal endpoint's origin normalises to the same origin and scheme |
| Urls.SameOriginExactly | async_rest_client/src/utils.cpp:14-15 | a default port left out and one written out are the same origin, as in section 6.2.3 of RFC 3986, and nothing else is |
| RequestQueueSafety.PushConserves | async_rest_client/src/async_rest_client.cpp:149-151 | a new task goes to the back of the queue |
| RequestQueueSafety.StepConserves | async_rest_client/src/async_rest_client.cpp:162-226 | every event keeps completed tasks followed by queued tasks in the order of creation |
| RequestQueueSafety.RunConserves | async_rest_client/src/async_rest_client.cpp:149-226 | so does every run, under no condition |
| RequestQueueSafety.AtMostOnce | async_rest_client/src/async_rest_client.cpp:162-226 | no task is completed twice or while still queued |
| RequestQueueSafety.CompleteHeadFrame | async_rest_client/include/async_rest_client/typed_task.hpp:99-107 | completing the front task appends one completion, keeps the rest of the queue in order and puts requests of the resumed requester at its end |
| RequestQueueSafety.HeadKeepsConnection | async_rest_client/src/async_rest_client.cpp:170-219 | an iteration of the worker, up to its first suspension, keeps the connection right, whatever its outcome |
| RequestQueueSafety.ProgressKeepsConnection | async_rest_client/src/async_rest_client.cpp:95-147 | so does every awaited step of connect, with either outcome |
| RequestQueueSafety.ConnectionExactly | async_rest_client/src/async_rest_client.cpp:61-264 | an event keeps the connection right if and only if it is no call of connect from outside during a send or a shutdown |
| RequestQueueSafety.ConnectionOnRun | async_rest_client/src/async_rest_client.cpp:61-264 | the connection is right throughout a run if and only if that holds of every event |
| RequestQueueSafety.CompletionHeard | async_rest_client/include/async_rest_client/typed_task.hpp:99-107 | completing the front task keeps all completions heard if and only if it has its handler |
| RequestQueueSafety.BeginConnectHeard | async_rest_client/src/async_rest_client.cpp:61-95 | the worker's connect, up to its first suspension, keeps it if and only if it is not refused at once before the requester listens |
| RequestQueueSafety.RequestHeard | async_rest_client/include/async_rest_client/async_rest_client.hpp:84-97 | a request leaves at most its own handler to be installed, on a task that is queued |
| RequestQueueSafety.InstallHeard | async_rest_client/include/async_rest_client/typed_task.hpp:109-123 | the installation finds its task |
| RequestQueueSafety.HeardExactly | async_rest_client/include/async_rest_client/typed_task.hpp:99-181 | an event keeps every completion heard if and only if the worker is not refused before the front task's requester listens |
| RequestQueueSafety.HeardOnRun | async_rest_client/include/async_rest_client/typed_task.hpp:99-181 | every completion is heard throughout a run if and only if that holds of every event |
| RequestQueueSafety.WorkerExactly | async_rest_client/src/async_rest_client.cpp:155-170 | an event keeps the worker single and what is queued provided with one if and only if no posted worker starts beside a running one |
| RequestQueueSafety.WorkerOnRun | async_rest_client/src/async_rest_client.cpp:155-170 | so throughout a run if and only if that holds of every event |
| RequestQueueSafety.OnePostedExactly | async_rest_client/src/async_rest_client.cpp:155-166 | at most one worker is posted if and only if no request is made while one waits for its turn, and then it starts alone |
| RequestQueueSafety.StepExactly | async_rest_client/src/async_rest_client.cpp:149-264 | an event keeps all three promises if and only if it meets all three conditions |
| RequestQueueSafety.PromiseOnRun | async_rest_client/src/async_rest_client.cpp:149-264 | whatever every event keeps exactly under a condition holds throughout a run exactly under that condition on every event |
| RequestQueueSafety.SentToItsOrigin | async_rest_client/src/async_rest_client.cpp:178-216 | during every send the client is connected to the task's origin, over TLS exactly for https, unless connect was called from outside during a send or a shutdown |
| RequestQueueSafety.HeardExactlyOnce | async_rest_client/include/async_rest_client/typed_task.hpp:99-181 | every completed task had its handler called, once, in the order of the requests, unless the worker was refused before a requester listened |
| RequestQueueSafety.DeadExactly | async_rest_client/src/async_rest_client.cpp:236-250 | on every run the worker is lost only by a failed TLS shutdown, and always by one while nobody calls connect during a send or a shutdown |
| RequestQueueProgress.NoLostWakeUp | async_rest_client/src/async_rest_client.cpp:155-170 | while tasks are queued, something that the worker does or waits for can happen |
| RequestQueueProgress.WorkerAdvances | async_rest_client/src/async_rest_client.cpp:170-219 | every event that nobody outside brings about, whatever its outcome, takes the client nearer to rest |
| RequestQueueProgress.QueueDrains | async_rest_client/src/async_rest_client.cpp:170-226 | left to itself the client is at rest within a number of events that the queue bounds |
| RequestQueueProgress.DeadCompletesNothing | async_rest_client/src/async_rest_client.cpp:246-249 | after a failed shutdown no task is ever completed again |
| RequestQueueProgress.LostExactly | async_rest_client/include/async_rest_client/async_rest_client.hpp:91-95 | a request is completed unheard if and only if connect returns before its first suspension |
| RequestQueueProgress.LostRequest | async_rest_client/src/async_rest_client.cpp:87-93 | the first request, to a host that cannot be named, is completed unheard |
| RequestQueueEvents.RequestedExactly | async_rest_client/src/async_rest_client.cpp:149-160 | one task at the end for a supported URL, and a worker exactly when none is processing |
| RequestQueueEvents.StartedExactly | async_rest_client/src/async_rest_client.cpp:164-166 | a posted worker runs, or runs into the assertion |
| RequestQueueEvents.InstalledExactly | async_rest_client/include/async_rest_client/typed_task.hpp:114-120 | the handler goes to the one task that waits for it |
| RequestQueueEvents.ResumedExactly | async_rest_client/include/async_rest_client/async_rest_client.hpp:91-95 | further requests of a resumed requester become tasks at the end, one for each supported URL, in order |
| RequestQueueEvents.CompletedExactly | async_rest_client/include/async_rest_client/typed_task.hpp:99-107 | the front task leaves with its outcome, and its requester, if it listens, makes further requests |
| RequestQueueEvents.IteratedExactly | async_rest_client/src/async_rest_client.cpp:170-205 | when the worker ends, sends over what is open, closes it, waits for its shutdown, or connects |
| RequestQueueEvents.ConnectBegunExactly | async_rest_client/src/async_rest_client.cpp:61-95 | refused with the outcome of a failed connect, or an attempt at the front task's origin |
| RequestQueueEvents.ShutDownExactly | async_rest_client/src/async_rest_client.cpp:236-263 | after a shutdown nothing of the old connection remains and the worker connects; a failed one ends it |
| RequestQueueEvents.SentExactly | async_rest_client/include/async_rest_client/typed_task.hpp:157-174 | a response or a failure completes the front task as such |
| RequestQueueEvents.ProgressedExactly | async_rest_client/src/async_rest_client.cpp:95-146 | a successful step connects if and only if it is the TLS handshake for https or the TCP connection for http; any other leads to the next step |
| RequestQueueEvents.AttemptFailedExactly | async_rest_client/src/async_rest_client.cpp:99-141 | a failed step ends the attempt, and the front task with it when the worker made it |
| RequestQueueEvents.OutsideExactly | async_rest_client/src/async_rest_client.cpp:61-95 | connect from outside is refused, or begins an attempt |
| RequestQueueEvents.StepsToConnect | async_rest_client/src/async_rest_client.cpp:95-146 | on every run, three successful steps lie between the beginning of an attempt and its connection for https, two for http |
| RequestQueueProgress.TwoPostedWorkers | async_rest_client/src/async_rest_client.cpp:164-164 | two requests before the loop turns make the assertion on a single worker fail |
| RequestQueueProgress.OutsideConnectExactly | async_rest_client/src/async_rest_client.cpp:61-93 | a call of connect from outside leaves the connection right if and only if the worker is neither sending nor shutting down |
| RequestQueueProgress.StepEconomical | async_rest_client/src/async_rest_client.cpp:176-205 | every event keeps the count of connects exact |
| RequestQueueProgress.RunEconomical | async_rest_client/src/async_rest_client.cpp:170-219 | at every moment of every run without calls from outside, the worker has connected once for each task that is first, follows a failed connect or changes the origin |
| RequestQueueProgress.AttemptsAreBlocks | async_rest_client/src/async_rest_client.cpp:170-219 | without failed connects that number is the number of maximal blocks of equal origins |
| RequestQueueProgress.OneConnectionPerBlock | async_rest_client/src/async_rest_client.cpp:170-219 | when every connect succeeded, as many connections as blocks of equal origins, whatever the sends' outcomes |
| RestClient.AsyncRestClient.constructor | async_rest_client/include/async_rest_client/async_rest_client.hpp:67-78 | a new client is valid: the initial state |
| RestClient.AsyncRestClient.EnqueueTask | async_rest_client/src/async_rest_client.cpp:149-160 | one task at the end for a supported URL; a valid client stays valid, and what is queued has a worker, running or posted |
| RestClient.AsyncRestClient.AsyncWait | async_rest_client/include/async_rest_client/typed_task.hpp:109-123 | the installation event; on a valid client the task is still there, and every queued task now has its handler |
| RestClient.AsyncRestClient.StartProcessing | async_rest_client/src/async_rest_client.cpp:162-166 | the start event of a posted worker; a valid client stays valid, and the assertion holds, if and only if no other worker is running |
| RestClient.AsyncRestClient.ProcessFront | async_rest_client/src/async_rest_client.cpp:170-219 | one iteration up to its first suspension; a valid client stays valid if and only if the worker is not refused before the requester listens, sends only to the front task's origin and ends only with an empty queue |
| RestClient.AsyncRestClient.ShutdownFinished | async_rest_client/src/async_rest_client.cpp:236-264 | the end of a TLS shutdown; a valid client stays valid, and a failure kills the worker and leaves the queue |
| RestClient.AsyncRestClient.ConnectProgress | async_rest_client/src/async_rest_client.cpp:95-146 | the end of an awaited step of connect; a valid client stays valid, is connected exactly by the last step of its scheme, and sends only to the front task's origin, over TLS exactly for https |
| RestClient.AsyncRestClient.SendFinished | async_rest_client/include/async_rest_client/typed_task.hpp:135-181 | the end of a send; on a valid client the front task is completed and heard, and the others move up in order |
| RestClient.AsyncRestClient.Connect | async_rest_client/src/async_rest_client.cpp:61-95 | connect called from outside begins an attempt unless refused; a valid client stays valid if and only if the worker is neither sending nor shutting down |
| WebSocketPump.StepExactly | src/WebSocketSession.cpp:51-227 | an event keeps conservation and the single writer if and only if it is no handshake that finds a write in flight or is not quiet |
| WebSocketPump.RunKeeps | src/WebSocketSession.cpp:51-227 | every run with quiet handshakes keeps them, whatever fails |
| WebSocketPump.RunExactly | src/WebSocketSession.cpp:51-227 | they hold throughout a run if and only if every handshake is quiet |
| WebSocketPump.PumpConserves | src/WebSocketSession.cpp:51-227 | across failures, reconnects and overlapping chains: acknowledged messages followed by the queue are the messages sent; at most one write, of the oldest one; connected with messages left means writing |
| WebSocketPump.AcknowledgedInOrder | src/WebSocketSession.cpp:210-227 | on every such run the m-th successful write acknowledges the m-th message sent |
| WebSocketPump.ConnectionDrains | src/WebSocketSession.cpp:222-226 | while a connection lasts, k successful writes acknowledge the next k messages and the one after is in flight |
| WebSocketPump.PumpMonotone | src/WebSocketSession.cpp:51-58 | on every run acknowledgements are never taken back and messages only join at the end |
| WebSocketPump.HandshakeWritesExactly | src/WebSocketSession.cpp:142-157 | a handshake starts at most one write if and only if the configured messages are empty or the queue is not |
| WebSocketPump.LoudHandshakeUnderflows | src/WebSocketSession.cpp:142-157 | one configured message and an empty queue: acknowledged twice, then a pop off an empty queue |
| WebSocketPump.ChainsExactly | src/WebSocketSession.cpp:60-67 | the connection chain stays single if and only if none begins beside another or beside a write |
| WebSocketPump.OverlappingChains | src/WebSocketSession.cpp:60-67 | a connection lost with a message in flight starts two chains and breaks no promise |
| WebSocketPump.FirstWrite | src/WebSocketSession.cpp:51-161 | an ordinary run reaches a state with a message in flight |
| WebSocketPump.WrittenTwice | src/WebSocketSession.cpp:153-157 | a handshake that finds that write still in flight writes the message again, and in the end an empty queue is popped |
| WebSocketPump.StopHolds | src/WebSocketSession.cpp:31-49 | stopped with no connection chain under way, the session stays disconnected on every run until it is started again |
| WebSocketPump.StopLeaves | src/WebSocketSession.cpp:31-35 | a stop disconnects, ends reconnecting, and leaves messages, writes and chains alone |
| WebSocketPump.StoppedForGood | src/WebSocketSession.cpp:31-67 | after a stop with no chain under way, on every later run without a start no chain begins and the session is never connected |
| WebSocketPump.FailureExactly | src/WebSocketSession.cpp:60-67 | every kind of failure disconnects, loses no message and begins one chain if the session reconnects |
| WebSocketPump.ChainExactly | src/WebSocketSession.cpp:78-161 | the four steps of a connection in their order; the last connects, sends the configured messages in their order and begins to listen |
| WebSocketPump.StopOvertaken | src/WebSocketSession.cpp:135-142 | with a chain under way, stopped or not, the session can connect |
| WebSocketSessions.WebSocketSession.constructor | src/WebSocketSession.cpp:13-21 | a new session is valid: the initial state |
| WebSocketSessions.WebSocketSession.Start | src/WebSocketSession.cpp:23-29 | a valid session stays valid and loses nothing; one more chain unless connected |
| WebSocketSessions.WebSocketSession.Stop | src/WebSocketSession.cpp:31-49 | neither connected nor reconnecting; a valid session stays valid, and messages, writes and chains stay as they are |
| WebSocketSessions.WebSocketSession.Send | src/WebSocketSession.cpp:51-58 | a valid session stays valid, the message is the last of those left, and over a connection the oldest one left is being written |
| WebSocketSessions.WebSocketSession.WriteFinished | src/WebSocketSession.cpp:210-227 | on a valid session a success acknowledges the oldest message left and puts the next in flight; a failure loses nothing |
| WebSocketSessions.WebSocketSession.ChainFinished | src/WebSocketSession.cpp:78-161 | a valid session stays valid if and only if a handshake is quiet and finds no write in flight, and once connected it is writing the oldest message left |
| WebSocketSessions.WebSocketSession.ListenerFinished | src/WebSocketSession.cpp:181-184 | after a failed read or ping a valid session stays valid and loses nothing, whatever is in flight; one more chain if it reconnects |
| WebSocketSessions.WebSocketSession.HeartbeatFinished | src/WebSocketSession.cpp:235-238 | a heartbeat that is cancelled or finds the session not connected changes nothing else |
| WebSocketSessions.WebSocketSession.CloseFinished | src/WebSocketSession.cpp:39-47 | a failed closing keeps a valid session valid |
| Json.AssembleHas | alpaca_trade_client/src/json_utils.cpp:393-450 | an object built key by key has exactly the entries with a value |
| EnumSerialization.FindValue | alpaca_trade_client/include/alpaca_trade_client/enum_serialization.hpp:161-162 | the first row with the value, or none has it |
| EnumSerialization.FindText | alpaca_trade_client/include/alpaca_trade_client/enum_serialization.hpp:179-180 | the first row with the text, or none has it |
| EnumSerialization.EnumFrom | alpaca_trade_client/include/alpaca_trade_client/enum_serialization.hpp:156-171 | fails exactly for a value that the table lacks |
| EnumSerialization.EnumRoundTrip | alpaca_trade_client/include/alpaca_trade_client/enum_serialization.hpp:156-188 | writing and reading are inverse relations for a table without repetitions |
| EnumSerialization.FallbackRoundTrip | alpaca_trade_client/include/alpaca_trade_client/enum_serialization.hpp:190-210 | the fallback is read for the empty text and nothing else |
| EnumSerialization.TablesUnambiguous | alpaca_trade_client/include/alpaca_trade_client/enum_serialization.hpp:67-154 | no table repeats a value or a text; no order class is the empty text |
| EnumSerialization.StatusesUnambiguous | alpaca_trade_client/include/alpaca_trade_client/enum_serialization.hpp:124-144 | the same for the order states |
| EnumSerialization.AssetClassListed | alpaca_trade_client/include/alpaca_trade_client/enum_serialization.hpp:67-74 | every asset class has a row, so writing one never throws |
| EnumSerialization.OrderClassListed | alpaca_trade_client/include/alpaca_trade_client/enum_serialization.hpp:90-99 | every order class has a row |
| EnumSerialization.OrderTypeListed | alpaca_trade_client/include/alpaca_trade_client/enum_serialization.hpp:101-110 | every order type has a row |
| EnumSerialization.OrderSideListed | alpaca_trade_client/include/alpaca_trade_client/enum_serialization.hpp:83-88 | every side has a row |
| EnumSerialization.TimeInForceListed | alpaca_trade_client/include/alpaca_trade_client/enum_serialization.hpp:112-122 | every time in force has a row |
| EnumSerialization.OrderStatusListed | alpaca_trade_client/include/alpaca_trade_client/enum_serialization.hpp:124-144 | every order status has a row |
| EnumSerialization.PositionIntentListed | alpaca_trade_client/include/alpaca_trade_client/enum_serialization.hpp:146-154 | every position intent has a row |
| EnumSerialization.AssetClassRoundTrip | alpaca_trade_client/src/json_utils.cpp:192-200 | asset classes survive both round trips |
| EnumSerialization.AssetClassTexts | alpaca_trade_client/include/alpaca_trade_client/enum_serialization.hpp:67-74 | the text of every value, spelled out, printed and read as that value alone |
| EnumSerialization.OrderClassRoundTrip | alpaca_trade_client/src/json_utils.cpp:282-290 | order classes survive printing; the empty text becomes "simple" and nothing else changes |
| EnumSerialization.OrderClassTexts | alpaca_trade_client/include/alpaca_trade_client/enum_serialization.hpp:90-99 | the text of every value, spelled out, printed and read as that value alone, and the empty text is read as SIMPLE |
| EnumSerialization.OrderTypeRoundTrip | alpaca_trade_client/src/json_utils.cpp:292-300 | order types survive both round trips |
| EnumSerialization.OrderTypeTexts | alpaca_trade_client/include/alpaca_trade_client/enum_serialization.hpp:101-110 | the text of every value, spelled out, printed and read as that value alone |
| EnumSerialization.OrderSideRoundTrip | alpaca_trade_client/src/json_utils.cpp:272-280 | sides survive both round trips |
| EnumSerialization.OrderSideTexts | alpaca_trade_client/include/alpaca_trade_client/enum_serialization.hpp:83-88 | the text of every value, spelled out, printed and read as that value alone |
| EnumSerialization.TimeInForceRoundTrip | alpaca_trade_client/src/json_utils.cpp:302-310 | times in force survive both round trips |
| EnumSerialization.TimeInForceTexts | alpaca_trade_client/include/alpaca_trade_client/enum_serialization.hpp:112-122 | the text of every value, spelled out, printed and read as that value alone |
| EnumSerialization.OrderStatusRoundTrip | alpaca_trade_client/src/json_utils.cpp:312-320 | order states survive both round trips |
| EnumSerialization.OrderStatusTexts | alpaca_trade_client/include/alpaca_trade_client/enum_serialization.hpp:124-144 | the text of every value, spelled out, printed and read as that value alone |
| EnumSerialization.PositionIntentRoundTrip | alpaca_trade_client/src/json_utils.cpp:322-330 | position intents survive both round trips |
| EnumSerialization.PositionIntentTexts | alpaca_trade_client/include/alpaca_trade_client/enum_serialization.hpp:146-154 | the text of every value, spelled out, printed and read as that value alone |
| OrderCodec.ParseOrders | alpaca_trade_client/src/json_utils.cpp:387-388 | legs are parsed exactly when each of them is, in order |
| OrderCodecLaws.KeysDistinct | alpaca_trade_client/src/json_utils.cpp:393-450 | no two members of an order share a key |
| OrderCodecLaws.EntriesKeys | alpaca_trade_client/src/json_utils.cpp:393-450 | the printer writes under the keys of the schema, in its order |
| OrderCodecLaws.RequiredShown | alpaca_trade_client/src/json_utils.cpp:396-408 | which field of an order is under which key: the required members |
| OrderCodecLaws.TimesShown | alpaca_trade_client/src/json_utils.cpp:410-427 | the same for the optional times and references, absent ones absent |
| OrderCodecLaws.PricesShown | alpaca_trade_client/src/json_utils.cpp:428-443 | the same for the optional prices and quantities |
| OrderCodecLaws.TailShown | alpaca_trade_client/src/json_utils.cpp:444-447 | the same for the position intent and the legs, each leg in its place |
| OrderCodecLaws.RequiredRoundTrip | alpaca_trade_client/src/json_utils.cpp:337-349 | the required members are read back as printed |
| OrderCodecLaws.TimesRoundTrip | alpaca_trade_client/src/json_utils.cpp:351-368 | the optional times and references are read back as printed, absent ones as absent |
| OrderCodecLaws.PricesRoundTrip | alpaca_trade_client/src/json_utils.cpp:369-384 | the optional prices and quantities are read back as printed, absent ones as absent |
| OrderCodecLaws.OrderRoundTrip | alpaca_trade_client/src/json_utils.cpp:332-450 | parsing the printed form of any order returns it, with legs to any depth |
| OrderCodecNormalForm.RequiredNormal | alpaca_trade_client/src/json_utils.cpp:337-349 | the required members parse exactly when each is there and fits, and print in normal form |
| OrderCodecNormalForm.TimesNormal | alpaca_trade_client/src/json_utils.cpp:351-368 | the optional times parse exactly when each is absent, null or fits, and print in normal form |
| OrderCodecNormalForm.PricesNormal | alpaca_trade_client/src/json_utils.cpp:369-384 | the same for the optional prices and quantities |
| OrderCodecNormalForm.ParseThenPrint | alpaca_trade_client/src/json_utils.cpp:332-450 | the parser accepts exactly what conforms to the schema, and printing what it returns is the normal form |
| OrderCodecNormalForm.NormalIdempotent | alpaca_trade_client/src/json_utils.cpp:332-450 | the normal form of conforming JSON conforms and is its own normal form |
| OrderCodecNormalForm.NormalHasExactly | alpaca_trade_client/src/json_utils.cpp:393-450 | the normal form drops nulls and unknown members, and keeps every other member in normal form |
| OrderCodecNormalForm.ReadFromInput | alpaca_trade_client/src/json_utils.cpp:332-391 | every member but the legs and an empty order class is read from the member under its own key |
| OrderCodecNormalForm.AcceptedHas | alpaca_trade_client/src/json_utils.cpp:337-349 | the members that an accepted order must have, spelled out |
| OrderMessages.ClosedRoundTrip | alpaca_trade_client/src/json_utils.cpp:484-504 | a closed position is read back as printed |
| OrderMessages.ClosedShown | alpaca_trade_client/src/json_utils.cpp:496-504 | which field of a closed position is under which key |
| OrderMessages.ClosedListRoundTrip | alpaca_trade_client/src/json_utils.cpp:484-504 | so is any list of them |
| OrderMessages.ClosedParseThenPrint | alpaca_trade_client/src/json_utils.cpp:484-504 | which JSON is a closed position, and its normal form |
| OrderMessages.ClosedListParseThenPrint | alpaca_trade_client/src/json_utils.cpp:484-504 | a list parses exactly when each item does and prints as the list of normal forms |
| OrderMessages.NotionalRoundTrip | alpaca_trade_client/src/json_utils.cpp:452-482 | a notional order is read back as printed |
| OrderMessages.NotionalShown | alpaca_trade_client/src/json_utils.cpp:452-466 | which field of a notional order is under which key, with the fixed type and time in force |
| OrderMessages.NotionalFixed | alpaca_trade_client/src/json_utils.cpp:452-482 | printing gives back what was parsed exactly for a market order of the day without other members or an empty client order id |

## Left out

- Floating point: rounding, overflow, infinities and NaN; the equalities of the closed forms do not hold bit for bit in `double`.
- Integer widths: the wrap-around of 64-bit volumes, the overflow of nanosecond counts and the `int` counter of the aggregator's window.
- Periods: the conversion of a configured `int` to an unsigned period.
- The indicator registry, its registrars and the errors for missing configuration keys.
- Handlers of signals and of requests that throw.
- IndicatorEngines.IndicatorEngine.OnBar: the handlers of the signal are not run; what they would be given is returned.
- BarAggregation.BarAggregator.OnBar: the bar sent to the subscribers is returned; the exception is an error result.
- Sockets, TLS, name resolution, timeouts, message building and the reconnect delay: only their success or failure.
- AverageTrueRange.ATR.constructor: a period of 0, with which the original is ready at once and divides by zero; there is no real number for what it holds then.
- RequestQueueSafety.RunConserves: one connection attempt is represented at a time; a call of connect from outside during a TLS shutdown, with which `ConnectionExactly` says the promise ends, would go on beside the worker's own.
- RequestQueueSafety.CompleteHeadFrame: a requester that a completion resumes makes further requests at once; a call of connect by it before the worker goes on is not represented.
- RequestQueueProgress.RunEconomical: runs without calls of connect from outside.
- RestClient.AsyncRestClient.ProcessFront: suspended coroutines are fields that say where they stand, since the language has no coroutines.
- The body, headers and response of a request, and the write and the read inside one send as separate steps.
- Builds without assertions, in which two workers serve one queue, and the destruction of the client.
- The frames that the WebSocket session receives, its buffer, and a heartbeat that goes on.
- JSON and URL text; the range and the rounding of JSON numbers; the order of members in a JSON object; repeated keys.
- The codecs of accounts, positions and deleted orders: flat, without anything that the codec of orders lacks.
- CSV and timestamp parsing, logging, formatting, the Python servers and the scripts.
