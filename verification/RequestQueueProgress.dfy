/** The request queue: no lost wake-up, what breaks each condition, and how often the
    worker connects. */
module RequestQueueProgress {
  import opened Wrappers
  import opened Urls
  import opened RequestQueue
  import opened RequestQueueSafety

  // ---- No lost wake-up ----

  /** Events that the requesters and the user of connect() bring about; all others are the
      worker's own and the outcomes that it waits for. */
  predicate IsExternal(e: Event) {
    e.Request? || e.OutsideConnect?
  }

  /** The event that a state with work to do waits for. */
  function WorkerEvent(s: State): Event {
    if s.worker == LoopHead then Head(true, [])
    else if s.pending.Some? then Install
    else
      match s.worker
      case Stopped => StartPosted
      case ShuttingDown => ShutdownDone(true, true, [])
      case AwaitingConnect => Progress(true, [])
      case _ => Sent(true, [])
  }

  /** While tasks are queued and no failed shutdown has ended the worker, something that the
      worker does or waits for can happen: the worker is never left asleep.  It keeps all promises
      unless the front task, not listened to yet, meets a connect() of somebody else. */
  lemma NoLostWakeUp(s: State)
    requires ConnectionPromise(s) && WorkerPromise(s) && !s.dangling && s.worker != Dead && s.tasks != []
    ensures var e := WorkerEvent(s);
            && Enabled(s, e) && !IsExternal(e) && LeavesConnection(s, e) && StartsAlone(s, e)
            && (HeardInTime(s, e) || (!s.tasks[0].hasHandler && s.connection == CONNECTING))
  {
  }

  predicate NoFollowUps(e: Event) {
    match e
    case Head(_, f) => f == []
    case ShutdownDone(_, _, f) => f == []
    case Progress(_, f) => f == []
    case Sent(_, f) => f == []
    case _ => true
  }

  /** How far the client is from an empty queue and a connection attempt that is over. */
  function Remaining(s: State): nat {
    var stage :=
      match s.worker
      case Stopped => 0
      case LoopHead => 7
      case ShuttingDown => 6
      case AwaitingConnect => 2
      case Sending => 2
      case Dead => 0;
    var attempt :=
      match s.attempt
      case None => 0
      case Some(Attempt(_, Resolving, _)) => 3
      case Some(Attempt(_, TcpConnecting, _)) => 2
      case Some(Attempt(_, Handshaking, _)) => 1;
    10 * |s.tasks| + 8 * s.posted + stage + attempt + if s.pending.Some? then 1 else 0
  }

  /** Every event that nobody outside brings about, whatever its outcome, takes the client
      nearer to rest, as long as nobody makes new requests. */
  lemma WorkerAdvances(s: State, e: Event)
    requires ConnectionPromise(s) && Enabled(s, e) && !IsExternal(e) && NoFollowUps(e)
    ensures Remaining(Step(s, e)) < Remaining(s)
  {
    hide CompleteHead, BeginConnect, LoopIteration, SetHandler;
    match e
    case Head(sniOk, followUps) => HeadAdvances(s, sniOk);
    case ShutdownDone(ok, sniOk, followUps) => ConnectAdvances(CloseConnection(s), sniOk);
    case Progress(ok, followUps) =>
      if s.attempt.value.byWorker {
        CompleteHeadFrame(s.(connection := NOT_CONNECTED, attempt := None), ConnectFailed, []);
      }
    case Sent(ok, followUps) =>
      CompleteHeadFrame(s, if ok then Responded else SendFailed, []);
    case _ =>
  }

  lemma HeadAdvances(s: State, sniOk: bool)
    requires ConnectionPromise(s) && s.worker == LoopHead
    ensures Remaining(LoopIteration(s, sniOk, [])) < Remaining(s)
  {
    hide BeginConnect;
    if s.tasks != [] {
      if s.connection != CONNECTED {
        ConnectAdvances(s, sniOk);
      } else {
        ConnectAdvances(CloseConnection(s), sniOk);
      }
    }
  }

  /** The worker's connect() either suspends with an attempt begun or completes the front task. */
  lemma ConnectAdvances(s: State, sniOk: bool)
    requires s.tasks != [] && IsNormal(s.tasks[0].endpoint)
    requires s.connection != CONNECTED && (s.attempt.Some? <==> s.connection == CONNECTING)
    ensures Remaining(BeginConnect(s, sniOk, []))
            <= 10 * |s.tasks| + 8 * s.posted + 5 + if s.pending.Some? then 1 else 0
  {
    hide CompleteHead;
    OriginStable(s.tasks[0].endpoint);
    CompleteHeadFrame(s.(connects := s.connects + 1), ConnectFailed, []);
    CompleteHeadFrame(s.(connects := s.connects + 1, connection := NOT_CONNECTED, isTls := true), ConnectFailed, []);
  }

  /** Once a failed shutdown has ended the worker, no request is ever completed again. */
  lemma {:induction false} DeadCompletesNothing(states: seq<State>, events: seq<Event>, k: nat, m: nat)
    requires IsRun(states, events) && states[0] == INITIAL && k <= m <= |events|
    requires Throughout((s, e) => LeavesConnection(s, e), states, events, m)
    requires states[k].worker == Dead
    ensures states[m].worker == Dead && states[m].done == states[k].done && states[k].tasks <= states[m].tasks
  {
    hide Step, Enabled, ConnectionPromise, LeavesConnection;
    if k < m {
      DeadCompletesNothing(states, events, k, m - 1);
      DeadNotPending(states, events, m - 1);
      ConnectionOnRun(states, events, m - 1);
      assert ConnectionPromise(states[m - 1]) && states[m - 1 + 1] == Step(states[m - 1], events[m - 1]);
      DeadStays(states[m - 1], events[m - 1]);
    }
  }

  // ---- What breaks the conditions ----

  /** A request that starts the worker in place is completed before its handler is installed,
      exactly when it needs a new connection without a shutdown to wait for, and connect()
      returns at once: because one from outside is under way, or because naming an https
      host fails.  Its completion is then lost and the handler lands on a destroyed task. */
  lemma LostExactly(s: State, url: Url, sniOk: bool, followUps: seq<Url>)
    requires Inv(s) && s.worker == Stopped && s.posted == 0 && MakeHttpHttpsUrl(url).Ok?
    ensures var endpoint := MakeHttpHttpsUrl(url).value;
            var reusable := s.connection == CONNECTED && OriginOf(s.currentOrigin.value) == OriginOf(endpoint);
            var awaitsShutdown := s.connection == CONNECTED && !reusable && s.isTls;
            var refused := s.connection == CONNECTING || (url.scheme == "https" && !sniOk);
            var lost := !reusable && !awaitsShutdown && refused;
            var requested := Step(s, Request(url, true));
            var after := Step(requested, Head(sniOk, followUps));
            && Enabled(s, Request(url, true)) && Enabled(requested, Head(sniOk, followUps))
            && (lost <==> RefusedAtOnce(requested, sniOk))
            && (lost <==> after.done != s.done)
            && (lost ==> after.done == s.done + [Completion(s.nextId, OriginOf(endpoint), ConnectFailed, false)]
                         && after.tasks == [])
  {
    hide CompleteHead;
    var endpoint := MakeHttpHttpsUrl(url).value;
    var requested := Step(s, Request(url, true));
    NormalExactly(url);
    OriginStable(endpoint);
    CompleteHeadFrame(requested.(connects := s.connects + 1), ConnectFailed, followUps);
    CompleteHeadFrame(
      requested.(connects := s.connects + 1, connection := NOT_CONNECTED, isTls := true), ConnectFailed, followUps);
    CompleteHeadFrame(CloseConnection(requested).(connects := s.connects + 1, isTls := true), ConnectFailed, followUps);
  }

  const HTTP := Url("http", "a", None, "/")

  const HTTPS := Url("https", "b", None, "/")

  /** The first request of all, to a host that cannot be named: completed unheard, and its
      handler goes to a task that is no more. */
  lemma LostRequest()
    ensures var s1 := Step(INITIAL, Request(HTTPS, true));
            var s2 := Step(s1, Head(false, []));
            var s3 := Step(s2, Head(true, []));
            && Enabled(s1, Head(false, [])) && !HeardInTime(s1, Head(false, []))
            && Enabled(s2, Head(true, [])) && Enabled(s3, Install)
            && |s3.done| == 1 && !s3.done[0].fired && Step(s3, Install).dangling
  {
  }

  /** Two requests from outside the event loop before it runs: two workers start. */
  lemma TwoPostedWorkers()
    ensures var s1 := Step(INITIAL, Request(HTTP, false));
            var s2 := Step(s1, Request(HTTP, false));
            var s3 := Step(s2, StartPosted);
            var s4 := Step(s3, Head(true, []));
            && Enabled(s1, Request(HTTP, false)) && Enabled(s2, StartPosted) && Enabled(s3, Head(true, []))
            && Enabled(s4, StartPosted) && !StartsAlone(s4, StartPosted)
            && Step(s4, StartPosted).assertFailed
  {
  }

  /** A call of connect() from outside leaves the connection right exactly when the worker is
      neither sending nor shutting a connection down.  A posted, a waiting and a dead worker
      are not disturbed, whatever becomes of the call. */
  lemma OutsideConnectExactly(s: State, url: Url, sniOk: bool)
    requires ConnectionPromise(s) && Enabled(s, OutsideConnect(url, sniOk))
    ensures RightConnection(Step(s, OutsideConnect(url, sniOk))) <==> s.worker != Sending && s.worker != ShuttingDown
  {
    NormalExactly(url);
  }

  // ---- Connection economy ----

  /** A task has to connect when it is the first, its predecessor did not get through, or the
      predecessor went to another origin. */
  predicate NeedsConnect(done: seq<Completion>, origin: Origin) {
    done == [] || done[|done| - 1].outcome == ConnectFailed || done[|done| - 1].origin != origin
  }

  function Attempts(done: seq<Completion>): nat {
    if done == [] then 0
    else Attempts(done[..|done| - 1])
         + if NeedsConnect(done[..|done| - 1], done[|done| - 1].origin) then 1 else 0
  }

  function Failures(done: seq<Completion>): nat {
    if done == [] then 0
    else Failures(done[..|done| - 1]) + if done[|done| - 1].outcome == ConnectFailed then 1 else 0
  }

  /** The task at the front has had its connection decided. */
  predicate Served(s: State) {
    s.worker == AwaitingConnect || s.worker == Sending
  }

  /** The number of connects is what the completed tasks and the one in hand require. */
  ghost predicate Economical(s: State) {
    var current := if Served(s) && s.tasks != [] && NeedsConnect(s.done, OriginOf(s.tasks[0].endpoint)) then 1 else 0;
    && s.connects == Attempts(s.done) + current
    && s.connects == s.established + Failures(s.done) + (if s.worker == AwaitingConnect then 1 else 0)
    && (s.worker == AwaitingConnect ==> s.tasks != [] && NeedsConnect(s.done, OriginOf(s.tasks[0].endpoint)))
    && (!Served(s) && s.connection == CONNECTED ==>
          && s.done != [] && s.done[|s.done| - 1].outcome != ConnectFailed
          && s.currentOrigin.Some? && s.done[|s.done| - 1].origin == OriginOf(s.currentOrigin.value))
    && (!Served(s) && s.connection == NOT_CONNECTED ==> s.done == [] || s.done[|s.done| - 1].outcome == ConnectFailed)
    && (!Served(s) ==> s.connection != CONNECTING)
  }

  lemma AttemptsAppend(done: seq<Completion>, c: Completion)
    ensures Attempts(done + [c]) == Attempts(done) + if NeedsConnect(done, c.origin) then 1 else 0
    ensures Failures(done + [c]) == Failures(done) + if c.outcome == ConnectFailed then 1 else 0
  {
  }

  /** A failed connect() of the worker, counted. */
  lemma FailureEconomical(s: State, followUps: seq<Url>)
    requires s.tasks != [] && s.connection == NOT_CONNECTED
    requires NeedsConnect(s.done, OriginOf(s.tasks[0].endpoint))
    requires s.connects == Attempts(s.done) + 1 && s.connects == s.established + Failures(s.done) + 1
    ensures Economical(CompleteHead(s, ConnectFailed, followUps))
  {
    CompleteHeadFrame(s, ConnectFailed, followUps);
    var t := s.tasks[0];
    AttemptsAppend(s.done, Completion(t.id, OriginOf(t.endpoint), ConnectFailed, t.hasHandler));
  }

  /** A connect() of the worker that has suspended, counted. */
  lemma SuspendedEconomical(s: State)
    requires s.tasks != [] && s.worker == AwaitingConnect && s.connection == CONNECTING
    requires NeedsConnect(s.done, OriginOf(s.tasks[0].endpoint))
    requires s.connects == Attempts(s.done) + 1 && s.connects == s.established + Failures(s.done) + 1
    ensures Economical(s)
  {
  }

  lemma BeginConnectEconomical(s: State, sniOk: bool, followUps: seq<Url>)
    requires s.tasks != [] && IsNormal(s.tasks[0].endpoint) && s.connection == NOT_CONNECTED
    requires NeedsConnect(s.done, OriginOf(s.tasks[0].endpoint))
    requires s.connects == Attempts(s.done) && s.connects == s.established + Failures(s.done)
    ensures Economical(BeginConnect(s, sniOk, followUps))
  {
    hide CompleteHead, Economical, Attempts, Failures, NeedsConnect, OriginOf, FromOrigin, MakeHttpHttpsUrl;
    OriginStable(s.tasks[0].endpoint);
    if s.tasks[0].endpoint.scheme == "https" && !sniOk {
      FailureEconomical(s.(connects := s.connects + 1, isTls := true), followUps);
    } else {
      SuspendedEconomical(BeginConnect(s, sniOk, followUps));
    }
  }

  lemma SentEconomical(s: State, outcome: Outcome, followUps: seq<Url>)
    requires ConnectionPromise(s) && Economical(s) && s.worker == Sending && outcome != ConnectFailed
    ensures Economical(CompleteHead(s, outcome, followUps))
  {
    CompleteHeadFrame(s, outcome, followUps);
    var t := s.tasks[0];
    AttemptsAppend(s.done, Completion(t.id, OriginOf(t.endpoint), outcome, t.hasHandler));
  }

  lemma HeadEconomical(s: State, sniOk: bool, followUps: seq<Url>)
    requires ConnectionPromise(s) && Economical(s) && s.worker == LoopHead
    ensures Economical(LoopIteration(s, sniOk, followUps))
  {
    hide CompleteHead, BeginConnect, Attempts, Failures;
    if s.tasks != [] {
      if s.connection != CONNECTED {
        BeginConnectEconomical(s, sniOk, followUps);
      } else if !SameOrigin(s) && !s.isTls {
        BeginConnectEconomical(CloseConnection(s), sniOk, followUps);
      }
    }
  }

  lemma RequestEconomical(s: State, url: Url, inLoop: bool)
    requires ConnectionPromise(s) && Economical(s) && Enabled(s, Request(url, inLoop))
    ensures Economical(Step(s, Request(url, inLoop)))
  {
    hide CompleteHead, BeginConnect, LoopIteration, Attempts, Failures, Conserved;
    PushAllFrame(s, [url]);
  }

  lemma ProgressEconomical(s: State, ok: bool, followUps: seq<Url>)
    requires ConnectionPromise(s) && Economical(s) && s.attempt.Some?
    ensures Economical(AttemptProgress(s, s.attempt.value, ok, followUps))
  {
    hide CompleteHead, Attempts, Failures, Conserved;
    if !ok {
      FailureEconomical(s.(connection := NOT_CONNECTED, attempt := None), followUps);
    }
  }

  lemma StepEconomical(s: State, e: Event)
    requires ConnectionPromise(s) && Economical(s) && Enabled(s, e) && !e.OutsideConnect?
    ensures Economical(Step(s, e))
  {
    hide CompleteHead, BeginConnect, LoopIteration, EnqueueTask, AttemptProgress, Attempts, Failures;
    match e
    case Request(url, inLoop) =>
      RequestEconomical(s, url, inLoop);
    case Install =>
    case StartPosted =>
    case Head(sniOk, followUps) =>
      HeadEconomical(s, sniOk, followUps);
    case ShutdownDone(ok, sniOk, followUps) =>
      if ok {
        BeginConnectEconomical(CloseConnection(s), sniOk, followUps);
      }
    case Progress(ok, followUps) =>
      ProgressEconomical(s, ok, followUps);
    case Sent(ok, followUps) =>
      SentEconomical(s, if ok then Responded else SendFailed, followUps);
  }

  lemma UndisturbedConnection(states: seq<State>, events: seq<Event>, k: nat)
    requires IsRun(states, events) && states[0] == INITIAL && k <= |events|
    requires forall i :: 0 <= i < k ==> !events[i].OutsideConnect?
    ensures ConnectionPromise(states[k])
  {
    ConnectionOnRun(states, events, k);
    assert Throughout((s, e) => LeavesConnection(s, e), states, events, k);
  }

  /** On every run without calls of connect() from outside, at every moment, the worker has called
      connect() exactly once for each task that comes first, that follows a failed connect, or that
      changes the origin. */
  lemma {:induction false} RunEconomical(states: seq<State>, events: seq<Event>, k: nat)
    requires IsRun(states, events) && states[0] == INITIAL && k <= |events|
    requires forall i :: 0 <= i < k ==> !events[i].OutsideConnect?
    ensures Economical(states[k])
  {
    if k > 0 {
      RunEconomical(states, events, k - 1);
      UndisturbedConnection(states, events, k - 1);
      StepEconomical(states[k - 1], events[k - 1]);
    }
  }

  /** Left to itself, the client is at rest after a number of events that the queue bounds. */
  lemma {:induction false} QueueDrains(states: seq<State>, events: seq<Event>, k: nat, m: nat)
    requires IsRun(states, events) && states[0] == INITIAL && k <= m <= |events|
    requires Throughout((s, e) => LeavesConnection(s, e), states, events, k)
    requires forall i :: k <= i < m ==> !IsExternal(events[i]) && NoFollowUps(events[i])
    ensures m - k + Remaining(states[m]) <= Remaining(states[k])
  {
    hide Remaining, Step, Enabled, ConnectionPromise;
    if k < m {
      QueueDrains(states, events, k, m - 1);
      assert Throughout((s, e) => LeavesConnection(s, e), states, events, m - 1);
      ConnectionOnRun(states, events, m - 1);
      assert ConnectionPromise(states[m - 1]) && states[m - 1 + 1] == Step(states[m - 1], events[m - 1]);
      WorkerAdvances(states[m - 1], events[m - 1]);
    }
  }

  function Origins(done: seq<Completion>): (r: seq<Origin>)
    ensures |r| == |done| && forall i :: 0 <= i < |r| ==> r[i] == done[i].origin
  {
    seq(|done|, i requires 0 <= i < |done| => done[i].origin)
  }

  /** The number of maximal blocks of equal neighbours. */
  function Blocks<T(==)>(xs: seq<T>): nat {
    if |xs| <= 1 then |xs|
    else Blocks(xs[..|xs| - 1]) + if xs[|xs| - 2] == xs[|xs| - 1] then 0 else 1
  }

  lemma {:induction false} AttemptsAreBlocks(done: seq<Completion>)
    requires forall i :: 0 <= i < |done| ==> done[i].outcome != ConnectFailed
    ensures Attempts(done) == Blocks(Origins(done)) && Failures(done) == 0
  {
    if done != [] {
      var was := done[..|done| - 1];
      AttemptsAreBlocks(was);
      assert Origins(done)[..|was|] == Origins(was);
    }
  }

  /** When every connect has succeeded, the worker, between tasks or at rest, has opened as many
      connections as there are blocks of equal origins among the tasks, whether or not the
      sends succeeded. */
  lemma OneConnectionPerBlock(states: seq<State>, events: seq<Event>, k: nat)
    requires IsRun(states, events) && states[0] == INITIAL && k <= |events| && !Served(states[k])
    requires forall i :: 0 <= i < k ==> !events[i].OutsideConnect?
    requires forall i :: 0 <= i < |states[k].done| ==> states[k].done[i].outcome != ConnectFailed
    ensures states[k].established == Blocks(Origins(states[k].done))
  {
    RunEconomical(states, events, k);
    AttemptsAreBlocks(states[k].done);
  }
}
