/** Safety of the request queue over whole runs. */
module RequestQueueSafety {
  import opened Wrappers
  import opened Urls
  import opened RequestQueue

  // ---- Conservation, on every run whatsoever ----

  function Numbers(n: nat): (r: seq<nat>)
    ensures |r| == n && forall i :: 0 <= i < n ==> r[i] == i
  {
    seq(n, i => i)
  }

  function TaskIds(tasks: seq<Task>): (r: seq<nat>)
    ensures |r| == |tasks| && forall i :: 0 <= i < |r| ==> r[i] == tasks[i].id
  {
    seq(|tasks|, i requires 0 <= i < |tasks| => tasks[i].id)
  }

  function DoneIds(done: seq<Completion>): (r: seq<nat>)
    ensures |r| == |done| && forall i :: 0 <= i < |r| ==> r[i] == done[i].id
  {
    seq(|done|, i requires 0 <= i < |done| => done[i].id)
  }

  /** Completed tasks followed by queued tasks are the tasks in the order of their creation:
      none is lost, duplicated or overtaken. */
  ghost predicate Conserved(s: State) {
    && DoneIds(s.done) + TaskIds(s.tasks) == Numbers(s.nextId)
    && forall i :: 0 <= i < |s.tasks| ==> IsNormal(s.tasks[i].endpoint)
  }

  lemma PushConserves(s: State, url: Url, hasHandler: bool)
    requires Conserved(s)
    ensures Conserved(Push(s, url, hasHandler))
    ensures Push(s, url, hasHandler).done == s.done && s.tasks <= Push(s, url, hasHandler).tasks
  {
    NormalExactly(url);
    if MakeHttpHttpsUrl(url).Ok? {
      var now := Push(s, url, hasHandler);
      assert TaskIds(now.tasks) == TaskIds(s.tasks) + [s.nextId];
      assert DoneIds(s.done) + TaskIds(now.tasks) == Numbers(s.nextId) + [s.nextId];
    }
  }

  lemma {:induction false} PushAllConserves(s: State, urls: seq<Url>)
    requires Conserved(s)
    ensures Conserved(PushAll(s, urls))
    ensures PushAll(s, urls).done == s.done && s.tasks <= PushAll(s, urls).tasks
  {
    if urls != [] {
      PushAllConserves(s, urls[..|urls| - 1]);
      PushConserves(PushAll(s, urls[..|urls| - 1]), urls[|urls| - 1], true);
    }
  }

  lemma CompleteHeadConserves(s: State, outcome: Outcome, followUps: seq<Url>)
    requires Conserved(s) && s.tasks != []
    ensures Conserved(CompleteHead(s, outcome, followUps))
  {
    hide PushAll;
    PushAllConserves(s, followUps);
    var told := if s.tasks[0].hasHandler then PushAll(s, followUps) else s;
    var t := s.tasks[0];
    MoveHead(told.done, told.tasks, Completion(t.id, OriginOf(t.endpoint), outcome, t.hasHandler));
  }

  lemma MoveHead(done: seq<Completion>, tasks: seq<Task>, c: Completion)
    requires tasks != [] && c.id == tasks[0].id
    ensures DoneIds(done + [c]) + TaskIds(tasks[1..]) == DoneIds(done) + TaskIds(tasks)
  {
  }

  lemma BeginConnectConserves(s: State, sniOk: bool, followUps: seq<Url>)
    requires Conserved(s) && s.tasks != []
    ensures Conserved(BeginConnect(s, sniOk, followUps))
  {
    hide CompleteHead;
    var c := s.(connects := s.connects + 1);
    CompleteHeadConserves(c, ConnectFailed, followUps);
    CompleteHeadConserves(c.(connection := NOT_CONNECTED), ConnectFailed, followUps);
    CompleteHeadConserves(c.(connection := NOT_CONNECTED, isTls := true), ConnectFailed, followUps);
  }

  lemma StepConserves(s: State, e: Event)
    requires Conserved(s) && Enabled(s, e)
    ensures Conserved(Step(s, e))
  {
    hide CompleteHead, BeginConnect, PushAll;
    match e
    case Request(url, inLoop) =>
      PushConserves(s, url, true);
      PushConserves(s, url, false);
    case Install =>
      assert TaskIds(SetHandler(s.tasks, s.pending.value)) == TaskIds(s.tasks);
    case StartPosted =>
    case Head(sniOk, followUps) =>
      if s.tasks != [] {
        BeginConnectConserves(s, sniOk, followUps);
        BeginConnectConserves(CloseConnection(s), sniOk, followUps);
      }
    case ShutdownDone(ok, sniOk, followUps) =>
      BeginConnectConserves(CloseConnection(s), sniOk, followUps);
    case Progress(ok, followUps) =>
      if s.attempt.value.byWorker {
        CompleteHeadConserves(s.(connection := NOT_CONNECTED, attempt := None), ConnectFailed, followUps);
      }
    case Sent(ok, followUps) =>
      CompleteHeadConserves(s, if ok then Responded else SendFailed, followUps);
    case OutsideConnect(url, sniOk) =>
  }

  lemma {:induction false} RunConserves(states: seq<State>, events: seq<Event>, k: nat)
    requires IsRun(states, events) && states[0] == INITIAL && k <= |events|
    ensures Conserved(states[k])
  {
    if k == 0 {
      InitiallyConserved();
    } else {
      RunConserves(states, events, k - 1);
      StepConserves(states[k - 1], events[k - 1]);
    }
  }

  /** Where a task stands tells its number. */
  lemma IdsInOrder(s: State)
    requires Conserved(s)
    ensures forall i :: 0 <= i < |s.done| ==> s.done[i].id == i
    ensures forall j :: 0 <= j < |s.tasks| ==> s.tasks[j].id == |s.done| + j
    ensures s.nextId == |s.done| + |s.tasks|
  {
    var all := DoneIds(s.done) + TaskIds(s.tasks);
    forall i | 0 <= i < |s.done|
      ensures s.done[i].id == i
    {
      assert all[i] == DoneIds(s.done)[i];
    }
    forall j | 0 <= j < |s.tasks|
      ensures s.tasks[j].id == |s.done| + j
    {
      assert all[|s.done| + j] == TaskIds(s.tasks)[j];
    }
  }

  /** No task is completed twice, and none that is completed is still queued. */
  lemma AtMostOnce(states: seq<State>, events: seq<Event>, k: nat)
    requires IsRun(states, events) && states[0] == INITIAL && k <= |events|
    ensures var s := states[k];
            && (forall i, j :: 0 <= i < j < |s.done| ==> s.done[i].id < s.done[j].id)
            && (forall i, j :: 0 <= i < |s.done| && 0 <= j < |s.tasks| ==> s.done[i].id < s.tasks[j].id)
  {
    RunConserves(states, events, k);
    IdsInOrder(states[k]);
  }

  // ---- Frames ----

  lemma {:induction false} PushAllFrame(s: State, urls: seq<Url>)
    ensures var r := PushAll(s, urls);
            && r == s.(tasks := r.tasks, nextId := r.nextId) && r.nextId >= s.nextId
            && s.tasks <= r.tasks
            && (forall i :: |s.tasks| <= i < |r.tasks| ==> r.tasks[i].hasHandler && r.tasks[i].id >= s.nextId)
  {
    if urls != [] {
      PushAllFrame(s, urls[..|urls| - 1]);
    }
  }

  /** What completing the front task leaves alone. */
  lemma CompleteHeadFrame(s: State, outcome: Outcome, followUps: seq<Url>)
    requires s.tasks != []
    ensures var r, t := CompleteHead(s, outcome, followUps), s.tasks[0];
            && r == s.(tasks := r.tasks, nextId := r.nextId, done := r.done, worker := LoopHead)
            && r.done == s.done + [Completion(t.id, OriginOf(t.endpoint), outcome, t.hasHandler)]
            && |r.tasks| >= |s.tasks| - 1
            && (forall i :: 0 <= i < |s.tasks| - 1 ==> r.tasks[i] == s.tasks[i + 1])
            && (forall i :: |s.tasks| - 1 <= i < |r.tasks| ==> r.tasks[i].hasHandler && r.tasks[i].id >= s.nextId)
            && (!t.hasHandler || followUps == [] ==> r.tasks == s.tasks[1..])
  {
    PushAllFrame(s, followUps);
  }

  /** What the worker's connect(), up to its first suspension, leaves alone. */
  lemma BeginConnectFrame(s: State, sniOk: bool, followUps: seq<Url>)
    requires s.tasks != []
    ensures var r := BeginConnect(s, sniOk, followUps);
            && r.isProcessing == s.isProcessing && r.posted == s.posted && r.assertFailed == s.assertFailed
            && (r.worker == LoopHead || r.worker == AwaitingConnect)
  {
    hide CompleteHead;
    var c := s.(connects := s.connects + 1);
    CompleteHeadFrame(c, ConnectFailed, followUps);
    CompleteHeadFrame(c.(connection := NOT_CONNECTED), ConnectFailed, followUps);
    CompleteHeadFrame(c.(connection := NOT_CONNECTED, isTls := true), ConnectFailed, followUps);
  }

  // ---- Promises along a run ----

  /** The condition has held so far. */
  ghost predicate Throughout(condition: (State, Event) -> bool, states: seq<State>, events: seq<Event>, k: nat)
    requires IsRun(states, events) && k <= |events|
  {
    forall i :: 0 <= i < k ==> condition(states[i], events[i])
  }

  /** A promise that every event keeps exactly when it meets a condition holds throughout a run
      exactly when all events meet it. */
  lemma {:induction false} PromiseOnRun(promise: State -> bool, condition: (State, Event) -> bool,
                                        states: seq<State>, events: seq<Event>, k: nat)
    requires IsRun(states, events) && states[0] == INITIAL && k <= |events| && promise(INITIAL)
    requires forall s, e :: promise(s) && Enabled(s, e) ==> (promise(Step(s, e)) <==> condition(s, e))
    ensures (forall i :: 0 <= i <= k ==> promise(states[i])) <==> Throughout(condition, states, events, k)
  {
    hide Enabled, Step;
    if k > 0 {
      PromiseOnRun(promise, condition, states, events, k - 1);
      var s, e := states[k - 1], events[k - 1];
      assert Enabled(s, e) && states[k - 1 + 1] == Step(s, e);
      assert (forall i :: 0 <= i <= k ==> promise(states[i])) <==>
             (forall i :: 0 <= i <= k - 1 ==> promise(states[i])) && promise(states[k]);
      assert Throughout(condition, states, events, k) <==>
             Throughout(condition, states, events, k - 1) && condition(s, e);
    } else {
      assert promise(states[0]);
    }
  }

  lemma InitiallyConserved()
    ensures Conserved(INITIAL)
  {
    assert DoneIds([]) + TaskIds([]) == Numbers(0);
  }

  // ---- The connection ----

  /** The connection: what is open agrees with what is recorded, what is sent goes to its origin. */
  ghost predicate RightConnection(s: State) {
    && (s.attempt.Some? <==> s.connection == CONNECTING)
    && (s.attempt.Some? ==> IsNormal(s.attempt.value.url) && s.isTls == (s.attempt.value.url.scheme == "https"))
    && (s.attempt.Some? && s.attempt.value.phase == Handshaking ==> s.isTls)
    && (s.attempt.Some? && s.attempt.value.byWorker <==> s.worker == AwaitingConnect)
    && (s.worker == AwaitingConnect ==>
          s.tasks != [] && OriginOf(s.attempt.value.url) == OriginOf(s.tasks[0].endpoint))
    && (s.connection == CONNECTED ==>
          && s.currentOrigin.Some? && IsNormal(s.currentOrigin.value)
          && s.isTls == (s.currentOrigin.value.scheme == "https"))
    && (s.worker == Sending ==> s.tasks != [] && s.connection == CONNECTED && SameOrigin(s))
    && (s.worker == ShuttingDown ==> s.tasks != [] && s.connection == CONNECTED && s.isTls && !SameOrigin(s))
  }

  ghost predicate ConnectionPromise(s: State) {
    Conserved(s) && RightConnection(s) && (s.isProcessing <==> s.worker != Stopped)
  }

  /** connect() is called from outside at any time but during a send or a shutdown. */
  predicate LeavesConnection(s: State, e: Event) {
    e.OutsideConnect? ==> s.worker != Sending && s.worker != ShuttingDown
  }

  lemma CompletionKeepsConnection(s: State, outcome: Outcome, followUps: seq<Url>)
    requires Conserved(s) && s.isProcessing && s.tasks != [] && RightConnection(s.(worker := LoopHead))
    ensures ConnectionPromise(CompleteHead(s, outcome, followUps))
  {
    CompleteHeadConserves(s, outcome, followUps);
    CompleteHeadFrame(s, outcome, followUps);
  }

  lemma BeginConnectKeepsConnection(s: State, sniOk: bool, followUps: seq<Url>)
    requires Conserved(s) && s.isProcessing && s.worker != Stopped && s.tasks != [] && s.connection != CONNECTED
    requires RightConnection(s.(worker := LoopHead))
    ensures ConnectionPromise(BeginConnect(s, sniOk, followUps))
  {
    hide CompleteHead;
    OriginStable(s.tasks[0].endpoint);
    BeginConnectConserves(s, sniOk, followUps);
    var c := s.(connects := s.connects + 1);
    if s.connection == CONNECTING {
      CompletionKeepsConnection(c, ConnectFailed, followUps);
    } else {
      CompletionKeepsConnection(c.(connection := NOT_CONNECTED, isTls := true), ConnectFailed, followUps);
    }
  }

  lemma HeadKeepsConnection(s: State, sniOk: bool, followUps: seq<Url>)
    requires ConnectionPromise(s) && s.worker == LoopHead
    ensures ConnectionPromise(LoopIteration(s, sniOk, followUps))
  {
    hide CompleteHead, BeginConnect;
    if s.tasks != [] {
      if s.connection != CONNECTED {
        BeginConnectKeepsConnection(s, sniOk, followUps);
      } else if !SameOrigin(s) && !s.isTls {
        BeginConnectKeepsConnection(CloseConnection(s), sniOk, followUps);
      }
    }
  }

  lemma ProgressKeepsConnection(s: State, ok: bool, followUps: seq<Url>)
    requires ConnectionPromise(s) && Enabled(s, Progress(ok, followUps))
    ensures ConnectionPromise(AttemptProgress(s, s.attempt.value, ok, followUps))
  {
    hide CompleteHead;
    if s.attempt.value.byWorker && !ok {
      CompletionKeepsConnection(s.(connection := NOT_CONNECTED, attempt := None), ConnectFailed, followUps);
    }
  }

  /** An event keeps the connection right exactly when it is no call of connect() from outside
      during a send or a shutdown. */
  lemma ConnectionExactly(s: State, e: Event)
    requires ConnectionPromise(s) && Enabled(s, e)
    ensures ConnectionPromise(Step(s, e)) <==> LeavesConnection(s, e)
  {
    hide CompleteHead, BeginConnect, PushAll, LoopIteration, AttemptProgress;
    StepConserves(s, e);
    match e
    case Request(url, inLoop) => PushConserves(s, url, true);
    case Head(sniOk, followUps) => HeadKeepsConnection(s, sniOk, followUps);
    case ShutdownDone(ok, sniOk, followUps) =>
      if ok {
        BeginConnectKeepsConnection(CloseConnection(s), sniOk, followUps);
      }
    case Progress(ok, followUps) => ProgressKeepsConnection(s, ok, followUps);
    case Sent(ok, followUps) => CompletionKeepsConnection(s, if ok then Responded else SendFailed, followUps);
    case OutsideConnect(url, sniOk) => NormalExactly(url);
    case _ =>
  }

  lemma ConnectionOnRun(states: seq<State>, events: seq<Event>, k: nat)
    requires IsRun(states, events) && states[0] == INITIAL && k <= |events|
    ensures (forall i :: 0 <= i <= k ==> ConnectionPromise(states[i])) <==>
            Throughout((s, e) => LeavesConnection(s, e), states, events, k)
  {
    hide Step, Enabled, Conserved;
    InitiallyConserved();
    forall s, e | ConnectionPromise(s) && Enabled(s, e)
      ensures ConnectionPromise(Step(s, e)) <==> LeavesConnection(s, e)
    {
      ConnectionExactly(s, e);
    }
    PromiseOnRun(s => ConnectionPromise(s), (s, e) => LeavesConnection(s, e), states, events, k);
  }

  /** While a task is being sent, the client is connected to that task's origin, over TLS exactly
      when the task's scheme is https: on every run on which nobody calls connect() during a send
      or a shutdown. */
  lemma SentToItsOrigin(states: seq<State>, events: seq<Event>, k: nat)
    requires IsRun(states, events) && states[0] == INITIAL && k <= |events| && states[k].worker == Sending
    requires Throughout((s, e) => LeavesConnection(s, e), states, events, k)
    ensures var s := states[k];
            && s.connection == CONNECTED && s.tasks != []
            && s.currentOrigin.Some? && OriginOf(s.currentOrigin.value) == OriginOf(s.tasks[0].endpoint)
            && (s.isTls <==> s.tasks[0].endpoint.scheme == "https")
  {
    ConnectionOnRun(states, events, k);
    assert ConnectionPromise(states[k]);
  }

  // ---- The handlers ----

  /** Only the request that has just started the worker has yet to install its handler, on a task
      that is still there; and every completed task was heard. */
  ghost predicate HandlerPromise(s: State) {
    && Conserved(s)
    && (forall i :: 0 <= i < |s.tasks| ==> (s.tasks[i].hasHandler <==> s.pending != Some(s.tasks[i].id)))
    && (s.pending.Some? ==> exists i :: 0 <= i < |s.tasks| && s.tasks[i].id == s.pending.value)
    && (forall i :: 0 <= i < |s.done| ==> s.done[i].fired)
    && !s.dangling
  }

  /** The worker's next iteration calls connect() and that returns before its first suspension:
      because a call from outside is under way, or because naming an https host fails. */
  predicate RefusedAtOnce(s: State, sniOk: bool)
    requires s.tasks != []
  {
    && !(s.connection == CONNECTED && (SameOrigin(s) || s.isTls))
    && (s.connection == CONNECTING || (s.tasks[0].endpoint.scheme == "https" && !sniOk))
  }

  /** The worker is not refused with a front task that has yet to be listened to. */
  predicate HeardInTime(s: State, e: Event) {
    e.Head? && s.tasks != [] && !s.tasks[0].hasHandler ==> !RefusedAtOnce(s, e.sniOk)
  }

  /** A completion keeps the promise exactly when somebody listens. */
  lemma CompletionHeard(s: State, outcome: Outcome, followUps: seq<Url>)
    requires HandlerPromise(s) && s.tasks != []
    ensures HandlerPromise(CompleteHead(s, outcome, followUps)) <==> s.tasks[0].hasHandler
  {
    CompleteHeadConserves(s, outcome, followUps);
    CompleteHeadFrame(s, outcome, followUps);
    hide CompleteHead, Conserved;
    var r := CompleteHead(s, outcome, followUps);
    IdsInOrder(s);
    if s.tasks[0].hasHandler {
      if s.pending.Some? {
        var i :| 0 <= i < |s.tasks| && s.tasks[i].id == s.pending.value;
        assert r.tasks[i - 1].id == s.pending.value;
      }
    } else {
      assert !r.done[|s.done|].fired;
    }
  }

  lemma BeginConnectHeard(s: State, sniOk: bool, followUps: seq<Url>)
    requires HandlerPromise(s) && s.tasks != [] && s.connection != CONNECTED
    ensures HandlerPromise(BeginConnect(s, sniOk, followUps)) <==>
            s.tasks[0].hasHandler || !RefusedAtOnce(s, sniOk)
  {
    hide CompleteHead;
    OriginStable(s.tasks[0].endpoint);
    var c := s.(connects := s.connects + 1);
    CompletionHeard(c, ConnectFailed, followUps);
    CompletionHeard(c.(connection := NOT_CONNECTED, isTls := true), ConnectFailed, followUps);
  }

  lemma HeadHeard(s: State, sniOk: bool, followUps: seq<Url>)
    requires HandlerPromise(s)
    ensures HandlerPromise(LoopIteration(s, sniOk, followUps)) <==> HeardInTime(s, Head(sniOk, followUps))
  {
    hide CompleteHead, BeginConnect;
    if s.tasks != [] {
      if s.connection != CONNECTED {
        BeginConnectHeard(s, sniOk, followUps);
      } else if !SameOrigin(s) && !s.isTls {
        BeginConnectHeard(CloseConnection(s), sniOk, followUps);
      }
    }
  }

  lemma RequestHeard(s: State, url: Url, inLoop: bool)
    requires HandlerPromise(s) && s.pending == None
    ensures HandlerPromise(EnqueueTask(s, url, inLoop))
  {
    PushConserves(s, url, true);
    PushConserves(s, url, false);
    IdsInOrder(s);
    if MakeHttpHttpsUrl(url).Ok? {
      assert Push(s, url, false).tasks[|s.tasks|].id == s.nextId;
    }
  }

  lemma ProgressHeard(s: State, ok: bool, followUps: seq<Url>)
    requires HandlerPromise(s) && Enabled(s, Progress(ok, followUps))
    ensures HandlerPromise(AttemptProgress(s, s.attempt.value, ok, followUps))
  {
    hide CompleteHead;
    if s.attempt.value.byWorker {
      CompletionHeard(s.(connection := NOT_CONNECTED, attempt := None), ConnectFailed, followUps);
    }
  }

  lemma InstallHeard(s: State)
    requires HandlerPromise(s) && Enabled(s, Install)
    ensures HandlerPromise(Step(s, Install))
  {
    StepConserves(s, Install);
    var i :| 0 <= i < |s.tasks| && s.tasks[i].id == s.pending.value;
    assert s.tasks[i] in s.tasks;
  }

  /** An event keeps every handler in place and every completion heard exactly when the worker is
      not refused before the front task's requester listens. */
  lemma HeardExactly(s: State, e: Event)
    requires HandlerPromise(s) && Enabled(s, e)
    ensures HandlerPromise(Step(s, e)) <==> HeardInTime(s, e)
  {
    hide CompleteHead, BeginConnect, PushAll, LoopIteration, EnqueueTask, AttemptProgress, InstallHandler;
    match e
    case Request(url, inLoop) => RequestHeard(s, url, inLoop);
    case Install => InstallHeard(s);
    case Head(sniOk, followUps) => HeadHeard(s, sniOk, followUps);
    case ShutdownDone(ok, sniOk, followUps) =>
      if ok {
        BeginConnectHeard(CloseConnection(s), sniOk, followUps);
      }
    case Progress(ok, followUps) => ProgressHeard(s, ok, followUps);
    case Sent(ok, followUps) => CompletionHeard(s, if ok then Responded else SendFailed, followUps);
    case _ =>
  }

  lemma HeardOnRun(states: seq<State>, events: seq<Event>, k: nat)
    requires IsRun(states, events) && states[0] == INITIAL && k <= |events|
    ensures (forall i :: 0 <= i <= k ==> HandlerPromise(states[i])) <==>
            Throughout((s, e) => HeardInTime(s, e), states, events, k)
  {
    hide Step, Enabled, Conserved;
    InitiallyConserved();
    forall s, e | HandlerPromise(s) && Enabled(s, e)
      ensures HandlerPromise(Step(s, e)) <==> HeardInTime(s, e)
    {
      HeardExactly(s, e);
    }
    PromiseOnRun(s => HandlerPromise(s), (s, e) => HeardInTime(s, e), states, events, k);
  }

  /** Every completed task had its handler called, once, in the order of the requests: on every run
      on which the worker is not refused before the front task's requester listens. */
  lemma HeardExactlyOnce(states: seq<State>, events: seq<Event>, k: nat)
    requires IsRun(states, events) && states[0] == INITIAL && k <= |events|
    requires Throughout((s, e) => HeardInTime(s, e), states, events, k)
    ensures var s := states[k];
            && DoneIds(s.done) + TaskIds(s.tasks) == Numbers(s.nextId)
            && (forall i :: 0 <= i < |s.done| ==> s.done[i].fired)
            && !s.dangling
  {
    HeardOnRun(states, events, k);
    assert HandlerPromise(states[k]);
  }

  // ---- The worker ----

  /** What is queued has a worker, running or posted, and no second one has started beside it. */
  ghost predicate WorkerPromise(s: State) {
    && (s.isProcessing <==> s.worker != Stopped)
    && (s.tasks != [] ==> s.worker != Stopped || s.posted > 0)
    && !s.assertFailed
  }

  /** A posted worker gets its turn when no other is running. */
  predicate StartsAlone(s: State, e: Event) {
    e.StartPosted? ==> !s.isProcessing
  }

  /** The worker's own events, whatever they complete, keep it processing. */
  lemma WorkerFrame(s: State, e: Event)
    requires Enabled(s, e) && (e.Head? || e.ShutdownDone? || e.Progress? || e.Sent?)
    ensures var r := Step(s, e);
            && r.posted == s.posted && r.assertFailed == s.assertFailed
            && (if e.Head? && s.tasks == [] then !r.isProcessing && r.worker == Stopped && r.tasks == []
                else r.isProcessing == s.isProcessing)
            && (!(e.Head? && s.tasks == []) && s.worker != Stopped ==> r.worker != Stopped)
            && (s.worker == Stopped ==> r.worker == Stopped && r.tasks == s.tasks)
  {
    hide CompleteHead, BeginConnect;
    match e
    case Head(sniOk, followUps) =>
      if s.tasks != [] {
        BeginConnectFrame(s, sniOk, followUps);
        BeginConnectFrame(CloseConnection(s), sniOk, followUps);
      }
    case ShutdownDone(ok, sniOk, followUps) => BeginConnectFrame(CloseConnection(s), sniOk, followUps);
    case Progress(ok, followUps) =>
      if s.attempt.value.byWorker {
        CompleteHeadFrame(s.(connection := NOT_CONNECTED, attempt := None), ConnectFailed, followUps);
      }
    case Sent(ok, followUps) => CompleteHeadFrame(s, if ok then Responded else SendFailed, followUps);
  }

  lemma WorkerExactly(s: State, e: Event)
    requires WorkerPromise(s) && Enabled(s, e)
    ensures WorkerPromise(Step(s, e)) <==> StartsAlone(s, e)
  {
    hide CompleteHead, LoopIteration, AttemptProgress, BeginConnect, MakeHttpHttpsUrl;
    match e
    case Request(_, _) =>
    case Install =>
    case StartPosted =>
    case OutsideConnect(_, _) =>
    case _ => WorkerFrame(s, e);
  }

  lemma WorkerOnRun(states: seq<State>, events: seq<Event>, k: nat)
    requires IsRun(states, events) && states[0] == INITIAL && k <= |events|
    ensures (forall i :: 0 <= i <= k ==> WorkerPromise(states[i])) <==>
            Throughout((s, e) => StartsAlone(s, e), states, events, k)
  {
    hide Step, Enabled;
    forall s, e | WorkerPromise(s) && Enabled(s, e)
      ensures WorkerPromise(Step(s, e)) <==> StartsAlone(s, e)
    {
      WorkerExactly(s, e);
    }
    PromiseOnRun(s => WorkerPromise(s), (s, e) => StartsAlone(s, e), states, events, k);
  }

  /** At most one worker is posted, and only while none is running. */
  predicate OnePosted(s: State) {
    s.posted <= 1 && (s.posted == 1 ==> s.worker == Stopped)
  }

  /** How a caller sees to it: no request is made while a posted worker waits for its turn.  That
      is exactly what keeps a second worker from being posted, and the turn is then taken alone. */
  lemma OnePostedExactly(s: State, e: Event)
    requires WorkerPromise(s) && OnePosted(s) && Enabled(s, e)
    ensures OnePosted(Step(s, e)) <==> (e.Request? ==> MakeHttpHttpsUrl(e.url).Err? || s.posted == 0)
    ensures StartsAlone(s, e)
  {
    hide CompleteHead, LoopIteration, AttemptProgress, BeginConnect, MakeHttpHttpsUrl;
    match e
    case Request(_, _) =>
    case Install =>
    case StartPosted =>
    case OutsideConnect(_, _) =>
    case _ => WorkerFrame(s, e);
  }

  // ---- All promises ----

  ghost predicate Inv(s: State) {
    ConnectionPromise(s) && HandlerPromise(s) && WorkerPromise(s)
  }

  predicate Disciplined(s: State, e: Event) {
    LeavesConnection(s, e) && HeardInTime(s, e) && StartsAlone(s, e)
  }

  lemma StepExactly(s: State, e: Event)
    requires Inv(s) && Enabled(s, e)
    ensures Inv(Step(s, e)) <==> Disciplined(s, e)
  {
    hide ConnectionPromise, HandlerPromise, WorkerPromise, LeavesConnection, HeardInTime, StartsAlone, Step, Enabled;
    ConnectionExactly(s, e);
    HeardExactly(s, e);
    WorkerExactly(s, e);
  }

  // ---- Failed shutdowns ----

  predicate IsFailedShutdown(e: Event) {
    e.ShutdownDone? && !e.ok
  }

  /** The worker is lost only when a TLS shutdown has failed during the run, and always then, as
      long as the connection is left to it. */
  lemma {:induction false} DeadExactly(states: seq<State>, events: seq<Event>, k: nat)
    requires IsRun(states, events) && states[0] == INITIAL && k <= |events|
    ensures states[k].worker == Dead ==> exists i :: 0 <= i < k && IsFailedShutdown(events[i])
    ensures Throughout((s, e) => LeavesConnection(s, e), states, events, k) ==>
              (states[k].worker == Dead <==> exists i :: 0 <= i < k && IsFailedShutdown(events[i]))
  {
    hide Step, Enabled, ConnectionPromise, LeavesConnection;
    if k > 0 {
      DeadExactly(states, events, k - 1);
      var s, e := states[k - 1], events[k - 1];
      WorkerDies(s, e);
      if Throughout((s, e) => LeavesConnection(s, e), states, events, k) {
        ConnectionOnRun(states, events, k - 1);
        assert ConnectionPromise(s);
        if s.worker == Dead {
          DeadStays(s, e);
        }
      }
    }
  }

  lemma WorkerDies(s: State, e: Event)
    requires Enabled(s, e)
    ensures Step(s, e).worker == Dead ==> s.worker == Dead || IsFailedShutdown(e)
    ensures IsFailedShutdown(e) ==> Step(s, e).worker == Dead && Step(s, e).pending == None
  {
  }

  /** A dead worker stays dead and completes nothing; requests pile up behind it. */
  lemma DeadStays(s: State, e: Event)
    requires ConnectionPromise(s) && Enabled(s, e) && s.worker == Dead
    ensures var r := Step(s, e);
            && r.worker == Dead && r.done == s.done
            && (s.pending == None ==> r.pending == None && s.tasks <= r.tasks)
  {
  }

  /** Nobody has yet to install a handler when the worker is dead. */
  lemma {:induction false} DeadNotPending(states: seq<State>, events: seq<Event>, k: nat)
    requires IsRun(states, events) && states[0] == INITIAL && k <= |events|
    requires Throughout((s, e) => LeavesConnection(s, e), states, events, k)
    ensures states[k].worker == Dead ==> states[k].pending == None
  {
    hide Step, Enabled, ConnectionPromise, LeavesConnection;
    if k > 0 {
      DeadNotPending(states, events, k - 1);
      ConnectionOnRun(states, events, k - 1);
      var s, e := states[k - 1], events[k - 1];
      assert ConnectionPromise(s) && states[k - 1 + 1] == Step(s, e);
      WorkerDies(s, e);
      if s.worker == Dead {
        DeadStays(s, e);
      }
    }
  }
}
