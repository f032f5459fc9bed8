/**
  The request queue of the REST client as a state machine.  Requesters and one worker
  are coroutines of one event loop, so control changes hands only where a coroutine
  suspends; each event below is what runs from one suspension to the next, with the
  outcome of the awaited operation as a parameter.  A request that finds no worker
  running starts one in place: its first iteration runs before the request goes on to
  install its completion handler.
 */
module RequestQueue {
  import opened Wrappers
  import opened Urls

  datatype ConnectionState = NOT_CONNECTED | CONNECTING | CONNECTED

  datatype Task = Task(id: nat, endpoint: Url, hasHandler: bool)

  /** Where the worker coroutine stands. */
  datatype Worker =
    | Stopped
    | LoopHead          // about to look at the front of the queue; not suspended
    | ShuttingDown      // awaiting the TLS shutdown
    | AwaitingConnect
    | Sending
    | Dead              // an exception has left the coroutine

  datatype Phase = Resolving | TcpConnecting | Handshaking

  /** A suspended connect(), called by the worker or from outside. */
  datatype Attempt = Attempt(url: Url, phase: Phase, byWorker: bool)

  datatype Outcome = Responded | SendFailed | ConnectFailed

  /** A task that has left the queue; fired says whether its handler was there to be called. */
  datatype Completion = Completion(id: nat, origin: Origin, outcome: Outcome, fired: bool)

  datatype State = State(
    tasks: seq<Task>,
    isProcessing: bool,
    connection: ConnectionState,
    currentOrigin: Option<Url>,
    isTls: bool,
    worker: Worker,
    posted: nat,               // workers that are spawned but not started
    attempt: Option<Attempt>,
    pending: Option<nat>,      // the request that has yet to install its handler
    nextId: nat,
    done: seq<Completion>,
    connects: nat,             // calls of connect() by the worker
    established: nat,               // connections the worker has established
    assertFailed: bool,        // a second worker started beside a running one
    dangling: bool             // a handler was installed on a destroyed task
  )

  const INITIAL := State([], false, NOT_CONNECTED, None, false, Stopped, 0, None, None, 0, [], 0, 0, false, false)

  datatype Event =
    | Request(url: Url, inLoop: bool)   // inLoop: made by a coroutine of the event loop
    | Install
    | StartPosted
    | Head(sniOk: bool, followUps: seq<Url>)
    | ShutdownDone(ok: bool, sniOk: bool, followUps: seq<Url>)
    | Progress(ok: bool, followUps: seq<Url>)
    | Sent(ok: bool, followUps: seq<Url>)
    | OutsideConnect(url: Url, sniOk: bool)

  // ---- The pieces that the events are made of ----

  /** make_task throws for a URL it does not support; otherwise the task goes to the back. */
  function Push(s: State, url: Url, hasHandler: bool): State {
    match MakeHttpHttpsUrl(url)
    case Err(_) => s
    case Ok(endpoint) => s.(tasks := s.tasks + [Task(s.nextId, endpoint, hasHandler)], nextId := s.nextId + 1)
  }

  /** Requests that a requester makes as soon as its handler resumes it: a worker is running. */
  function PushAll(s: State, urls: seq<Url>): (r: State)
    ensures |r.tasks| >= |s.tasks|
  {
    if urls == [] then s else Push(PushAll(s, urls[..|urls| - 1]), urls[|urls| - 1], true)
  }

  /** The front task is completed, its requester resumed if it listens, and the task destroyed. */
  function CompleteHead(s: State, outcome: Outcome, followUps: seq<Url>): State
    requires s.tasks != []
  {
    var t := s.tasks[0];
    var told := if t.hasHandler then PushAll(s, followUps) else s;
    told.(tasks := told.tasks[1..],
          done := told.done + [Completion(t.id, OriginOf(t.endpoint), outcome, t.hasHandler)],
          worker := LoopHead)
  }

  function BeginConnect(s: State, sniOk: bool, followUps: seq<Url>): State
    requires s.tasks != []
  {
    var c := s.(connects := s.connects + 1);
    if s.connection == CONNECTING then CompleteHead(c, ConnectFailed, followUps)
    else
      match MakeHttpHttpsUrl(FromOrigin(OriginOf(s.tasks[0].endpoint)))
      case Err(_) => CompleteHead(c.(connection := NOT_CONNECTED), ConnectFailed, followUps)
      case Ok(url) =>
        var tls := url.scheme == "https";
        if tls && !sniOk then
          CompleteHead(c.(connection := NOT_CONNECTED, isTls := tls), ConnectFailed, followUps)
        else
          c.(connection := CONNECTING, isTls := tls, attempt := Some(Attempt(url, Resolving, true)),
             worker := AwaitingConnect)
  }

  function CloseConnection(s: State): State {
    s.(connection := NOT_CONNECTED, currentOrigin := None, isTls := false)
  }

  predicate SameOrigin(s: State)
    requires s.tasks != []
  {
    s.currentOrigin.Some? && OriginOf(s.currentOrigin.value) == OriginOf(s.tasks[0].endpoint)
  }

  function LoopIteration(s: State, sniOk: bool, followUps: seq<Url>): State {
    if s.tasks == [] then s.(isProcessing := false, worker := Stopped)
    else if s.connection != CONNECTED then BeginConnect(s, sniOk, followUps)
    else if SameOrigin(s) then s.(worker := Sending)
    else if s.isTls then s.(worker := ShuttingDown)
    else BeginConnect(CloseConnection(s), sniOk, followUps)
  }

  function AttemptFailed(s: State, a: Attempt, followUps: seq<Url>): State
    requires a.byWorker ==> s.tasks != []
  {
    var f := s.(connection := NOT_CONNECTED, attempt := None);
    if a.byWorker then CompleteHead(f, ConnectFailed, followUps) else f
  }

  function AttemptSucceeded(s: State, a: Attempt): State {
    var c := s.(connection := CONNECTED, attempt := None, currentOrigin := Some(a.url));
    if a.byWorker then c.(established := s.established + 1, worker := Sending) else c
  }

  function AttemptProgress(s: State, a: Attempt, ok: bool, followUps: seq<Url>): State
    requires a.byWorker ==> s.tasks != []
  {
    if !ok then AttemptFailed(s, a, followUps)
    else
      match a.phase
      case Resolving => s.(attempt := Some(a.(phase := TcpConnecting)))
      case TcpConnecting =>
        if s.isTls then s.(attempt := Some(a.(phase := Handshaking))) else AttemptSucceeded(s, a)
      case Handshaking => AttemptSucceeded(s, a)
  }

  function EnqueueTask(s: State, url: Url, inLoop: bool): State {
    if MakeHttpHttpsUrl(url).Err? then s
    else if s.isProcessing then Push(s, url, true)
    else if inLoop then Push(s, url, false).(isProcessing := true, worker := LoopHead, pending := Some(s.nextId))
    else Push(s, url, true).(posted := s.posted + 1)
  }

  function SetHandler(tasks: seq<Task>, id: nat): (r: seq<Task>)
    ensures |r| == |tasks|
    ensures forall i :: 0 <= i < |tasks| ==>
              r[i] == if tasks[i].id == id then tasks[i].(hasHandler := true) else tasks[i]
  {
    seq(|tasks|, i requires 0 <= i < |tasks| =>
      if tasks[i].id == id then tasks[i].(hasHandler := true) else tasks[i])
  }

  function InstallHandler(s: State, id: nat): State {
    if exists t :: t in s.tasks && t.id == id then s.(tasks := SetHandler(s.tasks, id), pending := None)
    else s.(pending := None, dangling := true)
  }

  function ConnectFromOutside(s: State, u: Url, sniOk: bool): State {
    if s.connection == CONNECTING then s
    else
      match MakeHttpHttpsUrl(u)
      case Err(_) => s.(connection := NOT_CONNECTED)
      case Ok(url) =>
        var tls := url.scheme == "https";
        if tls && !sniOk then s.(connection := NOT_CONNECTED, isTls := tls)
        else s.(connection := CONNECTING, isTls := tls, attempt := Some(Attempt(url, Resolving, false)))
  }

  // ---- Events ----

  /** What can happen next.  The worker is not interrupted before it suspends, and a request
      that started it in place goes on right after that. */
  predicate Enabled(s: State, e: Event) {
    && !s.assertFailed && !s.dangling
    && if s.worker == LoopHead then e.Head?
       else if s.pending.Some? then e.Install?
       else
         match e
         case Request(_, _) => true
         case OutsideConnect(_, _) => true
         case StartPosted => s.posted > 0
         case ShutdownDone(_, _, _) => s.worker == ShuttingDown && s.tasks != []
         case Progress(_, _) =>
           s.attempt.Some? && (s.attempt.value.byWorker ==> s.worker == AwaitingConnect && s.tasks != [])
         case Sent(_, _) => s.worker == Sending && s.tasks != []
         case Head(_, _) => false
         case Install => false
  }

  function Step(s: State, e: Event): State
    requires Enabled(s, e)
  {
    match e
    case Request(url, inLoop) => EnqueueTask(s, url, inLoop)
    case Install => InstallHandler(s, s.pending.value)
    case StartPosted =>
      var p := s.(posted := s.posted - 1);
      if s.isProcessing then p.(assertFailed := true) else p.(isProcessing := true, worker := LoopHead)
    case Head(sniOk, followUps) => LoopIteration(s, sniOk, followUps)
    case ShutdownDone(ok, sniOk, followUps) =>
      if ok then BeginConnect(CloseConnection(s), sniOk, followUps) else s.(worker := Dead)
    case Progress(ok, followUps) => AttemptProgress(s, s.attempt.value, ok, followUps)
    case Sent(ok, followUps) => CompleteHead(s, if ok then Responded else SendFailed, followUps)
    case OutsideConnect(url, sniOk) => ConnectFromOutside(s, url, sniOk)
  }

  /** The states of a run, oldest first. */
  ghost predicate IsRun(states: seq<State>, events: seq<Event>) {
    && |states| == |events| + 1
    && forall i :: 0 <= i < |events| ==> Enabled(states[i], events[i]) && states[i + 1] == Step(states[i], events[i])
  }
}
