/** What each event of the request queue does, field by field, and how many steps a connection
    takes. */
module RequestQueueEvents {
  import opened Wrappers
  import opened Urls
  import opened RequestQueue
  import opened RequestQueueSafety

  // ---- Tasks for URLs ----

  predicate Supported(u: Url) {
    u.scheme == "http" || u.scheme == "https"
  }

  /** The URL with its port written out. */
  function Endpoint(u: Url): Url {
    var port :=
      match u.port
      case Some(p) => p
      case None => if u.scheme == "https" then "443" else "80";
    Url(u.scheme, u.host, Some(port), u.target)
  }

  /** The tasks of further requests: one for every supported URL, in order, with handlers. */
  function NewTasks(id: nat, urls: seq<Url>): seq<Task>
    decreases urls
  {
    if urls == [] then []
    else if Supported(urls[0]) then [Task(id, Endpoint(urls[0]), true)] + NewTasks(id + 1, urls[1..])
    else NewTasks(id, urls[1..])
  }

  lemma {:induction false} NewTasksAppend(id: nat, urls: seq<Url>, u: Url)
    ensures NewTasks(id, urls + [u])
            == NewTasks(id, urls) + if Supported(u) then [Task(id + |NewTasks(id, urls)|, Endpoint(u), true)] else []
    decreases urls
  {
    if urls == [] {
      assert [u][1..] == [];
    } else {
      assert (urls + [u])[1..] == urls[1..] + [u];
      NewTasksAppend(if Supported(urls[0]) then id + 1 else id, urls[1..], u);
    }
  }

  lemma PushedExactly(s: State, url: Url, hasHandler: bool)
    ensures Push(s, url, hasHandler)
            == if Supported(url)
               then s.(tasks := s.tasks + [Task(s.nextId, Endpoint(url), hasHandler)], nextId := s.nextId + 1)
               else s
  {
    NormalisedExactly(url);
  }

  lemma ResumedExactly(s: State, urls: seq<Url>)
    ensures PushAll(s, urls)
            == s.(tasks := s.tasks + NewTasks(s.nextId, urls), nextId := s.nextId + |NewTasks(s.nextId, urls)|)
  {
    hide PushAll, NewTasks;
    PushAllFrame(s, urls);
    ResumedTasks(s, urls);
  }

  lemma {:induction false} ResumedTasks(s: State, urls: seq<Url>)
    ensures PushAll(s, urls).tasks == s.tasks + NewTasks(s.nextId, urls)
    ensures PushAll(s, urls).nextId == s.nextId + |NewTasks(s.nextId, urls)|
  {
    if urls == [] {
      assert s.tasks + NewTasks(s.nextId, []) == s.tasks;
    } else {
      hide *;
      var n := |urls| - 1;
      var more := NewTasks(s.nextId, urls[..n]);
      ResumedTasks(s, urls[..n]);
      LastPushed(s, urls);
      NewTasksAppend(s.nextId, urls[..n], urls[n]);
      assert urls[..n] + [urls[n]] == urls;
      Joined(s.tasks, more, Task(s.nextId + |more|, Endpoint(urls[n]), true));
    }
  }

  lemma LastPushed(s: State, urls: seq<Url>)
    requires urls != []
    ensures var before, last := PushAll(s, urls[..|urls| - 1]), urls[|urls| - 1];
            var extra := if Supported(last) then [Task(before.nextId, Endpoint(last), true)] else [];
            PushAll(s, urls).tasks == before.tasks + extra && PushAll(s, urls).nextId == before.nextId + |extra|
  {
    PushedExactly(PushAll(s, urls[..|urls| - 1]), urls[|urls| - 1], true);
  }

  lemma Joined(a: seq<Task>, b: seq<Task>, t: Task)
    ensures (a + b) + [t] == a + (b + [t]) && (a + b) + [] == a + (b + [])
  {
  }

  /** The front task is completed with an outcome: it leaves the queue, its requester, if it
      listens, is resumed and makes further requests, and the worker goes on. */
  ghost predicate Completed(s: State, r: State, outcome: Outcome, followUps: seq<Url>) {
    && s.tasks != []
    && var t := s.tasks[0];
    && var more := if t.hasHandler then NewTasks(s.nextId, followUps) else [];
    && var origin := Origin(t.endpoint.scheme, t.endpoint.host, t.endpoint.port);
    && r == s.(tasks := s.tasks[1..] + more, nextId := s.nextId + |more|,
               done := s.done + [Completion(t.id, origin, outcome, t.hasHandler)], worker := LoopHead)
  }

  lemma CompletedExactly(s: State, outcome: Outcome, followUps: seq<Url>)
    requires s.tasks != []
    ensures Completed(s, CompleteHead(s, outcome, followUps), outcome, followUps)
  {
    hide PushAll, NewTasks;
    ResumedExactly(s, followUps);
    assert (s.tasks + NewTasks(s.nextId, followUps))[1..] == s.tasks[1..] + NewTasks(s.nextId, followUps);
  }

  // ---- Requests ----

  /** A request for an unsupported URL changes nothing.  Any other puts one task at the end; it
      starts a worker exactly when none is processing: in place, where the request has yet to
      listen, or posted. */
  lemma RequestedExactly(s: State, url: Url, inLoop: bool)
    requires Enabled(s, Request(url, inLoop))
    ensures var r := Step(s, Request(url, inLoop));
            var listens := s.isProcessing || !inLoop;
            var queued := s.(tasks := s.tasks + [Task(s.nextId, Endpoint(url), listens)], nextId := s.nextId + 1);
            if !Supported(url) then r == s
            else if s.isProcessing then r == queued
            else if inLoop then r == queued.(isProcessing := true, worker := LoopHead, pending := Some(s.nextId))
            else r == queued.(posted := s.posted + 1)
  {
    NormalisedExactly(url);
  }

  /** A posted worker that gets its turn runs, or runs into the assertion. */
  lemma StartedExactly(s: State)
    requires Enabled(s, StartPosted)
    ensures var r, taken := Step(s, StartPosted), s.(posted := s.posted - 1);
            r == if s.isProcessing then taken.(assertFailed := true)
                 else taken.(isProcessing := true, worker := LoopHead)
  {
  }

  /** The handler goes to the one task that waits for it. */
  lemma InstalledExactly(s: State)
    requires HandlerPromise(s) && Enabled(s, Install)
    ensures var r := Step(s, Install);
            && r == s.(tasks := r.tasks, pending := None) && |r.tasks| == |s.tasks|
            && forall i :: 0 <= i < |s.tasks| ==>
                 r.tasks[i] == if s.tasks[i].id == s.pending.value then s.tasks[i].(hasHandler := true) else s.tasks[i]
  {
    var i :| 0 <= i < |s.tasks| && s.tasks[i].id == s.pending.value;
    assert s.tasks[i] in s.tasks;
  }

  // ---- The worker ----

  /** The worker's connect() up to its first suspension: refused, or an attempt at the front
      task's origin that begins with resolving its host. */
  ghost predicate ConnectBegun(s: State, r: State, sniOk: bool, followUps: seq<Url>) {
    && s.tasks != []
    && var e := s.tasks[0].endpoint;
    && var c := s.(connects := s.connects + 1);
    && if s.connection == CONNECTING then Completed(c, r, ConnectFailed, followUps)
       else if e.scheme == "https" && !sniOk then
         Completed(c.(connection := NOT_CONNECTED, isTls := true), r, ConnectFailed, followUps)
       else
         r == c.(connection := CONNECTING, isTls := e.scheme == "https", worker := AwaitingConnect,
                 attempt := Some(Attempt(Url(e.scheme, e.host, e.port, ""), Resolving, true)))
  }

  lemma ConnectBegunExactly(s: State, sniOk: bool, followUps: seq<Url>)
    requires s.tasks != [] && IsNormal(s.tasks[0].endpoint)
    ensures ConnectBegun(s, BeginConnect(s, sniOk, followUps), sniOk, followUps)
  {
    hide CompleteHead, Completed;
    var e, c := s.tasks[0].endpoint, s.(connects := s.connects + 1);
    NormalisedExactly(FromOrigin(OriginOf(e)));
    CompletedExactly(c, ConnectFailed, followUps);
    CompletedExactly(c.(connection := NOT_CONNECTED, isTls := true), ConnectFailed, followUps);
  }

  function Closed(s: State): State {
    s.(connection := NOT_CONNECTED, currentOrigin := None, isTls := false)
  }

  /** Whether what is open can carry the front task. */
  predicate Reusable(s: State)
    requires s.tasks != []
  {
    && s.connection == CONNECTED && s.currentOrigin.Some?
    && s.currentOrigin.value.scheme == s.tasks[0].endpoint.scheme
    && s.currentOrigin.value.host == s.tasks[0].endpoint.host
    && s.currentOrigin.value.port == s.tasks[0].endpoint.port
  }

  /** An iteration of the worker: it ends with the queue empty; it sends over the connection that is
      open when that goes to the front task's origin; it closes any other, waiting for the shutdown
      of TLS; and it connects when nothing is open. */
  lemma IteratedExactly(s: State, sniOk: bool, followUps: seq<Url>)
    requires Conserved(s) && Enabled(s, Head(sniOk, followUps))
    ensures var r := Step(s, Head(sniOk, followUps));
            if s.tasks == [] then r == s.(isProcessing := false, worker := Stopped)
            else if Reusable(s) then r == s.(worker := Sending)
            else if s.connection == CONNECTED && s.isTls then r == s.(worker := ShuttingDown)
            else if s.connection == CONNECTED then ConnectBegun(Closed(s), r, sniOk, followUps)
            else ConnectBegun(s, r, sniOk, followUps)
  {
    hide BeginConnect, ConnectBegun;
    if s.tasks != [] {
      ConnectBegunExactly(s, sniOk, followUps);
      ConnectBegunExactly(Closed(s), sniOk, followUps);
    }
  }

  /** After a shutdown the worker connects; a failed one ends it. */
  lemma ShutDownExactly(s: State, ok: bool, sniOk: bool, followUps: seq<Url>)
    requires Conserved(s) && Enabled(s, ShutdownDone(ok, sniOk, followUps))
    ensures var r := Step(s, ShutdownDone(ok, sniOk, followUps));
            if ok then ConnectBegun(Closed(s), r, sniOk, followUps) else r == s.(worker := Dead)
  {
    hide BeginConnect, ConnectBegun;
    ConnectBegunExactly(Closed(s), sniOk, followUps);
  }

  /** The end of a send completes the front task, with a response or with the failure. */
  lemma SentExactly(s: State, followUps: seq<Url>)
    requires Enabled(s, Sent(true, followUps))
    ensures Completed(s, Step(s, Sent(true, followUps)), Responded, followUps)
    ensures Completed(s, Step(s, Sent(false, followUps)), SendFailed, followUps)
  {
    hide CompleteHead, Completed;
    CompletedExactly(s, Responded, followUps);
    CompletedExactly(s, SendFailed, followUps);
  }

  // ---- Connection attempts ----

  /** The last step before the connection stands: the TLS handshake for https, the TCP connection
      for http. */
  predicate IsLastStep(a: Attempt) {
    if a.url.scheme == "https" then a.phase == Handshaking else a.phase == TcpConnecting
  }

  /** A successful step connects if and only if it is the last one for the scheme; any other takes
      the attempt to the next step and changes nothing else. */
  lemma ProgressedExactly(s: State, followUps: seq<Url>)
    requires ConnectionPromise(s) && Enabled(s, Progress(true, followUps))
    ensures var r, a := Step(s, Progress(true, followUps)), s.attempt.value;
            && (r.connection == CONNECTED <==> IsLastStep(a))
            && (IsLastStep(a) ==>
                  r == s.(connection := CONNECTED, attempt := None, currentOrigin := Some(a.url),
                          established := r.established, worker := if a.byWorker then Sending else s.worker))
            && (IsLastStep(a) ==> r.established == s.established + if a.byWorker then 1 else 0)
            && (!IsLastStep(a) ==>
                  && a.phase != Handshaking
                  && r == s.(attempt := Some(a.(phase := if a.phase == Resolving then TcpConnecting else Handshaking))))
  {
    hide Conserved;
  }

  /** A step that fails ends the attempt, and the front task with it when the worker made it. */
  lemma AttemptFailedExactly(s: State, followUps: seq<Url>)
    requires Enabled(s, Progress(false, followUps))
    ensures var r, ended := Step(s, Progress(false, followUps)), s.(connection := NOT_CONNECTED, attempt := None);
            if s.attempt.value.byWorker then Completed(ended, r, ConnectFailed, followUps) else r == ended
  {
    hide CompleteHead, Completed;
    if s.attempt.value.byWorker {
      CompletedExactly(s.(connection := NOT_CONNECTED, attempt := None), ConnectFailed, followUps);
    }
  }

  /** connect() from outside: refused while another is under way, and for what it cannot reach at
      all; otherwise an attempt begins. */
  lemma OutsideExactly(s: State, url: Url, sniOk: bool)
    requires Enabled(s, OutsideConnect(url, sniOk))
    ensures var r, https := Step(s, OutsideConnect(url, sniOk)), url.scheme == "https";
            if s.connection == CONNECTING then r == s
            else if !Supported(url) then r == s.(connection := NOT_CONNECTED)
            else if https && !sniOk then r == s.(connection := NOT_CONNECTED, isTls := true)
            else r == s.(connection := CONNECTING, isTls := https,
                         attempt := Some(Attempt(Endpoint(url), Resolving, false)))
  {
    NormalisedExactly(url);
  }

  // ---- How many steps a connection takes ----

  function Progresses(events: seq<Event>): nat {
    if events == [] then 0
    else
      var last := events[|events| - 1];
      Progresses(events[..|events| - 1]) + if last.Progress? && last.ok then 1 else 0
  }

  function StepsDone(phase: Phase): nat {
    match phase
    case Resolving => 0
    case TcpConnecting => 1
    case Handshaking => 2
  }

  /** Nothing but its own steps moves an attempt. */
  lemma AttemptStays(s: State, e: Event)
    requires ConnectionPromise(s) && Enabled(s, e) && s.attempt.Some? && !e.Progress?
    ensures Step(s, e).attempt == s.attempt && Step(s, e).connection == s.connection
  {
    hide CompleteHead;
    if e.Head? && s.tasks != [] {
      CompleteHeadFrame(s.(connects := s.connects + 1), ConnectFailed, e.followUps);
    }
  }

  /** An attempt begins with resolving. */
  lemma AttemptBegins(s: State, e: Event)
    requires ConnectionPromise(s) && Enabled(s, e) && s.attempt == None && Step(s, e).attempt.Some?
    ensures Step(s, e).attempt.value.phase == Resolving
  {
    hide CompleteHead, BeginConnect, LoopIteration, PushAll, NewTasks;
    match e
    case Head(sniOk, followUps) => IteratedExactly(s, sniOk, followUps);
    case ShutdownDone(ok, sniOk, followUps) => ShutDownExactly(s, ok, sniOk, followUps);
    case Sent(ok, followUps) => SentExactly(s, followUps);
    case _ =>
  }

  /** The attempt that begins with event a is under way until event m-1. */
  ghost predicate UnderWay(states: seq<State>, events: seq<Event>, a: nat, m: nat) {
    && IsRun(states, events) && a < m <= |events|
    && states[a].attempt == None && forall i :: a < i < m ==> states[i].attempt.Some?
  }

  /** One more event of an attempt: its successful steps are counted by its phase. */
  lemma AttemptCounts(s: State, e: Event)
    requires ConnectionPromise(s) && Enabled(s, e) && s.attempt.Some?
    ensures var r, a, one := Step(s, e), s.attempt.value, if e.Progress? && e.ok then 1 else 0;
            && (r.attempt.Some? ==>
                  r.attempt.value.url == a.url && StepsDone(r.attempt.value.phase) == StepsDone(a.phase) + one)
            && (r.attempt == None && r.connection == CONNECTED ==>
                  StepsDone(a.phase) + one == if a.url.scheme == "https" then 3 else 2)
  {
    hide CompleteHead, Step, Enabled, Completed, ConnectionPromise;
    if e.Progress? {
      if e.ok {
        ProgressedExactly(s, e.followUps);
      } else {
        AttemptFailedExactly(s, e.followUps);
        EndedNotConnected(s, e.followUps);
      }
    } else {
      AttemptStays(s, e);
    }
  }

  lemma EndedNotConnected(s: State, followUps: seq<Url>)
    requires Enabled(s, Progress(false, followUps))
    ensures Step(s, Progress(false, followUps)).attempt == None
    ensures Step(s, Progress(false, followUps)).connection == NOT_CONNECTED
  {
    hide CompleteHead;
    AttemptFailedExactly(s, followUps);
  }

  /** Between the beginning of an attempt and its connection lie three successful steps for https,
      resolving, connecting and the TLS handshake, and two for http. */
  lemma {:induction false} StepsToConnect(states: seq<State>, events: seq<Event>, a: nat, m: nat)
    requires UnderWay(states, events, a, m) && states[0] == INITIAL && states[a + 1].attempt.Some?
    requires Throughout((s, e) => LeavesConnection(s, e), states, events, m)
    ensures var url, steps := states[a + 1].attempt.value.url, Progresses(events[a + 1..m]);
            && (states[m].attempt.Some? ==>
                  states[m].attempt.value.url == url && steps == StepsDone(states[m].attempt.value.phase))
            && (states[m].attempt == None && states[m].connection == CONNECTED ==>
                  steps == if url.scheme == "https" then 3 else 2)
  {
    hide Step, Enabled, ConnectionPromise, StepsDone, LeavesConnection;
    var s, e := states[m - 1], events[m - 1];
    assert Enabled(s, e) && states[m - 1 + 1] == Step(s, e);
    assert Throughout((s, e) => LeavesConnection(s, e), states, events, m - 1);
    ConnectionOnRun(states, events, m - 1);
    assert ConnectionPromise(s);
    if m == a + 1 {
      AttemptBegins(s, e);
      StartsAtZero();
    } else {
      StepsToConnect(states, events, a, m - 1);
      AttemptCounts(s, e);
      assert events[a + 1..m][..m - a - 2] == events[a + 1..m - 1];
    }
  }

  lemma StartsAtZero()
    ensures StepsDone(Resolving) == 0
  {
  }
}
