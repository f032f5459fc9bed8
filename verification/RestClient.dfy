/** The REST client as the object it is: each method of the first group is the code from one
    suspension point of its coroutines to the next.  It is proved to be the event of the state
    machine, and to keep the promises of a valid client exactly under the condition on that event. */
module RestClient {
  import opened Wrappers
  import opened Urls
  import opened RequestQueue
  import opened RequestQueueEvents
  import opened RequestQueueSafety

  /** What is sent goes over a connection to its own origin, encrypted exactly for https. */
  ghost predicate SendsToItsOrigin(s: State) {
    s.worker == Sending ==>
      && s.tasks != [] && s.connection == CONNECTED && s.currentOrigin.Some?
      && OriginOf(s.currentOrigin.value) == OriginOf(s.tasks[0].endpoint)
      && (s.isTls <==> s.tasks[0].endpoint.scheme == "https")
  }

  class AsyncRestClient {
    var tasks: seq<Task>
    var isProcessing: bool
    var connection: ConnectionState
    var currentOrigin: Option<Url>
    var isTls: bool
    var nextId: nat

    // The suspended coroutines.
    var worker: Worker
    var posted: nat
    var attempt: Option<Attempt>
    var pending: Option<nat>

    // What has happened so far.
    ghost var done: seq<Completion>
    ghost var connects: nat
    ghost var established: nat
    ghost var assertFailed: bool
    ghost var dangling: bool

    ghost function Abstract(): State
      reads this
    {
      State(tasks, isProcessing, connection, currentOrigin, isTls, worker, posted, attempt, pending,
            nextId, done, connects, established, assertFailed, dangling)
    }

    ghost predicate Valid()
      reads this
    {
      Inv(Abstract())
    }

    constructor ()
      ensures Valid() && Abstract() == INITIAL
    {
      tasks, isProcessing, connection, currentOrigin, isTls := [], false, NOT_CONNECTED, None, false;
      worker, posted, attempt, pending, nextId := Stopped, 0, None, None, 0;
      done, connects, established, assertFailed, dangling := [], 0, 0, false, false;
    }

    // ---- The events ----

    /** A task that is queued has a worker, running or about to. */
    method EnqueueTask(url: Url, inLoop: bool)
      requires Enabled(Abstract(), Request(url, inLoop))
      modifies this
      ensures Abstract() == Step(old(Abstract()), Request(url, inLoop))
      ensures old(Valid()) ==> Valid()
      ensures Valid() && tasks != [] ==> worker != Stopped || posted > 0
      ensures tasks == old(tasks) + if Supported(url)
                                    then [Task(old(nextId), Endpoint(url), old(isProcessing) || !inLoop)] else []
    {
      RequestedExactly(Abstract(), url, inLoop);
      hide Inv, SendsToItsOrigin, MakeHttpHttpsUrl;
      Keeps(Abstract(), Request(url, inLoop));
      var id := nextId;
      var made := PushTask(url, isProcessing || !inLoop);
      if made && !isProcessing {
        if inLoop {
          isProcessing := true;
          worker := LoopHead;
          pending := Some(id);
        } else {
          posted := posted + 1;
        }
      }
    }

    /** async_wait of the request that started the worker: its task is still there to listen to. */
    method AsyncWait()
      requires Enabled(Abstract(), Install)
      modifies this
      ensures Abstract() == Step(old(Abstract()), Install)
      ensures old(Valid()) ==> Valid() && !dangling && forall i :: 0 <= i < |tasks| ==> tasks[i].hasHandler
    {
      Keeps(Abstract(), Install);
      var id := pending.value;
      pending := None;
      if exists t :: t in tasks && t.id == id {
        tasks := SetHandler(tasks, id);
      } else {
        dangling := true;
      }
    }

    /** A posted worker gets its turn: all is well if and only if no other is running. */
    method StartProcessing()
      requires Enabled(Abstract(), StartPosted)
      modifies this
      ensures Abstract() == Step(old(Abstract()), StartPosted)
      ensures old(Valid()) ==> (Valid() <==> old(!isProcessing)) && (Valid() <==> !assertFailed)
    {
      Keeps(Abstract(), StartPosted);
      posted := posted - 1;
      if isProcessing {
        assertFailed := true;
      } else {
        isProcessing := true;
        worker := LoopHead;
      }
    }

    /** One iteration of process_queue, up to its first suspension.  The worker ends only with
        the queue empty, and what it begins to send goes to the right origin. */
    method ProcessFront(sniOk: bool, followUps: seq<Url>)
      requires Enabled(Abstract(), Head(sniOk, followUps))
      modifies this
      ensures Abstract() == Step(old(Abstract()), Head(sniOk, followUps))
      ensures old(Valid()) ==> (Valid() <==> HeardInTime(old(Abstract()), Head(sniOk, followUps)))
      ensures Valid() ==> SendsToItsOrigin(Abstract()) && (worker == Stopped ==> tasks == [])
    {
      hide CompleteHead, BeginConnect, Inv, SendsToItsOrigin, HeardInTime, OriginOf;
      Keeps(Abstract(), Head(sniOk, followUps));
      StoppedEmpty(Abstract(), sniOk, followUps);
      if tasks == [] {
        isProcessing := false;
        worker := Stopped;
        return;
      }
      var isNewConnectionRequired := false;
      if connection != CONNECTED {
        isNewConnectionRequired := true;
      } else if currentOrigin.None? || OriginOf(currentOrigin.value) != OriginOf(tasks[0].endpoint) {
        isNewConnectionRequired := true;
        if isTls {
          worker := ShuttingDown;
          return;
        }
        Close();
      }
      if isNewConnectionRequired {
        ConnectWorker(sniOk, followUps);
      } else {
        worker := Sending;
      }
    }

    /** The TLS shutdown is over.  A failure ends the worker for good, which breaks nothing else. */
    method ShutdownFinished(ok: bool, sniOk: bool, followUps: seq<Url>)
      requires Enabled(Abstract(), ShutdownDone(ok, sniOk, followUps))
      modifies this
      ensures Abstract() == Step(old(Abstract()), ShutdownDone(ok, sniOk, followUps))
      ensures old(Valid()) ==> Valid()
      ensures !ok ==> worker == Dead && tasks == old(tasks)
    {
      hide CompleteHead, BeginConnect, Inv, SendsToItsOrigin;
      Keeps(Abstract(), ShutdownDone(ok, sniOk, followUps));
      if !ok {
        worker := Dead;
        return;
      }
      Close();
      ConnectWorker(sniOk, followUps);
    }

    /** An awaited step of connect() has finished. */
    method ConnectProgress(ok: bool, followUps: seq<Url>)
      requires Enabled(Abstract(), Progress(ok, followUps))
      modifies this
      ensures Abstract() == Step(old(Abstract()), Progress(ok, followUps))
      ensures old(Valid()) ==> Valid()
      ensures Valid() ==> SendsToItsOrigin(Abstract())
      ensures old(Valid()) && ok ==>
                var a := old(attempt).value;
                if IsLastStep(a) then connection == CONNECTED && attempt == None && currentOrigin == Some(a.url)
                else
                  && connection == CONNECTING && worker == old(worker)
                  && attempt == Some(a.(phase := if a.phase == Resolving then TcpConnecting else Handshaking))
    {
      if Inv(Abstract()) && ok {
        ProgressedExactly(Abstract(), followUps);
      }
      hide CompleteHead, AttemptFailed, AttemptSucceeded, Inv, SendsToItsOrigin;
      Keeps(Abstract(), Progress(ok, followUps));
      var a := attempt.value;
      if !ok {
        GiveUp(a, followUps);
        return;
      }
      if a.phase == Resolving {
        attempt := Some(a.(phase := TcpConnecting));
        return;
      }
      if a.phase == TcpConnecting && isTls {
        attempt := Some(a.(phase := Handshaking));
        return;
      }
      Establish(a);
    }

    /** run_impl has its response or its error: the front task is completed, heard by its
        requester, and gone; those behind it move up. */
    method SendFinished(ok: bool, followUps: seq<Url>)
      requires Enabled(Abstract(), Sent(ok, followUps))
      modifies this
      ensures Abstract() == Step(old(Abstract()), Sent(ok, followUps))
      ensures old(Valid()) ==>
                && Valid()
                && var front, outcome := old(tasks)[0], if ok then Responded else SendFailed;
                && done == old(done) + [Completion(front.id, OriginOf(front.endpoint), outcome, true)]
                && old(tasks)[1..] <= tasks
    {
      hide CompleteHead;
      Keeps(Abstract(), Sent(ok, followUps));
      CompleteHeadFrame(Abstract(), if ok then Responded else SendFailed, followUps);
      FinishHead(if ok then Responded else SendFailed, followUps);
    }

    /** connect() called by the user of the client. */
    method Connect(u: Url, sniOk: bool)
      requires Enabled(Abstract(), OutsideConnect(u, sniOk))
      modifies this
      ensures Abstract() == Step(old(Abstract()), OutsideConnect(u, sniOk))
      ensures old(Valid()) ==> (Valid() <==> worker != Sending && worker != ShuttingDown)
      ensures old(connection) != CONNECTING && Supported(u) && (u.scheme == "https" ==> sniOk) ==>
                connection == CONNECTING && attempt == Some(Attempt(Endpoint(u), Resolving, false))
    {
      OutsideExactly(Abstract(), u, sniOk);
      Keeps(Abstract(), OutsideConnect(u, sniOk));
      if connection == CONNECTING {
        return;
      }
      connection := CONNECTING;
      var url := MakeHttpHttpsUrl(u);
      if url.Err? {
        connection := NOT_CONNECTED;
        return;
      }
      isTls := url.value.scheme == "https";
      if isTls && !sniOk {
        connection := NOT_CONNECTED;
        return;
      }
      attempt := Some(Attempt(url.value, Resolving, false));
    }

    // ---- The parts they share ----

    /** make_task and the push of enqueue_task; returns whether a task was made. */
    method PushTask(url: Url, hasHandler: bool) returns (made: bool)
      modifies this
      ensures Abstract() == Push(old(Abstract()), url, hasHandler)
      ensures made == MakeHttpHttpsUrl(url).Ok?
    {
      var endpoint := MakeHttpHttpsUrl(url);
      if endpoint.Err? {
        return false;
      }
      tasks := tasks + [Task(nextId, endpoint.value, hasHandler)];
      nextId := nextId + 1;
      return true;
    }

    /** The requests of a resumed requester go to the back of the queue. */
    method Resume(followUps: seq<Url>)
      modifies this
      ensures Abstract() == PushAll(old(Abstract()), followUps)
    {
      var i := 0;
      while i < |followUps|
        invariant i <= |followUps|
        invariant Abstract() == PushAll(old(Abstract()), followUps[..i])
      {
        assert followUps[..i + 1][..i] == followUps[..i];
        var _ := PushTask(followUps[i], true);
        i := i + 1;
      }
      assert followUps[..i] == followUps;
    }

    /** The front task is completed and popped; the loop goes on. */
    method FinishHead(outcome: Outcome, followUps: seq<Url>)
      requires tasks != []
      modifies this
      ensures Abstract() == CompleteHead(old(Abstract()), outcome, followUps)
    {
      var t := tasks[0];
      if t.hasHandler {
        Resume(followUps);
      }
      tasks := tasks[1..];
      done := done + [Completion(t.id, OriginOf(t.endpoint), outcome, t.hasHandler)];
      worker := LoopHead;
    }

    /** The worker calls connect() with the origin of the front task. */
    method ConnectWorker(sniOk: bool, followUps: seq<Url>)
      requires tasks != []
      modifies this
      ensures Abstract() == BeginConnect(old(Abstract()), sniOk, followUps)
    {
      hide CompleteHead, MakeHttpHttpsUrl, OriginOf, FromOrigin;
      connects := connects + 1;
      if connection == CONNECTING {
        FinishHead(ConnectFailed, followUps);
        return;
      }
      connection := CONNECTING;
      var url := MakeHttpHttpsUrl(FromOrigin(OriginOf(tasks[0].endpoint)));
      if url.Err? {
        connection := NOT_CONNECTED;
        FinishHead(ConnectFailed, followUps);
        return;
      }
      isTls := url.value.scheme == "https";
      if isTls && !sniOk {
        connection := NOT_CONNECTED;
        FinishHead(ConnectFailed, followUps);
        return;
      }
      attempt := Some(Attempt(url.value, Resolving, true));
      worker := AwaitingConnect;
    }

    method GiveUp(a: Attempt, followUps: seq<Url>)
      requires a.byWorker ==> tasks != []
      modifies this
      ensures Abstract() == AttemptFailed(old(Abstract()), a, followUps)
    {
      hide CompleteHead;
      connection := NOT_CONNECTED;
      attempt := None;
      if a.byWorker {
        FinishHead(ConnectFailed, followUps);
      }
    }

    method Establish(a: Attempt)
      modifies this
      ensures Abstract() == AttemptSucceeded(old(Abstract()), a)
    {
      attempt := None;
      connection := CONNECTED;
      currentOrigin := Some(a.url);
      if a.byWorker {
        established := established + 1;
        worker := Sending;
      }
    }

    /** The part of graceful_shutdown after the stream is closed. */
    method Close()
      modifies this
      ensures Abstract() == CloseConnection(old(Abstract()))
    {
      currentOrigin := None;
      isTls := false;
      connection := NOT_CONNECTED;
    }
  }

  lemma Keeps(s: State, e: Event)
    requires Enabled(s, e)
    ensures Inv(s) ==> (Inv(Step(s, e)) <==> LeavesConnection(s, e) && HeardInTime(s, e) && StartsAlone(s, e))
    ensures var r := Step(s, e);
            Inv(r) ==> SendsToItsOrigin(r) && (r.tasks != [] ==> r.worker != Stopped || r.posted > 0)
  {
    hide Step, Enabled, HeardInTime, Conserved, HandlerPromise;
    if Inv(s) {
      StepExactly(s, e);
    }
  }

  lemma StoppedEmpty(s: State, sniOk: bool, followUps: seq<Url>)
    ensures LoopIteration(s, sniOk, followUps).worker == Stopped ==> LoopIteration(s, sniOk, followUps).tasks == []
  {
  }
}
