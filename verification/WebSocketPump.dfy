/** The WebSocket session's write queue, which outlives its connections. */
module WebSocketPump {

  datatype Phase = Resolving | Connecting | TlsHandshaking | WsHandshaking

  /** What the session sends first on every connection; empty for nothing. */
  datatype Config = Config(authMsg: string, subMsg: string)

  datatype State = State(
    queue: seq<string>,
    connected: bool,
    shouldReconnect: bool,
    chains: seq<Phase>,       // connection attempts under way
    writing: seq<string>,     // writes in flight, oldest first
    listeners: nat,           // reads and heartbeats in flight
    sent: seq<string>,        // everything that was passed to send
    acknowledged: seq<string>,// what the successful writes carried
    underflow: bool           // a message was popped off an empty queue
  )

  const INITIAL := State([], false, true, [], [], 0, [], [], false)

  datatype Event =
    | Start
    | Stop
    | Send(text: string)
    | ChainStep(chain: nat, ok: bool)
    | ListenerFailed            // a read or a ping
    | ListenerEnded             // a heartbeat that is cancelled or finds the session not connected
    | CloseFailed               // the closing of the connection by Stop
    | Wrote(ok: bool)

  // ---- The session's functions ----

  function Begin(s: State): State {
    if s.connected then s else s.(chains := s.chains + [Resolving])
  }

  function DoWrite(s: State): State {
    if s.queue == [] || !s.connected then s else s.(writing := s.writing + [s.queue[0]])
  }

  function SendText(s: State, text: string): State {
    var q := s.(queue := s.queue + [text], sent := s.sent + [text]);
    if s.connected && |q.queue| == 1 then DoWrite(q) else q
  }

  function Fail(s: State): State {
    var f := s.(connected := false);
    if s.shouldReconnect then Begin(f) else f
  }

  function OnHandshake(config: Config, s: State): State {
    var s0 := s.(connected := true);
    var s1 := if config.authMsg == "" then s0 else SendText(s0, config.authMsg);
    var s2 := if config.subMsg == "" then s1 else SendText(s1, config.subMsg);
    var s3 := if s2.queue == [] then s2 else DoWrite(s2);
    s3.(listeners := s3.listeners + 2)
  }

  function OnChainStep(config: Config, s: State, chain: nat, ok: bool): State
    requires chain < |s.chains|
  {
    var rest := s.(chains := s.chains[..chain] + s.chains[chain + 1..]);
    if !ok then Fail(rest)
    else
      match s.chains[chain]
      case Resolving => s.(chains := s.chains[chain := Connecting])
      case Connecting => s.(chains := s.chains[chain := TlsHandshaking])
      case TlsHandshaking => s.(chains := s.chains[chain := WsHandshaking])
      case WsHandshaking => OnHandshake(config, rest)
  }

  function OnWrite(s: State, ok: bool): State
    requires s.writing != []
  {
    var w := s.(writing := s.writing[1..]);
    if !ok then Fail(w)
    else
      var a := w.(acknowledged := s.acknowledged + [s.writing[0]]);
      if s.queue == [] then a.(underflow := true)
      else
        var p := a.(queue := s.queue[1..]);
        if p.queue == [] then p else DoWrite(p)
  }

  // ---- Runs ----

  predicate Enabled(s: State, e: Event) {
    && !s.underflow
    && match e
       case ChainStep(chain, _) => chain < |s.chains|
       case ListenerFailed => s.listeners > 0
       case ListenerEnded => s.listeners > 0
       case CloseFailed => !s.shouldReconnect
       case Wrote(_) => s.writing != []
       case _ => true
  }

  function Step(config: Config, s: State, e: Event): State
    requires Enabled(s, e)
  {
    match e
    case Start => Begin(s)
    case Stop => s.(connected := false, shouldReconnect := false)
    case Send(text) => SendText(s, text)
    case ChainStep(chain, ok) => OnChainStep(config, s, chain, ok)
    case ListenerFailed => Fail(s.(listeners := s.listeners - 1))
    case ListenerEnded => s.(listeners := s.listeners - 1)
    case CloseFailed => Fail(s)
    case Wrote(ok) => OnWrite(s, ok)
  }

  ghost predicate IsRun(config: Config, states: seq<State>, events: seq<Event>) {
    && |states| == |events| + 1
    && forall i :: 0 <= i < |events| ==>
         Enabled(states[i], events[i]) && states[i + 1] == Step(config, states[i], events[i])
  }

  // ---- The promise ----

  /** Acknowledged messages followed by the queue are the messages sent; at most one write is in
      flight, of the oldest message left; and a connected session with messages left is writing. */
  ghost predicate Promise(s: State) {
    && s.acknowledged + s.queue == s.sent
    && (s.writing == [] || (s.queue != [] && s.writing == [s.queue[0]]))
    && (s.connected ==> (s.queue != [] <==> s.writing != []))
    && !s.underflow
  }

  /** The two messages of the configuration, if there are any, meet a queue that is not empty. */
  predicate QuietHandshake(config: Config, queue: seq<string>) {
    (config.authMsg == "" && config.subMsg == "") || queue != []
  }

  /** The event completes the handshake of a connection. */
  predicate Connects(s: State, e: Event) {
    e.ChainStep? && e.ok && e.chain < |s.chains| && s.chains[e.chain] == WsHandshaking
  }

  /** A handshake is quiet and finds no write of an earlier connection in flight.  All other
      events are free: failures, reconnects and overlapping connection chains. */
  predicate Quiet(config: Config, s: State, e: Event) {
    Connects(s, e) ==> s.writing == [] && QuietHandshake(config, s.queue)
  }

  /** An event keeps the promise exactly when it is quiet. */
  lemma StepExactly(config: Config, s: State, e: Event)
    requires Promise(s) && Enabled(s, e)
    ensures Promise(Step(config, s, e)) <==> Quiet(config, s, e)
  {
    hide OnHandshake, OnWrite, SendText, QuietHandshake;
    match e
    case ChainStep(chain, ok) =>
      if Connects(s, e) {
        HandshakeExactly(config, s.(chains := s.chains[..chain] + s.chains[chain + 1..]));
      }
    case Wrote(ok) => WriteKeeps(s, ok);
    case Send(text) => SendKeeps(s, text);
    case _ =>
  }

  lemma WriteKeeps(s: State, ok: bool)
    requires Promise(s) && s.writing != []
    ensures Promise(OnWrite(s, ok))
  {
    if ok {
      assert s.acknowledged + s.queue == (s.acknowledged + [s.queue[0]]) + s.queue[1..];
    }
  }

  lemma SendKeeps(s: State, text: string)
    requires Promise(s)
    ensures Promise(SendText(s, text))
  {
    hide SendText;
    SendAppends(s, text);
  }

  lemma SendAppends(s: State, text: string)
    requires s.acknowledged + s.queue == s.sent
    ensures var r := SendText(s, text);
            && r.acknowledged + r.queue == r.sent && r.queue == s.queue + [text]
            && r == s.(queue := r.queue, sent := r.sent, writing := r.writing)
            && r.writing == s.writing + if s.connected && s.queue == [] then [text] else []
  {
  }

  lemma HandshakeExactly(config: Config, s: State)
    requires Promise(s)
    ensures Promise(OnHandshake(config, s)) <==> s.writing == [] && QuietHandshake(config, s.queue)
  {
    hide SendText;
    var s0 := s.(connected := true);
    SendAppends(s0, config.authMsg);
    var s1 := if config.authMsg == "" then s0 else SendText(s0, config.authMsg);
    SendAppends(s1, config.subMsg);
    if s.writing == [] {
      HandshakeWritesExactly(config, s);
    }
  }

  ghost predicate QuietRun(config: Config, states: seq<State>, events: seq<Event>) {
    && IsRun(config, states, events) && states[0] == INITIAL
    && forall i :: 0 <= i < |events| ==> Quiet(config, states[i], events[i])
  }

  lemma {:induction false} RunKeeps(config: Config, states: seq<State>, events: seq<Event>, k: nat)
    requires QuietRun(config, states, events) && k <= |events|
    ensures Promise(states[k])
  {
    if k > 0 {
      RunKeeps(config, states, events, k - 1);
      StepExactly(config, states[k - 1], events[k - 1]);
    }
  }

  /** The promise holds throughout a run exactly when every handshake is quiet. */
  lemma RunExactly(config: Config, states: seq<State>, events: seq<Event>)
    requires IsRun(config, states, events) && states[0] == INITIAL
    ensures (forall k :: 0 <= k <= |events| ==> Promise(states[k])) <==>
            (forall i :: 0 <= i < |events| ==> Quiet(config, states[i], events[i]))
  {
    hide Promise, Quiet, Step;
    if forall k :: 0 <= k <= |events| ==> Promise(states[k]) {
      forall i | 0 <= i < |events|
        ensures Quiet(config, states[i], events[i])
      {
        assert Promise(states[i]) && Promise(states[i + 1]);
        StepExactly(config, states[i], events[i]);
      }
    }
    if forall i :: 0 <= i < |events| ==> Quiet(config, states[i], events[i]) {
      forall k | 0 <= k <= |events|
        ensures Promise(states[k])
      {
        RunKeeps(config, states, events, k);
      }
    }
  }

  // ---- What it means ----

  /** At every moment, across failures, reconnects and overlapping chains: the acknowledged
      messages are the first ones sent, the queue is the rest; at most one write is in flight, of
      the oldest message not yet acknowledged; and a connected session with messages left is
      writing. */
  lemma PumpConserves(config: Config, states: seq<State>, events: seq<Event>, k: nat)
    requires QuietRun(config, states, events) && k <= |events|
    ensures var s := states[k];
            && s.acknowledged <= s.sent && s.queue == s.sent[|s.acknowledged|..]
            && |s.writing| <= 1
            && (s.writing != [] ==> |s.acknowledged| < |s.sent| && s.writing[0] == s.sent[|s.acknowledged|])
            && (s.connected && |s.acknowledged| < |s.sent| ==> |s.writing| == 1)
  {
    RunKeeps(config, states, events, k);
    var s := states[k];
    assert (s.acknowledged + s.queue)[|s.acknowledged|..] == s.queue;
    assert s.queue != [] ==> (s.acknowledged + s.queue)[|s.acknowledged|] == s.queue[0];
  }

  /** How many writes have succeeded. */
  function Successes(events: seq<Event>): nat {
    if events == [] then 0
    else Successes(events[..|events| - 1]) + if events[|events| - 1] == Wrote(true) then 1 else 0
  }

  /** On every run, the successful writes acknowledge the messages in the order in which they were
      sent: the m-th success is the m-th message. */
  lemma {:induction false} AcknowledgedInOrder(config: Config, states: seq<State>, events: seq<Event>, k: nat)
    requires QuietRun(config, states, events) && k <= |events|
    ensures Successes(events[..k]) <= |states[k].sent|
    ensures states[k].acknowledged == states[k].sent[..Successes(events[..k])]
  {
    hide OnHandshake, SendText, Quiet;
    PumpConserves(config, states, events, k);
    if k > 0 {
      AcknowledgedInOrder(config, states, events, k - 1);
      PumpConserves(config, states, events, k - 1);
      RunKeeps(config, states, events, k - 1);
      assert events[..k][..k - 1] == events[..k - 1];
      OneAcknowledgement(config, states[k - 1], events[k - 1]);
    }
  }

  lemma OneAcknowledgement(config: Config, s: State, e: Event)
    requires Promise(s) && Enabled(s, e)
    ensures |Step(config, s, e).acknowledged| == |s.acknowledged| + if e == Wrote(true) then 1 else 0
  {
    hide SendText, OnHandshake;
    match e
    case Send(text) => SendGrows(s, text);
    case ChainStep(chain, ok) =>
      HandshakeGrows(config, s.(chains := s.chains[..chain] + s.chains[chain + 1..]));
    case _ =>
  }

  /** While a connection lasts, k successful writes are possible one after the other and
      acknowledge the next k messages; the one after them is then in flight. */
  lemma {:induction false} ConnectionDrains(config: Config, states: seq<State>, events: seq<Event>)
    requires IsRun(config, states, events) && Promise(states[0]) && states[0].connected
    requires |events| <= |states[0].queue| && forall i :: 0 <= i < |events| ==> events[i] == Wrote(true)
    ensures var k, s, r := |events|, states[0], states[|events|];
            && r.connected && Promise(r)
            && r.acknowledged == s.acknowledged + s.queue[..k] && r.queue == s.queue[k..]
            && (k < |s.queue| ==> Enabled(r, Wrote(true)) && r.writing == [s.queue[k]])
  {
    hide OnHandshake, OnWrite, SendText, Quiet;
    var k := |events|;
    if k > 0 {
      ConnectionDrains(config, states[..k], events[..k - 1]);
      StepExactly(config, states[k - 1], Wrote(true));
      AcknowledgementAdvances(config, states[k - 1]);
    }
  }

  lemma AcknowledgementAdvances(config: Config, s: State)
    requires Promise(s) && s.connected && s.queue != []
    ensures Enabled(s, Wrote(true)) && Quiet(config, s, Wrote(true))
    ensures var r := Step(config, s, Wrote(true));
            && r.queue == s.queue[1..] && r.acknowledged == s.acknowledged + [s.queue[0]] && r.connected
            && (r.queue != [] ==> r.writing == [r.queue[0]])
  {
  }

  /** Nothing that was ever acknowledged is taken back, and messages are only added at the end. */
  lemma {:induction false} PumpMonotone(config: Config, states: seq<State>, events: seq<Event>, k: nat, m: nat)
    requires IsRun(config, states, events) && k <= m <= |events|
    ensures states[k].acknowledged <= states[m].acknowledged && states[k].sent <= states[m].sent
  {
    hide Step;
    if k < m {
      PumpMonotone(config, states, events, k, m - 1);
      StepMonotone(config, states[m - 1], events[m - 1]);
    }
  }

  lemma StepMonotone(config: Config, s: State, e: Event)
    requires Enabled(s, e)
    ensures s.acknowledged <= Step(config, s, e).acknowledged && s.sent <= Step(config, s, e).sent
  {
    hide SendText, OnHandshake;
    match e
    case Send(text) => SendGrows(s, text);
    case ChainStep(chain, ok) =>
      HandshakeGrows(config, s.(chains := s.chains[..chain] + s.chains[chain + 1..]));
    case _ =>
  }

  lemma HandshakeGrows(config: Config, s: State)
    ensures OnHandshake(config, s).acknowledged == s.acknowledged && s.sent <= OnHandshake(config, s).sent
  {
    hide SendText;
    var s0 := s.(connected := true);
    SendGrows(s0, config.authMsg);
    SendGrows(if config.authMsg == "" then s0 else SendText(s0, config.authMsg), config.subMsg);
  }

  lemma SendGrows(s: State, text: string)
    ensures SendText(s, text).acknowledged == s.acknowledged && SendText(s, text).sent == s.sent + [text]
  {
  }

  /** A handshake starts at most one write exactly under the condition on it. */
  lemma HandshakeWritesExactly(config: Config, s: State)
    requires s.writing == [] && s.acknowledged + s.queue == s.sent
    ensures |OnHandshake(config, s).writing| <= 1 <==> QuietHandshake(config, s.queue)
    ensures !QuietHandshake(config, s.queue) ==>
              var first := if config.authMsg != "" then config.authMsg else config.subMsg;
              OnHandshake(config, s).writing == [first, first]
  {
    hide SendText;
    var s0 := s.(connected := true);
    SendAppends(s0, config.authMsg);
    var s1 := if config.authMsg == "" then s0 else SendText(s0, config.authMsg);
    SendAppends(s1, config.subMsg);
  }

  /** With one message to send first and an empty queue the two writes acknowledge one message twice,
      and in the end a message is popped off an empty queue. */
  lemma LoudHandshakeUnderflows(config: Config, s: State)
    requires Promise(s) && s.writing == [] && s.queue == []
    requires (config.authMsg == "") != (config.subMsg == "")
    ensures var s1, first := OnHandshake(config, s), if config.authMsg != "" then config.authMsg else config.subMsg;
            && Enabled(s1, Wrote(true)) && Enabled(OnWrite(s1, true), Wrote(true))
            && OnWrite(OnWrite(s1, true), true).underflow
            && OnWrite(OnWrite(s1, true), true).acknowledged == s.sent + [first, first]
  {
    hide SendText;
    SendAppends(s.(connected := true), config.authMsg);
    SendAppends(s.(connected := true), config.subMsg);
    assert s.acknowledged == s.sent;
  }

  // ---- Overlapping connection chains ----

  /** At most one chain, of a session that is neither connected nor still writing. */
  ghost predicate OneChain(s: State) {
    |s.chains| <= 1 && (s.chains != [] ==> !s.connected && s.writing == [])
  }

  /** A chain begins when none is under way and no write is in flight. */
  predicate BeginsAlone(s: State, e: Event) {
    match e
    case Start => s.connected || (s.chains == [] && s.writing == [])
    case ListenerFailed => s.shouldReconnect ==> s.chains == [] && s.writing == []
    case _ => true
  }

  /** An event keeps the chain single exactly when none begins beside another or beside a write.
      A handshake of a single chain then finds no write in flight. */
  lemma ChainsExactly(config: Config, s: State, e: Event)
    requires Promise(s) && OneChain(s) && Enabled(s, e)
    ensures OneChain(Step(config, s, e)) <==> BeginsAlone(s, e)
    ensures Quiet(config, s, e) <==> (Connects(s, e) ==> QuietHandshake(config, s.queue))
  {
    hide OnChainStep, OnWrite, SendText;
    match e
    case ChainStep(chain, ok) => StepKeepsOneChain(config, s, chain, ok);
    case Wrote(ok) => WriteKeepsOneChain(s, ok);
    case Send(text) => SendAppends(s, text);
    case _ =>
  }

  lemma StepKeepsOneChain(config: Config, s: State, chain: nat, ok: bool)
    requires OneChain(s) && chain < |s.chains|
    ensures OneChain(OnChainStep(config, s, chain, ok))
  {
    hide OnHandshake;
    var rest := s.(chains := []);
    assert s.chains[..chain] + s.chains[chain + 1..] == [];
    HandshakeFrame(config, rest);
  }

  lemma WriteKeepsOneChain(s: State, ok: bool)
    requires Promise(s) && OneChain(s) && s.writing != []
    ensures OneChain(OnWrite(s, ok))
  {
  }

  lemma HandshakeFrame(config: Config, s: State)
    ensures OnHandshake(config, s).connected && OnHandshake(config, s).chains == s.chains
  {
  }

  /** A connection that is lost with a message in flight fails a read and the write.  That starts
      two chains, and the promise holds all the same. */
  lemma OverlappingChains(config: Config, s: State)
    requires Promise(s) && OneChain(s) && s.connected && s.shouldReconnect && s.queue != [] && s.listeners > 0
    ensures var lost := Step(config, s, ListenerFailed);
            && Enabled(s, ListenerFailed) && !BeginsAlone(s, ListenerFailed) && Enabled(lost, Wrote(false))
            && |Step(config, lost, Wrote(false)).chains| == 2 && Promise(Step(config, lost, Wrote(false)))
  {
  }

  const SILENT := Config("", "")

  /** One message is being written over the first connection. */
  function Connected(): State {
    State(["hello"], true, true, [], ["hello"], 2, ["hello"], [], false)
  }

  /** An ordinary run reaches that state: a start, a message, four steps of the connection. */
  lemma FirstWrite() returns (states: seq<State>, events: seq<Event>)
    ensures QuietRun(SILENT, states, events) && |events| == 6 && states[6] == Connected()
    ensures forall i :: 0 <= i < 6 ==> BeginsAlone(states[i], events[i])
  {
    var step := ChainStep(0, true);
    events := [Start, Send("hello"), step, step, step, step];
    var s1 := Step(SILENT, INITIAL, Start);
    var s2 := Step(SILENT, s1, Send("hello"));
    var s3 := Step(SILENT, s2, step);
    var s4 := Step(SILENT, s3, step);
    var s5 := Step(SILENT, s4, step);
    states := [INITIAL, s1, s2, s3, s4, s5, Step(SILENT, s5, step)];
    assert IsRun(SILENT, states, events);
  }

  /** From that state a read fails and the session reconnects while the write is still in flight:
      the handshake writes the message a second time.  Both writes then succeed, and the second
      pops off an empty queue. */
  lemma WrittenTwice()
    ensures var step := ChainStep(0, true);
            var s1 := Step(SILENT, Connected(), ListenerFailed);
            var s2 := Step(SILENT, s1, step);
            var s3 := Step(SILENT, s2, step);
            var s4 := Step(SILENT, s3, step);
            var s5 := Step(SILENT, s4, step);
            var s6 := Step(SILENT, s5, Wrote(true));
            && Promise(s4) && QuietHandshake(SILENT, s4.queue) && !Quiet(SILENT, s4, step)
            && s5.writing == ["hello", "hello"]
            && s6.acknowledged == ["hello"] && Step(SILENT, s6, Wrote(true)).underflow
  {
  }

  // ---- Stopping ----

  /** A session stopped with no connection attempt under way stays disconnected until it is
      started again. */
  lemma {:induction false} StopHolds(config: Config, states: seq<State>, events: seq<Event>, k: nat, m: nat)
    requires IsRun(config, states, events) && k <= m <= |events|
    requires !states[k].shouldReconnect && !states[k].connected && states[k].chains == []
    requires forall i :: k <= i < m ==> !events[i].Start?
    ensures !states[m].shouldReconnect && !states[m].connected && states[m].chains == []
  {
    if k < m {
      StopHolds(config, states, events, k, m - 1);
    }
  }

  /** Stop cuts the connection for good and leaves everything else alone: the messages, the write
      in flight and the chains under way. */
  lemma StopLeaves(config: Config, s: State)
    requires Enabled(s, Stop)
    ensures var r := Step(config, s, Stop);
            && !r.connected && !r.shouldReconnect
            && r.queue == s.queue && r.sent == s.sent && r.acknowledged == s.acknowledged
            && r.writing == s.writing && r.chains == s.chains && r.listeners == s.listeners && !r.underflow
  {
  }

  /** After a stop with no connection attempt under way no chain begins and the session is never
      connected, on every run, whatever fails, until it is started again. */
  lemma StoppedForGood(config: Config, states: seq<State>, events: seq<Event>, k: nat, m: nat)
    requires IsRun(config, states, events) && k < m <= |events|
    requires events[k] == Stop && states[k].chains == []
    requires forall i :: k <= i < m ==> !events[i].Start?
    ensures states[m].chains == [] && !states[m].connected && !states[m].shouldReconnect
  {
    StopLeaves(config, states[k]);
    StopHolds(config, states, events, k + 1, m);
  }

  // ---- Connection chains, step by step ----

  /** The chain that is over, taken out of those under way. */
  function Without(chains: seq<Phase>, chain: nat): seq<Phase>
    requires chain < |chains|
  {
    chains[..chain] + chains[chain + 1..]
  }

  /** A failure of any kind disconnects, loses no message, and begins exactly one new chain if the
      session reconnects. */
  ghost predicate Failed(s: State, r: State, others: seq<Phase>) {
    && !r.connected && r.shouldReconnect == s.shouldReconnect
    && r.chains == others + (if s.shouldReconnect then [Resolving] else [])
    && r.queue == s.queue && r.sent == s.sent && r.acknowledged == s.acknowledged
  }

  lemma FailureExactly(config: Config, s: State, e: Event)
    requires Enabled(s, e)
    ensures e.ChainStep? && !e.ok ==>
              Failed(s, Step(config, s, e), Without(s.chains, e.chain)) && Step(config, s, e).writing == s.writing
    ensures e == ListenerFailed ==>
              Failed(s, Step(config, s, e), s.chains) && Step(config, s, e).writing == s.writing
    ensures e == Wrote(false) ==>
              Failed(s, Step(config, s, e), s.chains) && Step(config, s, e).writing == s.writing[1..]
    ensures e == CloseFailed ==> Failed(s, Step(config, s, e), s.chains) && Step(config, s, e).writing == s.writing
  {
  }

  /** A successful step takes its chain from resolving through connecting and the two handshakes;
      only the last one connects.  It then sends the authentication and the subscription, in this
      order, and begins to listen: a read and a heartbeat. */
  lemma ChainExactly(config: Config, s: State, chain: nat)
    requires Enabled(s, ChainStep(chain, true)) && s.acknowledged + s.queue == s.sent
    ensures var r := Step(config, s, ChainStep(chain, true));
            match s.chains[chain]
            case Resolving => r == s.(chains := s.chains[chain := Connecting])
            case Connecting => r == s.(chains := s.chains[chain := TlsHandshaking])
            case TlsHandshaking => r == s.(chains := s.chains[chain := WsHandshaking])
            case WsHandshaking =>
              && r.connected && r.chains == Without(s.chains, chain) && r.listeners == s.listeners + 2
              && r.shouldReconnect == s.shouldReconnect && r.acknowledged == s.acknowledged
              && r.queue == s.queue + (if config.authMsg == "" then [] else [config.authMsg])
                            + (if config.subMsg == "" then [] else [config.subMsg])
  {
    hide SendText;
    if s.chains[chain] == WsHandshaking {
      var s0 := s.(chains := Without(s.chains, chain), connected := true);
      SendAppends(s0, config.authMsg);
      var s1 := if config.authMsg == "" then s0 else SendText(s0, config.authMsg);
      SendAppends(s1, config.subMsg);
    }
  }

  /** Successful steps of the first attempt, n at most, connect the session. */
  predicate CanConnect(config: Config, s: State, n: nat)
    decreases n
  {
    && n > 0 && Enabled(s, ChainStep(0, true))
    && var next := Step(config, s, ChainStep(0, true));
    next.connected || CanConnect(config, next, n - 1)
  }

  function StepsLeft(phase: Phase): nat {
    match phase
    case Resolving => 4
    case Connecting => 3
    case TlsHandshaking => 2
    case WsHandshaking => 1
  }

  /** With an attempt under way the session can connect, stopped or not. */
  lemma {:induction false} StopOvertaken(config: Config, s: State, n: nat)
    requires !s.underflow && s.chains != [] && n >= StepsLeft(s.chains[0])
    ensures CanConnect(config, s, n)
    decreases n
  {
    if s.chains[0] != WsHandshaking {
      StopOvertaken(config, Step(config, s, ChainStep(0, true)), n - 1);
    } else {
      HandshakeConnects(config, s.(chains := s.chains[..0] + s.chains[1..]));
    }
  }

  lemma HandshakeConnects(config: Config, s: State)
    ensures OnHandshake(config, s).connected
  {
  }
}
