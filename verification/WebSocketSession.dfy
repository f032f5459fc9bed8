/** The WebSocket session as the object it is: every callback is an event of the state machine,
    and a session that keeps its promise goes on doing so exactly when its handshakes are quiet. */
module WebSocketSessions {
  import opened WebSocketPump

  class WebSocketSession {
    const config: Config
    var writeQueue: seq<string>
    var connected: bool
    var shouldReconnect: bool

    // Asynchronous operations under way.
    var chains: seq<Phase>
    var writing: seq<string>
    var listeners: nat

    ghost var sent: seq<string>
    ghost var acknowledged: seq<string>
    ghost var underflow: bool

    ghost function Abstract(): State
      reads this
    {
      State(writeQueue, connected, shouldReconnect, chains, writing, listeners, sent, acknowledged, underflow)
    }

    ghost predicate Valid()
      reads this
    {
      Promise(Abstract())
    }

    constructor (config: Config)
      ensures Valid() && Abstract() == INITIAL && this.config == config
    {
      this.config := config;
      writeQueue, connected, shouldReconnect := [], false, true;
      chains, writing, listeners := [], [], 0;
      sent, acknowledged, underflow := [], [], false;
    }

    // ---- What the user of the session calls ----

    method Start()
      requires Enabled(Abstract(), Event.Start)
      modifies this
      ensures Abstract() == Step(config, old(Abstract()), Event.Start)
      ensures old(Valid()) ==> Valid() && acknowledged + writeQueue == old(sent)
      ensures chains == old(chains) + if connected then [] else [Resolving]
    {
      ghost var s := Abstract();
      Keeps(config, s, Event.Start);
      BeginChain();
    }

    method Stop()
      requires Enabled(Abstract(), Event.Stop)
      modifies this
      ensures Abstract() == Step(config, old(Abstract()), Event.Stop)
      ensures old(Valid()) ==> Valid() && acknowledged + writeQueue == old(sent)
      ensures !connected && !shouldReconnect
      ensures writeQueue == old(writeQueue) && writing == old(writing) && chains == old(chains)
    {
      ghost var s := Abstract();
      Keeps(config, s, Event.Stop);
      shouldReconnect := false;
      connected := false;
    }

    /** The message joins the end of what is left to send; over a connection, the oldest message
        that is left is being written, whether or not it is this one. */
    method Send(text: string)
      requires Enabled(Abstract(), Event.Send(text))
      modifies this
      ensures Abstract() == Step(config, old(Abstract()), Event.Send(text))
      ensures old(Valid()) ==> Valid() && acknowledged + writeQueue == old(sent) + [text]
      ensures old(Valid()) && connected ==> writing == [writeQueue[0]]
    {
      ghost var s := Abstract();
      Keeps(config, s, Event.Send(text));
      Enqueue(text);
    }

    // ---- Completions of asynchronous operations ----

    /** on_write.  A success acknowledges the oldest message left and, over a connection, puts the
        next one in flight; a failure loses nothing. */
    method WriteFinished(ok: bool)
      requires Enabled(Abstract(), Wrote(ok))
      modifies this
      ensures Abstract() == Step(config, old(Abstract()), Wrote(ok))
      ensures old(Valid()) ==> Valid()
      ensures old(Valid()) && ok ==>
                && acknowledged == old(acknowledged) + [old(writeQueue)[0]] && writeQueue == old(writeQueue)[1..]
                && writing == if connected && writeQueue != [] then [writeQueue[0]] else []
      ensures old(Valid()) && !ok ==>
                !connected && writing == [] && acknowledged == old(acknowledged) && writeQueue == old(writeQueue)
      ensures chains == old(chains) + if !ok && shouldReconnect then [Resolving] else []
    {
      ghost var s := Abstract();
      Keeps(config, s, Wrote(ok));
      var carried := writing[0];
      writing := writing[1..];
      if !ok {
        Failed();
        return;
      }
      acknowledged := acknowledged + [carried];
      if writeQueue == [] {
        underflow := true;
        return;
      }
      writeQueue := writeQueue[1..];
      if writeQueue != [] {
        StartWrite();
      }
    }

    /** on_resolve, on_connect, on_ssl_handshake and on_handshake: the step of a chain is over. */
    method ChainFinished(chain: nat, ok: bool)
      requires Enabled(Abstract(), ChainStep(chain, ok))
      modifies this
      ensures Abstract() == Step(config, old(Abstract()), ChainStep(chain, ok))
      ensures old(Valid()) ==> (Valid() <==> Quiet(config, old(Abstract()), ChainStep(chain, ok)))
      ensures !ok ==>
                && !connected && writeQueue == old(writeQueue)
                && |chains| == old(|chains|) - 1 + if shouldReconnect then 1 else 0
      ensures ok && old(chains)[chain] == WsHandshaking ==> connected && |chains| == old(|chains|) - 1
      ensures Valid() && connected ==> writing == (if writeQueue != [] then [writeQueue[0]] else [])
    {
      ghost var s := Abstract();
      Keeps(config, s, ChainStep(chain, ok));
      var phase := chains[chain];
      if ok && phase != WsHandshaking {
        var next :=
          match phase
          case Resolving => Connecting
          case Connecting => TlsHandshaking
          case _ => WsHandshaking;
        chains := chains[chain := next];
        return;
      }
      chains := chains[..chain] + chains[chain + 1..];
      if !ok {
        Failed();
        return;
      }
      HandshakeDone();
    }

    /** on_read or the callback of a ping, with an error: nothing is lost, whatever is in flight. */
    method ListenerFinished()
      requires Enabled(Abstract(), ListenerFailed)
      modifies this
      ensures Abstract() == Step(config, old(Abstract()), ListenerFailed)
      ensures old(Valid()) ==>
                && Valid() && !connected && writing == old(writing)
                && acknowledged == old(acknowledged) && writeQueue == old(writeQueue)
      ensures chains == old(chains) + if shouldReconnect then [Resolving] else []
    {
      ghost var s := Abstract();
      Keeps(config, s, ListenerFailed);
      listeners := listeners - 1;
      Failed();
    }

    /** A heartbeat that is cancelled, or finds the session not connected, arms no other. */
    method HeartbeatFinished()
      requires Enabled(Abstract(), ListenerEnded)
      modifies this
      ensures Abstract() == Step(config, old(Abstract()), ListenerEnded)
      ensures old(Valid()) ==> Valid()
    {
      ghost var s := Abstract();
      Keeps(config, s, ListenerEnded);
      listeners := listeners - 1;
    }

    /** The callback of the closing that Stop began, with an error. */
    method CloseFinished()
      requires Enabled(Abstract(), CloseFailed)
      modifies this
      ensures Abstract() == Step(config, old(Abstract()), CloseFailed)
      ensures old(Valid()) ==> Valid()
    {
      ghost var s := Abstract();
      Keeps(config, s, CloseFailed);
      Failed();
    }

    // ---- The parts they share ----

    /** start, without its condition on the callers */
    method BeginChain()
      modifies this
      ensures Abstract() == Begin(old(Abstract()))
    {
      if connected {
        return;
      }
      chains := chains + [Resolving];
    }

    method Failed()
      modifies this
      ensures Abstract() == Fail(old(Abstract()))
    {
      connected := false;
      if shouldReconnect {
        Reconnect();
      }
    }

    method Reconnect()
      modifies this
      ensures Abstract() == if old(shouldReconnect) then Begin(old(Abstract())) else old(Abstract())
    {
      if !shouldReconnect {
        return;
      }
      if shouldReconnect {
        BeginChain();
      }
    }

    /** send */
    method Enqueue(text: string)
      modifies this
      ensures Abstract() == SendText(old(Abstract()), text)
    {
      writeQueue := writeQueue + [text];
      sent := sent + [text];
      if connected && |writeQueue| == 1 {
        StartWrite();
      }
    }

    /** do_write */
    method StartWrite()
      modifies this`writing
      ensures Abstract() == DoWrite(old(Abstract()))
    {
      if writeQueue == [] || !connected {
        return;
      }
      writing := writing + [writeQueue[0]];
    }

    method HandshakeDone()
      modifies this
      ensures Abstract() == OnHandshake(config, old(Abstract()))
    {
      hide SendText, DoWrite;
      connected := true;
      if config.authMsg != "" {
        Enqueue(config.authMsg);
      }
      if config.subMsg != "" {
        Enqueue(config.subMsg);
      }
      if writeQueue != [] {
        StartWrite();
      }
      listeners := listeners + 2;
    }
  }

  lemma Keeps(config: Config, s: State, e: Event)
    requires Enabled(s, e)
    ensures Promise(s) ==> (Promise(Step(config, s, e)) <==> Quiet(config, s, e))
  {
    if Promise(s) {
      StepExactly(config, s, e);
    }
  }
}
