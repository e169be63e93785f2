/** The broadcast hub as the admin server keeps it: a registry of clients
    that the handlers update in place, and the `broadcast` channel. Each
    goroutine loop iteration is one method call; calls run one at a time. */
module BroadcastHub {
  import opened HubSpec

  class Hub {
    /** The registry `clients` (a map to `true`, i.e. a set). */
    var clients: set<ConnId>
    /** The unbuffered `broadcast` channel: its blocked senders, oldest first. */
    var broadcast: seq<Pending>
    /** Connections this process has closed. */
    var closed: set<ConnId>

    /** Connections whose read loop has not ended. */
    ghost var running: set<ConnId>
    /** What each connection has been sent, the fan-outs so far, and every
        message pushed onto the channel. */
    ghost var log: map<ConnId, seq<Message>>
    ghost var history: seq<Delivery>
    ghost var pushed: seq<Message>

    ghost function Abs(): (r: State)
      reads this
    {
      State(clients, running, closed, broadcast, log, history, pushed)
    }

    ghost predicate Valid()
      reads this
    {
      Inv(Abs())
    }

    /** Process start: an empty registry and an empty channel. */
    constructor ()
      ensures Valid() && Abs() == Init()
    {
      clients, broadcast, closed := {}, [], {};
      running, log, history, pushed := {}, map[], [], [];
    }

    /** `handleConnections` up to its loop: register the upgraded connection
        and start its read loop. */
    method Accept(ws: ConnId)
      requires Valid() && ws !in closed
      modifies this
      ensures Valid() && Abs() == Register(old(Abs()), ws)
      ensures clients == old(clients) + {ws}
      ensures old(ws in clients) ==> Abs() == old(Abs())
    {
      RegisterPreservesInv(Abs(), ws);
      clients := clients + {ws};
      running := running + {ws};
      if ws !in log {
        log := log[ws := []];
      }
    }

    /** One iteration of the read loop of `ws`, which must be running and not
        blocked on the channel. A failed read deletes `ws` and ends the loop
        (`done`), and the deferred close closes it; a message read is pushed
        onto the channel as it is. */
    method ReadOnce(ws: ConnId, outcome: ReadOutcome) returns (done: bool)
      requires Valid() && Active(Abs(), ws)
      modifies this
      ensures Valid() && Abs() == ReadStep(old(Abs()), ws, outcome)
      ensures done == outcome.ReadFailed?
      ensures done ==> clients == old(clients) - {ws} && ws in closed && broadcast == old(broadcast)
      ensures !done ==> broadcast == old(broadcast) + [Pending(ws, outcome.msg)] && clients == old(clients)
    {
      ReadStepPreservesInv(Abs(), ws, outcome);
      match outcome
      case ReadFailed =>
        clients := clients - {ws};
        running := running - {ws};
        closed := closed + {ws};
        done := true;
      case Received(m) =>
        broadcast := broadcast + [Pending(ws, m)];
        pushed := pushed + [m];
        done := false;
    }

    /** One iteration of `handleMessages`: take the first message off the
        channel and write it to every registered client, the sender included
        (see `WriteAll`). With an empty channel the dispatcher is blocked:
        nothing happens and `msg` is `None`. */
    method HandleNext(failing: set<ConnId>) returns (msg: Option<Message>, attempts: seq<ConnId>)
      requires Valid()
      modifies this
      ensures Valid() && Abs() == FanOut(old(Abs()), failing)
      ensures msg == if old(broadcast) == [] then None else Some(old(broadcast)[0].msg)
      ensures old(broadcast) == [] ==> attempts == []
      ensures old(broadcast) != [] ==>
        && (forall c :: c in attempts <==> c in old(clients))
        && (forall i, j :: 0 <= i < j < |attempts| ==> attempts[i] != attempts[j])
    {
      if broadcast == [] {
        return None, [];
      }
      ghost var s0 := Abs();
      FanOutPreservesInv(s0, failing);
      var m := broadcast[0].msg;
      broadcast := broadcast[1..];
      attempts := WriteAll(m, failing);
      history := history + [Delivery(m, s0.clients, s0.clients - failing)];
      ghost var r := FanOut(s0, failing);
      assert log == r.log by {
        assert log.Keys == r.log.Keys;
        forall c | c in log ensures log[c] == r.log[c] { }
      }
      assert Abs() == r;
      msg := Some(m);
    }

    /** The inner loop of `handleMessages`: try `WriteJSON(m)` once on every
        registered client, in some order (`attempts`); a client in `failing`
        fails its write and is closed and deleted, and the loop goes on with
        the others, every other client has `m` delivered. */
    method WriteAll(m: Message, failing: set<ConnId>) returns (attempts: seq<ConnId>)
      requires clients <= log.Keys
      modifies this
      ensures forall c :: c in attempts <==> c in old(clients)
      ensures forall i, j :: 0 <= i < j < |attempts| ==> attempts[i] != attempts[j]
      ensures clients == old(clients) - failing
      ensures closed == old(closed) + old(clients) * failing
      ensures log.Keys == old(log).Keys
      ensures forall c :: c in old(log) ==>
        log[c] == if c in old(clients) - failing then old(log)[c] + [m] else old(log)[c]
      ensures broadcast == old(broadcast) && running == old(running)
      ensures history == old(history) && pushed == old(pushed)
    {
      var todo := clients;
      ghost var done: set<ConnId> := {};
      attempts := [];
      while todo != {}
        invariant broadcast == old(broadcast) && running == old(running)
        invariant history == old(history) && pushed == old(pushed)
        invariant todo !! done && todo + done == old(clients)
        invariant forall c :: c in attempts <==> c in done
        invariant forall i, j :: 0 <= i < j < |attempts| ==> attempts[i] != attempts[j]
        invariant clients == old(clients) - done * failing
        invariant closed == old(closed) + done * failing
        invariant log.Keys == old(log).Keys
        invariant forall c :: c in old(log) ==>
          log[c] == if c in done - failing then old(log)[c] + [m] else old(log)[c]
        decreases todo
      {
        var c :| c in todo;
        todo, done := todo - {c}, done + {c};
        attempts := attempts + [c];
        WriteOne(c, m, c !in failing);
      }
    }

    /** One `WriteJSON(m)` on client `c`, whose outcome is `writeOk`: on
        success `c` is sent `m`; on failure `c` is closed and deleted. */
    method WriteOne(c: ConnId, m: Message, writeOk: bool)
      requires c in log
      modifies this
      ensures writeOk ==> clients == old(clients) && closed == old(closed) && log == old(log)[c := old(log)[c] + [m]]
      ensures !writeOk ==> clients == old(clients) - {c} && closed == old(closed) + {c} && log == old(log)
      ensures broadcast == old(broadcast) && running == old(running)
      ensures history == old(history) && pushed == old(pushed)
    {
      if !writeOk {
        closed := closed + {c};
        clients := clients - {c};
      } else {
        log := log[c := log[c] + [m]];
      }
    }
  }
}
