/** The broadcast hub of the admin server, as values.

    The hub is a registry of live WebSocket connections (`clients`) fed by the
    `broadcast` channel. Each connection has a handler loop that reads
    messages and pushes them onto the channel; one dispatcher loop takes each
    message off the channel and writes it to every registered connection,
    removing those whose write fails.

    `State` is the whole observable state at one instant; the three step
    functions `Register`, `ReadStep` and `FanOut` are the atomic steps the
    goroutines take. Read and write outcomes are inputs (oracles). */
module HubSpec {

  /** An opaque connection identity: only equality is ever used. */
  type ConnId = nat

  datatype Option<T> = None | Some(value: T)

  /** The JSON record exchanged on a connection: `{type, payload}`. */
  datatype Message = Message(messageType: string, payload: string)

  /** A handler loop blocked in `broadcast <- msg`. The channel is unbuffered,
      so the channel's contents are exactly the blocked senders, in order. */
  datatype Pending = Pending(sender: ConnId, msg: Message)

  /** The outcome of one `ReadJSON` call. */
  datatype ReadOutcome = Received(msg: Message) | ReadFailed

  /** One completed fan-out: the message, the clients a write was tried on,
      and those whose write succeeded. */
  datatype Delivery = Delivery(msg: Message, attempted: set<ConnId>, recipients: set<ConnId>)

  /** `clients`: the registry. `running`: connections whose handler loop has
      not ended. `closed`: connections this process has closed. `queue`: the
      blocked senders on `broadcast`. The last three fields are history:
      `log` is each known connection's delivered messages, `history` every
      fan-out so far, and `pushed` every message pushed onto the channel. */
  datatype State = State(
    clients: set<ConnId>,
    running: set<ConnId>,
    closed: set<ConnId>,
    queue: seq<Pending>,
    log: map<ConnId, seq<Message>>,
    history: seq<Delivery>,
    pushed: seq<Message>)

  function Senders(q: seq<Pending>): (r: set<ConnId>)
  {
    set i | 0 <= i < |q| :: q[i].sender
  }

  function QueuedMessages(q: seq<Pending>): (r: seq<Message>)
  {
    seq(|q|, i requires 0 <= i < |q| => q[i].msg)
  }

  /** The messages taken off the channel so far, in the order taken. */
  function Published(h: seq<Delivery>): (r: seq<Message>)
  {
    seq(|h|, i requires 0 <= i < |h| => h[i].msg)
  }

  /** The messages that fan-outs `h` delivered to `c`, in fan-out order. */
  function Received(h: seq<Delivery>, c: ConnId): (r: seq<Message>)
    decreases |h|
  {
    if h == [] then []
    else Received(h[..|h| - 1], c) + (if c in h[|h| - 1].recipients then [h[|h| - 1].msg] else [])
  }

  /** The positions in `h` of the fan-outs that delivered to `c`, in order. */
  function DeliveryIndices(h: seq<Delivery>, c: ConnId): (r: seq<nat>)
    decreases |h|
  {
    if h == [] then []
    else DeliveryIndices(h[..|h| - 1], c) + (if c in h[|h| - 1].recipients then [|h| - 1] else [])
  }

  /** `DeliveryIndices(h, c)` is strictly increasing, covers every fan-out
      that delivered to `c`, and its fan-outs' messages are exactly
      `Received(h, c)`: what `c` received is a subsequence of `Published(h)`. */
  lemma {:induction false} DeliveryIndicesSound(h: seq<Delivery>, c: ConnId)
    ensures var r := DeliveryIndices(h, c);
      && |r| == |Received(h, c)|
      && (forall k :: 0 <= k < |r| ==>
            r[k] < |h| && c in h[r[k]].recipients && Received(h, c)[k] == h[r[k]].msg)
      && (forall k, l :: 0 <= k < l < |r| ==> r[k] < r[l])
      && (forall i :: 0 <= i < |h| && c in h[i].recipients ==> i in r)
    decreases |h|
  {
    if h != [] {
      var front := h[..|h| - 1];
      DeliveryIndicesSound(front, c);
      var r0 := DeliveryIndices(front, c);
      var rec0 := Received(front, c);
      var last := h[|h| - 1];
      var r := DeliveryIndices(h, c);
      assert r == r0 + (if c in last.recipients then [|h| - 1] else []);
      assert Received(h, c) == rec0 + (if c in last.recipients then [last.msg] else []);
      forall k | 0 <= k < |r0|
        ensures r[k] == r0[k] && r0[k] < |front| && h[r0[k]] == front[r0[k]] && Received(h, c)[k] == rec0[k]
      {
      }
      forall i | 0 <= i < |front| && c in h[i].recipients ensures i in r {
        assert h[i] == front[i];
        assert i in r0;
      }
    }
  }

  /** The hub's invariant: every registered client has a running handler and
      is open; every connection that left the registry is closed; only running
      handlers are blocked on the channel; each log is exactly what the
      fan-outs delivered; and the channel is FIFO: what was taken off it
      followed by what is still on it is everything pushed, in push order. */
  ghost predicate Inv(s: State)
  {
    && s.clients <= s.running
    && s.clients !! s.closed
    && s.running <= s.log.Keys
    && s.closed <= s.log.Keys
    && s.log.Keys - s.clients <= s.closed
    && Senders(s.queue) <= s.running
    && (forall i :: 0 <= i < |s.history| ==> s.history[i].recipients <= s.history[i].attempted)
    && (forall c :: c in s.log ==> s.log[c] == Received(s.history, c))
    && (forall c :: c !in s.log ==> Received(s.history, c) == [])
    && Published(s.history) + QueuedMessages(s.queue) == s.pushed
  }

  /** The state at start-up: no clients, nothing on the channel. */
  function Init(): (s: State)
    ensures Inv(s)
    ensures s.clients == {} && s.queue == [] && s.pushed == []
  {
    State({}, {}, {}, [], map[], [], [])
  }

  /** A handler loop can take a step: it is running and not blocked on the channel. */
  predicate Active(s: State, ws: ConnId)
  {
    ws in s.running && ws !in Senders(s.queue)
  }

  /** Accepting a connection: `clients[ws] = true` and its read loop starts.
      The upgrade always hands over an open connection. */
  function Register(s: State, ws: ConnId): (r: State)
    requires ws !in s.closed
    ensures ws in r.clients && ws in r.running && Active(r, ws) == (ws !in Senders(s.queue))
    ensures r.clients == s.clients + {ws} && r.running == s.running + {ws}
    ensures r.log.Keys == s.log.Keys + {ws} && (ws !in s.log ==> r.log[ws] == [])
    ensures Inv(s) && ws in s.clients ==> r == s
    ensures forall c :: c in s.log ==> c in r.log && r.log[c] == s.log[c]
    ensures r.closed == s.closed && r.queue == s.queue && r.history == s.history && r.pushed == s.pushed
  {
    s.(clients := s.clients + {ws},
       running := s.running + {ws},
       log := if ws in s.log then s.log else s.log[ws := []])
  }

  /** One iteration of a connection's read loop. A failed read deletes the
      connection from the registry and ends the loop (the deferred close then
      closes it); a successful read pushes the message, unchanged, onto the
      channel. A loop that has ended or is blocked on the channel takes no step. */
  function ReadStep(s: State, ws: ConnId, outcome: ReadOutcome): (r: State)
    ensures !Active(s, ws) ==> r == s
    ensures Active(s, ws) && outcome.ReadFailed? ==>
      && ws !in r.clients && ws !in r.running && ws in r.closed
      && r.clients == s.clients - {ws} && r.running == s.running - {ws} && r.closed == s.closed + {ws}
      && r.queue == s.queue && r.log == s.log && r.history == s.history && r.pushed == s.pushed
    ensures Active(s, ws) && outcome.Received? ==>
      && r.queue == s.queue + [Pending(ws, outcome.msg)] && r.pushed == s.pushed + [outcome.msg]
      && r.clients == s.clients && r.running == s.running && r.closed == s.closed
      && r.log == s.log && r.history == s.history
    ensures s.closed <= r.closed && r.log == s.log
  {
    if !Active(s, ws) then s
    else
      match outcome
      case ReadFailed =>
        s.(clients := s.clients - {ws}, running := s.running - {ws}, closed := s.closed + {ws})
      case Received(m) =>
        s.(queue := s.queue + [Pending(ws, m)], pushed := s.pushed + [m])
  }

  /** Each client's log, after a fan-out of `m` that reached exactly `to`. */
  function Deliver(log: map<ConnId, seq<Message>>, to: set<ConnId>, m: Message): (r: map<ConnId, seq<Message>>)
  {
    map c | c in log :: if c in to then log[c] + [m] else log[c]
  }

  /** One iteration of the dispatcher loop: take the first message off the
      channel and write it to every registered client, the sender included;
      each client in `failing` fails its write and is closed and deleted. With
      nothing on the channel the dispatcher is blocked and nothing happens. */
  function FanOut(s: State, failing: set<ConnId>): (r: State)
    ensures s.queue == [] ==> r == s
    ensures s.queue != [] ==>
      && r.queue == s.queue[1..]
      && r.clients == s.clients - failing
      && r.closed == s.closed + (s.clients * failing)
      && r.running == s.running && r.pushed == s.pushed
      && r.history == s.history + [Delivery(s.queue[0].msg, s.clients, s.clients - failing)]
    ensures s.queue != [] ==>
      && r.log.Keys == s.log.Keys
      && (forall c :: c in s.log && c in s.clients && c !in failing ==> r.log[c] == s.log[c] + [s.queue[0].msg])
      && (forall c :: c in s.log && (c !in s.clients || c in failing) ==> r.log[c] == s.log[c])
    ensures s.closed <= r.closed && r.log.Keys == s.log.Keys
  {
    if s.queue == [] then s
    else
      var m := s.queue[0].msg;
      var delivered := s.clients - failing;
      s.(queue := s.queue[1..],
         clients := delivered,
         closed := s.closed + (s.clients * failing),
         log := Deliver(s.log, delivered, m),
         history := s.history + [Delivery(m, s.clients, delivered)])
  }

  /** Accepting an open connection keeps the invariant. */
  lemma RegisterPreservesInv(s: State, ws: ConnId)
    requires Inv(s) && ws !in s.closed
    ensures Inv(Register(s, ws))
  {
  }

  /** One read-loop iteration keeps the invariant: in particular the pushed
      message joins the end of the channel and of `pushed`. */
  lemma ReadStepPreservesInv(s: State, ws: ConnId, outcome: ReadOutcome)
    requires Inv(s)
    ensures Inv(ReadStep(s, ws, outcome))
  {
    var r := ReadStep(s, ws, outcome);
    if Active(s, ws) && outcome.Received? {
      assert QueuedMessages(r.queue) == QueuedMessages(s.queue) + [outcome.msg];
      assert Senders(r.queue) == Senders(s.queue) + {ws} by {
        assert r.queue[|s.queue|].sender == ws;
        forall i | 0 <= i < |s.queue| ensures r.queue[i] == s.queue[i] { }
      }
    }
  }

  /** One fan-out keeps the invariant: the logs of the clients written to
      grow by exactly the message recorded in the new history entry, and the
      message moves from the channel to the published list. */
  lemma FanOutPreservesInv(s: State, failing: set<ConnId>)
    requires Inv(s)
    ensures Inv(FanOut(s, failing))
  {
    if s.queue != [] {
      var r := FanOut(s, failing);
      var m := s.queue[0].msg;
      var d := r.history[|r.history| - 1];
      assert r.history[..|r.history| - 1] == s.history;
      assert forall c :: Received(r.history, c) == Received(s.history, c) + (if c in d.recipients then [m] else []);
      assert forall c :: c in r.log ==> r.log[c] == Received(r.history, c);
      assert forall c :: c !in r.log ==> Received(r.history, c) == [];
      assert forall i :: 0 <= i < |r.history| ==> r.history[i].recipients <= r.history[i].attempted;
      assert Published(r.history) == Published(s.history) + [m];
      assert QueuedMessages(s.queue) == [m] + QueuedMessages(r.queue);
      assert Published(r.history) + QueuedMessages(r.queue) == r.pushed;
      assert Senders(r.queue) <= Senders(s.queue) by {
        forall i | 0 <= i < |r.queue| ensures r.queue[i].sender in Senders(s.queue) {
          assert r.queue[i] == s.queue[i + 1];
        }
      }
    }
  }
}
