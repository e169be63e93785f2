# Broadcast hub of webrtc-file-transfer-admin, in Dafny

This project models the WebSocket broadcast hub in `webrtc-file-transfer-admin/main.go` and proves properties of the model.

The hub has two parts:

- `clients`, a registry of live connections.
- `broadcast`, a channel of `Message{type, payload}` records.

Each accepted connection is registered and gets its own read loop. Every message the loop reads is pushed onto the channel. A failed read deletes the connection and ends the loop, and the deferred `Close` then closes the connection. One dispatcher loop takes each message off the channel and writes it to every registered client, the sender included. A client whose write fails is closed and deleted, and the dispatcher goes on with the rest.

Each goroutine loop iteration is one atomic step, and steps run one at a time. Connections are opaque identities (`ConnId`). Each read or write outcome is an input to the step: `ReadOutcome` for a read, and the set `failing` of clients whose write fails for a fan-out.

Three files:

- `hub_spec.dfy` (module `HubSpec`): the hub's state as a value (`State`), the three step functions `Register`, `ReadStep` and `FanOut`, and the invariant `Inv` with the lemmas that each step keeps it. The state also carries three history fields:
  - `log`: each client's delivered messages;
  - `history`: every fan-out, with its message, the clients it tried and the clients it reached;
  - `pushed`: every message pushed onto the channel.
- `hub_traces.dfy` (module `HubTraces`): arbitrary interleavings of those steps (`Run` over a sequence of `Event`s), the properties that hold across whole runs, and a worked three-client run.
- `hub.dfy` (module `BroadcastHub`): class `Hub`, the same hub as mutable state. Its fields `clients`, `broadcast` and `closed` are updated in place, and the history is kept in ghost fields. `Accept`, `ReadOnce` and `HandleNext` are proved to move `Abs()` exactly as `Register`, `ReadStep` and `FanOut` do, and to keep `Valid()`. `WriteAll` and `WriteOne` are helpers of `HandleNext` with no step function of their own: their ensures give the effect on each field. `WriteAll` is the inner `for client := range clients` loop, proved with loop invariants.

The `broadcast` channel is unbuffered (`make(chan Message)`). So a handler in `broadcast <- msg` stays blocked until the dispatcher takes its message, and it reads nothing else meanwhile. The model therefore keeps the channel as the FIFO list of blocked senders (`Pending(sender, msg)`). A handler on that list takes no step (`Active`). With an empty channel the dispatcher is blocked: `FanOut` changes nothing, and `HandleNext` returns `None`.

A hub could skip the sender, offer an unregister call, or time out a slow send. This one does none of these, and the model keeps that behaviour:

- A message goes to every registered client, the sender included. It is not "all others".
- There is no separate unregister operation. Connections only remove themselves: after a failed read (main.go:39) or a failed write (main.go:54).
- There is no per-send deadline.

## Model

| member | source | states |
|---|---|---|
| `HubSpec.Init` | webrtc-file-transfer-admin/main.go:17-18 | At start-up there are no clients, nothing is on the channel and nothing has been pushed; the invariant holds. |
| `HubSpec.Register` | webrtc-file-transfer-admin/main.go:32 | Accepting an open connection adds it to the registry and starts its read loop, while every other loop keeps running. A new connection starts with an empty log. If it is already registered (and the invariant holds), the state is unchanged. Existing delivery logs, the channel, the closed set and the history are untouched. |
| `HubSpec.ReadStep` | webrtc-file-transfer-admin/main.go:34-43 | A loop that has ended, or is blocked on the channel, takes no step. A failed read leaves the connection out of the registry and out of the running loops, and closes it and no other connection; nothing else changes. A successful read appends `Pending(ws, msg)` to the channel and `msg` to `pushed`, unchanged; nothing else changes. |
| `HubSpec.FanOut` | webrtc-file-transfer-admin/main.go:46-58 | With an empty channel, nothing changes. Otherwise the head message leaves the channel. The registry becomes the old registry minus exactly the failing clients, and those clients are closed. Every client whose write succeeds has exactly that message appended to its log. Every other log is unchanged. The history records the attempt on every client registered at the start. |
| `HubSpec.RegisterPreservesInv` | webrtc-file-transfer-admin/main.go:32 | Accepting an open connection keeps the invariant. The invariant says: clients run and are open; whoever left the registry is closed; logs equal what the fan-outs delivered; the channel is FIFO. |
| `HubSpec.ReadStepPreservesInv` | webrtc-file-transfer-admin/main.go:35-42 | A read-loop step keeps the invariant. In particular, published messages followed by queued messages still equal `pushed`. |
| `HubSpec.FanOutPreservesInv` | webrtc-file-transfer-admin/main.go:47-56 | A fan-out keeps the invariant: each log is still exactly `Received(history, c)`. |
| `HubSpec.DeliveryIndicesSound` | webrtc-file-transfer-admin/main.go:47-50 | The fan-outs that reached `c` form a strictly increasing list of positions that covers every such fan-out. Their messages are exactly what `c` received, so each client's deliveries are a subsequence of the dispatch order. |
| `HubTraces.Step` | webrtc-file-transfer-admin/main.go:25-58 | Any one step only adds to `closed`, `history` and `pushed`. Only an accept starts a loop. The log of a connection outside the registry never changes. A new history entry records the registry at the start of the step as the clients attempted. |
| `HubTraces.StepPreservesInv` | webrtc-file-transfer-admin/main.go:25-58 | Every enabled step keeps the invariant. |
| `HubTraces.RunPreservesInv` | webrtc-file-transfer-admin/main.go:17-58 | The invariant holds after every admissible interleaving of steps. |
| `HubTraces.HistoryOnlyGrows` | webrtc-file-transfer-admin/main.go:42-48 | Over any run, past fan-outs and pushed messages are kept as a prefix. The messages taken off the channel are always a prefix of the messages pushed onto it. |
| `HubTraces.ClosedStaysOut` | webrtc-file-transfer-admin/main.go:49-54 | A closed connection stays closed and out of the registry for the rest of any run. Its log never changes again, and no later fan-out attempts a write to it. |
| `HubTraces.WriteFailureIsFinal` | webrtc-file-transfer-admin/main.go:49-56 | A client whose write fails never rejoins the registry, in any later run. Neither that message nor any later one reaches it, and no later fan-out tries it. |
| `HubTraces.EndedStaysEnded` | webrtc-file-transfer-admin/main.go:34-41 | A closed connection whose read loop has ended never runs again, and never again has a message waiting on the channel. |
| `HubTraces.ReadFailureIsFinal` | webrtc-file-transfer-admin/main.go:36-41 | After a read error, the connection is never again registered or running, and never again has a message on the channel. So no further message from it is enqueued. |
| `HubTraces.DeliveredInPushOrder` | webrtc-file-transfer-admin/main.go:42-50 | Each client's log is the list of pushed messages at strictly increasing positions. Every fan-out that reached the client is among them. So each recipient sees messages in channel order. |
| `HubTraces.ThreeClientScenario` | webrtc-file-transfer-admin/main.go:32-56 | Clients 1, 2 and 3 all receive client 1's status message, client 1 included. When the write to 2 fails on the next message, only 1 and 3 receive it, and 2 is closed and out of the registry. |
| `BroadcastHub.Hub.constructor` | webrtc-file-transfer-admin/main.go:17-18 | The hub starts in the initial state with its invariant. |
| `BroadcastHub.Hub.Accept` | webrtc-file-transfer-admin/main.go:25-32 | Updates the registry in place as `Register` does and keeps `Valid()`. Registering a present client changes nothing. |
| `BroadcastHub.Hub.ReadOnce` | webrtc-file-transfer-admin/main.go:34-43 | One read-loop iteration in place, as `ReadStep` does. `done` is true exactly on a read error, which removes and closes the connection. Otherwise the message is appended to `broadcast`. |
| `BroadcastHub.Hub.HandleNext` | webrtc-file-transfer-admin/main.go:46-58 | One dispatcher iteration in place, as `FanOut` does. It returns the dequeued message, or `None` when blocked. `attempts` lists every client registered at the start exactly once, the sender included. |
| `BroadcastHub.Hub.WriteAll` | webrtc-file-transfer-admin/main.go:49-56 | The inner loop tries every registered client exactly once, whatever fails. The registry loses exactly the failing clients, and those are closed. Every other client's log gains the message, and nothing else changes. |
| `BroadcastHub.Hub.WriteOne` | webrtc-file-transfer-admin/main.go:50-55 | One write: on success the client's log gains the message; on failure the client is closed and deleted. |

## Left out

- `webrtc-file-transfer-admin/webrtc.go` is not part of this model. Every step there is a call into the pion WebRTC library, an HTTP handler, or goroutine/channel blocking with context cancellation, and there is no self-contained state to model.
- `webrtc-file-transfer-pc/src/App.js` is not part of this model: it is the browser UI and its WebSocket and peer callbacks.
- The `websocket.Upgrader` settings (buffer sizes, `CheckOrigin`) and JSON framing by `ReadJSON`/`WriteJSON` are left out. They appear only as success/failure outcomes given to each step.
- The static file server, `ListenAndServe`, logging, and `log.Fatal` after a failed upgrade are left out: they are I/O and process exit, not hub state.
- Concurrency is left out. The source reads and writes `clients` from several goroutines without a lock. The model runs each loop iteration as one atomic step, so the data race and interleavings inside an iteration are not captured.
- Go's map iteration order is unspecified and is not modelled. `WriteAll` picks any order, and its contract holds for every order.
- A read on a connection that this process has already closed is allowed to succeed. Real connections fail such a read, so the model admits more behaviours than the source; every property above holds anyway.
- Accepting an already closed connection is excluded by the precondition of `Register` and `Accept`. `upgrader.Upgrade` always returns a new, open connection, and one deleted from the registry is always closed, so a removed connection is never registered again.
