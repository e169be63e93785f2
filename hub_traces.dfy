/** Runs of the broadcast hub: any interleaving of the goroutines' steps,
    taken one at a time, and what holds across such runs. */
module HubTraces {
  import opened HubSpec

  /** One atomic step of some goroutine: the HTTP handler accepting a
      connection, one iteration of a connection's read loop with the outcome
      of its `ReadJSON`, or one iteration of the dispatcher with the set of
      connections whose `WriteJSON` fails this time. */
  datatype Event =
    | Accept(conn: ConnId)
    | Read(reader: ConnId, outcome: ReadOutcome)
    | Dispatch(failing: set<ConnId>)

  /** Every upgraded connection is a new, open one. */
  predicate Enabled(s: State, e: Event)
  {
    e.Accept? ==> e.conn !in s.closed
  }

  function Step(s: State, e: Event): (r: State)
    requires Enabled(s, e)
    ensures s.closed <= r.closed
    ensures r.running <= s.running + (if e.Accept? then {e.conn} else {})
    ensures forall c :: c in s.log && c !in s.clients ==> c in r.log && r.log[c] == s.log[c]
    ensures s.history <= r.history && |r.history| <= |s.history| + 1
    ensures |r.history| > |s.history| ==> r.history[|s.history|].attempted == s.clients
    ensures s.pushed <= r.pushed
  {
    match e
    case Accept(ws) => Register(s, ws)
    case Read(ws, outcome) => ReadStep(s, ws, outcome)
    case Dispatch(failing) => FanOut(s, failing)
  }

  lemma StepPreservesInv(s: State, e: Event)
    requires Inv(s) && Enabled(s, e)
    ensures Inv(Step(s, e))
  {
    match e
    case Accept(ws) => RegisterPreservesInv(s, ws);
    case Read(ws, outcome) => ReadStepPreservesInv(s, ws, outcome);
    case Dispatch(failing) => FanOutPreservesInv(s, failing);
  }

  /** `evs` can be taken one after another from `s`. */
  predicate Admissible(s: State, evs: seq<Event>)
    decreases |evs|
  {
    evs == [] || (Enabled(s, evs[0]) && Admissible(Step(s, evs[0]), evs[1..]))
  }

  function Run(s: State, evs: seq<Event>): (r: State)
    requires Admissible(s, evs)
    decreases |evs|
  {
    if evs == [] then s else Run(Step(s, evs[0]), evs[1..])
  }

  /** The invariant holds after every run. */
  lemma {:induction false} RunPreservesInv(s: State, evs: seq<Event>)
    requires Inv(s) && Admissible(s, evs)
    ensures Inv(Run(s, evs))
    decreases |evs|
  {
    if evs != [] {
      StepPreservesInv(s, evs[0]);
      RunPreservesInv(Step(s, evs[0]), evs[1..]);
    }
  }

  /** History only grows: fan-outs already done, and messages already pushed,
      stay as they were; and at every point the messages taken off the channel
      are a prefix of the messages pushed onto it. */
  lemma {:induction false} HistoryOnlyGrows(s: State, evs: seq<Event>)
    requires Inv(s) && Admissible(s, evs)
    ensures s.history <= Run(s, evs).history
    ensures s.pushed <= Run(s, evs).pushed
    ensures Published(Run(s, evs).history) <= Run(s, evs).pushed
    decreases |evs|
  {
    if evs == [] {
    } else {
      StepPreservesInv(s, evs[0]);
      HistoryOnlyGrows(Step(s, evs[0]), evs[1..]);
    }
  }

  /** A closed connection stays out of the registry for the rest of the run:
      no later fan-out tries to write to it, and its log never grows again. */
  lemma {:induction false} ClosedStaysOut(s: State, evs: seq<Event>, c: ConnId)
    requires Inv(s) && Admissible(s, evs) && c in s.closed
    ensures c in Run(s, evs).closed && c !in Run(s, evs).clients
    ensures c in Run(s, evs).log && Run(s, evs).log[c] == s.log[c]
    ensures s.history <= Run(s, evs).history
    ensures forall i :: |s.history| <= i < |Run(s, evs).history| ==> c !in Run(s, evs).history[i].attempted
    decreases |evs|
  {
    if evs != [] {
      var s' := Step(s, evs[0]);
      StepPreservesInv(s, evs[0]);
      ClosedStaysOut(s', evs[1..], c);
      var t := Run(s, evs);
      assert t == Run(s', evs[1..]);
      forall i | |s.history| <= i < |t.history| ensures c !in t.history[i].attempted {
        if i == |s.history| && |s'.history| > |s.history| {
          assert t.history[i] == s'.history[i];
        }
      }
    }
  }

  /** A client whose write fails is removed for good: it is not attempted by
      any later fan-out, is never again in the registry, and the message whose
      write failed, like every later one, never reaches its log. */
  lemma WriteFailureIsFinal(s: State, failing: set<ConnId>, c: ConnId, evs: seq<Event>)
    requires Inv(s) && s.queue != [] && c in s.clients && c in failing
    requires Admissible(FanOut(s, failing), evs)
    ensures c !in Run(FanOut(s, failing), evs).clients
    ensures c in Run(FanOut(s, failing), evs).log && Run(FanOut(s, failing), evs).log[c] == s.log[c]
    ensures forall i :: |s.history| < i < |Run(FanOut(s, failing), evs).history| ==>
      c !in Run(FanOut(s, failing), evs).history[i].attempted
  {
    FanOutPreservesInv(s, failing);
    ClosedStaysOut(FanOut(s, failing), evs, c);
  }

  /** A connection whose read loop has ended is never running again, so it
      never again has a message waiting on the channel. */
  lemma {:induction false} EndedStaysEnded(s: State, evs: seq<Event>, c: ConnId)
    requires Inv(s) && Admissible(s, evs) && c in s.closed && c !in s.running
    ensures c !in Run(s, evs).running && c !in Senders(Run(s, evs).queue)
    decreases |evs|
  {
    if evs != [] {
      StepPreservesInv(s, evs[0]);
      EndedStaysEnded(Step(s, evs[0]), evs[1..], c);
    } else {
      assert c !in Senders(s.queue);
    }
  }

  /** A read error removes the connection and ends its loop: at no later point
      is it registered, running, or blocked with a message for the channel. */
  lemma ReadFailureIsFinal(s: State, ws: ConnId, evs: seq<Event>)
    requires Inv(s) && Active(s, ws)
    requires Admissible(ReadStep(s, ws, ReadFailed), evs)
    ensures var t := Run(ReadStep(s, ws, ReadFailed), evs);
      ws !in t.clients && ws !in t.running && ws !in Senders(t.queue)
  {
    ReadStepPreservesInv(s, ws, ReadFailed);
    EndedStaysEnded(ReadStep(s, ws, ReadFailed), evs, ws);
    ClosedStaysOut(ReadStep(s, ws, ReadFailed), evs, ws);
  }

  /** Per-recipient FIFO: each connection's log lists, in order, the messages
      of a strictly increasing series of positions in the push order, and
      every fan-out that delivered to it is among them. */
  lemma DeliveredInPushOrder(s: State, c: ConnId)
    requires Inv(s) && c in s.log
    ensures var idx := DeliveryIndices(s.history, c);
      && |idx| == |s.log[c]|
      && (forall k :: 0 <= k < |idx| ==> idx[k] < |s.pushed| && s.log[c][k] == s.pushed[idx[k]])
      && (forall k, l :: 0 <= k < l < |idx| ==> idx[k] < idx[l])
      && (forall i :: 0 <= i < |s.history| && c in s.history[i].recipients ==> i in idx)
  {
    DeliveryIndicesSound(s.history, c);
    var idx := DeliveryIndices(s.history, c);
    forall k | 0 <= k < |idx| ensures idx[k] < |s.pushed| && s.log[c][k] == s.pushed[idx[k]] {
      assert s.pushed[idx[k]] == Published(s.history)[idx[k]];
    }
  }

  // A worked run, one step function at a time, and the states between.

  const StatusX := Message("status", "x")

  function AfterAccepts(): (s: State)
  {
    State({1, 2, 3}, {1, 2, 3}, {}, [], map[1 := [], 2 := [], 3 := []], [], [])
  }

  function AfterFirstFanOut(): (s: State)
  {
    State({1, 2, 3}, {1, 2, 3}, {}, [], map[1 := [StatusX], 2 := [StatusX], 3 := [StatusX]],
          [Delivery(StatusX, {1, 2, 3}, {1, 2, 3})], [StatusX])
  }

  function AfterSecondFanOut(): (s: State)
  {
    State({1, 3}, {1, 2, 3}, {2}, [], map[1 := [StatusX, StatusX], 2 := [StatusX], 3 := [StatusX, StatusX]],
          [Delivery(StatusX, {1, 2, 3}, {1, 2, 3}), Delivery(StatusX, {1, 2, 3}, {1, 3})],
          [StatusX, StatusX])
  }

  lemma ScenarioAccepts()
    ensures Register(Register(Register(Init(), 1), 2), 3) == AfterAccepts()
  {
    var s3 := Register(Register(Register(Init(), 1), 2), 3);
    assert s3.log == AfterAccepts().log;
  }

  lemma ScenarioFirstRead()
    ensures ReadStep(AfterAccepts(), 1, Received(StatusX))
         == AfterAccepts().(queue := [Pending(1, StatusX)], pushed := [StatusX])
  {
    assert Senders(AfterAccepts().queue) == {};
  }

  lemma ScenarioFirstFanOut()
    ensures FanOut(AfterAccepts().(queue := [Pending(1, StatusX)], pushed := [StatusX]), {})
         == AfterFirstFanOut()
  {
    var s5 := FanOut(AfterAccepts().(queue := [Pending(1, StatusX)], pushed := [StatusX]), {});
    assert s5.log[1] == [StatusX] && s5.log[2] == [StatusX] && s5.log[3] == [StatusX];
    assert s5.log.Keys == {1, 2, 3};
    assert s5.log == AfterFirstFanOut().log;
    assert s5.clients == {1, 2, 3} && s5.closed == {} && s5.queue == [];
    assert s5.history == AfterFirstFanOut().history;
  }

  lemma ScenarioSecondRead()
    ensures ReadStep(AfterFirstFanOut(), 1, Received(StatusX))
         == AfterFirstFanOut().(queue := [Pending(1, StatusX)], pushed := [StatusX, StatusX])
  {
    assert Senders(AfterFirstFanOut().queue) == {};
  }

  lemma ScenarioSecondFanOut()
    ensures FanOut(AfterFirstFanOut().(queue := [Pending(1, StatusX)], pushed := [StatusX, StatusX]), {2})
         == AfterSecondFanOut()
  {
    var s7 := FanOut(AfterFirstFanOut().(queue := [Pending(1, StatusX)], pushed := [StatusX, StatusX]), {2});
    assert s7.log[1] == [StatusX, StatusX] && s7.log[2] == [StatusX] && s7.log[3] == [StatusX, StatusX];
    assert s7.log.Keys == {1, 2, 3};
    assert s7.log == AfterSecondFanOut().log;
    assert s7.clients == {1, 3} && s7.closed == {2} && s7.queue == [];
    assert s7.history == AfterSecondFanOut().history;
  }

  /** Connections 1, 2 and 3 are accepted; 1 reads a status message, which
      the dispatcher writes to all three, 1 included. 1 reads the same message
      again; this time the write to 2 fails: only 1 and 3 get it, and 2 has
      left the registry and is closed. */
  lemma ThreeClientScenario()
    ensures
      var afterAccepts := Register(Register(Register(Init(), 1), 2), 3);
      var afterFirst := FanOut(ReadStep(afterAccepts, 1, Received(StatusX)), {});
      var afterSecond := FanOut(ReadStep(afterFirst, 1, Received(StatusX)), {2});
      && afterFirst.log == map[1 := [StatusX], 2 := [StatusX], 3 := [StatusX]]
      && afterSecond.clients == {1, 3} && 2 in afterSecond.closed
      && afterSecond.log == map[1 := [StatusX, StatusX], 2 := [StatusX], 3 := [StatusX, StatusX]]
  {
    ScenarioAccepts();
    ScenarioFirstRead();
    ScenarioFirstFanOut();
    ScenarioSecondRead();
    ScenarioSecondFanOut();
  }
}
