/**
  The WebSocket server of backend/app.py: a prediction step, and the
  module-level `clients` set that every connection handler joins, fans
  each health update out to, prunes on failed sends and leaves on exit.

  Handler steps (add, broadcast, teardown) run one at a time here; a
  send's outcome is an oracle `sendOk`, one per message and connection.
*/
module App {
  import opened Health

  /** A viewer's WebSocket connection, known only by its identity. */
  type Conn = nat

  /** One successful send: the connection and the payload it received. */
  datatype Delivery = Delivery(to: Conn, payload: HealthPayload)

  /** What `set.remove` does: remove a present member, or raise KeyError. */
  datatype RemoveOutcome = Removed | KeyError

  /**
    What `ws.receive()` followed by `json.loads` yields: a reading, or a
    message that fails to parse (or lacks a feature the prediction needs).
    The end of the stream is the connection closing.
  */
  datatype Inbound = Message(data: Reading) | Malformed

  /** The connections a sequence of deliveries reached. */
  function Recipients(delivered: seq<Delivery>): set<Conn>
  {
    if delivered == [] then {}
    else Recipients(delivered[..|delivered| - 1]) + {delivered[|delivered| - 1].to}
  }

  /** The members of s whose send fails. */
  function Failing(s: set<Conn>, sendOk: Conn -> bool): set<Conn>
  {
    set c | c in s && !sendOk(c)
  }

  lemma FailingAdd(s: set<Conn>, c: Conn, sendOk: Conn -> bool)
    ensures Failing(s + {c}, sendOk) == Failing(s, sendOk) + (if sendOk(c) then {} else {c})
  {
  }

  /** No connection receives a payload twice. */
  predicate EachOnce(delivered: seq<Delivery>)
  {
    delivered == [] ||
    (EachOnce(delivered[..|delivered| - 1]) && delivered[|delivered| - 1].to !in Recipients(delivered[..|delivered| - 1]))
  }

  /** The recipients are exactly the connections named by the deliveries. */
  lemma {:induction false} RecipientsAt(delivered: seq<Delivery>)
    ensures forall c :: c in Recipients(delivered) <==> exists k :: 0 <= k < |delivered| && delivered[k].to == c
  {
    if delivered != [] {
      var prefix := delivered[..|delivered| - 1];
      RecipientsAt(prefix);
      forall c | c in Recipients(delivered)
        ensures exists k :: 0 <= k < |delivered| && delivered[k].to == c
      {
        if c in Recipients(prefix) {
          var k :| 0 <= k < |prefix| && prefix[k].to == c;
          assert delivered[k].to == c;
        }
      }
      forall c | exists k :: 0 <= k < |delivered| && delivered[k].to == c
        ensures c in Recipients(delivered)
      {
        var k :| 0 <= k < |delivered| && delivered[k].to == c;
        if k < |prefix| {
          assert prefix[k].to == c;
        }
      }
    }
  }

  /** EachOnce means pairwise distinct recipients. */
  lemma {:induction false} EachOnceDistinct(delivered: seq<Delivery>)
    requires EachOnce(delivered)
    ensures forall i, j :: 0 <= i < j < |delivered| ==> delivered[i].to != delivered[j].to
  {
    if delivered != [] {
      var prefix := delivered[..|delivered| - 1];
      EachOnceDistinct(prefix);
      RecipientsAt(prefix);
      forall i, j | 0 <= i < j < |delivered|
        ensures delivered[i].to != delivered[j].to
      {
        if j == |delivered| - 1 {
          assert prefix[i].to == delivered[i].to;
        } else {
          assert prefix[i] == delivered[i] && prefix[j] == delivered[j];
        }
      }
    }
  }

  /** Whether the send to c failed in one of the first n broadcasts (sendOk(k) is broadcast k's oracle). */
  predicate FailedBefore(c: Conn, sendOk: nat -> Conn -> bool, n: nat)
  {
    n > 0 && (FailedBefore(c, sendOk, n - 1) || !sendOk(n - 1)(c))
  }

  /** FailedBefore means some broadcast among the first n failed to reach c. */
  lemma {:induction false} FailedBeforeSome(c: Conn, sendOk: nat -> Conn -> bool, n: nat)
    ensures FailedBefore(c, sendOk, n) <==> exists k :: 0 <= k < n && !sendOk(k)(c)
  {
    if n > 0 {
      FailedBeforeSome(c, sendOk, n - 1);
      if !sendOk(n - 1)(c) {
        assert exists k :: 0 <= k < n && !sendOk(k)(c);
      }
      if exists k :: 0 <= k < n && !sendOk(k)(c) {
        var k :| 0 <= k < n && !sendOk(k)(c);
        if k < n - 1 {
          assert exists k' :: 0 <= k' < n - 1 && !sendOk(k')(c);
        }
      }
    }
  }

  /** The members whose send failed in one of the first n broadcasts. */
  function Pruned(members: set<Conn>, sendOk: nat -> Conn -> bool, n: nat): set<Conn>
  {
    set c | c in members && FailedBefore(c, sendOk, n)
  }

  /**
    One more broadcast over the members not yet pruned: the pruned set grows
    by exactly that broadcast's failures.
  */
  lemma PruneStep(members: set<Conn>, sendOk: nat -> Conn -> bool, n: nat)
    ensures Pruned(members, sendOk, n) + Failing(members - Pruned(members, sendOk, n), sendOk(n))
      == Pruned(members, sendOk, n + 1)
  {
  }

  /** The health update the server sends in answer to a reading. */
  predicate Answers(payload: HealthPayload, data: Reading, classify: Reading -> string, averages: Reading)
  {
    && payload.liveData == data
    && payload.status == classify(data)
    && payload.suggestions == (if payload.status == Healthy then [] else AdviseAll(FeatureOrder, data, averages))
  }

  /** predict_and_recommend: the classifier's label, and the difference rule's suggestions unless healthy. */
  method PredictAndRecommend(classify: Reading -> string, averages: Reading, sensorData: Reading)
    returns (status: string, recs: seq<Suggestion>)
    ensures status == classify(sensorData)
    ensures status == Healthy ==> recs == []
    ensures status != Healthy ==>
      && |recs| == |FeatureOrder|
      && forall i :: 0 <= i < |recs| ==> recs[i] == Advise(FeatureOrder[i], sensorData, averages)
    ensures status != Healthy ==> recs == AdviseAll(FeatureOrder, sensorData, averages)
  {
    status := classify(sensorData);
    recs := [];
    if status != Healthy {
      recs := DiffSuggestions(sensorData, averages);
    }
  }

  /** The response_payload built for one reading. */
  method Respond(classify: Reading -> string, averages: Reading, sensorReadings: Reading)
    returns (payload: HealthPayload)
    ensures Answers(payload, sensorReadings, classify, averages)
  {
    var status, suggestions := PredictAndRecommend(classify, averages, sensorReadings);
    payload := HealthPayload(sensorReadings, status, suggestions);
  }

  class Registry {
    /** The connected clients. */
    var clients: set<Conn>

    constructor ()
      ensures clients == {}
    {
      clients := {};
    }

    /** clients.add(ws) */
    method Add(ws: Conn)
      modifies this
      ensures clients == old(clients) + {ws}
      ensures |clients| <= |old(clients)| + 1
    {
      clients := clients + {ws};
    }

    /** clients.remove(ws): KeyError, and nothing changes, when ws is absent. */
    method Remove(ws: Conn) returns (outcome: RemoveOutcome)
      modifies this
      ensures outcome == if ws in old(clients) then Removed else KeyError
      ensures clients == old(clients) - {ws}
    {
      if ws in clients {
        clients := clients - {ws};
        outcome := Removed;
      } else {
        outcome := KeyError;
      }
    }

    /**
      The broadcast loop: send the payload to every member of a copy of
      `clients`; a failed send removes that member and the loop goes on.
      The copy holds each member once and only the current member is
      removed, so the in-loop remove never raises.
    */
    method Broadcast(payload: HealthPayload, sendOk: Conn -> bool)
      returns (delivered: seq<Delivery>, failed: set<Conn>, raised: bool)
      modifies this
      ensures !raised
      ensures failed == Failing(old(clients), sendOk)
      ensures clients == old(clients) - failed
      ensures Recipients(delivered) == old(clients) - failed
      ensures EachOnce(delivered)
      ensures forall k :: 0 <= k < |delivered| ==> delivered[k].payload == payload
    {
      // list(clients): a copy, taken once, of the members, visited in some order
      var pending := clients;
      delivered, failed, raised := [], {}, false;
      while pending != {} && !raised
        invariant !raised
        invariant pending <= old(clients)
        invariant failed == Failing(old(clients) - pending, sendOk)
        invariant Recipients(delivered) == old(clients) - pending - failed
        invariant clients == old(clients) - failed
        invariant EachOnce(delivered)
        invariant forall k :: 0 <= k < |delivered| ==> delivered[k].payload == payload
        decreases pending
      {
        var client :| client in pending;
        FailingAdd(old(clients) - pending, client, sendOk);
        if sendOk(client) {
          var sent := delivered + [Delivery(client, payload)];
          assert sent[..|sent| - 1] == delivered;
          delivered := sent;
        } else {
          var outcome := Remove(client);
          raised := outcome == KeyError;
          failed := failed + {client};
        }
        assert old(clients) - (pending - {client}) == (old(clients) - pending) + {client};
        pending := pending - {client};
      }
    }

    /** One pass of the handler's loop: answer a reading and broadcast the answer, pruning failed sends. */
    method Serve(data: Reading, classify: Reading -> string, averages: Reading, sendOk: Conn -> bool)
      returns (payload: HealthPayload, failed: set<Conn>)
      modifies this
      ensures Answers(payload, data, classify, averages)
      ensures failed == Failing(old(clients), sendOk)
      ensures clients == old(clients) - failed
    {
      payload := Respond(classify, averages, data);
      var delivered, raised;
      delivered, failed, raised := Broadcast(payload, sendOk);
    }

    /**
      The handler's `while True` loop: answer and broadcast each reading in
      turn until the messages run out (the connection closes) or one is
      malformed (the exception leaves the loop). A member is pruned exactly
      when one of these broadcasts fails to reach it.
    */
    method ServeAll(inbound: seq<Inbound>, classify: Reading -> string, averages: Reading,
                    sendOk: nat -> Conn -> bool)
      returns (payloads: seq<HealthPayload>, pruned: set<Conn>)
      modifies this
      ensures |payloads| <= |inbound|
      ensures forall k :: 0 <= k < |payloads| ==>
        inbound[k].Message? && Answers(payloads[k], inbound[k].data, classify, averages)
      ensures |payloads| < |inbound| ==> inbound[|payloads|].Malformed?
      ensures pruned == Pruned(old(clients), sendOk, |payloads|)
      ensures clients == old(clients) - pruned
    {
      payloads, pruned := [], {};
      var n := 0;
      while n < |inbound| && inbound[n].Message?
        invariant n == |payloads| <= |inbound|
        invariant forall k :: 0 <= k < n ==>
          inbound[k].Message? && Answers(payloads[k], inbound[k].data, classify, averages)
        invariant pruned == Pruned(old(clients), sendOk, n)
        invariant clients == old(clients) - pruned
      {
        PruneStep(old(clients), sendOk, n);
        var payload, failed := Serve(inbound[n].data, classify, averages, sendOk(n));
        assert clients == old(clients) - (pruned + failed);
        pruned := pruned + failed;
        payloads := payloads + [payload];
        n := n + 1;
      }
    }

    /**
      websocket_handler(ws): join `clients`, serve the connection's messages,
      and finally remove ws, which raises KeyError when a failed send to ws
      already pruned it.
    */
    method Handle(ws: Conn, inbound: seq<Inbound>, classify: Reading -> string, averages: Reading,
                  sendOk: nat -> Conn -> bool)
      returns (payloads: seq<HealthPayload>, pruned: set<Conn>, teardown: RemoveOutcome)
      modifies this
      ensures |payloads| <= |inbound|
      ensures forall k :: 0 <= k < |payloads| ==>
        inbound[k].Message? && Answers(payloads[k], inbound[k].data, classify, averages)
      ensures |payloads| < |inbound| ==> inbound[|payloads|].Malformed?
      ensures forall c :: c in pruned <==> c in old(clients) + {ws} && FailedBefore(c, sendOk, |payloads|)
      ensures teardown == if ws in pruned then KeyError else Removed
      ensures clients == old(clients) - pruned - {ws}
    {
      Add(ws);
      payloads, pruned := ServeAll(inbound, classify, averages, sendOk);
      teardown := Remove(ws);
    }
  }

  /**
    Three viewers; the send to viewer 2 fails. Viewers 1 and 3 receive the
    update, viewer 2 is pruned, and its own handler's teardown then raises
    KeyError.
  */
  method PrunedViewerTeardown() returns (delivered: seq<Delivery>, remaining: set<Conn>, teardown: RemoveOutcome)
    ensures Recipients(delivered) == {1, 3}
    ensures remaining == {1, 3}
    ensures teardown == KeyError
  {
    var registry := new Registry();
    registry.Add(1);
    registry.Add(2);
    registry.Add(3);
    assert registry.clients == {1, 2, 3};
    var payload := HealthPayload(Reading(30.0, 20.0, 50.0), "Unhealthy", []);
    var failed, raised;
    delivered, failed, raised := registry.Broadcast(payload, c => c != 2);
    assert failed == {2} by {
      assert forall c :: c in failed <==> c == 2;
    }
    remaining := registry.clients;
    teardown := registry.Remove(2);
  }
}
