/**
 * Properties of the queue and the batch dispatcher across several calls:
 * a failed batch returns in front of the events queued during the send, and
 * over any run of sends that do not overlap every accepted event is delivered
 * at most once, in order, or is still queued. Overlapping sends keep every event
 * but may reorder them.
 */
module Delivery {
  import opened Base
  import opened Events
  import opened Client

  /** A `queueEvent` call: its tag, its data and the clock reading it stamps. */
  datatype Request = Request(eventType: EventType, data: Payload, time: nat)

  function Stamp(r: Request): Event {
    Event(r.eventType, r.time, r.data)
  }

  function Stamps(rs: seq<Request>): (es: seq<Event>)
    ensures |es| == |rs|
  {
    seq(|rs|, k requires 0 <= k < |rs| => Stamp(rs[k]))
  }

  lemma StampsAppend(a: seq<Request>, b: seq<Request>)
    ensures Stamps(a + b) == Stamps(a) + Stamps(b)
  {
  }

  /** Several `queueEvent` calls in a row: while logging, the events land at the back in call order. */
  function QueueAll(s: State, rs: seq<Request>): (s': State)
    ensures s.isLogging ==> s' == s.(queue := s.queue + Stamps(rs))
    ensures !s.isLogging ==> s' == s
    decreases |rs|
  {
    if rs == [] then s
    else
      var init := rs[..|rs| - 1];
      var last := rs[|rs| - 1];
      assert rs == init + [last];
      StampsAppend(init, [last]);
      QueueEvent(QueueAll(s, init), last.eventType, last.data, last.time)
  }

  /**
   * One send with events queued while it is in flight: on failure the live queue
   * is the old queue followed by the new events, nothing lost or repeated; on
   * success only the new events remain.
   */
  lemma SendWithConcurrentEnqueues(s: State, during: seq<Request>, ok: bool, now: nat)
    requires s.isLogging && |s.queue| > 0
    ensures
      var d := BeginSend(s);
      var c := CompleteSend(QueueAll(d.state, during), d.batch.value, ok, now);
      && (!ok ==> c.state.queue == s.queue + Stamps(during))
      && (!ok ==> multiset(c.state.queue) == multiset(s.queue) + multiset(Stamps(during)))
      && (!ok ==> c.state.status == Disconnected && c.reprobe)
      && (ok ==> c.state.queue == Stamps(during))
  {
    var d := BeginSend(s);
    assert d.state.queue == [] && d.state.isLogging;
    var mid := QueueAll(d.state, during);
    assert mid.queue == Stamps(during);
    var c := CompleteSend(mid, d.batch.value, ok, now);
    if ok {
      assert c.state == mid;
    } else {
      assert c.state.queue == s.queue + mid.queue;
      assert multiset(c.state.queue) == multiset(s.queue) + multiset(mid.queue);
    }
  }

  /**
   * Queue `[A, B]`, send fails, `C` is queued, the next send carries `[A, B, C]`:
   * in general, the next batch after a failure is the failed batch, then the events
   * queued during the failed send, then those queued after it.
   */
  lemma RetriedBatchGoesFirst(s: State, during: seq<Request>, now: nat, after: seq<Request>)
    requires s.isLogging && |s.queue| > 0
    ensures
      var d := BeginSend(s);
      var c := CompleteSend(QueueAll(d.state, during), d.batch.value, false, now);
      BeginSend(QueueAll(c.state, after)).batch == Some(s.queue + Stamps(during) + Stamps(after))
  {
    SendWithConcurrentEnqueues(s, during, false, now);
    var d := BeginSend(s);
    var c := CompleteSend(QueueAll(d.state, during), d.batch.value, false, now);
    assert c.state.isLogging;
    var later := QueueAll(c.state, after);
    assert later.queue == s.queue + Stamps(during) + Stamps(after);
  }

  /**
   * Sends that overlap break the order, though not the conservation: the queue
   * holds `[a, b]`; send 1 takes it; `c` is queued; the next timer tick starts
   * send 2 with `[c]`; send 1 fails and `[a, b]` goes back; `d` is queued; send 2
   * fails and `[c]` goes in front, so `c` now precedes `a` and `b`.
   */
  lemma OverlappingSendsReorder(s: State, a: Event, b: Event, c: Request, d: Request, t1: nat, t2: nat)
    requires s.isLogging && s.queue == [a, b]
    ensures
      var send1 := BeginSend(s);
      var send2 := BeginSend(QueueEvent(send1.state, c.eventType, c.data, c.time));
      var fail1 := CompleteSend(send2.state, send1.batch.value, false, t1);
      var fail2 := CompleteSend(QueueEvent(fail1.state, d.eventType, d.data, d.time), send2.batch.value, false, t2);
      fail2.state.queue == [Stamp(c), a, b, Stamp(d)]
  {
  }

  /** One dispatcher tick: the requests queued while its send is in flight, and the send's outcome. */
  datatype Round = Round(during: seq<Request>, ok: bool, now: nat)

  function Enqueued(rounds: seq<Round>): seq<Request>
    decreases |rounds|
  {
    if rounds == [] then [] else rounds[0].during + Enqueued(rounds[1..])
  }

  /** The state after some rounds, and the events the successful sends delivered, in order. */
  datatype Run = Run(state: State, delivered: seq<Event>)

  /** One tick: begin a send, let the round's events be queued, complete the send. */
  function OneRound(s: State, r: Round): Run {
    var d := BeginSend(s);
    var mid := QueueAll(d.state, r.during);
    match d.batch
    case None => Run(mid, [])
    case Some(batch) =>
      var c := CompleteSend(mid, batch, r.ok, r.now);
      Run(c.state, if r.ok then batch else [])
  }

  function RunRounds(s: State, rounds: seq<Round>): Run
    decreases |rounds|
  {
    if rounds == [] then Run(s, [])
    else
      var first := OneRound(s, rounds[0]);
      var rest := RunRounds(first.state, rounds[1..]);
      Run(rest.state, first.delivered + rest.delivered)
  }

  /** A single tick conserves events: delivered, then still queued, is old queue then new events. */
  lemma RoundConserves(s: State, r: Round)
    requires s.isLogging
    ensures OneRound(s, r).state.isLogging
    ensures OneRound(s, r).delivered + OneRound(s, r).state.queue == s.queue + Stamps(r.during)
  {
  }

  /** Chaining two conservation steps: `d1 + q1 == q0 + a` and `d2 + q2 == q1 + b`. */
  lemma Regroup(q0: seq<Event>, d1: seq<Event>, q1: seq<Event>, a: seq<Event>,
                d2: seq<Event>, q2: seq<Event>, b: seq<Event>)
    requires d1 + q1 == q0 + a
    requires d2 + q2 == q1 + b
    ensures (d1 + d2) + q2 == q0 + (a + b)
  {
    calc {
      (d1 + d2) + q2;
      d1 + (d2 + q2);
      d1 + (q1 + b);
      (d1 + q1) + b;
      (q0 + a) + b;
    }
  }

  /**
   * Conservation of events over any run of sends that do not overlap, successful
   * or not, with events queued during each: what was delivered followed by what is
   * still queued is exactly what was queued to begin with followed by everything
   * queued since. So no event is lost, none is delivered twice, and delivery keeps
   * queue order (`OverlappingSendsReorder` shows the order is lost once sends overlap).
   */
  lemma {:induction false} NoLossNoDuplication(s: State, rounds: seq<Round>)
    requires s.isLogging
    ensures RunRounds(s, rounds).state.isLogging
    ensures RunRounds(s, rounds).delivered + RunRounds(s, rounds).state.queue
         == s.queue + Stamps(Enqueued(rounds))
    decreases |rounds|
  {
    if rounds == [] {
      assert Stamps(Enqueued(rounds)) == [];
    } else {
      var first := OneRound(s, rounds[0]);
      RoundConserves(s, rounds[0]);
      NoLossNoDuplication(first.state, rounds[1..]);
      var rest := RunRounds(first.state, rounds[1..]);
      assert RunRounds(s, rounds) == Run(rest.state, first.delivered + rest.delivered);
      assert Enqueued(rounds) == rounds[0].during + Enqueued(rounds[1..]);
      StampsAppend(rounds[0].during, Enqueued(rounds[1..]));
      Regroup(s.queue, first.delivered, first.state.queue, Stamps(rounds[0].during),
              rest.delivered, rest.state.queue, Stamps(Enqueued(rounds[1..])));
    }
  }

  /** The same conservation law counted as multisets: every event is delivered or queued exactly once. */
  lemma NothingDuplicated(s: State, rounds: seq<Round>)
    requires s.isLogging
    ensures multiset(RunRounds(s, rounds).delivered) + multiset(RunRounds(s, rounds).state.queue)
         == multiset(s.queue) + multiset(Stamps(Enqueued(rounds)))
  {
    NoLossNoDuplication(s, rounds);
    var run := RunRounds(s, rounds);
    assert multiset(run.delivered + run.state.queue) == multiset(s.queue + Stamps(Enqueued(rounds)));
  }
}
