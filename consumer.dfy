/*
 * The shared Kafka consumer (shared/kafka/consumer.go): subscription
 * with bounded retries and exponential back-off, and the poll loop that
 * hands messages to a handler until a signal or a fatal broker error.
 *
 * The broker is a parameter: `answer(i)` is what the i-th SubscribeTopics
 * call of one Subscribe returns (None for success), and the poll loop
 * sees a finite sequence of what each iteration observes. Sleeps are
 * recorded, in nanoseconds, rather than taken.
 */
module Consumer {
  import opened Util

  type Bytes = seq<bv8>

  const MaxRetries: nat := 15
  /** time.Second * 2, in nanoseconds. */
  const InitialDelay: int := 2_000_000_000

  /**
   * time.Duration(float64(d) * 1.5). Below 2^52 nanoseconds the product
   * is exact in float64, so the conversion only drops a half.
   */
  function Grow(d: int): (r: int)
    requires d >= 0
    ensures 2 * r <= 3 * d < 2 * r + 2
  {
    d * 3 / 2
  }

  /** The delay slept after the k-th failed attempt (k from 0). */
  function Delay(k: nat): (d: int)
    ensures d >= InitialDelay
  {
    if k == 0 then InitialDelay else Grow(Delay(k - 1))
  }

  /** The first n delays, in the order they are slept. */
  function Delays(n: nat): (ds: seq<int>)
    ensures |ds| == n
  {
    if n == 0 then [] else Delays(n - 1) + [Delay(n - 1)]
  }

  /** The k-th recorded sleep is Delay(k); the delays only grow, each by half (rounded down). */
  lemma {:induction false} DelaysGrow(n: nat)
    ensures forall k :: 0 <= k < n ==> Delays(n)[k] == Delay(k)
    ensures forall i, j :: 0 <= i <= j < n ==> Delays(n)[i] <= Delays(n)[j]
    ensures n > 0 ==> Delays(n)[0] == InitialDelay
  {
    if n > 0 {
      DelaysGrow(n - 1);
      assert Delays(n) == Delays(n - 1) + [Delay(n - 1)];
      if n > 1 {
        assert Delay(n - 1) == Grow(Delay(n - 2));
      }
    }
  }

  /**
   * Subscribe from attempt i on: the number of SubscribeTopics calls made
   * and the error returned.
   */
  function Outcome(answer: nat -> Option<string>, i: nat): (r: (nat, Option<string>))
    requires i < MaxRetries
    ensures i < r.0 <= MaxRetries
    decreases MaxRetries - i
  {
    if answer(i).None? then (i + 1, None)
    else if i == MaxRetries - 1 then (MaxRetries, answer(i))
    else Outcome(answer, i + 1)
  }

  /**
   * Success exactly when some attempt succeeds, after
   * which no further call is made; otherwise every attempt failed and
   * the last error is returned. Every kind of error is retried.
   */
  lemma {:induction false} OutcomeFacts(answer: nat -> Option<string>, i: nat)
    requires i < MaxRetries
    ensures Outcome(answer, i).1.None? <==> exists j :: i <= j < MaxRetries && answer(j).None?
    ensures var r := Outcome(answer, i);
      r.1.None? ==> answer(r.0 - 1).None? && forall j :: i <= j < r.0 - 1 ==> answer(j).Some?
    ensures var r := Outcome(answer, i);
      r.1.Some? ==> r.0 == MaxRetries && r.1 == answer(MaxRetries - 1)
    decreases MaxRetries - i
  {
    if answer(i).Some? && i < MaxRetries - 1 {
      OutcomeFacts(answer, i + 1);
      assert Outcome(answer, i) == Outcome(answer, i + 1);
      if Outcome(answer, i).1.None? {
        var j :| i + 1 <= j < MaxRetries && answer(j).None?;
      }
    }
  }

  /** Failed attempts before i do not change the outcome. */
  lemma {:induction false} OutcomeSkip(answer: nat -> Option<string>, i: nat)
    requires i < MaxRetries
    requires forall j :: 0 <= j < i ==> answer(j).Some?
    ensures Outcome(answer, 0) == Outcome(answer, i)
  {
    if i > 0 {
      OutcomeSkip(answer, i - 1);
    }
  }

  /** Kafka error codes the poll loop tells apart. */
  datatype Code = UnknownTopicOrPart | BadMsg | TimedOut | AllBrokersDown | OtherCode(code: int)

  /** What one iteration of the poll loop observes. */
  datatype Polled =
    | Signal                               // SIGINT or SIGTERM is pending
    | NoEvent                              // Poll timed out
    | Message(key: Bytes, value: Bytes)
    | KafkaError(code: Code)
    | OtherEvent                           // any other event type

  datatype Delivery = Delivery(key: Bytes, value: Bytes)

  /** The observations that end the loop. */
  predicate Stops(p: Polled) {
    p.Signal? || p == KafkaError(AllBrokersDown)
  }

  /** The number of observations before the first one that ends the loop. */
  function StopAt(events: seq<Polled>): (k: nat)
    ensures k <= |events|
  {
    if events == [] then 0
    else if Stops(events[0]) then 0
    else 1 + StopAt(events[1..])
  }

  /** The messages among `events`, in order. */
  function Delivered(events: seq<Polled>): (ds: seq<Delivery>)
    ensures |ds| <= |events|
  {
    if events == [] then []
    else
      var last := events[|events| - 1];
      Delivered(events[..|events| - 1]) + (if last.Message? then [Delivery(last.key, last.value)] else [])
  }

  /** StopAt is the first stopping observation, or the end. */
  lemma {:induction false} StopAtIs(events: seq<Polled>, i: nat)
    requires i <= |events|
    requires forall j :: 0 <= j < i ==> !Stops(events[j])
    requires i == |events| || Stops(events[i])
    ensures StopAt(events) == i
  {
    if i > 0 {
      assert events[1..][i - 1..] == events[i..];
      StopAtIs(events[1..], i - 1);
    }
  }

  /** Errors other than all-brokers-down never end the loop: every message in a run without a stop is delivered. */
  lemma {:induction false} NoStopDeliversAll(events: seq<Polled>)
    requires forall j :: 0 <= j < |events| ==> !Stops(events[j])
    ensures StopAt(events) == |events|
    ensures |Delivered(events)| == |set j | 0 <= j < |events| && events[j].Message?|
  {
    StopAtIs(events, |events|);
    if events != [] {
      var init := events[..|events| - 1];
      NoStopDeliversAll(init);
      var before := set j | 0 <= j < |init| && init[j].Message?;
      var now := set j | 0 <= j < |events| && events[j].Message?;
      if events[|events| - 1].Message? {
        assert now == before + {|events| - 1};
      } else {
        assert now == before;
      }
    }
  }

  class KafkaConsumer {
    /** SubscribeTopics calls made so far. */
    var attempts: nat
    /** Sleeps taken so far, in nanoseconds. */
    var slept: seq<int>
    /** Messages handed to the handler so far. */
    var handled: seq<Delivery>

    constructor ()
      ensures attempts == 0 && slept == [] && handled == []
    {
      attempts, slept, handled := 0, [], [];
    }

    /**
     * Up to 15 SubscribeTopics calls; after each failure but the last it
     * sleeps, starting at 2s and growing by half.
     */
    method Subscribe(answer: nat -> Option<string>) returns (err: Option<string>)
      modifies this
      ensures var r := Outcome(answer, 0);
        err == r.1 && attempts == old(attempts) + r.0 && slept == old(slept) + Delays(r.0 - 1)
      ensures handled == old(handled)
    {
      var delay := InitialDelay;
      err := None;
      var i := 0;
      while i < MaxRetries
        invariant 0 <= i <= MaxRetries
        invariant forall j :: 0 <= j < i ==> answer(j).Some?
        invariant attempts == old(attempts) + i
        invariant slept == old(slept) + Delays(if i == MaxRetries then MaxRetries - 1 else i)
        invariant i < MaxRetries ==> delay == Delay(i)
        invariant i > 0 ==> err == answer(i - 1)
        invariant handled == old(handled)
      {
        attempts := attempts + 1;
        err := answer(i);
        if err.None? {
          OutcomeSkip(answer, i);
          return;
        }
        if i < MaxRetries - 1 {
          slept := slept + [delay];
          delay := Grow(delay);
        }
        i := i + 1;
      }
      OutcomeSkip(answer, MaxRetries - 1);
    }

    /**
     * The poll loop over what each iteration observes: messages go to the
     * handler, whose error is only logged; the loop ends at the first
     * signal or all-brokers-down error and otherwise runs on (here, to the
     * end of the observations).
     */
    method ConsumeMessages(events: seq<Polled>, handler: (Bytes, Bytes) -> Option<string>) returns (stopped: bool)
      modifies this
      ensures stopped <==> StopAt(events) < |events|
      ensures handled == old(handled) + Delivered(events[..StopAt(events)])
      ensures attempts == old(attempts) && slept == old(slept)
    {
      var i := 0;
      while i < |events|
        invariant 0 <= i <= |events|
        invariant forall j :: 0 <= j < i ==> !Stops(events[j])
        invariant handled == old(handled) + Delivered(events[..i])
        invariant attempts == old(attempts) && slept == old(slept)
      {
        assert events[..i + 1][..i] == events[..i];
        match events[i] {
          case Signal =>
            StopAtIs(events, i);
            return true;
          case NoEvent =>
          case Message(key, value) =>
            handled := handled + [Delivery(key, value)];
            var _ := handler(key, value);
          case KafkaError(code) =>
            if code == AllBrokersDown {
              StopAtIs(events, i);
              return true;
            }
          case OtherEvent =>
        }
        i := i + 1;
      }
      StopAtIs(events, i);
      assert events[..i] == events;
      return false;
    }
  }
}
