/** payment-service: one delivery of payment.requested, and the journey of a request through the retry queues. */
module Payments {
  import opened Domain

  const MAX_RETRIES := 3

  datatype PaymentStatus = Success | Failed

  datatype Payment = Payment(order: OrderId, customer: CustomerId, amount: real, status: PaymentStatus)

  datatype PaymentRequested = PaymentRequested(order: OrderId, customer: CustomerId, total: real)

  /** The gateway decides, or the call fails in a way that is worth another attempt. */
  datatype Gateway = Charged(status: PaymentStatus) | Transient

  /**
   * The count that `x-death` shows when a message comes back from retry queue k. The comment in the
   * source expects it to keep growing (Kept); a publish without headers starts it afresh (Restarted).
   */
  datatype HeaderModel = Kept | Restarted

  function ReturnCount(headers: HeaderModel, k: nat): nat {
    match headers
    case Kept => k
    case Restarted => 1
  }

  predicate HasRow(payments: seq<Payment>, order: OrderId) {
    exists i :: 0 <= i < |payments| && payments[i].order == order
  }

  datatype Outcome = Skipped | DeadLettered | Retried(queue: nat) | Saved(status: PaymentStatus)

  /** What one delivery does; `roll` is the gateway's answer if the gateway is called. */
  function Deliver(payments: seq<Payment>, order: OrderId, count: nat, roll: Gateway): Outcome {
    if HasRow(payments, order) then Skipped
    else if count >= MAX_RETRIES then DeadLettered
    else
      match roll
      case Transient => Retried(count + 1)
      case Charged(status) => Saved(status)
  }

  class PaymentService {
    var payments: seq<Payment>
    var dlq: seq<PaymentRequested>
    var retries: seq<(nat, PaymentRequested)>
    var results: seq<(OrderId, PaymentStatus)>
    var gatewayCalls: nat

    constructor ()
      ensures payments == [] && dlq == [] && retries == [] && results == [] && gatewayCalls == 0
    {
      payments, dlq, retries, results, gatewayCalls := [], [], [], [], 0;
    }

    /** A failed publish is logged and swallowed. */
    method PublishResult(order: OrderId, status: PaymentStatus, sent: bool)
      modifies this`results
      ensures results == if sent then old(results) + [(order, status)] else old(results)
    {
      if sent {
        results := results + [(order, status)];
      }
    }

    method ProcessPaymentRequested(event: PaymentRequested, count: nat, roll: Gateway, sent: bool)
      modifies this
      ensures var outcome := Deliver(old(payments), event.order, count, roll);
              && payments == old(payments)
                 + (if outcome.Saved? then [Payment(event.order, event.customer, event.total, outcome.status)] else [])
              && dlq == old(dlq) + (if outcome.DeadLettered? then [event] else [])
              && retries == old(retries) + (if outcome.Retried? then [(outcome.queue, event)] else [])
              && results == old(results)
                 + (if !sent then []
                    else if outcome.Saved? then [(event.order, outcome.status)]
                    else if outcome.DeadLettered? then [(event.order, Failed)]
                    else [])
              && gatewayCalls == old(gatewayCalls) + (if outcome.Saved? || outcome.Retried? then 1 else 0)
    {
      if HasRow(payments, event.order) {
        return;
      }
      if count >= MAX_RETRIES {
        dlq := dlq + [event];
        PublishResult(event.order, Failed, sent);
        return;
      }
      gatewayCalls := gatewayCalls + 1;
      if roll == Transient {
        retries := retries + [(count + 1, event)];
        return;
      }
      payments := payments + [Payment(event.order, event.customer, event.total, roll.status)];
      PublishResult(event.order, if roll.status == Success then Success else Failed, sent);
    }
  }

  datatype End = Settled(status: PaymentStatus) | Parked | Duplicate | InTransit

  /** Gateway calls, deliveries, the retry queues visited in order, and how it ended. */
  datatype Journey = Journey(calls: nat, deliveries: nat, queues: seq<nat>, end: End)

  /** One request followed from delivery to delivery; the gateway's answers are taken from `rolls`. */
  function Travel(
      headers: HeaderModel, payments: seq<Payment>, order: OrderId, count: nat, rolls: seq<Gateway>): Journey
    decreases |rolls|
  {
    if HasRow(payments, order) then Journey(0, 1, [], Duplicate)
    else if count >= MAX_RETRIES then Journey(0, 1, [], Parked)
    else if rolls == [] then Journey(0, 0, [], InTransit)
    else
      match Deliver(payments, order, count, rolls[0])
      case Retried(k) =>
        var rest := Travel(headers, payments, order, ReturnCount(headers, k), rolls[1..]);
        Journey(rest.calls + 1, rest.deliveries + 1, [k] + rest.queues, rest.end)
      case Saved(status) => Journey(1, 1, [], Settled(status))
      case _ => Journey(0, 1, [], Duplicate)
  }

  /** How many rolls are transient before the gateway first decides. */
  function Leading(rolls: seq<Gateway>): (n: nat)
    ensures n <= |rolls| && (forall i :: 0 <= i < n ==> rolls[i] == Transient)
    ensures n < |rolls| ==> rolls[n].Charged?
  {
    if rolls == [] || rolls[0] != Transient then 0 else 1 + Leading(rolls[1..])
  }

  function Min(a: nat, b: nat): nat {
    if a < b then a else b
  }

  /**
   * What the staged retry promises of a request that comes in with the given count: the retry queues in
   * order and each at most once, then a saved row, or the DLQ once every attempt that is left has failed.
   */
  predicate Staged(j: Journey, count: nat, rolls: seq<Gateway>)
    requires count <= MAX_RETRIES
  {
    var left, n := MAX_RETRIES - count, Leading(rolls);
    && |j.queues| == Min(n, left)
    && (forall i :: 0 <= i < |j.queues| ==> j.queues[i] == count + 1 + i)
    && (if n >= left then j.end == Parked && j.calls == left && j.deliveries == left + 1
        else if n == |rolls| then j.end == InTransit && j.calls == j.deliveries == n
        else j.end == Settled(rolls[n].status) && j.calls == j.deliveries == n + 1)
  }

  lemma {:induction false} KeptCountIsStaged(payments: seq<Payment>, order: OrderId, count: nat, rolls: seq<Gateway>)
    requires !HasRow(payments, order) && count <= MAX_RETRIES
    ensures Staged(Travel(Kept, payments, order, count, rolls), count, rolls)
    decreases |rolls|
  {
    if count < MAX_RETRIES && rolls != [] && rolls[0] == Transient {
      KeptCountIsStaged(payments, order, count + 1, rolls[1..]);
    }
  }

  /** With the count kept, a request makes at most 3 gateway calls over 4 deliveries, whatever the gateway does. */
  lemma RetryBound(payments: seq<Payment>, order: OrderId, rolls: seq<Gateway>)
    requires !HasRow(payments, order)
    ensures var j := Travel(Kept, payments, order, 0, rolls);
            && j.calls <= 3 && j.deliveries <= 4 && j.queues <= [1, 2, 3]
            && (|rolls| >= 3 ==> j.end.Settled? || j.end.Parked?)
            && (j.end.Parked? <==> Leading(rolls) >= 3)
  {
    KeptCountIsStaged(payments, order, 0, rolls);
    var j := Travel(Kept, payments, order, 0, rolls);
    assert j.queues == [1, 2, 3][..|j.queues|];
  }

  function Transients(n: nat): seq<Gateway> {
    seq(n, _ => Transient)
  }

  /** With the count restarted, the second retry queue is visited for ever and the DLQ is never reached. */
  lemma {:induction false} RestartedNeverParks(
      payments: seq<Payment>, order: OrderId, count: nat, rolls: seq<Gateway>)
    requires !HasRow(payments, order) && count <= 1
    ensures var j := Travel(Restarted, payments, order, count, rolls);
            && j.end != Parked
            && |j.queues| == Leading(rolls)
            && (forall i :: 0 <= i < |j.queues| ==> j.queues[i] == if i == 0 then count + 1 else 2)
            && (Leading(rolls) == |rolls| ==> j.calls == |rolls| && j.end == InTransit)
    decreases |rolls|
  {
    if rolls != [] && rolls[0] == Transient {
      RestartedNeverParks(payments, order, 1, rolls[1..]);
    }
  }

  /** No run of one request makes more gateway calls than this. */
  ghost predicate CallsAtMost(headers: HeaderModel, order: OrderId, bound: nat) {
    forall rolls :: Travel(headers, [], order, 0, rolls).calls <= bound
  }

  /** The number of gateway calls is bounded exactly if the count survives the headerless publish. */
  lemma CallsBoundedIff(headers: HeaderModel, order: OrderId)
    ensures (exists bound: nat :: CallsAtMost(headers, order, bound)) <==> headers == Kept
  {
    if headers == Kept {
      forall rolls ensures Travel(headers, [], order, 0, rolls).calls <= 3 {
        RetryBound([], order, rolls);
      }
      assert CallsAtMost(headers, order, 3);
    } else {
      forall bound: nat ensures !CallsAtMost(headers, order, bound) {
        LeadingTransients(bound + 1);
        RestartedNeverParks([], order, 0, Transients(bound + 1));
      }
    }
  }

  lemma LeadingTransients(n: nat)
    ensures Leading(Transients(n)) == n
  {
  }
}
