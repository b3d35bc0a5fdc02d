/** Releasing a reservation undoes it: the rest of the run cannot tell that it ever happened. */
module Compensation {
  import opened Domain
  import opened Inventory
  import opened ReserveTest
  import opened StockLaws

  predicate Concerns(run: seq<Request>, o: OrderId) {
    exists i :: 0 <= i < |run| && run[i].order == o
  }

  /** No reserve of the run is turned down for lack of stock. */
  predicate NothingRefused(store: Store, run: seq<Request>)
    decreases |run|
  {
    run != [] ==>
      && !Serve(store, run[0]).1.reason.InsufficientStock?
      && NothingRefused(Serve(store, run[0]).0, run[1..])
  }

  /** `with` is `without` plus a row for o, and plus the extra items in the reserved counters. */
  ghost predicate Apart(with: Store, without: Store, o: OrderId, extra: seq<Item>) {
    && Grounded(with) && Grounded(without) && AllPositive(extra)
    && o in with.reservations && o !in without.reservations
    && with.reservations - {o} == without.reservations
    && forall p ::
         var row := Effective(without.stock, p);
         Effective(with.stock, p) == Counters(row.available, row.reserved + Demand(extra, p))
  }

  lemma SameReservations(with: Store, without: Store, o: OrderId, extra: seq<Item>, other: OrderId)
    requires Apart(with, without, o, extra) && other != o
    ensures other in with.reservations <==> other in without.reservations
    ensures other in with.reservations ==> with.reservations[other] == without.reservations[other]
  {
    assert other in with.reservations <==> other in with.reservations - {o};
  }

  lemma SameVerdict(with: Store, without: Store, o: OrderId, extra: seq<Item>, items: seq<Item>)
    requires Apart(with, without, o, extra)
    ensures Fits(with.stock, items) ==> Fits(without.stock, items)
    ensures extra == [] ==> (Fits(without.stock, items) ==> Fits(with.stock, items))
  {
    forall i | 0 <= i < |items| ensures Demand(extra, items[i].product) >= 0 {
      DemandNonNegative(extra, items[i].product);
    }
  }

  lemma SameRefusal(with: Store, without: Store, o: OrderId, items: seq<Item>)
    requires Apart(with, without, o, []) && !Fits(with.stock, items)
    ensures ReserveAll(with.stock, items) == ReserveAll(without.stock, items)
  {
    LoopMeetsTest(with.stock, items);
    LoopMeetsTest(without.stock, items);
    SameVerdict(with, without, o, [], items);
    FirstMisfit(with.stock, items);
    var k :| 0 <= k < |items| && Fits(with.stock, items[..k]) && !Fits(with.stock, items[..k + 1])
          && items[k].product == ReserveAll(with.stock, items).product;
    SameVerdict(with, without, o, [], items[..k]);
    SameVerdict(with, without, o, [], items[..k + 1]);
    MisfitRefuses(without.stock, items, k);
  }

  lemma OtherReply(with: Store, without: Store, o: OrderId, extra: seq<Item>, request: Request)
    requires Apart(with, without, o, extra) && request.order != o
    requires extra == [] || !Serve(with, request).1.reason.InsufficientStock?
    ensures Serve(with, request).1 == Serve(without, request).1
    ensures Serve(with, request).0 == with <==> Serve(without, request).0 == without
    ensures Serve(with, request).0 != with ==>
      Serve(with, request).0.reservations[request.order] == Serve(without, request).0.reservations[request.order]
  {
    SameReservations(with, without, o, extra, request.order);
    if request.ReserveRequest? && request.order !in with.reservations {
      FreshReserve(with, request.order, request.items);
      FreshReserve(without, request.order, request.items);
      SameVerdict(with, without, o, extra, request.items);
      if !Fits(with.stock, request.items) {
        SameRefusal(with, without, o, request.items);
      }
    }
  }

  lemma OthersKept(store: Store, request: Request)
    ensures var after := Serve(store, request).0;
            after != store ==>
              && request.order in after.reservations
              && after.reservations == store.reservations[request.order := after.reservations[request.order]]
  {
  }

  /** One request of another order keeps the two stores apart by the same items, and gets the same reply. */
  lemma OtherRequest(with: Store, without: Store, o: OrderId, extra: seq<Item>, request: Request)
    requires Apart(with, without, o, extra) && request.order != o
    requires extra == [] || !Serve(with, request).1.reason.InsufficientStock?
    ensures Serve(with, request).1 == Serve(without, request).1
    ensures Apart(Serve(with, request).0, Serve(without, request).0, o, extra)
  {
    var other := request.order;
    OtherReply(with, without, o, extra, request);
    SameReservations(with, without, o, extra, other);
    var (with', without') := (Serve(with, request).0, Serve(without, request).0);
    if with' != with {
      ServeMoves(with, request);
      ServeMoves(without, request);
      OthersKept(with, request);
      OthersKept(without, request);
      assert with'.reservations - {o} == without'.reservations;
      forall p
        ensures Effective(with'.stock, p)
             == Counters(Effective(without'.stock, p).available,
                         Effective(without'.stock, p).reserved + Demand(extra, p))
      {
        assert Effective(with'.stock, p) == Moved(with, request, p);
        assert Effective(without'.stock, p) == Moved(without, request, p);
      }
    }
  }

  lemma {:induction false} OtherRequests(with: Store, without: Store, o: OrderId, extra: seq<Item>, run: seq<Request>)
    requires Apart(with, without, o, extra) && !Concerns(run, o)
    requires extra == [] || NothingRefused(with, run)
    ensures ServeAll(with, run).1 == ServeAll(without, run).1
    ensures Apart(ServeAll(with, run).0, ServeAll(without, run).0, o, extra)
    decreases |run|
  {
    if run != [] {
      assert run[0].order != o;
      OtherRequest(with, without, o, extra, run[0]);
      assert forall i :: 0 <= i < |run[1..]| ==> run[1..][i] == run[i + 1];
      OtherRequests(Serve(with, run[0]).0, Serve(without, run[0]).0, o, extra, run[1..]);
    }
  }

  lemma {:induction false} RunKeepsGrounded(store: Store, run: seq<Request>, o: OrderId)
    requires Grounded(store) && o !in store.reservations && !Concerns(run, o)
    ensures Grounded(ServeAll(store, run).0) && o !in ServeAll(store, run).0.reservations
    decreases |run|
  {
    if run != [] {
      ServeMoves(store, run[0]);
      assert run[0].order != o;
      assert forall i :: 0 <= i < |run[1..]| ==> run[1..][i] == run[i + 1];
      RunKeepsGrounded(Serve(store, run[0]).0, run[1..], o);
    }
  }

  lemma ReserveSetsApart(store: Store, o: OrderId, items: seq<Item>)
    requires Grounded(store) && o !in store.reservations && Reserve(store, o, items).1.success
    ensures Apart(Reserve(store, o, items).0, store, o, items)
  {
    ServeMoves(store, ReserveRequest(o, items));
    LoopMeetsTest(store.stock, items);
    var after := Reserve(store, o, items).0;
    assert after.reservations - {o} == store.reservations;
    assert after == Serve(store, ReserveRequest(o, items)).0;
    forall p
      ensures Effective(after.stock, p)
           == Counters(Effective(store.stock, p).available, Effective(store.stock, p).reserved + Demand(items, p))
    {
      assert Effective(after.stock, p) == Moved(store, ReserveRequest(o, items), p);
    }
  }

  lemma ReleaseBringsTogether(with: Store, without: Store, o: OrderId, items: seq<Item>)
    requires Apart(with, without, o, items) && with.reservations[o] == Reservation(items, Reserved)
    ensures Apart(Release(with, o).0, without, o, [])
  {
    ServeMoves(with, ReleaseRequest(o));
    var after := Release(with, o).0;
    assert after == Serve(with, ReleaseRequest(o)).0;
    assert after.reservations - {o} == with.reservations - {o};
    forall p ensures Effective(after.stock, p) == Effective(without.stock, p) {
      assert Effective(after.stock, p) == Moved(with, ReleaseRequest(o), p);
    }
  }

  lemma {:induction false} OthersLeaveReservation(store: Store, run: seq<Request>, o: OrderId)
    requires o in store.reservations && !Concerns(run, o)
    ensures o in ServeAll(store, run).0.reservations
    ensures ServeAll(store, run).0.reservations[o] == store.reservations[o]
    decreases |run|
  {
    if run != [] {
      assert run[0].order != o;
      assert forall i :: 0 <= i < |run[1..]| ==> run[1..][i] == run[i + 1];
      OthersLeaveReservation(Serve(store, run[0]).0, run[1..], o);
    }
  }

  /** Two results that differ by the row of o and by the two replies that o got, after n and n + m others. */
  ghost predicate Compensated(with: (Store, seq<Reply>), without: (Store, seq<Reply>), o: OrderId, n: nat, m: nat) {
    && n + m <= |without.1|
    && with.1 == without.1[..n] + [Reply(true, NoReason)] + without.1[n..n + m] + [Reply(true, NoReason)]
                 + without.1[n + m..]
    && with.0.reservations - {o} == without.0.reservations
    && forall p :: Effective(with.0.stock, p) == Effective(without.0.stock, p)
  }

  /**
   * Take a granted reserve(o) and its later release(o), o's only requests, out of a run in which no
   * other reserve was refused in between: every other reply, every other reservation and the
   * effective stock of every product stay what they were.
   */
  lemma ExactCompensation(
      store: Store, before: seq<Request>, o: OrderId, items: seq<Item>, between: seq<Request>, after: seq<Request>)
    requires Grounded(store) && o !in store.reservations
    requires !Concerns(before, o) && !Concerns(between, o) && !Concerns(after, o)
    requires Reserve(ServeAll(store, before).0, o, items).1.success
    requires NothingRefused(Reserve(ServeAll(store, before).0, o, items).0, between)
    ensures Compensated(
              ServeAll(store, before + ([ReserveRequest(o, items)] + (between + ([ReleaseRequest(o)] + after)))),
              ServeAll(store, before + (between + after)),
              o, |before|, |between|)
  {
    RunKeepsGrounded(store, before, o);
    var s := ServeAll(store, before).0;
    var v := ServeAll(s, between).0;
    BothRuns(store, before, o, items, between, after);
    Reassemble(
      ServeAll(store, before).1, ServeAll(s, between).1, ServeAll(v, after).1, o,
      ServeAll(store, before + ([ReserveRequest(o, items)] + (between + ([ReleaseRequest(o)] + after)))),
      ServeAll(store, before + (between + after)));
  }

  lemma BothRuns(
      store: Store, before: seq<Request>, o: OrderId, items: seq<Item>, between: seq<Request>, after: seq<Request>)
    requires Grounded(ServeAll(store, before).0) && o !in ServeAll(store, before).0.reservations
    requires !Concerns(between, o) && !Concerns(after, o)
    requires Reserve(ServeAll(store, before).0, o, items).1.success
    requires NothingRefused(Reserve(ServeAll(store, before).0, o, items).0, between)
    ensures var (s, r0) := ServeAll(store, before);
            var (v, r1) := ServeAll(s, between);
            var r2 := ServeAll(v, after).1;
            var ok := [Reply(true, NoReason)];
            var with :=
              ServeAll(store, before + ([ReserveRequest(o, items)] + (between + ([ReleaseRequest(o)] + after))));
            var without := ServeAll(store, before + (between + after));
            && with.1 == r0 + (ok + (r1 + (ok + r2)))
            && without.1 == r0 + (r1 + r2)
            && Apart(with.0, without.0, o, [])
  {
    var (s, r0) := ServeAll(store, before);
    AfterReserve(s, o, items, between, after);
    var reserved := Reserve(s, o, items).0;
    var (w, r1) := ServeAll(reserved, between);
    RepliesWith(store, before, o, items, between, after, s, r0, reserved, w, r1, Release(w, o).0);
    RepliesWithout(store, before, between, after);
  }

  lemma Reassemble(
      r0: seq<Reply>, r1: seq<Reply>, r2: seq<Reply>, o: OrderId,
      with: (Store, seq<Reply>), without: (Store, seq<Reply>))
    requires Apart(with.0, without.0, o, [])
    requires var ok := [Reply(true, NoReason)]; with.1 == r0 + (ok + (r1 + (ok + r2)))
    requires without.1 == r0 + (r1 + r2)
    ensures Compensated(with, without, o, |r0|, |r1|)
  {
    Regroup(r0, r1, r2, Reply(true, NoReason));
    forall p ensures Effective(with.0.stock, p) == Effective(without.0.stock, p) {
      assert Demand([], p) == 0;
    }
  }

  lemma Regroup<T>(a: seq<T>, b: seq<T>, c: seq<T>, x: T)
    ensures var all := a + (b + c);
            a + ([x] + (b + ([x] + c)))
            == all[..|a|] + [x] + all[|a|..|a| + |b|] + [x] + all[|a| + |b|..]
  {
    var all := a + (b + c);
    assert all[..|a|] == a && all[|a|..|a| + |b|] == b && all[|a| + |b|..] == c;
    assert a + ([x] + (b + ([x] + c))) == a + [x] + b + [x] + c;
  }

  lemma AfterReserve(s: Store, o: OrderId, items: seq<Item>, between: seq<Request>, after: seq<Request>)
    requires Grounded(s) && o !in s.reservations && !Concerns(between, o) && !Concerns(after, o)
    requires Reserve(s, o, items).1.success && NothingRefused(Reserve(s, o, items).0, between)
    ensures var (reserved, a1) := Reserve(s, o, items);
            var (w, r1) := ServeAll(reserved, between);
            var (v, r1') := ServeAll(s, between);
            var (released, a2) := Release(w, o);
            && a1 == a2 == Reply(true, NoReason) && r1 == r1'
            && ServeAll(released, after).1 == ServeAll(v, after).1
            && Apart(ServeAll(released, after).0, ServeAll(v, after).0, o, [])
  {
    var reserved := Reserve(s, o, items).0;
    ReserveSetsApart(s, o, items);
    OtherRequests(reserved, s, o, items, between);
    OthersLeaveReservation(reserved, between, o);
    var (w, v) := (ServeAll(reserved, between).0, ServeAll(s, between).0);
    ReleaseBringsTogether(w, v, o, items);
    OtherRequests(Release(w, o).0, v, o, [], after);
  }

  lemma RepliesWith(
      store: Store, before: seq<Request>, o: OrderId, items: seq<Item>, between: seq<Request>, after: seq<Request>,
      s: Store, r0: seq<Reply>, reserved: Store, w: Store, r1: seq<Reply>, released: Store)
    requires ServeAll(store, before) == (s, r0)
    requires Reserve(s, o, items) == (reserved, Reply(true, NoReason))
    requires ServeAll(reserved, between) == (w, r1)
    requires Release(w, o) == (released, Reply(true, NoReason))
    ensures var (last, r2) := ServeAll(released, after);
            var ok := [Reply(true, NoReason)];
            ServeAll(store, before + ([ReserveRequest(o, items)] + (between + ([ReleaseRequest(o)] + after))))
            == (last, r0 + (ok + (r1 + (ok + r2))))
  {
    var tail := [ReleaseRequest(o)] + after;
    ServeFirst(w, ReleaseRequest(o), after);
    ServeConcat(reserved, between, tail);
    ServeFirst(s, ReserveRequest(o, items), between + tail);
    ServeConcat(store, before, [ReserveRequest(o, items)] + (between + tail));
  }

  lemma RepliesWithout(store: Store, before: seq<Request>, between: seq<Request>, after: seq<Request>)
    ensures var (s, r0) := ServeAll(store, before);
            var (v, r1) := ServeAll(s, between);
            var (last, r2) := ServeAll(v, after);
            ServeAll(store, before + (between + after)) == (last, r0 + (r1 + r2))
  {
    ServeConcat(ServeAll(store, before).0, between, after);
    ServeConcat(store, before, between + after);
  }
}
