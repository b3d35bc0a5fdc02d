/** The fault model as laws: everything that may go wrong around a step of the composed system. */
module Environment {
  import opened Inventory
  import opened Saga
  import opened Invariants

  /** What t becomes once its call has been answered. */
  function AnsweredWith(t: Task, reply: Reply): Task
    requires RpcOf(t).Some? && !t.Late?
  {
    t.(call := Replied(reply))
  }

  /**
   * An RPC may be executed and answered; be given up while its request stays in the queue, because the caller
   * stops waiting or dies; or never be executed. A request whose caller has gone may be executed at any later
   * time, any number of times or not at all.
   */
  lemma RpcFates(cfg: Config, db: Tables, t: Task)
    requires RpcOf(t).Some?
    ensures var rpc := RpcOf(t).value;
            var (store, reply) := Serve(db.store, rpc);
            && Advance(cfg, db, t, Proceed) == (db.(store := store), if t.Late? then [] else [AnsweredWith(t, reply)])
            && (if t.Late? then
                  Advance(cfg, db, t, Vanish) == (db, []) && Advance(cfg, db, t, Copy) == (db, [t, t])
                else
                  && Advance(cfg, db, t, Vanish) == (db, [Late(rpc)])
                  && Advance(cfg, db, t, TimeOut).0 == db && Late(rpc) in Advance(cfg, db, t, TimeOut).1
                  && Advance(cfg, db, t, Fault).0 == db
                  && forall x :: x in Advance(cfg, db, t, Fault).1 ==> RpcOf(x).None?)
  {
    if !t.Late? {
      var news := Advance(cfg, db, t, TimeOut).1;
      assert news[|news| - 1] == Late(RpcOf(t).value);
    }
  }

  /** An answer that has arrived may still be lost, and is then handled like a call that failed. */
  lemma LostAnswers(cfg: Config, db: Tables, t: Task, reply: Reply)
    requires RpcOf(t).Some? && !t.Late?
    ensures var answered := AnsweredWith(t, reply);
            && Advance(cfg, db, answered, Fault) == Advance(cfg, db, t, Fault)
            && Advance(cfg, db, answered, Vanish) == (db, [])
  {
  }

  /** Messages and the processes that handle them may vanish, writes and publishes may fail. */
  lemma LostMessagesAndWrites(cfg: Config, db: Tables, t: Task)
    ensures RpcOf(t).None? ==> Advance(cfg, db, t, Vanish) == (db, [])
    ensures t.Marking? || t.Announcing? || t.Reporting? || t.Requesting? ==> Advance(cfg, db, t, Fault) == (db, [])
    ensures t.MarkingReserved? ==> Advance(cfg, db, t, Fault) == (db, [Requesting(t.event)])
  {
  }

  /** Payment results may always be delivered twice, the two requests if the broker is allowed to. */
  lemma RepeatedMessages(cfg: Config, db: Tables, t: Task)
    ensures t.Result? || (t.Charging? && t.place.Returned?) ==> Advance(cfg, db, t, Copy) == (db, [t, t])
    ensures t.Created? && cfg.repeatCreated ==> Advance(cfg, db, t, Copy) == (db, [t, t])
    ensures t.Charging? && t.place.InQueue? && cfg.repeatRequested ==> Advance(cfg, db, t, Copy) == (db, [t, t])
  {
  }

  /** A handler that dies before its acknowledgement gets its message again, wherever it has died. */
  lemma Redeliveries(cfg: Config, db: Tables, t: Task)
    ensures t.Reserving? || t.MarkingReserved? || t.Requesting? ==>
      Advance(cfg, db, t, Redeliver).0 == db && Created(t.event) in Advance(cfg, db, t, Redeliver).1
    ensures t.Reserving? && t.call == Sent ==> Late(RpcOf(t).value) in Advance(cfg, db, t, Redeliver).1
    ensures t.Charging? && t.place.AtGateway? ==>
      Advance(cfg, db, t, Redeliver) == (db, [Charging(t.request, InQueue(t.place.count))])
    ensures t.Reporting? ==> Advance(cfg, db, t, Redeliver) == (db, [t, Charging(t.request, Returned(t.count))])
    ensures t.Charging? && t.place.InRetry? && t.place.k > 0 && cfg.repeatRetried ==>
      Advance(cfg, db, t, Redeliver) == (db, [t, Charging(t.request, InQueue(t.place.k - 1))])
  {
    if t.Reserving? || t.MarkingReserved? || t.Requesting? {
      assert Advance(cfg, db, t, Redeliver).1[0] == Created(t.event);
    }
    if t.Reserving? && t.call == Sent {
      assert Advance(cfg, db, t, Redeliver).1[1] == Late(RpcOf(t).value);
    }
  }
}
