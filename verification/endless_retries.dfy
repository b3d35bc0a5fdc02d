/** When the work of the composed system is bounded: a retry count that starts afresh keeps it going for ever. */
module EndlessRetries {
  import opened Inventory
  import opened Payments
  import opened Saga
  import opened StockLaws
  import opened RepeatedDeliveries
  import opened Agreement
  import opened FinalAgreement

  ghost predicate BoundsWork(cfg: Config, s: Sys, bound: nat) {
    forall work :: WorkingRun(cfg, s, work) ==> |work| <= bound
  }

  ghost predicate IsBounded(cfg: Config, s: Sys) {
    exists bound: nat :: BoundsWork(cfg, s, bound)
  }

  /** In every reachable state there is a bound on the work that is left. */
  ghost predicate Drains(cfg: Config) {
    forall seed: Stock, run: seq<Action> :: IsSeed(seed) ==> IsBounded(cfg, Exec(cfg, Init(seed), run))
  }

  /** To the gateway, to the second retry queue, and back. */
  function Rounds(n: nat): seq<Action> {
    if n == 0 then [] else [Run(0, Proceed)] + ([Run(0, Roll(Transient))] + ([Run(0, Proceed)] + Rounds(n - 1)))
  }

  lemma WorkFirst(cfg: Config, s: Sys, a: Action, rest: seq<Action>)
    requires AtWork(s, a) && WorkingRun(cfg, Apply(cfg, s, a), rest)
    ensures WorkingRun(cfg, s, [a] + rest)
  {
    assert ([a] + rest)[1..] == rest;
  }

  lemma {:induction false} RoundsWork(cfg: Config, s: Sys, r: PaymentRequested, n: nat)
    requires cfg.headers == Restarted && s.tasks == [Charging(r, InQueue(1))] && !HasRow(s.db.payments, r.order)
    ensures WorkingRun(cfg, s, Rounds(n)) && |Rounds(n)| == 3 * n
  {
    if n > 0 {
      var calling := Apply(cfg, s, Run(0, Proceed));
      assert calling == s.(tasks := [Charging(r, AtGateway(1))]);
      var waiting := Apply(cfg, calling, Run(0, Roll(Transient)));
      assert waiting == s.(tasks := [Charging(r, InRetry(2))]);
      assert Apply(cfg, waiting, Run(0, Proceed)) == s;
      RoundsWork(cfg, s, r, n - 1);
      WorkFirst(cfg, waiting, Run(0, Proceed), Rounds(n - 1));
      WorkFirst(cfg, calling, Run(0, Roll(Transient)), [Run(0, Proceed)] + Rounds(n - 1));
      WorkFirst(cfg, s, Run(0, Proceed), [Run(0, Roll(Transient))] + ([Run(0, Proceed)] + Rounds(n - 1)));
    }
  }

  /** One request that has come back from its first retry. */
  lemma BackInQueue(cfg: Config) returns (s: Sys, r: PaymentRequested)
    ensures Reaches(cfg, Init(map[]), s) && s.tasks == [Charging(r, InQueue(1))]
    ensures !HasRow(s.db.payments, r.order)
  {
    var s0;
    s0, r := RetriedOnce(cfg);
    s := StepFirst(cfg, Init(map[]), s0, Proceed, [], Charging(r, InQueue(1)));
  }

  /** With a count that starts afresh, work of any length lies ahead of that request. */
  lemma RetriedForEver(cfg: Config) returns (s: Sys)
    requires cfg.headers == Restarted
    ensures Reaches(cfg, Init(map[]), s) && !IsBounded(cfg, s)
  {
    var r;
    s, r := BackInQueue(cfg);
    forall bound: nat ensures !BoundsWork(cfg, s, bound) {
      RoundsWork(cfg, s, r, bound + 1);
      assert |Rounds(bound + 1)| > bound;
    }
  }

  /** From every reachable state the work comes to an end exactly if the retry count is kept. */
  lemma DrainsIff(cfg: Config)
    ensures Drains(cfg) <==> cfg.headers == Kept
  {
    if cfg.headers == Kept {
      forall seed: Stock, run: seq<Action> | IsSeed(seed) ensures IsBounded(cfg, Exec(cfg, Init(seed), run)) {
        var s := Exec(cfg, Init(seed), run);
        forall work | WorkingRun(cfg, s, work) ensures |work| <= Measure(Kept, s) {
          EveryRunDrains(seed, cfg, run, work);
        }
        assert BoundsWork(cfg, s, Measure(Kept, s));
      }
    } else {
      var s := RetriedForEver(cfg);
      var seed: Stock := map[];
      var run :| Exec(cfg, Init(seed), run) == s;
      assert IsSeed(seed) && !IsBounded(cfg, Exec(cfg, Init(seed), run));
    }
  }
}
