/** What the retry wrapper guarantees, for every operation it wraps. */
module RetryProperties {
  import opened Outcomes
  import opened Market
  import opened Orders
  import opened Engine

  /** The wrapper returns what the body returns or raises on the first attempt
      whose draw is not below `fail_chance`, provided the `k` attempts before it
      were all injected outages and the budget was not used up first. A domain
      error raised by that body is therefore returned at once, without retry. */
  lemma {:induction false} RetryReturnsFirstPass(
    cfg: Config, env: Entropy, op: Op, a: Account, pos: nat, attempts: nat, k: nat)
    requires attempts + k < Budget(cfg)
    requires forall i :: pos <= i < pos + k ==> Injected(cfg, env, i)
    requires !Injected(cfg, env, pos + k)
    requires Body(cfg, env, op, a, pos + k + 1).result != Err(APIUnavailable)
    ensures Retry(cfg, env, op, a, pos, attempts) == Body(cfg, env, op, a, pos + k + 1)
    decreases k
  {
    if k > 0 {
      RetryReturnsFirstPass(cfg, env, op, a, pos + 1, attempts + 1, k - 1);
    }
  }

  /** Once every remaining attempt is an injected outage, the wrapper raises
      `APIUnavailableError` after using up the budget, and the account is
      untouched: injection happens before the body runs. */
  lemma {:induction false} RetryGivesUp(cfg: Config, env: Entropy, op: Op, a: Account, pos: nat, attempts: nat)
    requires attempts < Budget(cfg)
    requires forall i :: pos <= i < pos + (Budget(cfg) - attempts) ==> Injected(cfg, env, i)
    ensures Retry(cfg, env, op, a, pos, attempts) == Step(Err(APIUnavailable), a, pos + (Budget(cfg) - attempts))
    decreases Budget(cfg) - attempts
  {
    if attempts + 1 < cfg.maxRetries {
      RetryGivesUp(cfg, env, op, a, pos + 1, attempts + 1);
    }
  }

  /** With `fail_chance >= 1` every wrapped call raises `APIUnavailableError`
      after `max(1, max_retries)` draws and changes nothing; with
      `max_retries = 1` that is a single draw. */
  lemma AlwaysUnavailable(cfg: Config, env: Entropy, op: Op, a: Account, pos: nat)
    requires cfg.failChance >= 1.0
    ensures Run(cfg, env, op, a, pos) == Step(Err(APIUnavailable), a, pos + Budget(cfg))
    ensures cfg.maxRetries == 1 ==> Run(cfg, env, op, a, pos).pos == pos + 1
  {
    RetryGivesUp(cfg, env, op, a, pos, 0);
  }

  /** With `fail_chance <= 0` no draw is ever an outage: a wrapped call is its
      body run once, and never raises `APIUnavailableError`. */
  lemma {:induction false} NeverUnavailable(cfg: Config, env: Entropy, op: Op, a: Account, pos: nat, attempts: nat)
    requires cfg.failChance <= 0.0
    ensures Retry(cfg, env, op, a, pos, attempts) == Body(cfg, env, op, a, pos + 1)
    ensures Retry(cfg, env, op, a, pos, attempts).result != Err(APIUnavailable)
    decreases Rank(op), 2
  {
    assert !Injected(cfg, env, pos);
    BodyNeverUnavailable(cfg, env, op, a, pos + 1);
  }

  lemma {:induction false} BodyNeverUnavailable(cfg: Config, env: Entropy, op: Op, a: Account, pos: nat)
    requires cfg.failChance <= 0.0
    ensures Body(cfg, env, op, a, pos).result != Err(APIUnavailable)
    decreases Rank(op), 1
  {
    if op.CheckStatus? && op.id in a.orders && a.orders[op.id].status == Open && env.choice(pos) == Win {
      var o := a.orders[op.id];
      var drawn := a.(orders := a.orders[op.id := o.(status := Win)]);
      NeverUnavailable(cfg, env, Payout(o.symbol), drawn, pos + 1, 0);
    }
  }

  /** A body that, whatever the position, leaves the account alone and returns
      or raises the same `v` yields `v` or an outage, and never a changed account. */
  lemma {:induction false} RetryOnSettledBody(
    cfg: Config, env: Entropy, op: Op, a: Account, pos: nat, attempts: nat, v: Result<Value>)
    requires v != Err(APIUnavailable)
    requires forall p: nat :: Body(cfg, env, op, a, p) == Step(v, a, p)
    ensures Retry(cfg, env, op, a, pos, attempts).state == a
    ensures Retry(cfg, env, op, a, pos, attempts).result in {v, Err(APIUnavailable)}
    decreases Budget(cfg) - attempts
  {
    if Injected(cfg, env, pos) && attempts + 1 < cfg.maxRetries {
      RetryOnSettledBody(cfg, env, op, a, pos + 1, attempts + 1, v);
    }
  }

  /** An operation naming an unknown symbol raises `SymbolNotFoundError` (or
      the outage, if every attempt was injected) and changes nothing; with
      `fail_chance = 0` it always raises `SymbolNotFoundError`. */
  lemma UnknownSymbolRejected(cfg: Config, env: Entropy, op: Op, a: Account, pos: nat)
    requires op.Quote? || op.History? || op.Payout? || op.PlaceOrder?
    requires op.symbol !in Symbols
    ensures Run(cfg, env, op, a, pos).state == a
    ensures Run(cfg, env, op, a, pos).result in {Err(SymbolNotFound(op.symbol)), Err(APIUnavailable)}
    ensures cfg.failChance <= 0.0 ==> Run(cfg, env, op, a, pos).result == Err(SymbolNotFound(op.symbol))
  {
    RetryOnSettledBody(cfg, env, op, a, pos, 0, Err(SymbolNotFound(op.symbol)));
    if cfg.failChance <= 0.0 {
      NeverUnavailable(cfg, env, op, a, pos, 0);
    }
  }

  /** A status check or cancel of an id that was never issued raises
      `OrderConflictError` (or the outage) and changes nothing. */
  lemma UnknownOrderRejected(cfg: Config, env: Entropy, op: Op, a: Account, pos: nat)
    requires op.CheckStatus? || op.Cancel?
    requires op.id !in a.orders
    ensures Run(cfg, env, op, a, pos).state == a
    ensures Run(cfg, env, op, a, pos).result in {Err(OrderConflict(UnknownOrder(op.id))), Err(APIUnavailable)}
    ensures cfg.failChance <= 0.0 ==> Run(cfg, env, op, a, pos).result == Err(OrderConflict(UnknownOrder(op.id)))
  {
    RetryOnSettledBody(cfg, env, op, a, pos, 0, Err(OrderConflict(UnknownOrder(op.id))));
    if cfg.failChance <= 0.0 {
      NeverUnavailable(cfg, env, op, a, pos, 0);
    }
  }

  /** `get_history` with a valid symbol and `start_date >= end_date` raises
      `ValueError` (or the outage) and changes nothing; always `ValueError`
      when `fail_chance = 0`. */
  lemma EmptyRangeRejected(cfg: Config, env: Entropy, symbol: string, startDate: int, endDate: int, a: Account, pos: nat)
    requires symbol in Symbols && startDate >= endDate
    ensures Run(cfg, env, History(symbol, startDate, endDate), a, pos).state == a
    ensures Run(cfg, env, History(symbol, startDate, endDate), a, pos).result
      in {Err(ValueError(EmptyDateRange)), Err(APIUnavailable)}
    ensures cfg.failChance <= 0.0 ==>
      Run(cfg, env, History(symbol, startDate, endDate), a, pos).result == Err(ValueError(EmptyDateRange))
  {
    RetryOnSettledBody(cfg, env, History(symbol, startDate, endDate), a, pos, 0, Err(ValueError(EmptyDateRange)));
    if cfg.failChance <= 0.0 {
      NeverUnavailable(cfg, env, History(symbol, startDate, endDate), a, pos, 0);
    }
  }

  /** `place_order` checks the symbol, then the direction, then the amount;
      a rejected order raises the first failing check's error (or the outage)
      and leaves balance, order table and counter unchanged. */
  lemma PlaceOrderRejected(cfg: Config, env: Entropy, symbol: string, direction: string, amount: real, a: Account, pos: nat)
    requires symbol !in Symbols || direction !in Directions || amount <= 0.0
    ensures Run(cfg, env, PlaceOrder(symbol, direction, amount), a, pos).state == a
    ensures Run(cfg, env, PlaceOrder(symbol, direction, amount), a, pos).result in {
      Err(if symbol !in Symbols then SymbolNotFound(symbol)
          else if direction !in Directions then ValueError(BadDirection)
          else ValueError(NonPositiveAmount)),
      Err(APIUnavailable)}
  {
    var e := if symbol !in Symbols then SymbolNotFound(symbol)
             else if direction !in Directions then ValueError(BadDirection)
             else ValueError(NonPositiveAmount);
    RetryOnSettledBody(cfg, env, PlaceOrder(symbol, direction, amount), a, pos, 0, Err(e));
  }
}
