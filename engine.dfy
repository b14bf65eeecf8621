/** The behaviour of every wrapped operation as a function of the account
    state and the stream of random draws: the failure-injecting retry wrapper
    (`_with_retry` around `_simulate_api_call`) and the operation bodies it
    runs (the `_impl` closures). */
module Engine {
  import opened Outcomes
  import opened Market
  import opened Orders

  /** `fail_chance` and `max_retries`. */
  datatype Config = Config(failChance: real, maxRetries: int)

  /** A value of `random.random()`. */
  type Unit = r: real | 0.0 <= r < 1.0

  /** The random module's future: the value each call into the generator would
      produce, read as a uniform draw or as a three-way choice. A position
      counts the calls made so far. */
  datatype Entropy = Entropy(uniform: nat -> Unit, choice: nat -> Outcome)

  /** Candle generation calls the generator four times per candle. */
  const DrawsPerCandle: nat := 4

  /** The operations routed through the retry wrapper. */
  datatype Op =
    | Quote(symbol: string)
    | History(symbol: string, startDate: int, endDate: int)
    | Payout(symbol: string)
    | PlaceOrder(symbol: string, direction: string, amount: real)
    | CheckStatus(id: int)
    | Cancel(id: int)

  /** What an operation returns. Prices, candle prices and volumes are not modelled. */
  datatype Value =
    | QuoteOf(symbol: string)
    | Candles(times: seq<int>)
    | Rate(rate: real)
    | OrderId(id: int)
    | OrderState(status: Status, result: real)
    | Flag(flag: bool)

  /** The outcome of running an operation: its result, the new account state,
      and the new position in the random stream. */
  datatype Step = Step(result: Result<Value>, state: Account, pos: nat)

  /** The number of attempts the wrapper makes: `attempts >= max_retries` is
      first tested after one attempt, so at least one is always made. */
  function Budget(cfg: Config): nat {
    if cfg.maxRetries < 1 then 1 else cfg.maxRetries
  }

  /** `random.random() < fail_chance` at the given position. */
  predicate Injected(cfg: Config, env: Entropy, pos: nat) {
    env.uniform(pos) < cfg.failChance
  }

  /** Operations that never change the account. */
  predicate ReadOnly(op: Op) {
    op.Quote? || op.History? || op.Payout?
  }

  /** The value each operation returns on success. */
  predicate Fits(op: Op, v: Value) {
    match op
    case Quote(symbol) => v == QuoteOf(symbol)
    case History(_, startDate, endDate) => v == Candles(MinuteRange(startDate, endDate))
    case Payout(_) => v == Rate(PayoutRate)
    case PlaceOrder(_, _, _) => v.OrderId?
    case CheckStatus(_) => v.OrderState?
    case Cancel(_) => v == Flag(true)
  }

  /** Only the status check calls back into the wrapper (for the payout). */
  function Rank(op: Op): nat {
    if op.CheckStatus? then 1 else 0
  }

  /** `get_real_time_quote`'s body: one draw for the price. */
  function QuoteBody(a: Account, pos: nat, symbol: string): Step {
    if symbol !in Symbols then Step(Err(SymbolNotFound(symbol)), a, pos)
    else Step(Ok(QuoteOf(symbol)), a, pos + 1)
  }

  /** `get_history`'s body. */
  function HistoryBody(a: Account, pos: nat, symbol: string, startDate: int, endDate: int): Step {
    if symbol !in Symbols then Step(Err(SymbolNotFound(symbol)), a, pos)
    else if startDate >= endDate then Step(Err(ValueError(EmptyDateRange)), a, pos)
    else
      var times := MinuteRange(startDate, endDate);
      Step(Ok(Candles(times)), a, pos + DrawsPerCandle * |times|)
  }

  /** `get_payout_estimate`'s body. */
  function PayoutBody(a: Account, pos: nat, symbol: string): Step {
    if symbol !in Symbols then Step(Err(SymbolNotFound(symbol)), a, pos)
    else Step(Ok(Rate(PayoutRate)), a, pos)
  }

  /** `place_order`'s body. */
  function PlaceOrderBody(a: Account, pos: nat, symbol: string, direction: string, amount: real): Step {
    if symbol !in Symbols then Step(Err(SymbolNotFound(symbol)), a, pos)
    else if direction !in Directions then Step(Err(ValueError(BadDirection)), a, pos)
    else if amount <= 0.0 then Step(Err(ValueError(NonPositiveAmount)), a, pos)
    else
      var id := a.counter + 1;
      var order := Order(id, symbol, direction, amount, Open, 0.0);
      Step(Ok(OrderId(id)), Account(a.balance - amount, a.orders[id := order], id), pos)
  }

  /** `cancel_order`'s body. */
  function CancelBody(a: Account, pos: nat, id: int): Step {
    if id !in a.orders then Step(Err(OrderConflict(UnknownOrder(id))), a, pos)
    else
      var o := a.orders[id];
      if o.status != Open then Step(Err(OrderConflict(NotCancellable)), a, pos)
      else
        var cancelled := o.(status := Cancelled, result := 0.0);
        Step(Ok(Flag(true)),
             a.(balance := a.balance + o.amount, orders := a.orders[id := cancelled]),
             pos)
  }

  /** `check_order_status`'s body. The drawn status is stored before the payout
      is fetched through the wrapper; when that nested call fails, its error
      leaves the body with the status already changed. */
  function CheckStatusBody(cfg: Config, env: Entropy, a: Account, pos: nat, id: int): Step
    decreases 1, 0, 0
  {
    if id !in a.orders then Step(Err(OrderConflict(UnknownOrder(id))), a, pos)
    else
      var o := a.orders[id];
      if o.status != Open then Step(Ok(OrderState(o.status, o.result)), a, pos)
      else
        var pick: Status := env.choice(pos);
        var drawn := a.(orders := a.orders[id := o.(status := pick)]);
        if pick == Win then
          var p := Retry(cfg, env, Payout(o.symbol), drawn, pos + 1, 0);
          if p.result.Err? then p
          else
            var won := o.(status := Win, result := o.amount * p.result.value.rate);
            Step(Ok(OrderState(Win, won.result)),
                 p.state.(balance := p.state.balance + won.amount + won.result,
                          orders := p.state.orders[id := won]),
                 p.pos)
        else if pick == Loss then
          var lost := o.(status := Loss, result := -o.amount);
          Step(Ok(OrderState(Loss, lost.result)), a.(orders := a.orders[id := lost]), pos + 1)
        else
          var pending := o.(status := Open, result := 0.0);
          Step(Ok(OrderState(Open, 0.0)), a.(orders := a.orders[id := pending]), pos + 1)
  }

  /** The body of an operation: what `func()` does inside the wrapper. */
  function Body(cfg: Config, env: Entropy, op: Op, a: Account, pos: nat): (s: Step)
    decreases Rank(op), 1, 0
    ensures s.pos >= pos
    ensures s.result.Ok? ==> Fits(op, s.result.value)
    ensures ReadOnly(op) ==> s.state == a
  {
    match op
    case Quote(symbol) => QuoteBody(a, pos, symbol)
    case History(symbol, startDate, endDate) => HistoryBody(a, pos, symbol, startDate, endDate)
    case Payout(symbol) => PayoutBody(a, pos, symbol)
    case PlaceOrder(symbol, direction, amount) => PlaceOrderBody(a, pos, symbol, direction, amount)
    case CheckStatus(id) => CheckStatusBody(cfg, env, a, pos, id)
    case Cancel(id) => CancelBody(a, pos, id)
  }

  /** `_with_retry(func)` entered with `attempts` failures already counted:
      each attempt makes one draw; an injected outage, or an outage raised by
      the body itself, counts a failure and is re-raised once the count reaches
      `max_retries`; anything else the body returns or raises ends the call. */
  function Retry(cfg: Config, env: Entropy, op: Op, a: Account, pos: nat, attempts: nat): (r: Step)
    decreases Rank(op), 2, Budget(cfg) - attempts
    ensures r.pos > pos
    ensures r.result.Ok? ==> Fits(op, r.result.value)
    ensures ReadOnly(op) ==> r.state == a
  {
    if Injected(cfg, env, pos) then
      if attempts + 1 >= cfg.maxRetries then Step(Err(APIUnavailable), a, pos + 1)
      else Retry(cfg, env, op, a, pos + 1, attempts + 1)
    else
      var b := Body(cfg, env, op, a, pos + 1);
      if b.result == Err(APIUnavailable) && attempts + 1 < cfg.maxRetries
      then Retry(cfg, env, op, b.state, b.pos, attempts + 1)
      else b
  }

  /** A public call: the wrapper entered with no failures counted. */
  function Run(cfg: Config, env: Entropy, op: Op, a: Account, pos: nat): Step {
    Retry(cfg, env, op, a, pos, 0)
  }

  /** A caller's sequence of wrapped calls, each starting where the previous
      one left the account and the random stream. */
  function Session(cfg: Config, env: Entropy, ops: seq<Op>, a: Account, pos: nat): (Account, nat)
    decreases |ops|
  {
    if ops == [] then (a, pos)
    else
      var s := Run(cfg, env, ops[0], a, pos);
      Session(cfg, env, ops[1..], s.state, s.pos)
  }
}
