/** What the order state machine guarantees: the shape of the account is kept,
    ids are fresh and increasing, settled orders never change, and — as long
    as no outage is injected — the balance is always the initial balance plus
    what the orders have brought. */
module AccountProperties {
  import opened Outcomes
  import opened Market
  import opened Orders
  import opened Engine
  import opened RetryProperties

  /** A demo account starts with 1000, any other with 0, whatever the case of its name. */
  lemma InitialAccount(accountType: string)
    ensures Init(accountType).balance == (if |accountType| == 4
                                            && accountType[0] in {'D', 'd'} && accountType[1] in {'E', 'e'}
                                            && accountType[2] in {'M', 'm'} && accountType[3] in {'O', 'o'}
                                          then 1000.0 else 0.0)
  {
    DemoSpelling(accountType);
  }

  /** A successful `place_order` issues the id after the counter — fresh, and
      above every id already issued — stores an open order with result 0,
      debits exactly the amount and leaves every other order as it was. */
  lemma PlaceOrderOpens(a: Account, pos: nat, symbol: string, direction: string, amount: real, initial: real)
    requires Valid(a)
    requires symbol in Symbols && direction in Directions && amount > 0.0
    ensures var s := PlaceOrderBody(a, pos, symbol, direction, amount);
      var id := a.counter + 1;
      && s.result == Ok(OrderId(id))
      && id !in a.orders
      && (forall k :: k in a.orders ==> k < id)
      && s.state.orders == a.orders[id := Order(id, symbol, direction, amount, Open, 0.0)]
      && s.state.balance == a.balance - amount
      && Valid(s.state) && Evolves(a, s.state)
      && (Balanced(a, initial) ==> Balanced(s.state, initial))
  {
    var id := a.counter + 1;
    var o := Order(id, symbol, direction, amount, Open, 0.0);
    NetAssign(a.orders, id, o, id);
    assert Net(a.orders, id) == Net(a.orders, a.counter);
  }

  /** Resolving an open order: a loss stores result -amount and credits
      nothing; "open" changes nothing at all; a win whose payout call succeeds
      stores amount * 0.80 and credits amount + result. A win whose payout call
      fails raises the outage with the status already "win", the result still
      0 and nothing credited. */
  lemma CheckStatusResolves(cfg: Config, env: Entropy, a: Account, pos: nat, id: int)
    requires Valid(a) && id in a.orders && a.orders[id].status == Open
    ensures var o, s := a.orders[id], CheckStatusBody(cfg, env, a, pos, id);
      && (env.choice(pos) == Loss ==>
            s == Step(Ok(OrderState(Loss, -o.amount)),
                      a.(orders := a.orders[id := o.(status := Loss, result := -o.amount)]), pos + 1))
      && (env.choice(pos) == Open ==>
            s == Step(Ok(OrderState(Open, 0.0)), a, pos + 1))
      && (env.choice(pos) == Win && s.result.Ok? ==>
            var won := o.(status := Win, result := o.amount * PayoutRate);
            && s.result == Ok(OrderState(Win, won.result))
            && s.state == a.(balance := a.balance + o.amount + won.result, orders := a.orders[id := won]))
      && (env.choice(pos) == Win && !Injected(cfg, env, pos + 1) ==> s.result.Ok? && s.pos == pos + 2)
      && (env.choice(pos) == Win && s.result.Err? ==>
            s.result == Err(APIUnavailable) && s.state == a.(orders := a.orders[id := o.(status := Win)]))
  {
    var o := a.orders[id];
    if env.choice(pos) == Open {
      assert o.(status := Open, result := 0.0) == o;
      assert a.orders[id := o] == a.orders;
    }
    if env.choice(pos) == Win {
      var drawn := a.(orders := a.orders[id := o.(status := Win)]);
      if !Injected(cfg, env, pos + 1) {
        assert Retry(cfg, env, Payout(o.symbol), drawn, pos + 1, 0) == PayoutBody(drawn, pos + 2, o.symbol);
      }
      assert drawn.orders[id := o.(status := Win, result := o.amount * PayoutRate)]
          == a.orders[id := o.(status := Win, result := o.amount * PayoutRate)];
      RetryOnSettledBody(cfg, env, Payout(o.symbol), drawn, pos + 1, 0, Ok(Rate(PayoutRate)));
    }
  }

  /** A successful `cancel_order` stores status "cancelled" with result 0,
      refunds the amount and returns `True`. */
  lemma CancelRefunds(a: Account, pos: nat, id: int, initial: real)
    requires Valid(a) && id in a.orders && a.orders[id].status == Open
    ensures var o, s := a.orders[id], CancelBody(a, pos, id);
      && s.result == Ok(Flag(true))
      && s.state.orders == a.orders[id := o.(status := Cancelled, result := 0.0)]
      && s.state.balance == a.balance + o.amount
      && s.state.counter == a.counter
      && Valid(s.state) && Evolves(a, s.state)
      && (Balanced(a, initial) ==> Balanced(s.state, initial))
  {
    var o := a.orders[id];
    NetAssign(a.orders, id, o.(status := Cancelled, result := 0.0), a.counter);
  }

  /** A status check on an order that is already won, lost or cancelled draws
      nothing from its outcome and changes nothing: every wrapped check returns
      the stored status and result (or the outage), so repeated checks agree,
      and a cancel raises `OrderConflictError`. */
  lemma SettledOrderIsStable(cfg: Config, env: Entropy, a: Account, pos: nat, id: int)
    requires id in a.orders && a.orders[id].status != Open
    ensures var o := a.orders[id];
      && Run(cfg, env, CheckStatus(id), a, pos).state == a
      && Run(cfg, env, CheckStatus(id), a, pos).result in {Ok(OrderState(o.status, o.result)), Err(APIUnavailable)}
      && Run(cfg, env, Cancel(id), a, pos).state == a
      && Run(cfg, env, Cancel(id), a, pos).result in {Err(OrderConflict(NotCancellable)), Err(APIUnavailable)}
  {
    var o := a.orders[id];
    RetryOnSettledBody(cfg, env, CheckStatus(id), a, pos, 0, Ok(OrderState(o.status, o.result)));
    RetryOnSettledBody(cfg, env, Cancel(id), a, pos, 0, Err(OrderConflict(NotCancellable)));
  }

  /** The status and result a check reports are the ones then stored in the order. */
  lemma {:induction false} ReportedStatusIsStored(
    cfg: Config, env: Entropy, a: Account, pos: nat, attempts: nat, id: int)
    requires Retry(cfg, env, CheckStatus(id), a, pos, attempts).result.Ok?
    ensures var r := Retry(cfg, env, CheckStatus(id), a, pos, attempts);
      && id in r.state.orders
      && r.result.value == OrderState(r.state.orders[id].status, r.state.orders[id].result)
    decreases Budget(cfg) - attempts
  {
    if Injected(cfg, env, pos) {
      if attempts + 1 < cfg.maxRetries {
        ReportedStatusIsStored(cfg, env, a, pos + 1, attempts + 1, id);
      }
    } else {
      var b := Body(cfg, env, CheckStatus(id), a, pos + 1);
      if b.result == Err(APIUnavailable) && attempts + 1 < cfg.maxRetries {
        ReportedStatusIsStored(cfg, env, b.state, b.pos, attempts + 1, id);
      } else {
        CheckReportsStored(cfg, env, a, pos + 1, id);
      }
    }
  }

  lemma CheckReportsStored(cfg: Config, env: Entropy, a: Account, pos: nat, id: int)
    requires CheckStatusBody(cfg, env, a, pos, id).result.Ok?
    ensures var s := CheckStatusBody(cfg, env, a, pos, id);
      && id in s.state.orders
      && s.result.value == OrderState(s.state.orders[id].status, s.state.orders[id].result)
  {
    var o := a.orders[id];
    if o.status == Open && env.choice(pos) == Win {
      var drawn := a.(orders := a.orders[id := o.(status := Win)]);
      var p := Retry(cfg, env, Payout(o.symbol), drawn, pos + 1, 0);
      assert p.state == drawn;
    }
  }

  /** Once a check has reported "win", "loss" or "cancelled", every later check,
      whatever calls were made in between, reports the same status and result
      (or the outage) and credits nothing. */
  lemma RepeatedCheckAgrees(
    cfg: Config, env: Entropy, a: Account, pos: nat, id: int, ops: seq<Op>, p: nat, later: nat)
    requires Valid(a)
    requires Run(cfg, env, CheckStatus(id), a, pos).result.Ok?
    requires Run(cfg, env, CheckStatus(id), a, pos).result.value.status != Open
    ensures var first := Run(cfg, env, CheckStatus(id), a, pos);
      var between := Session(cfg, env, ops, first.state, p).0;
      var again := Run(cfg, env, CheckStatus(id), between, later);
      again.state == between && again.result in {first.result, Err(APIUnavailable)}
  {
    var first := Run(cfg, env, CheckStatus(id), a, pos);
    ReportedStatusIsStored(cfg, env, a, pos, 0, id);
    RetryKeepsValid(cfg, env, CheckStatus(id), a, pos, 0);
    SessionKeepsValid(cfg, env, ops, first.state, p);
    SettledOrderIsStable(cfg, env, Session(cfg, env, ops, first.state, p).0, later, id);
  }

  /** Placing an order and cancelling it before any status check restores the
      balance; the order then reads "cancelled" and a second cancel is refused. */
  lemma PlaceThenCancel(
    cfg: Config, env: Entropy, a: Account, pos: nat, symbol: string, direction: string, amount: real, later: nat)
    requires Valid(a)
    requires symbol in Symbols && direction in Directions && amount > 0.0
    ensures var placed := PlaceOrderBody(a, pos, symbol, direction, amount);
      var id := placed.result.value.id;
      var cancelled := CancelBody(placed.state, pos, id);
      && cancelled.result == Ok(Flag(true))
      && cancelled.state.balance == a.balance
      && Run(cfg, env, Cancel(id), cancelled.state, later).result in
           {Err(OrderConflict(NotCancellable)), Err(APIUnavailable)}
      && Run(cfg, env, CheckStatus(id), cancelled.state, later).result in
           {Ok(OrderState(Cancelled, 0.0)), Err(APIUnavailable)}
  {
    PlaceOrderOpens(a, pos, symbol, direction, amount, 0.0);
    var placed := PlaceOrderBody(a, pos, symbol, direction, amount);
    var id := a.counter + 1;
    CancelRefunds(placed.state, pos, id, 0.0);
    SettledOrderIsStable(cfg, env, CancelBody(placed.state, pos, id).state, later, id);
  }

  /** `get_history` with a valid symbol and `start_date < end_date` returns one
      candle per minute, the first at `start_date` and the last the latest
      minute not after `end_date`, so never an empty history. */
  lemma HistoryCovers(a: Account, pos: nat, symbol: string, startDate: int, endDate: int)
    requires symbol in Symbols && startDate < endDate
    ensures var s := HistoryBody(a, pos, symbol, startDate, endDate);
      && s.result.Ok? && s.state == a
      && var ts := s.result.value.times;
      && |ts| >= 1
      && s.pos == pos + DrawsPerCandle * |ts|
      && ts[0] == startDate
      && (forall i :: 0 <= i < |ts| - 1 ==> ts[i + 1] == ts[i] + Minute)
      && ts[|ts| - 1] <= endDate < ts[|ts| - 1] + Minute
  {
    var ts := MinuteRange(startDate, endDate);
    var n := (endDate - startDate) / Minute;
    assert ts[n] == startDate + n * Minute;
  }

  /** Every operation body keeps the account well formed and only lets it evolve. */
  lemma BodyKeepsValid(cfg: Config, env: Entropy, op: Op, a: Account, pos: nat)
    requires Valid(a)
    ensures Valid(Body(cfg, env, op, a, pos).state)
    ensures Evolves(a, Body(cfg, env, op, a, pos).state)
  {
    if op.PlaceOrder? && op.symbol in Symbols && op.direction in Directions && op.amount > 0.0 {
      PlaceOrderOpens(a, pos, op.symbol, op.direction, op.amount, 0.0);
    }
  }

  /** Every wrapped call, whatever the outages, keeps the account well formed:
      ids stay exactly 1 .. counter, no order is removed, an order's terms
      never change and a settled order is never touched again. */
  lemma {:induction false} RetryKeepsValid(cfg: Config, env: Entropy, op: Op, a: Account, pos: nat, attempts: nat)
    requires Valid(a)
    ensures Valid(Retry(cfg, env, op, a, pos, attempts).state)
    ensures Evolves(a, Retry(cfg, env, op, a, pos, attempts).state)
    decreases Budget(cfg) - attempts
  {
    var r := Retry(cfg, env, op, a, pos, attempts);
    if Injected(cfg, env, pos) {
      if attempts + 1 < cfg.maxRetries {
        RetryKeepsValid(cfg, env, op, a, pos + 1, attempts + 1);
      }
    } else {
      var b := Body(cfg, env, op, a, pos + 1);
      BodyKeepsValid(cfg, env, op, a, pos + 1);
      if b.result == Err(APIUnavailable) && attempts + 1 < cfg.maxRetries {
        RetryKeepsValid(cfg, env, op, b.state, b.pos, attempts + 1);
        EvolvesTransitive(a, b.state, r.state);
      }
    }
  }

  /** With no outage injected, every operation body keeps the balance equal to
      the initial balance plus the orders' contributions. */
  lemma BodyKeepsBalanced(cfg: Config, env: Entropy, op: Op, a: Account, pos: nat, initial: real)
    requires cfg.failChance <= 0.0
    requires Valid(a) && Balanced(a, initial)
    ensures Balanced(Body(cfg, env, op, a, pos).state, initial)
  {
    match op
    case PlaceOrder(symbol, direction, amount) =>
      if symbol in Symbols && direction in Directions && amount > 0.0 {
        PlaceOrderOpens(a, pos, symbol, direction, amount, initial);
      }
    case CheckStatus(id) =>
      if id in a.orders && a.orders[id].status == Open {
        var o := a.orders[id];
        CheckStatusResolves(cfg, env, a, pos, id);
        assert !Injected(cfg, env, pos + 1);
        match env.choice(pos)
        case Win =>
          NetAssign(a.orders, id, o.(status := Win, result := o.amount * PayoutRate), a.counter);
        case Loss =>
          NetAssign(a.orders, id, o.(status := Loss, result := -o.amount), a.counter);
        case Open =>
      }
    case Cancel(id) =>
      if id in a.orders && a.orders[id].status == Open {
        CancelRefunds(a, pos, id, initial);
      }
    case _ =>
  }

  /** With `fail_chance = 0` every public call keeps the balance in step with
      the orders: each stake is debited once, a win credits amount + result
      once, a cancel refunds once. */
  lemma RunKeepsBalanced(cfg: Config, env: Entropy, op: Op, a: Account, pos: nat, initial: real)
    requires cfg.failChance <= 0.0
    requires Valid(a) && Balanced(a, initial)
    ensures Balanced(Run(cfg, env, op, a, pos).state, initial)
  {
    NeverUnavailable(cfg, env, op, a, pos, 0);
    BodyKeepsBalanced(cfg, env, op, a, pos + 1, initial);
  }

  /** Any sequence of calls keeps the account well formed and only lets it evolve. */
  lemma {:induction false} SessionKeepsValid(cfg: Config, env: Entropy, ops: seq<Op>, a: Account, pos: nat)
    requires Valid(a)
    ensures Valid(Session(cfg, env, ops, a, pos).0)
    ensures Evolves(a, Session(cfg, env, ops, a, pos).0)
    decreases |ops|
  {
    if ops != [] {
      var s := Run(cfg, env, ops[0], a, pos);
      RetryKeepsValid(cfg, env, ops[0], a, pos, 0);
      SessionKeepsValid(cfg, env, ops[1..], s.state, s.pos);
      EvolvesTransitive(a, s.state, Session(cfg, env, ops, a, pos).0);
    }
  }

  /** With `fail_chance = 0`, after any sequence of calls on a fresh session the
      balance is the initial balance plus the orders' contributions: no drift. */
  lemma {:induction false} SessionConservesBalance(
    cfg: Config, env: Entropy, ops: seq<Op>, a: Account, pos: nat, initial: real)
    requires cfg.failChance <= 0.0
    requires Valid(a) && Balanced(a, initial)
    ensures Balanced(Session(cfg, env, ops, a, pos).0, initial)
    decreases |ops|
  {
    if ops != [] {
      var s := Run(cfg, env, ops[0], a, pos);
      RunKeepsBalanced(cfg, env, ops[0], a, pos, initial);
      RetryKeepsValid(cfg, env, ops[0], a, pos, 0);
      SessionConservesBalance(cfg, env, ops[1..], s.state, s.pos, initial);
    }
  }

  /** The status is stored before the payout is fetched, so an outage in the
      nested payout call is caught by the outer wrapper, whose retry finds the
      order no longer open: it reports ("win", 0.0) and nothing is ever
      credited. Here a 10-unit order on a demo account draws "win" while both
      nested payout attempts are outages (`fail_chance = 0.5`,
      `max_retries = 2`); the balance stays at 990 and no longer matches the
      orders. */
  lemma WinWithoutCredit()
    ensures var cfg := Config(0.5, 2);
      var uniform: nat -> Unit := i => if i == 2 || i == 3 then 0.1 else 0.9;
      var choice: nat -> Outcome := i => Win;
      var env := Entropy(uniform, choice);
      var a := Account(990.0, map[1 := Order(1, "EURUSD", "buy", 10.0, Open, 0.0)], 1);
      var r := Run(cfg, env, CheckStatus(1), a, 0);
      && Valid(a) && Balanced(a, 1000.0)
      && r.result == Ok(OrderState(Win, 0.0))
      && r.state.balance == 990.0
      && !Balanced(r.state, 1000.0)
  {
    var cfg := Config(0.5, 2);
    var uniform: nat -> Unit := i => if i == 2 || i == 3 then 0.1 else 0.9;
    var choice: nat -> Outcome := i => Win;
    var env := Entropy(uniform, choice);
    var o := Order(1, "EURUSD", "buy", 10.0, Open, 0.0);
    var a := Account(990.0, map[1 := o], 1);
    var drawn := a.(orders := map[1 := o.(status := Win)]);
    assert a.orders[1 := o.(status := Win)] == drawn.orders;
    assert Retry(cfg, env, Payout("EURUSD"), drawn, 3, 1) == Step(Err(APIUnavailable), drawn, 4);
    assert Retry(cfg, env, Payout("EURUSD"), drawn, 2, 0) == Step(Err(APIUnavailable), drawn, 4);
    assert Body(cfg, env, CheckStatus(1), a, 1) == Step(Err(APIUnavailable), drawn, 4);
    assert Retry(cfg, env, CheckStatus(1), drawn, 4, 1) == Step(Ok(OrderState(Win, 0.0)), drawn, 5);
    assert Net(a.orders, 1) == -10.0;
    assert Net(drawn.orders, 1) == 0.0;
  }
}
