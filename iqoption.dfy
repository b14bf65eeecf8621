/** The `IQOption` client: a session object whose methods update its balance,
    order table and counter in place. Each public method runs its operation
    body through the retry loop, and each is proved to do exactly what
    `Engine.Run` says. The random generator is the session's `entropy`,
    read at position `drawn`. */
module Client {
  import opened Outcomes
  import opened Market
  import opened Orders
  import opened Engine

  class IQOption {
    const accountType: string
    const config: Config
    const entropy: Entropy

    var balance: real
    var orders: map<int, Order>
    var orderCounter: int
    var drawn: nat

    /** The account state held in the fields. */
    function State(): Account
      reads this
    {
      Account(balance, orders, orderCounter)
    }

    constructor (accountType: string, failChance: real, maxRetries: int, entropy: Entropy)
      ensures State() == Init(accountType) && drawn == 0
      ensures this.accountType == accountType && config == Config(failChance, maxRetries)
      ensures this.entropy == entropy
    {
      this.accountType := accountType;
      config := Config(failChance, maxRetries);
      this.entropy := entropy;
      balance := if Upper(accountType) == "DEMO" then DemoBalance else 0.0;
      orders := map[];
      orderCounter := 0;
      drawn := 0;
    }

    /** `balance()`: a plain read, not routed through the wrapper. */
    function Balance(): (b: real)
      reads this
      ensures b == State().balance
    {
      balance
    }

    /** One call to `random.random()`. */
    method RandomUnit() returns (u: Unit)
      modifies this`drawn
      ensures u == entropy.uniform(old(drawn)) && drawn == old(drawn) + 1
    {
      u := entropy.uniform(drawn);
      drawn := drawn + 1;
    }

    /** One call to `random.choice(["win", "loss", "open"])`. */
    method RandomChoice() returns (s: Outcome)
      modifies this`drawn
      ensures s == entropy.choice(old(drawn)) && drawn == old(drawn) + 1
    {
      s := entropy.choice(drawn);
      drawn := drawn + 1;
    }

    /** `_simulate_api_call`: reports whether this attempt is rejected as unavailable. */
    method SimulateApiCall() returns (unavailable: bool)
      modifies this`drawn
      ensures unavailable == Injected(config, entropy, old(drawn)) && drawn == old(drawn) + 1
    {
      var u := RandomUnit();
      unavailable := u < config.failChance;
    }

    /** `_with_retry`. */
    method WithRetry(op: Op) returns (r: Result<Value>)
      modifies this
      decreases Rank(op), 3
      ensures Step(r, State(), drawn) == Retry(config, entropy, op, old(State()), old(drawn), 0)
    {
      var attempts: nat := 0;
      while true
        invariant attempts < Budget(config)
        invariant Retry(config, entropy, op, State(), drawn, attempts)
               == Retry(config, entropy, op, old(State()), old(drawn), 0)
        decreases Budget(config) - attempts
      {
        var unavailable := SimulateApiCall();
        if unavailable {
          r := Err(APIUnavailable);
        } else {
          r := Invoke(op);
        }
        if r != Err(APIUnavailable) {
          return;
        }
        attempts := attempts + 1;
        if attempts >= config.maxRetries {
          return;
        }
      }
    }

    /** Runs the body of `op`: the `func()` of the wrapper. */
    method Invoke(op: Op) returns (r: Result<Value>)
      modifies this
      decreases Rank(op), 2
      ensures Step(r, State(), drawn) == Body(config, entropy, op, old(State()), old(drawn))
    {
      match op
      case Quote(symbol) => r := QuoteImpl(symbol);
      case History(symbol, startDate, endDate) => r := HistoryImpl(symbol, startDate, endDate);
      case Payout(symbol) => r := PayoutImpl(symbol);
      case PlaceOrder(symbol, direction, amount) => r := PlaceOrderImpl(symbol, direction, amount);
      case CheckStatus(id) => r := CheckOrderStatusImpl(id);
      case Cancel(id) => r := CancelOrderImpl(id);
    }

    method QuoteImpl(symbol: string) returns (r: Result<Value>)
      modifies this`drawn
      ensures Step(r, State(), drawn) == QuoteBody(old(State()), old(drawn), symbol)
    {
      if symbol !in Symbols {
        return Err(SymbolNotFound(symbol));
      }
      var _ := RandomUnit();  // the price
      r := Ok(QuoteOf(symbol));
    }

    /** One candle per minute from `startDate` up to and including `endDate`. */
    method HistoryImpl(symbol: string, startDate: int, endDate: int) returns (r: Result<Value>)
      modifies this`drawn
      ensures Step(r, State(), drawn) == HistoryBody(old(State()), old(drawn), symbol, startDate, endDate)
    {
      if symbol !in Symbols {
        return Err(SymbolNotFound(symbol));
      }
      if startDate >= endDate {
        return Err(ValueError(EmptyDateRange));
      }
      var data: seq<int> := [];
      var current := startDate;
      while current <= endDate
        invariant data + MinuteRange(current, endDate) == MinuteRange(startDate, endDate)
        invariant drawn == old(drawn) + DrawsPerCandle * |data|
        decreases endDate - current
      {
        // high, low, close and volume each take one draw
        drawn := drawn + DrawsPerCandle;
        data := data + [current];
        current := current + Minute;
      }
      assert data == data + MinuteRange(current, endDate);
      r := Ok(Candles(data));
    }

    method PayoutImpl(symbol: string) returns (r: Result<Value>)
      ensures Step(r, State(), drawn) == PayoutBody(State(), drawn, symbol)
    {
      if symbol !in Symbols {
        return Err(SymbolNotFound(symbol));
      }
      r := Ok(Rate(PayoutRate));
    }

    method PlaceOrderImpl(symbol: string, direction: string, amount: real) returns (r: Result<Value>)
      modifies this`balance, this`orders, this`orderCounter
      ensures Step(r, State(), drawn) == PlaceOrderBody(old(State()), drawn, symbol, direction, amount)
    {
      if symbol !in Symbols {
        return Err(SymbolNotFound(symbol));
      }
      if direction !in Directions {
        return Err(ValueError(BadDirection));
      }
      if amount <= 0.0 {
        return Err(ValueError(NonPositiveAmount));
      }
      orderCounter := orderCounter + 1;
      var id := orderCounter;
      orders := orders[id := Order(id, symbol, direction, amount, Open, 0.0)];
      balance := balance - amount;
      r := Ok(OrderId(id));
    }

    method CheckOrderStatusImpl(id: int) returns (r: Result<Value>)
      modifies this
      decreases 1, 1
      ensures Step(r, State(), drawn) == CheckStatusBody(config, entropy, old(State()), old(drawn), id)
    {
      if id !in orders {
        return Err(OrderConflict(UnknownOrder(id)));
      }
      var order := orders[id];
      if order.status == Open {
        var pick := RandomChoice();
        order := order.(status := pick);
        orders := orders[id := order];
        if pick == Win {
          var payout := GetPayoutEstimate(order.symbol);
          if payout.Err? {
            return payout;
          }
          order := order.(result := order.amount * payout.value.rate);
          orders := orders[id := order];
          balance := balance + order.amount + order.result;
        } else if pick == Loss {
          order := order.(result := -order.amount);
          orders := orders[id := order];
        } else {
          order := order.(result := 0.0);
          orders := orders[id := order];
        }
      }
      r := Ok(OrderState(order.status, order.result));
    }

    method CancelOrderImpl(id: int) returns (r: Result<Value>)
      modifies this`balance, this`orders
      ensures Step(r, State(), drawn) == CancelBody(old(State()), drawn, id)
    {
      if id !in orders {
        return Err(OrderConflict(UnknownOrder(id)));
      }
      var order := orders[id];
      if order.status != Open {
        return Err(OrderConflict(NotCancellable));
      }
      order := order.(status := Cancelled);
      balance := balance + order.amount;
      order := order.(result := 0.0);
      orders := orders[id := order];
      r := Ok(Flag(true));
    }

    method GetRealTimeQuote(symbol: string) returns (r: Result<Value>)
      modifies this
      ensures Step(r, State(), drawn) == Run(config, entropy, Quote(symbol), old(State()), old(drawn))
    {
      r := WithRetry(Quote(symbol));
    }

    method GetHistory(symbol: string, startDate: int, endDate: int) returns (r: Result<Value>)
      modifies this
      ensures Step(r, State(), drawn) == Run(config, entropy, History(symbol, startDate, endDate), old(State()), old(drawn))
    {
      r := WithRetry(History(symbol, startDate, endDate));
    }

    method GetPayoutEstimate(symbol: string) returns (r: Result<Value>)
      modifies this
      decreases 0, 4
      ensures Step(r, State(), drawn) == Run(config, entropy, Payout(symbol), old(State()), old(drawn))
    {
      r := WithRetry(Payout(symbol));
    }

    method PlaceOrder(symbol: string, direction: string, amount: real) returns (r: Result<Value>)
      modifies this
      ensures Step(r, State(), drawn) == Run(config, entropy, Engine.PlaceOrder(symbol, direction, amount), old(State()), old(drawn))
    {
      r := WithRetry(Engine.PlaceOrder(symbol, direction, amount));
    }

    method CheckOrderStatus(id: int) returns (r: Result<Value>)
      modifies this
      ensures Step(r, State(), drawn) == Run(config, entropy, CheckStatus(id), old(State()), old(drawn))
    {
      r := WithRetry(CheckStatus(id));
    }

    method CancelOrder(id: int) returns (r: Result<Value>)
      modifies this
      ensures Step(r, State(), drawn) == Run(config, entropy, Cancel(id), old(State()), old(drawn))
    {
      r := WithRetry(Cancel(id));
    }
  }
}
