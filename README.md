# ejtraderIQ — a verified model of the simulated broker client

`ejtraderIQ` is a local stand-in for a binary-options broker API. An
`IQOption` session holds a balance, a table of orders and an order counter.
Every public operation except `balance()` runs inside a retry wrapper. On each
attempt the wrapper draws a random number. If the number is below
`fail_chance`, the attempt fails with `APIUnavailableError` before the
operation body runs. The wrapper retries only that error, and it gives up once
`max_retries` attempts have failed. Orders are placed `open`. A later status
check resolves an open order at random into `win`, `loss` or `open`. An open
order can also be cancelled.

This project models that core in Dafny:

- `outcomes.dfy` (module `Outcomes`): the exception classes (`SymbolNotFoundError`, `ValueError`,
  `OrderConflictError`, `APIUnavailableError`) and the `Result` of an operation.
- `market.dfy` (module `Market`): the three configured symbols, the two directions, the 0.80 payout,
  the demo starting balance, `str.upper()`, and the minute-by-minute candle times of `get_history`.
- `orders.dfy` (module `Orders`): the `Order` record, the account state (`_balance`, `_orders`,
  `_order_counter`), the account invariant `Valid` and the accounting predicate `Balanced`.
  `Balanced` says: balance = initial − Σ amount over open and lost orders + Σ result over won orders.
- `engine.dfy` (module `Engine`): the retry wrapper `Retry` and the operation bodies, written as functions.
  Randomness is an explicit `Entropy`. It says what the i-th call into the generator returns, either as
  a uniform draw in [0, 1) or as the three-way choice. A position counts the calls made so far.
- `iqoption.dfy` (module `Client`): the `IQOption` class. Its methods update the fields in place, and
  `_with_retry` is a `while` loop. Each method is proved to produce exactly the result, the new state
  and the new stream position that `Engine` gives.
- `retry_properties.dfy` and `account_properties.dfy`: the lemmas about the wrapper and the order state machine.

Behaviour of the code worth knowing:

- An unknown order id raises `OrderConflictError`. There is no separate not-found error.
- `max_retries` below 1 still allows exactly one attempt.
- `balance()` is a plain read. It is not routed through the wrapper.
- Injection happens before the body runs. So a call with an unknown symbol raises `APIUnavailableError`,
  not `SymbolNotFoundError`, when every attempt is an injected outage. `UnknownSymbolRejected` states both outcomes.
- A win is not always credited exactly once. `check_order_status` stores the drawn status before it calls
  `get_payout_estimate`, and that call goes through the wrapper too. If the nested call raises
  `APIUnavailableError`, the outer wrapper catches it and runs the body again. The order is no longer open,
  so the check reports `("win", 0.0)` and nothing is ever credited. The model keeps this behaviour.
  `WinWithoutCredit` exhibits it on a concrete input. The balance invariant is proved only when
  `fail_chance <= 0` (`RunKeepsBalanced`, `SessionConservesBalance`). The structural invariant holds for
  every configuration (`RetryKeepsValid`, `SessionKeepsValid`).

## Model

| member | source | states |
|---|---|---|
| `Market.Upper` | ejtraderIQ/__init__.py:61 | `account_type.upper()` keeps the length and upper-cases every ASCII letter in place |
| `Market.DemoSpelling` | ejtraderIQ/__init__.py:61 | an account type counts as demo iff it is "demo" spelled in any mix of upper and lower case |
| `Market.MinuteRange` | ejtraderIQ/__init__.py:129-147 | the candle times run from the start date in one-minute steps, never past the end date, with (end − start) / minute + 1 entries |
| `Orders.Init` | ejtraderIQ/__init__.py:61-63 | a new session has no orders, counter 0, a balance set by account type; the account is valid and balanced |
| `AccountProperties.InitialAccount` | ejtraderIQ/__init__.py:61 | the starting balance is 1000 for a demo account and 0 otherwise |
| `Engine.Body` | ejtraderIQ/__init__.py:106-236 | an operation body never moves the stream back; on success it returns the value its operation promises (payout exactly 0.80, cancel `True`); quote, history and payout never change the account |
| `Engine.Retry` | ejtraderIQ/__init__.py:84-93 | the wrapper always draws at least once; on success it returns the value its operation promises; read-only operations leave the account unchanged whatever the outages |
| `RetryProperties.RetryReturnsFirstPass` | ejtraderIQ/__init__.py:84-93 | after k injected outages within the budget, the first attempt whose draw passes returns (or raises) exactly what the body returns (or raises), domain errors included, without retry |
| `RetryProperties.RetryGivesUp` | ejtraderIQ/__init__.py:84-93 | when every remaining attempt is an injected outage, the wrapper raises `APIUnavailableError` after max(1, `max_retries`) draws and the account is unchanged |
| `RetryProperties.AlwaysUnavailable` | ejtraderIQ/__init__.py:79-93 | with `fail_chance >= 1` every wrapped call raises `APIUnavailableError` and changes nothing; with `max_retries = 1` after a single draw |
| `RetryProperties.NeverUnavailable` | ejtraderIQ/__init__.py:79-93 | with `fail_chance <= 0` a wrapped call is its body run once and never raises `APIUnavailableError`, nested payout call included |
| `RetryProperties.BodyNeverUnavailable` | ejtraderIQ/__init__.py:204-218 | with `fail_chance <= 0` no operation body raises `APIUnavailableError` |
| `RetryProperties.RetryOnSettledBody` | ejtraderIQ/__init__.py:84-93 | a body that always gives the same non-outage outcome and leaves the account alone makes the wrapper give that outcome or the outage, never a changed account |
| `RetryProperties.UnknownSymbolRejected` | ejtraderIQ/__init__.py:107-108 | quote, history, payout or order on an unknown symbol raises `SymbolNotFoundError` (or the outage) and changes nothing; always `SymbolNotFoundError` when `fail_chance = 0` |
| `RetryProperties.UnknownOrderRejected` | ejtraderIQ/__init__.py:205-207 | status check or cancel of an unissued id raises `OrderConflictError` (or the outage) and changes nothing; always `OrderConflictError` when `fail_chance = 0` |
| `RetryProperties.EmptyRangeRejected` | ejtraderIQ/__init__.py:124-127 | history with a valid symbol and start ≥ end raises `ValueError` (or the outage) and changes nothing; always `ValueError` when `fail_chance = 0` |
| `RetryProperties.PlaceOrderRejected` | ejtraderIQ/__init__.py:184-189 | a bad order raises the first failing check's error in the order symbol, direction, amount (or the outage); balance, orders and counter are unchanged |
| `AccountProperties.PlaceOrderOpens` | ejtraderIQ/__init__.py:190-196 | a placed order gets id counter + 1, fresh and above every issued id, is stored open with result 0, debits exactly its amount, leaves other orders alone, and keeps the account valid and balanced |
| `AccountProperties.CheckStatusResolves` | ejtraderIQ/__init__.py:208-217 | resolving an open order: loss stores −amount and credits nothing; open changes nothing; a win with a successful payout stores amount·0.80 and credits amount + result; a win whose payout call fails raises the outage with status win, result 0 and no credit |
| `AccountProperties.CancelRefunds` | ejtraderIQ/__init__.py:230-236 | cancelling an open order stores cancelled with result 0, refunds the amount, returns `True`, and keeps the account valid and balanced |
| `AccountProperties.SettledOrderIsStable` | ejtraderIQ/__init__.py:208-218 | a won, lost or cancelled order is never redrawn: a check returns its stored status and result (or the outage) and a cancel raises `OrderConflictError`, both without changing anything |
| `AccountProperties.ReportedStatusIsStored` | ejtraderIQ/__init__.py:218 | the status and result a wrapped check reports are those stored in the order afterwards |
| `AccountProperties.CheckReportsStored` | ejtraderIQ/__init__.py:218 | the status and result one check body reports are those stored in the order afterwards |
| `AccountProperties.RepeatedCheckAgrees` | ejtraderIQ/__init__.py:208-218 | once a check reports a settled status, every later check, after any sequence of other calls, reports the same status and result (or the outage) and changes nothing |
| `AccountProperties.PlaceThenCancel` | tests/test_api.py:24-32 | placing then cancelling before any check restores the balance; the order then reads cancelled and a second cancel raises `OrderConflictError` |
| `AccountProperties.HistoryCovers` | ejtraderIQ/__init__.py:128-147 | a valid history request returns at least one candle, starting at the start date, one minute apart, the last one within a minute of the end date |
| `AccountProperties.BodyKeepsValid` | ejtraderIQ/__init__.py:183-236 | every operation body keeps ids exactly 1..counter, never removes an order, never changes an order's terms, and never touches a settled order |
| `AccountProperties.RetryKeepsValid` | ejtraderIQ/__init__.py:84-93 | the same holds for every wrapped call, whatever the outages |
| `AccountProperties.BodyKeepsBalanced` | ejtraderIQ/__init__.py:190-236 | with `fail_chance <= 0` every operation body keeps the balance equal to the initial balance plus the orders' contributions |
| `AccountProperties.RunKeepsBalanced` | ejtraderIQ/__init__.py:190-236 | with `fail_chance <= 0` every public call debits each stake once, credits a win's amount + result once and refunds a cancel once |
| `AccountProperties.SessionKeepsValid` | ejtraderIQ/__init__.py:180-238 | any sequence of calls keeps the account valid and only lets it evolve (ids unique and increasing, settled orders frozen) |
| `AccountProperties.SessionConservesBalance` | ejtraderIQ/__init__.py:180-238 | with `fail_chance <= 0` the balance never drifts from the orders over any sequence of calls |
| `AccountProperties.WinWithoutCredit` | ejtraderIQ/__init__.py:208-218 | a concrete run where the nested payout call fails twice: the check reports ("win", 0.0), the balance stays 990, and the account is no longer balanced |
| `Client.IQOption.Balance` | ejtraderIQ/__init__.py:97-100 | a plain read of the balance field, not routed through the wrapper: no draw, no outage, no state change |
| `Client.IQOption.constructor` | ejtraderIQ/__init__.py:49-66 | a new session holds the initial account state, the configuration and the random stream at position 0 |
| `Client.IQOption.RandomUnit` | ejtraderIQ/__init__.py:80 | one `random.random()` call reads the stream at the current position and advances it |
| `Client.IQOption.RandomChoice` | ejtraderIQ/__init__.py:209 | one `random.choice` call reads the stream at the current position and advances it |
| `Client.IQOption.SimulateApiCall` | ejtraderIQ/__init__.py:79-82 | an attempt is rejected iff its draw is below `fail_chance` |
| `Client.IQOption.WithRetry` | ejtraderIQ/__init__.py:84-94 | the retry loop's result, new state and stream position are exactly those of `Engine.Retry` |
| `Client.IQOption.Invoke` | ejtraderIQ/__init__.py:89 | running `func()` has exactly the effect of `Engine.Body` |
| `Client.IQOption.QuoteImpl` | ejtraderIQ/__init__.py:106-113 | the quote body checks the symbol and draws once for the price |
| `Client.IQOption.HistoryImpl` | ejtraderIQ/__init__.py:123-151 | the candle loop emits exactly `MinuteRange(start, end)` and draws four times per candle |
| `Client.IQOption.PayoutImpl` | ejtraderIQ/__init__.py:159-162 | the payout body checks the symbol and returns 0.80 |
| `Client.IQOption.PlaceOrderImpl` | ejtraderIQ/__init__.py:183-196 | the in-place order placement matches `Engine.PlaceOrderBody` |
| `Client.IQOption.CheckOrderStatusImpl` | ejtraderIQ/__init__.py:204-218 | the in-place resolution, nested payout call included, matches `Engine.CheckStatusBody` |
| `Client.IQOption.CancelOrderImpl` | ejtraderIQ/__init__.py:226-236 | the in-place cancellation matches `Engine.CancelBody` |
| `Client.IQOption.GetRealTimeQuote` | ejtraderIQ/__init__.py:103-115 | a wrapped quote call |
| `Client.IQOption.GetHistory` | ejtraderIQ/__init__.py:118-153 | a wrapped history call |
| `Client.IQOption.GetPayoutEstimate` | ejtraderIQ/__init__.py:156-164 | a wrapped payout call |
| `Client.IQOption.PlaceOrder` | ejtraderIQ/__init__.py:180-198 | a wrapped order placement |
| `Client.IQOption.CheckOrderStatus` | ejtraderIQ/__init__.py:201-220 | a wrapped status check |
| `Client.IQOption.CancelOrder` | ejtraderIQ/__init__.py:223-238 | a wrapped cancellation |

## Left out

- Logging (logger creation, handlers and every `info`/`error` call): output only, with no effect on state.
- The optional pandas `DataFrame` formatting: a foreign library used only to shape the output.
- Prices: the quote price, the candle open/high/low/close values, volumes, `round(..., 6)` and the time of a quote.
  These are floating-point values and a wall-clock read. A quote returns only its symbol and a candle only its time.
  The generator calls they make are still counted: one per quote and four per candle.
- `stream_market_depth`: it calls a caller-supplied callback. Its only logic is the symbol check, which it shares with the modelled operations.
- The stored `email` and `password`: they are never used.
- Binary floating point: amounts, balances and results are exact reals. Float rounding and NaN amounts (which pass the `amount <= 0` check) are not modelled.
- Market.Upper: models ASCII letters only. Python's Unicode case mapping of other characters is not modelled.
- The `random` module: it is replaced by an explicit stream of draws. `randint` counts as one call into the generator.
- `datetime`: times are integer microseconds, the resolution of a `datetime`. Mixing naive and aware datetimes is not modelled.
- Client.IQOption.HistoryImpl: times are unbounded, so `datetime`'s year 1–9999 range is not modelled. In the code, a history whose last candle lies within one minute of `datetime.max` raises `OverflowError` when the step at ejtraderIQ/__init__.py:147 passes it; the wrapper does not catch that error. `MinuteRange`, `HistoryCovers`, `GetHistory` and `HistoryImpl` instead return the candles for such a range.
- Aliasing of `Order` objects: orders are values in a map that the methods reassign. No `Order` object ever leaves the session, so no caller can observe the difference.
- `fail_chance`, `max_retries` and `available_symbols` are public attributes a caller could reassign. The model fixes them for the session's lifetime.
