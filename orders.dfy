/** The account state of a session: its balance, its order table and its
    order counter, the invariant that ties them together, and the accounting
    that says how the balance follows from the orders. */
module Orders {
  import opened Market

  datatype Status = Open | Win | Loss | Cancelled

  /** The three outcomes `random.choice` can draw when an open order is resolved. */
  type Outcome = s: Status | s != Cancelled witness Open

  /** The `Order` dataclass. */
  datatype Order = Order(
    id: int,
    symbol: string,
    direction: string,
    amount: real,
    status: Status,
    result: real)

  /** The mutable state of an `IQOption` object: `_balance`, `_orders`, `_order_counter`. */
  datatype Account = Account(balance: real, orders: map<int, Order>, counter: int)

  function InitialBalance(accountType: string): real {
    if IsDemo(accountType) then DemoBalance else 0.0
  }

  /** A fresh session: no orders, counter 0, balance by account type. */
  function Init(accountType: string): (a: Account)
    ensures Valid(a) && a.orders == map[] && a.counter == 0
    ensures Balanced(a, InitialBalance(accountType))
  {
    Account(InitialBalance(accountType), map[], 0)
  }

  /** What every stored order satisfies: its key is its id, it was created
      from validated arguments, and its result matches its status (a won
      order's result is left free, see `AccountProperties.WinWithoutCredit`). */
  predicate WellFormed(k: int, o: Order) {
    && o.id == k
    && o.symbol in Symbols
    && o.direction in Directions
    && o.amount > 0.0
    && (o.status == Open || o.status == Cancelled ==> o.result == 0.0)
    && (o.status == Loss ==> o.result == -o.amount)
  }

  /** The ids in use are exactly 1 .. counter, each naming a well-formed order. */
  ghost predicate Valid(a: Account) {
    && a.counter >= 0
    && (forall k :: k in a.orders <==> 1 <= k <= a.counter)
    && (forall k :: k in a.orders ==> WellFormed(k, a.orders[k]))
  }

  /** What one order has added to the balance since it was placed: the stake is
      still out for an open or lost order, a won order has brought its net
      payout, a cancelled one nothing. */
  function Contribution(o: Order): real {
    match o.status
    case Open => -o.amount
    case Loss => -o.amount
    case Win => o.result
    case Cancelled => 0.0
  }

  /** The sum of the contributions of the orders with ids 1 .. n. */
  function Net(orders: map<int, Order>, n: int): real
    decreases n
  {
    if n <= 0 then 0.0
    else Net(orders, n - 1) + (if n in orders then Contribution(orders[n]) else 0.0)
  }

  /** The balance is the initial balance plus every order's contribution. */
  predicate Balanced(a: Account, initial: real) {
    a.balance == initial + Net(a.orders, a.counter)
  }

  /** Storing `o` under id `k` changes the sum by the change of that one contribution. */
  lemma {:induction false} NetAssign(orders: map<int, Order>, k: int, o: Order, n: int)
    ensures Net(orders[k := o], n) ==
      Net(orders, n) + (if 1 <= k <= n
                        then Contribution(o) - (if k in orders then Contribution(orders[k]) else 0.0)
                        else 0.0)
    decreases n
  {
    if n > 0 {
      NetAssign(orders, k, o, n - 1);
    }
  }

  /** An order keeps its identity and its terms, and once it has left `Open` it never changes. */
  predicate Successor(o: Order, p: Order) {
    && p.id == o.id
    && p.symbol == o.symbol
    && p.direction == o.direction
    && p.amount == o.amount
    && (o.status != Open ==> p == o)
  }

  /** How an account may evolve: the counter never goes back, no order is
      removed, and every order is a successor of what it was. */
  ghost predicate Evolves(a: Account, b: Account) {
    && a.counter <= b.counter
    && (forall k :: k in a.orders ==> k in b.orders && Successor(a.orders[k], b.orders[k]))
  }

  lemma EvolvesTransitive(a: Account, b: Account, c: Account)
    requires Evolves(a, b) && Evolves(b, c)
    ensures Evolves(a, c)
  {
  }
}
