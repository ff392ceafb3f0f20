/** Transactions and the customer who owns them. */
module Accounts {

  /**
   * The point in time a transaction records. The source reads the clock
   * (`new Date()`); here the caller passes the reading in, and nothing in the
   * ledger ever inspects it.
   */
  type Date = int

  /** An immutable record of one posted amount. */
  datatype Transaction = Transaction(amount: real, date: Date)

  /** The sum of the amounts, as the reference meaning of a balance. */
  function Sum(ts: seq<Transaction>): real
  {
    if ts == [] then 0.0 else ts[0].amount + Sum(ts[1..])
  }

  /** `transactions.reduce((total, current) => total + current.amount, total)`: a left fold. */
  function Reduce(total: real, ts: seq<Transaction>): (r: real)
    ensures r == total + Sum(ts)
    decreases ts
  {
    if ts == [] then total else Reduce(total + ts[0].amount, ts[1..])
  }

  predicate NonNegative(ts: seq<Transaction>)
  {
    forall i :: 0 <= i < |ts| ==> ts[i].amount >= 0.0
  }

  /** Appending one transaction adds exactly its amount to the sum. */
  lemma {:induction false} SumAppend(ts: seq<Transaction>, t: Transaction)
    ensures Sum(ts + [t]) == Sum(ts) + t.amount
  {
    if ts != [] {
      assert (ts + [t])[1..] == ts[1..] + [t];
      SumAppend(ts[1..], t);
    }
  }

  /** A history of non-negative amounts has a non-negative sum. */
  lemma {:induction false} SumNonNegative(ts: seq<Transaction>)
    requires NonNegative(ts)
    ensures Sum(ts) >= 0.0
  {
    if ts != [] {
      SumNonNegative(ts[1..]);
    }
  }

  /** Extending a history by non-negative amounts never lowers its sum. */
  lemma {:induction false} SumMonotone(ts: seq<Transaction>, more: seq<Transaction>)
    requires NonNegative(more)
    ensures Sum(ts + more) >= Sum(ts)
  {
    if ts == [] {
      assert ts + more == more;
      SumNonNegative(more);
    } else {
      assert (ts + more)[1..] == ts[1..] + more;
      SumMonotone(ts[1..], more);
    }
  }

  /**
   * A customer: a name and an identifier fixed at construction, and an
   * append-only history of transactions. The same object may be shared by
   * several branches.
   */
  class Customer {
    const name: string
    const id: int
    var transactions: seq<Transaction>

    /** Every recorded amount is non-negative: `AddTransaction` is the only writer. */
    ghost predicate Valid()
      reads this
    {
      NonNegative(transactions)
    }

    constructor (name: string, id: int)
      ensures this.name == name && this.id == id
      ensures transactions == [] && Valid()
    {
      this.name := name;
      this.id := id;
      transactions := [];
    }

    /** `getBalance`: the sum of the transaction amounts. */
    function Balance(): (r: real)
      reads this
      ensures r == Sum(transactions)
    {
      Reduce(0.0, transactions)
    }

    /**
     * `addTransaction`: a negative amount is rejected and nothing changes;
     * otherwise one transaction carrying `amount` and the clock reading `now`
     * is appended and the balance grows by exactly `amount`.
     */
    method AddTransaction(amount: real, now: Date) returns (ok: bool)
      modifies this
      ensures ok <==> amount >= 0.0
      ensures transactions == if ok then old(transactions) + [Transaction(amount, now)] else old(transactions)
      ensures Balance() == old(Balance()) + (if ok then amount else 0.0)
      ensures Balance() >= old(Balance())
      ensures old(Valid()) ==> Valid()
    {
      if amount < 0.0 {
        return false;
      }
      SumAppend(transactions, Transaction(amount, now));
      transactions := transactions + [Transaction(amount, now)];
      ok := true;
    }
  }

  /** The balance of a customer who only ever went through `AddTransaction` is never negative. */
  lemma BalanceNonNegative(c: Customer)
    requires c.Valid()
    ensures c.Balance() >= 0.0
  {
    SumNonNegative(c.transactions);
  }
}
