/** The in-memory ledger: an append-only list of income and outcome
    transactions and the balance computed from it. Values are integers
    (cents). */
module Transactions {

  import Folds

  datatype Kind = Income | Outcome

  datatype Transaction = Transaction(title: string, value: int, kind: Kind)

  datatype Balance = Balance(income: int, outcome: int, total: int)

  /** `transactions.map(t => t.type === kind ? t.value : 0)`. */
  function ValuesOf(ts: seq<Transaction>, kind: Kind): (vs: seq<int>)
    ensures |vs| == |ts|
    ensures forall i :: 0 <= i < |ts| ==> vs[i] == if ts[i].kind == kind then ts[i].value else 0
  {
    seq(|ts|, i requires 0 <= i < |ts| => if ts[i].kind == kind then ts[i].value else 0)
  }

  /** The sum of the values of the transactions of one kind, oldest first. */
  function SumOfKind(ts: seq<Transaction>, kind: Kind): int
  {
    if ts == [] then 0
    else SumOfKind(ts[..|ts| - 1], kind) + (if ts[|ts| - 1].kind == kind then ts[|ts| - 1].value else 0)
  }

  lemma {:induction false} ValuesSum(ts: seq<Transaction>, kind: Kind)
    ensures Folds.Sum(ValuesOf(ts, kind)) == SumOfKind(ts, kind)
  {
    if ts != [] {
      var last := ts[|ts| - 1];
      ValuesSum(ts[..|ts| - 1], kind);
      assert ValuesOf(ts, kind) == ValuesOf(ts[..|ts| - 1], kind) + [if last.kind == kind then last.value else 0];
      Folds.SumAppend(ValuesOf(ts[..|ts| - 1], kind), if last.kind == kind then last.value else 0);
    }
  }

  /** `getBalance` on a list of transactions: income and outcome are the sums
      of the values of their kind, and the total is their difference. */
  function BalanceOf(ts: seq<Transaction>): (b: Balance)
    ensures b.income == SumOfKind(ts, Income)
    ensures b.outcome == SumOfKind(ts, Outcome)
    ensures b.total == b.income - b.outcome
  {
    ValuesSum(ts, Income);
    ValuesSum(ts, Outcome);
    var income := Folds.ReduceAdd(0, ValuesOf(ts, Income));
    var outcome := Folds.ReduceAdd(0, ValuesOf(ts, Outcome));
    Balance(income, outcome, income - outcome)
  }

  /** An empty ledger balances to zero. */
  lemma EmptyBalance()
    ensures BalanceOf([]) == Balance(0, 0, 0)
  {
  }

  /** Appending an income of `v` raises income and total by `v`; appending an
      outcome of `v` raises outcome by `v` and lowers the total by `v`. */
  lemma AppendBalance(ts: seq<Transaction>, t: Transaction)
    ensures var b := BalanceOf(ts);
      BalanceOf(ts + [t]) == match t.kind
        case Income => Balance(b.income + t.value, b.outcome, b.total + t.value)
        case Outcome => Balance(b.income, b.outcome + t.value, b.total - t.value)
  {
    assert (ts + [t])[..|ts|] == ts;
  }

  class TransactionsRepository {
    var transactions: seq<Transaction>

    /** A new repository holds no transactions. */
    constructor ()
      ensures transactions == []
    {
      transactions := [];
    }

    /** `all`: the transactions in the order they were created. */
    method All() returns (r: seq<Transaction>)
      ensures r == transactions
    {
      r := transactions;
    }

    /** `getBalance`; as a function it cannot change the transactions. */
    function GetBalance(): (b: Balance)
      reads this
      ensures b.income == SumOfKind(transactions, Income)
      ensures b.outcome == SumOfKind(transactions, Outcome)
      ensures b.total == b.income - b.outcome
    {
      BalanceOf(transactions)
    }

    /** `create`: appends exactly one transaction at the end and returns it. */
    method Create(title: string, value: int, kind: Kind) returns (t: Transaction)
      modifies this
      ensures t == Transaction(title, value, kind)
      ensures transactions == old(transactions) + [t]
    {
      t := Transaction(title, value, kind);
      transactions := transactions + [t];
    }
  }

  /** Two creates on a new repository: `all` lists them in creation order
      and the balance nets the outcome against the income. */
  method LedgerExample() returns (all: seq<Transaction>, balance: Balance)
    ensures all == [Transaction("salary", 5000, Income), Transaction("rent", 1500, Outcome)]
    ensures balance == Balance(5000, 1500, 3500)
  {
    var repository := new TransactionsRepository();
    var salary := repository.Create("salary", 5000, Income);
    var rent := repository.Create("rent", 1500, Outcome);
    all := repository.All();
    AppendBalance([], salary);
    AppendBalance([salary], rent);
    balance := repository.GetBalance();
  }
}
