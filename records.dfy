/**
 * The records the balance and settlement computations consume and produce.
 * Money is held as a whole number of cents, so the currency arithmetic of the
 * tracker is exact here; the 0.01 tolerance of the floating-point
 * comparisons in calculations.ts becomes the one-cent constant `Tolerance`.
 */
module Records {

  type UserId = string

  /** A user row, as joined onto expenses and splits (email and timestamps are not used). */
  datatype User = User(id: UserId, name: string, color: string)

  /** One participant's share of an expense, joined with that participant's user row. */
  datatype Split = Split(id: string, expenseId: string, userId: UserId, amount: int, user: User)

  /** An expense joined with its payer's user row and its splits. */
  datatype Expense = Expense(
    id: string,
    description: string,
    amount: int,
    paidBy: UserId,
    payer: User,
    splits: seq<Split>)

  /** A user's signed net position in cents: positive is owed money, negative owes money. */
  datatype Balance = Balance(userId: UserId, userName: string, userColor: string, balance: int)

  /** A suggested payment of `amount` cents from user `from` to user `to`. */
  datatype Settlement = Settlement(from: UserId, fromName: string, to: UserId, toName: string, amount: int)

  /** The 0.01 currency-unit tolerance band, in cents. */
  const Tolerance: int := 1

  /** Sum of the balance fields of a sequence of records. */
  function Total(bs: seq<Balance>): int
  {
    if bs == [] then 0 else Total(bs[..|bs| - 1]) + bs[|bs| - 1].balance
  }

  /** Appending a record adds its balance to the total. */
  lemma {:induction false} TotalAppend(bs: seq<Balance>, x: Balance)
    ensures Total(bs + [x]) == Total(bs) + x.balance
  {
    assert (bs + [x])[..|bs|] == bs;
  }

  /** Changing one record's balance changes the total by the difference. */
  lemma {:induction false} TotalUpdate(bs: seq<Balance>, m: nat, x: Balance)
    requires m < |bs|
    ensures Total(bs[m := x]) == Total(bs) - bs[m].balance + x.balance
  {
    if m < |bs| - 1 {
      assert bs[m := x][..|bs| - 1] == bs[..|bs| - 1][m := x];
      TotalUpdate(bs[..|bs| - 1], m, x);
    } else {
      assert bs[m := x][..|bs| - 1] == bs[..|bs| - 1];
    }
  }
  /** No user id occurs in two records. */
  predicate DistinctIds(bs: seq<Balance>)
  {
    forall a, b :: 0 <= a < b < |bs| ==> bs[a].userId != bs[b].userId
  }
}
