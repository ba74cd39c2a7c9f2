/**
 * The page's refresh of the summary whenever the expense list changes: it
 * computes the balances, stores them for the balance panel, and computes the
 * settlements from the very same records. The settlement walk lowers the
 * records it is given, so what the balance panel holds afterwards are the
 * residuals of the walk, not the balances.
 */
module App {
  import opened Records
  import opened Balances
  import opened Settlements

  /**
   * The refresh as written: `shown` is what the balance panel receives and
   * `settlements` what the settlement panel receives. Whenever the splits of
   * every expense add up to its amount and no user's position is exactly one
   * cent either way, the panel shows every user at zero.
   */
  method RefreshView(expenses: seq<Expense>) returns (shown: seq<Balance>, settlements: seq<Settlement>)
    ensures GreedyOutcome(Accumulate(Postings(expenses)), shown, settlements, Tolerance)
    ensures shown == Residuals(Accumulate(Postings(expenses)), settlements)
    ensures (forall e :: e in expenses ==> SplitsMatch(e)) &&
            (forall k :: 0 <= k < |shown| ==>
               Paid(expenses, shown[k].userId) - Owed(expenses, shown[k].userId) != Tolerance &&
               Paid(expenses, shown[k].userId) - Owed(expenses, shown[k].userId) != -Tolerance)
            ==> forall k :: 0 <= k < |shown| ==> shown[k].balance == 0
  {
    var balances := CalculateBalances(expenses);
    shown, settlements := SettleInPlace(balances);
    if forall e :: e in expenses ==> SplitsMatch(e) {
      ConservedWhenSplitsMatch(expenses);
      ShownCleared(expenses, balances, shown);
    }
  }

  /**
   * The records handed to the settlement panel are the ones the balance panel
   * holds: the walk runs on them, and the panel then shows what it left.
   */
  method SettleInPlace(balances: seq<Balance>) returns (shown: seq<Balance>, settlements: seq<Settlement>)
    ensures GreedyOutcome(balances, shown, settlements, Tolerance)
  {
    var records := new Balance[|balances|](k requires 0 <= k < |balances| => balances[k]);
    assert records[..] == balances;
    settlements := CalculateSettlements(records);
    shown := records[..];
  }

  /**
   * When the calculated balances add up to zero, the walk's residuals are all
   * zero unless some user stood at exactly one cent either way.
   */
  lemma ShownCleared(expenses: seq<Expense>, balances: seq<Balance>, shown: seq<Balance>)
    requires Total(balances) == 0
    requires forall k :: 0 <= k < |balances| ==>
               balances[k].balance == Paid(expenses, balances[k].userId) - Owed(expenses, balances[k].userId)
    requires Bounded(balances, shown, Tolerance)
    requires Settles(balances, shown, Tolerance)
    ensures (forall k :: 0 <= k < |shown| ==>
               Paid(expenses, shown[k].userId) - Owed(expenses, shown[k].userId) != Tolerance &&
               Paid(expenses, shown[k].userId) - Owed(expenses, shown[k].userId) != -Tolerance)
            ==> forall k :: 0 <= k < |shown| ==> shown[k].balance == 0
  {
  }

  /**
   * The refresh with both discrepancies corrected: the settlements are
   * computed on a copy, so the balance panel shows each user's paid-minus-owed
   * position, and every non-zero position is taken into account, so once the
   * splits of every expense add up to its amount, paying the suggested
   * settlements leaves everyone at zero.
   */
  method RefreshViewFixed(expenses: seq<Expense>) returns (shown: seq<Balance>, settlements: seq<Settlement>)
    ensures DistinctIds(shown)
    ensures forall u :: Lists(shown, u) <==> Participates(expenses, u)
    ensures forall k :: 0 <= k < |shown| ==>
              shown[k].balance == Paid(expenses, shown[k].userId) - Owed(expenses, shown[k].userId)
    ensures GreedyOutcome(shown, Residuals(shown, settlements), settlements, 0)
    ensures (forall e :: e in expenses ==> SplitsMatch(e)) ==>
              forall k :: 0 <= k < |shown| ==> Residuals(shown, settlements)[k].balance == 0
  {
    shown := CalculateBalances(expenses);
    settlements := SettlementsExact(shown);
    if forall e :: e in expenses ==> SplitsMatch(e) {
      ConservedWhenSplitsMatch(expenses);
    }
  }
}
