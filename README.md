# Expense splitter: balances and settlements

This project models the money logic of a small shared-expense tracker. An
expense has one payer and a list of splits, and each split is one user's share.
The tracker does two things with the expense list:

- **Balances.** `calculateBalances` folds the expenses into one signed balance
  per user. The payer is credited with the full amount and each split's user is
  debited with their share. The per-user records are kept in an
  insertion-ordered map and returned in order of first appearance.
- **Settlements.** `calculateSettlements` proposes payments that settle the
  balances. It filters the records into creditors (above 0.01) and debtors
  (below -0.01) and sorts each list by size. A greedy two-cursor walk then
  has the current debtor pay the current creditor the smaller of the two
  amounts. The walk lowers both records **in place** and moves past any record
  that is within 0.01 of zero.

The page's refresh (`App.tsx`) chains the two functions. It stores the balances
for the balance panel and computes the settlements from the very same records.

How the model is built:

- Money is a whole number of cents (`int`). The 0.01 tolerance becomes
  `Records.Tolerance == 1`, and the rounding of each payment to cents is the
  identity.
- The JavaScript `Map` is a `Ledger`: the keys in insertion order plus a
  finite map.
- `calculateBalances` is an imperative method, `Balances.CalculateBalances`,
  built from `Tally`, `DebitSplits` and `Book`. It is proved equal to a fold,
  `Replay(Postings(expenses))`, and lemmas relate that fold to independent
  per-user sums `Paid` and `Owed`.
- The caller's balance records are an `array<Balance>`. The creditor and
  debtor lists are lists of indices into that array, so lowering "the
  creditor" lowers the caller's record, as in the source.
- The filter and the stable sort are functions: `Select`, and `Sort` as an
  insertion sort ordered by `Precedes`.
- The walk is a method with a loop, `Settlements.Walk`. Its invariant is
  `Walking`, and its result is specified by `GreedyOutcome`. That predicate
  covers:
  - bounds on every record;
  - well-formed payments and how many there are;
  - conservation of money;
  - which side ends settled;
  - that the residuals are exactly the balances with the payments applied.

## Model

| member | source | states |
|---|---|---|
| Balances.Book | project/src/utils/calculations.ts:7-17 | filing one change seeds the user's record (name and colour of this appearance, balance 0) only if the map has none, then adds the change: the new map is one step of the fold |
| Balances.DebitSplits | project/src/utils/calculations.ts:19-31 | debiting the splits one by one continues the fold with each split's debit, in split order |
| Balances.Tally | project/src/utils/calculations.ts:4-32 | the map after the walk over the expenses is the fold of all postings: each expense's payer credit, then its split debits, expense by expense |
| Balances.CalculateBalances | project/src/utils/calculations.ts:3-35 | the result is the fold's values in insertion order; one record per user; a user has a record exactly when they paid or had a split; each balance is what the user paid minus what they owe; records are ordered by first appearance and carry the name and colour of that first appearance; the balances total the amounts paid minus the shares owed; no expenses give no records |
| Balances.ReplayWellformed | project/src/utils/calculations.ts:4-32 | the map holds exactly the users that occur in the postings, each listed once in the insertion order and filed under its own id |
| Balances.ReplayNet | project/src/utils/calculations.ts:16-17 | each user's record holds the sum of that user's changes; a user without a record has no changes |
| Balances.ReplayOrder | project/src/utils/calculations.ts:7-14 | the insertion order lists users by the position of their first posting |
| Balances.ReplayFirst | project/src/utils/calculations.ts:20-27 | a record's name and colour are those of the user's first posting; later appearances do not overwrite them |
| Balances.ReplaySum | project/src/utils/calculations.ts:3-35 | the balances total the sum of all changes |
| Balances.PostingsNet | project/src/utils/calculations.ts:17-30 | a user's net change is what they paid minus what they owe; all changes sum to the total paid minus the total of the shares |
| Balances.AppearsIff | project/src/utils/calculations.ts:6-31 | a user appears in the postings exactly when they are the payer of some expense or the user of some split |
| Balances.AggregateUsers | project/src/utils/calculations.ts:34 | the returned records have distinct ids, and a user has one exactly when they participate in some expense |
| Balances.AggregateNet | project/src/utils/calculations.ts:34 | every returned balance is the user's paid minus owed |
| Balances.AggregateOrder | project/src/utils/calculations.ts:34 | returned records are in order of first appearance, with the first appearance's name and colour |
| Balances.AggregateTotal | project/src/utils/calculations.ts:34 | the returned balances total paid minus owed; no expenses give no records |
| Balances.ConservedWhenSplitsMatch | project/src/utils/calculations.ts:3-35 | when every expense's splits add up to its amount, the balances total zero |
| Balances.PaidEqualsOwed | project/src/utils/calculations.ts:17-30 | when every expense's splits add up to its amount, the total paid equals the total owed |
| Settlements.Select | project/src/utils/calculations.ts:39-40 | the filter keeps exactly the records above the band (or below minus the band), in index order, and as many as there are on that side |
| Settlements.Sort | project/src/utils/calculations.ts:39-40 | sorting the filtered list is a permutation of it |
| Settlements.InsertSorted | project/src/utils/calculations.ts:39-40 | inserting into a sorted list keeps it sorted |
| Settlements.SortSorted | project/src/utils/calculations.ts:39-40 | the sorted list is ordered by balance, with ties in their original order (a stable sort) |
| Settlements.Creditors | project/src/utils/calculations.ts:39 | the creditor list holds each record above 0.01 exactly once, largest balance first, ties in index order |
| Settlements.Debtors | project/src/utils/calculations.ts:40 | the debtor list holds each record below -0.01 exactly once, most negative first, ties in index order |
| Settlements.Partition | project/src/utils/calculations.ts:39-40 | both lists, with their membership, order and lengths |
| Settlements.Transfer | project/src/utils/calculations.ts:46-60 | one payment of min(credit, debt) from the current debtor to the current creditor, with both records lowered in place and nothing else changed |
| Settlements.ProgressStep | project/src/utils/calculations.ts:59-63 | each step zeroes the current creditor or the current debtor and moves that cursor, so the walk ends; records already passed stay at zero and later ones are untouched |
| Settlements.PaySides | project/src/utils/calculations.ts:49-60 | a step lowers the creditors' total and raises the debtors' total by the amount paid |
| Settlements.PayTotal | project/src/utils/calculations.ts:59-60 | a step leaves the sum of all balances unchanged |
| Settlements.PayResiduals | project/src/utils/calculations.ts:51-60 | with distinct ids, after a step every record is its starting balance plus what its user sent minus what it received, and nobody pays themself |
| Settlements.AccountedStep | project/src/utils/calculations.ts:49-60 | a step keeps every payment at least one cent, from a debtor to a creditor, and keeps what was paid equal to what the creditors lost and the debtors gained |
| Settlements.WalkStart | project/src/utils/calculations.ts:38-43 | before the first step nothing is paid and no record has moved |
| Settlements.WalkStep | project/src/utils/calculations.ts:45-64 | one step keeps the loop invariant and moves at least one cursor |
| Settlements.EndSide | project/src/utils/calculations.ts:45 | when the walk stops, every creditor or every debtor is at zero, and no record has crossed zero |
| Settlements.EndBounded | project/src/utils/calculations.ts:45-64 | only balances change; creditors end between zero and their balance, debtors between their balance and zero; records inside the band are untouched |
| Settlements.EndPayments | project/src/utils/calculations.ts:45-64 | there is no payment unless both sides are non-empty, and then fewer payments than creditors and debtors together |
| Settlements.EndConserves | project/src/utils/calculations.ts:45-64 | the total paid equals the smaller of the total credit and the total debt, and the balances still add up to what they did |
| Settlements.EndSettles | project/src/utils/calculations.ts:45-64 | when credit equals debt everyone outside the band ends at zero; when the balances total zero and nobody is inside the band except at zero, everyone does |
| Settlements.WalkEnd | project/src/utils/calculations.ts:64-66 | when the walk stops, the greedy outcome holds |
| Settlements.Walk | project/src/utils/calculations.ts:42-64 | the greedy walk over the creditors and the debtors, lowering the caller's records in place, achieves the greedy outcome |
| Settlements.GreedySettle | project/src/utils/calculations.ts:37-67 | filter, sort and walk with a given band achieve the greedy outcome |
| Settlements.CalculateSettlements | project/src/utils/calculations.ts:37-67 | `calculateSettlements` as written: the greedy outcome with the 0.01 band, relating the caller's records before and after the call |
| Settlements.SettlementsFor | project/src/utils/calculations.ts:37-67 | the same settlements computed on a copy: every payment is at least one cent from a debtor to a creditor; with distinct ids, applying them to the balances gives the greedy outcome |
| Settlements.SettlementsExact | project/src/utils/calculations.ts:39-40 | with a zero-cent band, when the balances total zero, paying the settlements leaves every record at zero |
| Settlements.CallerRecordsZeroed | project/src/utils/calculations.ts:59-60 | after one 60.00 expense split three ways (+40.00, -20.00, -20.00), all three of the caller's records read zero once the settlements are computed |
| Settlements.OneCentDebtsIgnored | project/src/utils/calculations.ts:39-40 | balances +0.02, -0.01, -0.01 total zero, yet no payment is suggested and the first user is left owed 0.02 |
| Settlements.OneCentDebtsSettled | project/src/utils/calculations.ts:39-40 | the same balances with the zero-cent band: 0.02 is paid and everyone ends at zero |
| App.SettleInPlace | project/src/App.tsx:24-25 | the records the balance panel holds are the ones the walk lowers: they end as the walk's residuals |
| App.ShownCleared | project/src/App.tsx:22-26 | when the balances total zero and no user stands at exactly one cent either way, the residuals the panel shows are all zero |
| App.RefreshView | project/src/App.tsx:22-26 | the refresh as written: the balance panel shows the residuals of the walk rather than the balances, and shows everyone at zero whenever splits match their amounts and nobody stands at exactly one cent |
| App.RefreshViewFixed | project/src/App.tsx:22-26 | the refresh corrected: the panel shows each participant's paid minus owed, and paying the suggested settlements leaves everyone at zero whenever splits match their amounts |

## Left out

- Floating point. Amounts are whole cents. The source adds and subtracts
  binary floating-point dollars, so an equal split such as 10.00 / 3 leaves a
  fractional remainder there; here splits are whatever whole-cent amounts the
  expense carries.
- `Math.round(amount * 100) / 100` (calculations.ts line 56) is the identity
  on cents and is not modelled separately.
- The database, loading and inserting expenses, React state and rendering,
  and the expense form are not part of this model. The form's validation
  (AddExpenseForm.tsx) appears only as the hypothesis `SplitsMatch`, which
  assumes the splits add up exactly to the amount.
- User e-mail addresses and creation timestamps are not modelled: neither
  computation reads them.
- The comparator-based `Array.prototype.sort` is modelled as a stable
  insertion sort by balance. It yields the same order that a stable sort with
  the comparators `b.balance - a.balance` and `a.balance - b.balance` gives.
- Settlements.CalculateSettlements: the greedy outcome does not fix which
  debtor pays which creditor. Inside `Walk`, each emitted payment is
  `Payment` of the records at the two cursors. The contract states the
  aggregate guarantees rather than the exact payment sequence.
- Settlements.SettlementsFor: when two records share a user id, the contract
  only says that some final state of the records satisfies the greedy
  outcome. With duplicate ids, the residuals are not a function of the
  payments alone.
- Settlements.Partition: its contract gives the lists' membership, order
  and lengths. It does not restate that they are the results of `Creditors`
  and `Debtors`.

## Findings

| source | as written | input that shows it | evidently intended | confidence | as-written member | corrected member |
|---|---|---|---|---|---|---|
| project/src/App.tsx:23-25 | the balance panel receives the same records that `calculateSettlements` then lowers in place (calculations.ts lines 59-60), so the panel shows the residuals of the walk | one 60.00 expense paid by one of three users and split equally: the balances are +40.00, -20.00, -20.00, the panel shows 0.00 "settled up" for all three, and two payments are listed | the panel shows each user's paid minus owed, and the settlements are computed from a copy | high; not executed | App.RefreshView, Settlements.CallerRecordsZeroed | App.RefreshViewFixed |
| project/src/utils/calculations.ts:39-40 | a record at exactly +0.01 or -0.01 is neither a creditor nor a debtor, so a real one-cent debt is never paid and its counterpart stays owed | balances +0.02, -0.01, -0.01 (total zero): no payment is suggested and the first user is still shown as owed 0.02 | every non-zero position in whole cents takes part in the settlements, so balances that total zero are settled completely | medium; not executed | Settlements.OneCentDebtsIgnored | Settlements.SettlementsExact, Settlements.OneCentDebtsSettled |
