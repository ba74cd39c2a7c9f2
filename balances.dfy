/**
 * The balance aggregator: folds expenses into one signed net balance per user.
 *
 * The aggregator walks the expenses in order; for each one it credits the
 * payer with the full amount and then debits every split's user with that
 * split's amount, creating a user's accumulator (balance 0, name and colour of
 * that appearance) the first time the user is seen. The accumulators live in
 * an insertion-ordered map, modelled as a `Ledger`: the keys in insertion order
 * and a finite map from key to record.
 *
 * Specification: each expense is turned into its `Postings` (one signed change
 * to one user's accumulator, payer first), and `Replay` folds postings into a
 * ledger one `Post` at a time. `CalculateBalances` is proved to compute exactly
 * that fold, and the lemmas state what the fold means.
 */
module Balances {
  import opened Records

  /** One signed change to one user's accumulator, with the user's name and colour at that point. */
  datatype Posting = Posting(userId: UserId, name: string, color: string, delta: int)

  /** An insertion-ordered map from user id to accumulator record. */
  datatype Ledger = Ledger(order: seq<UserId>, table: map<UserId, Balance>)

  function PayerPosting(e: Expense): Posting
  {
    Posting(e.paidBy, e.payer.name, e.payer.color, e.amount)
  }

  function SplitPosting(s: Split): Posting
  {
    Posting(s.userId, s.user.name, s.user.color, -s.amount)
  }

  function SplitPostings(ss: seq<Split>): seq<Posting>
  {
    if ss == [] then [] else SplitPostings(ss[..|ss| - 1]) + [SplitPosting(ss[|ss| - 1])]
  }

  /** The changes one expense makes: the payer's credit, then each split's debit. */
  function ExpensePostings(e: Expense): seq<Posting>
  {
    [PayerPosting(e)] + SplitPostings(e.splits)
  }

  function Postings(es: seq<Expense>): seq<Posting>
  {
    if es == [] then [] else Postings(es[..|es| - 1]) + ExpensePostings(es[|es| - 1])
  }

  function Ids(ps: seq<Posting>): seq<UserId>
  {
    seq(|ps|, k requires 0 <= k < |ps| => ps[k].userId)
  }

  /** Every user id in the order in which the aggregator meets it, repetitions included. */
  function Appearances(es: seq<Expense>): seq<UserId>
  {
    Ids(Postings(es))
  }

  /**
   * Position of the first occurrence of `x` in `xs`, or `|xs|` when there is none.
   */
  function FirstIndex(xs: seq<UserId>, x: UserId): (r: nat)
    ensures r <= |xs|
    ensures r < |xs| <==> x in xs
    ensures r < |xs| ==> xs[r] == x
    ensures forall k :: 0 <= k < r ==> xs[k] != x
  {
    if xs == [] then 0
    else if xs[0] == x then 0
    else 1 + FirstIndex(xs[1..], x)
  }

  /** One step of the fold: seed the user's record on first sight, then add the change. */
  function Post(l: Ledger, p: Posting): Ledger
  {
    var seeded :=
      if p.userId in l.table then l
      else Ledger(l.order + [p.userId], l.table[p.userId := Balance(p.userId, p.name, p.color, 0)]);
    var acc := seeded.table[p.userId];
    Ledger(seeded.order, seeded.table[p.userId := acc.(balance := acc.balance + p.delta)])
  }

  function Replay(ps: seq<Posting>): Ledger
  {
    if ps == [] then Ledger([], map[]) else Post(Replay(ps[..|ps| - 1]), ps[|ps| - 1])
  }

  /** The order lists every key exactly once, and each record is filed under its own user id. */
  ghost predicate Wellformed(l: Ledger)
  {
    && (forall a, b :: 0 <= a < b < |l.order| ==> l.order[a] != l.order[b])
    && (forall u :: u in l.table <==> u in l.order)
    && (forall u :: u in l.table ==> l.table[u].userId == u)
  }

  /** The map's values in insertion order. */
  function Values(l: Ledger): seq<Balance>
    requires forall k :: 0 <= k < |l.order| ==> l.order[k] in l.table
  {
    seq(|l.order|, k requires 0 <= k < |l.order| => l.table[l.order[k]])
  }

  /** The balance list produced from a sequence of postings. */
  function Accumulate(ps: seq<Posting>): seq<Balance>
  {
    ReplayWellformed(ps);
    Values(Replay(ps))
  }

  /** Sum of the changes made to user `u`. */
  function Net(ps: seq<Posting>, u: UserId): int
  {
    if ps == [] then 0
    else Net(ps[..|ps| - 1], u) + (if ps[|ps| - 1].userId == u then ps[|ps| - 1].delta else 0)
  }

  /** Sum of all changes. */
  function SumDeltas(ps: seq<Posting>): int
  {
    if ps == [] then 0 else SumDeltas(ps[..|ps| - 1]) + ps[|ps| - 1].delta
  }

  // ---------------------------------------------------------------------------
  // Reference definitions on expenses, independent of postings and ledgers

  /** Total that user `u` paid as payer. */
  function Paid(es: seq<Expense>, u: UserId): int
  {
    if es == [] then 0
    else Paid(es[..|es| - 1], u) + (if es[|es| - 1].paidBy == u then es[|es| - 1].amount else 0)
  }

  /** Total of `u`'s shares among the splits `ss`. */
  function OwedIn(ss: seq<Split>, u: UserId): int
  {
    if ss == [] then 0
    else OwedIn(ss[..|ss| - 1], u) + (if ss[|ss| - 1].userId == u then ss[|ss| - 1].amount else 0)
  }

  /** Total of `u`'s shares across all expenses. */
  function Owed(es: seq<Expense>, u: UserId): int
  {
    if es == [] then 0 else Owed(es[..|es| - 1], u) + OwedIn(es[|es| - 1].splits, u)
  }

  function SplitTotal(ss: seq<Split>): int
  {
    if ss == [] then 0 else SplitTotal(ss[..|ss| - 1]) + ss[|ss| - 1].amount
  }

  function TotalPaid(es: seq<Expense>): int
  {
    if es == [] then 0 else TotalPaid(es[..|es| - 1]) + es[|es| - 1].amount
  }

  function TotalOwed(es: seq<Expense>): int
  {
    if es == [] then 0 else TotalOwed(es[..|es| - 1]) + SplitTotal(es[|es| - 1].splits)
  }

  /** `u` is the payer of some expense or the user of some split. */
  ghost predicate Participates(es: seq<Expense>, u: UserId)
  {
    exists e :: e in es && (e.paidBy == u || exists s :: s in e.splits && s.userId == u)
  }

  /** Some record of `bs` is `u`'s. */
  ghost predicate Lists(bs: seq<Balance>, u: UserId)
  {
    exists k :: 0 <= k < |bs| && bs[k].userId == u
  }

  /**
   * The splits of the expense add up exactly to its amount. The creation path
   * aims at this but does not guarantee it to the cent: an equal split divides
   * the amount by the number of users, and custom splits may be off by 0.01.
   */
  predicate SplitsMatch(e: Expense)
  {
    SplitTotal(e.splits) == e.amount
  }

  // ---------------------------------------------------------------------------
  // The aggregator

  /**
   * Lines 4-32 of calculations.ts: the walk over the expenses that files each
   * payer and split posting into the map, keeping first-insertion order.
   */
  method Tally(expenses: seq<Expense>) returns (order: seq<UserId>, table: map<UserId, Balance>)
    ensures Ledger(order, table) == Replay(Postings(expenses))
  {
    order, table := [], map[];
    for i := 0 to |expenses|
      invariant Ledger(order, table) == Replay(Postings(expenses[..i]))
    {
      var expense := expenses[i];
      ghost var walked := Postings(expenses[..i]);
      ReplayAppend(walked, PayerPosting(expense));
      order, table := Book(order, table, PayerPosting(expense));
      order, table := DebitSplits(order, table, expense.splits, walked + [PayerPosting(expense)]);
      PostingsPrefix(expenses, i);
    }
    assert expenses[..|expenses|] == expenses;
  }

  /**
   * Folds `expenses` into the per-user balances, in order of first appearance.
   */
  method CalculateBalances(expenses: seq<Expense>) returns (balances: seq<Balance>)
    ensures balances == Accumulate(Postings(expenses))
    ensures DistinctIds(balances)
    ensures forall u :: Lists(balances, u) <==> Participates(expenses, u)
    ensures forall k :: 0 <= k < |balances| ==>
              balances[k].balance == Paid(expenses, balances[k].userId) - Owed(expenses, balances[k].userId)
    ensures forall a, b :: 0 <= a < b < |balances| ==>
              FirstIndex(Appearances(expenses), balances[a].userId)
                < FirstIndex(Appearances(expenses), balances[b].userId)
                < |Appearances(expenses)|
    ensures forall k :: 0 <= k < |balances| ==>
              var first := FirstIndex(Appearances(expenses), balances[k].userId);
              first < |Postings(expenses)| &&
              balances[k].userName == Postings(expenses)[first].name &&
              balances[k].userColor == Postings(expenses)[first].color
    ensures Total(balances) == TotalPaid(expenses) - TotalOwed(expenses)
    ensures expenses == [] ==> balances == []
  {
    var order, table := Tally(expenses);
    ReplayWellformed(Postings(expenses));
    balances := seq(|order|, k requires 0 <= k < |order| => table[order[k]]);
    assert balances == Accumulate(Postings(expenses));
    AggregateUsers(expenses, balances);
    AggregateNet(expenses, balances);
    AggregateOrder(expenses, balances);
    AggregateTotal(expenses, balances);
  }

  /**
   * The per-split step of the aggregator: debits each split's user by the
   * split's amount, seeding the user's record on first sight.
   */
  method DebitSplits(order0: seq<UserId>, table0: map<UserId, Balance>, splits: seq<Split>, ghost walked0: seq<Posting>)
    returns (order: seq<UserId>, table: map<UserId, Balance>)
    requires Ledger(order0, table0) == Replay(walked0)
    ensures Ledger(order, table) == Replay(walked0 + SplitPostings(splits))
  {
    order, table := order0, table0;
    ghost var walked := walked0;
    assert splits[..0] == [];
    for k := 0 to |splits|
      invariant walked == walked0 + SplitPostings(splits[..k])
      invariant Ledger(order, table) == Replay(walked)
    {
      var split := splits[k];
      ReplayAppend(walked, SplitPosting(split));
      order, table := Book(order, table, SplitPosting(split));
      SplitPostingsPrefix(splits, k);
      walked := walked + [SplitPosting(split)];
    }
    assert splits[..|splits|] == splits;
  }

  /**
   * Files one posting: seeds the user's record with the posting's name and
   * colour and a zero balance if the map has none yet, then adds the change.
   */
  method Book(order0: seq<UserId>, table0: map<UserId, Balance>, p: Posting)
    returns (order: seq<UserId>, table: map<UserId, Balance>)
    ensures Ledger(order, table) == Post(Ledger(order0, table0), p)
  {
    order, table := order0, table0;
    if p.userId !in table {
      table := table[p.userId := Balance(p.userId, p.name, p.color, 0)];
      order := order + [p.userId];
    }
    var acc := table[p.userId];
    table := table[p.userId := acc.(balance := acc.balance + p.delta)];
  }

  // ---------------------------------------------------------------------------
  // What the fold means

  lemma ReplayAppend(ps: seq<Posting>, p: Posting)
    ensures Replay(ps + [p]) == Post(Replay(ps), p)
  {
    assert (ps + [p])[..|ps|] == ps;
  }

  lemma PostingsPrefix(es: seq<Expense>, i: nat)
    requires i < |es|
    ensures Postings(es[..i + 1]) == Postings(es[..i]) + [PayerPosting(es[i])] + SplitPostings(es[i].splits)
  {
    assert es[..i + 1][..i] == es[..i];
  }

  lemma SplitPostingsPrefix(ss: seq<Split>, k: nat)
    requires k < |ss|
    ensures SplitPostings(ss[..k + 1]) == SplitPostings(ss[..k]) + [SplitPosting(ss[k])]
  {
    assert ss[..k + 1][..k] == ss[..k];
  }

  lemma IdsAppend(ps: seq<Posting>, qs: seq<Posting>)
    ensures Ids(ps + qs) == Ids(ps) + Ids(qs)
  {
  }

  lemma IdsSnoc(ps: seq<Posting>, p: Posting)
    ensures Ids(ps + [p]) == Ids(ps) + [p.userId]
    ensures forall u :: u in Ids(ps + [p]) <==> u in Ids(ps) || u == p.userId
  {
    IdsAppend(ps, [p]);
  }

  /** What one step does to the ledger, case by case. */
  lemma PostCases(l: Ledger, p: Posting)
    ensures p.userId in l.table ==>
              Post(l, p) == Ledger(l.order, l.table[p.userId := l.table[p.userId].(balance := l.table[p.userId].balance + p.delta)])
    ensures p.userId !in l.table ==>
              Post(l, p) == Ledger(l.order + [p.userId], l.table[p.userId := Balance(p.userId, p.name, p.color, p.delta)])
  {
  }

  lemma PostWellformed(l: Ledger, p: Posting)
    requires Wellformed(l)
    ensures Wellformed(Post(l, p))
    ensures forall u :: u in Post(l, p).table <==> u in l.table || u == p.userId
  {
    PostCases(l, p);
  }

  /**
   * The ledger has an entry for exactly the users that occur in the postings,
   * each listed once in the insertion order and filed under its own id.
   */
  lemma {:induction false} ReplayWellformed(ps: seq<Posting>)
    ensures Wellformed(Replay(ps))
    ensures forall u :: u in Replay(ps).table <==> u in Ids(ps)
  {
    if ps != [] {
      var q, p := ps[..|ps| - 1], ps[|ps| - 1];
      ReplayWellformed(q);
      assert ps == q + [p];
      ReplayAppend(q, p);
      PostWellformed(Replay(q), p);
      IdsSnoc(q, p);
    }
  }

  /** A user's record holds the sum of the changes made to that user; a user without a record had none. */
  lemma {:induction false} ReplayNet(ps: seq<Posting>)
    ensures forall u :: Net(ps, u) == if u in Replay(ps).table then Replay(ps).table[u].balance else 0
  {
    if ps != [] {
      var q, p := ps[..|ps| - 1], ps[|ps| - 1];
      ReplayNet(q);
      assert ps == q + [p];
      ReplayAppend(q, p);
      PostCases(Replay(q), p);
    }
  }

  lemma {:induction false} FirstIndexAppend(xs: seq<UserId>, y: UserId, x: UserId)
    ensures FirstIndex(xs + [y], x) == if x in xs then FirstIndex(xs, x) else if y == x then |xs| else |xs| + 1
  {
    if xs != [] {
      assert (xs + [y])[1..] == xs[1..] + [y];
      FirstIndexAppend(xs[1..], y, x);
    }
  }

  /** Appending a posting leaves the first occurrence of every earlier user where it was. */
  lemma FirstIndexStable(q: seq<Posting>, p: Posting)
    ensures forall u :: u in Ids(q) ==> FirstIndex(Ids(q + [p]), u) == FirstIndex(Ids(q), u)
    ensures p.userId !in Ids(q) ==> FirstIndex(Ids(q + [p]), p.userId) == |q|
  {
    IdsSnoc(q, p);
    forall u | u in Ids(q)
      ensures FirstIndex(Ids(q + [p]), u) == FirstIndex(Ids(q), u)
    {
      FirstIndexAppend(Ids(q), p.userId, u);
    }
    FirstIndexAppend(Ids(q), p.userId, p.userId);
  }

  /** The insertion order is the order of first occurrence among the postings. */
  lemma {:induction false} ReplayOrder(ps: seq<Posting>)
    ensures forall a :: 0 <= a < |Replay(ps).order| ==> FirstIndex(Ids(ps), Replay(ps).order[a]) < |ps|
    ensures forall a, b :: 0 <= a < b < |Replay(ps).order| ==>
              FirstIndex(Ids(ps), Replay(ps).order[a]) < FirstIndex(Ids(ps), Replay(ps).order[b])
  {
    if ps != [] {
      var q, p := ps[..|ps| - 1], ps[|ps| - 1];
      assert ps == q + [p];
      ReplayOrder(q);
      ReplayWellformed(q);
      ReplayAppend(q, p);
      FirstIndexStable(q, p);
      var l := Replay(q);
      PostCases(l, p);
      var ord := Replay(ps).order;
      forall a | 0 <= a < |l.order|
        ensures ord[a] == l.order[a] && FirstIndex(Ids(ps), ord[a]) == FirstIndex(Ids(q), l.order[a]) < |q|
      {
        assert l.order[a] in l.table;
      }
      if p.userId in l.table {
        assert ord == l.order;
      } else {
        assert ord == l.order + [p.userId];
        assert FirstIndex(Ids(ps), ord[|l.order|]) == |q|;
      }
    }
  }

  /** Each record carries the name and colour of its user's first posting. */
  lemma {:induction false} ReplayFirst(ps: seq<Posting>, u: UserId)
    requires u in Replay(ps).table
    ensures FirstIndex(Ids(ps), u) < |ps|
    ensures Replay(ps).table[u].userName == ps[FirstIndex(Ids(ps), u)].name
    ensures Replay(ps).table[u].userColor == ps[FirstIndex(Ids(ps), u)].color
  {
    var q, p := ps[..|ps| - 1], ps[|ps| - 1];
    assert ps == q + [p];
    ReplayWellformed(q);
    ReplayAppend(q, p);
    PostCases(Replay(q), p);
    FirstIndexStable(q, p);
    if u in Replay(q).table {
      ReplayFirst(q, u);
      assert ps[FirstIndex(Ids(q), u)] == q[FirstIndex(Ids(q), u)];
    }
  }


  /** One step adds its change to the total of the records. */
  lemma PostTotal(l: Ledger, p: Posting)
    requires Wellformed(l)
    ensures Wellformed(Post(l, p)) && Total(Values(Post(l, p))) == Total(Values(l)) + p.delta
  {
    PostWellformed(l, p);
    PostCases(l, p);
    var after := Post(l, p);
    var u := p.userId;
    if u in l.table {
      var m :| 0 <= m < |l.order| && l.order[m] == u;
      var x := after.table[u];
      assert Values(after) == Values(l)[m := x];
      TotalUpdate(Values(l), m, x);
    } else {
      assert Values(after) == Values(l) + [after.table[u]];
      TotalAppend(Values(l), after.table[u]);
    }
  }

  /** The balances add up to the sum of all changes. */
  lemma {:induction false} ReplaySum(ps: seq<Posting>)
    ensures Total(Accumulate(ps)) == SumDeltas(ps)
  {
    if ps != [] {
      var q, p := ps[..|ps| - 1], ps[|ps| - 1];
      ReplaySum(q);
      ReplayWellformed(q);
      assert ps == q + [p];
      ReplayAppend(q, p);
      PostTotal(Replay(q), p);
    }
  }

  // ---------------------------------------------------------------------------
  // From postings back to expenses

  lemma {:induction false} NetConcat(ps: seq<Posting>, qs: seq<Posting>, u: UserId)
    ensures Net(ps + qs, u) == Net(ps, u) + Net(qs, u)
  {
    if qs != [] {
      assert (ps + qs)[..|ps + qs| - 1] == ps + qs[..|qs| - 1];
      NetConcat(ps, qs[..|qs| - 1], u);
    } else {
      assert ps + qs == ps;
    }
  }

  lemma {:induction false} SumConcat(ps: seq<Posting>, qs: seq<Posting>)
    ensures SumDeltas(ps + qs) == SumDeltas(ps) + SumDeltas(qs)
  {
    if qs != [] {
      assert (ps + qs)[..|ps + qs| - 1] == ps + qs[..|qs| - 1];
      SumConcat(ps, qs[..|qs| - 1]);
    } else {
      assert ps + qs == ps;
    }
  }

  lemma {:induction false} SplitNet(ss: seq<Split>, u: UserId)
    ensures Net(SplitPostings(ss), u) == -OwedIn(ss, u)
    ensures SumDeltas(SplitPostings(ss)) == -SplitTotal(ss)
  {
    if ss != [] {
      var rest := ss[..|ss| - 1];
      SplitNet(rest, u);
      NetConcat(SplitPostings(rest), [SplitPosting(ss[|ss| - 1])], u);
      SumConcat(SplitPostings(rest), [SplitPosting(ss[|ss| - 1])]);
    }
  }

  /**
   * The changes made to `u` add up to what `u` paid minus what `u` owes; all
   * changes add up to the total paid minus the total owed.
   */
  lemma {:induction false} PostingsNet(es: seq<Expense>, u: UserId)
    ensures Net(Postings(es), u) == Paid(es, u) - Owed(es, u)
    ensures SumDeltas(Postings(es)) == TotalPaid(es) - TotalOwed(es)
  {
    if es != [] {
      var rest, e := es[..|es| - 1], es[|es| - 1];
      PostingsNet(rest, u);
      SplitNet(e.splits, u);
      NetConcat(Postings(rest), ExpensePostings(e), u);
      NetConcat([PayerPosting(e)], SplitPostings(e.splits), u);
      SumConcat(Postings(rest), ExpensePostings(e));
      SumConcat([PayerPosting(e)], SplitPostings(e.splits));
    }
  }

  lemma {:induction false} SplitIds(ss: seq<Split>, u: UserId)
    ensures u in Ids(SplitPostings(ss)) <==> exists s :: s in ss && s.userId == u
  {
    if ss != [] {
      var rest, last := ss[..|ss| - 1], ss[|ss| - 1];
      SplitIds(rest, u);
      IdsSnoc(SplitPostings(rest), SplitPosting(last));
      assert ss == rest + [last];
      if u in Ids(SplitPostings(ss)) {
        if u == last.userId {
          assert last in ss;
        } else {
          var s :| s in rest && s.userId == u;
          assert s in ss;
        }
      }
      if exists s :: s in ss && s.userId == u {
        var s :| s in ss && s.userId == u;
        assert s in rest || s == last;
      }
    }
  }

  /** A user appears in the aggregator's walk exactly when the user pays or shares some expense. */
  lemma {:induction false} AppearsIff(es: seq<Expense>, u: UserId)
    ensures u in Appearances(es) <==> Participates(es, u)
  {
    if es != [] {
      var rest, e := es[..|es| - 1], es[|es| - 1];
      AppearsIff(rest, u);
      SplitIds(e.splits, u);
      IdsAppend(Postings(rest), ExpensePostings(e));
      IdsAppend([PayerPosting(e)], SplitPostings(e.splits));
      assert es == rest + [e];
      assert Appearances(es) == Appearances(rest) + [e.paidBy] + Ids(SplitPostings(e.splits));
      if Participates(es, u) {
        var x :| x in es && (x.paidBy == u || exists s :: s in x.splits && s.userId == u);
        assert x in rest || x == e;
      }
      if u in Appearances(rest) {
        var x :| x in rest && (x.paidBy == u || exists s :: s in x.splits && s.userId == u);
        assert x in es;
      }
      if u == e.paidBy || u in Ids(SplitPostings(e.splits)) {
        assert e in es;
      }
    }
  }

  /**
   * The balance list has one record per participant and no other: ids are
   * distinct, and a user is listed exactly when the user pays or shares an expense.
   */
  lemma AggregateUsers(es: seq<Expense>, bs: seq<Balance>)
    requires bs == Accumulate(Postings(es))
    ensures DistinctIds(bs)
    ensures forall u :: Lists(bs, u) <==> Participates(es, u)
  {
    var ps := Postings(es);
    var l := Replay(ps);
    ReplayWellformed(ps);
    forall u ensures Lists(bs, u) <==> Participates(es, u) {
      AppearsIff(es, u);
      if u in l.table {
        var m :| 0 <= m < |l.order| && l.order[m] == u;
        assert bs[m].userId == u;
      }
      if Lists(bs, u) {
        var m :| 0 <= m < |bs| && bs[m].userId == u;
        assert l.order[m] in l.table;
      }
    }
  }

  /** Each listed balance is what that user paid minus what that user owes. */
  lemma AggregateNet(es: seq<Expense>, bs: seq<Balance>)
    requires bs == Accumulate(Postings(es))
    ensures forall k :: 0 <= k < |bs| ==> bs[k].balance == Paid(es, bs[k].userId) - Owed(es, bs[k].userId)
  {
    var ps := Postings(es);
    var l := Replay(ps);
    ReplayWellformed(ps);
    ReplayNet(ps);
    forall k | 0 <= k < |bs|
      ensures bs[k].balance == Paid(es, bs[k].userId) - Owed(es, bs[k].userId)
    {
      assert l.order[k] in l.table;
      PostingsNet(es, bs[k].userId);
    }
  }

  /**
   * Records are listed in order of their users' first appearance, and each
   * carries the name and colour of that first appearance.
   */
  lemma AggregateOrder(es: seq<Expense>, bs: seq<Balance>)
    requires bs == Accumulate(Postings(es))
    ensures forall a, b :: 0 <= a < b < |bs| ==>
              FirstIndex(Appearances(es), bs[a].userId) < FirstIndex(Appearances(es), bs[b].userId) < |Appearances(es)|
    ensures forall k :: 0 <= k < |bs| ==>
              var first := FirstIndex(Appearances(es), bs[k].userId);
              first < |Postings(es)| &&
              bs[k].userName == Postings(es)[first].name &&
              bs[k].userColor == Postings(es)[first].color
  {
    var ps := Postings(es);
    var l := Replay(ps);
    ReplayWellformed(ps);
    ReplayOrder(ps);
    assert Appearances(es) == Ids(ps) && |Ids(ps)| == |ps|;
    forall k | 0 <= k < |bs|
      ensures bs[k].userId == l.order[k] && l.order[k] in l.table
      ensures FirstIndex(Ids(ps), bs[k].userId) < |ps|
      ensures bs[k].userName == ps[FirstIndex(Ids(ps), bs[k].userId)].name
      ensures bs[k].userColor == ps[FirstIndex(Ids(ps), bs[k].userId)].color
    {
      assert l.order[k] in l.table;
      ReplayFirst(ps, l.order[k]);
    }
  }

  /** The balances add up to the total paid minus the total owed; no expenses, no balances. */
  lemma AggregateTotal(es: seq<Expense>, bs: seq<Balance>)
    requires bs == Accumulate(Postings(es))
    ensures Total(bs) == TotalPaid(es) - TotalOwed(es)
    ensures es == [] ==> bs == []
  {
    ReplaySum(Postings(es));
    PostingsNet(es, "");
  }

  /**
   * When every expense's splits add up to its amount, the balances sum to zero:
   * every debit has a matching credit.
   */
  lemma {:induction false} ConservedWhenSplitsMatch(es: seq<Expense>)
    requires forall e :: e in es ==> SplitsMatch(e)
    ensures Total(Accumulate(Postings(es))) == 0
  {
    AggregateTotal(es, Accumulate(Postings(es)));
    PaidEqualsOwed(es);
  }

  lemma {:induction false} PaidEqualsOwed(es: seq<Expense>)
    requires forall e :: e in es ==> SplitsMatch(e)
    ensures TotalPaid(es) == TotalOwed(es)
  {
    if es != [] {
      var rest := es[..|es| - 1];
      assert forall e :: e in rest ==> e in es;
      PaidEqualsOwed(rest);
      assert es[|es| - 1] in es;
    }
  }
}
