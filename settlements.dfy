/**
 * The settlement minimizer: a greedy two-cursor matcher over the balances.
 *
 * Creditors are the records whose balance is above the band, sorted by balance
 * descending; debtors are those below minus the band, sorted ascending. Both
 * lists hold the caller's own records, so they are modelled as lists of indices
 * into the caller's array: updating a "creditor" updates the caller's record.
 * Each step pays min(credit, debt) from the current debtor to the current
 * creditor, lowers both residuals in place, and moves past whichever residual
 * has come within one cent of zero.
 *
 * The filter threshold is a parameter `band` of the walk; calculations.ts uses
 * `Tolerance` (one cent) there.
 */
module Settlements {
  import opened Records

  function Min(a: int, b: int): int
  {
    if a <= b then a else b
  }

  /** Every index of `xs` is below `n`. */
  predicate Below(xs: seq<nat>, n: nat)
  {
    forall t :: 0 <= t < |xs| ==> xs[t] < n
  }

  predicate Distinct(xs: seq<nat>)
  {
    forall a, b :: 0 <= a < b < |xs| ==> xs[a] != xs[b]
  }

  /**
   * Record `x` goes before record `y`: larger balance first for creditors,
   * smaller first for debtors; equal balances keep index order, which is what
   * a stable sort of the index-ordered filter produces.
   */
  predicate Precedes(bs: seq<Balance>, x: nat, y: nat, descending: bool)
    requires x < |bs| && y < |bs|
  {
    if descending then bs[x].balance > bs[y].balance || (bs[x].balance == bs[y].balance && x < y)
    else bs[x].balance < bs[y].balance || (bs[x].balance == bs[y].balance && x < y)
  }

  predicate SortedBy(bs: seq<Balance>, xs: seq<nat>, descending: bool)
    requires Below(xs, |bs|)
  {
    forall a, b :: 0 <= a < b < |xs| ==> Precedes(bs, xs[a], xs[b], descending)
  }

  /** The record is a creditor (above the band) or, when `creditors` is false, a debtor (below minus the band). */
  predicate OnSide(b: Balance, band: int, creditors: bool)
  {
    if creditors then b.balance > band else b.balance < -band
  }

  /** How many records are on the given side. */
  function SideCount(bs: seq<Balance>, band: int, creditors: bool): nat
  {
    if bs == [] then 0
    else SideCount(bs[..|bs| - 1], band, creditors) + (if OnSide(bs[|bs| - 1], band, creditors) then 1 else 0)
  }

  /** Sum of the balances in `bs` at the positions where `sides` holds a record on the given side. */
  function SideSum(sides: seq<Balance>, bs: seq<Balance>, band: int, creditors: bool): int
    requires |bs| == |sides|
  {
    if bs == [] then 0
    else
      var n := |bs| - 1;
      SideSum(sides[..n], bs[..n], band, creditors) + (if OnSide(sides[n], band, creditors) then bs[n].balance else 0)
  }

  /**
   * The `filter` step: the indices below `n` whose record is a creditor
   * (balance above `band`) or a debtor (balance below `-band`), in index order.
   */
  function Select(bs: seq<Balance>, n: nat, band: int, creditors: bool): (r: seq<nat>)
    requires n <= |bs|
    ensures Below(r, n)
    ensures forall a, b :: 0 <= a < b < |r| ==> r[a] < r[b]
    ensures forall k :: 0 <= k < n ==> (k in r <==> OnSide(bs[k], band, creditors))
    ensures |r| == SideCount(bs[..n], band, creditors)
  {
    if n == 0 then []
    else
      assert bs[..n][..n - 1] == bs[..n - 1];
      Select(bs, n - 1, band, creditors) + (if OnSide(bs[n - 1], band, creditors) then [n - 1] else [])
  }

  /** Inserts index `x` into the sorted index list `xs`. */
  function Insert(bs: seq<Balance>, x: nat, xs: seq<nat>, descending: bool): (r: seq<nat>)
    requires x < |bs| && Below(xs, |bs|)
    ensures multiset(r) == multiset(xs) + multiset{x}
    ensures Below(r, |bs|)
  {
    if xs == [] then [x]
    else if Precedes(bs, x, xs[0], descending) then [x] + xs
    else
      assert xs == [xs[0]] + xs[1..];
      [xs[0]] + Insert(bs, x, xs[1..], descending)
  }

  /** A sorted list stays sorted with a record in front that precedes all of it. */
  lemma ConsSorted(bs: seq<Balance>, h: nat, ys: seq<nat>, descending: bool)
    requires h < |bs| && Below(ys, |bs|) && SortedBy(bs, ys, descending)
    requires forall t :: 0 <= t < |ys| ==> Precedes(bs, h, ys[t], descending)
    ensures SortedBy(bs, [h] + ys, descending)
  {
    var r := [h] + ys;
    forall a, b | 0 <= a < b < |r|
      ensures Precedes(bs, r[a], r[b], descending)
    {
      if a > 0 {
        assert r[a] == ys[a - 1] && r[b] == ys[b - 1];
      } else {
        assert r[b] == ys[b - 1];
      }
    }
  }

  lemma {:induction false} InsertSorted(bs: seq<Balance>, x: nat, xs: seq<nat>, descending: bool)
    requires x < |bs| && Below(xs, |bs|)
    requires SortedBy(bs, xs, descending) && x !in xs
    ensures SortedBy(bs, Insert(bs, x, xs, descending), descending)
  {
    if xs == [] {
    } else if Precedes(bs, x, xs[0], descending) {
      forall t | 0 <= t < |xs| ensures Precedes(bs, x, xs[t], descending) {
        if t > 0 {
          assert Precedes(bs, xs[0], xs[t], descending);
        }
      }
      ConsSorted(bs, x, xs, descending);
    } else {
      var head, tail := xs[0], xs[1..];
      assert xs == [head] + tail;
      assert Precedes(bs, head, x, descending);
      assert SortedBy(bs, tail, descending) by {
        forall a, b | 0 <= a < b < |tail|
          ensures Precedes(bs, tail[a], tail[b], descending)
        {
          assert tail[a] == xs[a + 1] && tail[b] == xs[b + 1];
        }
      }
      var rest := Insert(bs, x, tail, descending);
      InsertSorted(bs, x, tail, descending);
      forall t | 0 <= t < |rest|
        ensures Precedes(bs, head, rest[t], descending)
      {
        assert rest[t] in multiset(rest);
        if rest[t] != x {
          assert rest[t] in multiset(tail);
          var m :| 0 <= m < |tail| && tail[m] == rest[t];
          assert xs[m + 1] == rest[t];
        }
      }
      ConsSorted(bs, head, rest, descending);
    }
  }

  /** The `sort` step, as an insertion sort by `Precedes`. */
  function Sort(bs: seq<Balance>, xs: seq<nat>, descending: bool): (r: seq<nat>)
    requires Below(xs, |bs|)
    ensures multiset(r) == multiset(xs)
    ensures Below(r, |bs|)
  {
    if xs == [] then []
    else
      assert xs == [xs[0]] + xs[1..];
      Insert(bs, xs[0], Sort(bs, xs[1..], descending), descending)
  }

  lemma {:induction false} SortSorted(bs: seq<Balance>, xs: seq<nat>, descending: bool)
    requires Below(xs, |bs|) && Distinct(xs)
    ensures SortedBy(bs, Sort(bs, xs, descending), descending)
  {
    if xs != [] {
      assert xs == [xs[0]] + xs[1..];
      SortSorted(bs, xs[1..], descending);
      assert xs[0] !in multiset(xs[1..]);
      InsertSorted(bs, xs[0], Sort(bs, xs[1..], descending), descending);
    }
  }

  /** The creditor list: records above the band, largest balance first. */
  function Creditors(bs: seq<Balance>, band: int): (r: seq<nat>)
    ensures Below(r, |bs|) && Distinct(r)
    ensures SortedBy(bs, r, true)
    ensures forall k :: 0 <= k < |bs| ==> (k in r <==> bs[k].balance > band)
    ensures |r| == SideCount(bs, band, true)
  {
    var selected := Select(bs, |bs|, band, true);
    SortSorted(bs, selected, true);
    var r := Sort(bs, selected, true);
    assert bs[..|bs|] == bs;
    assert |r| == |multiset(r)| == |multiset(selected)| == |selected|;
    assert forall k :: k in r <==> k in selected by {
      forall k ensures k in r <==> k in selected {
        assert k in r <==> k in multiset(r);
        assert k in selected <==> k in multiset(selected);
      }
    }
    r
  }

  /** The debtor list: records below minus the band, most negative balance first. */
  function Debtors(bs: seq<Balance>, band: int): (r: seq<nat>)
    ensures Below(r, |bs|) && Distinct(r)
    ensures SortedBy(bs, r, false)
    ensures forall k :: 0 <= k < |bs| ==> (k in r <==> bs[k].balance < -band)
    ensures |r| == SideCount(bs, band, false)
  {
    var selected := Select(bs, |bs|, band, false);
    SortSorted(bs, selected, false);
    var r := Sort(bs, selected, false);
    assert bs[..|bs|] == bs;
    assert |r| == |multiset(r)| == |multiset(selected)| == |selected|;
    assert forall k :: k in r <==> k in selected by {
      forall k ensures k in r <==> k in selected {
        assert k in r <==> k in multiset(r);
        assert k in selected <==> k in multiset(selected);
      }
    }
    r
  }

  /** Total of the settlement amounts. */
  function TotalAmount(ss: seq<Settlement>): int
  {
    if ss == [] then 0 else TotalAmount(ss[..|ss| - 1]) + ss[|ss| - 1].amount
  }

  /** What user `u` pays across the settlements. */
  function Sent(ss: seq<Settlement>, u: UserId): int
  {
    if ss == [] then 0
    else Sent(ss[..|ss| - 1], u) + (if ss[|ss| - 1].from == u then ss[|ss| - 1].amount else 0)
  }

  /** What user `u` receives across the settlements. */
  function Received(ss: seq<Settlement>, u: UserId): int
  {
    if ss == [] then 0
    else Received(ss[..|ss| - 1], u) + (if ss[|ss| - 1].to == u then ss[|ss| - 1].amount else 0)
  }

  /** The records after applying the settlements: payers move up, payees move down. */
  function Residuals(bs: seq<Balance>, ss: seq<Settlement>): seq<Balance>
  {
    seq(|bs|, k requires 0 <= k < |bs| =>
      bs[k].(balance := bs[k].balance + Sent(ss, bs[k].userId) - Received(ss, bs[k].userId)))
  }

  /** The settlement is from some debtor record of `bs` to some creditor record of `bs`. */
  ghost predicate FromDebtorToCreditor(bs: seq<Balance>, band: int, s: Settlement)
  {
    exists d, c :: 0 <= d < |bs| && 0 <= c < |bs| &&
      bs[d].balance < -band && bs[c].balance > band &&
      s.from == bs[d].userId && s.fromName == bs[d].userName &&
      s.to == bs[c].userId && s.toName == bs[c].userName
  }

  /** Credit held by the creditors of `before`. */
  function Credit(before: seq<Balance>, band: int): int
  {
    SideSum(before, before, band, true)
  }

  /** Debt owed by the debtors of `before`, as a non-negative amount. */
  function Debt(before: seq<Balance>, band: int): int
  {
    -SideSum(before, before, band, false)
  }

  /**
   * Only balances change; a creditor ends between zero and its balance, a
   * debtor between its balance and zero, and records inside the band stay.
   */
  ghost predicate Bounded(before: seq<Balance>, after: seq<Balance>, band: int)
  {
    && |after| == |before|
    && (forall k :: 0 <= k < |before| ==> after[k] == before[k].(balance := after[k].balance))
    && (forall k :: 0 <= k < |before| && before[k].balance > band ==> 0 <= after[k].balance <= before[k].balance)
    && (forall k :: 0 <= k < |before| && before[k].balance < -band ==> before[k].balance <= after[k].balance <= 0)
    && (forall k :: 0 <= k < |before| && -band <= before[k].balance <= band ==> after[k] == before[k])
  }

  /**
   * Every payment is at least one cent and goes from a debtor to a creditor;
   * there is none unless both sides are non-empty, and then fewer than the
   * creditors and debtors together.
   */
  ghost predicate Payments(before: seq<Balance>, ss: seq<Settlement>, band: int)
  {
    var creditors, debtors := SideCount(before, band, true), SideCount(before, band, false);
    && (forall t :: 0 <= t < |ss| ==> ss[t].amount >= Tolerance && FromDebtorToCreditor(before, band, ss[t]))
    && (creditors == 0 || debtors == 0 ==> ss == [])
    && (creditors > 0 && debtors > 0 ==> |ss| <= creditors + debtors - 1)
  }

  /**
   * What is paid is what the creditors were lowered by and what the debtors
   * were raised by, and it is the smaller of the credit and the debt.
   */
  ghost predicate Conserves(before: seq<Balance>, after: seq<Balance>, ss: seq<Settlement>, band: int)
  {
    && |after| == |before|
    && TotalAmount(ss) == Credit(before, band) - SideSum(before, after, band, true)
    && TotalAmount(ss) == SideSum(before, after, band, false) + Debt(before, band)
    && TotalAmount(ss) == Min(Credit(before, band), Debt(before, band))
    && Total(after) == Total(before)
  }

  /**
   * One side ends fully settled; both do when credit equals debt; and when the
   * balances total zero with nobody inside the band except at zero, everyone does.
   */
  ghost predicate Settles(before: seq<Balance>, after: seq<Balance>, band: int)
  {
    && |after| == |before|
    && ((forall k :: 0 <= k < |before| && before[k].balance > band ==> after[k].balance == 0)
        || (forall k :: 0 <= k < |before| && before[k].balance < -band ==> after[k].balance == 0))
    && (Credit(before, band) == Debt(before, band) ==>
          forall k :: 0 <= k < |before| && (before[k].balance > band || before[k].balance < -band) ==> after[k].balance == 0)
    && (Total(before) == 0 &&
        (forall k :: 0 <= k < |before| ==> before[k].balance == 0 || before[k].balance > band || before[k].balance < -band) ==>
          forall k :: 0 <= k < |before| ==> after[k].balance == 0)
  }

  /** With distinct user ids, `after` is `before` with the payments applied, and nobody pays themself. */
  ghost predicate Applies(before: seq<Balance>, after: seq<Balance>, ss: seq<Settlement>)
  {
    DistinctIds(before) ==> after == Residuals(before, ss) && forall t :: 0 <= t < |ss| ==> ss[t].from != ss[t].to
  }

  /**
   * Everything the greedy walk guarantees about the records `before` it ran,
   * the records `after` it ran and the settlements `ss` it emitted.
   */
  ghost predicate GreedyOutcome(before: seq<Balance>, after: seq<Balance>, ss: seq<Settlement>, band: int)
  {
    && Bounded(before, after, band)
    && Payments(before, ss, band)
    && Conserves(before, after, ss, band)
    && Settles(before, after, band)
    && Applies(before, after, ss)
  }

  // ---------------------------------------------------------------------------
  // Facts about side sums and settlement lists

  lemma {:induction false} SideSumAdjust(sides: seq<Balance>, bs: seq<Balance>, band: int, creditors: bool, m: nat, delta: int)
    requires |bs| == |sides| && m < |bs|
    ensures SideSum(sides, Adjust(bs, m, delta), band, creditors)
         == SideSum(sides, bs, band, creditors) + (if OnSide(sides[m], band, creditors) then delta else 0)
  {
    var n := |bs| - 1;
    var v := bs[m].(balance := bs[m].balance + delta);
    if m == n {
      assert bs[m := v][..n] == bs[..n];
    } else {
      assert bs[m := v][..n] == Adjust(bs[..n], m, delta);
      SideSumAdjust(sides[..n], bs[..n], band, creditors, m, delta);
    }
  }

  /** A side sum has the sign its entries share. */
  lemma {:induction false} SideSumSign(sides: seq<Balance>, bs: seq<Balance>, band: int, creditors: bool)
    requires |bs| == |sides|
    ensures (forall k :: 0 <= k < |bs| && OnSide(sides[k], band, creditors) ==> bs[k].balance >= 0) ==>
              SideSum(sides, bs, band, creditors) >= 0
    ensures (forall k :: 0 <= k < |bs| && OnSide(sides[k], band, creditors) ==> bs[k].balance <= 0) ==>
              SideSum(sides, bs, band, creditors) <= 0
  {
    if bs != [] {
      var n := |bs| - 1;
      SideSumSign(sides[..n], bs[..n], band, creditors);
    }
  }

  /** Same-signed entries on a side that sum to zero are all zero. */
  lemma {:induction false} SideSumZero(sides: seq<Balance>, bs: seq<Balance>, band: int, creditors: bool)
    requires |bs| == |sides|
    requires (forall k :: 0 <= k < |bs| && OnSide(sides[k], band, creditors) ==> bs[k].balance >= 0)
          || (forall k :: 0 <= k < |bs| && OnSide(sides[k], band, creditors) ==> bs[k].balance <= 0)
    requires SideSum(sides, bs, band, creditors) == 0
    ensures forall k :: 0 <= k < |bs| && OnSide(sides[k], band, creditors) ==> bs[k].balance == 0
  {
    if bs != [] {
      var n := |bs| - 1;
      SideSumSign(sides[..n], bs[..n], band, creditors);
      SideSumZero(sides[..n], bs[..n], band, creditors);
    }
  }

  /**
   * When every record is zero or outside the band, the balances total what the
   * creditors and the debtors hold between them.
   */
  lemma {:induction false} TotalSides(bs: seq<Balance>, band: int)
    requires band >= 0
    requires forall k :: 0 <= k < |bs| ==> bs[k].balance == 0 || bs[k].balance > band || bs[k].balance < -band
    ensures Total(bs) == SideSum(bs, bs, band, true) + SideSum(bs, bs, band, false)
  {
    if bs != [] {
      TotalSides(bs[..|bs| - 1], band);
    }
  }

  lemma SettlementsSnoc(ss: seq<Settlement>, s: Settlement)
    ensures TotalAmount(ss + [s]) == TotalAmount(ss) + s.amount
    ensures forall u :: Sent(ss + [s], u) == Sent(ss, u) + (if s.from == u then s.amount else 0)
    ensures forall u :: Received(ss + [s], u) == Received(ss, u) + (if s.to == u then s.amount else 0)
  {
    assert (ss + [s])[..|ss|] == ss;
  }

  // ---------------------------------------------------------------------------
  // The greedy walk

  /** One step of the walk on the records: debtor `d` pays creditor `c` the smaller of credit and debt. */
  function Pay(cur: seq<Balance>, c: nat, d: nat): seq<Balance>
    requires c < |cur| && d < |cur|
  {
    var amount := Min(cur[c].balance, -cur[d].balance);
    Adjust(Adjust(cur, c, -amount), d, amount)
  }

  /** Record `k` with `delta` added to its balance. */
  function Adjust(bs: seq<Balance>, k: nat, delta: int): seq<Balance>
    requires k < |bs|
  {
    bs[k := bs[k].(balance := bs[k].balance + delta)]
  }

  /** The settlement that step emits. */
  function Payment(cur: seq<Balance>, c: nat, d: nat): Settlement
    requires c < |cur| && d < |cur|
  {
    Settlement(cur[d].userId, cur[d].userName, cur[c].userId, cur[c].userName, Min(cur[c].balance, -cur[d].balance))
  }

  /**
   * `C` and `D` list, each once, the records above the band and the records
   * below minus the band.
   */
  ghost predicate Split(before: seq<Balance>, band: int, C: seq<nat>, D: seq<nat>)
  {
    && Below(C, |before|) && Distinct(C) && Below(D, |before|) && Distinct(D)
    && (forall k :: 0 <= k < |before| ==> (k in C <==> before[k].balance > band))
    && (forall k :: 0 <= k < |before| ==> (k in D <==> before[k].balance < -band))
  }

  /**
   * Where the walk stands with its cursors at creditor `i` and debtor `j`:
   * the creditors and debtors already passed are at zero, the current ones
   * are partly paid and still outside the tolerance, the rest are untouched,
   * and so is every record that is neither.
   */
  ghost predicate Progress(before: seq<Balance>, cur: seq<Balance>, band: int, C: seq<nat>, D: seq<nat>, i: nat, j: nat)
  {
    && |cur| == |before| && band >= 0 && Split(before, band, C, D)
    && i <= |C| && j <= |D|
    && (forall k :: 0 <= k < |cur| ==> cur[k] == before[k].(balance := cur[k].balance))
    && (forall p :: 0 <= p < i ==> cur[C[p]].balance == 0)
    && (forall p :: i < p < |C| ==> cur[C[p]] == before[C[p]])
    && (i < |C| ==> Tolerance <= cur[C[i]].balance <= before[C[i]].balance)
    && (forall q :: 0 <= q < j ==> cur[D[q]].balance == 0)
    && (forall q :: j < q < |D| ==> cur[D[q]] == before[D[q]])
    && (j < |D| ==> before[D[j]].balance <= cur[D[j]].balance <= -Tolerance)
    && (forall k :: 0 <= k < |cur| && k !in C && k !in D ==> cur[k] == before[k])
  }

  /**
   * What the settlements emitted so far account for: each goes from a debtor
   * to a creditor, together they are what the creditors lost and what the
   * debtors gained, and with distinct ids each record moved by exactly what
   * its user sent minus what it received.
   */
  ghost predicate Accounted(before: seq<Balance>, cur: seq<Balance>, ss: seq<Settlement>, band: int, C: seq<nat>, D: seq<nat>)
  {
    && |cur| == |before| && Split(before, band, C, D)
    && (forall t :: 0 <= t < |ss| ==> ss[t].amount >= Tolerance && FromDebtorToCreditor(before, band, ss[t]))
    && (DistinctIds(before) ==> forall t :: 0 <= t < |ss| ==> ss[t].from != ss[t].to)
    && TotalAmount(ss) == SideSum(before, before, band, true) - SideSum(before, cur, band, true)
    && TotalAmount(ss) == SideSum(before, cur, band, false) - SideSum(before, before, band, false)
    && Total(cur) == Total(before)
    && (DistinctIds(before) ==> forall k :: 0 <= k < |cur| ==>
          cur[k].balance == before[k].balance + Sent(ss, before[k].userId) - Received(ss, before[k].userId))
  }

  /** A step zeroes the current creditor or the current debtor, and keeps `Progress` with the cursors moved past zeroes. */
  lemma ProgressStep(before: seq<Balance>, cur: seq<Balance>, next: seq<Balance>, band: int, C: seq<nat>, D: seq<nat>,
                     i: nat, j: nat, i': nat, j': nat)
    requires Progress(before, cur, band, C, D, i, j) && i < |C| && j < |D|
    requires next == Pay(cur, C[i], D[j])
    requires i' == if next[C[i]].balance < Tolerance then i + 1 else i
    requires j' == if next[D[j]].balance > -Tolerance then j + 1 else j
    ensures i' > i || j' > j
    ensures Progress(before, next, band, C, D, i', j')
  {
    var c, d := C[i], D[j];
    assert C[i] in C && D[j] in D;
    forall p | 0 <= p < i' ensures next[C[p]].balance == 0 {
      if p < i {
        assert C[p] != c && C[p] != d by { assert C[p] in C; }
      }
    }
    forall p | i' < p < |C| ensures next[C[p]] == before[C[p]] {
      assert C[p] != c && C[p] != d by { assert C[p] in C; }
    }
    forall q | 0 <= q < j' ensures next[D[q]].balance == 0 {
      if q < j {
        assert D[q] != c && D[q] != d by { assert D[q] in D; }
      }
    }
    forall q | j' < q < |D| ensures next[D[q]] == before[D[q]] {
      assert D[q] != c && D[q] != d by { assert D[q] in D; }
    }
  }

  /** A step lowers the creditor side and raises the debtor side by the amount it pays. */
  lemma PaySides(before: seq<Balance>, cur: seq<Balance>, band: int, c: nat, d: nat)
    requires |cur| == |before| && c < |cur| && d < |cur|
    requires OnSide(before[c], band, true) && OnSide(before[d], band, false) && band >= 0
    ensures SideSum(before, Pay(cur, c, d), band, true) == SideSum(before, cur, band, true) - Payment(cur, c, d).amount
    ensures SideSum(before, Pay(cur, c, d), band, false) == SideSum(before, cur, band, false) + Payment(cur, c, d).amount
  {
    var amount := Payment(cur, c, d).amount;
    var mid := Adjust(cur, c, -amount);
    SideSumAdjust(before, cur, band, true, c, -amount);
    SideSumAdjust(before, cur, band, false, c, -amount);
    SideSumAdjust(before, mid, band, true, d, amount);
    SideSumAdjust(before, mid, band, false, d, amount);
  }

  /** A step leaves the total of the balances unchanged. */
  lemma PayTotal(cur: seq<Balance>, c: nat, d: nat)
    requires c < |cur| && d < |cur|
    ensures Total(Pay(cur, c, d)) == Total(cur)
  {
    var amount := Payment(cur, c, d).amount;
    var mid := Adjust(cur, c, -amount);
    TotalUpdate(cur, c, mid[c]);
    TotalUpdate(mid, d, Adjust(mid, d, amount)[d]);
  }

  /** A step keeps a record at its original balance plus what its user sent minus what it received. */
  lemma PayResidual(before: seq<Balance>, cur: seq<Balance>, ss: seq<Settlement>, c: nat, d: nat, k: nat)
    requires DistinctIds(before) && |cur| == |before| && c < |cur| && d < |cur| && c != d && k < |cur|
    requires forall m :: 0 <= m < |cur| ==> cur[m].userId == before[m].userId
    requires forall m :: 0 <= m < |cur| ==>
      cur[m].balance == before[m].balance + Sent(ss, before[m].userId) - Received(ss, before[m].userId)
    ensures Payment(cur, c, d).from != Payment(cur, c, d).to
    ensures Pay(cur, c, d)[k].balance == before[k].balance
      + Sent(ss + [Payment(cur, c, d)], before[k].userId) - Received(ss + [Payment(cur, c, d)], before[k].userId)
  {
    SettlementsSnoc(ss, Payment(cur, c, d));
    if k != c {
      assert before[k].userId != before[c].userId by {
        if k > c {
          assert c < k;
        }
      }
    }
    if k != d {
      assert before[k].userId != before[d].userId by {
        if k > d {
          assert d < k;
        }
      }
    }
    assert before[c].userId != before[d].userId by {
      if c > d {
        assert d < c;
      }
    }
  }

  /** With distinct ids, a step keeps every record's residual and adds no self-payment. */
  lemma PayResiduals(before: seq<Balance>, cur: seq<Balance>, next: seq<Balance>, ss: seq<Settlement>, ss': seq<Settlement>,
                     c: nat, d: nat)
    requires DistinctIds(before) && |cur| == |before| && c < |cur| && d < |cur| && c != d
    requires forall m :: 0 <= m < |cur| ==> cur[m].userId == before[m].userId
    requires forall m :: 0 <= m < |cur| ==>
      cur[m].balance == before[m].balance + Sent(ss, before[m].userId) - Received(ss, before[m].userId)
    requires forall t :: 0 <= t < |ss| ==> ss[t].from != ss[t].to
    requires next == Pay(cur, c, d) && ss' == ss + [Payment(cur, c, d)]
    ensures forall t :: 0 <= t < |ss'| ==> ss'[t].from != ss'[t].to
    ensures forall k :: 0 <= k < |next| ==>
      next[k].balance == before[k].balance + Sent(ss', before[k].userId) - Received(ss', before[k].userId)
  {
    PayResidual(before, cur, ss, c, d, c);
    forall t | 0 <= t < |ss'| ensures ss'[t].from != ss'[t].to {
      if t < |ss| {
        assert ss'[t] == ss[t];
      }
    }
    forall k | 0 <= k < |next|
      ensures next[k].balance == before[k].balance + Sent(ss', before[k].userId) - Received(ss', before[k].userId)
    {
      PayResidual(before, cur, ss, c, d, k);
    }
  }

  /** A step keeps `Accounted`, with the step's payment appended. */
  lemma AccountedStep(before: seq<Balance>, cur: seq<Balance>, next: seq<Balance>, ss: seq<Settlement>, ss': seq<Settlement>,
                      band: int, C: seq<nat>, D: seq<nat>, i: nat, j: nat)
    requires Progress(before, cur, band, C, D, i, j) && i < |C| && j < |D|
    requires Accounted(before, cur, ss, band, C, D)
    requires next == Pay(cur, C[i], D[j]) && ss' == ss + [Payment(cur, C[i], D[j])]
    ensures Accounted(before, next, ss', band, C, D)
  {
    var c, d := C[i], D[j];
    assert c in C && d in D;
    assert c !in D && d !in C;
    var s := Payment(cur, c, d);
    SettlementsSnoc(ss, s);
    assert FromDebtorToCreditor(before, band, s);
    forall t | 0 <= t < |ss'|
      ensures ss'[t].amount >= Tolerance && FromDebtorToCreditor(before, band, ss'[t])
    {
      if t < |ss| {
        assert ss'[t] == ss[t];
      }
    }
    PaySides(before, cur, band, c, d);
    PayTotal(cur, c, d);
    if DistinctIds(before) {
      PayResiduals(before, cur, next, ss, ss', c, d);
    }
  }

  /** Records that moved, field by field, as the settlements say are their residuals. */
  lemma ResidualsMatch(before: seq<Balance>, after: seq<Balance>, ss: seq<Settlement>)
    requires |after| == |before|
    requires forall k :: 0 <= k < |before| ==> after[k] == before[k].(balance := after[k].balance)
    requires forall k :: 0 <= k < |after| ==>
      after[k].balance == before[k].balance + Sent(ss, before[k].userId) - Received(ss, before[k].userId)
    ensures after == Residuals(before, ss)
  {
    var r := Residuals(before, ss);
    forall k | 0 <= k < |after| ensures after[k] == r[k] {
    }
  }

  /** Before the first step, nothing is paid and nobody has moved. */
  lemma WalkStart(before: seq<Balance>, band: int, C: seq<nat>, D: seq<nat>)
    requires band >= 0 && Split(before, band, C, D)
    ensures Progress(before, before, band, C, D, 0, 0)
    ensures Accounted(before, before, [], band, C, D)
  {
    if C != [] {
      assert C[0] in C;
    }
    if D != [] {
      assert D[0] in D;
    }
  }

  lemma EndBounded(before: seq<Balance>, after: seq<Balance>, band: int, C: seq<nat>, D: seq<nat>, i: nat, j: nat)
    requires Progress(before, after, band, C, D, i, j)
    ensures Bounded(before, after, band)
  {
    forall k | 0 <= k < |before| && before[k].balance > band
      ensures 0 <= after[k].balance <= before[k].balance
    {
      assert k in C;
    }
    forall k | 0 <= k < |before| && before[k].balance < -band
      ensures before[k].balance <= after[k].balance <= 0
    {
      assert k in D;
    }
  }

  lemma EndPayments(before: seq<Balance>, after: seq<Balance>, ss: seq<Settlement>, band: int, C: seq<nat>, D: seq<nat>,
                    i: nat, j: nat, both: nat)
    requires Accounted(before, after, ss, band, C, D)
    requires i <= |C| && j <= |D| && (i == |C| || j == |D|)
    requires |C| == SideCount(before, band, true) && |D| == SideCount(before, band, false)
    requires C == [] || D == [] ==> ss == []
    requires |ss| + both == i + j
    requires i == |C| && j == |D| && |ss| > 0 ==> both > 0
    ensures Payments(before, ss, band)
  {
  }

  /** When the walk stops, one side is fully settled. */
  lemma EndSide(before: seq<Balance>, after: seq<Balance>, band: int, C: seq<nat>, D: seq<nat>, i: nat, j: nat)
    requires Progress(before, after, band, C, D, i, j) && (i == |C| || j == |D|)
    ensures i == |C| ==> forall k :: 0 <= k < |before| && OnSide(before[k], band, true) ==> after[k].balance == 0
    ensures i < |C| ==> forall k :: 0 <= k < |before| && OnSide(before[k], band, false) ==> after[k].balance == 0
    ensures forall k :: 0 <= k < |before| && OnSide(before[k], band, true) ==> after[k].balance >= 0
    ensures forall k :: 0 <= k < |before| && OnSide(before[k], band, false) ==> after[k].balance <= 0
  {
    EndBounded(before, after, band, C, D, i, j);
    if i == |C| {
      forall k | 0 <= k < |before| && OnSide(before[k], band, true) ensures after[k].balance == 0 {
        assert k in C;
      }
    } else {
      forall k | 0 <= k < |before| && OnSide(before[k], band, false) ensures after[k].balance == 0 {
        assert k in D;
      }
    }
  }

  lemma EndConserves(before: seq<Balance>, after: seq<Balance>, ss: seq<Settlement>, band: int, C: seq<nat>, D: seq<nat>,
                     i: nat, j: nat)
    requires Progress(before, after, band, C, D, i, j) && Accounted(before, after, ss, band, C, D)
    requires i == |C| || j == |D|
    ensures Conserves(before, after, ss, band)
  {
    EndSide(before, after, band, C, D, i, j);
    SideSumSign(before, after, band, true);
    SideSumSign(before, after, band, false);
  }

  lemma EndSettles(before: seq<Balance>, after: seq<Balance>, ss: seq<Settlement>, band: int, C: seq<nat>, D: seq<nat>,
                   i: nat, j: nat)
    requires Progress(before, after, band, C, D, i, j) && Accounted(before, after, ss, band, C, D)
    requires i == |C| || j == |D|
    ensures Settles(before, after, band)
  {
    EndSide(before, after, band, C, D, i, j);
    EndConserves(before, after, ss, band, C, D, i, j);
    if Credit(before, band) == Debt(before, band) {
      if i == |C| {
        SideSumZero(before, after, band, false);
      } else {
        SideSumZero(before, after, band, true);
      }
    }
    if Total(before) == 0 &&
       forall k :: 0 <= k < |before| ==> before[k].balance == 0 || before[k].balance > band || before[k].balance < -band
    {
      TotalSides(before, band);
      if i == |C| {
        SideSumZero(before, after, band, false);
      } else {
        SideSumZero(before, after, band, true);
      }
    }
  }

  /** When the walk stops, `Progress` and `Accounted` give everything `GreedyOutcome` promises. */
  lemma WalkEnd(before: seq<Balance>, after: seq<Balance>, ss: seq<Settlement>, band: int, C: seq<nat>, D: seq<nat>, i: nat, j: nat, both: nat)
    requires Progress(before, after, band, C, D, i, j) && Accounted(before, after, ss, band, C, D)
    requires |C| == SideCount(before, band, true) && |D| == SideCount(before, band, false)
    requires i == |C| || j == |D|
    requires C == [] || D == [] ==> ss == []
    requires |ss| + both == i + j
    requires i == |C| && j == |D| && |ss| > 0 ==> both > 0
    ensures GreedyOutcome(before, after, ss, band)
  {
    EndBounded(before, after, band, C, D, i, j);
    EndPayments(before, after, ss, band, C, D, i, j, both);
    EndConserves(before, after, ss, band, C, D, i, j);
    EndSettles(before, after, ss, band, C, D, i, j);
    if DistinctIds(before) {
      ResidualsMatch(before, after, ss);
    }
  }

  /** Lines 39-40 of calculations.ts: the creditor and debtor lists, filtered and sorted. */
  method Partition(bs: seq<Balance>, band: int) returns (creditors: seq<nat>, debtors: seq<nat>)
    ensures Split(bs, band, creditors, debtors)
    ensures SortedBy(bs, creditors, true) && SortedBy(bs, debtors, false)
    ensures |creditors| == SideCount(bs, band, true) && |debtors| == SideCount(bs, band, false)
  {
    creditors := Creditors(bs, band);
    debtors := Debtors(bs, band);
  }

  /**
   * Lines 46-60 of calculations.ts: the current debtor pays the current creditor
   * the smaller of credit and debt, and both records are updated in place.
   */
  method Transfer(rs: array<Balance>, creditor: nat, debtor: nat) returns (s: Settlement)
    requires creditor < rs.Length && debtor < rs.Length
    modifies rs
    ensures s == Payment(old(rs[..]), creditor, debtor)
    ensures rs[..] == Pay(old(rs[..]), creditor, debtor)
  {
    var amount := Min(rs[creditor].balance, -rs[debtor].balance);
    s := Settlement(rs[debtor].userId, rs[debtor].userName, rs[creditor].userId, rs[creditor].userName, amount);
    ghost var cur := rs[..];
    rs[creditor] := rs[creditor].(balance := rs[creditor].balance - amount);
    assert rs[..] == Adjust(cur, creditor, -amount);
    ghost var mid := rs[..];
    rs[debtor] := rs[debtor].(balance := rs[debtor].balance + amount);
    assert rs[..] == Adjust(mid, debtor, amount);
  }

  /**
   * The loop invariant of the walk: `Progress` and `Accounted`, and the count
   * of payments, where `both` counts the steps that moved both cursors.
   */
  ghost predicate Walking(before: seq<Balance>, cur: seq<Balance>, ss: seq<Settlement>, band: int,
                          C: seq<nat>, D: seq<nat>, i: nat, j: nat, both: nat)
  {
    && Progress(before, cur, band, C, D, i, j)
    && Accounted(before, cur, ss, band, C, D)
    && (C == [] || D == [] ==> ss == [])
    && |ss| + both == i + j
    && (i == |C| && j == |D| && |ss| > 0 ==> both > 0)
  }

  /** One step of the walk keeps `Walking` and moves at least one cursor. */
  lemma WalkStep(before: seq<Balance>, cur: seq<Balance>, next: seq<Balance>, ss: seq<Settlement>, ss': seq<Settlement>,
                 band: int, C: seq<nat>, D: seq<nat>, i: nat, j: nat, both: nat, i': nat, j': nat, both': nat)
    requires Walking(before, cur, ss, band, C, D, i, j, both) && i < |C| && j < |D|
    requires next == Pay(cur, C[i], D[j]) && ss' == ss + [Payment(cur, C[i], D[j])]
    requires i' == if next[C[i]].balance < Tolerance then i + 1 else i
    requires j' == if next[D[j]].balance > -Tolerance then j + 1 else j
    requires both' == if i' > i && j' > j then both + 1 else both
    ensures i' + j' > i + j
    ensures Walking(before, next, ss', band, C, D, i', j', both')
  {
    ProgressStep(before, cur, next, band, C, D, i, j, i', j');
    AccountedStep(before, cur, next, ss, ss', band, C, D, i, j);
  }

  /**
   * Lines 42-64 of calculations.ts: pair the creditors `C` and the debtors `D`
   * greedily, lowering the caller's records in place. The guarantees hold
   * whatever order the two lists are in; the order only decides who pays whom.
   */
  method Walk(rs: array<Balance>, band: int, C: seq<nat>, D: seq<nat>) returns (settlements: seq<Settlement>)
    requires band >= 0 && Split(rs[..], band, C, D)
    requires |C| == SideCount(rs[..], band, true) && |D| == SideCount(rs[..], band, false)
    modifies rs
    ensures GreedyOutcome(old(rs[..]), rs[..], settlements, band)
  {
    ghost var before := rs[..];
    WalkStart(before, band, C, D);
    settlements := [];
    var i, j := 0, 0;
    ghost var both := 0;
    while i < |C| && j < |D|
      invariant Walking(before, rs[..], settlements, band, C, D, i, j, both)
      decreases |C| - i + |D| - j
    {
      ghost var cur, paid, i0, j0, both0 := rs[..], settlements, i, j, both;
      var creditor, debtor := C[i], D[j];
      var s := Transfer(rs, creditor, debtor);
      settlements := settlements + [s];
      if rs[creditor].balance < Tolerance {
        i := i + 1;
      }
      if rs[debtor].balance > -Tolerance {
        j := j + 1;
      }
      both := if i > i0 && j > j0 then both + 1 else both;
      WalkStep(before, cur, rs[..], paid, settlements, band, C, D, i0, j0, both0, i, j, both);
    }
    WalkEnd(before, rs[..], settlements, band, C, D, i, j, both);
  }

  /**
   * Lines 37-67 of calculations.ts with the filter threshold `band`: filter and
   * sort the records into creditors and debtors, then pair them greedily.
   */
  method GreedySettle(rs: array<Balance>, band: int) returns (settlements: seq<Settlement>)
    requires band >= 0
    modifies rs
    ensures GreedyOutcome(old(rs[..]), rs[..], settlements, band)
  {
    var creditors, debtors := Partition(rs[..], band);
    settlements := Walk(rs, band, creditors, debtors);
  }

  // ---------------------------------------------------------------------------
  // Entry points

  /**
   * `calculateSettlements` as written: the filter threshold is one cent and
   * the records handed in are the ones the walk lowers, so the caller's
   * balances come back settled.
   */
  method CalculateSettlements(balances: array<Balance>) returns (settlements: seq<Settlement>)
    modifies balances
    ensures GreedyOutcome(old(balances[..]), balances[..], settlements, Tolerance)
  {
    settlements := GreedySettle(balances, Tolerance);
  }

  /**
   * The same walk on a private copy of the records: the caller's balances are
   * left alone, and the settlements are what `CalculateSettlements` emits.
   */
  method SettlementsFor(balances: seq<Balance>) returns (settlements: seq<Settlement>)
    ensures Payments(balances, settlements, Tolerance)
    ensures exists after :: GreedyOutcome(balances, after, settlements, Tolerance)
    ensures DistinctIds(balances) ==> GreedyOutcome(balances, Residuals(balances, settlements), settlements, Tolerance)
  {
    var rs := new Balance[|balances|](k requires 0 <= k < |balances| => balances[k]);
    assert rs[..] == balances;
    settlements := GreedySettle(rs, Tolerance);
    assert GreedyOutcome(balances, rs[..], settlements, Tolerance);
  }

  /**
   * The walk with every non-zero balance taken into account (a filter
   * threshold of zero cents): when the balances total zero, everyone ends
   * settled, one-cent positions included.
   */
  method SettlementsExact(balances: seq<Balance>) returns (settlements: seq<Settlement>)
    ensures Payments(balances, settlements, 0)
    ensures DistinctIds(balances) ==> GreedyOutcome(balances, Residuals(balances, settlements), settlements, 0)
    ensures DistinctIds(balances) && Total(balances) == 0 ==>
              forall k :: 0 <= k < |balances| ==> Residuals(balances, settlements)[k].balance == 0
  {
    var rs := new Balance[|balances|](k requires 0 <= k < |balances| => balances[k]);
    assert rs[..] == balances;
    settlements := GreedySettle(rs, 0);
  }

  // ---------------------------------------------------------------------------
  // The two discrepancies on concrete records

  /** One side sum of three records, written out. */
  lemma ThreeSides(bs: seq<Balance>, band: int, creditors: bool)
    requires |bs| == 3
    ensures SideSum(bs, bs, band, creditors) == (if OnSide(bs[0], band, creditors) then bs[0].balance else 0)
      + (if OnSide(bs[1], band, creditors) then bs[1].balance else 0) + (if OnSide(bs[2], band, creditors) then bs[2].balance else 0)
  {
    var b2, b1 := bs[..2], bs[..1];
    assert bs[..|bs| - 1] == b2 && b2[..|b2| - 1] == b1 && b1[..|b1| - 1] == [];
    assert SideSum(b1, b1, band, creditors) == (if OnSide(bs[0], band, creditors) then bs[0].balance else 0);
    assert SideSum(b2, b2, band, creditors)
        == SideSum(b1, b1, band, creditors) + (if OnSide(bs[1], band, creditors) then bs[1].balance else 0);
  }

  /** Totals, side counts, credit and debt of three records, written out. */
  lemma ThreeRecords(bs: seq<Balance>, band: int)
    requires |bs| == 3
    ensures Total(bs) == bs[0].balance + bs[1].balance + bs[2].balance
    ensures SideCount(bs, band, false) == (if OnSide(bs[0], band, false) then 1 else 0)
      + (if OnSide(bs[1], band, false) then 1 else 0) + (if OnSide(bs[2], band, false) then 1 else 0)
    ensures Credit(bs, band) == (if OnSide(bs[0], band, true) then bs[0].balance else 0)
      + (if OnSide(bs[1], band, true) then bs[1].balance else 0) + (if OnSide(bs[2], band, true) then bs[2].balance else 0)
    ensures Debt(bs, band) == (if OnSide(bs[0], band, false) then -bs[0].balance else 0)
      + (if OnSide(bs[1], band, false) then -bs[1].balance else 0) + (if OnSide(bs[2], band, false) then -bs[2].balance else 0)
  {
    var b2, b1 := bs[..2], bs[..1];
    assert bs[..|bs| - 1] == b2 && b2[..|b2| - 1] == b1 && b1[..|b1| - 1] == [];
    assert Total(b1) == bs[0].balance;
    assert Total(b2) == Total(b1) + bs[1].balance;
    assert SideCount(b2, band, false) == SideCount(b1, band, false) + (if OnSide(bs[1], band, false) then 1 else 0);
    ThreeSides(bs, band, true);
    ThreeSides(bs, band, false);
  }

  /**
   * Three users after one 60.00 dinner paid by Alice and split three ways:
   * the caller's records all read zero once `CalculateSettlements` returns.
   */
  method CallerRecordsZeroed() returns (before: seq<Balance>, after: seq<Balance>, settlements: seq<Settlement>)
    ensures |before| == 3 && before[0].balance == 4000 && before[1].balance == -2000 && before[2].balance == -2000
    ensures |after| == 3 && after[0].balance == 0 && after[1].balance == 0 && after[2].balance == 0
    ensures TotalAmount(settlements) == 4000
  {
    before := [Balance("alice", "Alice", "#ef4444", 4000), Balance("bob", "Bob", "#3b82f6", -2000),
               Balance("carol", "Carol", "#10b981", -2000)];
    var rs := new Balance[3](k requires 0 <= k < 3 => before[k]);
    assert rs[..] == before;
    ThreeRecords(before, Tolerance);
    settlements := CalculateSettlements(rs);
    after := rs[..];
  }

  /**
   * Alice is owed two cents, Bob and Carol owe one cent each: the balances
   * total zero, yet the one-cent debts fall outside the filter, no payment is
   * suggested and Alice stays owed two cents.
   */
  method OneCentDebtsIgnored() returns (balances: seq<Balance>, settlements: seq<Settlement>)
    ensures Total(balances) == 0 && DistinctIds(balances)
    ensures |balances| == 3 && balances[0].balance == 2 && balances[1].balance == -1 && balances[2].balance == -1
    ensures settlements == []
    ensures |balances| == 3 && Residuals(balances, settlements)[0].balance == 2
  {
    balances := [Balance("alice", "Alice", "#ef4444", 2), Balance("bob", "Bob", "#3b82f6", -1),
                 Balance("carol", "Carol", "#10b981", -1)];
    ThreeRecords(balances, Tolerance);
    settlements := SettlementsFor(balances);
  }

  /** The same records with the zero-cent threshold: the one-cent debts are paid and everyone is settled. */
  method OneCentDebtsSettled() returns (balances: seq<Balance>, settlements: seq<Settlement>)
    ensures Total(balances) == 0 && DistinctIds(balances)
    ensures |balances| == 3 && balances[0].balance == 2 && balances[1].balance == -1 && balances[2].balance == -1
    ensures TotalAmount(settlements) == 2
    ensures forall k :: 0 <= k < |balances| ==> Residuals(balances, settlements)[k].balance == 0
  {
    balances := [Balance("alice", "Alice", "#ef4444", 2), Balance("bob", "Bob", "#3b82f6", -1),
                 Balance("carol", "Carol", "#10b981", -1)];
    ThreeRecords(balances, 0);
    settlements := SettlementsExact(balances);
  }
}
