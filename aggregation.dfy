/** The figures every report of the app is built from: totals of transactions of one
    type (filter by `type`, then reduce `amount || 0`), category percentages, goal
    progress, the amount still to save and the recommended monthly saving. */
module Aggregation {
  import opened Prims
  import opened Models

  /** `t.amount || 0`: a missing amount counts as zero. */
  function AmountOf(t: Transaction): int {
    if t.amount.Some? then t.amount.value else 0
  }

  /** `t.type === kind` */
  predicate HasType(t: Transaction, kind: string) {
    t.kind == Some(kind)
  }

  /** `transactions.filter(t => t.type === kind)` */
  function OfType(txs: seq<Transaction>, kind: string): (r: seq<Transaction>)
    ensures |r| <= |txs|
    ensures forall t :: t in r <==> t in txs && HasType(t, kind)
  {
    if txs == [] then []
    else (if HasType(txs[0], kind) then [txs[0]] else []) + OfType(txs[1..], kind)
  }

  /** `.reduce((sum, t) => sum + (t.amount || 0), 0)` */
  function SumAmounts(txs: seq<Transaction>): int {
    if txs == [] then 0 else SumAmounts(txs[..|txs| - 1]) + AmountOf(txs[|txs| - 1])
  }

  function TotalOfType(txs: seq<Transaction>, kind: string): int {
    SumAmounts(OfType(txs, kind))
  }

  function TotalIncome(txs: seq<Transaction>): int {
    TotalOfType(txs, INCOME)
  }

  function TotalExpenses(txs: seq<Transaction>): int {
    TotalOfType(txs, EXPENSE)
  }

  lemma {:induction false} OfTypeAppend(a: seq<Transaction>, b: seq<Transaction>, kind: string)
    ensures OfType(a + b, kind) == OfType(a, kind) + OfType(b, kind)
  {
    if a == [] {
      assert a + b == b;
    } else {
      assert (a + b)[0] == a[0];
      assert (a + b)[1..] == a[1..] + b;
      OfTypeAppend(a[1..], b, kind);
    }
  }

  lemma {:induction false} SumAppend(a: seq<Transaction>, b: seq<Transaction>)
    ensures SumAmounts(a + b) == SumAmounts(a) + SumAmounts(b)
  {
    if b == [] {
      assert a + b == a;
    } else {
      var c := a + b;
      assert c[..|c| - 1] == a + b[..|b| - 1];
      assert c[|c| - 1] == b[|b| - 1];
      SumAppend(a, b[..|b| - 1]);
    }
  }

  /** What a total of one type means: appending a transaction adds its amount (zero when
      missing) exactly when its type matches, and leaves the total alone otherwise. */
  lemma {:induction false} TotalOfTypeStep(txs: seq<Transaction>, t: Transaction, kind: string)
    ensures TotalOfType(txs + [t], kind)
         == TotalOfType(txs, kind) + (if HasType(t, kind) then AmountOf(t) else 0)
  {
    OfTypeAppend(txs, [t], kind);
    assert OfType([t], kind) == (if HasType(t, kind) then [t] else []) + OfType([], kind);
    SumAppend(OfType(txs, kind), OfType([t], kind));
    if HasType(t, kind) {
      assert SumAmounts([t]) == SumAmounts([]) + AmountOf(t);
    }
  }

  /** The empty list has zero totals. */
  lemma TotalsOfEmpty(kind: string)
    ensures TotalOfType([], kind) == 0
  {
  }

  /** A transaction whose type is neither 'income' nor 'expense' moves neither total. */
  lemma OtherTypesIgnored(txs: seq<Transaction>, t: Transaction)
    requires !HasType(t, INCOME) && !HasType(t, EXPENSE)
    ensures TotalIncome(txs + [t]) == TotalIncome(txs)
    ensures TotalExpenses(txs + [t]) == TotalExpenses(txs)
  {
    TotalOfTypeStep(txs, t, INCOME);
    TotalOfTypeStep(txs, t, EXPENSE);
  }

  /** With non-negative amounts every total is non-negative. */
  lemma {:induction false} TotalNonNegative(txs: seq<Transaction>, kind: string)
    requires forall i :: 0 <= i < |txs| ==> AmountOf(txs[i]) >= 0
    ensures TotalOfType(txs, kind) >= 0
  {
    if txs != [] {
      var init := txs[..|txs| - 1];
      assert txs == init + [txs[|txs| - 1]];
      TotalNonNegative(init, kind);
      TotalOfTypeStep(init, txs[|txs| - 1], kind);
    }
  }

  /** `totalExpenses > 0 ? Math.round((amount / totalExpenses) * 100) : 0` */
  function Percentage(amount: int, total: int): (r: int)
    ensures total <= 0 ==> r == 0
    ensures total > 0 ==> 200 * amount - total < 2 * total * r <= 200 * amount + total
  {
    if total > 0 then RoundDiv(100 * amount, total) else 0
  }

  /** A share of the total is a percentage between 0 and 100. */
  lemma PercentageInRange(amount: int, total: int)
    requires 0 <= amount <= total
    ensures 0 <= Percentage(amount, total) <= 100
  {
    if total > 0 {
      var r := Percentage(amount, total);
      MulMonotone(2 * total, 101, r);
      MulMonotone(2 * total, r, -1);
    }
  }

  /** Goal progress: `targetAmount > 0 ? Math.min(Math.round(current / target * 100), 100) : 0`.
      It is 0 for a degenerate target, never above 100, 100 once the target is reached,
      and otherwise the rounded percentage. */
  function GoalProgress(current: int, target: int): (p: int)
    ensures target <= 0 ==> p == 0
    ensures p <= 100
    ensures target > 0 && current >= 0 ==> p >= 0
    ensures target > 0 && current >= target ==> p == 100
    ensures target > 0 && p < 100 ==> 200 * current - target < 2 * target * p <= 200 * current + target
    ensures target > 0 && p == 100 ==> 200 * current + target >= 200 * target
  {
    if target > 0 then
      var r := RoundDiv(100 * current, target);
      RoundedProgressFacts(current, target, r);
      Min(r, 100)
    else 0
  }

  /** What the rounding bounds of `Math.round(current / target * 100)` give for a positive
      target: a non-negative amount rounds to at least 0, a reached target to at least 100,
      and a result of at least 100 means the percentage rounds up to 100 or more. */
  lemma RoundedProgressFacts(current: int, target: int, r: int)
    requires target > 0
    requires 200 * current - target < 2 * target * r <= 200 * current + target
    ensures current >= 0 ==> r >= 0
    ensures current >= target ==> r >= 100
    ensures r >= 100 ==> 200 * current + target >= 200 * target
  {
    MulMonotone(2 * target, r, -1);
    MulMonotone(2 * target, r, 99);
    MulMonotone(2 * target, 100, r);
  }

  /** `Math.max(0, targetAmount - currentAmount)` */
  function Remaining(target: int, current: int): (r: int)
    ensures r >= 0 && r >= target - current
    ensures r == 0 || r == target - current
  {
    Max(0, target - current)
  }

  /** Thirty days in milliseconds: the month the reports count in. */
  const MONTH_MS: int := 30 * 24 * 60 * 60 * 1000

  /** `Math.max(1, Math.ceil((targetDate - now) / MONTH_MS))`: whole 30-day months left,
      never less than one, so a due or overdue goal counts as one month away. */
  function MonthsRemaining(targetDate: int, now: int): (m: int)
    ensures m >= 1
    ensures targetDate - now <= MONTH_MS ==> m == 1
    ensures targetDate - now > 0 ==> MONTH_MS * (m - 1) < targetDate - now <= MONTH_MS * m
  {
    Max(1, CeilDiv(targetDate - now, MONTH_MS))
  }

  /** `Math.ceil(remainingAmount / monthsRemaining)` in whole rupees for an amount in paise:
      the least monthly saving that reaches the remaining amount in time. */
  function MonthlySaving(remaining: int, months: int): (s: int)
    requires months >= 1
    ensures 100 * months * (s - 1) < remaining <= 100 * months * s
  {
    CeilDiv(remaining, 100 * months)
  }

  /** The monthly saving is never negative and never more than the whole remaining amount
      (rounded up to rupees). */
  lemma MonthlySavingBounded(remaining: int, months: int)
    requires remaining >= 0 && months >= 1
    ensures 0 <= MonthlySaving(remaining, months) <= CeilDiv(remaining, 100)
  {
    var s := MonthlySaving(remaining, months);
    var c := CeilDiv(remaining, 100);
    MulMonotone(100 * months, s, -1);
    MulMonotone(100 * months, c, s - 1);
    MulMonotone(c, 1, months);
    assert 100 * months * c == 100 * (c * months);
  }
}
