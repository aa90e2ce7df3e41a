/** The 24-month balance projection behind the simulation chart: two loans
    are paid down by a fixed step per month, each balance floored at 0. */
module Projection {
  import opened Loans

  /** Number of months the projection covers; each trajectory holds the
      starting balance plus one entry per month. */
  const Months: nat := 24

  /** The floor applied after each monthly subtraction: a balance that went
      negative becomes 0. */
  function ClampAtZero(b: int): (r: int)
    ensures r >= 0 && r >= b
    ensures b < 0 ==> r == 0
    ensures b >= 0 ==> r == b
  {
    if b < 0 then 0 else b
  }

  /** The balance after `k` months, starting from `init` and subtracting
      `step` every month with the floor at 0. A negative step raises it. */
  function BalanceAt(init: int, step: int, k: nat): (b: int)
    ensures init >= 0 || k > 0 ==> b >= 0
  {
    if k == 0 then init else ClampAtZero(BalanceAt(init, step, k - 1) - step)
  }

  function Max(a: int, b: int): int
  {
    if a < b then b else a
  }

  /** Closed form: the balance after k months is max(0, init - k*step), for
      every integer step, including negative ones (the floor never fires
      then) and positive ones (a balance that reaches 0 stays there). */
  lemma {:induction false} BalanceAtClosedForm(init: int, step: int, k: nat)
    requires init >= 0
    ensures BalanceAt(init, step, k) == Max(0, init - k * step)
  {
    if k > 0 {
      BalanceAtClosedForm(init, step, k - 1);
      assert (k - 1) * step == k * step - step;
      if step < 0 {
        assert init - (k - 1) * step >= init;
      }
    }
  }

  /** With a non-negative step the balance never rises. */
  lemma {:induction false} NonIncreasingWhenPaying(init: int, step: int, i: nat, j: nat)
    requires init >= 0 && step >= 0 && i <= j
    ensures BalanceAt(init, step, j) <= BalanceAt(init, step, i)
    decreases j - i
  {
    if i < j {
      NonIncreasingWhenPaying(init, step, i, j - 1);
    }
  }

  /** With a non-negative step, a balance that has reached 0 stays at 0. */
  lemma {:induction false} StaysAtZero(init: int, step: int, i: nat, j: nat)
    requires init >= 0 && step >= 0 && i <= j
    requires BalanceAt(init, step, i) == 0
    ensures BalanceAt(init, step, j) == 0
    decreases j - i
  {
    if i < j {
      StaysAtZero(init, step, i, j - 1);
    }
  }

  /** With a non-positive step the balance never falls. */
  lemma {:induction false} NonDecreasingWhenNegative(init: int, step: int, i: nat, j: nat)
    requires init >= 0 && step <= 0 && i <= j
    ensures BalanceAt(init, step, i) <= BalanceAt(init, step, j)
    decreases j - i
  {
    if i < j {
      NonDecreasingWhenNegative(init, step, i, j - 1);
    }
  }

  /** The trajectory of the first n months: the starting balance followed by
      the balance after each month, n + 1 entries in all. */
  function Trajectory(init: int, step: int, n: nat): (t: seq<int>)
    ensures |t| == n + 1
  {
    if n == 0 then [init] else Trajectory(init, step, n - 1) + [BalanceAt(init, step, n)]
  }

  /** Entry k of a trajectory is the balance after k months. */
  lemma {:induction false} TrajectoryAt(init: int, step: int, n: nat, k: nat)
    requires k <= n
    ensures Trajectory(init, step, n)[k] == BalanceAt(init, step, k)
  {
    if k < n {
      TrajectoryAt(init, step, n - 1, k);
    }
  }

  /** Every entry of a trajectory from a non-negative start is
      max(0, init - k*step), hence non-negative, whatever the step's sign. */
  lemma TrajectoryClosedForm(init: int, step: int, n: nat)
    requires init >= 0
    ensures forall k :: 0 <= k <= n ==> Trajectory(init, step, n)[k] == Max(0, init - k * step) >= 0
  {
    forall k | 0 <= k <= n
      ensures Trajectory(init, step, n)[k] == Max(0, init - k * step)
    {
      TrajectoryAt(init, step, n, k);
      BalanceAtClosedForm(init, step, k);
    }
  }

  /** Shape of a trajectory: with a non-negative step it never rises and,
      once at 0, stays at 0; with a non-positive step it never falls. */
  lemma TrajectoryMonotone(init: int, step: int, n: nat, i: nat, j: nat)
    requires init >= 0 && i <= j <= n
    ensures step >= 0 ==> Trajectory(init, step, n)[j] <= Trajectory(init, step, n)[i]
    ensures step >= 0 && Trajectory(init, step, n)[i] == 0 ==> Trajectory(init, step, n)[j] == 0
    ensures step <= 0 ==> Trajectory(init, step, n)[i] <= Trajectory(init, step, n)[j]
  {
    TrajectoryAt(init, step, n, i);
    TrajectoryAt(init, step, n, j);
    if step >= 0 {
      NonIncreasingWhenPaying(init, step, i, j);
      if BalanceAt(init, step, i) == 0 {
        StaysAtZero(init, step, i, j);
      }
    }
    if step <= 0 {
      NonDecreasingWhenNegative(init, step, i, j);
    }
  }

  /** The projection loop: starting from the Busan and pension amounts, for
      months 1 to 24 subtract the pension's fixed principal and the user's
      extra payment, floor each at 0 and append it to its trajectory. Both
      results are the 24-month trajectories of their loans, so they have 25
      entries, start at the loan amounts, and never go below 0. */
  method Project(extra: int) returns (busanData: seq<int>, pensionData: seq<int>)
    ensures busanData == Trajectory(BusanLoan.amount, extra, Months)
    ensures pensionData == Trajectory(PensionLoan.amount, PensionPrincipalMonthly, Months)
    ensures |busanData| == Months + 1 && |pensionData| == Months + 1
    ensures busanData[0] == BusanLoan.amount && pensionData[0] == PensionLoan.amount
    ensures forall k :: 0 <= k <= Months ==> busanData[k] >= 0 && pensionData[k] >= 0
  {
    var busanBalance: int := BusanLoan.amount;
    var pensionBalance: int := PensionLoan.amount;
    busanData := [busanBalance];
    pensionData := [pensionBalance];

    for month := 1 to Months + 1
      invariant busanBalance == BalanceAt(BusanLoan.amount, extra, month - 1)
      invariant pensionBalance == BalanceAt(PensionLoan.amount, PensionPrincipalMonthly, month - 1)
      invariant busanData == Trajectory(BusanLoan.amount, extra, month - 1)
      invariant pensionData == Trajectory(PensionLoan.amount, PensionPrincipalMonthly, month - 1)
    {
      pensionBalance := pensionBalance - PensionPrincipalMonthly;
      if pensionBalance < 0 { pensionBalance := 0; }
      pensionData := pensionData + [pensionBalance];

      busanBalance := busanBalance - extra;
      if busanBalance < 0 { busanBalance := 0; }
      busanData := busanData + [busanBalance];
    }

    TrajectoryAt(BusanLoan.amount, extra, Months, 0);
    TrajectoryAt(PensionLoan.amount, PensionPrincipalMonthly, Months, 0);
    TrajectoryClosedForm(BusanLoan.amount, extra, Months);
    TrajectoryClosedForm(PensionLoan.amount, PensionPrincipalMonthly, Months);
  }

  /** The pension trajectory: entry k is max(0, 9,500,000 - 400,000*k); it
      reaches 0 exactly at month 24, and month 23 still holds 300,000. */
  lemma PensionSchedule(k: nat)
    requires k <= Months
    ensures Trajectory(PensionLoan.amount, PensionPrincipalMonthly, Months)[k] == Max(0, 9_500_000 - 400_000 * k)
    ensures Trajectory(PensionLoan.amount, PensionPrincipalMonthly, Months)[k] == 0 <==> k == Months
    ensures Trajectory(PensionLoan.amount, PensionPrincipalMonthly, Months)[23] == 300_000
  {
    TrajectoryClosedForm(PensionLoan.amount, PensionPrincipalMonthly, Months);
  }
}
