# Personal debt dashboard: loan table and 24-month balance projection

This project models the computational core of a browser dashboard that
tracks four personal loans (`app.js`). The core has three parts:

- **Loans**: the static loan table (Shinhee-ta mortgage, Busan Bank loan,
  Samsung Life insurance loan, pension loan) and the total debt, computed as
  a left-to-right `reduce` over the four amounts.
- **Projection**: the loop in `updateSimulation` that runs for months 1 to 24.
  Each month it subtracts 400,000 from the pension balance and the user's
  extra payment from the Busan balance, floors each balance at 0, and appends
  it to that loan's trajectory. `Project` mirrors the loop with its two
  running balances and two growing sequences. Its result is tied to the
  specification function `Trajectory`, which is built from `BalanceAt`, the
  month-by-month recurrence. The lemmas prove the closed form
  `max(0, amount - k*step)` and the shape of the trajectories.
- **Simulation**: the slider's value is coerced with `Number(x) || 0`. The
  first run uses `Number(slider.value) || 500000`. The year-1 and year-2 Busan
  figures are shown in units of 10,000 with `Math.round`. The cash-flow bars
  hold the extra payment twice and two fixed interest figures.

What `app.js` does and does not compute:

- `app.js` has no annuity formula, grace period, interest computation or
  phase summary. The `monthlyInterest` fields of the loan table and the
  interest bars `[530000, 480000]` are constants, and they are modelled as
  constants.
- `Number(x) || 0` keeps negative numbers. With a negative extra payment the
  Busan balance grows every month and the floor at 0 never fires. The closed
  form `BalanceAtClosedForm` holds for every integer extra payment.
- Subtracting and then flooring at 0 is the same as paying down
  `min(step, balance)` when the step is non-negative.

Loan rates (1.6%, 4.5%, 4.12%, 3.0%) are kept as integers in hundredths of a
percent. No computation uses them.

## Model

| member | source | states |
|---|---|---|
| `Loans.TotalDebt` | app.js:1-9 | the reduction of the table's amounts from 0 equals the sum of the four amounts, which is 295,789,000, and every loan's amount lies between 0 and the total |
| `Loans.ReduceIsSum` | app.js:9 | `ReduceAmounts`, the left fold `(acc, loan) => acc + loan.amount` started at `acc`, gives `acc` plus the sum of the amounts, for any list of loans |
| `Loans.AmountWithinSum` | app.js:8-9 | each loan's amount is at most the sum of all amounts |
| `Projection.ClampAtZero` | app.js:146 | the floor `if (balance < 0) balance = 0` gives 0 for a negative input and the input itself otherwise, so the result is non-negative and at least its input |
| `Projection.BalanceAt` | app.js:144-150 | the balance after k months is non-negative whenever k > 0 or the start is non-negative |
| `Projection.BalanceAtClosedForm` | app.js:135-150 | for every integer step, including negative ones the coercion lets through, the balance after k months from a non-negative start is `max(0, init - k*step)` |
| `Projection.NonIncreasingWhenPaying` | app.js:149-150 | with a non-negative step, the balance at a later month is never above the balance at an earlier one |
| `Projection.StaysAtZero` | app.js:149-150 | with a non-negative step, a balance that has reached 0 is 0 at every later month |
| `Projection.NonDecreasingWhenNegative` | app.js:135-150 | with a non-positive step, the balance at a later month is never below the balance at an earlier one |
| `Projection.Trajectory` | app.js:141-151 | the data array after n months holds n + 1 entries |
| `Projection.TrajectoryAt` | app.js:141-151 | entry k of the data array is the balance after k months |
| `Projection.TrajectoryClosedForm` | app.js:144-151 | every entry k of a trajectory from a non-negative start equals `max(0, init - k*step)` and is non-negative, whatever the sign of the step |
| `Projection.TrajectoryMonotone` | app.js:144-151 | with step ≥ 0 a trajectory never rises and stays at 0 once it reaches 0; with step ≤ 0 it never falls |
| `Projection.Project` | app.js:139-152 | the loop returns the 24-month Busan trajectory for the extra payment and the pension trajectory for 400,000 a month: 25 entries each, starting at 43,000,000 and 9,500,000, all non-negative |
| `Projection.PensionSchedule` | app.js:139-147 | pension entry k is `max(0, 9,500,000 - 400,000*k)`, it is 0 exactly at month 24, and month 23 holds 300,000 |
| `Simulation.CoerceExtra` | app.js:135 | the extra payment is the numeric input itself, negative values included, and 0 for non-numeric input |
| `Simulation.InitialExtra` | app.js:199-201 | the first run's extra payment is never 0: it is the slider's value when that is a non-zero number, and 500,000 when there is no slider or its value is NaN or 0 |
| `Simulation.JsRound` | app.js:158-159 | `Math.round` returns the integer r with r - 0.5 ≤ v < r + 0.5, so it picks the nearest integer and rounds halves up |
| `Simulation.TenThousands` | app.js:158-159 | the displayed figure `Math.round(x / 10000)` equals `(x + 5000) / 10000` for every integer x |
| `Simulation.UpdateSimulation` | app.js:134-167 | one run shows the coerced extra payment and charts both trajectories. The year-1 and year-2 figures are `max(0, 43,000,000 - 12*extra)` and `max(0, 43,000,000 - 24*extra)` rounded half up to units of 10,000. The bars are `[530000, 480000]` and `[extra, extra]` |
| `Simulation.NotANumberKeepsBusanConstant` | app.js:135-151 | with non-numeric input, every Busan entry is 43,000,000 |
| `Simulation.DefaultScenario` | app.js:149-159 | with 500,000 a month, Busan entries 12 and 24 are 37,000,000 and 31,000,000, shown as 3,700 and 3,100 |

## Left out

- Chart.js construction, dataset assignment and `.update()` calls (app.js:13-132, 154-156, 168): rendering through a foreign library. `UpdateSimulation` returns the values the charts receive.
- DOM lookups, `innerText` writes, `setupTabs` and the event listeners in `init` (app.js:136-137, 161-164, 171-214): UI glue. Only the initial-value expression of `init` is modelled (`InitialExtra`).
- `toLocaleString`, `toFixed` and the tooltip percentage `value / totalDebt * 100` (app.js:39-40, 105): locale formatting and floating point. `paymentDisplay`, `year1Balance` and `year2Balance` hold the numbers before formatting.
- The cash-flow chart's fixed principal series, including the constant 520,000 (app.js:11, 120-121): chart configuration with no computation.
- CoerceExtra: slider values are modelled as integers or NaN. Fractional values, `Infinity` and the double-precision rounding of JavaScript numbers are not modelled.
- TenThousands: the division by 10,000 is exact here. For balances beyond 2^53, which only a very large negative extra payment could produce, a JavaScript double would lose precision.
