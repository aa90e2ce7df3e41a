/** The slider-driven simulation: coercion of the slider's value, the
    projection it feeds, and the figures shown beside the charts. */
module Simulation {
  import opened Loans
  import opened Projection

  /** What JavaScript's `Number(...)` yields for the slider's value: an
      integer, or NaN for input that is not numeric. */
  datatype JsNumber = Num(value: int) | NaN

  datatype Option<T> = None | Some(value: T)

  /** JavaScript's `v || fallback` on a number: NaN and 0 are falsy and give
      the fallback, every other number is kept. */
  function OrElse(v: JsNumber, fallback: int): int
  {
    if v.Num? && v.value != 0 then v.value else fallback
  }

  /** The extra monthly payment the simulation uses: `Number(x) || 0`.
      Non-numeric input becomes 0; negative numbers are kept as they are. */
  function CoerceExtra(v: JsNumber): (extra: int)
    ensures v.Num? ==> extra == v.value
    ensures v.NaN? ==> extra == 0
  {
    OrElse(v, 0)
  }

  /** Extra payment used when the page loads and the slider gives nothing usable. */
  const DefaultExtra: int := 500_000

  /** The first simulation's input: the slider's value if there is a slider
      and its value is a non-zero number, 500,000 otherwise. So a slider
      resting at 0 on load still starts the simulation at 500,000. */
  function InitialExtra(slider: Option<JsNumber>): (extra: int)
    ensures extra != 0
    ensures slider.Some? && slider.value.Num? && slider.value.value != 0 ==> extra == slider.value.value
    ensures slider == None || slider == Some(NaN) || slider == Some(Num(0)) ==> extra == 500_000
  {
    match slider
    case None => DefaultExtra
    case Some(v) => OrElse(v, DefaultExtra)
  }

  /** JavaScript's `Math.round`: the nearest integer, halves rounded up. */
  function JsRound(v: real): (r: int)
    ensures r as real - 0.5 <= v < r as real + 0.5
  {
    (v + 0.5).Floor
  }

  /** A balance in units of 10,000 won, as the result fields show it:
      `Math.round(x / 10000)`, with the division taken exactly. On integers
      this is integer division rounding half up. */
  function TenThousands(x: int): (r: int)
    ensures r == (x + 5000) / 10000
  {
    JsRound(x as real / 10000.0)
  }

  /** Interest amounts of the two cash-flow bars: fixed figures, not computed. */
  const InterestBars: seq<int> := [530_000, 480_000]

  /** Everything one run of the simulation hands to the page. */
  datatype SimulationView = SimulationView(
    paymentDisplay: int,
    busanData: seq<int>,
    pensionData: seq<int>,
    year1Balance: int,
    year2Balance: int,
    interestBars: seq<int>,
    extraBars: seq<int>)

  /** One run of the simulation for the slider's value: coerce it, project
      both loans over 24 months, and derive the year-1 and year-2 Busan
      figures (entries 12 and 24 in units of 10,000, rounded half up) and the
      extra-payment bars. */
  method UpdateSimulation(input: JsNumber) returns (view: SimulationView)
    ensures view.paymentDisplay == CoerceExtra(input)
    ensures view.busanData == Trajectory(BusanLoan.amount, CoerceExtra(input), Months)
    ensures view.pensionData == Trajectory(PensionLoan.amount, PensionPrincipalMonthly, Months)
    ensures view.year1Balance == (Max(0, 43_000_000 - 12 * CoerceExtra(input)) + 5000) / 10000
    ensures view.year2Balance == (Max(0, 43_000_000 - 24 * CoerceExtra(input)) + 5000) / 10000
    ensures view.interestBars == [530_000, 480_000]
    ensures view.extraBars == [CoerceExtra(input), CoerceExtra(input)]
  {
    var extra := CoerceExtra(input);
    var busanData, pensionData := Project(extra);
    var year1Balance := TenThousands(busanData[12]);
    var year2Balance := TenThousands(busanData[24]);
    view := SimulationView(extra, busanData, pensionData, year1Balance, year2Balance,
                           InterestBars, [extra, extra]);

    TrajectoryClosedForm(BusanLoan.amount, extra, Months);
  }

  /** Non-numeric input leaves the Busan balance at 43,000,000 every month. */
  lemma NotANumberKeepsBusanConstant(k: nat)
    requires k <= Months
    ensures Trajectory(BusanLoan.amount, CoerceExtra(NaN), Months)[k] == 43_000_000
  {
    TrajectoryClosedForm(BusanLoan.amount, CoerceExtra(NaN), Months);
  }

  /** The load-time scenario of 500,000 a month: 37,000,000 after a year and
      31,000,000 after two, shown as 3,700 and 3,100. */
  lemma DefaultScenario()
    ensures Trajectory(BusanLoan.amount, DefaultExtra, Months)[12] == 37_000_000
    ensures Trajectory(BusanLoan.amount, DefaultExtra, Months)[24] == 31_000_000
    ensures TenThousands(37_000_000) == 3_700 && TenThousands(31_000_000) == 3_100
  {
    TrajectoryClosedForm(BusanLoan.amount, DefaultExtra, Months);
  }
}
