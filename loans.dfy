/** The dashboard's static loan registry and the total debt computed from it. */
module Loans {

  datatype LoanKind = Mortgage | Credit | Insurance | Pension

  /** One entry of the loan table. The annual rate is kept in hundredths of a
      percent (1.6% is 160) so that it stays an integer; the monthly interest
      is a hard-coded figure of the table, not a computed one. */
  datatype Loan = Loan(
    name: string,
    amount: nat,
    rateHundredths: nat,
    monthlyInterest: nat,
    kind: LoanKind)

  const ShinheeLoan := Loan("Shinhee-ta Mortgage", 232_119_000, 160, 309_492, Mortgage)
  const BusanLoan := Loan("Busan Bank Loan", 43_000_000, 450, 161_250, Credit)
  const SamsungLoan := Loan("Samsung Life Insurance", 11_170_000, 412, 38_350, Insurance)
  const PensionLoan := Loan("Pension Loan", 9_500_000, 300, 23_750, Pension)

  /** The table's values in declaration order, as the dashboard enumerates them. */
  const LoanValues: seq<Loan> := [ShinheeLoan, BusanLoan, SamsungLoan, PensionLoan]

  /** Principal paid off the pension loan every month of the projection. */
  const PensionPrincipalMonthly: int := 400_000

  /** Left-to-right accumulation of the amounts, starting from `acc`:
      the reduction `(acc, loan) => acc + loan.amount`. */
  function ReduceAmounts(acc: int, loans: seq<Loan>): int
    decreases |loans|
  {
    if loans == [] then acc else ReduceAmounts(acc + loans[0].amount, loans[1..])
  }

  /** Reference definition: the plain sum of the amounts. */
  function SumAmounts(loans: seq<Loan>): (s: nat)
    ensures loans != [] ==> s >= loans[0].amount
  {
    if loans == [] then 0 else loans[0].amount + SumAmounts(loans[1..])
  }

  /** The reduction computes the accumulator plus the sum of the amounts. */
  lemma {:induction false} ReduceIsSum(acc: int, loans: seq<Loan>)
    ensures ReduceAmounts(acc, loans) == acc + SumAmounts(loans)
    decreases |loans|
  {
    if loans != [] {
      ReduceIsSum(acc + loans[0].amount, loans[1..]);
    }
  }

  /** Every loan's amount is part of the sum, so none exceeds it. */
  lemma {:induction false} AmountWithinSum(loans: seq<Loan>, i: nat)
    requires i < |loans|
    ensures loans[i].amount <= SumAmounts(loans)
    decreases |loans|
  {
    if i > 0 {
      AmountWithinSum(loans[1..], i - 1);
    }
  }

  /** The total debt: the reduction of the table's amounts from 0. It is the
      sum of the four amounts, 295,789,000, and bounds every single amount. */
  function TotalDebt(): (total: int)
    ensures total == ShinheeLoan.amount + BusanLoan.amount + SamsungLoan.amount + PensionLoan.amount
    ensures total == 295_789_000
    ensures forall i :: 0 <= i < |LoanValues| ==> 0 <= LoanValues[i].amount <= total
  {
    ReduceIsSum(0, LoanValues);
    assert LoanValues[1..] == [BusanLoan, SamsungLoan, PensionLoan];
    assert LoanValues[1..][1..] == [SamsungLoan, PensionLoan];
    assert LoanValues[1..][1..][1..] == [PensionLoan];
    assert SumAmounts([PensionLoan]) == PensionLoan.amount;
    assert SumAmounts([SamsungLoan, PensionLoan]) == SamsungLoan.amount + PensionLoan.amount;
    assert SumAmounts(LoanValues[1..]) == BusanLoan.amount + SamsungLoan.amount + PensionLoan.amount;
    forall i | 0 <= i < |LoanValues|
      ensures LoanValues[i].amount <= SumAmounts(LoanValues)
    {
      AmountWithinSum(LoanValues, i);
    }
    ReduceAmounts(0, LoanValues)
  }
}
