// lib/services/payroll.ts: monthly pay per worker from a role rate table
// (160 hours, a 5% bonus for active workers, 10% deductions) and the payroll
// totals. Percentages are exact rationals rounded half up, as `Math.round`.
module Payroll {
  import opened Wrappers
  import opened Numbers

  /** The fields of a worker record that payroll reads. */
  datatype Worker = Worker(id: int, name: string, role: string, status: string)

  datatype WorkerPayment = WorkerPayment(
    workerId: int,
    workerName: string,
    role: string,
    hoursWorked: int,
    hourlyRate: int,
    basePay: int,
    bonuses: int,
    deductions: int,
    totalPay: int)

  datatype PayrollResult = PayrollResult(
    totalWorkers: nat,
    totalBasePay: int,
    totalBonuses: int,
    totalDeductions: int,
    totalPayroll: int,
    averagePay: int)

  /** 40 hours a week for four weeks. */
  const MonthlyHours := 160

  /** `calculatePayroll`'s rate chain: four named roles, 15000 for any other. */
  function HourlyRate(role: string): int {
    if role == "Manager" then 25000
    else if role == "Technician" then 20000
    else if role == "Farmer" then 15000
    else if role == "Laborer" then 12000
    else 15000
  }

  /** `Math.round(basePay * 0.05)` for an active worker, else 0. */
  function Bonus(basePay: int, status: string): int {
    if status == "Active" then Round(basePay as real * 5.0 / 100.0) else 0
  }

  /** `Math.round(basePay * 0.1)` */
  function Deduction(basePay: int): int {
    Round(basePay as real * 10.0 / 100.0)
  }

  /** The payment record for `hours` at `rate`. */
  function Payment(worker: Worker, hours: int, rate: int): WorkerPayment {
    var basePay := hours * rate;
    var bonuses := Bonus(basePay, worker.status);
    var deductions := Deduction(basePay);
    WorkerPayment(worker.id, worker.name, worker.role, hours, rate, basePay, bonuses, deductions,
      basePay + bonuses - deductions)
  }

  /** The `map` callback of `calculatePayroll`. */
  function PayrollPayment(worker: Worker): WorkerPayment {
    Payment(worker, MonthlyHours, HourlyRate(worker.role))
  }

  function Payments(workers: seq<Worker>): (ps: seq<WorkerPayment>)
    ensures |ps| == |workers|
    ensures forall i :: 0 <= i < |workers| ==> ps[i] == PayrollPayment(workers[i])
  {
    seq(|workers|, i requires 0 <= i < |workers| => PayrollPayment(workers[i]))
  }

  /** The three `reduce` sums over the payments. */
  function SumBase(ps: seq<WorkerPayment>): int {
    if ps == [] then 0 else SumBase(ps[..|ps| - 1]) + ps[|ps| - 1].basePay
  }

  function SumBonuses(ps: seq<WorkerPayment>): int {
    if ps == [] then 0 else SumBonuses(ps[..|ps| - 1]) + ps[|ps| - 1].bonuses
  }

  function SumDeductions(ps: seq<WorkerPayment>): int {
    if ps == [] then 0 else SumDeductions(ps[..|ps| - 1]) + ps[|ps| - 1].deductions
  }

  /** The sum of the per-worker totals, which `calculatePayroll` never computes directly. */
  function SumTotalPay(ps: seq<WorkerPayment>): int {
    if ps == [] then 0 else SumTotalPay(ps[..|ps| - 1]) + ps[|ps| - 1].totalPay
  }

  /** `calculatePayroll(workers)` */
  function CalculatePayroll(workers: seq<Worker>): PayrollResult {
    var ps := Payments(workers);
    var totalBasePay := SumBase(ps);
    var totalBonuses := SumBonuses(ps);
    var totalDeductions := SumDeductions(ps);
    var totalPayroll := totalBasePay + totalBonuses - totalDeductions;
    PayrollResult(|workers|, totalBasePay, totalBonuses, totalDeductions, totalPayroll,
      if |workers| > 0 then Round(totalPayroll as real / |workers| as real) else 0)
  }

  /** `calculateWorkerPayment`'s rate chain as written: it has no "Laborer" case. */
  function WorkerPaymentRate(role: string): int {
    if role == "Manager" then 25000
    else if role == "Technician" then 20000
    else if role == "Farmer" then 15000
    else 15000
  }

  /** `calculateWorkerPayment(worker, hoursWorked = 160)` as written; `None` is an omitted hours argument. */
  function CalculateWorkerPayment(worker: Worker, hoursWorked: Option<int>): WorkerPayment {
    Payment(worker, if hoursWorked.None? then MonthlyHours else hoursWorked.value, WorkerPaymentRate(worker.role))
  }

  /** `calculateWorkerPayment` with the "Laborer" rate of `calculatePayroll`'s table. */
  function CalculateWorkerPaymentCorrected(worker: Worker, hoursWorked: Option<int>): WorkerPayment {
    Payment(worker, if hoursWorked.None? then MonthlyHours else hoursWorked.value, HourlyRate(worker.role))
  }

  // ---------------------------------------------------------------------------
  // Properties

  /** The rate table: the four named roles and 15000 for everything else. */
  lemma RateTable(role: string)
    ensures role == "Manager" ==> HourlyRate(role) == 25000
    ensures role == "Technician" ==> HourlyRate(role) == 20000
    ensures role == "Farmer" ==> HourlyRate(role) == 15000
    ensures role == "Laborer" ==> HourlyRate(role) == 12000
    ensures role !in {"Manager", "Technician", "Farmer", "Laborer"} ==> HourlyRate(role) == 15000
  {
  }

  /** A rate that is a multiple of 20 makes both percentages exact: no rounding happens. */
  lemma ExactPercentages(hours: int, rate: int, status: string)
    requires rate % 20 == 0
    ensures Bonus(hours * rate, status) == (if status == "Active" then hours * (rate / 20) else 0)
    ensures Deduction(hours * rate) == hours * (rate / 10)
  {
    var b := hours * rate;
    assert b == 20 * (hours * (rate / 20));
    assert b as real * 5.0 / 100.0 == (hours * (rate / 20)) as real;
    RoundInt(hours * (rate / 20));
    assert b as real * 10.0 / 100.0 == (hours * (rate / 10)) as real;
    RoundInt(hours * (rate / 10));
  }

  /**
   * Each worker's monthly pay: base 160 times the rate, bonus 5% of base when
   * active, deductions 10% of base, so the pay is 95% of base for an active
   * worker and 90% otherwise.
   */
  lemma PayrollPaymentRule(worker: Worker)
    ensures var p := PayrollPayment(worker);
      && p.hoursWorked == 160 && p.hourlyRate == HourlyRate(worker.role)
      && p.basePay == 160 * p.hourlyRate
      && p.bonuses == (if worker.status == "Active" then p.basePay / 20 else 0)
      && p.deductions == p.basePay / 10
      && p.totalPay == p.basePay + p.bonuses - p.deductions
      && 20 * p.totalPay == (if worker.status == "Active" then 19 else 18) * p.basePay
  {
    var rate := HourlyRate(worker.role);
    ExactPercentages(160, rate, worker.status);
  }

  /** `totalPayroll` is the sum of the per-worker `totalPay` values. */
  lemma {:induction false} SumsSplit(ps: seq<WorkerPayment>)
    requires forall i :: 0 <= i < |ps| ==> ps[i].totalPay == ps[i].basePay + ps[i].bonuses - ps[i].deductions
    ensures SumTotalPay(ps) == SumBase(ps) + SumBonuses(ps) - SumDeductions(ps)
    decreases |ps|
  {
    if ps != [] {
      var init := ps[..|ps| - 1];
      forall i | 0 <= i < |init|
        ensures init[i].totalPay == init[i].basePay + init[i].bonuses - init[i].deductions
      {
        assert init[i] == ps[i];
      }
      SumsSplit(init);
    }
  }

  lemma TotalPayrollIsSumOfPay(workers: seq<Worker>)
    ensures CalculatePayroll(workers).totalPayroll == SumTotalPay(Payments(workers))
    ensures CalculatePayroll(workers).totalWorkers == |workers|
  {
    SumsSplit(Payments(workers));
  }

  /** Every monthly pay lies between a non-active laborer's 1728000 and an active manager's 3800000. */
  lemma PayBounds(worker: Worker)
    ensures 1728000 <= PayrollPayment(worker).totalPay <= 3800000
  {
    PayrollPaymentRule(worker);
  }

  lemma {:induction false} SumTotalPayBounds(workers: seq<Worker>, ps: seq<WorkerPayment>)
    requires ps == Payments(workers)
    ensures 1728000 * |ps| <= SumTotalPay(ps) <= 3800000 * |ps|
    decreases |ps|
  {
    if ps != [] {
      var init := workers[..|workers| - 1];
      assert Payments(init) == ps[..|ps| - 1];
      SumTotalPayBounds(init, ps[..|ps| - 1]);
      PayBounds(workers[|workers| - 1]);
    }
  }

  /** The average pay is 0 for no workers and otherwise within the single-worker bounds. */
  lemma AveragePayBounds(workers: seq<Worker>)
    ensures |workers| == 0 ==> CalculatePayroll(workers).averagePay == 0
    ensures |workers| > 0 ==> 1728000 <= CalculatePayroll(workers).averagePay <= 3800000
  {
    if |workers| > 0 {
      TotalPayrollIsSumOfPay(workers);
      SumTotalPayBounds(workers, Payments(workers));
      var t := CalculatePayroll(workers).totalPayroll;
      var n := |workers| as real;
      AverageBetween(t as real, n, 1728000, 3800000);
    }
  }

  /** Rounding an average of integers between two integer bounds stays between them. */
  lemma AverageBetween(t: real, n: real, lo: int, hi: int)
    requires n > 0.0 && lo as real * n <= t <= hi as real * n
    ensures lo <= Round(t / n) <= hi
  {
    var a := t / n;
    assert a * n == t;
    MulMonotone(a, lo as real, n);
    MulMonotone(hi as real, a, n);
  }

  /** Multiplying by a positive factor keeps a strict order. */
  lemma MulMonotone(x: real, y: real, n: real)
    requires n > 0.0
    ensures x < y ==> x * n < y * n
  {
  }

  /** No workers: every total and the average are 0. */
  lemma EmptyPayroll()
    ensures CalculatePayroll([]) == PayrollResult(0, 0, 0, 0, 0, 0)
  {
  }

  /** Outside "Laborer" the two rate chains agree, so the default-hours payment is the payroll's. */
  lemma WorkerPaymentAgrees(worker: Worker)
    requires worker.role != "Laborer"
    ensures CalculateWorkerPayment(worker, None) == PayrollPayment(worker)
  {
  }

  /** A laborer is paid at 15000 by `calculateWorkerPayment` but at 12000 by `calculatePayroll`. */
  lemma LaborerRateDiffers(worker: Worker)
    requires worker.role == "Laborer"
    ensures CalculateWorkerPayment(worker, None).hourlyRate == 15000
    ensures PayrollPayment(worker).hourlyRate == 12000
    ensures CalculateWorkerPayment(worker, None).totalPay > PayrollPayment(worker).totalPay
  {
    PayrollPaymentRule(worker);
    ExactPercentages(160, 15000, worker.status);
  }

  /** The corrected payment agrees with the payroll for every worker at the default hours. */
  lemma CorrectedAgrees(worker: Worker)
    ensures CalculateWorkerPaymentCorrected(worker, None) == PayrollPayment(worker)
    ensures CalculateWorkerPaymentCorrected(worker, None).hourlyRate == HourlyRate(worker.role)
  {
  }
}
