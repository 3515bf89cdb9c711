/** The `School` record and its ten-year forecast (streamlit_app.py:25-77). */
module Projector {
  import opened Common
  import opened Table

  const BasePpr: real := 14000.0             // year-1 revenue per pupil
  const BasePersonnelCost: real := 9000.0    // year-1 personnel cost per pupil
  const InitialFixedCost: real := 200000.0   // year-1 local fixed cost
  const FixedCostInflation: real := 1.02     // 2% a year on fixed goods
  const GrowthStep: int := 100               // pupils added a year by a growth school
  const OgDebtService: real := 600000.0      // owned facility in the Obligated Group
  const LeaseDebtService: real := 400000.0   // leased facility

  /** The yearly debt service of a school, by Obligated-Group membership. */
  function DebtService(isOg: bool): real {
    if isOg then OgDebtService else LeaseDebtService
  }

  /** What the constructor fixes about a school and `forecast` never changes. */
  datatype Profile = Profile(name: string, enrollment: int, isOg: bool, isGrowth: bool)

  /** Enrollment in year y (1-based): a growth school has already added its
      100 pupils for year y when the row is written. */
  function EnrollmentIn(p: Profile, y: nat): int {
    p.enrollment + (if p.isGrowth then GrowthStep * y else 0)
  }

  /** Per-pupil revenue in year y: compounded at the COLA from year 1. */
  function PprIn(sc: Scenario, y: nat): real
    requires y >= 1
  {
    Compounded(BasePpr, 1.0 + sc.cola, y)
  }

  /** Per-pupil personnel cost in year y: compounded at the salary step. */
  function PersonnelPerPupilIn(sc: Scenario, y: nat): real
    requires y >= 1
  {
    Compounded(BasePersonnelCost, 1.0 + sc.salaryGrowth, y)
  }

  /** Fixed operating cost in year y, given the fixed cost on entry. */
  function FixedOpsIn(fixed0: real, y: nat): real
    requires y >= 1
  {
    Compounded(fixed0, FixedCostInflation, y)
  }

  /** A per-pupil amount over a whole enrollment. */
  function PerPupil(enrollment: int, amount: real): real {
    enrollment as real * amount
  }

  /** The management fee on a gross revenue. */
  function FeeOn(gross: real, feePct: real): real {
    gross * feePct
  }

  /** The row `forecast` writes for year y, given the fixed cost on entry. */
  function ForecastRow(p: Profile, fixed0: real, y: nat, sc: Scenario): Row
    requires y >= 1
  {
    var e := EnrollmentIn(p, y);
    var gross := PerPupil(e, PprIn(sc, y));
    Row(
      index := y - 1,
      year := y,
      school := p.name,
      enrollment := e,
      gross := gross,
      fee := FeeOn(gross, sc.feePct),
      personnel := PerPupil(e, PersonnelPerPupilIn(sc, y)),
      fixedOps := FixedOpsIn(fixed0, y),
      baseRent := DebtService(p.isOg),
      rent := Unassigned,
      netIncome := 0.0,
      margin := None)
  }

  /** The first n rows of a forecast, year-ascending. */
  function ForecastRows(p: Profile, fixed0: real, n: nat, sc: Scenario): seq<Row> {
    if n == 0 then [] else ForecastRows(p, fixed0, n - 1, sc) + [ForecastRow(p, fixed0, n, sc)]
  }

  /** A forecast over n years has n rows; row k is year k + 1 with index label
      k, the school's name and the Net Income placeholder 0. */
  lemma {:induction false} ForecastRowsShape(p: Profile, fixed0: real, n: nat, sc: Scenario)
    ensures |ForecastRows(p, fixed0, n, sc)| == n
    ensures forall k :: 0 <= k < n ==> ForecastRows(p, fixed0, n, sc)[k] == ForecastRow(p, fixed0, k + 1, sc)
    ensures forall k :: 0 <= k < n ==>
      var r := ForecastRows(p, fixed0, n, sc)[k];
      r.year == k + 1 && r.index == k && r.school == p.name && r.netIncome == 0.0 && r.rent == Unassigned
  {
    if n > 0 {
      ForecastRowsShape(p, fixed0, n - 1, sc);
    }
  }

  /** Enrollment rule: flat for a legacy school; start + 100 * y for a growth
      school, so year 1 already carries one step. */
  lemma EnrollmentRule(p: Profile, fixed0: real, y: nat, sc: Scenario)
    requires y >= 1
    ensures !p.isGrowth ==> ForecastRow(p, fixed0, y, sc).enrollment == p.enrollment
    ensures p.isGrowth ==> ForecastRow(p, fixed0, y, sc).enrollment == p.enrollment + 100 * y
    ensures p.isGrowth ==> ForecastRow(p, fixed0, y + 1, sc).enrollment == ForecastRow(p, fixed0, y, sc).enrollment + 100
  {
  }

  /** With a non-negative COLA and a non-negative start enrollment, gross
      revenue never falls from one year to the next. */
  lemma {:induction false} GrossNonDecreasing(p: Profile, fixed0: real, y: nat, sc: Scenario)
    requires y >= 1 && sc.cola >= 0.0 && p.enrollment >= 0
    ensures ForecastRow(p, fixed0, y, sc).gross <= ForecastRow(p, fixed0, y + 1, sc).gross
  {
    CompoundedMonotone(BasePpr, 1.0 + sc.cola, y);
    MulMonotone(EnrollmentIn(p, y) as real, EnrollmentIn(p, y + 1) as real, PprIn(sc, y), PprIn(sc, y + 1));
  }

  /** Fee, personnel and rent rules of a row, stated as the shares and
      products they are. */
  lemma RowRelations(p: Profile, fixed0: real, y: nat, sc: Scenario)
    requires y >= 1 && sc.InRange() && p.enrollment >= 0
    ensures var r := ForecastRow(p, fixed0, y, sc);
      && r.fee == r.gross * sc.feePct
      && 0.10 * r.gross <= r.fee <= 0.20 * r.gross
      && r.baseRent == (if p.isOg then 600000.0 else 400000.0)
      && r.baseRent == ForecastRow(p, fixed0, 1, sc).baseRent
  {
    var r := ForecastRow(p, fixed0, y, sc);
    CompoundedMonotone(BasePpr, 1.0 + sc.cola, y);
    assert r.gross >= 0.0;
  }

  /** A second forecast starts where the first left the fixed cost: its
      Fixed Ops continue the inflation of the first, so with a positive fixed
      cost the two forecasts differ (forecast is not idempotent). */
  lemma FixedOpsCarryOver(p: Profile, fixed0: real, years: nat, y: nat, sc: Scenario)
    requires y >= 1
    ensures ForecastRow(p, FixedOpsIn(fixed0, years + 1), y, sc).fixedOps
         == ForecastRow(p, fixed0, years + y, sc).fixedOps
  {
    CompoundedContinue(fixed0, FixedCostInflation, years, y);
  }

  lemma FixedOpsNotIdempotent(p: Profile, fixed0: real, years: nat, sc: Scenario)
    requires fixed0 > 0.0 && years >= 1
    ensures ForecastRow(p, FixedOpsIn(fixed0, years + 1), 1, sc).fixedOps
         >  ForecastRow(p, fixed0, 1, sc).fixedOps
  {
    CompoundedGrows(fixed0, FixedCostInflation, years + 1);
  }

  /** A school of the fleet. Every field is fixed at construction except the
      local fixed cost, which each forecast inflates in place. */
  class School {
    const name: string
    const enrollment: int
    const isOg: bool
    const isGrowth: bool
    const basePpr: real := BasePpr
    const basePersonnelCost: real := BasePersonnelCost
    var fixedCost: real
    const debtService: real := DebtService(isOg)

    constructor (name: string, startEnrollment: int, isOg: bool, isGrowth: bool)
      ensures ProfileView() == Profile(name, startEnrollment, isOg, isGrowth)
      ensures fixedCost == InitialFixedCost
    {
      this.name := name;
      this.enrollment := startEnrollment;
      this.isOg := isOg;
      this.isGrowth := isGrowth;
      this.fixedCost := InitialFixedCost;
    }

    function ProfileView(): Profile {
      Profile(name, enrollment, isOg, isGrowth)
    }

    /** One row per year 1..years, and the fixed cost left inflated by
        2% for each year forecast. */
    method Forecast(years: nat, sc: Scenario) returns (rows: seq<Row>)
      modifies this
      ensures rows == ForecastRows(ProfileView(), old(fixedCost), years, sc)
      ensures fixedCost == FixedOpsIn(old(fixedCost), years + 1)
    {
      rows := [];
      var currentEnrollment := enrollment;
      var currentPpr := basePpr;
      var currentPersonnel := basePersonnelCost;
      for year := 1 to years + 1
        invariant currentEnrollment == EnrollmentIn(ProfileView(), year - 1)
        invariant currentPpr == PprIn(sc, year)
        invariant currentPersonnel == PersonnelPerPupilIn(sc, year)
        invariant fixedCost == FixedOpsIn(old(fixedCost), year)
        invariant rows == ForecastRows(ProfileView(), old(fixedCost), year - 1, sc)
      {
        if isGrowth {
          currentEnrollment := currentEnrollment + GrowthStep;
        }
        var grossRevenue := PerPupil(currentEnrollment, currentPpr);
        var mgmtFee := FeeOn(grossRevenue, sc.feePct);
        var personnel := PerPupil(currentEnrollment, currentPersonnel);
        var row := Row(
          index := year - 1,
          year := year,
          school := name,
          enrollment := currentEnrollment,
          gross := grossRevenue,
          fee := mgmtFee,
          personnel := personnel,
          fixedOps := fixedCost,
          baseRent := debtService,
          rent := Unassigned,
          netIncome := 0.0,
          margin := None);
        ghost var expected := ForecastRow(ProfileView(), old(fixedCost), year, sc);
        assert currentEnrollment == expected.enrollment;
        assert grossRevenue == expected.gross;
        assert personnel == expected.personnel;
        assert fixedCost == expected.fixedOps;
        assert debtService == expected.baseRent;
        assert row == expected;
        rows := rows + [row];
        currentPpr := currentPpr * (1.0 + sc.cola);
        currentPersonnel := currentPersonnel * (1.0 + sc.salaryGrowth);
        fixedCost := fixedCost * FixedCostInflation;
      }
    }
  }

  /** Two forecasts of the same school object: the second one's Fixed Ops
      start where the first one's inflation left off. */
  method ForecastTwice(sc: Scenario) returns (first: seq<Row>, second: seq<Row>)
    ensures |first| == |second| == 10
    ensures first[0].fixedOps == InitialFixedCost
    ensures second[0].fixedOps == FixedOpsIn(InitialFixedCost, 11)
    ensures first != second
  {
    var s := new School("School A (OG)", 500, true, false);
    first := s.Forecast(10, sc);
    second := s.Forecast(10, sc);
    ForecastRowsShape(s.ProfileView(), InitialFixedCost, 10, sc);
    ForecastRowsShape(s.ProfileView(), FixedOpsIn(InitialFixedCost, 11), 10, sc);
    FixedOpsNotIdempotent(s.ProfileView(), InitialFixedCost, 10, sc);
    assert first[0].fixedOps != second[0].fixedOps;
  }
}
