/** The simulation run (streamlit_app.py:93-136): forecast every school of
    the fleet, then take the table year by year through the rent pass and
    the close of the books. */
module Simulation {
  import opened Common
  import opened Table
  import opened Projector
  import opened Smoothing
  import opened Settlement
  import opened Fleet

  const Years: nat := 10   // `forecast` runs ten years

  /** The forecasts of `ps`, concatenated in fleet order (`all_data`). */
  function Concat(ps: seq<Profile>, sc: Scenario): seq<Row> {
    if ps == [] then []
    else Concat(ps[..|ps| - 1], sc) + ForecastRows(ps[|ps| - 1], InitialFixedCost, Years, sc)
  }

  function AllData(sc: Scenario): seq<Row> {
    Concat(FleetProfiles(sc), sc)
  }

  /** One row per school of `ps` for year y, in fleet order. */
  function FleetYear(ps: seq<Profile>, y: nat, sc: Scenario): (rows: seq<Row>)
    requires y >= 1
    ensures |rows| == |ps|
  {
    seq(|ps|, i requires 0 <= i < |ps| => ForecastRow(ps[i], InitialFixedCost, y, sc))
  }

  /** The year outputs of years 1..n, concatenated (`full_forecast`). */
  function Outputs(all: seq<Row>, n: nat, sc: Scenario): seq<Row>
    requires forall y :: 1 <= y <= n ==> RateDefined(InYear(all, y), sc)
  {
    if n == 0 then [] else Outputs(all, n - 1, sc) + YearOutput(InYear(all, n), sc)
  }

  function FullForecast(sc: Scenario): seq<Row> {
    AllDataRateDefined(sc);
    Outputs(AllData(sc), Years, sc)
  }

  /** The run: build the fleet, forecast each school in turn, then process
      year by year. */
  method Simulate(sc: Scenario) returns (full: seq<Row>)
    ensures full == FullForecast(sc)
  {
    var allData := ForecastFleet(sc);
    AllDataRateDefined(sc);
    full := ProcessYears(allData, sc);
  }

  /** streamlit_app.py:84-97: build the schools and concatenate their
      forecasts. */
  method ForecastFleet(sc: Scenario) returns (allData: seq<Row>)
    ensures allData == AllData(sc)
  {
    var schools := BuildFleet(sc);
    allData := [];
    for i := 0 to |schools|
      invariant allData == Concat(FleetProfiles(sc)[..i], sc)
      invariant forall j :: i <= j < |schools| ==> schools[j].fixedCost == InitialFixedCost
    {
      var rows := schools[i].Forecast(Years, sc);
      ConcatPrefix(FleetProfiles(sc), i, sc);
      allData := allData + rows;
    }
    assert FleetProfiles(sc)[..|schools|] == FleetProfiles(sc);
  }

  /** One more school's forecast extends the concatenation of a prefix. */
  lemma ConcatPrefix(ps: seq<Profile>, i: int, sc: Scenario)
    requires 0 <= i < |ps|
    ensures Concat(ps[..i + 1], sc) == Concat(ps[..i], sc) + ForecastRows(ps[i], InitialFixedCost, Years, sc)
  {
    assert ps[..i + 1][..i] == ps[..i];
  }

  /** streamlit_app.py:100-137: each year's rows through the rent pass and
      the close, appended in year order. */
  method ProcessYears(allData: seq<Row>, sc: Scenario) returns (full: seq<Row>)
    requires forall y :: RateDefined(InYear(allData, y), sc)
    ensures full == Outputs(allData, Years, sc)
  {
    full := [];
    for year := 1 to Years + 1
      invariant full == Outputs(allData, year - 1, sc)
    {
      var closed := ProcessYear(InYear(allData, year), sc);
      full := full + closed;
    }
  }

  /** One pass of the year loop: the year's rows copied into a buffer, rents
      charged in place, then net incomes and margins closed. */
  method ProcessYear(yearRows: seq<Row>, sc: Scenario) returns (closed: seq<Row>)
    requires RateDefined(yearRows, sc)
    ensures closed == YearOutput(yearRows, sc)
  {
    var yearSlice := new Row[|yearRows|](k requires 0 <= k < |yearRows| => yearRows[k]);
    assert yearSlice[..] == yearRows;
    SmoothYear(yearSlice, sc);
    SmoothedAllAssigned(yearRows, sc);
    closed := SettleAll(yearSlice[..]);
  }

  // ---- the shape of the table ----

  lemma {:induction false} ForecastYear(p: Profile, fixed0: real, n: nat, y: nat, sc: Scenario)
    requires 1 <= y
    ensures InYear(ForecastRows(p, fixed0, n, sc), y)
         == if y <= n then [ForecastRow(p, fixed0, y, sc)] else []
  {
    if n > 0 {
      ForecastYear(p, fixed0, n - 1, y, sc);
      InYearAppend(ForecastRows(p, fixed0, n - 1, sc), [ForecastRow(p, fixed0, n, sc)], y);
      if n == y {
        assert InYear([ForecastRow(p, fixed0, n, sc)], y) == [ForecastRow(p, fixed0, n, sc)];
      } else {
        assert InYear([ForecastRow(p, fixed0, n, sc)], y) == [];
      }
    }
  }

  lemma {:induction false} ConcatYear(ps: seq<Profile>, y: nat, sc: Scenario)
    requires 1 <= y <= Years
    ensures InYear(Concat(ps, sc), y) == FleetYear(ps, y, sc)
  {
    if ps != [] {
      var init := ps[..|ps| - 1];
      var last := ForecastRows(ps[|ps| - 1], InitialFixedCost, Years, sc);
      ConcatYear(init, y, sc);
      InYearAppend(Concat(init, sc), last, y);
      ForecastYear(ps[|ps| - 1], InitialFixedCost, Years, y, sc);
      FleetYearSnoc(ps, y, sc);
    }
  }

  lemma FleetYearSnoc(ps: seq<Profile>, y: nat, sc: Scenario)
    requires ps != [] && y >= 1
    ensures FleetYear(ps, y, sc)
         == FleetYear(ps[..|ps| - 1], y, sc) + [ForecastRow(ps[|ps| - 1], InitialFixedCost, y, sc)]
  {
    var init := ps[..|ps| - 1];
    var row := ForecastRow(ps[|ps| - 1], InitialFixedCost, y, sc);
    forall k | 0 <= k < |ps|
      ensures FleetYear(ps, y, sc)[k] == (FleetYear(init, y, sc) + [row])[k]
    {
      if k < |init| {
        assert init[k] == ps[k];
      }
    }
  }

  /** Year y of the table holds one row per school of the fleet, in fleet
      order, each the school's forecast row for y. */
  lemma YearSlice(sc: Scenario, y: nat)
    requires 1 <= y <= Years
    ensures InYear(AllData(sc), y) == FleetYear(FleetProfiles(sc), y, sc)
  {
    ConcatYear(FleetProfiles(sc), y, sc);
  }

  /** Each school of a year pays the fee share of its own gross revenue. */
  lemma FleetYearFees(ps: seq<Profile>, y: nat, sc: Scenario)
    requires y >= 1
    ensures forall k :: 0 <= k < |ps| ==> FleetYear(ps, y, sc)[k].fee == FeeOn(FleetYear(ps, y, sc)[k].gross, sc.feePct)
  {
  }

  /** Every row of the fleet's forecast has pupils. */
  lemma {:induction false} ConcatPositive(ps: seq<Profile>, sc: Scenario)
    requires forall i :: 0 <= i < |ps| ==> ps[i].enrollment > 0
    ensures forall k :: 0 <= k < |Concat(ps, sc)| ==> Concat(ps, sc)[k].enrollment > 0
  {
    if ps != [] {
      var init := ps[..|ps| - 1];
      ConcatPositive(init, sc);
      var p := ps[|ps| - 1];
      ForecastRowsShape(p, InitialFixedCost, Years, sc);
      var rows := ForecastRows(p, InitialFixedCost, Years, sc);
      assert forall k :: 0 <= k < |rows| ==> rows[k].enrollment > 0 by {
        forall k | 0 <= k < |rows|
          ensures rows[k].enrollment > 0
        {
          assert rows[k] == ForecastRow(p, InitialFixedCost, k + 1, sc);
          if p.isGrowth {
            PositiveProduct(GrowthStep, k + 1);
          }
        }
      }
    }
  }

  /** The division of the rent pass is defined in every year of the run. */
  lemma AllDataRateDefined(sc: Scenario)
    ensures forall y :: RateDefined(InYear(AllData(sc), y), sc)
  {
    ConcatPositive(FleetProfiles(sc), sc);
    forall y
      ensures RateDefined(InYear(AllData(sc), y), sc)
    {
      InYearFrom(AllData(sc), y);
      PoolEnrollmentPositive(InYear(AllData(sc), y), sc.growthJoinOg);
    }
  }

  /** The rent pass and the close keep every row in its year and keep the
      row count. */
  lemma YearOutputKeepsRows(slice: seq<Row>, sc: Scenario)
    requires RateDefined(slice, sc)
    ensures forall k :: 0 <= k < |slice| ==>
      var out := YearOutput(slice, sc)[k];
      out.year == slice[k].year && out.school == slice[k].school && out.index == slice[k].index
      && out.enrollment == slice[k].enrollment && out.gross == slice[k].gross && out.fee == slice[k].fee
      && out.baseRent == slice[k].baseRent && out.rent.Assigned?
  {
    SmoothWithAt(slice, slice, sc);
    SmoothedAllAssigned(slice, sc);
    SettleAllAt(SmoothSpec(slice, sc));
  }

  lemma YearOutputInYear(all: seq<Row>, n: int, y: int, sc: Scenario)
    requires RateDefined(InYear(all, n), sc)
    ensures InYear(YearOutput(InYear(all, n), sc), y) == if n == y then YearOutput(InYear(all, n), sc) else []
  {
    var slice := InYear(all, n);
    YearOutputKeepsRows(slice, sc);
    assert forall k :: 0 <= k < |slice| ==> YearOutput(slice, sc)[k].year == n;
    if n == y {
      InYearAll(YearOutput(slice, sc), y);
    } else {
      InYearNone(YearOutput(slice, sc), y);
    }
  }

  lemma {:induction false} OutputsYear(all: seq<Row>, n: nat, y: nat, sc: Scenario)
    requires forall y :: RateDefined(InYear(all, y), sc)
    requires 1 <= y
    ensures InYear(Outputs(all, n, sc), y) == if y <= n then YearOutput(InYear(all, y), sc) else []
    decreases n
  {
    if n > 0 {
      var prev := Outputs(all, n - 1, sc);
      var last := YearOutput(InYear(all, n), sc);
      assert Outputs(all, n, sc) == prev + last;
      OutputsYear(all, n - 1, y, sc);
      YearOutputInYear(all, n, y, sc);
      InYearSplit(prev, last, YearOutput(InYear(all, y), sc), n, y);
    }
  }

  /** Year y of a table grown by the block of year n. */
  lemma InYearSplit(prev: seq<Row>, last: seq<Row>, want: seq<Row>, n: int, y: int)
    requires InYear(prev, y) == if y <= n - 1 then want else []
    requires InYear(last, y) == if n == y then last else []
    requires n == y ==> last == want
    ensures InYear(prev + last, y) == if y <= n then want else []
  {
    InYearAppend(prev, last, y);
    if y < n {
      assert want + [] == want;
    } else if y == n {
      assert [] + want == want;
    }
  }

  /** Year y of the finished table is year y of the raw table taken through
      the rent pass and the close. */
  lemma FullForecastYear(sc: Scenario, y: nat)
    requires 1 <= y <= Years
    ensures RateDefined(InYear(AllData(sc), y), sc)
    ensures InYear(FullForecast(sc), y) == YearOutput(InYear(AllData(sc), y), sc)
  {
    AllDataRateDefined(sc);
    OutputsYear(AllData(sc), Years, y, sc);
  }

  /** Every row of a year of the raw table carries the index label y - 1:
      the labels of the concatenated forecasts repeat. */
  lemma YearSharesIndex(sc: Scenario, y: nat, k: int)
    requires 1 <= y <= Years && 0 <= k < |InYear(AllData(sc), y)|
    ensures InYear(AllData(sc), y)[k].index == y - 1
  {
    YearSlice(sc, y);
  }

  /** When the growth school is not in the pool, each of schools A to E pays
      exactly its own 600000 a year under smoothing: the five legacy members
      have equal enrollment and equal obligations. */
  lemma LegacyPoolRent(sc: Scenario, y: nat, i: int)
    requires sc.smoothing && !(sc.activateGrowth && sc.growthJoinOg)
    requires 1 <= y <= Years && 0 <= i < 5
    ensures RateDefined(InYear(AllData(sc), y), sc)
    ensures |InYear(AllData(sc), y)| == |FleetProfiles(sc)| >= 7
    ensures SmoothSpec(InYear(AllData(sc), y), sc)[i].rent == Assigned(600000.0, Smoothed)
  {
    AllDataRateDefined(sc);
    var ps := FleetProfiles(sc);
    var slice := InYear(AllData(sc), y);
    YearSlice(sc, y);
    forall k | 0 <= k < |slice| && IsOgMember(slice[k].school, sc.growthJoinOg)
      ensures slice[k].enrollment == LegacyEnrollment && slice[k].baseRent == OgDebtService
    {
      FleetSelectionMatchesIsOg(sc, k);
    }
    FleetSelectionMatchesIsOg(sc, i);
    MemberInPool(slice, sc.growthJoinOg, i);
    UniformPoolRent(slice, sc, LegacyEnrollment, OgDebtService, i);
  }
}
