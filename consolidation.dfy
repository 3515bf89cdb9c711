/** The consolidated views over the finished table (streamlit_app.py:141-154):
    the Home Office's fee revenue by year, and the debt-service coverage of
    the rows noted "Smoothed". */
module Consolidation {
  import opened Common
  import opened Table
  import opened Projector
  import opened Smoothing
  import opened Settlement
  import opened Fleet
  import opened Simulation

  /** `ho_revenue` for year y: the management fees of that year summed. */
  function HomeOfficeRevenue(full: seq<Row>, y: int): real {
    Total(InYear(full, y), FeeOf)
  }

  /** `og_data`: the rows whose rent note is "Smoothed". */
  function SmoothedRows(rows: seq<Row>): (r: seq<Row>)
    ensures forall k :: 0 <= k < |r| ==> r[k].rent.Assigned? && r[k].rent.note == Smoothed
  {
    if rows == [] then []
    else (if rows[0].rent.Assigned? && rows[0].rent.note == Smoothed then [rows[0]] else [])
         + SmoothedRows(rows[1..])
  }

  /** The DSCR proxy over a block of smoothed rows: (net income + debt
      service) / debt service; `None` where the block is empty (the year is
      absent from the grouping) or the debt is zero (the quotient is not
      finite). */
  function Coverage(og: seq<Row>): (d: Option<real>)
    ensures d.Some? <==> og != [] && Total(og, BaseRentOf) != 0.0
    ensures d.Some? ==> d.value * Total(og, BaseRentOf) == Total(og, NetIncomeOf) + Total(og, BaseRentOf)
  {
    var debt := Total(og, BaseRentOf);
    if og == [] || debt == 0.0 then None
    else Some((Total(og, NetIncomeOf) + debt) / debt)
  }

  /** `og_stats["DSCR Proxy"]` for year y. */
  function DscrProxy(full: seq<Row>, y: int): Option<real> {
    Coverage(SmoothedRows(InYear(full, y)))
  }

  // ---- Home Office revenue ----

  lemma {:induction false} FeeShareTotal(rows: seq<Row>, p: real)
    requires forall k :: 0 <= k < |rows| ==> rows[k].fee == FeeOn(rows[k].gross, p)
    ensures Total(rows, FeeOf) == p * Total(rows, GrossOf)
  {
    if rows != [] {
      FeeShareTotal(rows[1..], p);
      ShareStep(rows[0].gross, p, Total(rows[1..], GrossOf));
    }
  }

  lemma FleetYearFeeShare(ps: seq<Profile>, y: nat, sc: Scenario)
    requires y >= 1
    ensures Total(FleetYear(ps, y, sc), FeeOf) == sc.feePct * Total(FleetYear(ps, y, sc), GrossOf)
  {
    FleetYearFees(ps, y, sc);
    FeeShareTotal(FleetYear(ps, y, sc), sc.feePct);
  }

  lemma ShareStep(g: real, p: real, rest: real)
    ensures FeeOn(g, p) + p * rest == p * (g + rest)
  {
  }

  /** Columns equal row by row give equal totals. */
  lemma TotalsAgree(a: seq<Row>, b: seq<Row>, f: Row -> real)
    requires |a| == |b| && forall i :: 0 <= i < |a| ==> f(a[i]) == f(b[i])
    ensures Total(a, f) == Total(b, f)
  {
    TotalMonotone(a, b, f);
    TotalMonotone(b, a, f);
  }

  /** The Home Office's revenue in year y is the fees the fleet's schools
      pay in that year. */
  lemma HomeOfficeRevenueOfFleet(sc: Scenario, y: nat)
    requires 1 <= y <= Years
    ensures HomeOfficeRevenue(FullForecast(sc), y) == Total(FleetYear(FleetProfiles(sc), y, sc), FeeOf)
  {
    var slice := InYear(AllData(sc), y);
    assert RateDefined(slice, sc) && InYear(FullForecast(sc), y) == YearOutput(slice, sc) by {
      FullForecastYear(sc, y);
    }
    assert Total(YearOutput(slice, sc), FeeOf) == Total(slice, FeeOf) by {
      YearOutputKeepsRows(slice, sc);
      TotalsAgree(YearOutput(slice, sc), slice, FeeOf);
    }
    YearSlice(sc, y);
  }

  /** ... and so the fee share of the fleet's gross revenue in that year. */
  lemma HomeOfficeRevenueIsFeeShare(sc: Scenario, y: nat)
    requires 1 <= y <= Years
    ensures HomeOfficeRevenue(FullForecast(sc), y) == sc.feePct * Total(InYear(AllData(sc), y), GrossOf)
  {
    HomeOfficeRevenueOfFleet(sc, y);
    FleetFeeShareOfYear(sc, y);
  }

  lemma FleetFeeShareOfYear(sc: Scenario, y: nat)
    requires 1 <= y <= Years
    ensures Total(FleetYear(FleetProfiles(sc), y, sc), FeeOf) == sc.feePct * Total(InYear(AllData(sc), y), GrossOf)
  {
    YearSlice(sc, y);
    FleetYearFeeShare(FleetProfiles(sc), y, sc);
  }

  /** With a non-negative COLA the Home Office's revenue never falls from
      one year to the next. */
  lemma HomeOfficeRevenueNonDecreasing(sc: Scenario, y: nat)
    requires sc.cola >= 0.0 && sc.feePct >= 0.0 && 1 <= y < Years
    ensures HomeOfficeRevenue(FullForecast(sc), y) <= HomeOfficeRevenue(FullForecast(sc), y + 1)
  {
    HomeOfficeRevenueEveryYear(sc);
    FleetFeesGrow(sc, y);
  }

  lemma HomeOfficeRevenueEveryYear(sc: Scenario)
    ensures forall y :: 1 <= y <= Years ==>
      HomeOfficeRevenue(FullForecast(sc), y) == Total(FleetYear(FleetProfiles(sc), y, sc), FeeOf)
  {
    forall y | 1 <= y <= Years
      ensures HomeOfficeRevenue(FullForecast(sc), y) == Total(FleetYear(FleetProfiles(sc), y, sc), FeeOf)
    {
      HomeOfficeRevenueOfFleet(sc, y);
    }
  }

  lemma FleetFeesGrow(sc: Scenario, y: nat)
    requires y >= 1 && sc.cola >= 0.0 && sc.feePct >= 0.0
    ensures Total(FleetYear(FleetProfiles(sc), y, sc), FeeOf) <= Total(FleetYear(FleetProfiles(sc), y + 1, sc), FeeOf)
  {
    FleetHasPupils(sc);
    FleetFeesNonDecreasing(FleetProfiles(sc), y, sc);
  }

  lemma FleetFeesNonDecreasing(ps: seq<Profile>, y: nat, sc: Scenario)
    requires y >= 1 && sc.cola >= 0.0 && sc.feePct >= 0.0
    requires forall i :: 0 <= i < |ps| ==> ps[i].enrollment >= 0
    ensures Total(FleetYear(ps, y, sc), FeeOf) <= Total(FleetYear(ps, y + 1, sc), FeeOf)
  {
    var now, next := FleetYear(ps, y, sc), FleetYear(ps, y + 1, sc);
    forall i | 0 <= i < |ps|
      ensures FeeOf(now[i]) <= FeeOf(next[i])
    {
      GrossNonDecreasing(ps[i], InitialFixedCost, y, sc);
      FleetYearFees(ps, y, sc);
      FleetYearFees(ps, y + 1, sc);
      MulLeft(now[i].gross, next[i].gross, sc.feePct);
    }
    TotalMonotone(now, next, FeeOf);
  }

  // ---- the DSCR proxy ----

  /** When smoothing applies, the rows noted "Smoothed" are exactly the pool. */
  lemma {:induction false} SmoothedRowsArePool(rows: seq<Row>, joinOg: bool)
    requires forall k :: 0 <= k < |rows| ==>
      (rows[k].rent.Assigned? && rows[k].rent.note == Smoothed <==> IsOgMember(rows[k].school, joinOg))
    ensures SmoothedRows(rows) == Members(rows, joinOg)
  {
    if rows != [] {
      SmoothedRowsArePool(rows[1..], joinOg);
    }
  }

  /** The rent pass and the close leave the pool's debt service as it was. */
  lemma PoolDebtKept(slice: seq<Row>, sc: Scenario)
    requires RateDefined(slice, sc)
    ensures Total(Members(YearOutput(slice, sc), sc.growthJoinOg), BaseRentOf)
         == Total(Members(slice, sc.growthJoinOg), BaseRentOf)
  {
    var ms := Members(slice, sc.growthJoinOg);
    var smoothed := SmoothSpec(slice, sc);
    SmoothedAllAssigned(slice, sc);
    assert Members(smoothed, sc.growthJoinOg) == SmoothWith(ms, slice, sc) by {
      MembersOfSmoothed(slice, slice, sc);
    }
    MembersOfSettled(smoothed, sc.growthJoinOg);
    var pool := SmoothWith(ms, slice, sc);
    SmoothWithAt(ms, slice, sc);
    SettleAllAt(pool);
    TotalsAgree(SettleAll(pool), ms, BaseRentOf);
  }

  lemma {:induction false} TotalPositive(rows: seq<Row>, f: Row -> real)
    requires rows != [] && forall k :: 0 <= k < |rows| ==> f(rows[k]) > 0.0
    ensures Total(rows, f) > 0.0
  {
    if |rows| > 1 {
      TotalPositive(rows[1..], f);
    }
  }

  lemma CoverageQuotient(pre: real, debt: real, net: real)
    requires debt != 0.0 && net == pre - debt
    ensures (net + debt) / debt == pre / debt
  {
  }

  /** When smoothing applies, a year's DSCR proxy is the pool's pre-rent
      income over the pool's debt service. */
  lemma YearCoverage(slice: seq<Row>, sc: Scenario)
    requires RateDefined(slice, sc) && SmoothingApplies(slice, sc)
    requires Total(Members(slice, sc.growthJoinOg), BaseRentOf) != 0.0
    ensures var ms := Members(slice, sc.growthJoinOg);
      Coverage(SmoothedRows(YearOutput(slice, sc)))
        == Some(Total(ms, PreRentIncomeOf) / Total(ms, BaseRentOf))
  {
    var ms := Members(slice, sc.growthJoinOg);
    var out := YearOutput(slice, sc);
    var pool := Members(out, sc.growthJoinOg);
    assert SmoothedRows(out) == pool by {
      forall k | 0 <= k < |out|
        ensures out[k].rent.Assigned? && out[k].rent.note == Smoothed <==> IsOgMember(out[k].school, sc.growthJoinOg)
      {
        YearOutputKeepsRows(slice, sc);
        RentNoteRule(slice, sc, k);
        SmoothedAllAssigned(slice, sc);
        SettleAllAt(SmoothSpec(slice, sc));
      }
      SmoothedRowsArePool(out, sc.growthJoinOg);
    }
    assert pool != [] by {
      var k :| 0 <= k < |slice| && slice[k] == ms[0];
      YearOutputKeepsRows(slice, sc);
      MemberInPool(out, sc.growthJoinOg, k);
    }
    PoolDebtKept(slice, sc);
    PooledNetIncome(slice, sc);
    CoverageQuotient(Total(ms, PreRentIncomeOf), Total(ms, BaseRentOf), Total(pool, NetIncomeOf));
  }

  /** In every year of the run with smoothing on, school A is in the pool and
      the pool owes debt service. */
  lemma PoolOwesEveryYear(sc: Scenario, y: nat)
    requires sc.smoothing && 1 <= y <= Years
    ensures RateDefined(InYear(AllData(sc), y), sc)
    ensures SmoothingApplies(InYear(AllData(sc), y), sc)
    ensures Total(Members(InYear(AllData(sc), y), sc.growthJoinOg), BaseRentOf) > 0.0
  {
    AllDataRateDefined(sc);
    var slice := InYear(AllData(sc), y);
    var ms := Members(slice, sc.growthJoinOg);
    YearSlice(sc, y);
    FleetSelectionMatchesIsOg(sc, 0);
    MemberInPool(slice, sc.growthJoinOg, 0);
    forall k | 0 <= k < |ms|
      ensures BaseRentOf(ms[k]) > 0.0
    {
      assert ms[k] in slice;
    }
    TotalPositive(ms, BaseRentOf);
  }

  /** Under smoothing the DSCR proxy of every year is the pool's pre-rent
      income over the pool's debt service: the same value as with every
      member paying its own obligation. */
  lemma DscrIsPoolCoverage(sc: Scenario, y: nat)
    requires sc.smoothing && 1 <= y <= Years
    ensures var ms := Members(InYear(AllData(sc), y), sc.growthJoinOg);
      Total(ms, BaseRentOf) > 0.0
      && DscrProxy(FullForecast(sc), y) == Some(Total(ms, PreRentIncomeOf) / Total(ms, BaseRentOf))
  {
    PoolOwesEveryYear(sc, y);
    FullForecastYear(sc, y);
    YearCoverage(InYear(AllData(sc), y), sc);
  }
}
