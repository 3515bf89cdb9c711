/** The close of each year (streamlit_app.py:131-133): net income after the
    rent the smoothing pass charged, and the margin over gross revenue. */
module Settlement {
  import opened Common
  import opened Table
  import opened Smoothing

  /** "Margin %": net income over gross revenue, in percent; `None` where the
      division by a zero gross revenue leaves no finite value. */
  function MarginPct(net: real, gross: real): (m: Option<real>)
    ensures m.Some? <==> gross != 0.0
    ensures m.Some? ==> m.value * gross == 100.0 * net
  {
    if gross == 0.0 then None else Some(net / gross * 100.0)
  }

  /** Net income and margin of one row whose rent has been written; no other
      column changes. */
  function Settle(r: Row): (s: Row)
    requires r.rent.Assigned?
    ensures s == r.(netIncome := s.netIncome, margin := s.margin)
    ensures r.gross == r.fee + r.personnel + r.fixedOps + r.rent.amount + s.netIncome
    ensures s.margin == MarginPct(s.netIncome, r.gross)
  {
    var net := PreRentIncomeOf(r) - FinalRentOf(r);
    r.(netIncome := net, margin := MarginPct(net, r.gross))
  }

  function SettleAll(rows: seq<Row>): (out: seq<Row>)
    requires forall k :: 0 <= k < |rows| ==> rows[k].rent.Assigned?
    ensures |out| == |rows|
  {
    if rows == [] then [] else [Settle(rows[0])] + SettleAll(rows[1..])
  }

  lemma {:induction false} SettleAllAt(rows: seq<Row>)
    requires forall k :: 0 <= k < |rows| ==> rows[k].rent.Assigned?
    ensures forall k :: 0 <= k < |rows| ==> SettleAll(rows)[k] == Settle(rows[k])
  {
    if rows != [] {
      SettleAllAt(rows[1..]);
    }
  }

  /** Every row leaves the rent pass with a rent written. */
  lemma SmoothedAllAssigned(slice: seq<Row>, sc: Scenario)
    requires RateDefined(slice, sc)
    ensures forall k :: 0 <= k < |SmoothSpec(slice, sc)| ==> SmoothSpec(slice, sc)[k].rent.Assigned?
  {
    SmoothWithAt(slice, slice, sc);
  }

  /** One year of the table once rents are charged and net incomes closed. */
  function YearOutput(slice: seq<Row>, sc: Scenario): (out: seq<Row>)
    requires RateDefined(slice, sc)
    ensures |out| == |slice|
  {
    SmoothedAllAssigned(slice, sc);
    SettleAll(SmoothSpec(slice, sc))
  }

  /** A positive margin exactly when there is a profit, given revenue. */
  lemma MarginSign(net: real, gross: real)
    requires gross > 0.0
    ensures MarginPct(net, gross).Some?
    ensures MarginPct(net, gross).value > 0.0 <==> net > 0.0
    ensures MarginPct(net, gross).value == 0.0 <==> net == 0.0
  {
    var m := MarginPct(net, gross).value;
    assert m * gross == 100.0 * net;
    if m > 0.0 {
      PositiveTimesPositive(m, gross);
    } else if net > 0.0 {
      NonPositiveTimesPositive(m, gross);
    }
  }

  lemma PositiveTimesPositive(a: real, b: real)
    requires a > 0.0 && b > 0.0
    ensures a * b > 0.0
  {
  }

  lemma NonPositiveTimesPositive(a: real, b: real)
    requires a <= 0.0 && b > 0.0
    ensures a * b <= 0.0
  {
  }

  // ---- the pool's net income ----

  lemma {:induction false} MembersOfSettled(rows: seq<Row>, joinOg: bool)
    requires forall k :: 0 <= k < |rows| ==> rows[k].rent.Assigned?
    ensures forall k :: 0 <= k < |Members(rows, joinOg)| ==> Members(rows, joinOg)[k].rent.Assigned?
    ensures Members(SettleAll(rows), joinOg) == SettleAll(Members(rows, joinOg))
  {
    if rows != [] {
      MembersOfSettled(rows[1..], joinOg);
      var ms := Members(rows, joinOg);
      if IsOgMember(rows[0].school, joinOg) {
        assert ms == [rows[0]] + Members(rows[1..], joinOg);
        assert ms[0] == rows[0] && ms[1..] == Members(rows[1..], joinOg);
      } else {
        assert ms == [] + Members(rows[1..], joinOg) == Members(rows[1..], joinOg);
      }
    }
  }

  /** Closing each row's books: net incomes add up to pre-rent income less
      rent charged. */
  lemma {:induction false} SettledNetTotal(rows: seq<Row>)
    requires forall k :: 0 <= k < |rows| ==> rows[k].rent.Assigned?
    ensures Total(SettleAll(rows), NetIncomeOf) == Total(rows, PreRentIncomeOf) - Total(rows, FinalRentOf)
  {
    if rows != [] {
      SettledNetTotal(rows[1..]);
    }
  }

  lemma {:induction false} SmoothingKeepsPreRent(rows: seq<Row>, slice: seq<Row>, sc: Scenario)
    requires RateDefined(slice, sc)
    ensures Total(SmoothWith(rows, slice, sc), PreRentIncomeOf) == Total(rows, PreRentIncomeOf)
    ensures forall k :: 0 <= k < |rows| ==> SmoothWith(rows, slice, sc)[k].rent.Assigned?
  {
    SmoothWithAt(rows, slice, sc);
    if rows != [] {
      SmoothingKeepsPreRent(rows[1..], slice, sc);
    }
  }

  /** The pool's combined net income is its pre-rent income less its debt
      service, whether or not smoothing applies: smoothing moves net income
      between members and leaves the pool's total where it was. */
  lemma PooledNetIncome(slice: seq<Row>, sc: Scenario)
    requires RateDefined(slice, sc)
    ensures var ms := Members(slice, sc.growthJoinOg);
      Total(Members(YearOutput(slice, sc), sc.growthJoinOg), NetIncomeOf)
        == Total(ms, PreRentIncomeOf) - Total(ms, BaseRentOf)
  {
    var ms := Members(slice, sc.growthJoinOg);
    var smoothed := SmoothSpec(slice, sc);
    SmoothedAllAssigned(slice, sc);
    var pool := Members(smoothed, sc.growthJoinOg);
    assert pool == SmoothWith(ms, slice, sc) by {
      MembersOfSmoothed(slice, slice, sc);
    }
    MembersOfSettled(smoothed, sc.growthJoinOg);
    SettledNetTotal(pool);
    SmoothingKeepsPreRent(ms, slice, sc);
    PoolRentConserved(slice, sc);
  }

  /** Switching smoothing on or off leaves the pool's combined net income
      unchanged. */
  lemma SmoothingNeutralForPool(slice: seq<Row>, sc: Scenario)
    requires RateDefined(slice, sc)
    ensures RateDefined(slice, sc.(smoothing := false))
    ensures Total(Members(YearOutput(slice, sc), sc.growthJoinOg), NetIncomeOf)
         == Total(Members(YearOutput(slice, sc.(smoothing := false)), sc.growthJoinOg), NetIncomeOf)
  {
    PooledNetIncome(slice, sc);
    PooledNetIncome(slice, sc.(smoothing := false));
  }
}
