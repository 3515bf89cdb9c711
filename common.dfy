/** Shared vocabulary of the forecast engine: optional values, the scenario
    drivers that the dashboard reads from its sidebar, compounding, and the
    substring test that the engine uses on school names. */
module Common {

  /** An optional value. `None` stands where the dashboard's table would hold
      no number (a column not yet written, or a ratio with a zero denominator). */
  datatype Option<T> = None | Some(value: T)

  /** The scenario drivers read from the sidebar (streamlit_app.py:13-21), passed
      explicitly instead of being read as module globals. Percent sliders are
      already divided by 100. */
  datatype Scenario = Scenario(
    cola: real,            // annual growth of per-pupil revenue
    salaryGrowth: real,    // annual growth of per-pupil personnel cost
    feePct: real,          // management fee as a share of gross revenue
    activateGrowth: bool,  // add the growth school to the fleet
    growthJoinOg: bool,    // the growth school joins the Obligated Group
    smoothing: bool)       // Obligated-Group rent smoothing is on
  {
    /** The ranges of the sliders that supply the three rates. */
    predicate InRange() {
      && 0.0 <= cola <= 0.05
      && 0.0 <= salaryGrowth <= 0.05
      && 0.10 <= feePct <= 0.20
    }
  }

  /** A year-1 base value in year y, compounded once a year by `factor`:
      `base * factor^(y - 1)`, year 1 being the base itself. */
  function Compounded(base: real, factor: real, y: nat): real
    requires y >= 1
  {
    if y == 1 then base else Compounded(base, factor, y - 1) * factor
  }

  /** A non-negative base compounded by a factor of at least 1 stays
      non-negative and never falls from one year to the next. */
  lemma {:induction false} CompoundedMonotone(base: real, factor: real, y: nat)
    requires y >= 1 && base >= 0.0 && factor >= 1.0
    ensures 0.0 <= Compounded(base, factor, y) <= Compounded(base, factor, y + 1)
  {
    if y > 1 {
      CompoundedMonotone(base, factor, y - 1);
    }
    MulNotBelow(Compounded(base, factor, y), factor);
  }

  /** A positive base compounded by a factor above 1 grows strictly after
      the first year. */
  lemma {:induction false} CompoundedGrows(base: real, factor: real, y: nat)
    requires base > 0.0 && factor > 1.0 && y >= 2
    ensures Compounded(base, factor, y) > base
  {
    if y > 2 {
      CompoundedGrows(base, factor, y - 1);
    }
    MulAbove(base, Compounded(base, factor, y - 1), factor);
  }

  // Small facts of real multiplication, kept apart so that the solver meets
  // each product on its own.

  lemma MulNotBelow(v: real, f: real)
    requires v >= 0.0 && f >= 1.0
    ensures 0.0 <= v <= v * f
  {
  }

  lemma MulGrows(v: real, f: real)
    requires v > 0.0 && f > 1.0
    ensures v * f > v
  {
  }

  lemma MulAbove(b: real, v: real, f: real)
    requires 0.0 < b <= v && f > 1.0
    ensures v * f > b
  {
    MulGrows(v, f);
    MulGrowsPast(v, f, b);
  }

  lemma MulGrowsPast(v: real, f: real, b: real)
    requires v * f > v && v >= b
    ensures v * f > b
  {
  }

  /** Restarting the series from the value reached in year `years + 1`
      continues the same series. */
  lemma {:induction false} CompoundedContinue(base: real, factor: real, years: nat, y: nat)
    requires y >= 1
    ensures Compounded(Compounded(base, factor, years + 1), factor, y) == Compounded(base, factor, years + y)
  {
    if y > 1 {
      CompoundedContinue(base, factor, years, y - 1);
    }
  }

  lemma MulMonotone(a: real, b: real, c: real, d: real)
    requires 0.0 <= a <= b && 0.0 <= c <= d
    ensures a * c <= b * d
  {
    MulLeft(a, b, c);
    MulRight(b, c, d);
  }

  lemma MulLeft(a: real, b: real, c: real)
    requires a <= b && c >= 0.0
    ensures a * c <= b * c
  {
  }

  lemma MulRight(b: real, c: real, d: real)
    requires b >= 0.0 && c <= d
    ensures b * c <= b * d
  {
  }

  /** `sub` occurs in `s` as a contiguous piece: the test pandas'
      `str.contains` performs for the literal patterns the engine uses. */
  predicate Contains(s: string, sub: string) {
    exists i :: 0 <= i <= |s| && OccursAt(s, sub, i)
  }

  /** `sub` occurs in `s` starting at position `i`. */
  predicate OccursAt(s: string, sub: string, i: int) {
    0 <= i <= |s| - |sub| && s[i..i + |sub|] == sub
  }

  /** Every character of an occurring piece is a character of the whole. */
  lemma ContainsHasChar(s: string, sub: string, c: char)
    requires Contains(s, sub) && c in sub
    ensures c in s
  {
    var i :| 0 <= i <= |s| && OccursAt(s, sub, i);
    var k :| 0 <= k < |sub| && sub[k] == c;
    assert s[i + k] == s[i..i + |sub|][k] == c;
  }
}
