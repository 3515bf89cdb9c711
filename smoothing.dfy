/** The per-year Obligated-Group rent pass (streamlit_app.py:103-129): select
    the OG members of a year's rows, and either spread the pool's debt over
    them by enrollment ("Smoothed") or let each pay its own obligation
    ("Fixed"); every other school pays its lease ("Lease"). */
module Smoothing {
  import opened Common
  import opened Table

  const OgMarker: string := "(OG)"      // marks an Obligated-Group school's name
  const GrowthMarker: string := "CWB"   // marks the growth school's name

  /** The selection of streamlit_app.py:107-108, made on the school's name. */
  predicate IsOgMember(name: string, joinOg: bool) {
    Contains(name, OgMarker) || (Contains(name, GrowthMarker) && joinOg)
  }

  /** `og_members`: the member rows of a year, in table order. */
  function Members(rows: seq<Row>, joinOg: bool): (ms: seq<Row>)
    ensures |ms| <= |rows|
    ensures forall k :: 0 <= k < |ms| ==> ms[k] in rows && IsOgMember(ms[k].school, joinOg)
  {
    if rows == [] then []
    else (if IsOgMember(rows[0].school, joinOg) then [rows[0]] else []) + Members(rows[1..], joinOg)
  }

  /** Every member row of the year is in the pool. */
  lemma {:induction false} MemberInPool(rows: seq<Row>, joinOg: bool, i: int)
    requires 0 <= i < |rows| && IsOgMember(rows[i].school, joinOg)
    ensures rows[i] in Members(rows, joinOg)
  {
    if i == 0 {
      assert Members(rows, joinOg)[0] == rows[0];
    } else {
      MemberInPool(rows[1..], joinOg, i - 1);
      assert rows[1..][i - 1] == rows[i];
    }
  }

  /** Smoothing happens when it is switched on and the pool is not empty. */
  predicate SmoothingApplies(rows: seq<Row>, sc: Scenario) {
    sc.smoothing && Members(rows, sc.growthJoinOg) != []
  }

  /** The division at line 115 has no guard: it is defined only when the
      pool's enrollment is not zero. */
  predicate RateDefined(rows: seq<Row>, sc: Scenario) {
    SmoothingApplies(rows, sc) ==> EnrollmentTotal(Members(rows, sc.growthJoinOg)) != 0
  }

  /** What a smoothed school is charged: its enrollment at the pool's rate
      (streamlit_app.py:119). */
  function Charge(enrollment: int, rate: real): real {
    enrollment as real * rate
  }

  /** Pooled debt over pooled enrollment. */
  function RentPerStudent(rows: seq<Row>, joinOg: bool): real
    requires EnrollmentTotal(Members(rows, joinOg)) != 0
  {
    Total(Members(rows, joinOg), BaseRentOf) / EnrollmentTotal(Members(rows, joinOg)) as real
  }

  /** The rent one row of the year `slice` is charged. */
  function RentFor(r: Row, slice: seq<Row>, sc: Scenario): Rent
    requires RateDefined(slice, sc)
  {
    if !IsOgMember(r.school, sc.growthJoinOg) then Assigned(r.baseRent, Lease)
    else if SmoothingApplies(slice, sc) then
      Assigned(Charge(r.enrollment, RentPerStudent(slice, sc.growthJoinOg)), Smoothed)
    else Assigned(r.baseRent, Fixed)
  }

  /** `rows` with the rent of each written, the pool being that of `slice`. */
  function SmoothWith(rows: seq<Row>, slice: seq<Row>, sc: Scenario): (out: seq<Row>)
    requires RateDefined(slice, sc)
    ensures |out| == |rows|
  {
    if rows == [] then []
    else [rows[0].(rent := RentFor(rows[0], slice, sc))] + SmoothWith(rows[1..], slice, sc)
  }

  /** The year's rows after the rent pass. */
  function SmoothSpec(slice: seq<Row>, sc: Scenario): (out: seq<Row>)
    requires RateDefined(slice, sc)
    ensures |out| == |slice|
  {
    SmoothWith(slice, slice, sc)
  }

  lemma {:induction false} SmoothWithAt(rows: seq<Row>, slice: seq<Row>, sc: Scenario)
    requires RateDefined(slice, sc)
    ensures |SmoothWith(rows, slice, sc)| == |rows|
    ensures forall i :: 0 <= i < |rows| ==>
      SmoothWith(rows, slice, sc)[i] == rows[i].(rent := RentFor(rows[i], slice, sc))
  {
    if rows != [] {
      SmoothWithAt(rows[1..], slice, sc);
    }
  }

  /** The row after the smoothing loop of streamlit_app.py:117-120. */
  function SmoothedIfMember(r: Row, joinOg: bool, rate: real): Row {
    if IsOgMember(r.school, joinOg) then r.(rent := Assigned(Charge(r.enrollment, rate), Smoothed))
    else r
  }

  /** The rent pass in place, in the order of streamlit_app.py:110-129:
      members first (smoothed, or everyone fixed), then every non-member
      reset to its lease. */
  method SmoothYear(slice: array<Row>, sc: Scenario)
    requires RateDefined(slice[..], sc)
    modifies slice
    ensures slice[..] == SmoothSpec(old(slice[..]), sc)
  {
    ghost var rows := slice[..];
    var joinOg := sc.growthJoinOg;
    var ogMembers := Members(slice[..], joinOg);
    var smoothed := sc.smoothing && ogMembers != [];
    ghost var rate := 0.0;
    if smoothed {
      var totalOgDebt := Total(ogMembers, BaseRentOf);
      var totalOgEnrollment := EnrollmentTotal(ogMembers);
      var rentPerStudent := totalOgDebt / totalOgEnrollment as real;
      rate := rentPerStudent;
      SmoothMembers(slice, joinOg, rentPerStudent);
    } else {
      FixAll(slice);
    }
    LeaseNonMembers(slice, joinOg);
    forall k | 0 <= k < slice.Length
      ensures slice[k] == SmoothSpec(rows, sc)[k]
    {
      SmoothWithAt(rows, rows, sc);
      if smoothed {
        assert rate == RentPerStudent(rows, joinOg);
      }
    }
  }

  /** The smoothing loop of streamlit_app.py:117-120: each member charged its
      enrollment at the rate, noted "Smoothed". */
  method SmoothMembers(slice: array<Row>, joinOg: bool, rate: real)
    modifies slice
    ensures forall k :: 0 <= k < slice.Length ==> slice[k] == SmoothedIfMember(old(slice[k]), joinOg, rate)
  {
    for i := 0 to slice.Length
      invariant forall k :: 0 <= k < i ==> slice[k] == SmoothedIfMember(old(slice[k]), joinOg, rate)
      invariant forall k :: i <= k < slice.Length ==> slice[k] == old(slice[k])
    {
      slice[i] := SmoothedIfMember(slice[i], joinOg, rate);
    }
  }

  /** The lease pass of streamlit_app.py:126-129, row by row: every
      non-member pays its own obligation, noted "Lease". */
  method LeaseNonMembers(slice: array<Row>, joinOg: bool)
    modifies slice
    ensures forall k :: 0 <= k < slice.Length ==>
      slice[k] == if IsOgMember(old(slice[k]).school, joinOg) then old(slice[k])
                  else old(slice[k]).(rent := Assigned(old(slice[k]).baseRent, Lease))
  {
    for i := 0 to slice.Length
      invariant forall k :: 0 <= k < i ==>
        slice[k] == if IsOgMember(old(slice[k]).school, joinOg) then old(slice[k])
                    else old(slice[k]).(rent := Assigned(old(slice[k]).baseRent, Lease))
      invariant forall k :: i <= k < slice.Length ==> slice[k] == old(slice[k])
    {
      if !IsOgMember(slice[i].school, joinOg) {
        slice[i] := slice[i].(rent := Assigned(slice[i].baseRent, Lease));
      }
    }
  }

  /** Every row ends with exactly one note: "Lease" exactly for non-members,
      "Smoothed" exactly for members when smoothing applies, "Fixed" exactly
      for members otherwise; only a smoothed row pays other than its own
      obligation, and nothing but the rent changes. */
  lemma RentNoteRule(slice: seq<Row>, sc: Scenario, i: int)
    requires RateDefined(slice, sc) && 0 <= i < |slice|
    ensures |SmoothSpec(slice, sc)| == |slice|
    ensures var r, out := slice[i], SmoothSpec(slice, sc)[i];
      var member := IsOgMember(r.school, sc.growthJoinOg);
      && out.rent.Assigned?
      && out == r.(rent := out.rent)
      && (out.rent.note == Lease <==> !member)
      && (out.rent.note == Smoothed <==> member && SmoothingApplies(slice, sc))
      && (out.rent.note == Fixed <==> member && !SmoothingApplies(slice, sc))
      && (out.rent.note != Smoothed ==> out.rent.amount == r.baseRent)
      && (out.rent.note == Smoothed ==>
            out.rent.amount == Charge(r.enrollment, RentPerStudent(slice, sc.growthJoinOg)))
  {
    SmoothWithAt(slice, slice, sc);
  }

  /** With smoothing switched off, every school pays exactly its own
      obligation. */
  lemma NoSmoothingPaysOwnObligation(slice: seq<Row>, sc: Scenario, i: int)
    requires !sc.smoothing && 0 <= i < |slice|
    ensures SmoothSpec(slice, sc)[i].rent.Assigned?
    ensures SmoothSpec(slice, sc)[i].rent.amount == slice[i].baseRent
    ensures SmoothSpec(slice, sc)[i].rent.note != Smoothed
  {
    SmoothWithAt(slice, slice, sc);
  }

  // ---- sums over the pool ----

  lemma {:induction false} MembersOfSmoothed(rows: seq<Row>, slice: seq<Row>, sc: Scenario)
    requires RateDefined(slice, sc)
    ensures Members(SmoothWith(rows, slice, sc), sc.growthJoinOg)
         == SmoothWith(Members(rows, sc.growthJoinOg), slice, sc)
  {
    if rows != [] {
      MembersOfSmoothed(rows[1..], slice, sc);
      if IsOgMember(rows[0].school, sc.growthJoinOg) {
        assert Members(rows, sc.growthJoinOg) == [rows[0]] + Members(rows[1..], sc.growthJoinOg);
        assert Members(rows, sc.growthJoinOg)[1..] == Members(rows[1..], sc.growthJoinOg);
      } else {
        assert Members(rows, sc.growthJoinOg) == Members(rows[1..], sc.growthJoinOg);
      }
    }
  }

  /** Smoothed members pay enrollment times the rate, so together they pay
      their enrollment total times the rate. */
  lemma {:induction false} SmoothedPoolTotal(ms: seq<Row>, slice: seq<Row>, sc: Scenario)
    requires SmoothingApplies(slice, sc) && RateDefined(slice, sc)
    requires forall k :: 0 <= k < |ms| ==> IsOgMember(ms[k].school, sc.growthJoinOg)
    ensures Total(SmoothWith(ms, slice, sc), FinalRentOf)
         == Charge(EnrollmentTotal(ms), RentPerStudent(slice, sc.growthJoinOg))
  {
    var rate := RentPerStudent(slice, sc.growthJoinOg);
    if ms == [] {
      assert Charge(EnrollmentTotal(ms), rate) == 0.0 * rate;
    } else {
      SmoothedPoolTotal(ms[1..], slice, sc);
      AddProducts(ms[0].enrollment as real, EnrollmentTotal(ms[1..]) as real, rate);
    }
  }

  /** Unsmoothed members pay their own obligation. */
  lemma {:induction false} FixedPoolTotal(ms: seq<Row>, slice: seq<Row>, sc: Scenario)
    requires !SmoothingApplies(slice, sc) && RateDefined(slice, sc)
    requires forall k :: 0 <= k < |ms| ==> IsOgMember(ms[k].school, sc.growthJoinOg)
    ensures Total(SmoothWith(ms, slice, sc), FinalRentOf) == Total(ms, BaseRentOf)
  {
    if ms != [] {
      FixedPoolTotal(ms[1..], slice, sc);
    }
  }

  /** Conservation: whether smoothing applies or not, the pool's final rents
      add up to the pool's base obligations: smoothing redistributes debt
      service and never creates or destroys it. */
  lemma PoolRentConserved(slice: seq<Row>, sc: Scenario)
    requires RateDefined(slice, sc)
    ensures Total(Members(SmoothSpec(slice, sc), sc.growthJoinOg), FinalRentOf)
         == Total(Members(slice, sc.growthJoinOg), BaseRentOf)
  {
    var ms := Members(slice, sc.growthJoinOg);
    assert Members(SmoothSpec(slice, sc), sc.growthJoinOg) == SmoothWith(ms, slice, sc) by {
      MembersOfSmoothed(slice, slice, sc);
    }
    if SmoothingApplies(slice, sc) {
      SmoothedPoolConserved(ms, slice, sc);
    } else {
      FixedPoolTotal(ms, slice, sc);
    }
  }

  lemma SmoothedPoolConserved(ms: seq<Row>, slice: seq<Row>, sc: Scenario)
    requires SmoothingApplies(slice, sc) && RateDefined(slice, sc)
    requires ms == Members(slice, sc.growthJoinOg)
    ensures Total(SmoothWith(ms, slice, sc), FinalRentOf) == Total(ms, BaseRentOf)
  {
    SmoothedPoolTotal(ms, slice, sc);
    ChargesCancel(EnrollmentTotal(ms), Total(ms, BaseRentOf), RentPerStudent(slice, sc.growthJoinOg));
  }

  /** Enrollment total times (debt / enrollment total) is the debt. */
  lemma ChargesCancel(e: int, d: real, rate: real)
    requires e != 0 && rate == d / e as real
    ensures Charge(e, rate) == d
  {
    DivCancel(d, e as real);
  }

  /** A pool whose members all have the same enrollment and the same base
      obligation charges each member exactly its own obligation. */
  lemma UniformPoolRent(slice: seq<Row>, sc: Scenario, e: int, d: real, i: int)
    requires SmoothingApplies(slice, sc) && e > 0 && 0 <= i < |slice|
    requires forall k :: 0 <= k < |slice| && IsOgMember(slice[k].school, sc.growthJoinOg) ==>
      slice[k].enrollment == e && slice[k].baseRent == d
    requires IsOgMember(slice[i].school, sc.growthJoinOg)
    ensures RateDefined(slice, sc)
    ensures SmoothSpec(slice, sc)[i].rent == Assigned(d, Smoothed)
  {
    var ms := Members(slice, sc.growthJoinOg);
    assert forall k :: 0 <= k < |ms| ==> ms[k].enrollment == e && ms[k].baseRent == d;
    UniformRateOf(ms, e, d);
    assert slice[i].enrollment == e;
    SmoothedRentAt(slice, sc, i);
  }

  lemma UniformRateOf(ms: seq<Row>, e: int, d: real)
    requires ms != [] && e > 0
    requires forall k :: 0 <= k < |ms| ==> ms[k].enrollment == e && ms[k].baseRent == d
    ensures EnrollmentTotal(ms) != 0
    ensures Charge(e, Total(ms, BaseRentOf) / EnrollmentTotal(ms) as real) == d
  {
    UniformTotals(ms, e, d);
    RateFromTotals(Total(ms, BaseRentOf), EnrollmentTotal(ms), |ms|, e, d);
  }

  lemma SmoothedRentAt(slice: seq<Row>, sc: Scenario, i: int)
    requires SmoothingApplies(slice, sc) && RateDefined(slice, sc) && 0 <= i < |slice|
    requires IsOgMember(slice[i].school, sc.growthJoinOg)
    ensures SmoothSpec(slice, sc)[i].rent
         == Assigned(Charge(slice[i].enrollment, RentPerStudent(slice, sc.growthJoinOg)), Smoothed)
  {
    SmoothWithAt(slice, slice, sc);
  }

  lemma {:induction false} UniformTotals(ms: seq<Row>, e: int, d: real)
    requires forall k :: 0 <= k < |ms| ==> ms[k].enrollment == e && ms[k].baseRent == d
    ensures EnrollmentTotal(ms) == |ms| * e
    ensures Total(ms, BaseRentOf) == |ms| as real * d
  {
    if ms != [] {
      UniformTotals(ms[1..], e, d);
      AddProducts(1.0, (|ms| - 1) as real, d);
    }
  }

  /** Every pooled school has pupils, so the pool's enrollment is positive. */
  lemma {:induction false} PoolEnrollmentPositive(rows: seq<Row>, joinOg: bool)
    requires forall k :: 0 <= k < |rows| ==> rows[k].enrollment > 0
    ensures Members(rows, joinOg) != [] ==> EnrollmentTotal(Members(rows, joinOg)) > 0
    ensures Members(rows, joinOg) == [] ==> EnrollmentTotal(Members(rows, joinOg)) == 0
  {
    if rows != [] {
      PoolEnrollmentPositive(rows[1..], joinOg);
      if IsOgMember(rows[0].school, joinOg) {
        var ms := Members(rows, joinOg);
        assert ms == [rows[0]] + Members(rows[1..], joinOg);
        assert ms[0] == rows[0] && ms[1..] == Members(rows[1..], joinOg);
        assert EnrollmentTotal(ms) == rows[0].enrollment + EnrollmentTotal(Members(rows[1..], joinOg));
      } else {
        assert Members(rows, joinOg) == [] + Members(rows[1..], joinOg) == Members(rows[1..], joinOg);
      }
    }
  }

  // ---- the rent pass as written: writes addressed by index label ----
  //
  // The year rows come from concatenating per-school tables that each carry
  // the labels 0..9, so every row of one year has the same label. The
  // writes at streamlit_app.py:118-120 and 127-129 address rows by label;
  // a label shared by several rows addresses all of them, and the lease
  // test at line 127 asks whether a row's label is among the members'
  // labels. The functions below model that addressing.

  /** Position in `ms[..n]` of the last member carrying `index`, or -1. */
  function LastWithIndex(ms: seq<Row>, index: int, n: nat): (k: int)
    requires n <= |ms|
    ensures -1 <= k < n
    ensures k >= 0 ==> ms[k].index == index && forall t :: k < t < n ==> ms[t].index != index
    ensures k == -1 ==> forall t :: 0 <= t < n ==> ms[t].index != index
  {
    if n == 0 then -1
    else if ms[n - 1].index == index then n - 1
    else LastWithIndex(ms, index, n - 1)
  }

  /** A row after the first `n` member writes of the smoothing loop. */
  function AfterWrites(r: Row, ms: seq<Row>, n: nat, rate: real): (out: Row)
    requires n <= |ms|
    ensures out == r.(rent := out.rent)
  {
    var k := LastWithIndex(ms, r.index, n);
    if k < 0 then r else r.(rent := Assigned(Charge(ms[k].enrollment, rate), Smoothed))
  }

  /** The rent the as-written pass leaves on a row of `slice`. */
  function AsWrittenRent(r: Row, slice: seq<Row>, sc: Scenario): Rent
    requires RateDefined(slice, sc)
  {
    var ms := Members(slice, sc.growthJoinOg);
    var k := LastWithIndex(ms, r.index, |ms|);
    if k < 0 then Assigned(r.baseRent, Lease)
    else if sc.smoothing then
      Assigned(Charge(ms[k].enrollment, RentPerStudent(slice, sc.growthJoinOg)), Smoothed)
    else Assigned(r.baseRent, Fixed)
  }

  function AsWrittenSpec(slice: seq<Row>, sc: Scenario): (out: seq<Row>)
    requires RateDefined(slice, sc)
    ensures |out| == |slice|
  {
    seq(|slice|, i requires 0 <= i < |slice| => slice[i].(rent := AsWrittenRent(slice[i], slice, sc)))
  }

  /** The rent pass of streamlit_app.py:103-129 with its label-addressed
      writes. */
  method SmoothYearAsWritten(slice: array<Row>, sc: Scenario)
    requires RateDefined(slice[..], sc)
    modifies slice
    ensures slice[..] == AsWrittenSpec(old(slice[..]), sc)
  {
    ghost var rows := slice[..];
    ghost var spec := AsWrittenSpec(rows, sc);
    var joinOg := sc.growthJoinOg;
    var ogMembers := Members(slice[..], joinOg);
    if sc.smoothing && ogMembers != [] {
      var totalOgDebt := Total(ogMembers, BaseRentOf);
      var totalOgEnrollment := EnrollmentTotal(ogMembers);
      var rentPerStudent := totalOgDebt / totalOgEnrollment as real;
      assert rentPerStudent == RentPerStudent(rows, joinOg);
      SmoothByIndex(slice, ogMembers, rentPerStudent);
    } else {
      FixAll(slice);
    }
    ghost var mid := slice[..];
    LeaseUnlabelled(slice, ogMembers);
    forall k | 0 <= k < slice.Length
      ensures slice[k] == spec[k]
    {
      assert spec[k] == rows[k].(rent := AsWrittenRent(rows[k], rows, sc));
      IndexAmongIsLast(rows[k].index, ogMembers);
    }
  }

  /** The smoothing loop of streamlit_app.py:117-120 with writes addressed
      by label. */
  method SmoothByIndex(slice: array<Row>, ms: seq<Row>, rate: real)
    modifies slice
    ensures forall k :: 0 <= k < slice.Length ==> slice[k] == AfterWrites(old(slice[k]), ms, |ms|, rate)
  {
    ghost var rows := slice[..];
    for t := 0 to |ms|
      invariant forall k :: 0 <= k < slice.Length ==> slice[k] == AfterWrites(rows[k], ms, t, rate)
    {
      var member := ms[t];
      ghost var before := slice[..];
      SetRentAtIndex(slice, member.index, Assigned(Charge(member.enrollment, rate), Smoothed));
      forall k | 0 <= k < slice.Length
        ensures slice[k] == AfterWrites(rows[k], ms, t + 1, rate)
      {
        assert before[k] == AfterWrites(rows[k], ms, t, rate);
        AfterWritesStep(rows[k], ms, t, rate);
      }
    }
  }

  /** The unsmoothed branch of streamlit_app.py:121-124: everyone pays its
      own obligation, noted "Fixed". */
  method FixAll(slice: array<Row>)
    modifies slice
    ensures forall k :: 0 <= k < slice.Length ==>
      slice[k] == old(slice[k]).(rent := Assigned(old(slice[k]).baseRent, Fixed))
  {
    for i := 0 to slice.Length
      invariant forall k :: 0 <= k < i ==>
        slice[k] == old(slice[k]).(rent := Assigned(old(slice[k]).baseRent, Fixed))
      invariant forall k :: i <= k < slice.Length ==> slice[k] == old(slice[k])
    {
      slice[i] := slice[i].(rent := Assigned(slice[i].baseRent, Fixed));
    }
  }

  lemma IndexAmongIsLast(index: int, ms: seq<Row>)
    ensures IndexAmong(index, ms) <==> LastWithIndex(ms, index, |ms|) >= 0
  {
    var k := LastWithIndex(ms, index, |ms|);
    if k >= 0 {
      assert ms[k].index == index;
    }
  }

  /** `isin` on the members' labels (streamlit_app.py:127). */
  predicate IndexAmong(index: int, ms: seq<Row>) {
    exists t :: 0 <= t < |ms| && ms[t].index == index
  }

  /** The lease pass of streamlit_app.py:127-129: a row whose label is not
      among the members' labels pays its own obligation, noted "Lease". */
  method LeaseUnlabelled(slice: array<Row>, ms: seq<Row>)
    modifies slice
    ensures forall k :: 0 <= k < slice.Length ==>
      slice[k] == if IndexAmong(old(slice[k]).index, ms) then old(slice[k])
                  else old(slice[k]).(rent := Assigned(old(slice[k]).baseRent, Lease))
  {
    for i := 0 to slice.Length
      invariant forall k :: 0 <= k < i ==>
        slice[k] == if IndexAmong(old(slice[k]).index, ms) then old(slice[k])
                    else old(slice[k]).(rent := Assigned(old(slice[k]).baseRent, Lease))
      invariant forall k :: i <= k < slice.Length ==> slice[k] == old(slice[k])
    {
      if !IndexAmong(slice[i].index, ms) {
        slice[i] := slice[i].(rent := Assigned(slice[i].baseRent, Lease));
      }
    }
  }

  /** `.at[index, ...] = v` on a frame whose labels repeat: every row with
      that label is written. */
  method SetRentAtIndex(slice: array<Row>, index: int, rent: Rent)
    modifies slice
    ensures forall k :: 0 <= k < slice.Length ==>
      slice[k] == if old(slice[k]).index == index then old(slice[k]).(rent := rent) else old(slice[k])
  {
    for j := 0 to slice.Length
      invariant forall k :: 0 <= k < j ==>
        slice[k] == if old(slice[k]).index == index then old(slice[k]).(rent := rent) else old(slice[k])
      invariant forall k :: j <= k < slice.Length ==> slice[k] == old(slice[k])
    {
      if slice[j].index == index {
        slice[j] := slice[j].(rent := rent);
      }
    }
  }

  lemma AfterWritesStep(r: Row, ms: seq<Row>, t: nat, rate: real)
    requires t < |ms|
    ensures AfterWrites(r, ms, t + 1, rate)
         == if r.index == ms[t].index
            then AfterWrites(r, ms, t, rate).(rent := Assigned(Charge(ms[t].enrollment, rate), Smoothed))
            else AfterWrites(r, ms, t, rate)
  {
  }

  /** When every row of the year carries the same label and smoothing
      applies, the as-written pass charges every row, member or not, the
      smoothed rent of the last member. */
  lemma AsWrittenSharedIndex(slice: seq<Row>, sc: Scenario, i: int)
    requires RateDefined(slice, sc) && SmoothingApplies(slice, sc) && 0 <= i < |slice|
    requires forall k :: 0 <= k < |slice| ==> slice[k].index == slice[0].index
    ensures var ms := Members(slice, sc.growthJoinOg);
      AsWrittenSpec(slice, sc)[i].rent
        == Assigned(Charge(ms[|ms| - 1].enrollment, RentPerStudent(slice, sc.growthJoinOg)), Smoothed)
  {
    var ms := Members(slice, sc.growthJoinOg);
    LastMemberLabel(slice, sc.growthJoinOg);
    assert LastWithIndex(ms, slice[i].index, |ms|) == |ms| - 1;
  }

  /** With any member present, no row of the year is found outside the
      members' labels, so the as-written pass never notes a lease. */
  lemma AsWrittenNeverLease(slice: seq<Row>, sc: Scenario, i: int)
    requires RateDefined(slice, sc) && Members(slice, sc.growthJoinOg) != [] && 0 <= i < |slice|
    requires forall k :: 0 <= k < |slice| ==> slice[k].index == slice[0].index
    ensures AsWrittenSpec(slice, sc)[i].rent.note != Lease
  {
    var ms := Members(slice, sc.growthJoinOg);
    LastMemberLabel(slice, sc.growthJoinOg);
    assert LastWithIndex(ms, slice[i].index, |ms|) == |ms| - 1;
  }

  /** In a year whose rows share one label, the last member carries it. */
  lemma LastMemberLabel(slice: seq<Row>, joinOg: bool)
    requires Members(slice, joinOg) != []
    requires forall k :: 0 <= k < |slice| ==> slice[k].index == slice[0].index
    ensures var ms := Members(slice, joinOg); ms[|ms| - 1].index == slice[0].index
  {
    var ms := Members(slice, joinOg);
    assert ms[|ms| - 1] in slice;
  }

  // ---- real arithmetic, one product at a time ----

  lemma AddProducts(a: real, b: real, r: real)
    ensures a * r + b * r == (a + b) * r
  {
  }

  lemma DivCancel(d: real, e: real)
    requires e != 0.0
    ensures e * (d / e) == d
  {
  }

  lemma PositiveProduct(n: int, e: int)
    requires n > 0 && e > 0
    ensures n * e > 0
  {
  }

  lemma RateFromTotals(debt: real, enrollment: int, n: int, e: int, d: real)
    requires n > 0 && e > 0 && enrollment == n * e && debt == n as real * d
    ensures enrollment != 0
    ensures Charge(e, debt / enrollment as real) == d
  {
    PositiveProduct(n, e);
    assert enrollment as real == n as real * e as real;
  }
}
