/** What the rent pass does to the default fleet as written, against the
    corrected pass the rest of the model uses. Every row of a year carries
    the same index label, so the label-addressed writes of
    streamlit_app.py:119-120 and the label test of line 127 reach rows they
    were not meant for. */
module Findings {
  import opened Common
  import opened Table
  import opened Projector
  import opened Smoothing
  import opened Fleet
  import opened Simulation

  /** Year y of the legacy fleet: seven rows in fleet order, all labelled
      y - 1; row 5 is School F, a lease school outside the pool. */
  lemma LegacyYear(sc: Scenario, y: nat)
    requires !sc.activateGrowth && 1 <= y <= Years
    ensures var slice := InYear(AllData(sc), y);
      && RateDefined(slice, sc)
      && |slice| == 7
      && (forall k :: 0 <= k < |slice| ==> slice[k].index == slice[0].index)
      && slice[5].school == "School F (Lease)" && slice[5].baseRent == LeaseDebtService
      && !IsOgMember(slice[5].school, sc.growthJoinOg)
      && IsOgMember(slice[4].school, sc.growthJoinOg)
      && (forall k :: 0 <= k < |slice| && IsOgMember(slice[k].school, sc.growthJoinOg) ==>
            slice[k].enrollment == LegacyEnrollment)
  {
    AllDataRateDefined(sc);
    YearSlice(sc, y);
    var slice := InYear(AllData(sc), y);
    forall k | 0 <= k < |slice| && IsOgMember(slice[k].school, sc.growthJoinOg)
      ensures slice[k].enrollment == LegacyEnrollment
    {
      FleetSelectionMatchesIsOg(sc, k);
    }
    FleetSelectionMatchesIsOg(sc, 4);
    FleetSelectionMatchesIsOg(sc, 5);
  }

  /** With smoothing on, the pass as written charges School F, a lease
      school, the smoothed 600000 of the Obligated Group and notes it
      "Smoothed"; the corrected pass charges it its own 400000 lease. */
  lemma AsWrittenChargesLeaseSchool(sc: Scenario, y: nat)
    requires sc.smoothing && !sc.activateGrowth && 1 <= y <= Years
    ensures RateDefined(InYear(AllData(sc), y), sc)
    ensures |InYear(AllData(sc), y)| == 7
    ensures AsWrittenSpec(InYear(AllData(sc), y), sc)[5].rent == Assigned(600000.0, Smoothed)
    ensures SmoothSpec(InYear(AllData(sc), y), sc)[5].rent == Assigned(400000.0, Lease)
  {
    var slice := InYear(AllData(sc), y);
    LegacyYear(sc, y);
    var ms := Members(slice, sc.growthJoinOg);
    MemberInPool(slice, sc.growthJoinOg, 4);
    var rate := RentPerStudent(slice, sc.growthJoinOg);
    // the corrected pass: School E pays 600000 = its 500 pupils at the rate
    LegacyPoolRent(sc, y, 4);
    SmoothedRentAt(slice, sc, 4);
    assert Charge(LegacyEnrollment, rate) == 600000.0;
    // as written, every row gets the last member's charge, and that member
    // is one of A..E with 500 pupils
    assert ms[|ms| - 1] in slice;
    AsWrittenSharedIndex(slice, sc, 5);
    RentNoteRule(slice, sc, 5);
  }

  /** With smoothing off, the pass as written notes School F "Fixed" — the
      lease test finds its label among the members' — where the corrected
      pass notes it "Lease"; the amount is its own 400000 either way. */
  lemma AsWrittenMislabelsLease(sc: Scenario, y: nat)
    requires !sc.smoothing && !sc.activateGrowth && 1 <= y <= Years
    ensures RateDefined(InYear(AllData(sc), y), sc)
    ensures |InYear(AllData(sc), y)| == 7
    ensures AsWrittenSpec(InYear(AllData(sc), y), sc)[5].rent == Assigned(400000.0, Fixed)
    ensures SmoothSpec(InYear(AllData(sc), y), sc)[5].rent == Assigned(400000.0, Lease)
  {
    var slice := InYear(AllData(sc), y);
    LegacyYear(sc, y);
    MemberInPool(slice, sc.growthJoinOg, 4);
    AsWrittenNeverLease(slice, sc, 5);
    RentNoteRule(slice, sc, 5);
  }
}
