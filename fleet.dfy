/** The fleet the engine forecasts (streamlit_app.py:80-91): seven legacy
    schools of 500 pupils, five of them in the Obligated Group, and the
    optional growth school. */
module Fleet {
  import opened Common
  import opened Table
  import opened Projector
  import opened Smoothing

  const LegacyNames: seq<string> := [
    "School A (OG)", "School B (OG)", "School C (OG)", "School D (OG)",
    "School E (OG)", "School F (Lease)", "School G (Lease)"]
  const LegacyEnrollment: int := 500
  const GrowthName: string := "Growth CWB (New)"
  const GrowthStartEnrollment: int := 150

  /** The fleet as values, in the order the schools are built. A legacy
      school is in the Obligated Group when its name carries the marker; the
      growth school joins it when the scenario says so. */
  function FleetProfiles(sc: Scenario): (ps: seq<Profile>)
    ensures |ps| == if sc.activateGrowth then |LegacyNames| + 1 else |LegacyNames|
  {
    seq(|LegacyNames|, i requires 0 <= i < |LegacyNames| =>
          Profile(LegacyNames[i], LegacyEnrollment, Contains(LegacyNames[i], OgMarker), false))
    + (if sc.activateGrowth then [Profile(GrowthName, GrowthStartEnrollment, sc.growthJoinOg, true)] else [])
  }

  /** Builds the school objects of the fleet. */
  method BuildFleet(sc: Scenario) returns (schools: seq<School>)
    ensures |schools| == |FleetProfiles(sc)|
    ensures forall i :: 0 <= i < |schools| ==>
      fresh(schools[i]) && schools[i].ProfileView() == FleetProfiles(sc)[i]
      && schools[i].fixedCost == InitialFixedCost
    ensures forall i, j :: 0 <= i < j < |schools| ==> schools[i] != schools[j]
  {
    schools := [];
    for i := 0 to |LegacyNames|
      invariant |schools| == i
      invariant forall k :: 0 <= k < i ==>
        fresh(schools[k]) && schools[k].ProfileView() == FleetProfiles(sc)[k]
        && schools[k].fixedCost == InitialFixedCost
      invariant forall k, j :: 0 <= k < j < i ==> schools[k] != schools[j]
    {
      var name := LegacyNames[i];
      var isOg := Contains(name, OgMarker);
      var school := new School(name, LegacyEnrollment, isOg, false);
      schools := schools + [school];
    }
    if sc.activateGrowth {
      var school := new School(GrowthName, GrowthStartEnrollment, sc.growthJoinOg, true);
      schools := schools + [school];
    }
  }

  /** Every school of the fleet starts with pupils. */
  lemma FleetHasPupils(sc: Scenario)
    ensures forall i :: 0 <= i < |FleetProfiles(sc)| ==> FleetProfiles(sc)[i].enrollment > 0
    ensures forall i :: 0 <= i < |FleetProfiles(sc)| ==>
      FleetProfiles(sc)[i].enrollment == if i < |LegacyNames| then LegacyEnrollment else GrowthStartEnrollment
  {
    var ps := FleetProfiles(sc);
    forall i | 0 <= i < |ps|
      ensures ps[i].enrollment > 0
    {
      if i >= |LegacyNames| {
        assert ps[i].enrollment == GrowthStartEnrollment;
      }
    }
  }

  /** Schools A to E carry the Obligated-Group marker; F and G do not. */
  lemma LegacyOgMarker(i: int)
    requires 0 <= i < |LegacyNames|
    ensures Contains(LegacyNames[i], OgMarker) <==> i < 5
  {
    var name := LegacyNames[i];
    if i < 5 {
      assert OccursAt(name, OgMarker, 9);
    } else if Contains(name, OgMarker) {
      ContainsHasChar(name, OgMarker, 'O');
      assert false;
    }
  }

  /** No legacy name carries the growth marker. */
  lemma LegacyNotGrowth(i: int)
    requires 0 <= i < |LegacyNames|
    ensures !Contains(LegacyNames[i], GrowthMarker)
  {
    if Contains(LegacyNames[i], GrowthMarker) {
      ContainsHasChar(LegacyNames[i], GrowthMarker, 'W');
      assert false;
    }
  }

  /** The growth school's name carries the growth marker and not the
      Obligated-Group one. */
  lemma GrowthNameMarkers()
    ensures Contains(GrowthName, GrowthMarker)
    ensures !Contains(GrowthName, OgMarker)
  {
    assert OccursAt(GrowthName, GrowthMarker, 7);
    if Contains(GrowthName, OgMarker) {
      ContainsHasChar(GrowthName, OgMarker, 'O');
      assert false;
    }
  }

  /** The name-based selection of the smoothing pass picks exactly the
      schools built as Obligated-Group members: A to E, and the growth school
      when it joins. */
  lemma FleetSelectionMatchesIsOg(sc: Scenario, i: int)
    requires 0 <= i < |FleetProfiles(sc)|
    ensures var p := FleetProfiles(sc)[i];
      IsOgMember(p.name, sc.growthJoinOg) == p.isOg
    ensures var p := FleetProfiles(sc)[i];
      p.isOg <==> i < 5 || (p.isGrowth && sc.growthJoinOg)
  {
    if i < |LegacyNames| {
      LegacyOgMarker(i);
      LegacyNotGrowth(i);
    } else {
      GrowthNameMarkers();
    }
  }
}
