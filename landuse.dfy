/** The land-use recommendations (land_use_insights in
    backend/app/services/dummy_data.py): one entry per land type that has
    claims, in the fixed land-type order. */
module LandUse {
  import opened Aggregation

  const LandTypes: seq<string> := ["degraded_forest", "community_forest", "agroforestry", "protected_zone"]

  datatype Insight = Insight(landType: string, claims: nat, avgAreaHa: real, suggestion: string)

  /** `[c for c in claims if c["land_type"] == lt]` */
  function Subset(cs: seq<Claim>, lt: string): (r: seq<Claim>)
    ensures |r| <= |cs|
    ensures forall i :: 0 <= i < |r| ==> r[i].landType == lt && r[i] in cs
  {
    if cs == [] then []
    else if cs[0].landType == lt then [cs[0]] + Subset(cs[1..], lt)
    else Subset(cs[1..], lt)
  }

  /** The subset keeps every claim of type lt, as often as it occurs in cs,
      and no other claim: its size is the number of claims of that type. */
  lemma {:induction false} SubsetKeepsAll(cs: seq<Claim>, lt: string)
    ensures forall c :: multiset(Subset(cs, lt))[c] == if c.landType == lt then multiset(cs)[c] else 0
  {
    if cs != [] {
      SubsetKeepsAll(cs[1..], lt);
      assert cs == [cs[0]] + cs[1..];
      assert multiset(cs) == multiset{cs[0]} + multiset(cs[1..]);
      if cs[0].landType == lt {
        assert multiset(Subset(cs, lt)) == multiset{cs[0]} + multiset(Subset(cs[1..], lt));
      }
    }
  }

  /** A land type has claims exactly when some input claim is of that type. */
  lemma {:induction false} SubsetNonEmptyIff(cs: seq<Claim>, lt: string)
    ensures Subset(cs, lt) != [] <==> exists i :: 0 <= i < |cs| && cs[i].landType == lt
  {
    if cs != [] {
      SubsetNonEmptyIff(cs[1..], lt);
      if cs[0].landType != lt {
        forall i | 0 <= i < |cs| && cs[i].landType == lt
          ensures exists j :: 0 <= j < |cs[1..]| && cs[1..][j].landType == lt
        {
          assert cs[1..][i - 1] == cs[i];
        }
      }
    }
  }

  function SumArea(cs: seq<Claim>): real {
    if cs == [] then 0.0 else cs[0].areaHa + SumArea(cs[1..])
  }

  /** The mean area of a non-empty subset (not rounded). */
  function Average(cs: seq<Claim>): real
    requires cs != []
  {
    SumArea(cs) / (|cs| as real)
  }

  /** The recommendation text for a land type; every type not named
      earlier gets the conservation text. */
  function Suggestion(lt: string): string {
    if lt == "degraded_forest" then "Afforestation and community forestry with native species"
    else if lt == "community_forest" then "Sustainable community-managed forestry and NTFP livelihood support"
    else if lt == "agroforestry" then "Agroforestry with mixed cropping and soil conservation"
    else "Conservation-first usage with minimal disturbance"
  }

  /** The entry for land type lt. */
  function Entry(lt: string, cs: seq<Claim>): Insight
    requires Subset(cs, lt) != []
  {
    Insight(lt, |Subset(cs, lt)|, Average(Subset(cs, lt)), Suggestion(lt))
  }

  /** The land types of lts that have at least one claim, in their order. */
  function Present(lts: seq<string>, cs: seq<Claim>): (r: seq<string>)
    ensures forall i :: 0 <= i < |r| ==> Subset(cs, r[i]) != []
  {
    if lts == [] then []
    else
      var lt := lts[|lts| - 1];
      Present(lts[..|lts| - 1], cs) + (if Subset(cs, lt) == [] then [] else [lt])
  }

  /** One entry per present land type, in order. */
  function InsightsFor(lts: seq<string>, cs: seq<Claim>): seq<Insight> {
    var ps := Present(lts, cs);
    seq(|ps|, i requires 0 <= i < |ps| => Entry(ps[i], cs))
  }

  /** land_use_insights: for each land type in turn, the subset of claims of
      that type; an empty subset is skipped, otherwise one entry is appended. */
  method LandUseInsights(cs: seq<Claim>) returns (recs: seq<Insight>)
    ensures recs == InsightsFor(LandTypes, cs)
  {
    recs := [];
    for k := 0 to |LandTypes|
      invariant recs == InsightsFor(LandTypes[..k], cs)
    {
      assert LandTypes[..k + 1][..k] == LandTypes[..k];
      var lt := LandTypes[k];
      var subset := Subset(cs, lt);
      if subset != [] {
        var avgArea := SumArea(subset) / (|subset| as real);
        recs := recs + [Insight(lt, |subset|, avgArea, Suggestion(lt))];
        InsightsStep(LandTypes[..k + 1], cs);
      } else {
        InsightsStep(LandTypes[..k + 1], cs);
      }
    }
    assert LandTypes[..|LandTypes|] == LandTypes;
  }

  /** One more land type adds its entry when it has claims, nothing otherwise. */
  lemma InsightsStep(lts: seq<string>, cs: seq<Claim>)
    requires lts != []
    ensures var lt := lts[|lts| - 1];
      InsightsFor(lts, cs) == InsightsFor(lts[..|lts| - 1], cs)
        + (if Subset(cs, lt) == [] then [] else [Entry(lt, cs)])
  {
  }

  /** A land type is present exactly when it is listed and has claims. */
  lemma {:induction false} PresentIff(lts: seq<string>, cs: seq<Claim>)
    ensures forall lt :: lt in Present(lts, cs) <==> lt in lts && Subset(cs, lt) != []
  {
    if lts != [] {
      var init := lts[..|lts| - 1];
      PresentIff(init, cs);
      assert lts == init + [lts[|lts| - 1]];
    }
  }

  /** Every two entries of types appear in the same order in lts. */
  predicate FollowsOrder(types: seq<string>, lts: seq<string>) {
    forall i, j :: 0 <= i < j < |types| ==>
      exists p, q :: 0 <= p < q < |lts| && lts[p] == types[i] && lts[q] == types[j]
  }

  /** The present land types keep the order of lts. */
  lemma {:induction false} PresentOrdered(lts: seq<string>, cs: seq<Claim>)
    ensures FollowsOrder(Present(lts, cs), lts)
  {
    if lts != [] {
      var init := lts[..|lts| - 1];
      PresentOrdered(init, cs);
      PresentIff(init, cs);
      var r, r0 := Present(lts, cs), Present(init, cs);
      forall i, j | 0 <= i < j < |r|
        ensures exists p, q :: 0 <= p < q < |lts| && lts[p] == r[i] && lts[q] == r[j]
      {
        assert r[i] == r0[i];
        if j < |r0| {
          assert r[j] == r0[j];
          var p, q :| 0 <= p < q < |init| && init[p] == r0[i] && init[q] == r0[j];
          assert lts[p] == init[p] && lts[q] == init[q];
        } else {
          assert r0[i] in init;
          var p :| 0 <= p < |init| && init[p] == r0[i];
          assert r == r0 + [lts[|lts| - 1]];
          assert 0 <= p < |lts| - 1 && lts[p] == r[i] && lts[|lts| - 1] == r[j];
        }
      }
    } else {
      assert Present(lts, cs) == [];
    }
  }

  function TypesOf(recs: seq<Insight>): seq<string> {
    seq(|recs|, i requires 0 <= i < |recs| => recs[i].landType)
  }

  /** Each land-use entry counts the claims of its type (so at least one),
      averages their areas, and carries the suggestion of its type, the
      protected zone getting the conservation text. */
  lemma EntriesDescribeSubsets(cs: seq<Claim>)
    ensures forall i :: 0 <= i < |InsightsFor(LandTypes, cs)| ==>
      var e := InsightsFor(LandTypes, cs)[i];
      && e.claims == |Subset(cs, e.landType)| >= 1
      && e.avgAreaHa == Average(Subset(cs, e.landType))
      && e.suggestion == Suggestion(e.landType)
      && (e.landType == "protected_zone" ==> e.suggestion == "Conservation-first usage with minimal disturbance")
  {
  }

  /** There is an entry for a land type exactly when it is one of the four
      and some input claim is of that type. */
  lemma EntryIff(cs: seq<Claim>, lt: string)
    ensures (exists i :: 0 <= i < |InsightsFor(LandTypes, cs)| && InsightsFor(LandTypes, cs)[i].landType == lt)
            <==> lt in LandTypes && exists j :: 0 <= j < |cs| && cs[j].landType == lt
  {
    var ps := Present(LandTypes, cs);
    PresentIff(LandTypes, cs);
    SubsetNonEmptyIff(cs, lt);
    assert forall i :: 0 <= i < |ps| ==> InsightsFor(LandTypes, cs)[i].landType == ps[i];
  }

  /** The entries follow the land-type order. */
  lemma EntriesOrdered(cs: seq<Claim>)
    ensures FollowsOrder(TypesOf(InsightsFor(LandTypes, cs)), LandTypes)
  {
    PresentOrdered(LandTypes, cs);
    assert TypesOf(InsightsFor(LandTypes, cs)) == Present(LandTypes, cs);
  }

  // ----- the average -----

  /** All areas of cs lie in [lo, hi]. */
  predicate AreasWithin(cs: seq<Claim>, lo: real, hi: real) {
    forall i :: 0 <= i < |cs| ==> lo <= cs[i].areaHa <= hi
  }

  lemma {:induction false} SumBounds(cs: seq<Claim>, lo: real, hi: real)
    requires AreasWithin(cs, lo, hi)
    ensures lo * (|cs| as real) <= SumArea(cs) <= hi * (|cs| as real)
  {
    if cs != [] {
      SumBounds(cs[1..], lo, hi);
      assert lo * (|cs| as real) == lo + lo * (|cs[1..]| as real);
      assert hi * (|cs| as real) == hi + hi * (|cs[1..]| as real);
    }
  }

  /** The average lies between any lower and upper bound of the areas, in
      particular between the smallest and the largest area of the subset. */
  lemma AverageWithin(cs: seq<Claim>, lo: real, hi: real)
    requires cs != []
    requires AreasWithin(cs, lo, hi)
    ensures lo <= Average(cs) <= hi
  {
    SumBounds(cs, lo, hi);
    var n := |cs| as real;
    assert lo * n / n == lo && hi * n / n == hi;
  }
}
