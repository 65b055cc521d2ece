/** The dashboard aggregates over the claim list (aggregates in
    backend/app/services/dummy_data.py): totals by status, state and
    month, and the area distribution. */
module Aggregation {
  import opened Common
  import opened Text
  import opened Counting

  /** The keys of a generated claim that the aggregations read. */
  datatype Claim = Claim(state: string, status: string, areaHa: real, created: string, landType: string)

  // ----- area buckets -----

  datatype Band = UpTo2 | UpTo5 | UpTo10 | Over10 {
    /** The key of the bucket in the response. */
    function Label(): string {
      match this
      case UpTo2 => "0-2"
      case UpTo5 => "2-5"
      case UpTo10 => "5-10"
      case Over10 => "10+"
    }
  }

  /** The four buckets, always all present. */
  datatype Buckets = Buckets(upTo2: nat, upTo5: nat, upTo10: nat, over10: nat) {
    function Get(b: Band): nat {
      match b
      case UpTo2 => upTo2
      case UpTo5 => upTo5
      case UpTo10 => upTo10
      case Over10 => over10
    }

    function Size(): nat {
      upTo2 + upTo5 + upTo10 + over10
    }

    function Add(b: Band): Buckets {
      match b
      case UpTo2 => this.(upTo2 := upTo2 + 1)
      case UpTo5 => this.(upTo5 := upTo5 + 1)
      case UpTo10 => this.(upTo10 := upTo10 + 1)
      case Over10 => this.(over10 := over10 + 1)
    }
  }

  const NoBuckets: Buckets := Buckets(0, 0, 0, 0)

  /** The bucket of an area: at most 2, at most 5, at most 10, above 10. */
  function BandOf(a: real): Band {
    if a <= 2.0 then UpTo2 else if a <= 5.0 then UpTo5 else if a <= 10.0 then UpTo10 else Over10
  }

  /** The bucket boundaries: 2, 5 and 10 belong to the lower bucket. */
  lemma BandBoundaries(a: real)
    ensures BandOf(a) == UpTo2 <==> a <= 2.0
    ensures BandOf(a) == UpTo5 <==> 2.0 < a <= 5.0
    ensures BandOf(a) == UpTo10 <==> 5.0 < a <= 10.0
    ensures BandOf(a) == Over10 <==> 10.0 < a
  {
  }

  /** The buckets after counting the claims in order. */
  function BucketCount(cs: seq<Claim>): Buckets {
    if cs == [] then NoBuckets else BucketCount(cs[..|cs| - 1]).Add(BandOf(cs[|cs| - 1].areaHa))
  }

  /** Number of claims whose area falls in band b. */
  function InBand(cs: seq<Claim>, b: Band): nat {
    if cs == [] then 0 else (if BandOf(cs[0].areaHa) == b then 1 else 0) + InBand(cs[1..], b)
  }

  lemma {:induction false} InBandAppend(cs: seq<Claim>, c: Claim, b: Band)
    ensures InBand(cs + [c], b) == InBand(cs, b) + (if BandOf(c.areaHa) == b then 1 else 0)
  {
    if cs != [] {
      assert (cs + [c])[1..] == cs[1..] + [c];
      InBandAppend(cs[1..], c, b);
    }
  }

  /** Each bucket holds the claims in its band, and together the buckets
      hold every claim once. */
  lemma {:induction false} BucketsPartition(cs: seq<Claim>)
    ensures forall b :: BucketCount(cs).Get(b) == InBand(cs, b)
    ensures BucketCount(cs).Size() == |cs|
  {
    if cs != [] {
      var init, last := cs[..|cs| - 1], cs[|cs| - 1];
      assert cs == init + [last];
      BucketsPartition(init);
      forall b
        ensures BucketCount(cs).Get(b) == InBand(cs, b)
      {
        InBandAppend(init, last, b);
      }
    }
  }

  // ----- months -----

  /** `y, m, _ = created.split("-")` then `f"{y}-{m}"`; any other number of
      pieces raises, which is None here. */
  function MonthKey(created: string): Option<string> {
    var pieces := Split(created, '-');
    if |pieces| == 3 then Some(pieces[0] + "-" + pieces[1]) else None
  }

  /** The month key of an ISO date "YYYY-MM-DD" is "YYYY-MM". */
  lemma MonthKeyOfDate(y: string, m: string, d: string)
    requires '-' !in y && '-' !in m && '-' !in d
    ensures MonthKey(y + "-" + m + "-" + d) == Some(y + "-" + m)
  {
    SplitJoin([y, m, d], '-');
    assert [y, m, d][1..] == [m, d] && [m, d][1..] == [d];
    assert Join([m, d], "-") == m + "-" + d;
    assert Join([y, m, d], "-") == y + "-" + (m + "-" + d);
    assert y + "-" + (m + "-" + d) == y + "-" + m + "-" + d;
    assert Split(y + "-" + m + "-" + d, '-') == [y, m, d];
  }

  /** A date fails exactly when it does not have two dashes. */
  lemma MonthKeyFails(created: string)
    ensures MonthKey(created).None? <==> Occurrences(created, '-') != 2
  {
  }

  /** The month keys of the claims in order; None once one date fails. */
  function MonthKeys(cs: seq<Claim>): Option<seq<string>> {
    if cs == [] then Some([])
    else
      var init := MonthKeys(cs[..|cs| - 1]);
      var key := MonthKey(cs[|cs| - 1].created);
      if init.None? || key.None? then None else Some(init.value + [key.value])
  }

  /** The keys fail exactly when some claim's date fails; otherwise there is
      one key per claim, in order. */
  lemma {:induction false} MonthKeysIff(cs: seq<Claim>)
    ensures MonthKeys(cs).None? <==> exists i :: 0 <= i < |cs| && MonthKey(cs[i].created).None?
    ensures MonthKeys(cs).Some? ==>
      |MonthKeys(cs).value| == |cs|
      && forall i :: 0 <= i < |cs| ==> MonthKeys(cs).value[i] == MonthKey(cs[i].created).value
  {
    if cs != [] {
      var init := cs[..|cs| - 1];
      MonthKeysIff(init);
      assert forall i :: 0 <= i < |init| ==> init[i] == cs[i];
    }
  }

  // ----- the aggregates -----

  function Statuses(cs: seq<Claim>): seq<string> {
    seq(|cs|, i requires 0 <= i < |cs| => cs[i].status)
  }

  function States(cs: seq<Claim>): seq<string> {
    seq(|cs|, i requires 0 <= i < |cs| => cs[i].state)
  }

  datatype Summary = Summary(total: nat, byStatus: Counts, byState: Counts, byMonth: Counts, areaBuckets: Buckets)

  /** The response, or the ValueError a malformed date raises. */
  datatype Outcome = Aggregated(summary: Summary) | MalformedDate

  /** What aggregates returns for the claims. */
  function AggregatesOf(cs: seq<Claim>): Outcome {
    match MonthKeys(cs)
    case None => MalformedDate
    case Some(months) =>
      Aggregated(Summary(|cs|, Count(Statuses(cs)), Count(States(cs)),
                         SortByKey(Count(months)), BucketCount(cs)))
  }

  /** aggregates: Counter over statuses and states, the month tally and
      the buckets, and the month tally sorted by key. */
  method Aggregates(cs: seq<Claim>) returns (r: Outcome)
    ensures r == AggregatesOf(cs)
  {
    var total := |cs|;
    var byStatus := Count(Statuses(cs));
    var byState := Count(States(cs));
    var byMonth := TallyMonths(cs);
    if byMonth.None? {
      return MalformedDate;
    }
    var buckets := FillBuckets(cs);
    r := Aggregated(Summary(total, byStatus, byState, SortByKey(byMonth.value), buckets));
  }

  /** The month loop of aggregates: bumps the key of each claim in turn,
      stopping at the first date that does not split into three pieces. */
  method TallyMonths(cs: seq<Claim>) returns (r: Option<Counts>)
    ensures r.None? <==> MonthKeys(cs).None?
    ensures r.Some? ==> r.value == Count(MonthKeys(cs).value)
  {
    var byMonth: Counts := [];
    for k := 0 to |cs|
      invariant MonthKeys(cs[..k]).Some?
      invariant byMonth == Count(MonthKeys(cs[..k]).value)
    {
      assert cs[..k + 1][..k] == cs[..k];
      var key := MonthKey(cs[k].created);
      if key.None? {
        MonthKeysIff(cs);
        return None;
      }
      assert MonthKeys(cs[..k + 1]).value == MonthKeys(cs[..k]).value + [key.value];
      byMonth := Bump(byMonth, key.value);
    }
    assert cs[..|cs|] == cs;
    r := Some(byMonth);
  }

  /** The bucket loop of aggregates. */
  method FillBuckets(cs: seq<Claim>) returns (buckets: Buckets)
    ensures buckets == BucketCount(cs)
  {
    buckets := NoBuckets;
    for k := 0 to |cs|
      invariant buckets == BucketCount(cs[..k])
    {
      assert cs[..k + 1][..k] == cs[..k];
      var a := cs[k].areaHa;
      if a <= 2.0 {
        buckets := buckets.(upTo2 := buckets.upTo2 + 1);
      } else if a <= 5.0 {
        buckets := buckets.(upTo5 := buckets.upTo5 + 1);
      } else if a <= 10.0 {
        buckets := buckets.(upTo10 := buckets.upTo10 + 1);
      } else {
        buckets := buckets.(over10 := buckets.over10 + 1);
      }
    }
    assert cs[..|cs|] == cs;
  }

  /** The totals agree: the status, state and month tallies and the buckets
      each add up to the number of claims. */
  lemma TotalsAgree(cs: seq<Claim>)
    requires AggregatesOf(cs).Aggregated?
    ensures var s := AggregatesOf(cs).summary;
      && s.total == |cs|
      && Total(s.byStatus) == s.total
      && Total(s.byState) == s.total
      && Total(s.byMonth) == s.total
      && s.areaBuckets.Size() == s.total
  {
    var months := MonthKeys(cs).value;
    MonthKeysIff(cs);
    CountTotal(Statuses(cs));
    CountTotal(States(cs));
    CountTotal(months);
    CountShape(months);
    SortByKeyTotal(Count(months));
    BucketsPartition(cs);
  }

  /** Each status and state is counted as often as it occurs. */
  lemma TalliesCount(cs: seq<Claim>, key: string)
    requires AggregatesOf(cs).Aggregated?
    ensures Get(AggregatesOf(cs).summary.byStatus, key) == Occ(Statuses(cs), key)
    ensures Get(AggregatesOf(cs).summary.byState, key) == Occ(States(cs), key)
  {
    CountGet(Statuses(cs), key);
    CountGet(States(cs), key);
  }

  /** The month tally lists each month once, in ascending order, with the
      number of claims created in it. */
  lemma MonthsSortedAndCounted(cs: seq<Claim>, month: string)
    requires AggregatesOf(cs).Aggregated?
    ensures SortedByKey(AggregatesOf(cs).summary.byMonth)
    ensures Get(AggregatesOf(cs).summary.byMonth, month) == Occ(MonthKeys(cs).value, month)
  {
    var months := MonthKeys(cs).value;
    CountShape(months);
    SortByKeyCorrect(Count(months));
    SortByKeyGet(Count(months), month);
    CountGet(months, month);
  }

  /** Any malformed date makes the whole call fail. */
  lemma MalformedIff(cs: seq<Claim>)
    ensures AggregatesOf(cs) == MalformedDate <==>
      exists i :: 0 <= i < |cs| && MonthKey(cs[i].created).None?
  {
    MonthKeysIff(cs);
  }
}
