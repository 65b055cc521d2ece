/** The rule-based claim scoring of the decision-support endpoints
    (_score_claim, /dss/score and /dss/score-batch in
    backend/app/api/routes.py). */
module Scoring {
  import opened Common
  import opened Text

  /** The keys of a posted claim that the scorer reads. The four flags are
      already reduced to their Python truthiness; a missing or null
      area_ha, or a missing claim_id or status, is None. */
  datatype ClaimInput = ClaimInput(
    claimId: Option<string>,
    docsComplete: bool,
    isDuplicate: bool,
    areaHa: Option<real>,
    inCriticalWildlifeZone: bool,
    communitySupport: bool,
    status: Option<string>)

  datatype Priority = High | Medium | Low {
    /** The string the endpoint returns. */
    function Name(): string {
      match this
      case High => "high"
      case Medium => "medium"
      case Low => "low"
    }
  }

  /** One line of the explanation: each rule that fires contributes one. */
  datatype Term =
    | CompleteDocs | MissingDocs
    | Duplicate
    | SmallArea | LargeArea
    | WildlifeZone
    | CommunitySupport
    | AlreadyApproved | AlreadyRejected
  {
    /** The amount the rule adds to the score. */
    function Weight(): int {
      match this
      case CompleteDocs => 15
      case MissingDocs => -10
      case Duplicate => -25
      case SmallArea => 10
      case LargeArea => -5
      case WildlifeZone => -15
      case CommunitySupport => 10
      case AlreadyApproved => -40
      case AlreadyRejected => -30
    }

    /** The explanation text of the rule. */
    function Text(): string {
      match this
      case CompleteDocs => "+15 complete documents"
      case MissingDocs => "-10 missing documents"
      case Duplicate => "-25 potential duplicate"
      case SmallArea => "+10 small area <=2ha"
      case LargeArea => "-5 large area >=10ha"
      case WildlifeZone => "-15 critical wildlife zone"
      case CommunitySupport => "+10 community support"
      case AlreadyApproved => "-40 already approved"
      case AlreadyRejected => "-30 already rejected"
    }

    /** The position of the rule in the order the scorer checks them:
        documents, duplicate, area, wildlife zone, community, status. */
    function Rank(): nat {
      match this
      case CompleteDocs => 0
      case MissingDocs => 0
      case Duplicate => 1
      case SmallArea => 2
      case LargeArea => 2
      case WildlifeZone => 3
      case CommunitySupport => 4
      case AlreadyApproved => 5
      case AlreadyRejected => 5
    }
  }

  datatype ScoreResult = ScoreResult(score: int, priority: Priority, explanation: string)

  /** The starting score before any rule applies. */
  const Base: int := 50

  /** `float(claim.get("area_ha", 0) or 0)`: a missing, null or zero area
      counts as 0. */
  function Area(c: ClaimInput): real {
    c.areaHa.GetOr(0.0)
  }

  /** The documents rule: exactly one of its two lines always fires. */
  function DocsRule(c: ClaimInput): seq<Term> {
    if c.docsComplete then [CompleteDocs] else [MissingDocs]
  }

  function DuplicateRule(c: ClaimInput): seq<Term> {
    if c.isDuplicate then [Duplicate] else []
  }

  /** The area bands: at most 2 ha is small, at least 10 ha is large, and
      in between no line fires. */
  function AreaRule(c: ClaimInput): seq<Term> {
    if Area(c) <= 2.0 then [SmallArea] else if Area(c) >= 10.0 then [LargeArea] else []
  }

  function WildlifeRule(c: ClaimInput): seq<Term> {
    if c.inCriticalWildlifeZone then [WildlifeZone] else []
  }

  function CommunityRule(c: ClaimInput): seq<Term> {
    if c.communitySupport then [CommunitySupport] else []
  }

  /** The status rule: claims already decided are pushed down; any other
      status, or none, adds nothing. */
  function StatusRule(c: ClaimInput): seq<Term> {
    if c.status == Some("approved") then [AlreadyApproved]
    else if c.status == Some("rejected") then [AlreadyRejected] else []
  }

  /** The rules that fire for a claim, in the order they are checked. */
  function Terms(c: ClaimInput): seq<Term> {
    DocsRule(c) + DuplicateRule(c) + AreaRule(c) + WildlifeRule(c) + CommunityRule(c) + StatusRule(c)
  }

  function WeightSum(ts: seq<Term>): int {
    if ts == [] then 0 else ts[0].Weight() + WeightSum(ts[1..])
  }

  function Texts(ts: seq<Term>): seq<string> {
    if ts == [] then [] else [ts[0].Text()] + Texts(ts[1..])
  }

  /** `"; ".join(explanation)` */
  function Explain(ts: seq<Term>): string {
    Join(Texts(ts), "; ")
  }

  /** `max(0, min(100, x))` */
  function Clamp(x: int): (r: int)
    ensures 0 <= r <= 100
    ensures 0 <= x <= 100 ==> r == x
  {
    if x > 100 then 100 else if x < 0 then 0 else x
  }

  function PriorityOf(score: int): Priority {
    if score >= 70 then High else if score >= 40 then Medium else Low
  }

  function DocsWeight(c: ClaimInput): int {
    if c.docsComplete then 15 else -10
  }

  function DuplicateWeight(c: ClaimInput): int {
    if c.isDuplicate then -25 else 0
  }

  function AreaWeight(c: ClaimInput): int {
    if Area(c) <= 2.0 then 10 else if Area(c) >= 10.0 then -5 else 0
  }

  function WildlifeWeight(c: ClaimInput): int {
    if c.inCriticalWildlifeZone then -15 else 0
  }

  function CommunityWeight(c: ClaimInput): int {
    if c.communitySupport then 10 else 0
  }

  function StatusWeight(c: ClaimInput): int {
    if c.status == Some("approved") then -40
    else if c.status == Some("rejected") then -30 else 0
  }

  /** The unclamped score: the base plus each rule's adjustment. */
  function RawScore(c: ClaimInput): int {
    Base + DocsWeight(c) + DuplicateWeight(c) + AreaWeight(c)
    + WildlifeWeight(c) + CommunityWeight(c) + StatusWeight(c)
  }

  /** The score of a claim as the rules define it: the base plus the
      weights of the rules that fire, clamped to [0, 100]. */
  function ScoreOf(c: ClaimInput): ScoreResult {
    var s := Clamp(RawScore(c));
    ScoreResult(s, PriorityOf(s), Explain(Terms(c)))
  }

  /** _score_claim: the running score and explanation after the rules,
      then the clamp and the priority band. */
  method ScoreClaim(c: ClaimInput) returns (r: ScoreResult)
    ensures r == ScoreOf(c)
    ensures 0 <= r.score <= 100
    ensures r.priority == High <==> r.score >= 70
    ensures r.priority == Low <==> r.score < 40
  {
    var base, explanation := ApplyRules(c);
    var score := if base > 100 then 100 else base;
    score := if score < 0 then 0 else score;
    var priority := if score >= 70 then High else if score >= 40 then Medium else Low;
    r := ScoreResult(score, priority, Explain(explanation));
  }

  /** The rule pass of _score_claim: starts from 50, and for each rule in
      turn adjusts the running score and appends the rule's line to the
      explanation. */
  method ApplyRules(c: ClaimInput) returns (base: int, explanation: seq<Term>)
    ensures base == RawScore(c)
    ensures explanation == Terms(c)
  {
    base := 50;
    explanation := [];
    if c.docsComplete {
      base := base + 15;
      explanation := explanation + [CompleteDocs];
    } else {
      base := base - 10;
      explanation := explanation + [MissingDocs];
    }
    assert explanation == DocsRule(c) && base == Base + DocsWeight(c);
    ghost var done, sum := explanation, base;
    if c.isDuplicate {
      base := base - 25;
      explanation := explanation + [Duplicate];
    }
    assert explanation == done + DuplicateRule(c) && base == sum + DuplicateWeight(c);
    done, sum := explanation, base;
    var area := if c.areaHa.Some? then c.areaHa.value else 0.0;
    if area <= 2.0 {
      base := base + 10;
      explanation := explanation + [SmallArea];
    } else if area >= 10.0 {
      base := base - 5;
      explanation := explanation + [LargeArea];
    }
    assert explanation == done + AreaRule(c) && base == sum + AreaWeight(c);
    done, sum := explanation, base;
    if c.inCriticalWildlifeZone {
      base := base - 15;
      explanation := explanation + [WildlifeZone];
    }
    assert explanation == done + WildlifeRule(c) && base == sum + WildlifeWeight(c);
    done, sum := explanation, base;
    if c.communitySupport {
      base := base + 10;
      explanation := explanation + [CommunitySupport];
    }
    assert explanation == done + CommunityRule(c) && base == sum + CommunityWeight(c);
    done, sum := explanation, base;
    var status := c.status;
    if status == Some("approved") {
      base := base - 40;
      explanation := explanation + [AlreadyApproved];
    } else if status == Some("rejected") {
      base := base - 30;
      explanation := explanation + [AlreadyRejected];
    }
    assert explanation == done + StatusRule(c) && base == sum + StatusWeight(c);
  }

  /** The explanation accounts for the score: the weights of the lines it
      lists add up to the unclamped score's distance from the base. */
  lemma ExplanationAccountsForScore(c: ClaimInput)
    ensures WeightSum(Terms(c)) == RawScore(c) - Base
  {
    var d, u, a, w, m, s := DocsRule(c), DuplicateRule(c), AreaRule(c), WildlifeRule(c), CommunityRule(c), StatusRule(c);
    RuleWeights(c);
    WeightSumAppend(d, u);
    WeightSumAppend(d + u, a);
    WeightSumAppend(d + u + a, w);
    WeightSumAppend(d + u + a + w, m);
    WeightSumAppend(d + u + a + w + m, s);
  }

  /** Each rule's line carries exactly that rule's adjustment. */
  lemma RuleWeights(c: ClaimInput)
    ensures WeightSum(DocsRule(c)) == DocsWeight(c)
    ensures WeightSum(DuplicateRule(c)) == DuplicateWeight(c)
    ensures WeightSum(AreaRule(c)) == AreaWeight(c)
    ensures WeightSum(WildlifeRule(c)) == WildlifeWeight(c)
    ensures WeightSum(CommunityRule(c)) == CommunityWeight(c)
    ensures WeightSum(StatusRule(c)) == StatusWeight(c)
  {
  }

  lemma {:induction false} WeightSumAppend(a: seq<Term>, b: seq<Term>)
    ensures WeightSum(a + b) == WeightSum(a) + WeightSum(b)
  {
    if a == [] {
      assert a + b == b;
    } else {
      assert (a + b)[1..] == a[1..] + b;
      WeightSumAppend(a[1..], b);
    }
  }

  /** The unclamped score lies in [-45, 85]: the lower clamp can fire,
      the upper one never does. */
  lemma RawScoreRange(c: ClaimInput)
    ensures -45 <= RawScore(c) <= 85
  {
  }

  /** The score is the unclamped score floored at 0. */
  lemma ScoreIsFlooredRaw(c: ClaimInput)
    ensures ScoreOf(c).score == if RawScore(c) < 0 then 0 else RawScore(c)
    ensures ScoreOf(c).score <= 85
  {
    RawScoreRange(c);
  }

  /** A claim already approved or rejected is never high priority:
      the most it can reach is 45 (approved) or 55 (rejected). */
  lemma DecidedNeverHigh(c: ClaimInput)
    requires c.status == Some("approved") || c.status == Some("rejected")
    ensures ScoreOf(c).priority != High
    ensures c.status == Some("approved") ==> ScoreOf(c).score <= 45
    ensures c.status == Some("rejected") ==> ScoreOf(c).score <= 55
  {
    ScoreIsFlooredRaw(c);
  }

  /** Exactly which claims come out high priority: complete documents, not
      a duplicate, not yet decided, and at least two of small area,
      community support and lying outside a critical wildlife zone. */
  lemma HighIff(c: ClaimInput)
    ensures ScoreOf(c).priority == High <==>
      && c.docsComplete
      && !c.isDuplicate
      && c.status != Some("approved") && c.status != Some("rejected")
      && TwoOf(Area(c) <= 2.0, c.communitySupport, !c.inCriticalWildlifeZone)
  {
    ScoreIsFlooredRaw(c);
  }

  /** At least two of the three conditions hold. */
  predicate TwoOf(a: bool, b: bool, d: bool) {
    (a && b) || (a && d) || (b && d)
  }

  /** Clamping keeps order. */
  lemma ClampMonotone(x: int, y: int)
    requires x <= y
    ensures Clamp(x) <= Clamp(y)
  {
  }

  /** Completing the documents never lowers a claim's score. */
  lemma CompletingDocsNeverLowers(c: ClaimInput)
    ensures ScoreOf(c).score <= ScoreOf(c.(docsComplete := true)).score
  {
    ClampMonotone(RawScore(c), RawScore(c.(docsComplete := true)));
  }

  /** Community support never lowers a claim's score. */
  lemma SupportNeverLowers(c: ClaimInput)
    ensures ScoreOf(c).score <= ScoreOf(c.(communitySupport := true)).score
  {
    ClampMonotone(RawScore(c), RawScore(c.(communitySupport := true)));
  }

  /** Being flagged as a duplicate never raises a claim's score. */
  lemma DuplicateNeverRaises(c: ClaimInput)
    ensures ScoreOf(c.(isDuplicate := true)).score <= ScoreOf(c).score
  {
    ClampMonotone(RawScore(c.(isDuplicate := true)), RawScore(c));
  }

  /** The area bands: a missing, null or zero area earns the small-area
      line, an area of at least 10 ha the large-area line, and an area
      strictly between 2 and 10 ha no line at all. */
  lemma AreaBands(c: ClaimInput)
    ensures c.areaHa == None || c.areaHa == Some(0.0) ==> AreaRule(c) == [SmallArea]
    ensures AreaRule(c) == [SmallArea] <==> Area(c) <= 2.0
    ensures AreaRule(c) == [LargeArea] <==> Area(c) >= 10.0
    ensures AreaRule(c) == [] <==> 2.0 < Area(c) < 10.0
  {
  }

  /** The ranks strictly increase along ts. */
  predicate StrictlyRanked(ts: seq<Term>) {
    forall i, j :: 0 <= i < j < |ts| ==> ts[i].Rank() < ts[j].Rank()
  }

  /** ts holds at most one line, and it comes from the rule of rank k. */
  predicate AtMostOneOfRank(ts: seq<Term>, k: nat) {
    |ts| <= 1 && forall i :: 0 <= i < |ts| ==> ts[i].Rank() == k
  }

  /** Appending a later rule's line keeps the ranks increasing. */
  lemma AppendRanked(xs: seq<Term>, ys: seq<Term>, k: nat)
    requires StrictlyRanked(xs)
    requires forall i :: 0 <= i < |xs| ==> xs[i].Rank() < k
    requires AtMostOneOfRank(ys, k)
    ensures StrictlyRanked(xs + ys)
    ensures forall i :: 0 <= i < |xs + ys| ==> (xs + ys)[i].Rank() < k + 1
  {
  }

  /** The explanation lists one line per rule that fired, in the order the
      rules are checked: it starts with the documents line, and no two
      lines come from the same rule. */
  lemma TermsOrdered(c: ClaimInput)
    ensures 1 <= |Terms(c)| <= 6
    ensures Terms(c)[0] == CompleteDocs <==> c.docsComplete
    ensures Terms(c)[0] == MissingDocs <==> !c.docsComplete
    ensures StrictlyRanked(Terms(c))
  {
    TermsStartWithDocs(c);
    TermsRanked(c);
  }

  lemma TermsStartWithDocs(c: ClaimInput)
    ensures 1 <= |Terms(c)| <= 6
    ensures Terms(c)[0] == (if c.docsComplete then CompleteDocs else MissingDocs)
  {
    var rest := DuplicateRule(c) + AreaRule(c) + WildlifeRule(c) + CommunityRule(c) + StatusRule(c);
    assert Terms(c) == DocsRule(c) + rest;
  }

  lemma TermsRanked(c: ClaimInput)
    ensures StrictlyRanked(Terms(c))
  {
    var d, u, a, w, m, s := DocsRule(c), DuplicateRule(c), AreaRule(c), WildlifeRule(c), CommunityRule(c), StatusRule(c);
    assert AtMostOneOfRank(u, 1) && AtMostOneOfRank(a, 2) && AtMostOneOfRank(w, 3);
    assert AtMostOneOfRank(m, 4) && AtMostOneOfRank(s, 5);
    AppendRanked(d, u, 1);
    AppendRanked(d + u, a, 2);
    AppendRanked(d + u + a, w, 3);
    AppendRanked(d + u + a + w, m, 4);
    AppendRanked(d + u + a + w + m, s, 5);
    assert Terms(c) == d + u + a + w + m + s;
  }

  /** One element of the /dss/score-batch response. */
  datatype BatchEntry = BatchEntry(id: Option<string>, result: ScoreResult, input: ClaimInput)

  /** The response entry for one claim. */
  function EntryOf(c: ClaimInput): BatchEntry {
    BatchEntry(c.claimId, ScoreOf(c), c)
  }

  /** The loop body of the batch handler: one claim scored and echoed. */
  method ScoreEntry(c: ClaimInput) returns (e: BatchEntry)
    ensures e == EntryOf(c)
  {
    var r := ScoreClaim(c);
    e := BatchEntry(c.claimId, r, c);
  }

  /** The entries of a batch, in claim order. */
  function Entries(cs: seq<ClaimInput>): (r: seq<BatchEntry>)
    ensures |r| == |cs|
  {
    if cs == [] then [] else Entries(cs[..|cs| - 1]) + [EntryOf(cs[|cs| - 1])]
  }

  /** Each entry echoes its claim and its claim_id and carries the score of
      that claim. */
  lemma {:induction false} EntriesScoreEachClaim(cs: seq<ClaimInput>)
    ensures forall i :: 0 <= i < |cs| ==>
      && Entries(cs)[i].input == cs[i]
      && Entries(cs)[i].id == cs[i].claimId
      && Entries(cs)[i].result == ScoreOf(cs[i])
  {
    if cs != [] {
      EntriesScoreEachClaim(cs[..|cs| - 1]);
    }
  }

  /** /dss/score-batch: `claims` missing, null or empty scores nothing;
      otherwise each claim is scored in order, echoed back with its
      claim_id, and the count is the number of entries. */
  method ScoreBatch(claims: Option<seq<ClaimInput>>) returns (results: seq<BatchEntry>, count: nat)
    ensures claims.None? ==> results == []
    ensures claims.Some? ==> results == Entries(claims.value)
    ensures count == |results|
  {
    var cs := if claims.Some? then claims.value else [];
    var out: seq<BatchEntry> := [];
    for k := 0 to |cs|
      invariant out == Entries(cs[..k])
    {
      assert cs[..k + 1][..k] == cs[..k];
      var entry := ScoreEntry(cs[k]);
      out := out + [entry];
    }
    assert cs[..|cs|] == cs;
    results, count := out, |out|;
  }
}
