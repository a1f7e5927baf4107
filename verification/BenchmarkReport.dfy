/** The summary of a paired benchmark and the claim it justifies. */
module BenchmarkReport {
  import opened SignTest
  import C = CoinFlips

  datatype Outcome = Win | Loss | Tie

  datatype Arm = Arm(oraclePassed: bool, toolCalls: int, tokens: int)

  datatype Pair = Pair(clusterID: string, toolPolicy: string, memorySource: string, baseline: Arm, treatment: Arm,
                       tokenDelta: int, outcome: Outcome)

  /** The rule by which the runner scores a pair. */
  predicate Scored(p: Pair) {
    p.tokenDelta == p.treatment.tokens - p.baseline.tokens &&
    (p.outcome.Win? <==> p.treatment.oraclePassed && !p.baseline.oraclePassed) &&
    (p.outcome.Loss? <==> !p.treatment.oraclePassed && p.baseline.oraclePassed)
  }

  /** The end of the runner's loop over the pairs. */
  method ScorePair(pair: Pair) returns (scored: Pair)
    ensures Scored(scored) && SameArms(scored, pair)
  {
    scored := pair.(tokenDelta := pair.treatment.tokens - pair.baseline.tokens);
    if pair.treatment.oraclePassed && !pair.baseline.oraclePassed {
      scored := scored.(outcome := Win);
    } else if !pair.treatment.oraclePassed && pair.baseline.oraclePassed {
      scored := scored.(outcome := Loss);
    } else {
      scored := scored.(outcome := Tie);
    }
  }

  predicate BaselinePassed(p: Pair) { p.baseline.oraclePassed }
  predicate TreatmentPassed(p: Pair) { p.treatment.oraclePassed }
  predicate ToolFree(p: Pair) { p.toolPolicy == "forbid" && p.baseline.toolCalls == 0 && p.treatment.toolCalls == 0 }
  predicate Verified(p: Pair) { p.memorySource == "verified_injection" }
  predicate Won(p: Pair) { p.outcome.Win? }
  predicate Lost(p: Pair) { p.outcome.Loss? }

  function Tally(pairs: seq<Pair>, holds: Pair -> bool): (n: nat)
    ensures n <= |pairs|
    ensures n == |pairs| <==> forall p :: p in pairs ==> holds(p)
  {
    if pairs == [] then 0
    else
      var last := |pairs| - 1;
      assert pairs == pairs[..last] + [pairs[last]];
      Tally(pairs[..last], holds) + if holds(pairs[last]) then 1 else 0
  }

  function Clusters(pairs: seq<Pair>): set<string> {
    set p | p in pairs :: p.clusterID
  }

  function TokenSum(pairs: seq<Pair>): int {
    if pairs == [] then 0 else TokenSum(pairs[..|pairs| - 1]) + pairs[|pairs| - 1].tokenDelta
  }

  datatype Summary = Summary(pairs: nat, baselinePasses: nat, treatmentPasses: nat, toolFree: nat, verified: nat,
                             wins: nat, losses: nat, ties: nat, clusters: nat, discordant: nat, p: real,
                             rateDelta: real, meanTokens: real)

  ghost predicate AllScored(pairs: seq<Pair>) {
    forall p :: p in pairs ==> Scored(p)
  }

  /** Wins lead losses by exactly what the treatment passes lead the baseline passes, whatever the population. */
  lemma {:induction false} LeadsAgree(pairs: seq<Pair>)
    requires AllScored(pairs)
    ensures Tally(pairs, Won) - Tally(pairs, Lost) == Tally(pairs, TreatmentPassed) - Tally(pairs, BaselinePassed)
  {
    if pairs != [] {
      var last := |pairs| - 1;
      assert Scored(pairs[last]);
      LeadsAgree(pairs[..last]);
    }
  }

  /** The counters of a summary count the pairs they are named after. */
  ghost predicate Counts(pairs: seq<Pair>, s: Summary) {
    s.wins + s.losses + s.ties == |pairs| && s.wins == Tally(pairs, Won) && s.losses == Tally(pairs, Lost) &&
    s.baselinePasses == Tally(pairs, BaselinePassed) && s.treatmentPasses == Tally(pairs, TreatmentPassed) &&
    s.toolFree == Tally(pairs, ToolFree) && s.verified == Tally(pairs, Verified)
  }

  /** The runner's loop scores each pair by which arm passed, so that the lead of wins over losses is the lead of the
      treatment's passes over the baseline's. */
  method ScoreAll(pairs: seq<Pair>) returns (scored: seq<Pair>)
    ensures AllScored(scored) && |scored| == |pairs|
    ensures forall i :: 0 <= i < |pairs| ==> SameArms(scored[i], pairs[i])
    ensures Tally(scored, Won) - Tally(scored, Lost) == Tally(pairs, TreatmentPassed) - Tally(pairs, BaselinePassed)
  {
    hide Tally, Scored, SameArms;
    scored := [];
    NoneScored();
    var i := 0;
    while i < |pairs|
      invariant 0 <= i <= |pairs| && |scored| == i && AllScored(scored)
      invariant forall j :: 0 <= j < i ==> SameArms(scored[j], pairs[j])
      invariant Tally(scored, TreatmentPassed) == Tally(pairs[..i], TreatmentPassed)
      invariant Tally(scored, BaselinePassed) == Tally(pairs[..i], BaselinePassed)
    {
      var one := ScorePair(pairs[i]);
      assert pairs[..i + 1] == pairs[..i] + [pairs[i]];
      ScoredNext(scored, pairs[..i], one, pairs[i]);
      scored := scored + [one];
      i := i + 1;
    }
    assert pairs[..i] == pairs;
    LeadsAgree(scored);
  }

  predicate SameArms(a: Pair, b: Pair) {
    a == b.(tokenDelta := a.tokenDelta, outcome := a.outcome)
  }

  lemma NoneScored()
    ensures AllScored([]) && Tally([], TreatmentPassed) == Tally([], BaselinePassed) == 0
  {
  }

  lemma ScoredNext(scored: seq<Pair>, pairs: seq<Pair>, one: Pair, pair: Pair)
    requires SameArms(one, pair)
    ensures Tally(scored + [one], TreatmentPassed) - Tally(scored, TreatmentPassed) ==
            Tally(pairs + [pair], TreatmentPassed) - Tally(pairs, TreatmentPassed)
    ensures Tally(scored + [one], BaselinePassed) - Tally(scored, BaselinePassed) ==
            Tally(pairs + [pair], BaselinePassed) - Tally(pairs, BaselinePassed)
  {
    hide Tally;
    TallyNext(scored, one, TreatmentPassed);
    TallyNext(pairs, pair, TreatmentPassed);
    TallyNext(scored, one, BaselinePassed);
    TallyNext(pairs, pair, BaselinePassed);
  }

  lemma TallyNext(pairs: seq<Pair>, p: Pair, holds: Pair -> bool)
    ensures Tally(pairs + [p], holds) == Tally(pairs, holds) + if holds(p) then 1 else 0
  {
    assert (pairs + [p])[..|pairs|] == pairs;
  }

  /** The counters after one more pair. */
  predicate Advances(s: Summary, p: Pair, next: Summary) {
    next.wins == s.wins + (if Won(p) then 1 else 0) && next.losses == s.losses + (if Lost(p) then 1 else 0) &&
    next.ties == s.ties + (if p.outcome.Tie? then 1 else 0) && next.pairs == s.pairs &&
    next.rateDelta == s.rateDelta && next.meanTokens == s.meanTokens &&
    next.baselinePasses == s.baselinePasses + (if BaselinePassed(p) then 1 else 0) &&
    next.treatmentPasses == s.treatmentPasses + (if TreatmentPassed(p) then 1 else 0) &&
    next.toolFree == s.toolFree + (if ToolFree(p) then 1 else 0) &&
    next.verified == s.verified + (if Verified(p) then 1 else 0)
  }

  lemma CountsNext(pairs: seq<Pair>, s: Summary, p: Pair, next: Summary)
    requires Counts(pairs, s) && Advances(s, p, next)
    ensures Counts(pairs + [p], next) && next.pairs == s.pairs
    ensures next.rateDelta == s.rateDelta && next.meanTokens == s.meanTokens
  {
    hide Tally;
    TallyNext(pairs, p, Won);
    TallyNext(pairs, p, Lost);
    TallyNext(pairs, p, BaselinePassed);
    TallyNext(pairs, p, TreatmentPassed);
    TallyNext(pairs, p, ToolFree);
    TallyNext(pairs, p, Verified);
  }

  /** The body of the counting loop. */
  method CountPair(s: Summary, pair: Pair) returns (next: Summary)
    ensures Advances(s, pair, next)
  {
    hide ToolFree, Verified;
    next := s;
    if pair.baseline.oraclePassed {
      next := next.(baselinePasses := next.baselinePasses + 1);
    }
    if pair.treatment.oraclePassed {
      next := next.(treatmentPasses := next.treatmentPasses + 1);
    }
    if ToolFree(pair) {
      next := next.(toolFree := next.toolFree + 1);
    }
    if Verified(pair) {
      next := next.(verified := next.verified + 1);
    }
    match pair.outcome
    case Win => next := next.(wins := next.wins + 1);
    case Loss => next := next.(losses := next.losses + 1);
    case Tie => next := next.(ties := next.ties + 1);
  }

  lemma SumsNext(pairs: seq<Pair>, p: Pair)
    ensures Clusters(pairs + [p]) == Clusters(pairs) + {p.clusterID}
    ensures TokenSum(pairs + [p]) == TokenSum(pairs) + p.tokenDelta
  {
    assert (pairs + [p])[..|pairs|] == pairs;
    assert forall x :: x in pairs + [p] <==> x in pairs || x == p;
  }

  lemma NoPairs(s: Summary)
    requires s.wins == s.losses == s.ties == s.baselinePasses == s.treatmentPasses == s.toolFree == s.verified == 0
    ensures Counts([], s) && Clusters([]) == {} && TokenSum([]) == 0
  {
  }

  /** The mean of a sum over n: multiplied out, it is the sum again. */
  predicate IsMean(mean: real, sum: int, n: nat) {
    mean * n as real == sum as real
  }

  function MeanOf(sum: int, n: nat): (mean: real)
    requires n > 0
    ensures IsMean(mean, sum, n)
  {
    sum as real / n as real
  }

  /** The loop of summarize. */
  method CountPairs(pairs: seq<Pair>) returns (s: Summary, clusters: set<string>, tokens: int)
    ensures Counts(pairs, s) && s.pairs == |pairs| && clusters == Clusters(pairs) && tokens == TokenSum(pairs)
    ensures s.rateDelta == 0.0 && s.meanTokens == 0.0
  {
    hide Tally, Clusters, TokenSum, Counts, Advances;
    clusters, tokens := {}, 0;
    s := Summary(|pairs|, 0, 0, 0, 0, 0, 0, 0, 0, 0, 1.0, 0.0, 0.0);
    NoPairs(s);
    var i := 0;
    while i < |pairs|
      invariant 0 <= i <= |pairs| && s.pairs == |pairs| && Counts(pairs[..i], s)
      invariant clusters == Clusters(pairs[..i]) && tokens == TokenSum(pairs[..i])
      invariant s.rateDelta == 0.0 && s.meanTokens == 0.0
    {
      var pair := pairs[i];
      assert pairs[..i + 1] == pairs[..i] + [pair];
      var next := CountPair(s, pair);
      CountsNext(pairs[..i], s, pair, next);
      s := next;
      SumsNext(pairs[..i], pair);
      tokens := tokens + pair.tokenDelta;
      clusters := clusters + {pair.clusterID};
      i := i + 1;
    }
    assert pairs[..i] == pairs;
  }

  /** summarize. */
  method Summarize(pairs: seq<Pair>) returns (s: Summary)
    ensures Counts(pairs, s) && s.pairs == |pairs| && s.discordant == s.wins + s.losses
    ensures s.clusters == |Clusters(pairs)| && s.p == PValue(s.wins, s.losses)
    ensures pairs != [] ==> IsMean(s.meanTokens, TokenSum(pairs), |pairs|)
    ensures pairs != [] ==> IsMean(s.rateDelta, s.treatmentPasses - s.baselinePasses, |pairs|)
    ensures pairs != [] && AllScored(pairs) ==> IsMean(s.rateDelta, s.wins - s.losses, |pairs|)
  {
    hide Tally, Clusters, TokenSum, Counts, PValue, AllScored, MeanOf, IsMean, Tail, C.Chance;
    var clusters, tokens;
    s, clusters, tokens := CountPairs(pairs);
    ghost var counted := s;
    var p := OneSidedSignTestP(s.wins, s.losses);
    PValueIs(s.wins, s.losses);
    s := s.(clusters := |clusters|, discordant := s.wins + s.losses, p := p);
    if |pairs| > 0 {
      s := s.(rateDelta := MeanOf(s.treatmentPasses - s.baselinePasses, |pairs|), meanTokens := MeanOf(tokens, |pairs|));
    }
    SameCounts(pairs, counted, s);
  }

  lemma SameCounts(pairs: seq<Pair>, s: Summary, next: Summary)
    requires Counts(pairs, s)
    requires next == s.(clusters := next.clusters, discordant := next.discordant, p := next.p, rateDelta := next.rateDelta,
                        meanTokens := next.meanTokens)
    ensures Counts(pairs, next)
    ensures AllScored(pairs) ==> next.treatmentPasses - next.baselinePasses == next.wins - next.losses
  {
    hide Tally;
    if AllScored(pairs) {
      LeadsAgree(pairs);
    }
  }

  const MIN_CLUSTERS := 20

  datatype ReportIssue = RunFailed(task: string) | UnverifiedInjection | ToolsUsed | FewClusters

  /** Every pair ran without tools on a verified injection. */
  ghost predicate Sealed(pairs: seq<Pair>) {
    forall p :: p in pairs ==> Verified(p) && ToolFree(p)
  }

  /** What has to hold of the pairs before a benefit may be claimed. */
  ghost predicate BenefitShown(pairs: seq<Pair>) {
    Sealed(pairs) && |Clusters(pairs)| >= MIN_CLUSTERS &&
    PValue(Tally(pairs, Won), Tally(pairs, Lost)) <= 0.05
  }

  lemma TallyAll(pairs: seq<Pair>)
    ensures Tally(pairs, Verified) == |pairs| && Tally(pairs, ToolFree) == |pairs| <==>
            Sealed(pairs)
  {
    hide ToolFree, Verified;
  }

  /** For pairs that the runner scored, what a benefit claim asks for already includes more passes with the treatment;
      and it takes at least five wins. */
  lemma BenefitMeansMorePasses(pairs: seq<Pair>)
    requires AllScored(pairs) && BenefitShown(pairs)
    ensures Tally(pairs, Won) >= 5 && Tally(pairs, Won) > Tally(pairs, Lost)
    ensures Tally(pairs, TreatmentPassed) > Tally(pairs, BaselinePassed)
  {
    hide PValue, Tally, Clusters, Sealed;
    EnoughWins(Tally(pairs, Won), Tally(pairs, Lost));
    LeadsAgree(pairs);
  }

  /** classifyReport. The runner's own issues block the claim, and so does anything that BenefitShown asks for. */
  method ClassifyReport(pairs: seq<Pair>, before: seq<ReportIssue>) returns (benefit: bool, issues: seq<ReportIssue>)
    ensures benefit <==> before == [] && BenefitShown(pairs) &&
                         Tally(pairs, TreatmentPassed) > Tally(pairs, BaselinePassed)
    ensures issues == [] <==> before == [] && Sealed(pairs) && |Clusters(pairs)| >= MIN_CLUSTERS
    ensures AllScored(pairs) ==> (benefit <==> before == [] && BenefitShown(pairs))
  {
    hide IsMean, PValue, Clusters, Tally, TokenSum, AllScored, ToolFree, Verified, Sealed;
    var s := Summarize(pairs);
    TallyAll(pairs);
    issues := before;
    benefit := false;
    if s.verified != |pairs| {
      issues := issues + [UnverifiedInjection];
    }
    if s.toolFree != |pairs| {
      issues := issues + [ToolsUsed];
    }
    if s.p <= 0.05 {
      EnoughWins(s.wins, s.losses);
    }
    if s.clusters < MIN_CLUSTERS {
      issues := issues + [FewClusters];
    } else if issues == [] && s.wins > s.losses && s.treatmentPasses > s.baselinePasses && s.p <= 0.05 {
      benefit := true;
    }
    if AllScored(pairs) && BenefitShown(pairs) {
      BenefitMeansMorePasses(pairs);
    }
  }
}
