/** What a candidate says, told by its observations and by the statements that they were derived from. */
module CandidateMeaning {
  import opened Primitives
  import opened Ordering
  import opened Sorting
  import opened CandidateTypes
  import opened CandidateMerge
  import opened CandidateAggregate
  import opened CandidateDerive

  // ---- Counts, times and supports ----

  function EpisodesIn(observations: seq<Observation>): set<string> {
    set o | o in observations :: o.episodeID
  }

  function EventsIn(observations: seq<Observation>): set<string> {
    set o, e | o in observations && e in o.evidence + o.corrections :: e
  }

  predicate Supported(observations: seq<Observation>, s: SupportType) {
    exists o :: o in observations && s in o.supports
  }

  /** The widest range of times of the observations. */
  ghost predicate Spans(observations: seq<Observation>, first: Time, last: Time) {
    (forall o :: o in observations ==> first <= o.firstSeen && o.lastSeen <= last) &&
    (exists o :: o in observations && o.firstSeen == first) && exists o :: o in observations && o.lastSeen == last
  }

  lemma {:induction false} TotalsMean(observations: seq<Observation>)
    requires observations != []
    ensures var t := TotalsOf(observations);
            t.episodes == EpisodesIn(observations) && t.events == EventsIn(observations) &&
            (forall s :: s in t.supports <==> Supported(observations, s)) && Spans(observations, t.firstSeen, t.lastSeen)
  {
    hide EpisodesIn, EventsIn, Supported, Spans, EventsOf;
    var n := |observations| - 1;
    var front, o := observations[..n], observations[n];
    assert observations == front + [o];
    MoreTotals(front, o);
    MoreSpans(front, o);
    if n > 0 {
      TotalsMean(front);
    } else {
      assert front == [];
    }
  }

  lemma MoreTotals(front: seq<Observation>, o: Observation)
    ensures EpisodesIn(front + [o]) == EpisodesIn(front) + {o.episodeID}
    ensures EventsIn(front + [o]) == EventsIn(front) + EventsOf(o)
    ensures forall s :: Supported(front + [o], s) <==> Supported(front, s) || s in o.supports
    ensures front == [] ==> EpisodesIn(front) == {} && EventsIn(front) == {} && forall s :: !Supported(front, s)
  {
    var more := front + [o];
    assert forall x :: x in more <==> x in front || x == o;
    assert forall e :: e in o.evidence + o.corrections <==> e in EventsOf(o);
  }

  lemma MoreSpans(front: seq<Observation>, o: Observation)
    ensures front == [] ==> Spans(front + [o], o.firstSeen, o.lastSeen)
    ensures forall first, last :: Spans(front, first, last) ==>
              Spans(front + [o], if o.firstSeen < first then o.firstSeen else first,
                    if o.lastSeen > last then o.lastSeen else last)
  {
    forall first, last | Spans(front, first, last)
      ensures Spans(front + [o], if o.firstSeen < first then o.firstSeen else first,
                    if o.lastSeen > last then o.lastSeen else last)
    {
      var p :| p in front && p.firstSeen == first;
      var q :| q in front && q.lastSeen == last;
      assert p in front + [o] && q in front + [o] && o in front + [o];
    }
    assert o in front + [o];
  }

  // ---- Validation ----

  /** The user said no more than this in one task. */
  ghost predicate OnlyInstructed(c: Candidate) {
    c.episodeCount < 2 && forall o, s :: o in c.observations && s in o.supports ==> s == UserInstruction
  }

  /** Which reasons a candidate carries. */
  ghost predicate ReasonsFollow(c: Candidate) {
    var reasons := c.validation.reasons;
    Ranked(reasons, r => ReasonRank(r)) &&
    ScopeConfirmation in reasons &&
    (ExplicitUserRemember in reasons <==> Supported(c.observations, ExplicitRemember)) &&
    (Correction in reasons <==> Supported(c.observations, UserCorrection)) &&
    (DriftWithCorrection in reasons <==> Supported(c.observations, CompactionDrift)) &&
    (Repetition in reasons <==> c.episodeCount >= 2 || Supported(c.observations, StableRepetition)) &&
    (SingleTaskOnly in reasons <==> OnlyInstructed(c)) &&
    (RuleChangeApproval in reasons <==> c.approval) &&
    (SemanticConflict in reasons <==> c.conflicting != [])
  }

  /** A candidate in conflict is quarantined, one that was only instructed in one task is not trusted, and any other one
      is ready for review; none is ever promoted without a person. */
  ghost predicate StateFollows(c: Candidate) {
    (c.validation.status.Quarantined? <==> c.conflicting != []) &&
    (c.validation.status.Untrusted? <==> c.conflicting == [] && OnlyInstructed(c)) &&
    (c.validation.status.ReviewReady? <==> c.conflicting == [] && !OnlyInstructed(c)) &&
    ReasonsFollow(c) && c.validation.scopeConfirmation && !c.validation.automaticPromotion && c.scopeUnconfirmed
  }

  /** The counts, the times and the supports of a candidate are those of its observations; two episodes make a
      repetition. */
  ghost predicate CountsFollow(c: Candidate) {
    c.observations != [] && c.episodeCount == |EpisodesIn(c.observations)| && c.eventCount == |EventsIn(c.observations)| &&
    Spans(c.observations, c.firstSeen, c.lastSeen) && SupportsAscending(c.supports) &&
    forall s :: s in c.supports <==> Supported(c.observations, s) || (s == StableRepetition && c.episodeCount >= 2)
  }

  lemma ReasonsRanked()
    ensures Ranked(REASONS, r => ReasonRank(r))
  {
  }

  lemma ReasonsAscend(reasons: set<Reason>)
    ensures Ranked(SortedReasons(reasons), r => ReasonRank(r))
  {
    hide ReasonRank;
    ReasonsRanked();
    KeepRanked(REASONS, reasons, r => ReasonRank(r));
  }

  lemma StrongMeans(supports: set<SupportType>)
    ensures Strong(supports) <==> exists s :: s in supports && s != UserInstruction
  {
    if s :| s in supports && s != UserInstruction {
      assert ReasonOf(s) != {};
    }
  }

  /** What validationFor gives, reason by reason. */
  lemma PlainReasons(supports: set<SupportType>, approval: bool)
    ensures var v := ValidationFor(supports, approval);
            (ScopeConfirmation in v.reasons) && (ExplicitUserRemember in v.reasons <==> ExplicitRemember in supports) &&
            (Correction in v.reasons <==> UserCorrection in supports) &&
            (DriftWithCorrection in v.reasons <==> CompactionDrift in supports) &&
            (Repetition in v.reasons <==> StableRepetition in supports) &&
            (SingleTaskOnly in v.reasons <==> !Strong(supports)) && (RuleChangeApproval in v.reasons <==> approval) &&
            SemanticConflict !in v.reasons && v.scopeConfirmation && !v.automaticPromotion &&
            v.status == (if Strong(supports) then ReviewReady else Untrusted) && Ranked(v.reasons, r => ReasonRank(r))
  {
    hide Strong, SortedReasons;
    var found := set s, r | s in supports && r in ReasonOf(s) :: r;
    var reasons := {ScopeConfirmation} + found + (if Strong(supports) then {} else {SingleTaskOnly}) +
                   if approval then {RuleChangeApproval} else {};
    ReasonsAscend(reasons);
    FoundReasons(supports, found);
  }

  lemma FoundReasons(supports: set<SupportType>, found: set<Reason>)
    requires found == set s, r | s in supports && r in ReasonOf(s) :: r
    ensures forall s, r :: s in supports && r in ReasonOf(s) ==> r in found
    ensures ScopeConfirmation !in found && SingleTaskOnly !in found && RuleChangeApproval !in found
    ensures SemanticConflict !in found && (ExplicitUserRemember in found <==> ExplicitRemember in supports)
    ensures (Correction in found <==> UserCorrection in supports) && (Repetition in found <==> StableRepetition in supports)
    ensures DriftWithCorrection in found <==> CompactionDrift in supports
  {
    assert ReasonOf(ExplicitRemember) == {ExplicitUserRemember} && ReasonOf(UserCorrection) == {Correction};
    assert ReasonOf(CompactionDrift) == {DriftWithCorrection} && ReasonOf(StableRepetition) == {Repetition};
  }

  lemma QuarantineReasons(v: Validation)
    ensures var q := Quarantine(v);
            q.status.Quarantined? && q.scopeConfirmation == v.scopeConfirmation &&
            q.automaticPromotion == v.automaticPromotion && Ranked(q.reasons, r => ReasonRank(r)) &&
            forall r :: r in q.reasons <==> r in v.reasons || r == SemanticConflict
  {
    hide SortedReasons;
    ReasonsAscend((set r | r in v.reasons) + {SemanticConflict});
  }

  /** The fields that are computed from the observations. */
  predicate Computed(c: Candidate) {
    c.observations != [] && c.scopeUnconfirmed &&
    var t := TotalsOf(c.observations);
    c.episodeCount == |t.episodes| && c.eventCount == |t.events| && c.firstSeen == t.firstSeen &&
    c.lastSeen == t.lastSeen && c.supports == SortedSupports(SupportSet(t)) &&
    var plain := ValidationFor(SupportSet(t), c.approval);
    c.validation == if c.conflicting == [] then plain else Quarantine(plain)
  }

  /** Two candidates with the same observations, conflicts and approval that both follow from them are in one state. */
  lemma FollowsUnique(c: Candidate, d: Candidate)
    requires CountsFollow(c) && StateFollows(c) && CountsFollow(d) && StateFollows(d)
    requires c.observations == d.observations && c.conflicting == d.conflicting && c.approval == d.approval
    ensures c.episodeCount == d.episodeCount && c.eventCount == d.eventCount && c.firstSeen == d.firstSeen
    ensures c.lastSeen == d.lastSeen && c.supports == d.supports && c.validation == d.validation
  {
    hide EpisodesIn, EventsIn, Supported, ReasonRank, SupportRank;
    RankUnique(c.supports, d.supports, x => SupportRank(x));
    forall r: Reason
      ensures r in c.validation.reasons <==> r in d.validation.reasons
    {
      match r
      case DriftWithCorrection =>
      case ExplicitUserRemember =>
      case RuleChangeApproval =>
      case ScopeConfirmation =>
      case SemanticConflict =>
      case SingleTaskOnly =>
      case Repetition =>
      case Correction =>
    }
    RankUnique(c.validation.reasons, d.validation.reasons, r => ReasonRank(r));
  }

  /** The computed fields are the only ones that follow from the observations. */
  lemma ComputedExactly(c: Candidate)
    ensures Computed(c) <==> CountsFollow(c) && StateFollows(c)
  {
    hide ValidationFor, Quarantine, SortedSupports, TotalsOf, CountsFollow, StateFollows;
    if Computed(c) {
      ComputedFollows(c);
    } else if CountsFollow(c) && StateFollows(c) {
      FollowsFacts(c);
      var t := TotalsOf(c.observations);
      var plain := ValidationFor(SupportSet(t), c.approval);
      var d := c.(episodeCount := |t.episodes|, eventCount := |t.events|, firstSeen := t.firstSeen, lastSeen := t.lastSeen,
                  supports := SortedSupports(SupportSet(t)),
                  validation := if c.conflicting == [] then plain else Quarantine(plain));
      ComputedFollows(d);
      FollowsUnique(c, d);
    }
  }

  lemma FollowsFacts(c: Candidate)
    requires CountsFollow(c) && StateFollows(c)
    ensures c.observations != [] && c.scopeUnconfirmed
  {
  }

  lemma CountsComputed(c: Candidate)
    requires Computed(c)
    ensures CountsFollow(c) && forall s :: s in TotalsOf(c.observations).supports <==> Supported(c.observations, s)
  {
    hide ValidationFor, Quarantine, SortedSupports, TotalsOf, EpisodesIn, EventsIn, Spans, Supported, SupportsAscending;
    TotalsMean(c.observations);
    SortedSupportsAscend(SupportSet(TotalsOf(c.observations)));
  }

  lemma ComputedFollows(c: Candidate)
    requires Computed(c)
    ensures CountsFollow(c) && StateFollows(c)
  {
    hide ValidationFor, Quarantine, SortedSupports, TotalsOf, Strong, Supported, Ranked, CountsFollow, OnlyInstructed;
    var t := TotalsOf(c.observations);
    CountsComputed(c);
    PlainReasons(SupportSet(t), c.approval);
    QuarantineReasons(ValidationFor(SupportSet(t), c.approval));
    StrongMeans(SupportSet(t));
    OnlyInstructedMeans(c, t);
  }

  lemma OnlyInstructedMeans(c: Candidate, t: Totals)
    requires c.episodeCount == |t.episodes| && forall s :: s in t.supports <==> Supported(c.observations, s)
    ensures OnlyInstructed(c) <==> forall s :: s in SupportSet(t) ==> s == UserInstruction
  {
    if |t.episodes| >= 2 {
      assert StableRepetition in SupportSet(t);
    } else {
      assert SupportSet(t) == t.supports;
      if OnlyInstructed(c) {
        forall s | s in t.supports
          ensures s == UserInstruction
        {
          assert Supported(c.observations, s);
          var o :| o in c.observations && s in o.supports;
        }
      } else {
        var o, s :| o in c.observations && s in o.supports && s != UserInstruction;
        assert Supported(c.observations, s);
        assert s in SupportSet(t);
      }
    }
  }

  lemma NoLinksNoList(ids: set<string>)
    ensures ids == {} <==> SortedSet(ids) == []
  {
    assert Elements(SortedSet(ids)) == ids;
    if SortedSet(ids) != [] {
      assert SortedSet(ids)[0] in Elements(SortedSet(ids));
    }
  }

  /** Every candidate of any records follows from its observations. */
  lemma CandidateFollows(rules: Rules, records: seq<Staged>, id: string)
    requires id in IDs(records)
    ensures CountsFollow(CandidateOf(rules, records, id)) && StateFollows(CandidateOf(rules, records, id))
  {
    hide ValidationFor, Quarantine, SortedSupports, TotalsOf, CountsFollow, StateFollows, Merged, LeastText, NeedsApproval,
         RelatedTo, OpposedTo, IDs;
    MergedNonEmpty(ObservationsOf(Own(records, id)));
    NoLinksNoList(OpposedTo(records, id));
    ComputedFollows(CandidateOf(rules, records, id));
  }
}
