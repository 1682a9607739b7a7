/** The extractive summarizer's own output always passes the gate. */
module Extractive {
  import opened Basics
  import opened Contract
  import opened Text
  import opened Summarizer
  import opened Gate

  ghost predicate HaveDistinctIds(sources: seq<SourceMemory>) {
    forall i, j :: 0 <= i < j < |sources| ==> sources[i].id != sources[j].id
  }

  /** Every quote of the claim is long enough to support anything. */
  predicate HasLongQuotes(a: Alphabet, c: Candidate) {
    forall e <- c.evidence :: |Normalize(a, e.quote)| >= MIN_QUOTE_CHARS
  }

  lemma {:induction false} ByIdLooksUp(sources: seq<SourceMemory>)
    requires HaveDistinctIds(sources)
    ensures forall source <- sources :: source.id in ById(sources) && ById(sources)[source.id] == source
  {
    if sources != [] {
      var n := |sources| - 1;
      ByIdLooksUp(sources[..n]);
      forall source <- sources ensures source.id in ById(sources) && ById(sources)[source.id] == source {
        if source in sources[..n] {
          var i :| 0 <= i < n && sources[i] == source;
          assert sources[i].id != sources[n].id;
        }
      }
    }
  }

  /** A verbatim quote is faulted for its length or not at all. */
  lemma OnlyShortQuotesAreFaulted(a: Alphabet, sources: seq<SourceMemory>, text: string, e: EvidenceRef)
    requires HaveDistinctIds(sources) && IsVerbatim(a, sources, text, e)
    ensures EvidenceFault(a, ById(sources), e)
         == if |Normalize(a, e.quote)| < MIN_QUOTE_CHARS then Some(QuoteNotInSource) else None
  {
    var source :| source in sources && QuotedFrom(a, source, e);
    ByIdLooksUp(sources);
    SentenceIsQuotable(a, source.content, e.quote);
  }

  /** All quotes of an extract say exactly the words of the claim. */
  lemma ExtractSaysItsWords(a: Alphabet, sources: seq<SourceMemory>, c: Candidate)
    requires IsExtract(a, sources, c)
    ensures forall w :: Says(a, c.evidence, w) <==> w in CanonicalWords(a, c.text)
  {
    forall e <- c.evidence ensures CanonicalWords(a, e.quote) == CanonicalWords(a, c.text) {
      assert IsVerbatim(a, sources, c.text, e);
      SameNegation(a, e.quote, c.text);
    }
    assert c.evidence[0] in c.evidence;
  }

  lemma ExtractIsSupported(a: Alphabet, sources: seq<SourceMemory>, c: Candidate)
    requires IsExtract(a, sources, c)
    ensures IsSupported(a, c.text, JoinedQuotes(c.evidence))
    ensures QualifiersOf(a, c.text).negated == QualifiersOf(a, JoinedQuotes(c.evidence)).negated
  {
    ExtractSaysItsWords(a, sources, c);
    JoinedQuotesSay(a, c.evidence);
    AllWordsSupport(a, c.text, JoinedQuotes(c.evidence));
    NegationIsAWord(a, c.text);
    NegatedWhenSaid(a, c.evidence);
  }

  lemma {:induction false} FirstFaultIs(a: Alphabet, byId: SourceTable, evidence: seq<EvidenceRef>, reason: RejectReason)
    requires forall e <- evidence :: EvidenceFault(a, byId, e) in {None, Some(reason)}
    ensures FirstFault(a, byId, evidence) in {None, Some(reason)}
  {
    if evidence != [] {
      var n := |evidence| - 1;
      assert evidence == evidence[..n] + [evidence[n]];
      FirstFaultIs(a, byId, evidence[..n], reason);
    }
  }

  lemma FaultsAreShortQuotes(a: Alphabet, sources: seq<SourceMemory>, c: Candidate)
    requires HaveDistinctIds(sources) && IsExtract(a, sources, c)
    ensures FirstFault(a, ById(sources), c.evidence) == if HasLongQuotes(a, c) then None else Some(QuoteNotInSource)
  {
    forall e <- c.evidence
      ensures EvidenceFault(a, ById(sources), e)
           == if |Normalize(a, e.quote)| < MIN_QUOTE_CHARS then Some(QuoteNotInSource) else None
    {
      OnlyShortQuotesAreFaulted(a, sources, c.text, e);
    }
    FirstFaultIs(a, ById(sources), c.evidence, QuoteNotInSource);
    NoFaultMeans(a, ById(sources), c.evidence);
  }

  /** Over sources with distinct ids the gate accepts an extracted claim exactly when
      its quotes are long enough, and gives no other reason than a short quote. */
  lemma ExtractIsAcceptedExactlyWhen(a: Alphabet, sources: seq<SourceMemory>, c: Candidate)
    requires HaveDistinctIds(sources) && IsExtract(a, sources, c)
    ensures Validate(a, ById(sources), c) == if HasLongQuotes(a, c) then Ok(Accepted(a, c)) else Err(QuoteNotInSource)
  {
    FaultsAreShortQuotes(a, sources, c);
    ExtractIsSupported(a, sources, c);
  }

  // ------------------------------------------------------------ A short quote

  const SHORT := SourceMemory("memory", 1, "tbd")

  /** An extracted claim the gate refuses: the open question "tbd" of a memory that
      says nothing else has a quote of three characters. */
  lemma ShortExtractIsRefused()
    ensures Extracted(ASCII, [SHORT]) == [FirstClaim(ASCII, SHORT, "tbd", OpenQuestion)]
    ensures Validate(ASCII, ById([SHORT]), FirstClaim(ASCII, SHORT, "tbd", OpenQuestion)) == Err(QuoteNotInSource)
  {
    ShortSentences();
    ShortIsRelevant();
    ShortNormalForms();
    hide Sentences, Relevance, Normalize, Canonical, Extracted, Validate, FirstClaim;
    ShortSentenceIsRefused(ASCII, SHORT, "tbd", OpenQuestion);
  }

  /** The one claim of a memory of one relevant but short sentence is refused. */
  lemma ShortSentenceIsRefused(a: Alphabet, source: SourceMemory, sentence: string, kind: ClaimKind)
    requires Sentences(a, source.content) == [sentence] && Relevance(a, sentence) == Some(kind)
    requires |Normalize(a, sentence)| < MIN_QUOTE_CHARS
    ensures Extracted(a, [source]) == [FirstClaim(a, source, sentence, kind)]
    ensures Validate(a, ById([source]), FirstClaim(a, source, sentence, kind)) == Err(QuoteNotInSource)
  {
    ExtractOfOne(a, source, sentence, kind);
    ExtractedAreExtracts(a, [source]);
    hide Sentences, Relevance, Normalize, Canonical, Extracted, Validate, QualifiersOf, HasValidationCue, IsExtract, ById;
    var claim := FirstClaim(a, source, sentence, kind);
    assert claim in [claim];
    assert claim.evidence[0] == EvidenceOf(source, sentence);
    RefusedWhenShort(a, [source], claim, claim.evidence[0]);
  }

  lemma ExtractOfOne(a: Alphabet, source: SourceMemory, sentence: string, kind: ClaimKind)
    requires Sentences(a, source.content) == [sentence] && Relevance(a, sentence) == Some(kind)
    ensures Extracted(a, [source]) == [FirstClaim(a, source, sentence, kind)]
  {
    hide Canonical, Sentences, Relevance, QualifiersOf, HasValidationCue;
    assert [source][..0] == [] && [sentence][..0] == [];
    assert Extracted(a, []) == [];
    assert AbsorbAll(a, [], source, [sentence]) == Absorb(a, [], source, sentence);
  }

  lemma RefusedWhenShort(a: Alphabet, sources: seq<SourceMemory>, c: Candidate, e: EvidenceRef)
    requires HaveDistinctIds(sources) && IsExtract(a, sources, c)
    requires e in c.evidence && |Normalize(a, e.quote)| < MIN_QUOTE_CHARS
    ensures Validate(a, ById(sources), c) == Err(QuoteNotInSource)
  {
    hide Validate, IsExtract, Normalize;
    ExtractIsAcceptedExactlyWhen(a, sources, c);
  }

  lemma ShortNormalForms()
    ensures Normalize(ASCII, "tbd") == "tbd" && Canonical(ASCII, "tbd") == "tbd"
  {
    hide Words, Join, Lower, Kept;
    ShortIsLower();
    ShortIsKept();
    JoinOfFew("tbd");
    WordsOfWord(ASCII, "tbd");
  }

  lemma ShortIsLower()
    ensures Lower(ASCII, "tbd") == "tbd"
  {
  }

  lemma ShortIsKept()
    ensures Kept(ASCII, "tbd") == "tbd"
  {
    assert "tbd"[..2] == "tb" && "tb"[..1] == "t" && "t"[..0] == "";
    assert Kept(ASCII, "") == "";
    assert Kept(ASCII, "t") == "t";
    assert Kept(ASCII, "tb") == "tb";
  }

  lemma ShortSentences()
    ensures Sentences(ASCII, "tbd") == ["tbd"]
  {
    assert LineEnd("tbd", 3) == 3 && LineEnd("tbd", 2) == 3 && LineEnd("tbd", 1) == 3 && LineEnd("tbd", 0) == 3;
    assert Lines("tbd") == ["tbd"];
    assert SentenceEnd(ASCII, "tbd", 3) == 3 && SentenceEnd(ASCII, "tbd", 2) == 3 && SentenceEnd(ASCII, "tbd", 1) == 3;
    assert "tbd"[0..3] == "tbd" && TrimStart(ASCII, "tbd") == "tbd" && TrimEnd(ASCII, "tbd") == "tbd";
    assert Trimmed(ASCII, "tbd") == ["tbd"];
    assert LineSentences(ASCII, "tbd", 3) == [];
    assert LineSentences(ASCII, "tbd", 0) == ["tbd"];
    assert ["tbd"][..0] == [];
  }

  lemma ShortIsRelevant()
    ensures Relevance(ASCII, "tbd") == Some(OpenQuestion)
  {
    ShortNormalForms();
    hide Canonical, Normalize, QualifiersOf;
    assert Padded(ASCII, "tbd") == " tbd ";
    assert IsAt(" tbd ", "tbd", 1);
    assert OPEN_CUES[2] == "tbd";
    assert Finds(" tbd ", OPEN_CUES[2]);
  }

  // ------------------------------------------------------------- Never merged

  function LongQuoted(a: Alphabet): Candidate -> bool {
    c => HasLongQuotes(a, c)
  }

  function AsAccepted(a: Alphabet): Candidate -> Candidate {
    c => Accepted(a, c)
  }

  /** What a gate gathers that never merges: candidates below the cap that pass are
      accepted in order, and the others rejected for the one reason that applies. */
  function Filtered(
    pass: Candidate -> bool, accept: Candidate -> Candidate, candidates: seq<Candidate>, cap: nat, n: nat): Gathering
    requires n <= |candidates|
  {
    if n == 0 then Gathering([], [])
    else FilterOne(pass, accept, Filtered(pass, accept, candidates, cap, n - 1), cap, n - 1, candidates[n - 1])
  }

  function FilterOne(
    pass: Candidate -> bool, accept: Candidate -> Candidate, g: Gathering, cap: nat, index: nat, c: Candidate): Gathering
  {
    if index >= cap then g.(rejected := g.rejected + [Rejected(c.text, TooManyCandidates)])
    else if pass(c) then g.(accepted := g.accepted + [accept(c)])
    else g.(rejected := g.rejected + [Rejected(c.text, QuoteNotInSource)])
  }

  /** Every accepted claim has the text of an earlier candidate. */
  lemma {:induction false} FilteredComesFrom(
    pass: Candidate -> bool, accept: Candidate -> Candidate, candidates: seq<Candidate>, cap: nat, n: nat, k: nat)
    returns (i: nat)
    requires n <= |candidates| && k < |Filtered(pass, accept, candidates, cap, n).accepted|
    ensures i < n && Filtered(pass, accept, candidates, cap, n).accepted[k] == accept(candidates[i])
  {
    if k < |Filtered(pass, accept, candidates, cap, n - 1).accepted| {
      i := FilteredComesFrom(pass, accept, candidates, cap, n - 1, k);
    } else {
      i := n - 1;
    }
  }

  lemma {:induction false} FilteredKeeps(
    pass: Candidate -> bool, accept: Candidate -> Candidate, candidates: seq<Candidate>, cap: nat, n: nat, i: nat)
    requires i < n <= |candidates| && i < cap && pass(candidates[i])
    ensures accept(candidates[i]) in Filtered(pass, accept, candidates, cap, n).accepted
  {
    if i < n - 1 {
      FilteredKeeps(pass, accept, candidates, cap, n - 1, i);
    }
  }

  lemma MergeAppends(a: Alphabet, accepted: seq<Candidate>, c: Candidate)
    requires forall k :: 0 <= k < |accepted| ==> Canonical(a, accepted[k].text) != Canonical(a, c.text)
    ensures Merge(a, accepted, c) == accepted + [c]
  {
  }

  lemma NewKeyDiffers(
    a: Alphabet, pass: Candidate -> bool, accept: Candidate -> Candidate, candidates: seq<Candidate>, cap: nat,
    n: nat, k: nat)
    requires 0 < n <= |candidates| && HaveDistinctKeys(a, candidates)
    requires forall c :: accept(c).text == c.text
    requires k < |Filtered(pass, accept, candidates, cap, n - 1).accepted|
    ensures Canonical(a, Filtered(pass, accept, candidates, cap, n - 1).accepted[k].text)
         != Canonical(a, candidates[n - 1].text)
  {
    hide Canonical;
    var i := FilteredComesFrom(pass, accept, candidates, cap, n - 1, k);
  }

  /** The gate does with candidate `i`, given what a filter left it, what the filter does. */
  ghost predicate StepAgrees(
    a: Alphabet, byId: SourceTable, pass: Candidate -> bool, accept: Candidate -> Candidate,
    candidates: seq<Candidate>, limits: Limits, i: nat)
    requires i < |candidates|
  {
    var g := Filtered(pass, accept, candidates, limits.maxCandidates, i);
    GatherOne(a, byId, limits, g, i, candidates[i])
      == FilterOne(pass, accept, g, limits.maxCandidates, i, candidates[i])
  }

  /** Claims with distinct keys are never merged, whatever decides their acceptance. */
  lemma DistinctKeysAgree(
    a: Alphabet, byId: SourceTable, pass: Candidate -> bool, accept: Candidate -> Candidate,
    candidates: seq<Candidate>, limits: Limits, i: nat)
    requires i < |candidates| && HaveDistinctKeys(a, candidates)
    requires forall c :: accept(c).text == c.text
    requires Judges(a, byId, pass, accept, candidates[i])
    ensures StepAgrees(a, byId, pass, accept, candidates, limits, i)
  {
    NewKeyIsAppended(a, pass, accept, candidates, limits.maxCandidates, i + 1);
    OneJudged(
      a, byId, pass, accept, limits, Filtered(pass, accept, candidates, limits.maxCandidates, i), i, candidates[i]);
  }

  lemma {:induction false} AgreeingStepsFilter(
    a: Alphabet, byId: SourceTable, pass: Candidate -> bool, accept: Candidate -> Candidate,
    candidates: seq<Candidate>, limits: Limits, n: nat)
    requires n <= |candidates|
    requires forall i :: 0 <= i < |candidates| ==> StepAgrees(a, byId, pass, accept, candidates, limits, i)
    ensures Gathered(a, byId, candidates, limits, n) == Filtered(pass, accept, candidates, limits.maxCandidates, n)
  {
    hide GatherOne, FilterOne;
    if n > 0 {
      AgreeingStepsFilter(a, byId, pass, accept, candidates, limits, n - 1);
      assert StepAgrees(a, byId, pass, accept, candidates, limits, n - 1);
    }
  }

  lemma NewKeyIsAppended(
    a: Alphabet, pass: Candidate -> bool, accept: Candidate -> Candidate, candidates: seq<Candidate>, cap: nat, n: nat)
    requires 0 < n <= |candidates| && HaveDistinctKeys(a, candidates)
    requires forall c :: accept(c).text == c.text
    ensures var accepted := Filtered(pass, accept, candidates, cap, n - 1).accepted;
            Merge(a, accepted, accept(candidates[n - 1])) == accepted + [accept(candidates[n - 1])]
  {
    var accepted := Filtered(pass, accept, candidates, cap, n - 1).accepted;
    forall k | 0 <= k < |accepted|
      ensures Canonical(a, accepted[k].text) != Canonical(a, accept(candidates[n - 1]).text)
    {
      NewKeyDiffers(a, pass, accept, candidates, cap, n, k);
    }
    MergeAppends(a, accepted, accept(candidates[n - 1]));
  }

  /** `pass` and `accept` are what `validate` does to `c`. */
  ghost predicate Judges(
    a: Alphabet, byId: SourceTable, pass: Candidate -> bool, accept: Candidate -> Candidate, c: Candidate)
  {
    Validate(a, byId, c) == if pass(c) then Ok(accept(c)) else Err(QuoteNotInSource)
  }

  lemma OneJudged(
    a: Alphabet, byId: SourceTable, pass: Candidate -> bool, accept: Candidate -> Candidate, limits: Limits,
    g: Gathering, index: nat, c: Candidate)
    requires Judges(a, byId, pass, accept, c)
    requires Merge(a, g.accepted, accept(c)) == g.accepted + [accept(c)]
    ensures GatherOne(a, byId, limits, g, index, c) == FilterOne(pass, accept, g, limits.maxCandidates, index, c)
  {
  }

  lemma ExtractIsJudged(a: Alphabet, sources: seq<SourceMemory>, c: Candidate)
    requires HaveDistinctIds(sources) && IsExtract(a, sources, c)
    ensures Judges(a, ById(sources), LongQuoted(a), AsAccepted(a), c)
  {
    ExtractIsAcceptedExactlyWhen(a, sources, c);
  }

  lemma AcceptedKeepsText(a: Alphabet)
    ensures forall c :: AsAccepted(a)(c).text == c.text
  {
  }

  /** Running the gate on the extractive summarizer's output: the accepted claims are
      the extracted ones in order, none merged, without those past the cap and those
      with a quote below the minimum length. */
  lemma ExtractiveOutputPasses(a: Alphabet, sources: seq<SourceMemory>, limits: Limits)
    requires HaveDistinctIds(sources)
    ensures var candidates := Extracted(a, sources);
            Gathered(a, ById(sources), candidates, limits, |candidates|)
              == Filtered(LongQuoted(a), AsAccepted(a), candidates, limits.maxCandidates, |candidates|)
  {
    var candidates := Extracted(a, sources);
    ExtractedAreExtracts(a, sources);
    AcceptedKeepsText(a);
    forall i | 0 <= i < |candidates|
      ensures StepAgrees(a, ById(sources), LongQuoted(a), AsAccepted(a), candidates, limits, i)
    {
      ExtractIsJudged(a, sources, candidates[i]);
      DistinctKeysAgree(a, ById(sources), LongQuoted(a), AsAccepted(a), candidates, limits, i);
    }
    AgreeingStepsFilter(a, ById(sources), LongQuoted(a), AsAccepted(a), candidates, limits, |candidates|);
  }

  /** An extracted claim within the cap whose quotes are long enough is missing from a
      published summary only when the budget dropped it. */
  lemma LongExtractsArePublished(
    a: Alphabet, sources: seq<SourceMemory>, limits: Limits, form: SummaryMethod, r: GateResult, i: nat)
    requires HaveDistinctIds(sources) && i < |Extracted(a, sources)| && i < limits.maxCandidates
    requires LongQuoted(a)(Extracted(a, sources)[i])
    requires IsGateResult(a, sources, Extracted(a, sources), limits, form, r) && r.Summary?
    ensures AsAccepted(a)(Extracted(a, sources)[i]) in r.claims
         || Rejected(Extracted(a, sources)[i].text, DroppedForBudget) in r.rejected
  {
    var candidates := Extracted(a, sources);
    var c := AsAccepted(a)(candidates[i]);
    var dropped, texts := HowPublished(a, sources, candidates, limits, form, r);
    ExtractiveOutputPasses(a, sources, limits);
    FilteredKeeps(LongQuoted(a), AsAccepted(a), candidates, limits.maxCandidates, |candidates|, i);
    AcceptedKeepsText(a);
    var g := Gathered(a, ById(sources), candidates, limits, |candidates|);
    KeptOrNamed(Header(form, |sources|), limits.maxOutputTokens, g.accepted, dropped, texts, g.rejected, c);
  }

  lemma KeptOrNamed(
    header: string, maxTokens: nat, accepted: seq<Candidate>, dropped: seq<nat>, texts: seq<string>,
    rejected: seq<Rejected>, c: Candidate)
    requires c in accepted
    requires Budget.IsFirstFit(header, maxTokens, accepted, dropped)
    requires |texts| == |dropped| && forall m :: 0 <= m < |dropped| ==> texts[m] == accepted[dropped[m]].text
    ensures c in Budget.Kept(accepted, dropped)
         || Rejected(c.text, DroppedForBudget) in rejected + OverBudgetTexts(texts)
  {
    var k :| 0 <= k < |accepted| && accepted[k] == c;
    if k in dropped {
      var m :| 0 <= m < |dropped| && dropped[m] == k;
      assert (rejected + OverBudgetTexts(texts))[|rejected| + m] == Rejected(c.text, DroppedForBudget);
    } else {
      Budget.DroppedAreUnprotected(header, maxTokens, accepted, dropped, k);
    }
  }
}
