/** The quality gate of `crates/surreal-memory/src/compression/gate.rs`: validate
    each candidate, merge equivalent ones, and fit the rendering to the budget. */
module Gate {
  import opened Basics
  import opened Contract
  import opened Text
  import opened Summarizer
  import Budget

  /** The share of a claim's words that quotes must have, in tenths. */
  const MIN_SUPPORT_TENTHS := 8
  const MIN_QUOTE_CHARS: nat := 8
  const MIN_WORD_LEN: nat := 4

  datatype Limits = Limits(maxInputTokens: nat, maxOutputTokens: nat, minReduction: real, maxCandidates: nat)

  datatype RejectReason =
    | NoEvidence
    | UnknownSource
    | StaleSourceVersion
    | QuoteNotInSource
    | Unsupported
    | NegationChanged
    | TooManyCandidates
    | DroppedForBudget

  datatype Rejected = Rejected(text: string, reason: RejectReason)

  datatype SummaryMethod = Extractive | Semantic

  datatype GateResult =
    | Summary(claims: seq<Candidate>, rejected: seq<Rejected>, rendered: string, tokensBefore: nat, tokensAfter: nat)
    | InputTooLarge(tokens: nat)
    | NoClaims
    | OverBudget(tokens: nat)
    | InsufficientReduction(before: nat, after: nat)

  type SourceTable = map<string, SourceMemory>

  // -------------------------------------------------------------- Support

  function CountIn(words: seq<string>, quoted: seq<string>): nat {
    if words == [] then 0
    else CountIn(words[..|words| - 1], quoted) + if words[|words| - 1] in quoted then 1 else 0
  }

  predicate IsNumber(w: string) {
    forall c <- w :: '0' <= c <= '9'
  }

  /** count / total >= 0.8, multiplied out. In 64-bit arithmetic a ratio of counts
      compares with 0.8 as it does here. */
  predicate AreEnough(count: nat, total: nat) {
    10 * count >= MIN_SUPPORT_TENTHS * total
  }

  /** `is_supported` */
  predicate IsSupported(a: Alphabet, claim: string, quotes: string) {
    var quoted := ContentWords(a, quotes, 1);
    var numbersOk := forall w <- Words(a, Canonical(a, claim)) :: IsNumber(w) ==> w in quoted;
    var words := ContentWords(a, claim, MIN_WORD_LEN);
    if words == [] then numbersOk
    else numbersOk && AreEnough(CountIn(words, quoted), |words|)
  }

  lemma QuotedAreAllWords(a: Alphabet, quotes: string)
    ensures forall w :: w in ContentWords(a, quotes, 1) <==> w in CanonicalWords(a, quotes)
  {
    CanonicalIsItsWords(a, quotes);
    LongWordsAre(CanonicalWords(a, quotes), 1);
    forall w <- CanonicalWords(a, quotes) ensures |w| >= 1 {
      assert IsWord(a, w);
    }
  }

  lemma {:induction false} CountInGrows(words: seq<string>, fewer: seq<string>, more: seq<string>)
    requires forall w :: w in fewer ==> w in more
    ensures CountIn(words, fewer) <= CountIn(words, more) <= |words|
  {
    if words != [] {
      CountInGrows(words[..|words| - 1], fewer, more);
    }
  }

  lemma {:induction false} CountInAll(words: seq<string>, quoted: seq<string>)
    requires forall w <- words :: w in quoted
    ensures CountIn(words, quoted) == |words|
  {
    if words != [] {
      CountInAll(words[..|words| - 1], quoted);
    }
  }

  /** Quoting more keeps a claim supported. */
  lemma SupportGrows(a: Alphabet, claim: string, fewer: string, more: string)
    requires IsSupported(a, claim, fewer)
    requires forall w :: w in CanonicalWords(a, fewer) ==> w in CanonicalWords(a, more)
    ensures IsSupported(a, claim, more)
  {
    QuotedAreAllWords(a, fewer);
    QuotedAreAllWords(a, more);
    var words := ContentWords(a, claim, MIN_WORD_LEN);
    var before, after := ContentWords(a, fewer, 1), ContentWords(a, more, 1);
    CountInGrows(words, before, after);
  }

  /** A text that quotes every word of a claim supports it. */
  lemma AllWordsSupport(a: Alphabet, claim: string, quotes: string)
    requires forall w <- CanonicalWords(a, claim) :: w in CanonicalWords(a, quotes)
    ensures IsSupported(a, claim, quotes)
  {
    QuotedAreAllWords(a, quotes);
    CanonicalIsItsWords(a, claim);
    LongWordsAre(CanonicalWords(a, claim), MIN_WORD_LEN);
    EveryWordCounts(ContentWords(a, claim, MIN_WORD_LEN), ContentWords(a, quotes, 1));
  }

  lemma EveryWordCounts(words: seq<string>, quoted: seq<string>)
    requires forall w <- words :: w in quoted
    ensures AreEnough(CountIn(words, quoted), |words|)
  {
    CountInAll(words, quoted);
  }

  // ------------------------------------------------------------- Validation

  function ById(sources: seq<SourceMemory>): SourceTable {
    if sources == [] then map[]
    else ById(sources[..|sources| - 1])[sources[|sources| - 1].id := sources[|sources| - 1]]
  }

  /** Why one piece of evidence is not accepted, if it is not. */
  function EvidenceFault(a: Alphabet, byId: SourceTable, e: EvidenceRef): Option<RejectReason> {
    if e.sourceId !in byId then Some(UnknownSource)
    else if byId[e.sourceId].version != e.sourceVersion then Some(StaleSourceVersion)
    else
      var quote := Normalize(a, e.quote);
      if |quote| < MIN_QUOTE_CHARS || !Finds(Normalize(a, byId[e.sourceId].content), quote) then Some(QuoteNotInSource)
      else None
  }

  function FirstFault(a: Alphabet, byId: SourceTable, evidence: seq<EvidenceRef>): Option<RejectReason> {
    if evidence == [] then None
    else
      var earlier := FirstFault(a, byId, evidence[..|evidence| - 1]);
      if earlier.Some? then earlier else EvidenceFault(a, byId, evidence[|evidence| - 1])
  }

  function Quotes(evidence: seq<EvidenceRef>): seq<string> {
    seq(|evidence|, i requires 0 <= i < |evidence| => evidence[i].quote)
  }

  function JoinedQuotes(evidence: seq<EvidenceRef>): string {
    Join(Quotes(evidence))
  }

  function EitherWay(p: Qualifiers, q: Qualifiers): Qualifiers {
    Qualifiers(p.negated || q.negated, p.uncertain || q.uncertain, p.failedApproach || q.failedApproach,
               p.quotedInstruction || q.quotedInstruction, p.oneOff || q.oneOff)
  }

  /** The candidate as it is accepted: no hedge hidden, no validation claimed that
      the quotes do not make. */
  function Accepted(a: Alphabet, c: Candidate): Candidate {
    var quotes := JoinedQuotes(c.evidence);
    c.(qualifiers := EitherWay(c.qualifiers, EitherWay(QualifiersOf(a, c.text), QualifiersOf(a, quotes))),
       validated := c.validated && HasValidationCue(a, quotes))
  }

  function Validate(a: Alphabet, byId: SourceTable, c: Candidate): Result<Candidate, RejectReason> {
    var fault := FirstFault(a, byId, c.evidence);
    var quotes := JoinedQuotes(c.evidence);
    if c.evidence == [] then Err(NoEvidence)
    else if fault.Some? then Err(fault.value)
    else if !IsSupported(a, c.text, quotes) then Err(Unsupported)
    else if QualifiersOf(a, c.text).negated != QualifiersOf(a, quotes).negated then Err(NegationChanged)
    else Ok(Accepted(a, c))
  }

  /** `validate` */
  method ValidateCandidate(a: Alphabet, byId: SourceTable, candidate: Candidate)
    returns (r: Result<Candidate, RejectReason>)
    ensures r == Validate(a, byId, candidate)
  {
    hide Normalize, IsSupported, QualifiersOf, HasValidationCue, JoinedQuotes;
    if candidate.evidence == [] {
      return Err(NoEvidence);
    }
    var evidence := candidate.evidence;
    for i := 0 to |evidence|
      invariant FirstFault(a, byId, evidence[..i]).None?
    {
      assert evidence[..i + 1][..i] == evidence[..i];
      if evidence[i].sourceId !in byId {
        FaultStays(a, byId, evidence, i);
        return Err(UnknownSource);
      }
      var source := byId[evidence[i].sourceId];
      if source.version != evidence[i].sourceVersion {
        FaultStays(a, byId, evidence, i);
        return Err(StaleSourceVersion);
      }
      var quote := Normalize(a, evidence[i].quote);
      if |quote| < MIN_QUOTE_CHARS || !Finds(Normalize(a, source.content), quote) {
        FaultStays(a, byId, evidence, i);
        return Err(QuoteNotInSource);
      }
    }
    assert evidence[..|evidence|] == evidence;
    var quotes := JoinedQuotes(evidence);
    if !IsSupported(a, candidate.text, quotes) {
      return Err(Unsupported);
    }
    var claimWording := QualifiersOf(a, candidate.text);
    var quoteWording := QualifiersOf(a, quotes);
    if claimWording.negated != quoteWording.negated {
      return Err(NegationChanged);
    }
    var valid := candidate;
    valid := valid.(qualifiers := EitherWay(valid.qualifiers, EitherWay(claimWording, quoteWording)));
    valid := valid.(validated := valid.validated && HasValidationCue(a, quotes));
    r := Ok(valid);
  }

  lemma {:induction false} FaultStays(a: Alphabet, byId: SourceTable, evidence: seq<EvidenceRef>, i: nat)
    requires i < |evidence|
    requires FirstFault(a, byId, evidence[..i]).None? && EvidenceFault(a, byId, evidence[i]).Some?
    ensures FirstFault(a, byId, evidence) == EvidenceFault(a, byId, evidence[i])
    decreases |evidence|
  {
    hide EvidenceFault;
    var n := |evidence| - 1;
    if i < n {
      assert evidence[..n][..i] == evidence[..i];
      FaultStays(a, byId, evidence[..n], i);
    }
  }

  lemma {:induction false} NoFaultMeans(a: Alphabet, byId: SourceTable, evidence: seq<EvidenceRef>)
    ensures FirstFault(a, byId, evidence).None? <==> forall e <- evidence :: EvidenceFault(a, byId, e).None?
  {
    hide EvidenceFault;
    if evidence != [] {
      var n := |evidence| - 1;
      var last := evidence[n];
      NoFaultMeans(a, byId, evidence[..n]);
      assert last in evidence && forall e <- evidence[..n] :: e in evidence;
      assert forall e <- evidence :: e in evidence[..n] || e == last;
    }
  }

  // ---------------------------------------------------------------- Merging

  predicate Equivalent(a: Alphabet, c: Candidate, d: Candidate) {
    Canonical(a, c.text) == Canonical(a, d.text) && c.kind == d.kind
  }

  /** The first accepted claim equivalent to `c`; |accepted| when there is none. */
  function EquivalentTo(a: Alphabet, accepted: seq<Candidate>, c: Candidate): (i: nat)
    ensures i <= |accepted|
    ensures i < |accepted| ==> Equivalent(a, accepted[i], c)
    ensures forall j :: 0 <= j < i ==> !Equivalent(a, accepted[j], c)
  {
    EquivalentFrom(a, accepted, c, 0)
  }

  function EquivalentFrom(a: Alphabet, accepted: seq<Candidate>, c: Candidate, from: nat): (i: nat)
    requires from <= |accepted|
    ensures from <= i <= |accepted|
    ensures i < |accepted| ==> Equivalent(a, accepted[i], c)
    ensures forall j :: from <= j < i ==> !Equivalent(a, accepted[j], c)
    decreases |accepted| - from
  {
    hide Equivalent;
    if from == |accepted| || Equivalent(a, accepted[from], c) then from
    else EquivalentFrom(a, accepted, c, from + 1)
  }

  function WithEvidence(evidence: seq<EvidenceRef>, more: seq<EvidenceRef>): seq<EvidenceRef> {
    if more == [] then evidence
    else
      var before := WithEvidence(evidence, more[..|more| - 1]);
      if QuotesSource(before, more[|more| - 1].sourceId) then before else before + [more[|more| - 1]]
  }

  function Merged(existing: Candidate, incoming: Candidate): Candidate {
    existing.(evidence := WithEvidence(existing.evidence, incoming.evidence),
              validated := existing.validated || incoming.validated)
  }

  function Merge(a: Alphabet, accepted: seq<Candidate>, incoming: Candidate): seq<Candidate> {
    var i := EquivalentTo(a, accepted, incoming);
    if i < |accepted| then accepted[i := Merged(accepted[i], incoming)] else accepted + [incoming]
  }

  /** `merge_equivalent` */
  method MergeEquivalent(a: Alphabet, accepted: seq<Candidate>, incoming: Candidate) returns (merged: seq<Candidate>)
    ensures merged == Merge(a, accepted, incoming)
  {
    var key := Canonical(a, incoming.text);
    var i := 0;
    while i < |accepted| && !(Canonical(a, accepted[i].text) == key && accepted[i].kind == incoming.kind)
      invariant i <= |accepted|
      invariant forall j :: 0 <= j < i ==> !Equivalent(a, accepted[j], incoming)
    {
      i := i + 1;
    }
    if i == |accepted| {
      return accepted + [incoming];
    }
    var existing := accepted[i];
    var evidence := incoming.evidence;
    for k := 0 to |evidence|
      invariant existing == accepted[i].(evidence := WithEvidence(accepted[i].evidence, evidence[..k]))
    {
      assert evidence[..k + 1][..k] == evidence[..k];
      if !(exists e <- existing.evidence :: e.sourceId == evidence[k].sourceId) {
        existing := existing.(evidence := existing.evidence + [evidence[k]]);
      }
    }
    assert evidence[..|evidence|] == evidence;
    existing := existing.(validated := existing.validated || incoming.validated);
    merged := accepted[i := existing];
  }

  // -------------------------------------------------------------------- Run

  datatype Gathering = Gathering(accepted: seq<Candidate>, rejected: seq<Rejected>)

  /** One candidate, the `index`-th. */
  function GatherOne(a: Alphabet, byId: SourceTable, limits: Limits, g: Gathering, index: nat, c: Candidate): Gathering {
    if index >= limits.maxCandidates then g.(rejected := g.rejected + [Rejected(c.text, TooManyCandidates)])
    else
      match Validate(a, byId, c)
      case Ok(valid) => g.(accepted := Merge(a, g.accepted, valid))
      case Err(reason) => g.(rejected := g.rejected + [Rejected(c.text, reason)])
  }

  /** Accepted and rejected after the first `n` candidates. */
  function Gathered(a: Alphabet, byId: SourceTable, candidates: seq<Candidate>, limits: Limits, n: nat): Gathering
    requires n <= |candidates|
  {
    if n == 0 then Gathering([], [])
    else GatherOne(a, byId, limits, Gathered(a, byId, candidates, limits, n - 1), n - 1, candidates[n - 1])
  }

  function TotalTokens(sources: seq<SourceMemory>): nat {
    if sources == [] then 0
    else TotalTokens(sources[..|sources| - 1]) + EstimateTokens(sources[|sources| - 1].content)
  }

  function Decimal(n: nat): string {
    (if n < 10 then "" else Decimal(n / 10)) + ["0123456789"[n % 10]]
  }

  function Header(form: SummaryMethod, count: nat): string {
    "[" + (if form.Extractive? then "extractive" else "semantic") + " summary of " + Decimal(count) + " memories]"
  }

  /** The largest output allowed, floor(before * (1 - min_reduction)) and at least 0. */
  function Allowed(limits: Limits, before: nat): nat {
    var allowed := (before as real * (1.0 - limits.minReduction)).Floor;
    if allowed < 0 then 0 else allowed
  }

  /** What `run` may return, in terms of what was gathered and of the one way the
      budget lets claims be dropped. */
  ghost predicate IsGateResult(
    a: Alphabet, sources: seq<SourceMemory>, candidates: seq<Candidate>, limits: Limits, form: SummaryMethod,
    r: GateResult)
  {
    var before := TotalTokens(sources);
    var g := Gathered(a, ById(sources), candidates, limits, |candidates|);
    var header := Header(form, |sources|);
    if before > limits.maxInputTokens then r == InputTooLarge(before)
    else if !Budget.Fits(header, limits.maxOutputTokens, Budget.Protected(g.accepted)) then
      r == OverBudget(EstimateTokens(Budget.Rendered(header, Budget.Protected(g.accepted))))
    else
      exists dropped, texts ::
        && Budget.WithinBy(header, limits.maxOutputTokens, g.accepted, dropped,
                           Budget.Kept(g.accepted, dropped), texts,
                           Budget.Rendered(header, Budget.Kept(g.accepted, dropped)))
        && r == Published(limits, header, before, g, Budget.Kept(g.accepted, dropped), texts)
  }

  function Published(
    limits: Limits, header: string, before: nat, g: Gathering, kept: seq<Candidate>, dropped: seq<string>): GateResult
  {
    var rendered := Budget.Rendered(header, kept);
    var after := EstimateTokens(rendered);
    if kept == [] then NoClaims
    else if after > Allowed(limits, before) then InsufficientReduction(before, after)
    else Summary(kept, g.rejected + OverBudgetTexts(dropped), rendered, before, after)
  }

  function OverBudgetTexts(texts: seq<string>): seq<Rejected> {
    seq(|texts|, i requires 0 <= i < |texts| => Rejected(texts[i], DroppedForBudget))
  }

  /** `run` */
  method Run(
    a: Alphabet, sources: seq<SourceMemory>, candidates: seq<Candidate>, limits: Limits, form: SummaryMethod)
    returns (r: GateResult)
    ensures IsGateResult(a, sources, candidates, limits, form, r)
  {
    var before := CountTokens(sources);
    if before > limits.maxInputTokens {
      return InputTooLarge(before);
    }
    var byId := ById(sources);
    var g := Gather(a, byId, candidates, limits);
    var header := Header(form, |sources|);
    var outcome := Budget.DropToFit(header, limits.maxOutputTokens, g.accepted);
    if outcome.OverBudget? {
      return OverBudget(outcome.tokens);
    }
    var claims := outcome.claims;
    ghost var dropped :| Budget.WithinBy(header, limits.maxOutputTokens, g.accepted, dropped, claims, outcome.dropped,
                                         outcome.rendered);
    if claims == [] {
      r := NoClaims;
    } else {
      var after := EstimateTokens(outcome.rendered);
      if after > Allowed(limits, before) {
        r := InsufficientReduction(before, after);
      } else {
        r := Summary(claims, g.rejected + OverBudgetTexts(outcome.dropped), outcome.rendered, before, after);
      }
    }
    assert r == Published(limits, header, before, g, Budget.Kept(g.accepted, dropped), outcome.dropped);
  }

  method CountTokens(sources: seq<SourceMemory>) returns (tokens: nat)
    ensures tokens == TotalTokens(sources)
  {
    tokens := 0;
    for i := 0 to |sources|
      invariant tokens == TotalTokens(sources[..i])
    {
      assert sources[..i + 1][..i] == sources[..i];
      tokens := tokens + EstimateTokens(sources[i].content);
    }
    assert sources[..|sources|] == sources;
  }

  /** The loop over candidates. */
  method Gather(a: Alphabet, byId: SourceTable, candidates: seq<Candidate>, limits: Limits) returns (g: Gathering)
    ensures g == Gathered(a, byId, candidates, limits, |candidates|)
  {
    var accepted: seq<Candidate> := [];
    var rejected: seq<Rejected> := [];
    for index := 0 to |candidates|
      invariant Gathering(accepted, rejected) == Gathered(a, byId, candidates, limits, index)
    {
      var candidate := candidates[index];
      if index >= limits.maxCandidates {
        rejected := rejected + [Rejected(candidate.text, TooManyCandidates)];
      } else {
        var result := ValidateCandidate(a, byId, candidate);
        if result.Ok? {
          accepted := MergeEquivalent(a, accepted, result.value);
        } else {
          rejected := rejected + [Rejected(candidate.text, result.error)];
        }
      }
    }
    g := Gathering(accepted, rejected);
  }

  // ------------------------------------------------- What is published is quoted

  predicate HasItsNegation(a: Alphabet, c: Candidate) {
    QualifiersOf(a, c.text).negated <==> QualifiersOf(a, JoinedQuotes(c.evidence)).negated
  }

  /** The claim quotes real sources at the version read, says no more than the
      quotes do, and is negated exactly when they are. */
  ghost predicate ClaimOk(a: Alphabet, byId: SourceTable, c: Candidate) {
    && c.evidence != []
    && (forall e <- c.evidence :: EvidenceFault(a, byId, e).None?)
    && IsSupported(a, c.text, JoinedQuotes(c.evidence))
    && HasItsNegation(a, c)
  }

  /** Some quote has the word `w`. */
  ghost predicate Says(a: Alphabet, evidence: seq<EvidenceRef>, w: string) {
    exists e <- evidence :: w in CanonicalWords(a, e.quote)
  }

  lemma NoCanonicalWords(a: Alphabet)
    ensures CanonicalWords(a, "") == []
  {
    NoLowerWordsInSpace(a, "");
  }

  lemma {:induction false} JoinedQuotesSay(a: Alphabet, evidence: seq<EvidenceRef>)
    ensures forall w :: w in CanonicalWords(a, JoinedQuotes(evidence)) <==> Says(a, evidence, w)
  {
    hide CanonicalWords;
    if evidence == [] {
      NoCanonicalWords(a);
    } else {
      var n := |evidence| - 1;
      var rest, last := evidence[..n], evidence[n];
      assert evidence == rest + [last] && Quotes(evidence)[..n] == Quotes(rest);
      if n > 0 {
        JoinedQuotesSay(a, rest);
        CanonicalWordsOfJoined(a, JoinedQuotes(rest), last.quote);
      }
      forall w ensures Says(a, evidence, w) <==> (n > 0 && Says(a, rest, w)) || w in CanonicalWords(a, last.quote) {
      }
    }
  }

  lemma NegatedWhenSaid(a: Alphabet, evidence: seq<EvidenceRef>)
    ensures QualifiersOf(a, JoinedQuotes(evidence)).negated <==>
              exists i :: 0 <= i < |NEGATIONS| && Says(a, evidence, NEGATIONS[i])
  {
    NegationIsAWord(a, JoinedQuotes(evidence));
    JoinedQuotesSay(a, evidence);
  }

  lemma ValidatedIsOk(a: Alphabet, byId: SourceTable, c: Candidate)
    ensures Validate(a, byId, c).Ok? <==> ClaimOk(a, byId, c)
    ensures Validate(a, byId, c).Ok? ==> ClaimOk(a, byId, Validate(a, byId, c).value)
  {
    NoFaultMeans(a, byId, c.evidence);
  }

  lemma {:induction false} WithEvidenceIs(evidence: seq<EvidenceRef>, more: seq<EvidenceRef>)
    ensures evidence <= WithEvidence(evidence, more)
    ensures forall e <- WithEvidence(evidence, more) :: e in evidence || e in more
    ensures forall e <- more :: QuotesSource(WithEvidence(evidence, more), e.sourceId)
  {
    if more != [] {
      var n := |more| - 1;
      WithEvidenceIs(evidence, more[..n]);
      assert more == more[..n] + [more[n]];
      var before, after := WithEvidence(evidence, more[..n]), WithEvidence(evidence, more);
      assert before <= after && (more[n] in after || QuotesSource(before, more[n].sourceId));
      forall e <- more ensures QuotesSource(after, e.sourceId) {
        if e != more[n] {
          assert QuotesSource(before, e.sourceId);
        }
      }
    }
  }

  /** An acceptable claim stays acceptable when one of the same words is merged into it
      whose evidence is real and has its negation. */
  lemma MergedIsOk(a: Alphabet, byId: SourceTable, existing: Candidate, incoming: Candidate)
    requires ClaimOk(a, byId, existing) && Equivalent(a, existing, incoming)
    requires forall e <- incoming.evidence :: EvidenceFault(a, byId, e).None?
    requires HasItsNegation(a, incoming)
    ensures ClaimOk(a, byId, Merged(existing, incoming))
  {
    var first, added, all := existing.evidence, incoming.evidence, WithEvidence(existing.evidence, incoming.evidence);
    WithEvidenceIs(first, added);
    JoinedQuotesSay(a, first);
    JoinedQuotesSay(a, all);
    forall w | Says(a, first, w) ensures Says(a, all, w) {
      var e :| e in first && w in CanonicalWords(a, e.quote);
      assert e in all;
    }
    SupportGrows(a, existing.text, JoinedQuotes(first), JoinedQuotes(all));
    MergedKeepsNegation(a, existing, incoming);
  }

  lemma MergedKeepsNegation(a: Alphabet, existing: Candidate, incoming: Candidate)
    requires Equivalent(a, existing, incoming)
    requires HasItsNegation(a, existing) && HasItsNegation(a, incoming)
    ensures HasItsNegation(a, Merged(existing, incoming))
  {
    var first, added, all := existing.evidence, incoming.evidence, WithEvidence(existing.evidence, incoming.evidence);
    WithEvidenceIs(first, added);
    NegatedWhenSaid(a, first);
    NegatedWhenSaid(a, added);
    NegatedWhenSaid(a, all);
    SameNegation(a, existing.text, incoming.text);
    forall w ensures Says(a, all, w) ==> Says(a, first, w) || Says(a, added, w) {
    }
    forall w | Says(a, first, w) ensures Says(a, all, w) {
      var e :| e in first && w in CanonicalWords(a, e.quote);
      assert e in all;
    }
  }

  lemma SameNegation(a: Alphabet, x: string, y: string)
    requires Canonical(a, x) == Canonical(a, y)
    ensures QualifiersOf(a, x).negated == QualifiersOf(a, y).negated
    ensures CanonicalWords(a, x) == CanonicalWords(a, y)
  {
    CanonicalIsItsWords(a, x);
    CanonicalIsItsWords(a, y);
  }

  lemma MergeKeepsOk(a: Alphabet, byId: SourceTable, accepted: seq<Candidate>, incoming: Candidate)
    requires forall c <- accepted :: ClaimOk(a, byId, c)
    requires ClaimOk(a, byId, incoming)
    ensures forall c <- Merge(a, accepted, incoming) :: ClaimOk(a, byId, c)
  {
    var i := EquivalentTo(a, accepted, incoming);
    if i < |accepted| {
      MergedIsOk(a, byId, accepted[i], incoming);
    }
  }

  lemma {:induction false} GatheredAreOk(
    a: Alphabet, byId: SourceTable, candidates: seq<Candidate>, limits: Limits, n: nat)
    requires n <= |candidates|
    ensures forall c <- Gathered(a, byId, candidates, limits, n).accepted :: ClaimOk(a, byId, c)
  {
    hide ClaimOk, Validate;
    if n > 0 {
      GatheredAreOk(a, byId, candidates, limits, n - 1);
      var validated := Validate(a, byId, candidates[n - 1]);
      ValidatedIsOk(a, byId, candidates[n - 1]);
      if validated.Ok? {
        MergeKeepsOk(a, byId, Gathered(a, byId, candidates, limits, n - 1).accepted, validated.value);
      }
    }
  }

  /** Whatever was merged on the way, every published claim is backed by its evidence. */
  lemma PublishedClaimsAreOk(
    a: Alphabet, sources: seq<SourceMemory>, candidates: seq<Candidate>, limits: Limits, form: SummaryMethod,
    r: GateResult)
    requires IsGateResult(a, sources, candidates, limits, form, r) && r.Summary?
    ensures forall c <- r.claims :: ClaimOk(a, ById(sources), c)
    ensures r.tokensAfter <= limits.maxOutputTokens && r.tokensAfter <= Allowed(limits, r.tokensBefore)
  {
    var dropped, texts := HowPublished(a, sources, candidates, limits, form, r);
    var g := Gathered(a, ById(sources), candidates, limits, |candidates|);
    GatheredAreOk(a, ById(sources), candidates, limits, |candidates|);
    KeptAreAccepted(g.accepted, dropped);
  }

  lemma KeptAreAccepted(claims: seq<Candidate>, dropped: seq<nat>)
    ensures forall c <- Budget.Kept(claims, dropped) :: c in claims
  {
    Budget.KeptBelowIs(|claims|, dropped);
  }

  lemma HowPublished(
    a: Alphabet, sources: seq<SourceMemory>, candidates: seq<Candidate>, limits: Limits, form: SummaryMethod,
    r: GateResult)
    returns (dropped: seq<nat>, texts: seq<string>)
    requires IsGateResult(a, sources, candidates, limits, form, r) && r.Summary?
    ensures var g := Gathered(a, ById(sources), candidates, limits, |candidates|);
            && Budget.IsFirstFit(Header(form, |sources|), limits.maxOutputTokens, g.accepted, dropped)
            && r.claims == Budget.Kept(g.accepted, dropped)
            && |texts| == |dropped|
            && (forall m :: 0 <= m < |dropped| ==> texts[m] == g.accepted[dropped[m]].text)
            && r.rejected == g.rejected + OverBudgetTexts(texts)
            && r.tokensBefore == TotalTokens(sources)
    ensures r.tokensAfter <= limits.maxOutputTokens && r.tokensAfter <= Allowed(limits, r.tokensBefore)
  {
    hide Gathered, ById, TotalTokens, Header, Budget.Kept, Budget.Rendered, Budget.Protected, EstimateTokens;
    var g := Gathered(a, ById(sources), candidates, limits, |candidates|);
    var header := Header(form, |sources|);
    dropped, texts :|
      && Budget.WithinBy(header, limits.maxOutputTokens, g.accepted, dropped,
                         Budget.Kept(g.accepted, dropped), texts,
                         Budget.Rendered(header, Budget.Kept(g.accepted, dropped)))
      && r == Published(limits, header, TotalTokens(sources), g, Budget.Kept(g.accepted, dropped), texts);
  }

  // ------------------------------------------------- Nothing vanishes silently

  /** `c` survives in a claim of the same words and kind that quotes all its sources, and
      counts as validated if `c` rightly does. */
  ghost predicate Survives(a: Alphabet, claims: seq<Candidate>, c: Candidate) {
    exists claim <- claims :: Covers(a, claim, c)
  }

  ghost predicate Covers(a: Alphabet, claim: Candidate, c: Candidate) {
    && Canonical(a, claim.text) == Canonical(a, c.text) && claim.kind == c.kind
    && (c.validated && HasValidationCue(a, JoinedQuotes(c.evidence)) ==> claim.validated)
    && forall e <- c.evidence :: QuotesSource(claim.evidence, e.sourceId)
  }

  /** What is wrong with the `index`-th candidate itself, if anything is. */
  function OwnFault(a: Alphabet, byId: SourceTable, limits: Limits, index: nat, c: Candidate): Option<RejectReason> {
    if index >= limits.maxCandidates then Some(TooManyCandidates)
    else
      match Validate(a, byId, c)
      case Ok(_) => None
      case Err(reason) => Some(reason)
  }

  /** A candidate at fault is rejected under its own text for that reason; any other
      survives. */
  ghost predicate IsAccountedFor(a: Alphabet, fault: Option<RejectReason>, g: Gathering, c: Candidate) {
    match fault
    case Some(reason) => Rejected(c.text, reason) in g.rejected
    case None => Survives(a, g.accepted, c)
  }

  lemma {:induction false} GatheredAccountsForAll(
    a: Alphabet, byId: SourceTable, candidates: seq<Candidate>, limits: Limits, n: nat, i: nat)
    requires i < n <= |candidates|
    ensures IsAccountedFor(a, OwnFault(a, byId, limits, i, candidates[i]),
                           Gathered(a, byId, candidates, limits, n), candidates[i])
  {
    hide IsAccountedFor, GatherOne, OwnFault;
    var before := Gathered(a, byId, candidates, limits, n - 1);
    if i < n - 1 {
      GatheredAccountsForAll(a, byId, candidates, limits, n - 1, i);
      GatherOneKeeps(a, byId, limits, before, n - 1, candidates[n - 1],
                     OwnFault(a, byId, limits, i, candidates[i]), candidates[i]);
    } else {
      GatherOneAccounts(a, byId, limits, before, i, candidates[i]);
    }
  }

  lemma GatherOneKeeps(
    a: Alphabet, byId: SourceTable, limits: Limits, g: Gathering, index: nat, next: Candidate,
    fault: Option<RejectReason>, c: Candidate)
    requires IsAccountedFor(a, fault, g, c)
    ensures IsAccountedFor(a, fault, GatherOne(a, byId, limits, g, index, next), c)
  {
    hide Validate, Survives, Merge;
    var valid := Validate(a, byId, next);
    if valid.Ok? && fault.None? {
      MergeKeepsSurvivors(a, g.accepted, valid.value, c);
    }
  }

  lemma GatherOneAccounts(a: Alphabet, byId: SourceTable, limits: Limits, g: Gathering, index: nat, c: Candidate)
    ensures IsAccountedFor(a, OwnFault(a, byId, limits, index, c), GatherOne(a, byId, limits, g, index, c), c)
  {
    var after := GatherOne(a, byId, limits, g, index, c);
    var valid := Validate(a, byId, c);
    if index < limits.maxCandidates && valid.Ok? {
      MergeCovers(a, g.accepted, valid.value);
      assert valid.value.text == c.text && valid.value.kind == c.kind && valid.value.evidence == c.evidence;
      assert valid.value.validated <==> c.validated && HasValidationCue(a, JoinedQuotes(c.evidence));
      hide Validate, Merge, Canonical;
      var claim :| claim in after.accepted && Covers(a, claim, valid.value);
      assert Covers(a, claim, c);
    } else {
      assert after.rejected[|g.rejected|] in after.rejected;
    }
  }

  lemma MergeCovers(a: Alphabet, accepted: seq<Candidate>, incoming: Candidate)
    ensures Survives(a, Merge(a, accepted, incoming), incoming)
  {
    var i := EquivalentTo(a, accepted, incoming);
    var merged := Merge(a, accepted, incoming);
    if i < |accepted| {
      WithEvidenceIs(accepted[i].evidence, incoming.evidence);
    }
    assert Covers(a, merged[i], incoming) && merged[i] in merged;
  }

  lemma MergeKeepsSurvivors(a: Alphabet, accepted: seq<Candidate>, incoming: Candidate, c: Candidate)
    requires Survives(a, accepted, c)
    ensures Survives(a, Merge(a, accepted, incoming), c)
  {
    var claim :| claim in accepted && Covers(a, claim, c);
    var j :| 0 <= j < |accepted| && accepted[j] == claim;
    var merged := Merge(a, accepted, incoming);
    WithEvidenceIs(claim.evidence, incoming.evidence);
    forall e <- c.evidence ensures QuotesSource(merged[j].evidence, e.sourceId) {
      var f :| f in claim.evidence && f.sourceId == e.sourceId;
      assert f in merged[j].evidence;
    }
    assert Covers(a, merged[j], c) && merged[j] in merged;
  }

  /** The claim `c` was merged into, or became, was dropped for the budget. */
  ghost predicate WasDropped(a: Alphabet, accepted: seq<Candidate>, rejected: seq<Rejected>, c: Candidate) {
    exists claim <- accepted :: Covers(a, claim, c) && Rejected(claim.text, DroppedForBudget) in rejected
  }

  /** When a summary is published, a candidate that is at fault is rejected under its own
      text for that fault. Any other survives in a claim of its words and kind that
      quotes all its sources, or such a claim is named as dropped for the budget. */
  lemma EveryCandidateIsAccountedFor(
    a: Alphabet, sources: seq<SourceMemory>, candidates: seq<Candidate>, limits: Limits, form: SummaryMethod,
    r: GateResult, i: nat)
    requires IsGateResult(a, sources, candidates, limits, form, r) && r.Summary? && i < |candidates|
    ensures match OwnFault(a, ById(sources), limits, i, candidates[i])
            case Some(reason) => Rejected(candidates[i].text, reason) in r.rejected
            case None =>
              || Survives(a, r.claims, candidates[i])
              || WasDropped(a, Gathered(a, ById(sources), candidates, limits, |candidates|).accepted, r.rejected,
                            candidates[i])
  {
    hide OwnFault, Gathered, ById, Survives, WasDropped;
    var dropped, texts := HowPublished(a, sources, candidates, limits, form, r);
    var g := Gathered(a, ById(sources), candidates, limits, |candidates|);
    GatheredAccountsForAll(a, ById(sources), candidates, limits, |candidates|, i);
    if OwnFault(a, ById(sources), limits, i, candidates[i]).None? {
      SurvivorOrDropped(
        a, Header(form, |sources|), limits.maxOutputTokens, g.accepted, dropped, texts, g.rejected, candidates[i]);
    }
  }

  lemma SurvivorOrDropped(
    a: Alphabet, header: string, maxTokens: nat, accepted: seq<Candidate>, dropped: seq<nat>, texts: seq<string>,
    rejected: seq<Rejected>, c: Candidate)
    requires Survives(a, accepted, c)
    requires Budget.IsFirstFit(header, maxTokens, accepted, dropped)
    requires |texts| == |dropped| && forall m :: 0 <= m < |dropped| ==> texts[m] == accepted[dropped[m]].text
    ensures Survives(a, Budget.Kept(accepted, dropped), c)
         || WasDropped(a, accepted, rejected + OverBudgetTexts(texts), c)
  {
    hide Covers;
    var claim :| claim in accepted && Covers(a, claim, c);
    var k :| 0 <= k < |accepted| && accepted[k] == claim;
    if k in dropped {
      var m :| 0 <= m < |dropped| && dropped[m] == k;
      var all := rejected + OverBudgetTexts(texts);
      assert all[|rejected| + m] == Rejected(claim.text, DroppedForBudget) && all[|rejected| + m] in all;
    } else {
      Budget.DroppedAreUnprotected(header, maxTokens, accepted, dropped, k);
    }
  }
}
