/** What the quality gate's acceptance means in terms of words and quotes, without its
    own checks: `crates/surreal-memory/src/compression/gate.rs`, `validate` and
    `is_supported`. */
module Backing {
  import opened Basics
  import opened Contract
  import opened Text
  import opened Summarizer
  import opened Gate

  /** The source exists at the version read, and its text has the quote in it, which is
      no shorter than eight characters. */
  ghost predicate IsReal(a: Alphabet, byId: SourceTable, e: EvidenceRef) {
    && e.sourceId in byId && byId[e.sourceId].version == e.sourceVersion
    && |Normalize(a, e.quote)| >= 8
    && exists before, behind :: Normalize(a, byId[e.sourceId].content) == before + Normalize(a, e.quote) + behind
  }

  /** The places of the long words, and of those that some quote has. */
  ghost function LongPlaces(words: seq<string>): set<nat> {
    set i | 0 <= i < |words| && |words[i]| >= 4
  }

  ghost function QuotedPlaces(a: Alphabet, words: seq<string>, evidence: seq<EvidenceRef>): set<nat> {
    set i | 0 <= i < |words| && |words[i]| >= 4 && Says(a, evidence, words[i])
  }

  /** The quotes have every number of the text, and at least eight tenths of its words of
      four or more characters. */
  ghost predicate IsBornOut(a: Alphabet, text: string, evidence: seq<EvidenceRef>) {
    var words := CanonicalWords(a, text);
    && (forall w <- words :: (forall c <- w :: '0' <= c <= '9') ==> Says(a, evidence, w))
    && 10 * |QuotedPlaces(a, words, evidence)| >= 8 * |LongPlaces(words)|
  }

  /** The text has a negation exactly if some quote has one. */
  ghost predicate AgreesOnNegation(a: Alphabet, text: string, evidence: seq<EvidenceRef>) {
    (exists i :: 0 <= i < |NEGATIONS| && NEGATIONS[i] in CanonicalWords(a, text))
      <==> (exists i :: 0 <= i < |NEGATIONS| && Says(a, evidence, NEGATIONS[i]))
  }

  ghost predicate IsBacked(a: Alphabet, byId: SourceTable, c: Candidate) {
    && c.evidence != [] && (forall e <- c.evidence :: IsReal(a, byId, e))
    && IsBornOut(a, c.text, c.evidence)
    && AgreesOnNegation(a, c.text, c.evidence)
  }

  // ------------------------------------------------------ The checks are these

  lemma FaultlessIsReal(a: Alphabet, byId: SourceTable, e: EvidenceRef)
    ensures EvidenceFault(a, byId, e).None? <==> IsReal(a, byId, e)
  {
    hide Normalize;
    if e.sourceId in byId {
      FoundIsPart(Normalize(a, byId[e.sourceId].content), Normalize(a, e.quote));
    }
  }

  lemma FoundIsPart(text: string, part: string)
    ensures Finds(text, part) <==> exists before, behind :: text == before + part + behind
  {
    if Finds(text, part) {
      var i: nat :| IsAt(text, part, i);
      assert text == text[..i] + part + text[i + |part|..];
    }
    if before, behind :| text == before + part + behind {
      assert IsAt(text, part, |before|);
    }
  }

  /** Counting the long words, and those among them that are quoted, is counting places. */
  lemma {:induction false} CountsArePlaces(
    a: Alphabet, words: seq<string>, quoted: seq<string>, evidence: seq<EvidenceRef>)
    requires forall w :: w in quoted <==> Says(a, evidence, w)
    ensures |LongWords(words, MIN_WORD_LEN)| == |LongPlaces(words)|
    ensures CountIn(LongWords(words, MIN_WORD_LEN), quoted) == |QuotedPlaces(a, words, evidence)|
  {
    hide Says, CountIn, LongPlaces, QuotedPlaces;
    CountNone(quoted);
    if words == [] {
      NoPlaces(a, evidence);
    } else {
      var rest, last := words[..|words| - 1], words[|words| - 1];
      CountsArePlaces(a, rest, quoted, evidence);
      assert words == rest + [last];
      OneMorePlace(a, rest, last, evidence);
      var long := LongWords(rest, MIN_WORD_LEN);
      CountOneMore(long, last, quoted);
      assert long + [] == long;
    }
  }

  lemma NoPlaces(a: Alphabet, evidence: seq<EvidenceRef>)
    ensures LongPlaces([]) == {} && QuotedPlaces(a, [], evidence) == {}
  {
  }

  lemma OneMorePlace(a: Alphabet, rest: seq<string>, last: string, evidence: seq<EvidenceRef>)
    ensures |LongPlaces(rest + [last])| == |LongPlaces(rest)| + if |last| >= 4 then 1 else 0
    ensures |QuotedPlaces(a, rest + [last], evidence)|
         == |QuotedPlaces(a, rest, evidence)| + if |last| >= 4 && Says(a, evidence, last) then 1 else 0
  {
    hide Says;
    var words, n := rest + [last], |rest|;
    assert LongPlaces(words) == LongPlaces(rest) + if |last| >= 4 then {n} else {};
    assert QuotedPlaces(a, words, evidence)
        == QuotedPlaces(a, rest, evidence) + if |last| >= 4 && Says(a, evidence, last) then {n} else {};
  }

  lemma CountNone(quoted: seq<string>)
    ensures CountIn([], quoted) == 0
  {
  }

  lemma CountOneMore(words: seq<string>, last: string, quoted: seq<string>)
    ensures CountIn(words + [last], quoted) == CountIn(words, quoted) + if last in quoted then 1 else 0
  {
    assert (words + [last])[..|words|] == words;
  }

  lemma SupportedIsBornOut(a: Alphabet, text: string, evidence: seq<EvidenceRef>)
    ensures IsSupported(a, text, JoinedQuotes(evidence)) <==> IsBornOut(a, text, evidence)
  {
    hide CanonicalWords, Words, Canonical, LongWords, CountIn, LongPlaces, QuotedPlaces, Says, JoinedQuotes;
    QuotedAreAllWords(a, JoinedQuotes(evidence));
    JoinedQuotesSay(a, evidence);
    CanonicalIsItsWords(a, text);
    CountsArePlaces(a, CanonicalWords(a, text), ContentWords(a, JoinedQuotes(evidence), 1), evidence);
    CountNone(ContentWords(a, JoinedQuotes(evidence), 1));
  }

  lemma NegationAgrees(a: Alphabet, c: Candidate)
    ensures HasItsNegation(a, c) <==> AgreesOnNegation(a, c.text, c.evidence)
  {
    NegationIsAWord(a, c.text);
    NegatedWhenSaid(a, c.evidence);
  }

  lemma OkIsBacked(a: Alphabet, byId: SourceTable, c: Candidate)
    ensures ClaimOk(a, byId, c) <==> IsBacked(a, byId, c)
  {
    forall e <- c.evidence ensures EvidenceFault(a, byId, e).None? <==> IsReal(a, byId, e) {
      FaultlessIsReal(a, byId, e);
    }
    SupportedIsBornOut(a, c.text, c.evidence);
    NegationAgrees(a, c);
    hide IsSupported, HasItsNegation, IsBornOut, AgreesOnNegation, EvidenceFault, IsReal;
  }

  // ----------------------------------------------------------------- Theorems

  /** A claim is accepted exactly when it is backed, and is backed as it is accepted. */
  lemma AcceptedExactlyWhenBacked(a: Alphabet, byId: SourceTable, c: Candidate)
    ensures Validate(a, byId, c).Ok? <==> IsBacked(a, byId, c)
    ensures Validate(a, byId, c).Ok? ==> IsBacked(a, byId, Validate(a, byId, c).value)
  {
    hide Validate, ClaimOk, IsBacked;
    ValidatedIsOk(a, byId, c);
    OkIsBacked(a, byId, c);
    if Validate(a, byId, c).Ok? {
      OkIsBacked(a, byId, Validate(a, byId, c).value);
    }
  }

  /** The first piece of evidence that is not real. */
  ghost predicate IsFirstUnreal(a: Alphabet, byId: SourceTable, evidence: seq<EvidenceRef>, i: nat) {
    && i < |evidence| && !IsReal(a, byId, evidence[i])
    && forall j :: 0 <= j < i ==> IsReal(a, byId, evidence[j])
  }

  lemma FirstUnrealIsTheFault(a: Alphabet, byId: SourceTable, evidence: seq<EvidenceRef>, i: nat)
    requires IsFirstUnreal(a, byId, evidence, i)
    ensures FirstFault(a, byId, evidence) == EvidenceFault(a, byId, evidence[i])
    ensures EvidenceFault(a, byId, evidence[i]).Some?
  {
    hide IsReal, EvidenceFault;
    FaultlessIsReal(a, byId, evidence[i]);
    forall e <- evidence[..i] ensures EvidenceFault(a, byId, e).None? {
      FaultlessIsReal(a, byId, e);
    }
    NoFaultMeans(a, byId, evidence[..i]);
    FaultStays(a, byId, evidence, i);
  }

  /** A claim that is not backed is refused for the first thing wrong with it, and a
      refusal names just that. */
  lemma RefusedForTheFirstFault(a: Alphabet, byId: SourceTable, c: Candidate)
    ensures Validate(a, byId, c) == Err(NoEvidence) <==> c.evidence == []
    ensures forall i: nat | IsFirstUnreal(a, byId, c.evidence, i) ::
              var e := c.evidence[i];
              Validate(a, byId, c) == Err(
                if e.sourceId !in byId then UnknownSource
                else if byId[e.sourceId].version != e.sourceVersion then StaleSourceVersion
                else QuoteNotInSource)
    ensures c.evidence != [] && (forall e <- c.evidence :: IsReal(a, byId, e)) ==>
              && (Validate(a, byId, c) == Err(Unsupported) <==> !IsBornOut(a, c.text, c.evidence))
              && (Validate(a, byId, c) == Err(NegationChanged) <==>
                    IsBornOut(a, c.text, c.evidence) && !AgreesOnNegation(a, c.text, c.evidence))
  {
    hide IsReal, IsBornOut, AgreesOnNegation, IsSupported, QualifiersOf;
    forall i: nat | IsFirstUnreal(a, byId, c.evidence, i)
      ensures FirstFault(a, byId, c.evidence) == EvidenceFault(a, byId, c.evidence[i])
      ensures EvidenceFault(a, byId, c.evidence[i]).Some?
    {
      FirstUnrealIsTheFault(a, byId, c.evidence, i);
    }
    forall e <- c.evidence ensures EvidenceFault(a, byId, e).None? <==> IsReal(a, byId, e) {
      FaultlessIsReal(a, byId, e);
    }
    NoFaultMeans(a, byId, c.evidence);
    SupportedIsBornOut(a, c.text, c.evidence);
    NegationAgrees(a, c);
    NoEvidenceHasNoFault(a, byId, c.evidence);
  }

  lemma {:induction false} NoEvidenceHasNoFault(a: Alphabet, byId: SourceTable, evidence: seq<EvidenceRef>)
    ensures FirstFault(a, byId, evidence) != Some(NoEvidence)
  {
    if evidence != [] {
      NoEvidenceHasNoFault(a, byId, evidence[..|evidence| - 1]);
    }
  }

  /** Acceptance changes no word, kind or quote of a claim. It adds each hedge that the
      text or a quote makes and takes none away, and believes a validation only if the
      quotes speak of one. */
  lemma AcceptedHidesNothing(a: Alphabet, byId: SourceTable, c: Candidate)
    requires Validate(a, byId, c).Ok?
    ensures var accepted := Validate(a, byId, c).value;
            var said, text, quotes :=
              accepted.qualifiers, QualifiersOf(a, c.text), QualifiersOf(a, JoinedQuotes(c.evidence));
            && accepted.text == c.text && accepted.kind == c.kind && accepted.evidence == c.evidence
            && (said.negated <==> c.qualifiers.negated || text.negated || quotes.negated)
            && (said.uncertain <==> c.qualifiers.uncertain || text.uncertain || quotes.uncertain)
            && (said.failedApproach <==> c.qualifiers.failedApproach || text.failedApproach || quotes.failedApproach)
            && (said.quotedInstruction <==>
                  c.qualifiers.quotedInstruction || text.quotedInstruction || quotes.quotedInstruction)
            && (said.oneOff <==> c.qualifiers.oneOff || text.oneOff || quotes.oneOff)
            && (accepted.validated <==> c.validated && HasValidationCue(a, JoinedQuotes(c.evidence)))
  {
    hide QualifiersOf, HasValidationCue, IsSupported, FirstFault;
  }

  /** Every published claim, merged or not, is backed by the evidence it is published
      with, and the output keeps the budget and the reduction asked for. */
  lemma PublishedClaimsAreBacked(
    a: Alphabet, sources: seq<SourceMemory>, candidates: seq<Candidate>, limits: Limits, form: SummaryMethod,
    r: GateResult)
    requires IsGateResult(a, sources, candidates, limits, form, r) && r.Summary?
    ensures forall c <- r.claims :: IsBacked(a, ById(sources), c)
    ensures r.tokensAfter <= limits.maxOutputTokens && r.tokensAfter <= Allowed(limits, r.tokensBefore)
  {
    PublishedClaimsAreOk(a, sources, candidates, limits, form, r);
    forall c <- r.claims ensures IsBacked(a, ById(sources), c) {
      OkIsBacked(a, ById(sources), c);
    }
  }

  // ------------------------------------------------------ The rest of a result

  /** The output is empty or reduced as much as asked for. */
  predicate IsReduced(limits: Limits, before: nat, after: nat) {
    after == 0 || after as real <= before as real * (1.0 - limits.minReduction)
  }

  /** What a result says of the limits: too much input, too much that must not be dropped,
      or too little saved; a summary keeps them all and counts its own rendering. */
  lemma ResultsTellTheLimits(
    a: Alphabet, sources: seq<SourceMemory>, candidates: seq<Candidate>, limits: Limits, form: SummaryMethod,
    r: GateResult)
    requires IsGateResult(a, sources, candidates, limits, form, r)
    ensures r.InputTooLarge? <==> TotalTokens(sources) > limits.maxInputTokens
    ensures r.InputTooLarge? ==> r.tokens == TotalTokens(sources)
    ensures r.OverBudget? ==> r.tokens > limits.maxOutputTokens
    ensures r.InsufficientReduction? ==>
              r.before == TotalTokens(sources) && !IsReduced(limits, r.before, r.after)
    ensures r.Summary? ==>
              && r.claims != [] && r.rendered == Budget.Rendered(Header(form, |sources|), r.claims)
              && r.tokensBefore == TotalTokens(sources) && r.tokensAfter == EstimateTokens(r.rendered)
              && r.tokensAfter <= limits.maxOutputTokens
              && IsReduced(limits, r.tokensBefore, r.tokensAfter)
  {
    hide IsReduced, Budget.IsDropPrefix, OverBudgetTexts;
    hide Gathered, ById, TotalTokens, Header, Budget.Kept, Budget.Rendered, Budget.Protected, EstimateTokens, Allowed;
    if r.InsufficientReduction? {
      AllowedIs(limits, r.before, r.after);
    }
    if r.Summary? {
      AllowedIs(limits, r.tokensBefore, r.tokensAfter);
    }
  }

  lemma AllowedIs(limits: Limits, before: nat, n: nat)
    ensures n <= Allowed(limits, before) <==> IsReduced(limits, before, n)
  {
    var most := before as real * (1.0 - limits.minReduction);
    assert n as real <= most <==> n <= most.Floor;
  }

  /** The input is measured memory by memory, by content. */
  lemma {:induction false} TotalIsOfContents(x: seq<SourceMemory>, y: seq<SourceMemory>)
    ensures TotalTokens(x + y) == TotalTokens(x) + TotalTokens(y)
    ensures forall source: SourceMemory :: TotalTokens([source]) == EstimateTokens(source.content)
  {
    hide EstimateTokens;
    forall source: SourceMemory ensures TotalTokens([source]) == EstimateTokens(source.content) {
      assert [source][..0] == [];
    }
    if y == [] {
      assert x + y == x;
    } else {
      TotalIsOfContents(x, y[..|y| - 1]);
      assert (x + y)[..|x + y| - 1] == x + y[..|y| - 1];
    }
  }

  ghost predicate AreApart(a: Alphabet, claims: seq<Candidate>) {
    forall i, j :: 0 <= i < j < |claims| ==>
      Canonical(a, claims[i].text) != Canonical(a, claims[j].text) || claims[i].kind != claims[j].kind
  }

  lemma MergeKeepsApart(a: Alphabet, accepted: seq<Candidate>, incoming: Candidate)
    requires AreApart(a, accepted)
    ensures AreApart(a, Merge(a, accepted, incoming))
  {
    hide Canonical;
    var k := EquivalentTo(a, accepted, incoming);
    var merged := Merge(a, accepted, incoming);
    assert forall i :: 0 <= i < |accepted| ==> merged[i].text == accepted[i].text && merged[i].kind == accepted[i].kind;
    if k == |accepted| {
      assert forall i :: 0 <= i < |accepted| ==> !Equivalent(a, accepted[i], incoming);
    }
  }

  /** No two accepted claims have the same words and kind. */
  lemma {:induction false} ClaimsAreMerged(
    a: Alphabet, byId: SourceTable, candidates: seq<Candidate>, limits: Limits, n: nat)
    requires n <= |candidates|
    ensures AreApart(a, Gathered(a, byId, candidates, limits, n).accepted)
  {
    hide Canonical, Validate, Merge, AreApart;
    if n == 0 {
      NoClaimsAreApart(a);
    } else {
      ClaimsAreMerged(a, byId, candidates, limits, n - 1);
      var validated := Validate(a, byId, candidates[n - 1]);
      if validated.Ok? {
        MergeKeepsApart(a, Gathered(a, byId, candidates, limits, n - 1).accepted, validated.value);
      }
    }
  }

  lemma NoClaimsAreApart(a: Alphabet)
    ensures AreApart(a, [])
  {
  }

  /** A rejection that is named was earned by a candidate of that text. */
  ghost predicate IsEarned(
    a: Alphabet, byId: SourceTable, candidates: seq<Candidate>, limits: Limits, n: nat, rejected: Rejected)
  {
    exists i :: 0 <= i < n && i < |candidates| && candidates[i].text == rejected.text &&
                OwnFault(a, byId, limits, i, candidates[i]) == Some(rejected.reason)
  }

  /** Nobody is rejected without a fault of its own. */
  lemma {:induction false} RejectionsAreEarned(
    a: Alphabet, byId: SourceTable, candidates: seq<Candidate>, limits: Limits, n: nat)
    requires n <= |candidates|
    ensures forall rejected <- Gathered(a, byId, candidates, limits, n).rejected ::
              IsEarned(a, byId, candidates, limits, n, rejected)
  {
    hide Validate;
    if n > 0 {
      RejectionsAreEarned(a, byId, candidates, limits, n - 1);
      var c := candidates[n - 1];
      forall rejected <- Gathered(a, byId, candidates, limits, n).rejected
        ensures IsEarned(a, byId, candidates, limits, n, rejected)
      {
        if rejected in Gathered(a, byId, candidates, limits, n - 1).rejected {
          var i :| 0 <= i < n - 1 && candidates[i].text == rejected.text &&
                   OwnFault(a, byId, limits, i, candidates[i]) == Some(rejected.reason);
        } else {
          var fault := OwnFault(a, byId, limits, n - 1, candidates[n - 1]);
          assert fault.Some? && rejected == Rejected(c.text, fault.value);
        }
      }
    }
  }

  // ---------------------------------------------------------------- The header

  /** The number a string of digits stands for. */
  function Numeral(digits: string): nat {
    if digits == "" then 0
    else
      var last := digits[|digits| - 1];
      10 * Numeral(digits[..|digits| - 1]) + if '0' <= last <= '9' then last as int - '0' as int else 0
  }

  lemma {:induction false} DecimalIsNumeral(n: nat)
    ensures Numeral(Decimal(n)) == n
  {
    var front := if n < 10 then "" else Decimal(n / 10);
    NumeralNext(front, n % 10);
    if n >= 10 {
      DecimalIsNumeral(n / 10);
    }
  }

  lemma NumeralNext(front: string, digit: nat)
    requires digit < 10
    ensures Numeral("") == 0
    ensures Numeral(front + ["0123456789"[digit]]) == 10 * Numeral(front) + digit
  {
    var last := "0123456789"[digit];
    assert last as int == '0' as int + digit;
    assert (front + [last])[..|front|] == front;
  }

  /** The header tells how a summary was made and of how many memories. */
  lemma HeaderTellsAll(form: SummaryMethod, count: nat, otherForm: SummaryMethod, otherCount: nat)
    requires Header(form, count) == Header(otherForm, otherCount)
    ensures form == otherForm && count == otherCount
  {
    var header := Header(form, count);
    assert header[1] == if form.Extractive? then 'e' else 's';
    assert header[1] == if otherForm.Extractive? then 'e' else 's';
    var start := |if form.Extractive? then "[extractive summary of " else "[semantic summary of "|;
    var end := |header| - |" memories]"|;
    assert header[start..end] == Decimal(count);
    assert header[start..end] == Decimal(otherCount);
    DecimalIsNumeral(count);
    DecimalIsNumeral(otherCount);
  }
}
