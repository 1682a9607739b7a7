/** The extractive summarizer of
    `crates/surreal-memory/src/compression/summarizer.rs`. */
module Summarizer {
  import opened Basics
  import opened Contract
  import opened Text

  const UNCERTAIN_CUES := ["maybe", "might", "perhaps", "i think", "probably", "not sure", "could be", "i guess",
                           "hypothesis", "suspect", "possibly"]
  const FAILED_CUES := ["didnt work", "did not work", "doesnt work", "does not work", "failed", "no luck", "dead end",
                        "wont work"]
  const ONE_OFF_CUES := ["for now", "this time", "just this once", "today only", "i prefer", "i like", "my preference"]
  const INSTRUCTION_CUES := ["ignore previous", "ignore all", "ignore the above", "disregard", "system prompt",
                             "you must", "override", "new instructions"]
  const CONSTRAINT_CUES := ["must ", "must not", "never ", "always ", "do not ", "dont ", "required", "forbidden",
                            "may not", "shall "]
  const DECISION_CUES := ["decided", "we will ", "we chose", "agreed", "going with", "decision"]
  const LESSON_CUES := ["learned", "lesson", "root cause", "turns out", "fixed by", "the fix", "works when",
                        "workaround"]
  const OPEN_CUES := ["open question", "unresolved", "tbd", "todo", "need to decide"]
  const NEGATION_CUES := [" not ", " never ", " no ", " without ", " dont ", " cant ", " wont ", " cannot "]
  const VALIDATION_CUES := ["confirmed", "verified", "validated", "tests pass", "tests passed", "reproduced"]

  predicate ContainsAny(haystack: string, cues: seq<string>) {
    exists i :: 0 <= i < |cues| && Finds(haystack, cues[i])
  }

  predicate HasValidationCue(a: Alphabet, text: string) {
    ContainsAny(Canonical(a, text), VALIDATION_CUES)
  }

  function Padded(a: Alphabet, text: string): string {
    " " + Canonical(a, text) + " "
  }

  function QualifiersOf(a: Alphabet, text: string): Qualifiers {
    var canon := Padded(a, text);
    var quoted := '"' in text || '\U{201c}' in text;
    Qualifiers(
      ContainsAny(canon, NEGATION_CUES),
      ContainsAny(canon, UNCERTAIN_CUES),
      ContainsAny(canon, FAILED_CUES),
      ContainsAny(canon, INSTRUCTION_CUES) && (quoted || "ignore" <= TrimStart(a, canon)),
      ContainsAny(canon, ONE_OFF_CUES))
  }

  function KindOf(a: Alphabet, text: string): Option<ClaimKind> {
    var canon := Padded(a, text);
    var trimmed := Normalize(a, text);
    if (trimmed != "" && trimmed[|trimmed| - 1] == '?') || ContainsAny(canon, OPEN_CUES) then Some(OpenQuestion)
    else if ContainsAny(canon, CONSTRAINT_CUES) then Some(Constraint)
    else if ContainsAny(canon, DECISION_CUES) then Some(Decision)
    else if ContainsAny(canon, LESSON_CUES) then Some(Lesson)
    else None
  }

  // --------------------------------------------------------------- Negation

  const NEGATIONS := ["not", "never", "no", "without", "dont", "cant", "wont", "cannot"]

  /** A negation is one of eight whole words of the canonical text, so it depends on
      nothing but the set of its words. */
  lemma NegationIsAWord(a: Alphabet, text: string)
    ensures QualifiersOf(a, text).negated <==> exists i :: 0 <= i < |NEGATIONS| && NEGATIONS[i] in CanonicalWords(a, text)
  {
    CanonicalIsItsWords(a, text);
    assert |NEGATIONS| == |NEGATION_CUES|;
    forall i | 0 <= i < |NEGATIONS|
      ensures Finds(Padded(a, text), NEGATION_CUES[i]) <==> NEGATIONS[i] in CanonicalWords(a, text)
    {
      NegationCue(a, i);
      PaddedWordIsFound(a, CanonicalWords(a, text), NEGATIONS[i]);
    }
  }

  lemma NegationCue(a: Alphabet, i: nat)
    requires i < |NEGATIONS|
    ensures NEGATION_CUES[i] == " " + NEGATIONS[i] + " "
    ensures IsWord(a, NEGATIONS[i])
  {
    assert forall c <- NEGATIONS[i] :: 'a' <= c <= 'z';
  }

  // -------------------------------------------------------------- Extraction

  /** The kind under which a sentence is kept, if it is kept. */
  function Relevance(a: Alphabet, sentence: string): Option<ClaimKind> {
    var qualifiers := QualifiersOf(a, sentence);
    match KindOf(a, sentence)
    case Some(kind) => Some(kind)
    case None => if qualifiers.uncertain || qualifiers.failedApproach then Some(Fact) else None
  }

  /** A cue is in the canonical text, with a space before and behind it. */
  ghost predicate Mentions(a: Alphabet, text: string, cues: seq<string>) {
    exists cue <- cues :: Contains(" " + Canonical(a, text) + " ", cue)
  }

  lemma MentionsIs(a: Alphabet, text: string, cues: seq<string>)
    ensures Mentions(a, text, cues) <==> ContainsAny(Padded(a, text), cues)
  {
    hide Canonical;
    if Mentions(a, text, cues) {
      var cue :| cue in cues && Contains(" " + Canonical(a, text) + " ", cue);
      var i :| 0 <= i < |cues| && cues[i] == cue;
      assert Finds(Padded(a, text), cues[i]);
    }
    if ContainsAny(Padded(a, text), cues) {
      var i :| 0 <= i < |cues| && Finds(Padded(a, text), cues[i]);
      assert cues[i] in cues && Contains(" " + Canonical(a, text) + " ", cues[i]);
    }
  }

  /** A question mark at the end of the normalised text. */
  predicate IsQuestion(a: Alphabet, text: string) {
    Normalize(a, text) != "" && Normalize(a, text)[|Normalize(a, text)| - 1] == '?'
  }

  /** Which sentences are kept, and as what: open questions before constraints before
      decisions before lessons, and a hedge or a failed attempt alone as a fact. */
  lemma RelevanceIsDecidedByCues(a: Alphabet, text: string)
    ensures var open := IsQuestion(a, text) || Mentions(a, text, OPEN_CUES);
            var constraint := Mentions(a, text, CONSTRAINT_CUES);
            var decision := Mentions(a, text, DECISION_CUES);
            var lesson := Mentions(a, text, LESSON_CUES);
            var hedged := Mentions(a, text, UNCERTAIN_CUES) || Mentions(a, text, FAILED_CUES);
            && (Relevance(a, text) == Some(OpenQuestion) <==> open)
            && (Relevance(a, text) == Some(Constraint) <==> !open && constraint)
            && (Relevance(a, text) == Some(Decision) <==> !open && !constraint && decision)
            && (Relevance(a, text) == Some(Lesson) <==> !open && !constraint && !decision && lesson)
            && (Relevance(a, text) == Some(Fact) <==> !open && !constraint && !decision && !lesson && hedged)
            && (Relevance(a, text) == None <==> !open && !constraint && !decision && !lesson && !hedged)
  {
    MentionsIs(a, text, OPEN_CUES);
    MentionsIs(a, text, CONSTRAINT_CUES);
    MentionsIs(a, text, DECISION_CUES);
    MentionsIs(a, text, LESSON_CUES);
    MentionsIs(a, text, UNCERTAIN_CUES);
    MentionsIs(a, text, FAILED_CUES);
    hide ContainsAny, Mentions, Canonical, Normalize;
  }

  /** Which qualifiers a text has. */
  lemma QualifiersAreDecidedByCues(a: Alphabet, text: string)
    ensures var q := QualifiersOf(a, text);
            && (q.uncertain <==> Mentions(a, text, UNCERTAIN_CUES))
            && (q.failedApproach <==> Mentions(a, text, FAILED_CUES))
            && (q.oneOff <==> Mentions(a, text, ONE_OFF_CUES))
            && (q.quotedInstruction <==>
                  && Mentions(a, text, INSTRUCTION_CUES)
                  && ('"' in text || '\U{201c}' in text || "ignore" <= TrimStart(a, " " + Canonical(a, text) + " ")))
  {
    MentionsIs(a, text, UNCERTAIN_CUES);
    MentionsIs(a, text, FAILED_CUES);
    MentionsIs(a, text, ONE_OFF_CUES);
    MentionsIs(a, text, INSTRUCTION_CUES);
    hide ContainsAny, Mentions, Canonical, TrimStart;
  }

  function EvidenceOf(source: SourceMemory, sentence: string): EvidenceRef {
    EvidenceRef(source.id, source.version, sentence)
  }

  function FirstClaim(a: Alphabet, source: SourceMemory, sentence: string, kind: ClaimKind): Candidate {
    Candidate(kind, sentence, QualifiersOf(a, sentence), [EvidenceOf(source, sentence)], HasValidationCue(a, sentence))
  }

  function Repeated(claim: Candidate, source: SourceMemory, sentence: string): Candidate {
    if QuotesSource(claim.evidence, source.id) then claim
    else claim.(evidence := claim.evidence + [EvidenceOf(source, sentence)])
  }

  /** The first claim with a given key; |claims| when there is none. */
  function IndexOf(a: Alphabet, claims: seq<Candidate>, key: string): (i: nat)
    ensures i <= |claims|
    ensures i < |claims| ==> Canonical(a, claims[i].text) == key
    ensures forall j :: 0 <= j < i ==> Canonical(a, claims[j].text) != key
  {
    IndexFrom(a, claims, key, 0)
  }

  function IndexFrom(a: Alphabet, claims: seq<Candidate>, key: string, from: nat): (i: nat)
    requires from <= |claims|
    ensures from <= i <= |claims|
    ensures i < |claims| ==> Canonical(a, claims[i].text) == key
    ensures forall j :: from <= j < i ==> Canonical(a, claims[j].text) != key
    decreases |claims| - from
  {
    hide Canonical;
    if from == |claims| || Canonical(a, claims[from].text) == key then from
    else IndexFrom(a, claims, key, from + 1)
  }

  /** One sentence, in plain terms: a list of claims in order of first appearance,
      searched from the front. */
  function Absorb(a: Alphabet, claims: seq<Candidate>, source: SourceMemory, sentence: string): seq<Candidate> {
    var kind := Relevance(a, sentence);
    if kind.None? then claims
    else
      var i := IndexOf(a, claims, Canonical(a, sentence));
      if i < |claims| then claims[i := Repeated(claims[i], source, sentence)]
      else claims + [FirstClaim(a, source, sentence, kind.value)]
  }

  function AbsorbAll(a: Alphabet, claims: seq<Candidate>, source: SourceMemory, sentences: seq<string>): seq<Candidate> {
    if sentences == [] then claims
    else Absorb(a, AbsorbAll(a, claims, source, sentences[..|sentences| - 1]), source, sentences[|sentences| - 1])
  }

  function Extracted(a: Alphabet, sources: seq<SourceMemory>): seq<Candidate> {
    if sources == [] then []
    else
      var source := sources[|sources| - 1];
      AbsorbAll(a, Extracted(a, sources[..|sources| - 1]), source, Sentences(a, source.content))
  }

  /** The order of keys and the table from keys to claims hold exactly `claims`. */
  ghost predicate Holds(a: Alphabet, order: seq<string>, byKey: map<string, Candidate>, claims: seq<Candidate>) {
    && |order| == |claims|
    && (forall i :: 0 <= i < |order| ==>
          && order[i] in byKey
          && byKey[order[i]] == claims[i]
          && order[i] == Canonical(a, claims[i].text))
    && (forall i, j :: 0 <= i < j < |order| ==> order[i] != order[j])
    && (forall key <- byKey :: key in order)
  }

  /** `extract_candidates`: the key table and order vector refine the plain list. */
  method ExtractCandidates(a: Alphabet, sources: seq<SourceMemory>) returns (out: seq<Candidate>)
    ensures out == Extracted(a, sources)
  {
    var order: seq<string> := [];
    var byKey: map<string, Candidate> := map[];
    for s := 0 to |sources|
      invariant Holds(a, order, byKey, Extracted(a, sources[..s]))
    {
      order, byKey := AddSource(a, order, byKey, sources[s], Extracted(a, sources[..s]));
      assert sources[..s + 1][..s] == sources[..s];
    }
    assert sources[..|sources|] == sources;
    out := InOrder(order, byKey, Extracted(a, sources));
  }

  lemma NothingAbsorbed(a: Alphabet, claims: seq<Candidate>, source: SourceMemory)
    ensures AbsorbAll(a, claims, source, []) == claims
  {
  }

  lemma AbsorbedNext(a: Alphabet, claims: seq<Candidate>, source: SourceMemory, sentences: seq<string>, k: nat)
    requires k < |sentences|
    ensures AbsorbAll(a, claims, source, sentences[..k + 1])
         == Absorb(a, AbsorbAll(a, claims, source, sentences[..k]), source, sentences[k])
  {
    hide Absorb;
    assert sentences[..k + 1][..k] == sentences[..k];
  }

  method AddSource(
    a: Alphabet, order: seq<string>, byKey: map<string, Candidate>, source: SourceMemory, ghost claims: seq<Candidate>)
    returns (order': seq<string>, byKey': map<string, Candidate>)
    requires Holds(a, order, byKey, claims)
    ensures Holds(a, order', byKey', AbsorbAll(a, claims, source, Sentences(a, source.content)))
  {
    hide Holds, AbsorbAll, Absorb, Sentences;
    order', byKey' := order, byKey;
    var sentences := SplitSentences(a, source.content);
    NothingAbsorbed(a, claims, source);
    for k := 0 to |sentences|
      invariant Holds(a, order', byKey', AbsorbAll(a, claims, source, sentences[..k]))
    {
      order', byKey' :=
        AddSentence(a, order', byKey', source, sentences[k], AbsorbAll(a, claims, source, sentences[..k]));
      AbsorbedNext(a, claims, source, sentences, k);
    }
    assert sentences[..|sentences|] == sentences;
  }

  /** The claims in order of first appearance, each taken out of the table once. */
  method InOrder(order: seq<string>, table: map<string, Candidate>, ghost claims: seq<Candidate>)
    returns (out: seq<Candidate>)
    requires |order| == |claims|
    requires forall i :: 0 <= i < |order| ==> order[i] in table && table[order[i]] == claims[i]
    requires forall i, j :: 0 <= i < j < |order| ==> order[i] != order[j]
    ensures out == claims
  {
    var byKey := table;
    out := [];
    for i := 0 to |order|
      invariant out == claims[..i]
      invariant forall j :: i <= j < |order| ==> order[j] in byKey && byKey[order[j]] == claims[j]
    {
      out := out + [byKey[order[i]]];
      byKey := byKey - {order[i]};
    }
  }

  method AddSentence(
    a: Alphabet, order: seq<string>, byKey: map<string, Candidate>, source: SourceMemory, sentence: string,
    ghost claims: seq<Candidate>)
    returns (order': seq<string>, byKey': map<string, Candidate>)
    requires Holds(a, order, byKey, claims)
    ensures Holds(a, order', byKey', Absorb(a, claims, source, sentence))
  {
    hide Canonical, QualifiersOf, KindOf, HasValidationCue;
    order', byKey' := order, byKey;
    var qualifiers := QualifiersOf(a, sentence);
    var kind := KindOf(a, sentence);
    if kind.None? {
      if !(qualifiers.uncertain || qualifiers.failedApproach) {
        return;
      }
      kind := Some(Fact);
    }
    var key := Canonical(a, sentence);
    var evidence := EvidenceRef(source.id, source.version, sentence);
    ghost var at := IndexOf(a, claims, key);
    if key in byKey {
      var existing := byKey[key];
      if !(exists e <- existing.evidence :: e.sourceId == source.id) {
        byKey' := byKey[key := existing.(evidence := existing.evidence + [evidence])];
      }
      assert order[at] == key;
    } else {
      order' := order + [key];
      byKey' := byKey[key := Candidate(kind.value, sentence, qualifiers, [evidence], HasValidationCue(a, sentence))];
    }
  }

  // ------------------------------------------------ What extraction produces

  /** A claim quotes, verbatim, sentences of the sources it names, each saying the
      same as the claim. */
  ghost predicate IsExtract(a: Alphabet, sources: seq<SourceMemory>, claim: Candidate) {
    && claim.evidence != []
    && forall e <- claim.evidence :: IsVerbatim(a, sources, claim.text, e)
  }

  ghost predicate IsVerbatim(a: Alphabet, sources: seq<SourceMemory>, text: string, e: EvidenceRef) {
    && Canonical(a, e.quote) == Canonical(a, text)
    && exists source <- sources :: QuotedFrom(a, source, e)
  }

  ghost predicate QuotedFrom(a: Alphabet, source: SourceMemory, e: EvidenceRef) {
    source.id == e.sourceId && source.version == e.sourceVersion && e.quote in Sentences(a, source.content)
  }

  ghost predicate AreExtracts(a: Alphabet, sources: seq<SourceMemory>, claims: seq<Candidate>) {
    && (forall claim <- claims :: IsExtract(a, sources, claim))
    && HaveDistinctKeys(a, claims)
  }

  ghost predicate HaveDistinctKeys(a: Alphabet, claims: seq<Candidate>) {
    forall i, j :: 0 <= i < j < |claims| ==> Canonical(a, claims[i].text) != Canonical(a, claims[j].text)
  }

  lemma {:induction false} ExtractedAreExtracts(a: Alphabet, sources: seq<SourceMemory>)
    ensures AreExtracts(a, sources, Extracted(a, sources))
  {
    if sources != [] {
      var n := |sources| - 1;
      ExtractedAreExtracts(a, sources[..n]);
      MoreSources(a, sources[..n], sources, Extracted(a, sources[..n]));
      AbsorbAllKeepsExtracts(a, sources, Extracted(a, sources[..n]), sources[n], Sentences(a, sources[n].content));
    }
  }

  /** A claim has the kind, the qualifiers and the validation of its own text. */
  ghost predicate IsLabelled(a: Alphabet, claim: Candidate) {
    && Relevance(a, claim.text) == Some(claim.kind)
    && claim.qualifiers == QualifiersOf(a, claim.text)
    && (claim.validated <==> exists cue <- VALIDATION_CUES :: Contains(Canonical(a, claim.text), cue))
  }

  lemma FirstClaimIsLabelled(a: Alphabet, source: SourceMemory, sentence: string, kind: ClaimKind)
    requires Relevance(a, sentence) == Some(kind)
    ensures IsLabelled(a, FirstClaim(a, source, sentence, kind))
  {
    hide Relevance, QualifiersOf, Canonical;
    if HasValidationCue(a, sentence) {
      var i :| 0 <= i < |VALIDATION_CUES| && Finds(Canonical(a, sentence), VALIDATION_CUES[i]);
      assert VALIDATION_CUES[i] in VALIDATION_CUES;
    }
    if cue :| cue in VALIDATION_CUES && Contains(Canonical(a, sentence), cue) {
      var i :| 0 <= i < |VALIDATION_CUES| && VALIDATION_CUES[i] == cue;
      assert Finds(Canonical(a, sentence), VALIDATION_CUES[i]);
    }
  }

  lemma {:induction false} AbsorbAllKeepsLabels(
    a: Alphabet, claims: seq<Candidate>, source: SourceMemory, sentences: seq<string>)
    requires forall claim <- claims :: IsLabelled(a, claim)
    ensures forall claim <- AbsorbAll(a, claims, source, sentences) :: IsLabelled(a, claim)
  {
    if sentences != [] {
      var n := |sentences| - 1;
      AbsorbAllKeepsLabels(a, claims, source, sentences[..n]);
      AbsorbKeepsLabels(a, AbsorbAll(a, claims, source, sentences[..n]), source, sentences[n]);
    }
  }

  lemma AbsorbKeepsLabels(a: Alphabet, claims: seq<Candidate>, source: SourceMemory, sentence: string)
    requires forall claim <- claims :: IsLabelled(a, claim)
    ensures forall claim <- Absorb(a, claims, source, sentence) :: IsLabelled(a, claim)
  {
    var kind := Relevance(a, sentence);
    if kind.Some? {
      FirstClaimIsLabelled(a, source, sentence, kind.value);
    }
    hide Relevance, QualifiersOf, Canonical, FirstClaim;
    forall claim <- Absorb(a, claims, source, sentence) ensures IsLabelled(a, claim) {
      var i := IndexOf(a, claims, Canonical(a, sentence));
      if claim !in claims && i < |claims| {
        assert claim == Repeated(claims[i], source, sentence) && IsLabelled(a, claims[i]);
      }
    }
  }

  /** Every extracted claim is labelled by its own text. */
  lemma {:induction false} ExtractedAreLabelled(a: Alphabet, sources: seq<SourceMemory>)
    ensures forall claim <- Extracted(a, sources) :: IsLabelled(a, claim)
  {
    hide IsLabelled, AbsorbAll, Sentences;
    if sources != [] {
      var n := |sources| - 1;
      ExtractedAreLabelled(a, sources[..n]);
      AbsorbAllKeepsLabels(a, Extracted(a, sources[..n]), sources[n], Sentences(a, sources[n].content));
    }
  }

  lemma MoreSources(a: Alphabet, fewer: seq<SourceMemory>, sources: seq<SourceMemory>, claims: seq<Candidate>)
    requires AreExtracts(a, fewer, claims)
    requires forall source <- fewer :: source in sources
    ensures AreExtracts(a, sources, claims)
  {
    forall claim <- claims ensures IsExtract(a, sources, claim) {
      forall e <- claim.evidence ensures IsVerbatim(a, sources, claim.text, e) {
        assert IsExtract(a, fewer, claim) && IsVerbatim(a, fewer, claim.text, e);
      }
    }
  }

  lemma {:induction false} AbsorbAllKeepsExtracts(
    a: Alphabet, sources: seq<SourceMemory>, claims: seq<Candidate>, source: SourceMemory, sentences: seq<string>)
    requires AreExtracts(a, sources, claims) && source in sources
    requires forall sentence <- sentences :: sentence in Sentences(a, source.content)
    ensures AreExtracts(a, sources, AbsorbAll(a, claims, source, sentences))
  {
    if sentences != [] {
      var n := |sentences| - 1;
      AbsorbAllKeepsExtracts(a, sources, claims, source, sentences[..n]);
      AbsorbKeepsExtracts(a, sources, AbsorbAll(a, claims, source, sentences[..n]), source, sentences[n]);
    }
  }

  lemma AbsorbKeepsExtracts(
    a: Alphabet, sources: seq<SourceMemory>, claims: seq<Candidate>, source: SourceMemory, sentence: string)
    requires AreExtracts(a, sources, claims) && source in sources && sentence in Sentences(a, source.content)
    ensures AreExtracts(a, sources, Absorb(a, claims, source, sentence))
  {
    hide Canonical, QualifiersOf, KindOf, HasValidationCue, Sentences;
    var after := Absorb(a, claims, source, sentence);
    var i := IndexOf(a, claims, Canonical(a, sentence));
    var evidence := EvidenceOf(source, sentence);
    assert QuotedFrom(a, source, evidence);
    forall claim <- after ensures IsExtract(a, sources, claim) {
      if claim !in claims {
        forall e <- claim.evidence ensures IsVerbatim(a, sources, claim.text, e) {
          if e != evidence {
            assert i < |claims| && IsExtract(a, sources, claims[i]);
            assert IsVerbatim(a, sources, claims[i].text, e);
          }
        }
      }
    }
  }

  ghost predicate IsRepresented(a: Alphabet, claims: seq<Candidate>, source: SourceMemory, sentence: string) {
    exists claim <- claims :: Canonical(a, claim.text) == Canonical(a, sentence) && QuotesSource(claim.evidence, source.id)
  }

  /** No relevant sentence is lost: each has a claim of its meaning that quotes its source. */
  lemma {:induction false} NothingRelevantIsLost(
    a: Alphabet, sources: seq<SourceMemory>, source: SourceMemory, sentence: string)
    requires source in sources && sentence in Sentences(a, source.content) && Relevance(a, sentence).Some?
    ensures IsRepresented(a, Extracted(a, sources), source, sentence)
  {
    var n := |sources| - 1;
    var rest, last := sources[..n], sources[n];
    assert sources == rest + [last];
    if source == last {
      AbsorbAllRepresents(a, Extracted(a, rest), source, Sentences(a, source.content), sentence);
    } else {
      NothingRelevantIsLost(a, rest, source, sentence);
      AbsorbAllKeepsRepresented(a, Extracted(a, rest), last, Sentences(a, last.content), source, sentence);
    }
  }

  lemma {:induction false} AbsorbAllRepresents(
    a: Alphabet, claims: seq<Candidate>, source: SourceMemory, sentences: seq<string>, sentence: string)
    requires sentence in sentences && Relevance(a, sentence).Some?
    ensures IsRepresented(a, AbsorbAll(a, claims, source, sentences), source, sentence)
  {
    hide IsRepresented, Relevance, Absorb;
    var n := |sentences| - 1;
    var before := AbsorbAll(a, claims, source, sentences[..n]);
    if sentence == sentences[n] {
      AbsorbRepresents(a, before, source, sentence);
    } else {
      AbsorbAllRepresents(a, claims, source, sentences[..n], sentence);
      AbsorbKeepsRepresented(a, before, source, sentences[n], source, sentence);
    }
  }

  lemma {:induction false} AbsorbAllKeepsRepresented(
    a: Alphabet, claims: seq<Candidate>, from: SourceMemory, sentences: seq<string>,
    source: SourceMemory, sentence: string)
    requires IsRepresented(a, claims, source, sentence)
    ensures IsRepresented(a, AbsorbAll(a, claims, from, sentences), source, sentence)
  {
    hide IsRepresented, Absorb;
    if sentences != [] {
      var n := |sentences| - 1;
      AbsorbAllKeepsRepresented(a, claims, from, sentences[..n], source, sentence);
      AbsorbKeepsRepresented(a, AbsorbAll(a, claims, from, sentences[..n]), from, sentences[n], source, sentence);
    }
  }

  lemma AbsorbRepresents(a: Alphabet, claims: seq<Candidate>, source: SourceMemory, sentence: string)
    requires Relevance(a, sentence).Some?
    ensures IsRepresented(a, Absorb(a, claims, source, sentence), source, sentence)
  {
    var after := Absorb(a, claims, source, sentence);
    var i := IndexOf(a, claims, Canonical(a, sentence));
    var evidence := EvidenceOf(source, sentence);
    assert QuotesSource(after[i].evidence, source.id) by {
      if evidence !in after[i].evidence {
        assert QuotesSource(claims[i].evidence, source.id);
      }
    }
    assert after[i] in after;
  }

  lemma AbsorbKeepsRepresented(
    a: Alphabet, claims: seq<Candidate>, from: SourceMemory, next: string, source: SourceMemory, sentence: string)
    requires IsRepresented(a, claims, source, sentence)
    ensures IsRepresented(a, Absorb(a, claims, from, next), source, sentence)
  {
    hide Canonical, QualifiersOf, KindOf, HasValidationCue;
    var claim :| claim in claims && Canonical(a, claim.text) == Canonical(a, sentence)
                 && QuotesSource(claim.evidence, source.id);
    var j :| 0 <= j < |claims| && claims[j] == claim;
    var after := Absorb(a, claims, from, next);
    assert claim.evidence <= after[j].evidence && after[j].text == claim.text;
    var e :| e in claim.evidence && e.sourceId == source.id;
    assert e in after[j].evidence && after[j] in after;
  }
}
