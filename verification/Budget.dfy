/** Rendering and the token budget of
    `crates/surreal-memory/src/compression/gate.rs`. */
module Budget {
  import opened Basics
  import opened Contract
  import opened Text

  // ---------------------------------------------------------------- Rendering

  const SECTIONS: seq<(ClaimKind, string)> := [
    (Constraint, "Constraints"),
    (Decision, "Decisions"),
    (Lesson, "Lessons"),
    (OpenQuestion, "Open questions"),
    (Conflict, "Conflicts"),
    (Fact, "Unconfirmed notes")
  ]

  function Lines(claims: seq<Candidate>, kind: ClaimKind): seq<string> {
    if claims == [] then []
    else
      Lines(claims[..|claims| - 1], kind)
      + if claims[|claims| - 1].kind == kind then [claims[|claims| - 1].text] else []
  }

  function Bullets(lines: seq<string>): string {
    if lines == [] then "" else Bullets(lines[..|lines| - 1]) + "\n- " + lines[|lines| - 1]
  }

  function Section(claims: seq<Candidate>, kind: ClaimKind, title: string): string {
    var lines := Lines(claims, kind);
    if lines == [] then "" else "\n" + title + ":" + Bullets(lines)
  }

  function RenderedUpTo(header: string, claims: seq<Candidate>, n: nat): string
    requires n <= |SECTIONS|
  {
    if n == 0 then header
    else RenderedUpTo(header, claims, n - 1) + Section(claims, SECTIONS[n - 1].0, SECTIONS[n - 1].1)
  }

  function Rendered(header: string, claims: seq<Candidate>): string {
    RenderedUpTo(header, claims, |SECTIONS|)
  }

  /** `render`, given the line it starts with. */
  method Render(header: string, claims: seq<Candidate>) returns (out: string)
    ensures out == Rendered(header, claims)
  {
    out := header;
    for s := 0 to |SECTIONS|
      invariant out == RenderedUpTo(header, claims, s)
    {
      out := RenderSection(out, claims, SECTIONS[s].0, SECTIONS[s].1);
    }
  }

  lemma NoLines(claims: seq<Candidate>, kind: ClaimKind)
    ensures Lines(claims[..0], kind) == [] && Bullets([]) == ""
  {
  }

  lemma NextLine(claims: seq<Candidate>, kind: ClaimKind, i: nat)
    requires i < |claims|
    ensures Lines(claims[..i + 1], kind)
         == Lines(claims[..i], kind) + if claims[i].kind == kind then [claims[i].text] else []
  {
    assert claims[..i + 1][..i] == claims[..i];
  }

  lemma NextBullet(lines: seq<string>, i: nat)
    requires i < |lines|
    ensures Bullets(lines[..i + 1]) == Bullets(lines[..i]) + ("\n- " + lines[i])
  {
    assert lines[..i + 1][..i] == lines[..i];
  }

  method RenderSection(before: string, claims: seq<Candidate>, kind: ClaimKind, title: string) returns (out: string)
    ensures out == before + Section(claims, kind, title)
  {
    hide Lines, Bullets;
    var lines := [];
    NoLines(claims, kind);
    for i := 0 to |claims|
      invariant lines == Lines(claims[..i], kind)
    {
      NextLine(claims, kind, i);
      if claims[i].kind == kind {
        lines := lines + [claims[i].text];
      }
    }
    assert claims[..|claims|] == claims;
    if lines == [] {
      return before;
    }
    out := before + ("\n" + title + ":");
    for i := 0 to |lines|
      invariant out == before + ("\n" + title + ":") + Bullets(lines[..i])
    {
      NextBullet(lines, i);
      out := out + ("\n- " + lines[i]);
    }
    assert lines[..|lines|] == lines;
  }

  // ------------------------------------------------- What a rendering shows

  /** The texts of the claims of one kind, in order, each as a bullet. */
  function Bulleted(claims: seq<Candidate>, kind: ClaimKind): string {
    if claims == [] then ""
    else (if claims[0].kind == kind then "\n- " + claims[0].text else "") + Bulleted(claims[1..], kind)
  }

  /** A title and the claims of its kind, if there are any. */
  function Titled(claims: seq<Candidate>, kind: ClaimKind, title: string): string {
    if Bulleted(claims, kind) == "" then "" else "\n" + title + ":" + Bulleted(claims, kind)
  }

  lemma {:induction false} BulletedNext(claims: seq<Candidate>, last: Candidate, kind: ClaimKind)
    ensures Bulleted(claims + [last], kind)
         == Bulleted(claims, kind) + if last.kind == kind then "\n- " + last.text else ""
  {
    if claims == [] {
      assert claims + [last] == [last] && [last][1..] == [];
    } else {
      BulletedNext(claims[1..], last, kind);
      assert (claims + [last])[1..] == claims[1..] + [last];
    }
  }

  lemma {:induction false} BulletsAreBulleted(claims: seq<Candidate>, kind: ClaimKind)
    ensures Bullets(Lines(claims, kind)) == Bulleted(claims, kind)
    ensures Lines(claims, kind) == [] <==> Bulleted(claims, kind) == ""
  {
    if claims != [] {
      var n := |claims| - 1;
      BulletsAreBulleted(claims[..n], kind);
      BulletedNext(claims[..n], claims[n], kind);
      assert claims == claims[..n] + [claims[n]];
      var lines := Lines(claims[..n], kind);
      assert lines + [] == lines && (lines + [claims[n].text])[..|lines|] == lines;
      assert Bullets(lines) + "\n- " + claims[n].text == Bullets(lines) + ("\n- " + claims[n].text);
      assert Bulleted(claims[..n], kind) + "" == Bulleted(claims[..n], kind);
    }
  }

  lemma SectionIsTitled(claims: seq<Candidate>, kind: ClaimKind, title: string)
    ensures Section(claims, kind, title) == Titled(claims, kind, title)
  {
    BulletsAreBulleted(claims, kind);
  }

  /** A rendering shows the header and every claim, in order, under the title of its kind. */
  lemma RenderedShowsAll(header: string, claims: seq<Candidate>)
    ensures Rendered(header, claims)
         == header
            + Titled(claims, Constraint, "Constraints")
            + Titled(claims, Decision, "Decisions")
            + Titled(claims, Lesson, "Lessons")
            + Titled(claims, OpenQuestion, "Open questions")
            + Titled(claims, Conflict, "Conflicts")
            + Titled(claims, Fact, "Unconfirmed notes")
  {
    hide Section, Titled;
    SectionIsTitled(claims, Constraint, "Constraints");
    SectionIsTitled(claims, Decision, "Decisions");
    SectionIsTitled(claims, Lesson, "Lessons");
    SectionIsTitled(claims, OpenQuestion, "Open questions");
    SectionIsTitled(claims, Conflict, "Conflicts");
    SectionIsTitled(claims, Fact, "Unconfirmed notes");
    assert RenderedUpTo(header, claims, 1) == header + Titled(claims, Constraint, "Constraints");
    assert RenderedUpTo(header, claims, 2) == RenderedUpTo(header, claims, 1) + Titled(claims, Decision, "Decisions");
    assert RenderedUpTo(header, claims, 3) == RenderedUpTo(header, claims, 2) + Titled(claims, Lesson, "Lessons");
    assert RenderedUpTo(header, claims, 4)
        == RenderedUpTo(header, claims, 3) + Titled(claims, OpenQuestion, "Open questions");
    assert RenderedUpTo(header, claims, 5) == RenderedUpTo(header, claims, 4) + Titled(claims, Conflict, "Conflicts");
    assert RenderedUpTo(header, claims, 6)
        == RenderedUpTo(header, claims, 5) + Titled(claims, Fact, "Unconfirmed notes");
  }

  // --------------------------------------------------------- What is dropped

  /** Claim `i` is given up before claim `j`: lower priority, or equal and later. */
  predicate Before(claims: seq<Candidate>, i: nat, j: nat) {
    && i < |claims| && j < |claims|
    && var p, q := claims[i].kind.DropPriority(), claims[j].kind.DropPriority();
       p < q || (p == q && i > j)
  }

  predicate Droppable(claims: seq<Candidate>, i: nat) {
    i < |claims| && !claims[i].kind.IsProtected()
  }

  /** `lowest_priority_droppable` */
  function LowestPriorityDroppable(claims: seq<Candidate>): (lowest: Option<nat>)
    ensures lowest.None? <==> forall i :: 0 <= i < |claims| ==> claims[i].kind.IsProtected()
    ensures lowest.Some? ==>
              && Droppable(claims, lowest.value)
              && forall i :: Droppable(claims, i) && i != lowest.value ==> Before(claims, lowest.value, i)
  {
    if claims == [] then None
    else
      var last := |claims| - 1;
      var earlier := LowestPriorityDroppable(claims[..last]);
      assert forall i :: 0 <= i < last ==> claims[..last][i] == claims[i];
      assert forall i: nat :: i < last && Droppable(claims, i) ==> Droppable(claims[..last], i);
      if claims[last].kind.IsProtected() then earlier
      else if earlier.None? || claims[last].kind.DropPriority() <= claims[earlier.value].kind.DropPriority() then Some(last)
      else earlier
  }

  /** `dropped` lists droppable claims in drop order and skips none. */
  ghost predicate IsDropPrefix(claims: seq<Candidate>, dropped: seq<nat>) {
    && (forall m :: 0 <= m < |dropped| ==> Droppable(claims, dropped[m]))
    && (forall m, n :: 0 <= m < n < |dropped| ==> Before(claims, dropped[m], dropped[n]))
    && (forall i, m :: Droppable(claims, i) && i !in dropped && 0 <= m < |dropped| ==> Before(claims, dropped[m], i))
  }

  /** The positions below `n` that were not dropped, in order. */
  function KeptBelow(n: nat, dropped: seq<nat>): seq<nat> {
    if n == 0 then [] else KeptBelow(n - 1, dropped) + if n - 1 in dropped then [] else [n - 1]
  }

  function Pick(claims: seq<Candidate>, positions: seq<nat>): seq<Candidate>
    requires forall k :: 0 <= k < |positions| ==> positions[k] < |claims|
  {
    seq(|positions|, i requires 0 <= i < |positions| => claims[positions[i]])
  }

  lemma {:induction false} KeptBelowIs(n: nat, dropped: seq<nat>)
    ensures forall i :: i in KeptBelow(n, dropped) <==> 0 <= i < n && i !in dropped
    ensures forall p :: 0 <= p < |KeptBelow(n, dropped)| ==> KeptBelow(n, dropped)[p] < n
    ensures forall p, q :: 0 <= p < q < |KeptBelow(n, dropped)| ==> KeptBelow(n, dropped)[p] < KeptBelow(n, dropped)[q]
  {
    if n > 0 {
      KeptBelowIs(n - 1, dropped);
    }
  }

  /** The first `n` claims without the dropped ones. */
  function KeptOf(claims: seq<Candidate>, dropped: seq<nat>, n: nat): seq<Candidate>
    requires n <= |claims|
  {
    KeptBelowIs(n, dropped);
    Pick(claims, KeptBelow(n, dropped))
  }

  function Kept(claims: seq<Candidate>, dropped: seq<nat>): seq<Candidate> {
    KeptOf(claims, dropped, |claims|)
  }

  lemma KeptOfOneMore(claims: seq<Candidate>, dropped: seq<nat>, n: nat)
    requires 0 < n <= |claims|
    ensures KeptOf(claims, dropped, n)
         == KeptOf(claims, dropped, n - 1) + if n - 1 in dropped then [] else [claims[n - 1]]
  {
    KeptBelowIs(n, dropped);
    KeptBelowIs(n - 1, dropped);
  }

  predicate Fits(header: string, maxTokens: nat, claims: seq<Candidate>) {
    EstimateTokens(Rendered(header, claims)) <= maxTokens
  }

  /** The claims that are never dropped. */
  function Protected(claims: seq<Candidate>): seq<Candidate> {
    if claims == [] then []
    else
      Protected(claims[..|claims| - 1])
      + if claims[|claims| - 1].kind.IsProtected() then [claims[|claims| - 1]] else []
  }

  /** `dropped` is the shortest beginning of the drop order after which the rest fits. */
  ghost predicate IsFirstFit(header: string, maxTokens: nat, claims: seq<Candidate>, dropped: seq<nat>) {
    && IsDropPrefix(claims, dropped)
    && Fits(header, maxTokens, Kept(claims, dropped))
    && forall m :: 0 <= m < |dropped| ==> !Fits(header, maxTokens, Kept(claims, dropped[..m]))
  }

  /** What is given up and in which order, by kind: facts first, then lessons, then
      decisions, the latest of a kind before the earlier ones, and nothing else ever. */
  lemma GivenUpByKind(claims: seq<Candidate>, dropped: seq<nat>, m: nat, j: nat)
    requires IsDropPrefix(claims, dropped) && m < |dropped| && j < |claims|
    requires j !in dropped[..m + 1]
    ensures dropped[m] < |claims|
    ensures var given, kept := claims[dropped[m]].kind, claims[j].kind;
            && (given.Fact? || given.Lesson? || given.Decision?)
            && (kept.Fact? ==> given.Fact?)
            && (kept.Lesson? ==> given.Fact? || given.Lesson?)
            && (kept == given ==> j < dropped[m])
  {
    assert Droppable(claims, dropped[m]);
    if Droppable(claims, j) {
      assert j in dropped ==> exists n :: m < n < |dropped| && dropped[n] == j;
    }
  }

  // ------------------------------------------------------------ The drop loop

  datatype Outcome =
    | Within(claims: seq<Candidate>, dropped: seq<string>, rendered: string)
    | OverBudget(tokens: nat)

  ghost predicate IsOutcome(header: string, maxTokens: nat, claims: seq<Candidate>, outcome: Outcome) {
    match outcome
    case Within(kept, texts, rendered) =>
      exists dropped :: WithinBy(header, maxTokens, claims, dropped, kept, texts, rendered)
    case OverBudget(tokens) =>
      && !Fits(header, maxTokens, Protected(claims))
      && tokens == EstimateTokens(Rendered(header, Protected(claims)))
  }

  ghost predicate WithinBy(
    header: string, maxTokens: nat, claims: seq<Candidate>, dropped: seq<nat>,
    kept: seq<Candidate>, texts: seq<string>, rendered: string)
  {
    && IsFirstFit(header, maxTokens, claims, dropped)
    && kept == Kept(claims, dropped)
    && |texts| == |dropped| && (forall m :: 0 <= m < |dropped| ==> texts[m] == claims[dropped[m]].text)
    && rendered == Rendered(header, kept)
  }

  /** The budget loop of `run`: render, and give up one claim at a time. */
  method DropToFit(header: string, maxTokens: nat, accepted: seq<Candidate>) returns (outcome: Outcome)
    ensures IsOutcome(header, maxTokens, accepted, outcome)
    ensures outcome.OverBudget? <==> !Fits(header, maxTokens, Protected(accepted))
  {
    hide Rendered, EstimateTokens;
    var claims := accepted;
    var texts: seq<string> := [];
    ghost var dropped: seq<nat> := [];
    KeepAll(accepted);
    var rendered := Render(header, claims);
    while EstimateTokens(rendered) > maxTokens
      invariant IsDropPrefix(accepted, dropped) && claims == Kept(accepted, dropped)
      invariant forall m :: 0 <= m < |dropped| ==> !Fits(header, maxTokens, Kept(accepted, dropped[..m]))
      invariant |texts| == |dropped| && forall m :: 0 <= m < |dropped| ==> texts[m] == accepted[dropped[m]].text
      invariant rendered == Rendered(header, claims)
      decreases |claims|
    {
      var position := LowestPriorityDroppable(claims);
      if position.None? {
        NothingLeftToDrop(accepted, dropped);
        return OverBudget(EstimateTokens(rendered));
      }
      ghost var original := KeptBelow(|accepted|, dropped)[position.value];
      DropOne(accepted, dropped, position.value);
      assert forall m :: 0 <= m <= |dropped| ==> (dropped + [original])[..m] == dropped[..m];
      assert dropped[..|dropped|] == dropped;
      texts := texts + [claims[position.value].text];
      dropped := dropped + [original];
      claims := claims[..position.value] + claims[position.value + 1..];
      rendered := Render(header, claims);
    }
    ProtectedFitsToo(header, maxTokens, accepted, dropped);
    assert WithinBy(header, maxTokens, accepted, dropped, claims, texts, rendered);
    outcome := Within(claims, texts, rendered);
  }

  lemma {:induction false} KeptBelowNothingDropped(n: nat)
    ensures KeptBelow(n, []) == seq(n, i => i)
  {
    if n > 0 {
      KeptBelowNothingDropped(n - 1);
    }
  }

  lemma KeepAll(claims: seq<Candidate>)
    ensures Kept(claims, []) == claims
  {
    KeptBelowNothingDropped(|claims|);
  }

  lemma {:induction false} KeptBelowOneFewer(n: nat, dropped: seq<nat>, p: nat)
    requires p < |KeptBelow(n, dropped)|
    ensures var kept := KeptBelow(n, dropped);
            KeptBelow(n, dropped + [kept[p]]) == kept[..p] + kept[p + 1..]
  {
    hide KeptBelow;
    var kept := KeptBelow(n, dropped);
    var fewer := if n == 0 then [] else KeptBelow(n - 1, dropped);
    KeptBelowUnfolds(n, dropped);
    KeptBelowUnfolds(n, dropped + [kept[p]]);
    if p < |fewer| {
      KeptIsBelow(n - 1, dropped, p);
      KeptBelowOneFewer(n - 1, dropped, p);
      Without(fewer, if n - 1 in dropped then [] else [n - 1], p);
    } else {
      KeptBelowIgnores(n - 1, dropped, n - 1);
      assert kept[..p] == fewer && kept[p + 1..] == [];
    }
  }

  lemma KeptBelowUnfolds(n: nat, dropped: seq<nat>)
    ensures KeptBelow(n, dropped)
         == if n == 0 then [] else KeptBelow(n - 1, dropped) + if n - 1 in dropped then [] else [n - 1]
  {
  }

  lemma KeptIsBelow(n: nat, dropped: seq<nat>, p: nat)
    requires p < |KeptBelow(n, dropped)|
    ensures KeptBelow(n, dropped)[p] < n
  {
    KeptBelowIs(n, dropped);
  }

  lemma Without<T>(front: seq<T>, rest: seq<T>, p: nat)
    requires p < |front|
    ensures (front + rest)[..p] + (front + rest)[p + 1..] == front[..p] + front[p + 1..] + rest
    ensures (front + rest)[p] == front[p]
  {
  }

  lemma {:induction false} KeptBelowIgnores(n: nat, dropped: seq<nat>, i: nat)
    requires n <= i
    ensures KeptBelow(n, dropped + [i]) == KeptBelow(n, dropped)
  {
    if n > 0 {
      KeptBelowIgnores(n - 1, dropped, i);
    }
  }

  lemma DropOne(claims: seq<Candidate>, dropped: seq<nat>, p: nat)
    requires IsDropPrefix(claims, dropped)
    requires LowestPriorityDroppable(Kept(claims, dropped)) == Some(p)
    ensures p < |KeptBelow(|claims|, dropped)|
    ensures var original := KeptBelow(|claims|, dropped)[p];
            && original < |claims| && Kept(claims, dropped)[p] == claims[original]
            && IsDropPrefix(claims, dropped + [original])
            && Kept(claims, dropped + [original]) == Kept(claims, dropped)[..p] + Kept(claims, dropped)[p + 1..]
  {
    KeptBelowIs(|claims|, dropped);
    NextInOrder(claims, dropped, p);
    KeptWithout(claims, dropped, p);
  }

  lemma KeptWithout(claims: seq<Candidate>, dropped: seq<nat>, p: nat)
    requires p < |KeptBelow(|claims|, dropped)|
    ensures Kept(claims, dropped + [KeptBelow(|claims|, dropped)[p]])
         == Kept(claims, dropped)[..p] + Kept(claims, dropped)[p + 1..]
  {
    var kept := KeptBelow(|claims|, dropped);
    KeptBelowIs(|claims|, dropped);
    KeptBelowOneFewer(|claims|, dropped, p);
    PickWithout(claims, kept, p);
  }

  lemma PickWithout(claims: seq<Candidate>, positions: seq<nat>, p: nat)
    requires forall k :: 0 <= k < |positions| ==> positions[k] < |claims|
    requires p < |positions|
    ensures Pick(claims, positions[..p] + positions[p + 1..])
         == Pick(claims, positions)[..p] + Pick(claims, positions)[p + 1..]
  {
  }

  lemma NextInOrder(claims: seq<Candidate>, dropped: seq<nat>, p: nat)
    requires IsDropPrefix(claims, dropped)
    requires LowestPriorityDroppable(Kept(claims, dropped)) == Some(p)
    requires p < |KeptBelow(|claims|, dropped)|
    ensures KeptBelow(|claims|, dropped)[p] < |claims|
    ensures IsDropPrefix(claims, dropped + [KeptBelow(|claims|, dropped)[p]])
  {
    var kept := KeptBelow(|claims|, dropped);
    var original := kept[p];
    KeptBelowIs(|claims|, dropped);
    assert original in kept;
    forall i | Droppable(claims, i) && i !in dropped && i != original ensures Before(claims, original, i) {
      assert i in kept;
      var q :| 0 <= q < |kept| && kept[q] == i;
      assert Droppable(Kept(claims, dropped), q);
    }
  }

  /** The parts of the drop order are determined: of two beginnings, one continues the other. */
  lemma {:induction false} DropOrderIsUnique(claims: seq<Candidate>, a: seq<nat>, b: seq<nat>, m: nat)
    requires IsDropPrefix(claims, a) && IsDropPrefix(claims, b) && m < |a| && m < |b|
    ensures a[m] == b[m]
  {
    forall k | 0 <= k < m ensures a[k] == b[k] {
      DropOrderIsUnique(claims, a, b, k);
    }
    if a[m] != b[m] {
      NotBefore(claims, a, b, m);
      NotBefore(claims, b, a, m);
      assert false;
    }
  }

  lemma NotBefore(claims: seq<Candidate>, a: seq<nat>, b: seq<nat>, m: nat)
    requires IsDropPrefix(claims, a) && IsDropPrefix(claims, b) && m < |a| && m < |b|
    requires forall k :: 0 <= k < m ==> a[k] == b[k]
    ensures a[m] == b[m] || Before(claims, b[m], a[m])
  {
    if a[m] in b {
      var k :| 0 <= k < |b| && b[k] == a[m];
      assert k < m ==> Before(claims, a[k], a[m]);
    }
  }

  /** Which claims are dropped is a function of the claims and the budget alone. */
  lemma FirstFitIsUnique(header: string, maxTokens: nat, claims: seq<Candidate>, a: seq<nat>, b: seq<nat>)
    requires IsFirstFit(header, maxTokens, claims, a) && IsFirstFit(header, maxTokens, claims, b)
    ensures a == b
  {
    if |a| < |b| {
      FitIsNoShorter(header, maxTokens, claims, a, b);
    } else if |b| < |a| {
      FitIsNoShorter(header, maxTokens, claims, b, a);
    }
    forall m | 0 <= m < |a| && m < |b| ensures a[m] == b[m] {
      DropOrderIsUnique(claims, a, b, m);
    }
  }

  lemma FitIsNoShorter(header: string, maxTokens: nat, claims: seq<Candidate>, a: seq<nat>, b: seq<nat>)
    requires IsFirstFit(header, maxTokens, claims, a) && IsFirstFit(header, maxTokens, claims, b)
    ensures |a| >= |b|
  {
    forall m | 0 <= m < |a| && m < |b| ensures a[m] == b[m] {
      DropOrderIsUnique(claims, a, b, m);
    }
    assert |a| <= |b| ==> b[..|a|] == a;
  }

  /** No protected claim is ever dropped, and every claim is either kept or dropped. */
  lemma DroppedAreUnprotected(header: string, maxTokens: nat, claims: seq<Candidate>, dropped: seq<nat>, i: nat)
    requires IsFirstFit(header, maxTokens, claims, dropped) && i < |claims|
    ensures claims[i].kind.IsProtected() ==> i !in dropped
    ensures i !in dropped ==> claims[i] in Kept(claims, dropped)
  {
    KeptBelowIs(|claims|, dropped);
    if i !in dropped {
      var kept := KeptBelow(|claims|, dropped);
      var p :| 0 <= p < |kept| && kept[p] == i;
      assert Kept(claims, dropped)[p] == claims[i];
    }
  }

  // ---------------------------------------------------------- Protected alone

  lemma NothingLeftToDrop(claims: seq<Candidate>, dropped: seq<nat>)
    requires IsDropPrefix(claims, dropped)
    requires LowestPriorityDroppable(Kept(claims, dropped)).None?
    ensures Kept(claims, dropped) == Protected(claims)
  {
    KeptBelowIs(|claims|, dropped);
    forall i | 0 <= i < |claims| ensures i in dropped <==> !claims[i].kind.IsProtected() {
      if i !in dropped {
        var kept := KeptBelow(|claims|, dropped);
        var p :| 0 <= p < |kept| && kept[p] == i;
        assert Kept(claims, dropped)[p] == claims[i];
      }
    }
    KeptIsProtected(claims, dropped, |claims|);
    assert claims[..|claims|] == claims;
  }

  lemma {:induction false} KeptIsProtected(claims: seq<Candidate>, dropped: seq<nat>, n: nat)
    requires n <= |claims|
    requires forall i :: 0 <= i < |claims| ==> (i in dropped <==> !claims[i].kind.IsProtected())
    ensures KeptOf(claims, dropped, n) == Protected(claims[..n])
  {
    if n > 0 {
      KeptOfOneMore(claims, dropped, n);
      KeptIsProtected(claims, dropped, n - 1);
      assert claims[..n][..n - 1] == claims[..n - 1];
    }
  }

  /** Dropping claims never makes the rendering longer, so when the protected claims
      alone do not fit, nothing does. */
  lemma ProtectedFitsToo(header: string, maxTokens: nat, claims: seq<Candidate>, dropped: seq<nat>)
    requires IsDropPrefix(claims, dropped) && Fits(header, maxTokens, Kept(claims, dropped))
    ensures Fits(header, maxTokens, Protected(claims))
  {
    KeptBelowIs(|claims|, dropped);
    assert claims[..|claims|] == claims;
    forall kind ensures SectionShorter(Protected(claims), Kept(claims, dropped), kind) {
      ProtectedLinesShorter(claims, dropped, |claims|, kind);
    }
    RenderedShorter(header, Protected(claims), Kept(claims, dropped), |SECTIONS|);
  }

  ghost predicate SectionShorter(a: seq<Candidate>, b: seq<Candidate>, kind: ClaimKind) {
    && (Lines(a, kind) != [] ==> Lines(b, kind) != [])
    && Bytes(Bullets(Lines(a, kind))) <= Bytes(Bullets(Lines(b, kind)))
  }

  lemma {:induction false} ProtectedLinesShorter(claims: seq<Candidate>, dropped: seq<nat>, n: nat, kind: ClaimKind)
    requires n <= |claims|
    requires IsDropPrefix(claims, dropped)
    ensures SectionShorter(Protected(claims[..n]), KeptOf(claims, dropped, n), kind)
  {
    if n > 0 {
      KeptOfOneMore(claims, dropped, n);
      ProtectedLinesShorter(claims, dropped, n - 1, kind);
      assert claims[..n][..n - 1] == claims[..n - 1];
      OneMoreClaim(
        Protected(claims[..n - 1]), KeptOf(claims, dropped, n - 1), claims[n - 1], kind,
        claims[n - 1].kind.IsProtected(), n - 1 !in dropped);
    }
  }

  lemma OneMoreClaim(
    a: seq<Candidate>, b: seq<Candidate>, claim: Candidate, kind: ClaimKind, inA: bool, inB: bool)
    requires SectionShorter(a, b, kind) && (inA ==> inB)
    ensures SectionShorter(a + if inA then [claim] else [], b + if inB then [claim] else [], kind)
  {
    OneMoreLine(a, claim, kind);
    OneMoreLine(b, claim, kind);
    assert a + [] == a && b + [] == b;
  }

  lemma OneMoreLine(claims: seq<Candidate>, claim: Candidate, kind: ClaimKind)
    ensures Lines(claims + [claim], kind) == Lines(claims, kind) + if claim.kind == kind then [claim.text] else []
    ensures Bytes(Bullets(Lines(claims + [claim], kind)))
         == Bytes(Bullets(Lines(claims, kind))) + if claim.kind == kind then Bytes("\n- ") + Bytes(claim.text) else 0
  {
    assert (claims + [claim])[..|claims|] == claims;
    var lines := Lines(claims, kind);
    if claim.kind == kind {
      assert (lines + [claim.text])[..|lines|] == lines;
      BytesOfConcat(Bullets(lines), "\n- ");
      BytesOfConcat(Bullets(lines) + "\n- ", claim.text);
    } else {
      assert lines + [] == lines;
    }
  }

  lemma {:induction false} RenderedShorter(header: string, a: seq<Candidate>, b: seq<Candidate>, n: nat)
    requires n <= |SECTIONS|
    requires forall kind :: SectionShorter(a, b, kind)
    ensures Bytes(RenderedUpTo(header, a, n)) <= Bytes(RenderedUpTo(header, b, n))
  {
    if n > 0 {
      RenderedShorter(header, a, b, n - 1);
      var (kind, title) := SECTIONS[n - 1];
      assert SectionShorter(a, b, kind);
      BytesOfConcat(RenderedUpTo(header, a, n - 1), Section(a, kind, title));
      BytesOfConcat(RenderedUpTo(header, b, n - 1), Section(b, kind, title));
      BytesOfConcat("\n" + title + ":", Bullets(Lines(a, kind)));
      BytesOfConcat("\n" + title + ":", Bullets(Lines(b, kind)));
    }
  }
}
