/** The token-window planner, written twice in the repository: in Rust
    (`plan_token_windows`, `crates/surreal-memory/src/embeddings/candle.rs`) and in
    Swift (`EmbeddingPlanner.plan`, `executors/mlx/.../Planner.swift`).

    The tokenizer is any pair of partial functions. `IsPlan` says which sequence of
    parts is a plan without saying how to find it; both loops are proved to return
    it exactly when there is one. */
module Planner {
  import opened Basics

  type Token = t: int | 0 <= t < 0x1_0000_0000

  type Byte = b: int | 0 <= b < 0x100

  /** `encode(text, addSpecialTokens)`; `digest` is the hex SHA-256 of bytes. */
  datatype Tokenizer = Tokenizer(
    encode: (string, bool) -> Option<seq<Token>>,
    decode: seq<Token> -> Option<string>,
    digest: seq<Byte> -> string
  )

  datatype PlanPart = PlanPart(
    partIndex: nat,
    tokenStart: nat,
    tokenEnd: nat,
    tokenCount: nat,
    tokenHash: string,
    content: string
  )

  datatype PlanError = TokenizationFailed | NoContentCapacity | DecodeFailed | UnsafeWindow

  type PlanResult = Result<seq<PlanPart>, PlanError>

  const OVERLAP: nat := 32

  function Min(a: int, b: int): int {
    if a < b then a else b
  }

  // ------------------------------------------------------------ Part hashes

  function LittleEndian(id: Token): seq<Byte> {
    [id % 0x100, id / 0x100 % 0x100, id / 0x1_0000 % 0x100, id / 0x100_0000]
  }

  function TokenBytes(ids: seq<Token>): seq<Byte> {
    if ids == [] then [] else TokenBytes(ids[..|ids| - 1]) + LittleEndian(ids[|ids| - 1])
  }

  function Part(t: Tokenizer, ids: seq<Token>, index: nat, start: nat, end: nat, content: string): PlanPart
    requires start <= end <= |ids|
  {
    PlanPart(index, start, end, end - start, t.digest(TokenBytes(ids[start..end])), content)
  }

  method MakePart(t: Tokenizer, ids: seq<Token>, index: nat, start: nat, end: nat, content: string)
    returns (part: PlanPart)
    requires start <= end <= |ids|
    ensures part == Part(t, ids, index, start, end, content)
  {
    var window := ids[start..end];
    var bytes := [];
    for i := 0 to |window|
      invariant bytes == TokenBytes(window[..i])
    {
      assert window[..i + 1][..i] == window[..i];
      bytes := bytes + LittleEndian(window[i]);
    }
    assert window[..|window|] == window;
    part := PlanPart(index, start, end, if end < start then 0 else end - start, t.digest(bytes), content);
  }

  lemma LittleEndianIsInjective(a: Token, b: Token)
    requires LittleEndian(a) == LittleEndian(b)
    ensures a == b
  {
    FromLittleEndian(a);
    FromLittleEndian(b);
  }

  lemma FromLittleEndian(id: Token)
    ensures var b0: int, b1: int, b2: int, b3: int :=
              LittleEndian(id)[0], LittleEndian(id)[1], LittleEndian(id)[2], LittleEndian(id)[3];
            id == b0 + 0x100 * b1 + 0x1_0000 * b2 + 0x100_0000 * b3
  {
    assert id / 0x1_0000 == id / 0x100 / 0x100;
    assert id / 0x100_0000 == id / 0x1_0000 / 0x100;
  }

  /** Different windows of tokens have different bytes, so comparing hashes compares windows. */
  lemma {:induction false} TokenBytesAreInjective(a: seq<Token>, b: seq<Token>)
    requires TokenBytes(a) == TokenBytes(b)
    ensures a == b
  {
    TokenBytesLength(a);
    TokenBytesLength(b);
    if a != [] {
      var n := |a| - 1;
      var bytesA, bytesB := TokenBytes(a[..n]), TokenBytes(b[..n]);
      TokenBytesLength(a[..n]);
      TokenBytesLength(b[..n]);
      assert TokenBytes(a)[..4 * n] == bytesA && TokenBytes(b)[..4 * n] == bytesB;
      assert TokenBytes(a)[4 * n..] == LittleEndian(a[n]) && TokenBytes(b)[4 * n..] == LittleEndian(b[n]);
      TokenBytesAreInjective(a[..n], b[..n]);
      LittleEndianIsInjective(a[n], b[n]);
      assert a == a[..n] + [a[n]] && b == b[..n] + [b[n]];
    }
  }

  lemma {:induction false} TokenBytesLength(ids: seq<Token>)
    ensures |TokenBytes(ids)| == 4 * |ids|
  {
    if ids != [] {
      TokenBytesLength(ids[..|ids| - 1]);
    }
  }

  // ------------------------------------------------------------ What a plan is

  /** The parameters a planner derives before it looks at any window. */
  datatype Sizes = Sizes(special: nat, usable: nat, step: nat)

  function SizesFor(maxInputTokens: nat, special: nat): Sizes
    requires special < maxInputTokens
  {
    var usable := maxInputTokens - special;
    Sizes(special, usable, usable - Min(OVERLAP, usable - 1))
  }

  /** ids[start..end] can be decoded and the text encoded again. */
  predicate Reencodes(t: Tokenizer, ids: seq<Token>, start: nat, end: nat)
    requires start <= end <= |ids|
  {
    && t.decode(ids[start..end]).Some?
    && t.encode(t.decode(ids[start..end]).value, true).Some?
  }

  predicate FitsWindow(t: Tokenizer, ids: seq<Token>, maxInputTokens: nat, start: nat, end: nat)
    requires start <= end <= |ids| && Reencodes(t, ids, start, end)
  {
    |t.encode(t.decode(ids[start..end]).value, true).value| <= maxInputTokens
  }

  /** `end` is the largest end up to `limit` whose window fits; every larger one
      was tried and was too long. */
  ghost predicate IsWindow(t: Tokenizer, ids: seq<Token>, maxInputTokens: nat, start: nat, limit: nat, end: nat)
    requires limit <= |ids|
  {
    && start < end <= limit
    && (forall e :: end <= e <= limit ==> Reencodes(t, ids, start, e))
    && (forall e :: end < e <= limit ==> !FitsWindow(t, ids, maxInputTokens, start, e))
    && FitsWindow(t, ids, maxInputTokens, start, end)
  }

  function Limit(sizes: Sizes, ids: seq<Token>, start: nat): nat {
    Min(start + sizes.usable, |ids|)
  }

  function NextStart(sizes: Sizes, part: PlanPart): nat {
    Min(part.tokenStart + sizes.step, part.tokenEnd)
  }

  /** `part` is the `i`-th part and its window is the one that starts there. */
  ghost predicate IsPart(t: Tokenizer, ids: seq<Token>, maxInputTokens: nat, sizes: Sizes, i: nat, part: PlanPart) {
    && part.tokenStart < |ids|
    && IsWindow(t, ids, maxInputTokens, part.tokenStart, Limit(sizes, ids, part.tokenStart), part.tokenEnd)
    && Reencodes(t, ids, part.tokenStart, part.tokenEnd)
    && part == Part(t, ids, i, part.tokenStart, part.tokenEnd, t.decode(ids[part.tokenStart..part.tokenEnd]).value)
  }

  /** The beginning of a windowed plan, up to where the next part starts. */
  ghost predicate IsPrefix(t: Tokenizer, ids: seq<Token>, maxInputTokens: nat, sizes: Sizes, parts: seq<PlanPart>) {
    && (forall i :: 0 <= i < |parts| ==> IsPart(t, ids, maxInputTokens, sizes, i, parts[i]))
    && (parts != [] ==> parts[0].tokenStart == 0)
    && (forall i, j :: 0 <= i && j == i + 1 && j < |parts| ==> Chains(ids, sizes, parts[i], parts[j]))
  }

  predicate Chains(ids: seq<Token>, sizes: Sizes, part: PlanPart, next: PlanPart) {
    part.tokenEnd < |ids| && next.tokenStart == NextStart(sizes, part)
  }

  /** `parts` is the plan of `text` for a model of capacity `maxInputTokens`. */
  ghost predicate IsPlan(t: Tokenizer, maxInputTokens: nat, text: string, parts: seq<PlanPart>) {
    && t.encode("", true).Some?
    && |t.encode("", true).value| < maxInputTokens
    && t.encode(text, false).Some?
    && var sizes := SizesFor(maxInputTokens, |t.encode("", true).value|);
       var ids := t.encode(text, false).value;
       if |ids| + sizes.special <= maxInputTokens then
         parts == [Part(t, ids, 0, 0, |ids|, text)]
       else
         && IsPrefix(t, ids, maxInputTokens, sizes, parts)
         && parts != []
         && parts[|parts| - 1].tokenEnd == |ids|
  }

  /** A result a planner may return: the plan, or an error when there is none. */
  ghost predicate IsOutcome(t: Tokenizer, maxInputTokens: nat, text: string, r: PlanResult) {
    match r
    case Ok(parts) => IsPlan(t, maxInputTokens, text, parts)
    case Err(error) =>
      && (forall parts :: !IsPlan(t, maxInputTokens, text, parts))
      && (error.NoContentCapacity? <==>
            t.encode("", true).Some? && |t.encode("", true).value| >= maxInputTokens)
  }

  // ---------------------------------------------------------- The two loops

  /** What is settled before the first window: the text is too long for one part. */
  ghost predicate IsWindowed(t: Tokenizer, maxInputTokens: nat, text: string, ids: seq<Token>, sizes: Sizes) {
    && t.encode("", true).Some?
    && |t.encode("", true).value| < maxInputTokens
    && sizes == SizesFor(maxInputTokens, |t.encode("", true).value|)
    && t.encode(text, false) == Some(ids)
    && |ids| + sizes.special > maxInputTokens
  }

  /** The parts so far, and the start the next one must have. */
  ghost predicate IsProgress(
    t: Tokenizer, ids: seq<Token>, maxInputTokens: nat, sizes: Sizes, parts: seq<PlanPart>, start: nat)
  {
    && IsPrefix(t, ids, maxInputTokens, sizes, parts)
    && start < |ids|
    && (if parts == [] then start == 0 else Reaches(ids, sizes, parts, start))
  }

  /** `plan_token_windows` in Rust. */
  method PlanTokenWindows(t: Tokenizer, maxInputTokens: nat, text: string) returns (r: PlanResult)
    ensures IsOutcome(t, maxInputTokens, text, r)
  {
    hide IsShrunk, IsProgress, IsOutcome, IsPlan;
    BeforeWindows(t, maxInputTokens, text);
    var withSpecial := t.encode("", true);
    if withSpecial.None? {
      return Err(TokenizationFailed);
    }
    var special := |withSpecial.value|;
    if special >= maxInputTokens {
      return Err(NoContentCapacity);
    }
    var usable := maxInputTokens - special;
    var source := t.encode(text, false);
    if source.None? {
      return Err(TokenizationFailed);
    }
    var ids := source.value;
    if |ids| + special <= maxInputTokens {
      var only := MakePart(t, ids, 0, 0, |ids|, text);
      return Ok([only]);
    }
    var overlap := Min(OVERLAP, usable - 1);
    var step := usable - overlap;
    ghost var sizes := SizesFor(maxInputTokens, special);
    var parts: seq<PlanPart> := [];
    var start := 0;
    StartsProgress(t, ids, maxInputTokens, sizes);
    while start < |ids|
      invariant start < |ids|
      invariant IsProgress(t, ids, maxInputTokens, sizes, parts, start)
      decreases |ids| - start
    {
      var end := Min(start + usable, |ids|);
      var window := ShrinkRust(t, ids, maxInputTokens, start, end);
      if window.Err? {
        WindowFailed(t, maxInputTokens, text, ids, sizes, parts, start, window.error);
        return Err(window.error);
      }
      end := window.value.0;
      WindowAdded(t, maxInputTokens, text, ids, sizes, parts, start, end, window.value.1);
      var part := MakePart(t, ids, |parts|, start, end, window.value.1);
      parts := parts + [part];
      if end == |ids| {
        return Ok(parts);
      }
      start := Min(start + step, end);
    }
    r := Ok(parts);
  }

  /** The inner loop in Rust: decode first, leave when the encoding fits. */
  method ShrinkRust(t: Tokenizer, ids: seq<Token>, maxInputTokens: nat, start: nat, limit: nat)
    returns (window: Result<(nat, string), PlanError>)
    requires start < limit <= |ids|
    ensures IsShrunk(t, ids, maxInputTokens, start, limit, window)
  {
    var end := limit;
    var content := t.decode(ids[start..end]);
    if content.None? {
      NoWindowBelow(t, ids, maxInputTokens, start, end, limit);
      return Err(DecodeFailed);
    }
    while true
      invariant start < end <= limit
      invariant content == t.decode(ids[start..end]) && content.Some?
      invariant IsTried(t, ids, maxInputTokens, start, end, limit)
      decreases end
    {
      var verified := t.encode(content.value, true);
      if verified.None? {
        NoWindowBelow(t, ids, maxInputTokens, start, end, limit);
        return Err(TokenizationFailed);
      }
      if |verified.value| <= maxInputTokens {
        break;
      }
      end := end - 1;
      if end <= start {
        return Err(UnsafeWindow);
      }
      content := t.decode(ids[start..end]);
      if content.None? {
        NoWindowBelow(t, ids, maxInputTokens, start, end, limit);
        return Err(DecodeFailed);
      }
    }
    window := Ok((end, content.value));
  }

  /** `EmbeddingPlanner.plan` in Swift. */
  method SwiftPlan(t: Tokenizer, text: string, maxInputTokens: nat) returns (r: PlanResult)
    ensures IsOutcome(t, maxInputTokens, text, r)
  {
    hide IsShrunk, IsProgress, IsOutcome, IsPlan;
    BeforeWindows(t, maxInputTokens, text);
    var empty := t.encode("", true);
    if empty.None? {
      return Err(TokenizationFailed);
    }
    var usable := maxInputTokens - |empty.value|;
    if !(usable > 0) {
      return Err(NoContentCapacity);
    }
    var encoded := t.encode(text, false);
    if encoded.None? {
      return Err(TokenizationFailed);
    }
    var source := encoded.value;
    if |source| + |empty.value| <= maxInputTokens {
      var only := MakePart(t, source, 0, 0, |source|, text);
      return Ok([only]);
    }
    var overlap := Min(OVERLAP, if usable - 1 < 0 then 0 else usable - 1);
    var step := usable - overlap;
    ghost var sizes := SizesFor(maxInputTokens, |empty.value|);
    var parts: seq<PlanPart> := [];
    var start := 0;
    StartsProgress(t, source, maxInputTokens, sizes);
    while start < |source|
      invariant start < |source|
      invariant IsProgress(t, source, maxInputTokens, sizes, parts, start)
      decreases |source| - start
    {
      var end := Min(start + usable, |source|);
      var window := ShrinkSwift(t, source, maxInputTokens, start, end);
      if window.Err? {
        WindowFailed(t, maxInputTokens, text, source, sizes, parts, start, window.error);
        return Err(window.error);
      }
      end := window.value.0;
      WindowAdded(t, maxInputTokens, text, source, sizes, parts, start, end, window.value.1);
      var part := MakePart(t, source, |parts|, start, end, window.value.1);
      parts := parts + [part];
      if end == |source| {
        return Ok(parts);
      }
      start := Min(start + step, end);
    }
    r := Ok(parts);
  }

  /** The inner loop in Swift: encode in the loop condition, decode again in its body. */
  method ShrinkSwift(t: Tokenizer, source: seq<Token>, maxInputTokens: nat, start: nat, limit: nat)
    returns (window: Result<(nat, string), PlanError>)
    requires start < limit <= |source|
    ensures IsShrunk(t, source, maxInputTokens, start, limit, window)
  {
    var end := limit;
    var content := t.decode(source[start..end]);
    if content.None? {
      NoWindowBelow(t, source, maxInputTokens, start, end, limit);
      return Err(DecodeFailed);
    }
    var encoded := t.encode(content.value, true);
    while encoded.Some? && |encoded.value| > maxInputTokens
      invariant start < end <= limit
      invariant content == t.decode(source[start..end]) && content.Some?
      invariant encoded == t.encode(content.value, true)
      invariant IsTried(t, source, maxInputTokens, start, end, limit)
      decreases end
    {
      end := end - 1;
      if !(end > start) {
        return Err(UnsafeWindow);
      }
      content := t.decode(source[start..end]);
      if content.None? {
        NoWindowBelow(t, source, maxInputTokens, start, end, limit);
        return Err(DecodeFailed);
      }
      encoded := t.encode(content.value, true);
    }
    if encoded.None? {
      NoWindowBelow(t, source, maxInputTokens, start, end, limit);
      return Err(TokenizationFailed);
    }
    window := Ok((end, content.value));
  }

  /** Every end above `end` can be re-encoded and is too long. */
  ghost predicate IsTried(t: Tokenizer, ids: seq<Token>, maxInputTokens: nat, start: nat, end: nat, limit: nat)
    requires start <= end <= limit <= |ids|
  {
    forall e :: end < e <= limit ==> Reencodes(t, ids, start, e) && !FitsWindow(t, ids, maxInputTokens, start, e)
  }

  ghost predicate IsShrunk(
    t: Tokenizer, ids: seq<Token>, maxInputTokens: nat, start: nat, limit: nat,
    window: Result<(nat, string), PlanError>)
    requires start < limit <= |ids|
  {
    match window
    case Ok((end, content)) =>
      && IsWindow(t, ids, maxInputTokens, start, limit, end)
      && t.decode(ids[start..end]) == Some(content)
    case Err(error) =>
      && !error.NoContentCapacity?
      && forall end :: !IsWindow(t, ids, maxInputTokens, start, limit, end)
  }

  lemma NoWindowBelow(t: Tokenizer, ids: seq<Token>, maxInputTokens: nat, start: nat, stuck: nat, limit: nat)
    requires start < stuck <= limit <= |ids|
    requires IsTried(t, ids, maxInputTokens, start, stuck, limit) && !Reencodes(t, ids, start, stuck)
    ensures forall end :: !IsWindow(t, ids, maxInputTokens, start, limit, end)
  {
  }

  lemma AddPart(
    t: Tokenizer, ids: seq<Token>, maxInputTokens: nat, sizes: Sizes, parts: seq<PlanPart>, start: nat, part: PlanPart)
    requires IsProgress(t, ids, maxInputTokens, sizes, parts, start)
    requires part.tokenStart == start && IsPart(t, ids, maxInputTokens, sizes, |parts|, part)
    ensures IsPrefix(t, ids, maxInputTokens, sizes, parts + [part])
  {
    hide IsPart;
  }

  /** The window found at the start of the next part goes on with the plan or ends it. */
  lemma WindowAdded(
    t: Tokenizer, maxInputTokens: nat, text: string, ids: seq<Token>, sizes: Sizes, parts: seq<PlanPart>, start: nat,
    end: nat, content: string)
    requires IsWindowed(t, maxInputTokens, text, ids, sizes)
    requires IsProgress(t, ids, maxInputTokens, sizes, parts, start) && start < Limit(sizes, ids, start) <= |ids|
    requires IsShrunk(t, ids, maxInputTokens, start, Limit(sizes, ids, start), Ok((end, content)))
    ensures start < end <= |ids|
    ensures var more := parts + [Part(t, ids, |parts|, start, end, content)];
            if end == |ids| then IsOutcome(t, maxInputTokens, text, Ok(more))
            else IsProgress(t, ids, maxInputTokens, sizes, more, Min(start + sizes.step, end))
  {
    var part := Part(t, ids, |parts|, start, end, content);
    assert IsPart(t, ids, maxInputTokens, sizes, |parts|, part);
    AddPart(t, ids, maxInputTokens, sizes, parts, start, part);
    assert (parts + [part])[|parts|] == part;
  }

  /** How planning ends when no window has to be found. */
  lemma BeforeWindows(t: Tokenizer, maxInputTokens: nat, text: string)
    ensures t.encode("", true).None? ==> IsOutcome(t, maxInputTokens, text, Err(TokenizationFailed))
    ensures t.encode("", true).Some? && |t.encode("", true).value| >= maxInputTokens ==>
              IsOutcome(t, maxInputTokens, text, Err(NoContentCapacity))
    ensures t.encode("", true).Some? && |t.encode("", true).value| < maxInputTokens && t.encode(text, false).None? ==>
              IsOutcome(t, maxInputTokens, text, Err(TokenizationFailed))
    ensures IsPlannedWhole(t, maxInputTokens, text) ==>
              var ids := t.encode(text, false).value;
              IsOutcome(t, maxInputTokens, text, Ok([Part(t, ids, 0, 0, |ids|, text)]))
  {
  }

  lemma StartsProgress(t: Tokenizer, ids: seq<Token>, maxInputTokens: nat, sizes: Sizes)
    requires ids != []
    ensures IsProgress(t, ids, maxInputTokens, sizes, [], 0)
  {
  }

  predicate Reaches(ids: seq<Token>, sizes: Sizes, parts: seq<PlanPart>, start: nat)
    requires parts != []
  {
    parts[|parts| - 1].tokenEnd < |ids| && start == NextStart(sizes, parts[|parts| - 1])
  }

  /** When there is no window at the start the next part must have, there is no plan. */
  lemma NoPlanWithout(
    t: Tokenizer, maxInputTokens: nat, text: string, ids: seq<Token>, sizes: Sizes, parts: seq<PlanPart>, start: nat)
    requires IsWindowed(t, maxInputTokens, text, ids, sizes)
    requires IsProgress(t, ids, maxInputTokens, sizes, parts, start)
    requires forall end :: !IsWindow(t, ids, maxInputTokens, start, Limit(sizes, ids, start), end)
    ensures forall plan :: !IsPlan(t, maxInputTokens, text, plan)
  {
    forall plan: seq<PlanPart> ensures !IsPlan(t, maxInputTokens, text, plan) {
      if IsPlan(t, maxInputTokens, text, plan) {
        NextPartOfPlan(t, ids, maxInputTokens, sizes, parts, start, plan);
        assert false;
      }
    }
  }

  lemma WindowFailed(
    t: Tokenizer, maxInputTokens: nat, text: string, ids: seq<Token>, sizes: Sizes, parts: seq<PlanPart>, start: nat,
    error: PlanError)
    requires IsWindowed(t, maxInputTokens, text, ids, sizes)
    requires IsProgress(t, ids, maxInputTokens, sizes, parts, start) && start < Limit(sizes, ids, start) <= |ids|
    requires IsShrunk(t, ids, maxInputTokens, start, Limit(sizes, ids, start), Err(error))
    ensures IsOutcome(t, maxInputTokens, text, Err(error))
  {
    hide IsWindow, IsProgress, IsPlan;
    NoPlanWithout(t, maxInputTokens, text, ids, sizes, parts, start);
  }

  lemma NextPartOfPlan(
    t: Tokenizer, ids: seq<Token>, maxInputTokens: nat, sizes: Sizes, parts: seq<PlanPart>, start: nat,
    plan: seq<PlanPart>)
    requires IsProgress(t, ids, maxInputTokens, sizes, parts, start)
    requires IsPrefix(t, ids, maxInputTokens, sizes, plan) && plan != [] && plan[|plan| - 1].tokenEnd == |ids|
    ensures |parts| < |plan|
    ensures IsWindow(t, ids, maxInputTokens, start, Limit(sizes, ids, start), plan[|parts|].tokenEnd)
  {
    PrefixIsDetermined(t, ids, maxInputTokens, sizes, parts, plan);
    if parts != [] {
      assert Chains(ids, sizes, plan[|parts| - 1], plan[|parts|]);
    }
    assert IsPart(t, ids, maxInputTokens, sizes, |parts|, plan[|parts|]);
  }

  lemma WindowIsUnique(t: Tokenizer, ids: seq<Token>, maxInputTokens: nat, start: nat, limit: nat, a: nat, b: nat)
    requires limit <= |ids|
    requires IsWindow(t, ids, maxInputTokens, start, limit, a) && IsWindow(t, ids, maxInputTokens, start, limit, b)
    ensures a == b
  {
  }

  /** Two beginnings of plans agree part by part for as long as both go on. */
  lemma {:induction false} PartIsDetermined(
    t: Tokenizer, ids: seq<Token>, maxInputTokens: nat, sizes: Sizes, a: seq<PlanPart>, b: seq<PlanPart>, i: nat)
    requires IsPrefix(t, ids, maxInputTokens, sizes, a) && IsPrefix(t, ids, maxInputTokens, sizes, b)
    requires i < |a| && i < |b|
    ensures a[i] == b[i]
  {
    if i > 0 {
      PartIsDetermined(t, ids, maxInputTokens, sizes, a, b, i - 1);
      assert Chains(ids, sizes, a[i - 1], a[i]) && Chains(ids, sizes, b[i - 1], b[i]);
    }
    assert IsPart(t, ids, maxInputTokens, sizes, i, a[i]) && IsPart(t, ids, maxInputTokens, sizes, i, b[i]);
    var start := a[i].tokenStart;
    WindowIsUnique(t, ids, maxInputTokens, start, Limit(sizes, ids, start), a[i].tokenEnd, b[i].tokenEnd);
  }

  /** A beginning that has not reached the end is a proper prefix of every plan. */
  lemma PrefixIsDetermined(
    t: Tokenizer, ids: seq<Token>, maxInputTokens: nat, sizes: Sizes, parts: seq<PlanPart>, plan: seq<PlanPart>)
    requires IsPrefix(t, ids, maxInputTokens, sizes, parts) && IsPrefix(t, ids, maxInputTokens, sizes, plan)
    requires plan != [] && plan[|plan| - 1].tokenEnd == |ids|
    requires parts != [] ==> parts[|parts| - 1].tokenEnd < |ids|
    ensures |parts| < |plan| && plan[..|parts|] == parts
  {
    forall i | 0 <= i < |parts| && i < |plan| ensures parts[i] == plan[i] {
      PartIsDetermined(t, ids, maxInputTokens, sizes, parts, plan, i);
    }
    forall i | 0 <= i < |parts| ensures parts[i].tokenEnd < |ids| {
      assert i < |parts| - 1 ==> Chains(ids, sizes, parts[i], parts[i + 1]);
    }
  }

  /** The Rust and the Swift planner return the same parts, or both fail; they also
      agree on whether the model has no room for content. */
  lemma PlannersAgree(t: Tokenizer, maxInputTokens: nat, text: string, rust: PlanResult, swift: PlanResult)
    requires IsOutcome(t, maxInputTokens, text, rust) && IsOutcome(t, maxInputTokens, text, swift)
    ensures rust.Ok? <==> swift.Ok?
    ensures rust.Ok? ==> rust.value == swift.value
    ensures rust == Err(NoContentCapacity) <==> swift == Err(NoContentCapacity)
  {
    if rust.Ok? && swift.Ok? {
      PlanIsUnique(t, maxInputTokens, text, rust.value, swift.value);
    }
  }

  lemma PlanIsUnique(t: Tokenizer, maxInputTokens: nat, text: string, a: seq<PlanPart>, b: seq<PlanPart>)
    requires IsPlan(t, maxInputTokens, text, a) && IsPlan(t, maxInputTokens, text, b)
    ensures a == b
  {
    var ids := t.encode(text, false).value;
    var sizes := SizesFor(maxInputTokens, |t.encode("", true).value|);
    if |ids| + sizes.special > maxInputTokens {
      if |a| < |b| {
        AllButTheLastStopShort(t, ids, maxInputTokens, sizes, a, b);
      } else if |b| < |a| {
        AllButTheLastStopShort(t, ids, maxInputTokens, sizes, b, a);
      }
      forall i | 0 <= i < |a| ensures a[i] == b[i] {
        PartIsDetermined(t, ids, maxInputTokens, sizes, a, b, i);
      }
    }
  }

  lemma AllButTheLastStopShort(
    t: Tokenizer, ids: seq<Token>, maxInputTokens: nat, sizes: Sizes, short: seq<PlanPart>, long: seq<PlanPart>)
    requires IsPrefix(t, ids, maxInputTokens, sizes, short) && IsPrefix(t, ids, maxInputTokens, sizes, long)
    requires 0 < |short| < |long|
    ensures short[|short| - 1].tokenEnd < |ids|
  {
    var last := |short| - 1;
    PartIsDetermined(t, ids, maxInputTokens, sizes, short, long, last);
    assert Chains(ids, sizes, long[last], long[last + 1]);
  }

  // -------------------------------------------------------- What plans guarantee

  ghost predicate CoversTokens(parts: seq<PlanPart>, count: nat) {
    && parts != []
    && parts[0].tokenStart == 0
    && parts[|parts| - 1].tokenEnd == count
    && (forall i :: 0 <= i < |parts| ==> parts[i].partIndex == i && parts[i].tokenStart <= parts[i].tokenEnd <= count)
    && (forall i, j :: 0 <= i && j == i + 1 && j < |parts| ==>
          parts[i].tokenStart < parts[j].tokenStart <= parts[i].tokenEnd)
  }

  /** Token `k` is in some window. */
  ghost predicate IsCovered(parts: seq<PlanPart>, k: nat) {
    exists i :: 0 <= i < |parts| && parts[i].tokenStart <= k < parts[i].tokenEnd
  }

  /** The windows of a plan start at 0, end at the token count, move forward, and
      leave no token out between one and the next. */
  lemma PlanCovers(t: Tokenizer, maxInputTokens: nat, text: string, parts: seq<PlanPart>)
    requires IsPlan(t, maxInputTokens, text, parts)
    ensures CoversTokens(parts, |t.encode(text, false).value|)
    ensures forall k :: 0 <= k < |t.encode(text, false).value| ==> IsCovered(parts, k)
  {
    var ids := t.encode(text, false).value;
    var sizes := SizesFor(maxInputTokens, |t.encode("", true).value|);
    if |ids| + sizes.special > maxInputTokens {
      hide IsCovered;
      forall i, j | 0 <= i && j == i + 1 && j < |parts|
        ensures parts[i].tokenStart < parts[j].tokenStart <= parts[i].tokenEnd
      {
        assert IsPart(t, ids, maxInputTokens, sizes, i, parts[i]) && Chains(ids, sizes, parts[i], parts[j]);
      }
    }
    forall k | 0 <= k < |ids| ensures IsCovered(parts, k) {
      TokenIsCovered(parts, |ids|, k, |parts| - 1);
    }
  }

  lemma {:induction false} TokenIsCovered(parts: seq<PlanPart>, count: nat, k: nat, i: nat)
    requires CoversTokens(parts, count) && i < |parts| && k < parts[i].tokenEnd
    ensures IsCovered(parts, k)
  {
    if k < parts[i].tokenStart {
      var before := i - 1;
      TokenIsCovered(parts, count, k, before);
    }
  }

  /** What a part is: its number, the tokens of its window, their digest, and the text
      the tokenizer makes of exactly these tokens. A text that is one window is kept
      as it is. */
  lemma PartsAreTheirWindows(t: Tokenizer, maxInputTokens: nat, text: string, parts: seq<PlanPart>)
    requires IsPlan(t, maxInputTokens, text, parts)
    ensures var ids := t.encode(text, false).value;
            && (forall i :: 0 <= i < |parts| ==>
                  && parts[i].partIndex == i
                  && parts[i].tokenStart <= parts[i].tokenEnd <= |ids|
                  && parts[i].tokenCount == parts[i].tokenEnd - parts[i].tokenStart
                  && parts[i].tokenHash == t.digest(TokenBytes(ids[parts[i].tokenStart..parts[i].tokenEnd])))
            && if |ids| + |t.encode("", true).value| <= maxInputTokens then
                 |parts| == 1 && parts[0].content == text
               else
                 forall part <- parts :: t.decode(ids[part.tokenStart..part.tokenEnd]) == Some(part.content)
  {
    var ids := t.encode(text, false).value;
    var sizes := SizesFor(maxInputTokens, |t.encode("", true).value|);
    if |ids| + sizes.special > maxInputTokens {
      forall i | 0 <= i < |parts|
        ensures parts[i] == Part(t, ids, i, parts[i].tokenStart, parts[i].tokenEnd, parts[i].content)
        ensures t.decode(ids[parts[i].tokenStart..parts[i].tokenEnd]) == Some(parts[i].content)
      {
        assert IsPart(t, ids, maxInputTokens, sizes, i, parts[i]);
      }
    }
  }

  predicate Fits(t: Tokenizer, maxInputTokens: nat, content: string) {
    t.encode(content, true).Some? && |t.encode(content, true).value| <= maxInputTokens
  }

  /** Every part of a plan with more than one window's worth of tokens was
      re-encoded with special tokens and fits the model. */
  lemma WindowsFit(t: Tokenizer, maxInputTokens: nat, text: string, parts: seq<PlanPart>)
    requires IsPlan(t, maxInputTokens, text, parts)
    requires |t.encode(text, false).value| + |t.encode("", true).value| > maxInputTokens
    ensures forall part <- parts :: Fits(t, maxInputTokens, part.content)
  {
    var ids := t.encode(text, false).value;
    var sizes := SizesFor(maxInputTokens, |t.encode("", true).value|);
    forall i | 0 <= i < |parts| ensures Fits(t, maxInputTokens, parts[i].content) {
      assert IsPart(t, ids, maxInputTokens, sizes, i, parts[i]);
    }
  }

  /** Encoding a text adds no more special tokens than encoding the empty text does
      (a text of no tokens may add one more). */
  ghost predicate AddsSpecialTokensOnce(t: Tokenizer, text: string)
    requires t.encode("", true).Some?
  {
    t.encode(text, false).Some? ==>
      var count := |t.encode(text, false).value|;
      Fits(t, |t.encode("", true).value| + if count == 0 then 1 else count, text)
  }

  ghost predicate PlansFit(t: Tokenizer, maxInputTokens: nat, text: string) {
    forall parts: seq<PlanPart>, part ::
      IsPlan(t, maxInputTokens, text, parts) && part in parts ==> Fits(t, maxInputTokens, part.content)
  }

  /** The one-part plan of a short text is not re-encoded. All parts of all plans of
      a text fit, whatever the capacity, exactly when the tokenizer adds its special
      tokens once. */
  lemma PlansFitExactlyWhen(t: Tokenizer, text: string)
    requires t.encode("", true).Some?
    ensures (forall maxInputTokens :: PlansFit(t, maxInputTokens, text)) <==> AddsSpecialTokensOnce(t, text)
  {
    if AddsSpecialTokensOnce(t, text) {
      forall maxInputTokens ensures PlansFit(t, maxInputTokens, text) {
        PlansFitAtCapacity(t, maxInputTokens, text);
      }
    } else {
      var ids := t.encode(text, false).value;
      var tight := |t.encode("", true).value| + if |ids| == 0 then 1 else |ids|;
      var plan := [Part(t, ids, 0, 0, |ids|, text)];
      assert IsPlan(t, tight, text, plan) && plan[0] in plan;
      assert !PlansFit(t, tight, text);
    }
  }

  /** The one-part plan was chosen by counting tokens alone. */
  predicate IsPlannedWhole(t: Tokenizer, maxInputTokens: nat, text: string) {
    && t.encode("", true).Some? && t.encode(text, false).Some?
    && |t.encode("", true).value| < maxInputTokens
    && |t.encode(text, false).value| + |t.encode("", true).value| <= maxInputTokens
  }

  /** For the capacity at hand: every part of every plan of a text fits exactly when
      the text is not planned whole, or fits whole. */
  lemma PlansFitAtCapacity(t: Tokenizer, maxInputTokens: nat, text: string)
    ensures PlansFit(t, maxInputTokens, text)
       <==> (IsPlannedWhole(t, maxInputTokens, text) ==> Fits(t, maxInputTokens, text))
  {
    if IsPlannedWhole(t, maxInputTokens, text) {
      var whole := [Part(t, t.encode(text, false).value, 0, 0, |t.encode(text, false).value|, text)];
      assert IsPlan(t, maxInputTokens, text, whole) && whole[0] in whole;
    }
    forall parts: seq<PlanPart>, part |
      IsPlan(t, maxInputTokens, text, parts) && part in parts && !IsPlannedWhole(t, maxInputTokens, text)
      ensures Fits(t, maxInputTokens, part.content)
    {
      WindowsFit(t, maxInputTokens, text, parts);
    }
  }

  /** A tokenizer that puts a marker before every character: the short-text path
      returns a part that is longer than the model's capacity. */
  lemma ShortTextMayNotFit()
    ensures exists t: Tokenizer, parts: seq<PlanPart> ::
              IsPlan(t, 4, "ab", parts) && parts != [] && !Fits(t, 4, parts[0].content)
  {
    var t := Tokenizer(
      (text: string, special: bool) =>
        Some(seq(if special then 2 + 2 * |text| else |text|, i => 0)),
      (ids: seq<Token>) => None,
      (bytes: seq<Byte>) => "0");
    var parts := [Part(t, t.encode("ab", false).value, 0, 0, 2, "ab")];
    assert IsPlan(t, 4, "ab", parts);
  }

  // ------------------------------------------------- Plans without shrinking

  /** No window had to be shortened. */
  ghost predicate NothingShrinks(sizes: Sizes, ids: seq<Token>, parts: seq<PlanPart>) {
    forall part <- parts :: part.tokenEnd == Limit(sizes, ids, part.tokenStart)
  }

  function CeilDiv(a: nat, b: nat): nat
    requires b > 0
  {
    (a + b - 1) / b
  }

  /** When no window shrinks the parts are evenly spaced, overlap by min(32, usable - 1)
      tokens, and there are exactly 1 + ceil((n - usable) / step) of them. */
  lemma RegularPlan(t: Tokenizer, maxInputTokens: nat, text: string, parts: seq<PlanPart>)
    requires IsPlan(t, maxInputTokens, text, parts)
    requires |t.encode(text, false).value| + |t.encode("", true).value| > maxInputTokens
    requires NothingShrinks(SizesFor(maxInputTokens, |t.encode("", true).value|), t.encode(text, false).value, parts)
    ensures var sizes := SizesFor(maxInputTokens, |t.encode("", true).value|);
            && |parts| == 1 + CeilDiv(|t.encode(text, false).value| - sizes.usable, sizes.step)
            && (forall i :: 0 <= i < |parts| ==> parts[i].tokenStart == i * sizes.step)
            && (forall i, j :: 0 <= i && j == i + 1 && j < |parts| ==>
                  parts[i].tokenEnd - parts[j].tokenStart == Min(32, sizes.usable - 1))
  {
    var ids := t.encode(text, false).value;
    var sizes := SizesFor(maxInputTokens, |t.encode("", true).value|);
    assert IsRegular(ids, sizes, parts) by {
      hide IsPart, NothingShrinks, Chains;
    }
    hide IsPlan, IsRegular, NothingShrinks;
    RegularStarts(ids, sizes, parts);
    RegularOverlaps(ids, sizes, parts);
    RegularCount(ids, sizes, parts);
  }

  ghost predicate IsRegular(ids: seq<Token>, sizes: Sizes, parts: seq<PlanPart>) {
    && parts != [] && parts[0].tokenStart == 0 && parts[|parts| - 1].tokenEnd == |ids|
    && 0 < sizes.step <= sizes.usable < |ids|
    && (forall i, j :: 0 <= i && j == i + 1 && j < |parts| ==> Chains(ids, sizes, parts[i], parts[j]))
    && NothingShrinks(sizes, ids, parts)
  }

  lemma RegularStarts(ids: seq<Token>, sizes: Sizes, parts: seq<PlanPart>)
    requires IsRegular(ids, sizes, parts)
    ensures forall i :: 0 <= i < |parts| ==> parts[i].tokenStart == i * sizes.step
  {
    for n := 1 to |parts|
      invariant forall i :: 0 <= i < n ==> parts[i].tokenStart == i * sizes.step
    {
      RegularStep(ids, sizes, parts, n - 1, n);
      assert n * sizes.step == (n - 1) * sizes.step + sizes.step;
    }
  }

  lemma RegularStep(ids: seq<Token>, sizes: Sizes, parts: seq<PlanPart>, i: nat, j: nat)
    requires IsRegular(ids, sizes, parts) && j == i + 1 && j < |parts|
    ensures parts[j].tokenStart == parts[i].tokenStart + sizes.step
    ensures parts[i].tokenEnd == parts[i].tokenStart + sizes.usable < |ids|
  {
    assert Chains(ids, sizes, parts[i], parts[j]) && parts[i] in parts;
  }

  lemma RegularOverlaps(ids: seq<Token>, sizes: Sizes, parts: seq<PlanPart>)
    requires IsRegular(ids, sizes, parts)
    ensures forall i, j :: 0 <= i && j == i + 1 && j < |parts| ==>
              parts[i].tokenEnd - parts[j].tokenStart == sizes.usable - sizes.step
  {
    forall i, j | 0 <= i && j == i + 1 && j < |parts|
      ensures parts[i].tokenEnd - parts[j].tokenStart == sizes.usable - sizes.step
    {
      RegularStep(ids, sizes, parts, i, j);
    }
  }

  lemma RegularCount(ids: seq<Token>, sizes: Sizes, parts: seq<PlanPart>)
    requires IsRegular(ids, sizes, parts)
    ensures |parts| == 1 + CeilDiv(|ids| - sizes.usable, sizes.step)
  {
    var last := |parts| - 1;
    assert parts[last] in parts;
    RegularStarts(ids, sizes, parts);
    if last > 0 {
      RegularStep(ids, sizes, parts, last - 1, last);
    }
    CeilDivIs(|ids| - sizes.usable, sizes.step, last);
  }

  lemma CeilDivIs(a: nat, b: nat, q: nat)
    requires b > 0
    requires a <= q * b < a + b
    ensures q == CeilDiv(a, b)
  {
    var r := CeilDiv(a, b);
    assert r * b <= a + b - 1 < r * b + b;
    MulKeepsOrder(q, r, b);
    MulKeepsOrder(r, q, b);
  }

  lemma {:induction false} MulKeepsOrder(x: nat, y: nat, b: nat)
    ensures x < y ==> x * b + b <= y * b
  {
    if x < y {
      MulKeepsOrder(x, y - 1, b);
      assert y * b == (y - 1) * b + b;
    }
  }

  // ------------------------------------------------------ The persisted plan

  predicate IsBlank(s: string) {
    forall c <- s :: c in " \t\n\r"
  }

  /** What the ledger accepts as a stored plan. */
  predicate IsStoredPlan(parts: seq<PlanPart>) {
    && parts != []
    && forall i :: 0 <= i < |parts| ==> IsStoredPart(parts[i], i)
  }

  predicate IsStoredPart(part: PlanPart, i: nat) {
    && part.partIndex == i
    && part.tokenStart <= part.tokenEnd
    && part.tokenCount == part.tokenEnd - part.tokenStart
    && !IsBlank(part.tokenHash)
  }

  lemma BlankIs(s: string)
    ensures !IsBlank(s) <==> exists c <- s :: c != ' ' && c != '\t' && c != '\n' && c != '\r'
  {
  }

  /** A stored plan has a part or more, numbered from 0, each of which counts its own
      tokens and has a hash that is not blank. */
  lemma StoredPlanIs(parts: seq<PlanPart>)
    ensures IsStoredPlan(parts) <==>
              && |parts| > 0
              && forall i :: 0 <= i < |parts| ==>
                   && parts[i].partIndex == i
                   && parts[i].tokenStart + parts[i].tokenCount == parts[i].tokenEnd
                   && exists c <- parts[i].tokenHash :: c != ' ' && c != '\t' && c != '\n' && c != '\r'
  {
    hide IsBlank;
    forall i | 0 <= i < |parts|
      ensures !IsBlank(parts[i].tokenHash) <==>
                exists c <- parts[i].tokenHash :: c != ' ' && c != '\t' && c != '\n' && c != '\r'
    {
      BlankIs(parts[i].tokenHash);
    }
  }

  /** `validate_stored_plan`, `src/operations.rs`. */
  method ValidateStoredPlan(parts: seq<PlanPart>) returns (valid: bool)
    ensures valid <==> IsStoredPlan(parts)
  {
    hide IsBlank;
    if |parts| == 0 {
      return false;
    }
    for expected := 0 to |parts|
      invariant forall i :: 0 <= i < expected ==> IsStoredPart(parts[i], i)
    {
      var part := parts[expected];
      if part.partIndex != expected
        || part.tokenEnd < part.tokenStart
        || part.tokenCount != part.tokenEnd - part.tokenStart
        || IsBlank(part.tokenHash)
      {
        assert !IsStoredPart(part, expected);
        return false;
      }
    }
    valid := true;
  }

  /** The token count recorded with a stored memory. */
  method TokenCount(parts: seq<PlanPart>) returns (count: nat)
    ensures count == MaxEnd(parts)
  {
    count := 0;
    for i := 0 to |parts|
      invariant count == MaxEnd(parts[..i])
    {
      assert parts[..i + 1][..i] == parts[..i];
      if parts[i].tokenEnd > count {
        count := parts[i].tokenEnd;
      }
    }
    assert parts[..|parts|] == parts;
  }

  function MaxEnd(parts: seq<PlanPart>): nat {
    if parts == [] then 0
    else
      var before, end := MaxEnd(parts[..|parts| - 1]), parts[|parts| - 1].tokenEnd;
      if end > before then end else before
  }

  lemma {:induction false} MaxEndIs(parts: seq<PlanPart>, count: nat)
    requires forall part <- parts :: part.tokenEnd <= count
    ensures MaxEnd(parts) <= count
    ensures (exists part <- parts :: part.tokenEnd == count) ==> MaxEnd(parts) == count
  {
    if parts != [] {
      MaxEndIs(parts[..|parts| - 1], count);
      assert parts == parts[..|parts| - 1] + [parts[|parts| - 1]];
    }
  }

  /** Every plan either planner returns is accepted by the ledger, and the token
      count recorded from it is the number of tokens of the text. */
  lemma PlansAreStorable(t: Tokenizer, maxInputTokens: nat, text: string, parts: seq<PlanPart>)
    requires IsPlan(t, maxInputTokens, text, parts)
    requires forall bytes :: !IsBlank(t.digest(bytes))
    ensures IsStoredPlan(parts)
    ensures MaxEnd(parts) == |t.encode(text, false).value|
  {
    var ids := t.encode(text, false).value;
    var sizes := SizesFor(maxInputTokens, |t.encode("", true).value|);
    PlanCovers(t, maxInputTokens, text, parts);
    forall i | 0 <= i < |parts| ensures IsStoredPart(parts[i], i) {
      assert |ids| + sizes.special > maxInputTokens ==> IsPart(t, ids, maxInputTokens, sizes, i, parts[i]);
    }
    assert parts[|parts| - 1] in parts;
    MaxEndIs(parts, |ids|);
  }

  /** The comparison `persist_plan` makes between the stored rows and a new plan. */
  predicate SamePlan(stored: seq<PlanPart>, plan: seq<PlanPart>) {
    && |stored| == |plan|
    && forall i :: 0 <= i < |plan| ==>
         && stored[i].partIndex == plan[i].partIndex
         && stored[i].tokenHash == plan[i].tokenHash
         && stored[i].tokenStart == plan[i].tokenStart
         && stored[i].tokenEnd == plan[i].tokenEnd
  }

  /** It does not look at the content, but with a collision-free digest two plans
      that compare equal were cut from the same tokens, window by window. */
  lemma SamePlanMeansSameTokens(
    t: Tokenizer, maxInputTokens: nat, text: string, stored: seq<PlanPart>,
    otherMax: nat, otherText: string, plan: seq<PlanPart>, i: nat)
    requires forall a, b :: t.digest(a) == t.digest(b) ==> a == b
    requires IsPlan(t, maxInputTokens, text, stored) && IsPlan(t, otherMax, otherText, plan)
    requires SamePlan(stored, plan) && i < |plan|
    ensures stored[i].tokenStart <= stored[i].tokenEnd <= |t.encode(text, false).value|
    ensures stored[i].tokenEnd <= |t.encode(otherText, false).value|
    ensures t.encode(text, false).value[stored[i].tokenStart..stored[i].tokenEnd]
         == t.encode(otherText, false).value[stored[i].tokenStart..stored[i].tokenEnd]
  {
    HashIsOfWindow(t, maxInputTokens, text, stored, i);
    HashIsOfWindow(t, otherMax, otherText, plan, i);
    var start, end := stored[i].tokenStart, stored[i].tokenEnd;
    TokenBytesAreInjective(
      t.encode(text, false).value[start..end], t.encode(otherText, false).value[start..end]);
  }

  /** And plans cut from the same tokens at the same places compare equal. */
  lemma SameTokensMeanSamePlan(
    t: Tokenizer, maxInputTokens: nat, text: string, stored: seq<PlanPart>,
    otherMax: nat, otherText: string, plan: seq<PlanPart>)
    requires IsPlan(t, maxInputTokens, text, stored) && IsPlan(t, otherMax, otherText, plan)
    requires t.encode(text, false) == t.encode(otherText, false) && |stored| == |plan|
    requires forall i :: 0 <= i < |plan| ==>
               stored[i].tokenStart == plan[i].tokenStart && stored[i].tokenEnd == plan[i].tokenEnd
    ensures SamePlan(stored, plan)
  {
    PartsAreTheirWindows(t, maxInputTokens, text, stored);
    PartsAreTheirWindows(t, otherMax, otherText, plan);
  }

  lemma HashIsOfWindow(t: Tokenizer, maxInputTokens: nat, text: string, parts: seq<PlanPart>, i: nat)
    requires IsPlan(t, maxInputTokens, text, parts) && i < |parts|
    ensures parts[i].tokenStart <= parts[i].tokenEnd <= |t.encode(text, false).value|
    ensures parts[i].tokenHash
         == t.digest(TokenBytes(t.encode(text, false).value[parts[i].tokenStart..parts[i].tokenEnd]))
  {
    var ids := t.encode(text, false).value;
    var sizes := SizesFor(maxInputTokens, |t.encode("", true).value|);
    assert |ids| + sizes.special > maxInputTokens ==> IsPart(t, ids, maxInputTokens, sizes, i, parts[i]);
  }
}
