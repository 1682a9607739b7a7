/** The text helpers of `crates/surreal-memory/src/compression/text.rs`.

    Characters are Unicode scalar values. Which of them are white space or
    alphanumeric, and how one is lower-cased, is a parameter: any classification
    that lower-casing respects. NFC normalisation is left out. */
module Text {

  datatype CharClasses = CharClasses(isSpace: char -> bool, isAlphanumeric: char -> bool, lower: char -> char)

  ghost predicate IsProper(c: CharClasses) {
    && c.isSpace(' ') && c.isSpace('\n') && c.isSpace('\r')
    && !c.isSpace('.') && !c.isSpace('?') && !c.isSpace('!')
    && (forall x :: 'a' <= x <= 'z' ==> !c.isSpace(x))
    && (forall x :: c.isSpace(c.lower(x)) == c.isSpace(x))
  }

  const ASCII := CharClasses(
    x => x in " \n\r\t",
    x => '0' <= x <= '9' || 'A' <= x <= 'Z' || 'a' <= x <= 'z',
    x => if 'A' <= x <= 'Z' then (x as int + 32) as char else x)

  type Alphabet = c: CharClasses | IsProper(c) witness ASCII

  // ------------------------------------------------------------------ Words

  ghost predicate IsWord(a: Alphabet, w: string) {
    w != "" && forall c <- w :: !a.isSpace(c)
  }

  ghost predicate AreWords(a: Alphabet, ws: seq<string>) {
    forall w <- ws :: IsWord(a, w)
  }

  /** A word does not continue after `s`. */
  predicate AtBoundary(a: Alphabet, s: string) {
    s == "" || a.isSpace(s[|s| - 1])
  }

  /** The words once another character was read. */
  function Extend(a: Alphabet, ws: seq<string>, boundary: bool, c: char): seq<string> {
    if a.isSpace(c) then ws
    else if boundary || ws == [] then ws + [[c]]
    else ws[..|ws| - 1] + [ws[|ws| - 1] + [c]]
  }

  /** `split_whitespace` */
  function Words(a: Alphabet, s: string): (ws: seq<string>)
    ensures !AtBoundary(a, s) ==> ws != []
  {
    if s == "" then []
    else Extend(a, Words(a, s[..|s| - 1]), AtBoundary(a, s[..|s| - 1]), s[|s| - 1])
  }

  lemma {:induction false} WordsAreWords(a: Alphabet, s: string)
    ensures AreWords(a, Words(a, s))
  {
    if s != "" {
      var ws := Words(a, s[..|s| - 1]);
      WordsAreWords(a, s[..|s| - 1]);
      ExtendKeepsWords(a, ws, AtBoundary(a, s[..|s| - 1]), s[|s| - 1]);
    }
  }

  lemma ExtendKeepsWords(a: Alphabet, ws: seq<string>, boundary: bool, c: char)
    requires AreWords(a, ws)
    ensures AreWords(a, Extend(a, ws, boundary, c))
  {
    if ws != [] {
      assert IsWord(a, ws[|ws| - 1]);
    }
    forall w <- Extend(a, ws, boundary, c) ensures IsWord(a, w) {
      assert w in ws || w == [c] || (ws != [] && w == ws[|ws| - 1] + [c]);
    }
  }

  /** Splitting between `x` and `y` is harmless wherever there is white space. */
  predicate Separable(a: Alphabet, x: string, y: string) {
    y == "" || AtBoundary(a, x) || a.isSpace(y[0])
  }

  lemma {:induction false} WordsOfConcat(a: Alphabet, x: string, y: string)
    requires Separable(a, x, y)
    ensures Words(a, x + y) == Words(a, x) + Words(a, y)
  {
    if y == "" {
      assert x + y == x;
    } else {
      var n := |y| - 1;
      WordsOfConcat(a, x, y[..n]);
      assert (x + y)[..|x + y| - 1] == x + y[..n];
      ExtendTail(a, Words(a, x), Words(a, y[..n]), AtBoundary(a, y[..n]), y[n]);
    }
  }

  lemma ExtendTail(a: Alphabet, front: seq<string>, ws: seq<string>, boundary: bool, c: char)
    requires boundary || ws != []
    ensures Extend(a, front + ws, boundary, c) == front + Extend(a, ws, boundary, c)
  {
    if ws != [] {
      assert (front + ws)[..|front + ws| - 1] == front + ws[..|ws| - 1];
    }
  }

  lemma {:induction false} NoWordsInSpace(a: Alphabet, s: string)
    requires forall c <- s :: a.isSpace(c)
    ensures Words(a, s) == []
  {
    if s != "" {
      NoWordsInSpace(a, s[..|s| - 1]);
    }
  }

  lemma {:induction false} WordsOfWord(a: Alphabet, w: string)
    requires IsWord(a, w)
    ensures Words(a, w) == [w]
  {
    var n := |w| - 1;
    assert w[n] in w && w == w[..n] + [w[n]];
    if n > 0 {
      assert forall c <- w[..n] :: c in w;
      WordsOfWord(a, w[..n]);
      assert w[..n][n - 1] in w;
    }
  }

  /** `join(" ")` */
  function Join(ws: seq<string>): string {
    if ws == [] then ""
    else if |ws| == 1 then ws[0]
    else Join(ws[..|ws| - 1]) + " " + ws[|ws| - 1]
  }

  lemma JoinOfFew(w: string)
    ensures Join([]) == "" && Join([w]) == w
  {
  }

  lemma {:induction false} JoinOfConcat(x: seq<string>, y: seq<string>)
    requires x != [] && y != []
    ensures Join(x + y) == Join(x) + " " + Join(y)
  {
    var n := |y| - 1;
    assert (x + y)[..|x + y| - 1] == x + y[..n];
    if n == 0 {
      assert x + y[..n] == x;
    } else {
      JoinOfConcat(x, y[..n]);
    }
  }

  /** Joining words and splitting again gives them back. */
  lemma {:induction false} WordsOfJoin(a: Alphabet, ws: seq<string>)
    requires AreWords(a, ws)
    ensures Words(a, Join(ws)) == ws
  {
    hide Words, IsWord;
    if ws == [] {
      NoWordsInSpace(a, "");
    } else {
      var n := |ws| - 1;
      WordsOfWord(a, ws[n]);
      assert ws == ws[..n] + [ws[n]];
      if n > 0 {
        WordsOfJoin(a, ws[..n]);
        WordsOfSpaced(a, Join(ws[..n]), ' ', ws[n]);
      }
    }
  }

  lemma WordsOfSpaced(a: Alphabet, x: string, space: char, y: string)
    requires a.isSpace(space)
    ensures Words(a, x + [space] + y) == Words(a, x) + Words(a, y)
  {
    hide Words;
    NoWordsInSpace(a, [space]);
    WordsOfConcat(a, x, [space]);
    WordsOfConcat(a, x + [space], y);
  }

  // ---------------------------------------------------------- Normal forms

  function Lower(a: Alphabet, s: string): string {
    seq(|s|, i requires 0 <= i < |s| => a.lower(s[i]))
  }

  /** The lower-cased words of a text. */
  function LowerWords(a: Alphabet, s: string): seq<string> {
    Words(a, Lower(a, s))
  }

  function Normalize(a: Alphabet, s: string): string {
    Join(LowerWords(a, s))
  }

  /** The characters `canonical` keeps. */
  function Kept(a: Alphabet, s: string): string {
    if s == "" then ""
    else
      var last := s[|s| - 1];
      Kept(a, s[..|s| - 1]) + if a.isAlphanumeric(last) || a.isSpace(last) then [last] else ""
  }

  function Canonical(a: Alphabet, s: string): string {
    Join(Words(a, Kept(a, Normalize(a, s))))
  }

  /** The words of the canonical form: what remains of each word without its
      punctuation, if anything does. */
  function CanonicalWords(a: Alphabet, s: string): seq<string> {
    KeptWords(a, LowerWords(a, s))
  }

  function KeptWords(a: Alphabet, ws: seq<string>): seq<string> {
    if ws == [] then []
    else
      var kept := Kept(a, ws[|ws| - 1]);
      KeptWords(a, ws[..|ws| - 1]) + if kept == "" then [] else [kept]
  }

  lemma {:induction false} KeptOfConcat(a: Alphabet, x: string, y: string)
    ensures Kept(a, x + y) == Kept(a, x) + Kept(a, y)
  {
    if y == "" {
      assert x + y == x;
    } else {
      KeptOfConcat(a, x, y[..|y| - 1]);
      assert (x + y)[..|x + y| - 1] == x + y[..|y| - 1];
    }
  }

  /** `canonical` deletes just the characters that are neither letters nor digits nor
      white space, wherever they stand. */
  lemma KeptIsAFilter(a: Alphabet, x: string, c: char, y: string)
    ensures Kept(a, x + [c] + y) == Kept(a, x) + (if a.isAlphanumeric(c) || a.isSpace(c) then [c] else "") + Kept(a, y)
    ensures Kept(a, "") == ""
  {
    KeptOfConcat(a, x + [c], y);
    KeptOfConcat(a, x, [c]);
    assert [c][..0] == "";
  }

  /** Texts that differ only in case have the same normal and canonical forms. */
  lemma CaseIsIgnored(a: Alphabet, x: string, y: string)
    requires |x| == |y| && forall i :: 0 <= i < |x| ==> a.lower(x[i]) == a.lower(y[i])
    ensures Normalize(a, x) == Normalize(a, y) && Canonical(a, x) == Canonical(a, y)
  {
    assert Lower(a, x) == Lower(a, y);
  }

  lemma {:induction false} KeptIsSpaceless(a: Alphabet, w: string)
    requires forall c <- w :: !a.isSpace(c)
    ensures forall c <- Kept(a, w) :: !a.isSpace(c)
  {
    if w != "" {
      assert forall c <- w[..|w| - 1] :: c in w;
      KeptIsSpaceless(a, w[..|w| - 1]);
    }
  }

  lemma {:induction false} KeptWordsAreWords(a: Alphabet, ws: seq<string>)
    requires AreWords(a, ws)
    ensures AreWords(a, KeptWords(a, ws))
  {
    if ws != [] {
      KeptWordsAreWords(a, ws[..|ws| - 1]);
      assert IsWord(a, ws[|ws| - 1]);
      KeptIsSpaceless(a, ws[|ws| - 1]);
    }
  }

  lemma {:induction false} WordsOfKeptJoin(a: Alphabet, ws: seq<string>)
    requires AreWords(a, ws)
    ensures Words(a, Kept(a, Join(ws))) == KeptWords(a, ws)
  {
    hide Words, Kept;
    if ws == [] {
      KeptBlank(a);
      NoWordsInSpace(a, "");
    } else {
      var n := |ws| - 1;
      WordsOfKeptWord(a, ws[n]);
      WordsOfKeptJoin(a, ws[..n]);
      if n > 0 {
        KeptOfSpaced(a, Join(ws[..n]), ws[n]);
        WordsOfSpaced(a, Kept(a, Join(ws[..n])), ' ', Kept(a, ws[n]));
      }
    }
  }

  lemma WordsOfKeptWord(a: Alphabet, w: string)
    requires IsWord(a, w)
    ensures Words(a, Kept(a, w)) == if Kept(a, w) == "" then [] else [Kept(a, w)]
  {
    hide Words, Kept;
    KeptIsSpaceless(a, w);
    if Kept(a, w) == "" {
      NoWordsInSpace(a, "");
    } else {
      WordsOfWord(a, Kept(a, w));
    }
  }

  lemma KeptOfSpaced(a: Alphabet, x: string, y: string)
    ensures Kept(a, x + " " + y) == Kept(a, x) + " " + Kept(a, y)
  {
    KeptBlank(a);
    hide Kept;
    KeptOfConcat(a, x, " ");
    KeptOfConcat(a, x + " ", y);
  }

  lemma KeptBlank(a: Alphabet)
    ensures Kept(a, "") == "" && Kept(a, " ") == " "
  {
    assert " "[..0] == "";
  }

  /** `canonical(text).split_whitespace()` is `CanonicalWords`, and `canonical` joins them. */
  lemma CanonicalIsItsWords(a: Alphabet, s: string)
    ensures Canonical(a, s) == Join(CanonicalWords(a, s))
    ensures Words(a, Canonical(a, s)) == CanonicalWords(a, s)
    ensures AreWords(a, CanonicalWords(a, s))
  {
    WordsAreWords(a, Lower(a, s));
    WordsOfKeptJoin(a, LowerWords(a, s));
    KeptWordsAreWords(a, LowerWords(a, s));
    WordsOfJoin(a, CanonicalWords(a, s));
  }

  lemma {:induction false} KeptWordsOfConcat(a: Alphabet, x: seq<string>, y: seq<string>)
    ensures KeptWords(a, x + y) == KeptWords(a, x) + KeptWords(a, y)
  {
    if y == [] {
      assert x + y == x;
    } else {
      KeptWordsOfConcat(a, x, y[..|y| - 1]);
      assert (x + y)[..|x + y| - 1] == x + y[..|y| - 1];
    }
  }

  lemma LowerWordsOfConcat(a: Alphabet, x: string, y: string)
    requires Separable(a, x, y)
    ensures LowerWords(a, x + y) == LowerWords(a, x) + LowerWords(a, y)
  {
    assert Lower(a, x + y) == Lower(a, x) + Lower(a, y);
    WordsOfConcat(a, Lower(a, x), Lower(a, y));
  }

  lemma NoLowerWordsInSpace(a: Alphabet, s: string)
    requires forall c <- s :: a.isSpace(c)
    ensures LowerWords(a, s) == []
  {
    forall c <- Lower(a, s) ensures a.isSpace(c) {
      var i :| 0 <= i < |s| && Lower(a, s)[i] == c;
      assert s[i] in s;
    }
    NoWordsInSpace(a, Lower(a, s));
  }

  lemma LowerWordsOfSpaced(a: Alphabet, x: string, space: char, y: string)
    requires a.isSpace(space)
    ensures LowerWords(a, x + [space] + y) == LowerWords(a, x) + LowerWords(a, y)
  {
    hide LowerWords;
    LowerWordsOfConcat(a, x, [space]);
    NoLowerWordsInSpace(a, [space]);
    LowerWordsOfConcat(a, x + [space], y);
  }

  /** Two texts with a space between them have the canonical words of both. */
  lemma CanonicalWordsOfJoined(a: Alphabet, x: string, y: string)
    ensures CanonicalWords(a, x + " " + y) == CanonicalWords(a, x) + CanonicalWords(a, y)
  {
    LowerWordsOfSpaced(a, x, ' ', y);
    KeptWordsOfConcat(a, LowerWords(a, x), LowerWords(a, y));
  }

  /** `content_words`: canonical words of at least `minLen` characters. */
  function ContentWords(a: Alphabet, s: string, minLen: nat): seq<string> {
    LongWords(Words(a, Canonical(a, s)), minLen)
  }

  function LongWords(ws: seq<string>, minLen: nat): seq<string> {
    if ws == [] then []
    else LongWords(ws[..|ws| - 1], minLen) + if |ws[|ws| - 1]| >= minLen then [ws[|ws| - 1]] else []
  }

  lemma {:induction false} LongWordsAre(ws: seq<string>, minLen: nat)
    ensures forall w :: w in LongWords(ws, minLen) <==> w in ws && |w| >= minLen
  {
    if ws != [] {
      LongWordsAre(ws[..|ws| - 1], minLen);
      assert ws == ws[..|ws| - 1] + [ws[|ws| - 1]];
    }
  }

  // --------------------------------------------------------------- Searching

  ghost predicate Contains(s: string, part: string) {
    exists k :: 0 <= k && IsAt(s, part, k)
  }

  predicate IsAt(s: string, part: string, k: nat) {
    k + |part| <= |s| && s[k..k + |part|] == part
  }

  /** `str::contains` */
  function Finds(s: string, part: string): (found: bool)
    ensures found <==> Contains(s, part)
  {
    FindsFrom(s, part, 0)
  }

  function FindsFrom(s: string, part: string, k: nat): (found: bool)
    ensures found <==> exists j :: k <= j && IsAt(s, part, j)
    decreases |s| + 1 - k
  {
    if k + |part| > |s| then false else IsAt(s, part, k) || FindsFrom(s, part, k + 1)
  }

  /** Consecutive words joined are found in all the words joined. */
  lemma RunOfWordsIsFound(before: seq<string>, run: seq<string>, behind: seq<string>)
    ensures Contains(Join(before + run + behind), Join(run))
  {
    hide Join;
    var prefix := if before == [] then "" else Join(before) + " ";
    var suffix := if behind == [] then "" else " " + Join(behind);
    if run == [] {
      assert Join(run) == "" by {
        JoinOfFew("");
      }
      assert IsAt(Join(before + run + behind), "", 0);
    } else {
      assert Join(before + run) == prefix + Join(run) by {
        if before == [] {
          assert before + run == run;
        } else {
          JoinOfConcat(before, run);
        }
      }
      assert Join(before + run + behind) == prefix + Join(run) + suffix by {
        if behind == [] {
          assert before + run + behind == before + run;
        } else {
          JoinOfConcat(before + run, behind);
        }
      }
      assert IsAt(Join(before + run + behind), Join(run), |prefix|);
    }
  }

  /** A word with a space on either side is found among padded words exactly when it
      is one of them. */
  lemma PaddedWordIsFound(a: Alphabet, ws: seq<string>, w: string)
    requires AreWords(a, ws) && IsWord(a, w)
    ensures Contains(" " + Join(ws) + " ", " " + w + " ") <==> w in ws
  {
    var padded := " " + Join(ws) + " ";
    if w in ws {
      PaddedWordIsThere(ws, w);
    }
    if Contains(padded, " " + w + " ") {
      var k: nat :| IsAt(padded, " " + w + " ", k);
      var x, y := padded[..k], padded[k + |w| + 2..];
      assert padded == x + (" " + w + " ") + y;
      assert padded == (x + " ") + w + (" " + y);
      WordsOfWord(a, w);
      WordsOfConcat(a, x + " ", w);
      WordsOfConcat(a, x + " " + w, " " + y);
      WordsOfPadded(a, ws);
    }
  }

  lemma WordsOfPadded(a: Alphabet, ws: seq<string>)
    requires AreWords(a, ws)
    ensures Words(a, " " + Join(ws) + " ") == ws
  {
    WordsOfJoin(a, ws);
    NoWordsInSpace(a, " ");
    WordsOfConcat(a, " ", Join(ws));
    WordsOfConcat(a, " " + Join(ws), " ");
  }

  lemma PaddedWordIsThere(ws: seq<string>, w: string)
    requires w in ws
    ensures Contains(" " + Join(ws) + " ", " " + w + " ")
  {
    var i :| 0 <= i < |ws| && ws[i] == w;
    assert ws == ws[..i] + [w] + ws[i + 1..];
    var prefix, suffix := PaddedJoin(ws[..i], w, ws[i + 1..]);
    assert IsAt(" " + Join(ws) + " ", " " + w + " ", |prefix|);
  }

  lemma PaddedJoin(before: seq<string>, w: string, behind: seq<string>) returns (prefix: string, suffix: string)
    ensures " " + Join(before + [w] + behind) + " " == prefix + (" " + w + " ") + suffix
  {
    hide Join;
    JoinOfFew(w);
    if before == [] {
      prefix := "";
      assert before + [w] == [w];
    } else {
      prefix := " " + Join(before);
      JoinOfConcat(before, [w]);
    }
    assert " " + Join(before + [w]) == prefix + " " + w;
    if behind == [] {
      suffix := "";
      assert before + [w] + behind == before + [w];
    } else {
      suffix := Join(behind) + " ";
      JoinOfConcat(before + [w], behind);
    }
  }

  // --------------------------------------------------------------- Sentences

  function TrimStart(a: Alphabet, s: string): string {
    if s != "" && a.isSpace(s[0]) then TrimStart(a, s[1..]) else s
  }

  function TrimEnd(a: Alphabet, s: string): string {
    if s != "" && a.isSpace(s[|s| - 1]) then TrimEnd(a, s[..|s| - 1]) else s
  }

  function Trim(a: Alphabet, s: string): string {
    TrimEnd(a, TrimStart(a, s))
  }

  lemma {:induction false} TrimKeepsWords(a: Alphabet, s: string)
    ensures LowerWords(a, Trim(a, s)) == LowerWords(a, s)
  {
    TrimStartKeepsWords(a, s);
    TrimEndKeepsWords(a, TrimStart(a, s));
  }

  lemma {:induction false} TrimStartKeepsWords(a: Alphabet, s: string)
    ensures LowerWords(a, TrimStart(a, s)) == LowerWords(a, s)
  {
    hide LowerWords;
    if s != "" && a.isSpace(s[0]) {
      TrimStartKeepsWords(a, s[1..]);
      LowerWordsOfConcat(a, [s[0]], s[1..]);
      NoLowerWordsInSpace(a, [s[0]]);
      assert s == [s[0]] + s[1..];
    }
  }

  lemma {:induction false} TrimEndKeepsWords(a: Alphabet, s: string)
    ensures LowerWords(a, TrimEnd(a, s)) == LowerWords(a, s)
  {
    hide LowerWords;
    if s != "" && a.isSpace(s[|s| - 1]) {
      var n := |s| - 1;
      TrimEndKeepsWords(a, s[..n]);
      LowerWordsOfConcat(a, s[..n], [s[n]]);
      NoLowerWordsInSpace(a, [s[n]]);
      assert s == s[..n] + [s[n]];
    }
  }

  function LineEnd(text: string, i: nat): (end: nat)
    requires i <= |text|
    ensures i <= end <= |text|
    ensures end < |text| ==> text[end] == '\n'
    decreases |text| - i
  {
    if i == |text| || text[i] == '\n' then i else LineEnd(text, i + 1)
  }

  function WithoutReturn(line: string): string {
    if line != "" && line[|line| - 1] == '\r' then line[..|line| - 1] else line
  }

  /** `str::lines` */
  function Lines(text: string): seq<string> {
    if text == "" then []
    else
      var end := LineEnd(text, 0);
      if end == |text| then [text]
      else [WithoutReturn(text[..end])] + Lines(text[end + 1..])
  }

  /** A sentence ends before position `i` of a line. */
  predicate EndsAt(a: Alphabet, line: string, i: nat)
    requires 0 < i <= |line|
  {
    line[i - 1] in ".?!" && (i == |line| || a.isSpace(line[i]))
  }

  /** Where the sentence that starts at `from` ends, looking from `i` on. */
  function SentenceEnd(a: Alphabet, line: string, i: nat): (end: nat)
    requires 0 < i <= |line|
    ensures i <= end <= |line|
    ensures end == |line| || a.isSpace(line[end])
    decreases |line| - i
  {
    if i == |line| || EndsAt(a, line, i) then i else SentenceEnd(a, line, i + 1)
  }

  function Trimmed(a: Alphabet, piece: string): seq<string> {
    if Trim(a, piece) == "" then [] else [Trim(a, piece)]
  }

  function LineSentences(a: Alphabet, line: string, from: nat): seq<string>
    requires from <= |line|
    decreases |line| - from
  {
    if from == |line| then []
    else
      var end := SentenceEnd(a, line, from + 1);
      Trimmed(a, line[from..end]) + LineSentences(a, line, end)
  }

  function SentencesOf(a: Alphabet, lines: seq<string>): seq<string> {
    if lines == [] then []
    else SentencesOf(a, lines[..|lines| - 1]) + LineSentences(a, lines[|lines| - 1], 0)
  }

  function Sentences(a: Alphabet, text: string): seq<string> {
    SentencesOf(a, Lines(text))
  }

  /** `sentences` */
  method SplitSentences(a: Alphabet, text: string) returns (out: seq<string>)
    ensures out == Sentences(a, text)
  {
    out := [];
    var lines := Lines(text);
    for l := 0 to |lines|
      invariant out == SentencesOf(a, lines[..l])
    {
      out := SplitLine(a, lines[l], out);
      assert lines[..l + 1][..l] == lines[..l];
    }
    assert lines[..|lines|] == lines;
  }

  /** The loop over the characters of one line. */
  method SplitLine(a: Alphabet, line: string, before: seq<string>) returns (out: seq<string>)
    ensures out == before + LineSentences(a, line, 0)
  {
    hide IsOpen, IsRest, SentenceEnd, LineSentences, Trimmed;
    out := before;
    var current := "";
    ghost var from := 0;
    StartOfLine(a, line, before);
    for i := 0 to |line|
      invariant from <= i && current == line[from..i]
      invariant IsOpen(a, line, from, i)
      invariant IsRest(a, line, before, out, from)
    {
      var c := line[i];
      current := current + [c];
      ReadOne(a, line, from, i);
      if c in ".?!" && (i + 1 == |line| || a.isSpace(line[i + 1])) {
        Cut(a, line, from, i + 1, before, out);
        out, current := PushTrimmed(a, out, current);
        from := i + 1;
        OpensHere(a, line, from);
      }
    }
    EndOfLine(a, line, from, before, out);
    out, current := PushTrimmed(a, out, current);
  }

  lemma StartOfLine(a: Alphabet, line: string, before: seq<string>)
    ensures IsOpen(a, line, 0, 0) && IsRest(a, line, before, before, 0)
  {
  }

  lemma OpensHere(a: Alphabet, line: string, from: nat)
    requires from <= |line|
    ensures IsOpen(a, line, from, from)
  {
  }

  lemma EndOfLine(a: Alphabet, line: string, from: nat, before: seq<string>, out: seq<string>)
    requires from <= |line| && IsOpen(a, line, from, |line|) && IsRest(a, line, before, out, from)
    ensures out + Trimmed(a, line[from..|line|]) == before + LineSentences(a, line, 0)
  {
    if from < |line| {
      Cut(a, line, from, |line|, before, out);
    }
    var all := out + Trimmed(a, line[from..|line|]);
    assert LineSentences(a, line, |line|) == [] && all + [] == all;
  }

  lemma ReadOne(a: Alphabet, line: string, from: nat, i: nat)
    requires from <= i < |line| && IsOpen(a, line, from, i)
    ensures line[from..i + 1] == line[from..i] + [line[i]]
    ensures EndsAt(a, line, i + 1) ==> SentenceEnd(a, line, from + 1) == i + 1
    ensures !EndsAt(a, line, i + 1) ==> IsOpen(a, line, from, i + 1)
  {
    if from < i {
      assert SentenceEnd(a, line, i) == SentenceEnd(a, line, i + 1);
    }
  }

  /** The sentence that starts at `from` has not ended at or before `i`. */
  predicate IsOpen(a: Alphabet, line: string, from: nat, i: nat)
    requires from <= i <= |line|
  {
    from < i ==> SentenceEnd(a, line, from + 1) == SentenceEnd(a, line, i) && (i < |line| ==> !EndsAt(a, line, i))
  }

  /** `out` lacks exactly the sentences of line[from..]. */
  predicate IsRest(a: Alphabet, line: string, before: seq<string>, out: seq<string>, from: nat)
    requires from <= |line|
  {
    out + LineSentences(a, line, from) == before + LineSentences(a, line, 0)
  }

  lemma Cut(a: Alphabet, line: string, from: nat, end: nat, before: seq<string>, out: seq<string>)
    requires from < end <= |line| && SentenceEnd(a, line, from + 1) == end
    requires IsRest(a, line, before, out, from)
    ensures IsRest(a, line, before, out + Trimmed(a, line[from..end]), end)
  {
  }

  method PushTrimmed(a: Alphabet, out: seq<string>, current: string) returns (pushed: seq<string>, cleared: string)
    ensures pushed == out + Trimmed(a, current) && cleared == ""
  {
    var trimmed := Trim(a, current);
    pushed := if trimmed != "" then out + [trimmed] else out;
    cleared := "";
  }

  /** The lower-cased words of all texts in order. */
  function AllWords(a: Alphabet, texts: seq<string>): seq<string> {
    if texts == [] then [] else AllWords(a, texts[..|texts| - 1]) + LowerWords(a, texts[|texts| - 1])
  }

  lemma {:induction false} AllWordsOfConcat(a: Alphabet, x: seq<string>, y: seq<string>)
    ensures AllWords(a, x + y) == AllWords(a, x) + AllWords(a, y)
  {
    if y == [] {
      assert x + y == x;
    } else {
      var n := |y| - 1;
      AllWordsOfConcat(a, x, y[..n]);
      assert (x + y)[..|x + y| - 1] == x + y[..n] && (x + y)[|x + y| - 1] == y[n];
    }
  }

  lemma TrimmedKeepsWords(a: Alphabet, piece: string)
    ensures AllWords(a, Trimmed(a, piece)) == LowerWords(a, piece)
  {
    TrimKeepsWords(a, piece);
    if Trim(a, piece) == "" {
      NoLowerWordsInSpace(a, "");
    } else {
      WordsOfOne(a, Trim(a, piece));
    }
  }

  lemma AllWordsOfNone(a: Alphabet)
    ensures AllWords(a, []) == []
  {
  }

  lemma WordsOfOne(a: Alphabet, text: string)
    ensures AllWords(a, [text]) == LowerWords(a, text)
  {
    assert [text][..0] == [];
  }

  lemma {:induction false} LineSentencesKeepWords(a: Alphabet, line: string, from: nat)
    requires from <= |line|
    ensures AllWords(a, LineSentences(a, line, from)) == LowerWords(a, line[from..])
    decreases |line| - from
  {
    hide AllWords, LowerWords, Trimmed, SentenceEnd;
    if from == |line| {
      assert line[from..] == "";
      NoLowerWordsInSpace(a, "");
      AllWordsOfNone(a);
    } else {
      var end := SentenceEnd(a, line, from + 1);
      LineSentencesKeepWords(a, line, end);
      TrimmedKeepsWords(a, line[from..end]);
      AllWordsOfConcat(a, Trimmed(a, line[from..end]), LineSentences(a, line, end));
      assert line[from..] == line[from..end] + line[end..];
      LowerWordsOfConcat(a, line[from..end], line[end..]);
    }
  }

  lemma {:induction false} SentencesOfKeepWords(a: Alphabet, lines: seq<string>)
    ensures AllWords(a, SentencesOf(a, lines)) == AllWords(a, lines)
  {
    if lines != [] {
      var n := |lines| - 1;
      SentencesOfKeepWords(a, lines[..n]);
      LineSentencesKeepWords(a, lines[n], 0);
      assert lines[n][0..] == lines[n];
      AllWordsOfConcat(a, SentencesOf(a, lines[..n]), LineSentences(a, lines[n], 0));
    }
  }

  lemma WithoutReturnKeepsWords(a: Alphabet, line: string)
    ensures AllWords(a, [WithoutReturn(line)]) == LowerWords(a, line)
  {
    WordsOfOne(a, WithoutReturn(line));
    if WithoutReturn(line) != line {
      LowerWordsOfConcat(a, WithoutReturn(line), "\r");
      NoLowerWordsInSpace(a, "\r");
      assert line == WithoutReturn(line) + "\r";
    }
  }

  lemma {:induction false} LinesKeepWords(a: Alphabet, text: string)
    ensures AllWords(a, Lines(text)) == LowerWords(a, text)
  {
    hide AllWords, LowerWords, LineEnd;
    if text == "" {
      NoLowerWordsInSpace(a, "");
      AllWordsOfNone(a);
    } else {
      var end := LineEnd(text, 0);
      if end == |text| {
        WordsOfOne(a, text);
      } else {
        LinesKeepWords(a, text[end + 1..]);
        FirstLineKeepsWords(a, text[..end], text[end + 1..], Lines(text[end + 1..]));
        assert text == text[..end] + ['\n'] + text[end + 1..];
      }
    }
  }

  lemma FirstLineKeepsWords(a: Alphabet, line: string, rest: string, lines: seq<string>)
    requires AllWords(a, lines) == LowerWords(a, rest)
    ensures AllWords(a, [WithoutReturn(line)] + lines) == LowerWords(a, line + ['\n'] + rest)
  {
    WithoutReturnKeepsWords(a, line);
    AllWordsOfConcat(a, [WithoutReturn(line)], lines);
    LowerWordsOfSpaced(a, line, '\n', rest);
  }

  /** Splitting a text into sentences neither splits, loses, repeats nor reorders a word. */
  lemma SentencesKeepWords(a: Alphabet, text: string)
    ensures AllWords(a, Sentences(a, text)) == LowerWords(a, text)
  {
    SentencesOfKeepWords(a, Lines(text));
    LinesKeepWords(a, text);
  }

  /** Every sentence, normalised, is found in its normalised text. */
  lemma SentenceIsQuotable(a: Alphabet, text: string, sentence: string)
    requires sentence in Sentences(a, text)
    ensures Contains(Normalize(a, text), Normalize(a, sentence))
  {
    var all := Sentences(a, text);
    var i :| 0 <= i < |all| && all[i] == sentence;
    SentencesKeepWords(a, text);
    assert all == all[..i] + [sentence] + all[i + 1..];
    AllWordsOfConcat(a, all[..i], [sentence]);
    AllWordsOfConcat(a, all[..i] + [sentence], all[i + 1..]);
    WordsOfOne(a, sentence);
    RunOfWordsIsFound(AllWords(a, all[..i]), LowerWords(a, sentence), AllWords(a, all[i + 1..]));
  }

  // ------------------------------------------------------------------ Tokens

  /** Bytes of a character in UTF-8. */
  function Utf8(c: char): nat {
    if c as int < 0x80 then 1 else if c as int < 0x800 then 2 else if c as int < 0x1_0000 then 3 else 4
  }

  /** The first code point too large for `n` bytes: 7, 11, 16 and 21 payload bits, the last
      cut off at the end of Unicode (RFC 3629, section 3). */
  function FirstBeyond(n: nat): nat {
    match n
    case 1 => 0x80
    case 2 => 0x800
    case 3 => 0x1_0000
    case 4 => 0x11_0000
    case _ => 0
  }

  /** A character takes the fewest bytes that hold its code point. */
  lemma Utf8IsShortest(c: char)
    ensures 1 <= Utf8(c) <= 4 && FirstBeyond(Utf8(c) - 1) <= c as int < FirstBeyond(Utf8(c))
  {
  }

  function Bytes(s: string): nat {
    if s == "" then 0 else Bytes(s[..|s| - 1]) + Utf8(s[|s| - 1])
  }

  lemma {:induction false} BytesOfConcat(x: string, y: string)
    ensures Bytes(x + y) == Bytes(x) + Bytes(y)
  {
    if y == "" {
      assert x + y == x;
    } else {
      BytesOfConcat(x, y[..|y| - 1]);
      assert (x + y)[..|x + y| - 1] == x + y[..|y| - 1];
    }
  }

  /** `estimate_tokens`: ceil(bytes / 4) */
  function EstimateTokens(s: string): nat {
    (Bytes(s) + 3) / 4
  }

  /** The estimate is the least number of tokens of four bytes that hold the text, and
      two texts together never need more than one after the other. */
  lemma EstimateIsLeast(x: string, y: string)
    ensures 4 * EstimateTokens(x) >= Bytes(x) && (x != "" ==> 4 * (EstimateTokens(x) - 1) < Bytes(x))
    ensures EstimateTokens(x) <= EstimateTokens(x + y) <= EstimateTokens(x) + EstimateTokens(y)
  {
    BytesOfConcat(x, y);
    BytesArePositive(x);
  }

  lemma {:induction false} BytesArePositive(x: string)
    ensures Bytes(x) >= |x|
  {
    if x != "" {
      BytesArePositive(x[..|x| - 1]);
    }
  }
}
