/** Where sentences begin and end: laws that determine `sentences` of
    `crates/surreal-memory/src/compression/text.rs` without its loop. */
module Splitting {
  import opened Text

  /** A `.`, `?` or `!` with white space behind it. */
  predicate IsEnd(a: Alphabet, line: string, i: nat)
    requires 0 < i < |line|
  {
    (line[i - 1] == '.' || line[i - 1] == '?' || line[i - 1] == '!') && a.isSpace(line[i])
  }

  // ------------------------------------------------------------ Within a line

  lemma {:induction false} NoEndAhead(a: Alphabet, line: string, i: nat)
    requires 0 < i <= |line| && forall k: nat :: i <= k < |line| ==> !IsEnd(a, line, k)
    ensures SentenceEnd(a, line, i) == |line|
    decreases |line| - i
  {
    if i < |line| {
      assert !IsEnd(a, line, i);
      NoEndAhead(a, line, i + 1);
    }
  }

  lemma {:induction false} SentenceEndsWithin(a: Alphabet, x: string, y: string, i: nat)
    requires 0 < i <= |x| && y != "" && EndsAt(a, x, |x|) && a.isSpace(y[0])
    ensures SentenceEnd(a, x + y, i) == SentenceEnd(a, x, i)
    decreases |x| - i
  {
    if i < |x| {
      SentenceEndsWithin(a, x, y, i + 1);
    }
  }

  lemma {:induction false} SentenceEndsBehind(a: Alphabet, x: string, y: string, i: nat)
    requires 0 < i <= |y|
    ensures SentenceEnd(a, x + y, |x| + i) == |x| + SentenceEnd(a, y, i)
    decreases |y| - i
  {
    if i < |y| {
      SentenceEndsBehind(a, x, y, i + 1);
    }
  }

  lemma {:induction false} SentencesBehind(a: Alphabet, x: string, y: string, from: nat)
    requires from <= |y|
    ensures LineSentences(a, x + y, |x| + from) == LineSentences(a, y, from)
    decreases |y| - from
  {
    hide SentenceEnd, Trimmed;
    if from < |y| {
      SentenceEndsBehind(a, x, y, from + 1);
      var end := SentenceEnd(a, y, from + 1);
      SentencesBehind(a, x, y, end);
      assert (x + y)[|x| + from..|x| + end] == y[from..end];
    }
  }

  lemma {:induction false} SentencesWithin(a: Alphabet, x: string, y: string, from: nat)
    requires from <= |x| && x != "" && y != "" && EndsAt(a, x, |x|) && a.isSpace(y[0])
    ensures LineSentences(a, x + y, from) == LineSentences(a, x, from) + LineSentences(a, y, 0)
    decreases |x| - from
  {
    hide SentenceEnd, EndsAt, Trimmed;
    if from == |x| {
      SentencesBehind(a, x, y, 0);
    } else {
      SentenceEndsWithin(a, x, y, from + 1);
      var end := SentenceEnd(a, x, from + 1);
      SentencesWithin(a, x, y, end);
      assert (x + y)[from..end] == x[from..end];
    }
  }

  /** A line without an end inside is one sentence, trimmed; an empty one is none. */
  lemma LineWithoutEnds(a: Alphabet, line: string)
    requires forall k: nat :: 0 < k < |line| ==> !IsEnd(a, line, k)
    ensures LineSentences(a, line, 0) == if Trim(a, line) == "" then [] else [Trim(a, line)]
  {
    if line != "" {
      NoEndAhead(a, line, 1);
      assert line[0..|line|] == line && LineSentences(a, line, |line|) == [];
    }
  }

  /** At an end a line falls into two, whatever is on either side. */
  lemma LineSplitsAtEnds(a: Alphabet, line: string, k: nat)
    requires 0 < k < |line| && IsEnd(a, line, k)
    ensures LineSentences(a, line, 0) == LineSentences(a, line[..k], 0) + LineSentences(a, line[k..], 0)
  {
    assert line == line[..k] + line[k..];
    SentencesWithin(a, line[..k], line[k..], 0);
  }

  // -------------------------------------------------------------- Whole texts

  lemma {:induction false} FirstNewline(x: string, rest: string, i: nat)
    requires i <= |x| && '\n' !in x && (rest == "" || rest[0] == '\n')
    ensures LineEnd(x + rest, i) == |x|
    decreases |x| - i
  {
    if i < |x| {
      assert (x + rest)[i] == x[i] && x[i] in x;
      FirstNewline(x, rest, i + 1);
    }
  }

  lemma {:induction false} FirstOfLines(a: Alphabet, line: string, lines: seq<string>)
    ensures SentencesOf(a, [line] + lines) == LineSentences(a, line, 0) + SentencesOf(a, lines)
  {
    hide LineSentences;
    if lines == [] {
      assert [line] + lines == [line] && [line][..0] == [];
      assert SentencesOf(a, []) == [] && [] + LineSentences(a, line, 0) == LineSentences(a, line, 0) + [];
    } else {
      var n := |lines| - 1;
      FirstOfLines(a, line, lines[..n]);
      assert ([line] + lines)[..n + 1] == [line] + lines[..n];
    }
  }

  /** A text of one line has the sentences of the line. */
  lemma TextOfOneLine(a: Alphabet, line: string)
    requires '\n' !in line
    ensures Sentences(a, line) == LineSentences(a, line, 0)
  {
    if line != "" {
      FirstNewline(line, "", 0);
      assert line + "" == line;
      assert Lines(line) == [line];
      FirstOfLines(a, line, []);
      assert [line] + [] == [line];
    }
  }

  /** No sentence crosses a line break, with or without a carriage return. */
  lemma TextSplitsAtLines(a: Alphabet, line: string, rest: string)
    requires '\n' !in line && (line != "" ==> line[|line| - 1] != '\r')
    ensures Sentences(a, line + "\n" + rest) == Sentences(a, line) + Sentences(a, rest)
    ensures Sentences(a, line + "\r\n" + rest) == Sentences(a, line) + Sentences(a, rest)
  {
    hide Sentences, LineSentences;
    TextOfOneLine(a, line);
    AfterFirstLine(a, line, rest);
    AfterFirstLine(a, line + "\r", rest);
    assert (line + "\r")[..|line|] == line;
    assert line + "\r\n" + rest == (line + "\r") + "\n" + rest;
  }

  lemma AfterFirstLine(a: Alphabet, line: string, rest: string)
    requires '\n' !in line
    ensures Sentences(a, line + "\n" + rest) == LineSentences(a, WithoutReturn(line), 0) + Sentences(a, rest)
  {
    var text := line + "\n" + rest;
    FirstNewline(line, "\n" + rest, 0);
    assert text == line + ("\n" + rest);
    assert text[..|line|] == line && text[|line| + 1..] == rest;
    FirstOfLines(a, WithoutReturn(line), Lines(rest));
  }

  // ----------------------------------------------------------------- Trimming

  predicate IsBlank(a: Alphabet, s: string) {
    forall c <- s :: a.isSpace(c)
  }

  lemma {:induction false} TrimStartIs(a: Alphabet, s: string) returns (front: string)
    ensures IsBlank(a, front) && s == front + TrimStart(a, s)
    ensures TrimStart(a, s) != "" ==> !a.isSpace(TrimStart(a, s)[0])
  {
    front := "";
    if s != "" && a.isSpace(s[0]) {
      front := TrimStartIs(a, s[1..]);
      front := [s[0]] + front;
    }
  }

  lemma {:induction false} TrimEndIs(a: Alphabet, s: string) returns (back: string)
    ensures IsBlank(a, back) && s == TrimEnd(a, s) + back
    ensures var t := TrimEnd(a, s); t != "" ==> !a.isSpace(t[|t| - 1]) && t[0] == s[0]
  {
    back := "";
    if s != "" && a.isSpace(s[|s| - 1]) {
      back := TrimEndIs(a, s[..|s| - 1]);
      back := back + [s[|s| - 1]];
    }
  }

  /** Trimming takes away all white space at either end and nothing else. */
  lemma TrimIs(a: Alphabet, s: string) returns (front: string, back: string)
    ensures IsBlank(a, front) && IsBlank(a, back) && s == front + Trim(a, s) + back
    ensures var t := Trim(a, s); t != "" ==> !a.isSpace(t[0]) && !a.isSpace(t[|t| - 1])
  {
    front := TrimStartIs(a, s);
    back := TrimEndIs(a, TrimStart(a, s));
  }
}
