/** Key-point extraction from one agent reply: the stripped, non-empty lines
    that are numbered items, bullet items, or short lines with an action
    keyword, in their original order, at most ten of them. */
module KeyPointExtraction {
  import opened Text

  const ActionKeywords: seq<string> :=
    ["recommend", "suggest", "propose", "consider", "implement", "use", "deploy"]

  /** At most this many key points are kept per reply. */
  const MaxKeyPoints: nat := 10

  /** A line kept only for its keyword must be shorter than this. */
  const MaxKeywordLineLength: nat := 200

  /** Starts with one of "1." … "9.". */
  predicate IsNumbered(line: string)
  {
    |line| >= 2 && '1' <= line[0] <= '9' && line[1] == '.'
  }

  /** Starts with one of the bullet markers - • * →. */
  predicate IsBulleted(line: string)
  {
    |line| >= 1 && (line[0] == '-' || line[0] == '\U{2022}' || line[0] == '*' || line[0] == '\U{2192}')
  }

  /** The lower-cased line contains an action keyword (as a substring). */
  predicate HasActionKeyword(line: string)
  {
    AnyKeyword(Lower(line), ActionKeywords)
  }

  /** The test the extractor applies to a stripped, non-empty line. */
  predicate IsKeyPoint(line: string)
  {
    IsNumbered(line) || IsBulleted(line) || (HasActionKeyword(line) && |line| < MaxKeywordLineLength)
  }

  /** What one raw line contributes: its stripped form if that is a key point. */
  function KeptLine(line: string): seq<string>
  {
    var l := Strip(line);
    if l != "" && IsKeyPoint(l) then [l] else []
  }

  /** All key-point lines of `lines`, in order, before the cap. */
  function KeptLines(lines: seq<string>): seq<string>
  {
    if lines == [] then []
    else KeptLines(lines[..|lines| - 1]) + KeptLine(lines[|lines| - 1])
  }

  /** The lines of `lines`, each stripped. */
  function StrippedLines(lines: seq<string>): (r: seq<string>)
    ensures |r| == |lines|
    ensures forall i :: 0 <= i < |lines| ==> r[i] == Strip(lines[i])
  {
    if lines == [] then [] else StrippedLines(lines[..|lines| - 1]) + [Strip(lines[|lines| - 1])]
  }

  /** `_extract_key_points(content)`: at most ten entries, each a non-empty
      stripped line of `content` holding no line break. */
  function KeyPoints(content: string): (points: seq<string>)
    ensures |points| <= MaxKeyPoints
    ensures forall i :: 0 <= i < |points| ==> points[i] != "" && '\n' !in points[i]
    ensures forall i :: 0 <= i < |points| ==>
      !IsSpace(points[i][0]) && !IsSpace(points[i][|points[i]| - 1])
  {
    var kept := KeptLines(Split(content, '\n'));
    KeptLinesShape(Split(content, '\n'));
    Take(kept, MaxKeyPoints)
  }

  /** Every kept line is a non-empty stripped line without a separator. */
  lemma {:induction false} KeptLinesShape(lines: seq<string>)
    requires forall i :: 0 <= i < |lines| ==> '\n' !in lines[i]
    ensures forall x :: x in KeptLines(lines) ==>
      x != "" && '\n' !in x && !IsSpace(x[0]) && !IsSpace(x[|x| - 1])
  {
    if lines != [] {
      var last := lines[|lines| - 1];
      KeptLinesShape(lines[..|lines| - 1]);
      StrippedLineShape(last);
      assert KeptLines(lines) == KeptLines(lines[..|lines| - 1]) + KeptLine(last);
    }
  }

  lemma StrippedLineShape(line: string)
    requires '\n' !in line
    ensures var l := Strip(line);
      l != "" ==> '\n' !in l && !IsSpace(l[0]) && !IsSpace(l[|l| - 1])
  {
    StripSpec(line);
    if '\n' in Strip(line) {
      StripChars(line, '\n');
    }
  }

  /** The extractor as the source runs it: one pass over the lines, appending
      each qualifying stripped line, then the first ten. */
  method ExtractKeyPoints(content: string) returns (points: seq<string>)
    ensures points == KeyPoints(content)
  {
    var lines := Split(content, '\n');
    var keyPoints: seq<string> := [];
    for i := 0 to |lines|
      invariant keyPoints == KeptLines(lines[..i])
    {
      assert lines[..i + 1][..i] == lines[..i];
      var line := Strip(lines[i]);
      if line == "" {
        continue;
      }
      if IsNumbered(line) {
        keyPoints := keyPoints + [line];
      } else if IsBulleted(line) {
        keyPoints := keyPoints + [line];
      } else if HasActionKeyword(line) {
        if |line| < MaxKeywordLineLength {
          keyPoints := keyPoints + [line];
        }
      }
    }
    assert lines[..|lines|] == lines;
    points := Take(keyPoints, MaxKeyPoints);
  }

  /** A string is kept exactly when it is one of the stripped lines, is
      non-empty and passes the key-point test. */
  lemma {:induction false} KeptLinesMembership(lines: seq<string>, x: string)
    ensures x in KeptLines(lines) <==> x in StrippedLines(lines) && x != "" && IsKeyPoint(x)
  {
    if lines != [] {
      KeptLinesMembership(lines[..|lines| - 1], x);
    }
  }

  /** `idx` embeds `a` into `b`: strictly increasing positions of `b` that
      hold the elements of `a`, in order. */
  predicate Embeds(idx: seq<nat>, a: seq<string>, b: seq<string>)
  {
    && |idx| == |a|
    && (forall i :: 0 <= i < |idx| ==> idx[i] < |b| && a[i] == b[idx[i]])
    && (forall i, j :: 0 <= i < j < |idx| ==> idx[i] < idx[j])
  }

  /** `a` is `b` with some elements left out (same relative order). */
  ghost predicate IsSubsequence(a: seq<string>, b: seq<string>)
  {
    exists idx :: Embeds(idx, a, b)
  }

  /** The kept lines keep the order of the stripped input lines. */
  lemma {:induction false} KeptLinesSubsequence(lines: seq<string>)
    ensures IsSubsequence(KeptLines(lines), StrippedLines(lines))
  {
    if lines == [] {
      assert Embeds([], [], []);
    } else {
      var n := |lines| - 1;
      var init := lines[..n];
      KeptLinesSubsequence(init);
      var idx: seq<nat> :| Embeds(idx, KeptLines(init), StrippedLines(init));
      var y := Strip(lines[n]);
      EmbedsExtend(idx, KeptLines(init), StrippedLines(init), y);
      if KeptLine(lines[n]) == [] {
        assert KeptLines(lines) == KeptLines(init);
      } else {
        assert KeptLines(lines) == KeptLines(init) + [y];
      }
    }
  }

  /** Appending to the longer sequence keeps an embedding, and appending the
      same element to both extends it. */
  lemma EmbedsExtend(idx: seq<nat>, a: seq<string>, b: seq<string>, y: string)
    requires Embeds(idx, a, b)
    ensures Embeds(idx, a, b + [y])
    ensures Embeds(idx + [|b|], a + [y], b + [y])
  {
  }

  lemma TakeSubsequence(a: seq<string>, b: seq<string>, n: nat)
    requires IsSubsequence(a, b)
    ensures IsSubsequence(Take(a, n), b)
  {
    var idx: seq<nat> :| Embeds(idx, a, b);
    assert Embeds(Take(idx, n), Take(a, n), b);
  }

  /** The key points of a reply are among its stripped lines and keep their order. */
  lemma KeyPointsInLineOrder(content: string)
    ensures IsSubsequence(KeyPoints(content), StrippedLines(Split(content, '\n')))
  {
    var lines := Split(content, '\n');
    KeptLinesSubsequence(lines);
    TakeSubsequence(KeptLines(lines), StrippedLines(lines), MaxKeyPoints);
  }

  /** Which lines are kept: every key point is a stripped line of the reply
      that is numbered, bulleted, or shorter than 200 characters and holds an
      action keyword; a numbered or bulleted line is kept whatever its length,
      and all qualifying lines are kept when there are at most ten of them. */
  lemma KeyPointsSelection(content: string)
    ensures forall x :: x in KeyPoints(content) ==>
      && x in StrippedLines(Split(content, '\n'))
      && (IsNumbered(x) || IsBulleted(x) || (HasActionKeyword(x) && |x| < MaxKeywordLineLength))
    ensures forall x :: x in StrippedLines(Split(content, '\n')) && (IsNumbered(x) || IsBulleted(x)) ==>
      x in KeptLines(Split(content, '\n'))
    ensures |KeptLines(Split(content, '\n'))| <= MaxKeyPoints ==>
      KeyPoints(content) == KeptLines(Split(content, '\n'))
  {
    var lines := Split(content, '\n');
    forall x | x in KeyPoints(content)
      ensures x in StrippedLines(lines)
      ensures IsNumbered(x) || IsBulleted(x) || (HasActionKeyword(x) && |x| < MaxKeywordLineLength)
    {
      KeptLinesMembership(lines, x);
    }
    forall x | x in StrippedLines(lines) && (IsNumbered(x) || IsBulleted(x))
      ensures x in KeptLines(lines)
    {
      KeptLinesMembership(lines, x);
    }
  }
}
