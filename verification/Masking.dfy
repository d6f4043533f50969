/**
 * How masking code (scripts/docs/check.py `mask_code`) behaves when a text is cut and put together
 * again: at a character the mask leaves visible, the two sides are masked as if each stood alone.
 */
module Masking {
  import opened Wrappers
  import opened Text
  import opened Fences

  // --- Texts and lines ------------------------------------------------------------------------------------

  lemma {:induction false} JoinConcat(a: seq<string>, b: seq<string>)
    requires a != [] && b != []
    ensures Join("\n", a + b) == Join("\n", a) + "\n" + Join("\n", b)
    decreases |a|
  {
    assert (a + b)[1..] == a[1..] + b;
    if |a| > 1 {
      JoinConcat(a[1..], b);
    }
  }

  lemma {:induction false} JoinSplits(lines: seq<string>)
    requires lines != [] && forall i :: 0 <= i < |lines| ==> OneLine(lines[i])
    ensures Split(Join("\n", lines)) == lines
    decreases |lines|
  {
    var text := Join("\n", lines);
    if |lines| == 1 {
      FirstNewlineIs(text, |text|);
      SplitLast(text);
    } else {
      var rest := Join("\n", lines[1..]);
      JoinSplits(lines[1..]);
      assert text == lines[0] + "\n" + rest;
      assert text[..|lines[0]|] == lines[0] && text[|lines[0]| + 1..] == rest;
      FirstNewlineIs(text, |lines[0]|);
      SplitFirst(text);
      assert lines == [lines[0]] + lines[1..];
    }
  }

  lemma OneLineMeans(text: string, n: nat)
    requires n <= |text|
    ensures OneLine(text[..n]) <==> forall i :: 0 <= i < n ==> text[i] != '\n'
  {
    if OneLine(text[..n]) {
      forall i | 0 <= i < n ensures text[i] != '\n' {
        assert text[..n][i] == text[i];
      }
    }
  }

  lemma FirstNewlineIs(text: string, n: nat)
    requires n <= |text| && OneLine(text[..n]) && (n < |text| ==> text[n] == '\n')
    ensures FirstNewline(text) == n
  {
    OneLineMeans(text, n);
    OneLineMeans(text, FirstNewline(text));
  }

  lemma SplitConcat(x: string, y: string)
    ensures Split(x + "\n" + y) == Split(x) + Split(y)
  {
    SplitJoins(x);
    SplitJoins(y);
    JoinConcat(Split(x), Split(y));
    JoinSplits(Split(x) + Split(y));
  }

  lemma SliceAfter(h: string, t: string, j: nat)
    requires j <= |t|
    ensures (h + t)[..|h| + j] == h + t[..j] && (h + t)[|h| + j..] == t[j..]
    ensures j < |t| ==> (h + t)[|h| + j] == t[j]
  {}

  lemma OffsetStep(lines: seq<string>, k: nat)
    requires 0 < k < |lines|
    ensures Offset(lines, k) == |lines[0] + "\n"| + Offset(lines[1..], k - 1) && lines[1..][k - 1] == lines[k]
    ensures Join("\n", lines) == (lines[0] + "\n") + Join("\n", lines[1..])
  {}

  /** The text up to and from character `c` of line `k`, in lines. */
  lemma {:induction false} CutAt(lines: seq<string>, k: nat, c: nat)
    requires k < |lines| && c <= |lines[k]|
    ensures var text, i := Join("\n", lines), Offset(lines, k) + c;
            && i <= |text|
            && text[..i] == Join("\n", lines[..k] + [lines[k][..c]])
            && text[i..] == Join("\n", [lines[k][c..]] + lines[k + 1..])
            && (c < |lines[k]| ==> i < |text| && text[i] == lines[k][c])
    decreases k
  {
    if k == 0 {
      CutFirst(lines, c);
    } else {
      hide Join, Offset;
      var rest, j := Join("\n", lines[1..]), Offset(lines[1..], k - 1) + c;
      OffsetStep(lines, k);
      CutAt(lines[1..], k - 1, c);
      SliceAfter(lines[0] + "\n", rest, j);
      var before := lines[1..][..k - 1] + [lines[k][..c]];
      assert lines[..k] + [lines[k][..c]] == [lines[0]] + before;
      JoinFirst(lines[0], before);
      assert lines[1..][k..] == lines[k + 1..];
    }
  }

  lemma CutFirst(lines: seq<string>, c: nat)
    requires lines != [] && c <= |lines[0]|
    ensures var text := Join("\n", lines);
            && c <= |text| && text[..c] == Join("\n", lines[..0] + [lines[0][..c]])
            && text[c..] == Join("\n", [lines[0][c..]] + lines[1..])
            && (c < |lines[0]| ==> text[c] == lines[0][c])
  {
    assert lines[..0] + [lines[0][..c]] == [lines[0][..c]];
    assert ([lines[0][c..]] + lines[1..])[1..] == lines[1..];
  }

  /** The line a character lies in. */
  lemma {:induction false} Locate(lines: seq<string>, i: nat) returns (k: nat, c: nat)
    requires lines != [] && i < |Join("\n", lines)| && Join("\n", lines)[i] != '\n'
    ensures k < |lines| && c < |lines[k]| && Offset(lines, k) + c == i
    decreases |lines|
  {
    if |lines| == 1 || i < |lines[0]| {
      k, c := 0, i;
    } else {
      var rest := Join("\n", lines[1..]);
      assert Join("\n", lines) == (lines[0] + "\n") + rest;
      k, c := Locate(lines[1..], i - |lines[0]| - 1);
      k := k + 1;
    }
  }

  // --- Fence state ----------------------------------------------------------------------------------------

  lemma {:induction false} OpenPrefix(a: seq<string>, b: seq<string>, k: nat)
    requires k <= |a|
    ensures OpenBefore(a + b, k) == OpenBefore(a, k)
    decreases k
  {
    hide FenceOf, Closes;
    if k > 0 {
      OpenPrefix(a, b, k - 1);
    }
  }

  lemma {:induction false} OpenConcat(a: seq<string>, b: seq<string>, j: nat)
    requires j <= |b| && OpenBefore(a, |a|) == None
    ensures OpenBefore(a + b, |a| + j) == OpenBefore(b, j)
    decreases j
  {
    hide FenceOf, Closes;
    if j == 0 {
      OpenPrefix(a, b, |a|);
    } else {
      OpenConcat(a, b, j - 1);
    }
  }

  function Shown(lines: seq<string>, k: nat): string
    requires k < |lines|
  {
    if OnePass(lines, k) then Spaces(|lines[k]|) else BlankInlineCode(lines[k])
  }

  lemma ShownIsMasked(lines: seq<string>, k: nat)
    requires k < |lines|
    ensures MaskedLine(lines, k) == Shown(lines, k)
  {
    OnePassIsInside(lines, 0, k);
  }

  lemma MaskedConcat(a: seq<string>, b: seq<string>)
    requires OpenBefore(a, |a|) == None
    ensures MaskedLines(a + b) == MaskedLines(a) + MaskedLines(b)
    ensures OpenBefore(a + b, |a + b|) == OpenBefore(b, |b|)
  {
    hide MaskedLine, OpenBefore, FenceOf;
    forall k | 0 <= k < |a + b| ensures MaskedLines(a + b)[k] == (MaskedLines(a) + MaskedLines(b))[k] {
      ShownIsMasked(a + b, k);
      if k < |a| {
        ShownIsMasked(a, k);
        OpenPrefix(a, b, k);
      } else {
        ShownIsMasked(b, k - |a|);
        OpenConcat(a, b, k - |a|);
      }
    }
    OpenConcat(a, b, |b|);
  }

  /** The fence left open at the end of a text. */
  function OpenAfter(text: string): Option<string> {
    OpenBefore(Split(text), |Split(text)|)
  }

  lemma MaskConcat(x: string, y: string)
    requires OpenAfter(x) == None
    ensures MaskOf(x + "\n" + y) == MaskOf(x) + "\n" + MaskOf(y)
    ensures OpenAfter(x + "\n" + y) == OpenAfter(y)
  {
    hide MaskedLines, Join, Split, OpenBefore;
    SplitConcat(x, y);
    MaskedConcat(Split(x), Split(y));
    JoinConcat(MaskedLines(Split(x)), MaskedLines(Split(y)));
  }

  lemma MaskLength(text: string)
    ensures Blanked(text, MaskOf(text))
  {
    hide MaskedLine, Split, Join;
    MaskKeepsOffsets(text, Split(text), MaskedLines(Split(text)));
  }

  // --- Code spans of a line, cut at a visible character ------------------------------------------------------

  lemma {:induction false} ContentEndPrefix(line: string, from: nat, n: nat, c: nat)
    requires c <= |line|
    ensures ContentEnd(line[..c], from, n) ==
            (match ContentEnd(line, from, n) case Some(e) => if e + n <= c then Some(e) else None case None => None)
    decreases |line| - from
  {
    if from + n <= c {
      assert TicksAt(line[..c], from, n) == TicksAt(line, from, n);
      if !TicksAt(line, from, n) && from < c {
        ContentEndPrefix(line, from + 1, n, c);
      }
    }
  }

  lemma {:induction false} SpanPrefix(line: string, p: nat, n: nat, c: nat)
    requires c <= |line| && p + n < c && TicksAt(line, p, n)
    ensures TicksAt(line[..c], p, n)
    ensures SpanAt(line, p, n) == None ==> SpanAt(line[..c], p, n) == None
    ensures SpanAt(line, p, n).Some? && p + SpanAt(line, p, n).value <= c ==> SpanAt(line[..c], p, n) == SpanAt(line, p, n)
    decreases n
  {
    hide ContentEnd;
    if n > 0 {
      ContentEndPrefix(line, p + n + 1, n, c);
      assert TicksAt(line, p, n - 1);
      SpanPrefix(line, p, n - 1, c);
    }
  }

  lemma TickRunPrefix(line: string, p: nat, c: nat)
    requires p < c <= |line| && line[c - 1] != '`'
    ensures TickRun(line[..c], p) == TickRun(line, p) && p + TickRun(line, p) < c
  {
    hide RunOf;
    var n, m := TickRun(line, p), TickRun(line[..c], p);
    assert line[p..][c - 1 - p] != '`' && line[..c][p..][c - 1 - p] != '`';
  }

  lemma BlankedPrefix(line: string, p: nat, c: nat)
    requires p < c <= |line| && line[c - 1] != '`' && p + BlankedAt(line, p) <= c
    ensures BlankedAt(line[..c], p) == BlankedAt(line, p)
  {
    hide SpanAt, TickRun;
    TickRunPrefix(line, p, c);
    TickRunTicks(line, p);
    TickRunTicks(line[..c], p);
    SpanPrefix(line, p, TickRun(line, p), c);
  }

  /** One step of the blanking: over a code span, or over one character that stays. */
  function Step(line: string, p: nat): (r: nat)
    requires p < |line|
    ensures 0 < r && p + r <= |line|
  {
    if BlankedAt(line, p) > 0 then BlankedAt(line, p) else 1
  }

  /** Blanking from `p` on, character `i` is in a code span. */
  predicate Hidden(line: string, p: nat, i: nat)
    requires p <= i < |line|
    decreases i - p
  {
    if i < p + Step(line, p) then BlankedAt(line, p) > 0 else Hidden(line, p + Step(line, p), i)
  }

  lemma BlankFromStep(line: string, p: nat, i: nat)
    requires p <= i < |line|
    ensures var n := Step(line, p);
            BlankFrom(line, p)[i - p] ==
              if i < p + n then (if BlankedAt(line, p) > 0 then ' ' else line[i]) else BlankFrom(line, p + n)[i - p - n]
  {
    hide BlankedAt;
  }

  lemma {:induction false} BlankFromAt(line: string, p: nat, i: nat)
    requires p <= i < |line|
    ensures BlankFrom(line, p)[i - p] == if Hidden(line, p, i) then ' ' else line[i]
    decreases i - p
  {
    hide BlankedAt, BlankFrom;
    BlankFromStep(line, p, i);
    if p + Step(line, p) <= i {
      BlankFromAt(line, p + Step(line, p), i);
    }
  }

  lemma {:induction false} HiddenPrefix(line: string, p: nat, i: nat, c: nat)
    requires p <= i < c <= |line| && line[c - 1] != '`' && !Hidden(line, p, c - 1)
    ensures Hidden(line[..c], p, i) == Hidden(line, p, i)
    decreases i - p
  {
    hide BlankedAt;
    BlankedPrefix(line, p, c);
    if p + Step(line, p) <= i {
      HiddenPrefix(line, p + Step(line, p), i, c);
    }
  }

  /** Up to a visible character, a line is blanked as if it ended there. */
  lemma BlankPrefix(line: string, c: nat)
    requires 0 < c <= |line| && line[c - 1] != '`' && BlankInlineCode(line)[c - 1] != ' '
    ensures BlankInlineCode(line[..c]) == BlankInlineCode(line)[..c]
  {
    hide BlankFrom, Hidden;
    BlankFromAt(line, 0, c - 1);
    forall i | 0 <= i < c ensures BlankFrom(line[..c], 0)[i] == BlankFrom(line, 0)[i] {
      BlankFromAt(line, 0, i);
      BlankFromAt(line[..c], 0, i);
      HiddenPrefix(line, 0, i, c);
    }
  }

  lemma {:induction false} ContentEndShift(line: string, d: nat, from: nat, n: nat)
    requires d <= |line|
    ensures ContentEnd(line, d + from, n) ==
            (match ContentEnd(line[d..], from, n) case Some(e) => Some(d + e) case None => None)
    decreases |line| - from
  {
    if d + from + n <= |line| {
      TicksShift(line, d, from, n);
      if !TicksAt(line, d + from, n) && d + from < |line| {
        ContentEndShift(line, d, from + 1, n);
      }
    }
  }

  lemma TicksShift(line: string, d: nat, p: nat, n: nat)
    requires d <= |line|
    ensures TicksAt(line, d + p, n) == TicksAt(line[d..], p, n)
  {
    if d + p + n <= |line| {
      assert forall i :: p <= i < p + n ==> line[d..][i] == line[d + i];
      if TicksAt(line[d..], p, n) {
        forall i | d + p <= i < d + p + n ensures line[i] == '`' {
          assert line[d..][i - d] == line[i];
        }
      }
    }
  }

  lemma {:induction false} SpanShift(line: string, d: nat, p: nat, n: nat)
    requires d <= |line| && TicksAt(line, d + p, n)
    ensures TicksAt(line[d..], p, n) && SpanAt(line, d + p, n) == SpanAt(line[d..], p, n)
    decreases n
  {
    hide ContentEnd;
    TicksShift(line, d, p, n);
    if n > 0 {
      ContentEndShift(line, d, p + n + 1, n);
      assert TicksAt(line, d + p, n - 1);
      SpanShift(line, d, p, n - 1);
    }
  }

  lemma BlankedShift(line: string, d: nat, p: nat)
    requires d + p < |line|
    ensures BlankedAt(line, d + p) == BlankedAt(line[d..], p)
  {
    hide SpanAt, RunOf;
    assert line[d..][p..] == line[d + p..];
    TickRunTicks(line, d + p);
    SpanShift(line, d, p, TickRun(line, d + p));
  }

  lemma {:induction false} HiddenShift(line: string, d: nat, p: nat, i: nat)
    requires d <= |line| && p <= i < |line| - d
    ensures Hidden(line, d + p, d + i) == Hidden(line[d..], p, i)
    decreases i - p
  {
    hide BlankedAt;
    BlankedShift(line, d, p);
    if p + Step(line, d + p) <= i {
      HiddenShift(line, d, p + Step(line, d + p), i);
    }
  }

  lemma {:induction false} HiddenSuffix(line: string, p: nat, d: nat, i: nat)
    requires p <= d <= i < |line| && !Hidden(line, p, d)
    ensures Hidden(line, p, i) == Hidden(line, d, i)
    decreases d - p
  {
    hide BlankedAt;
    if p < d {
      HiddenSuffix(line, p + Step(line, p), d, i);
    }
  }

  /** From a visible character on, a line is blanked as if it began there. */
  lemma BlankSuffix(line: string, d: nat)
    requires d < |line| && BlankInlineCode(line)[d] != ' '
    ensures BlankInlineCode(line[d..]) == BlankInlineCode(line)[d..]
  {
    hide BlankFrom, Hidden;
    BlankFromAt(line, 0, d);
    forall i | 0 <= i < |line| - d ensures BlankFrom(line[d..], 0)[i] == BlankFrom(line, 0)[d + i] {
      BlankFromAt(line, 0, d + i);
      BlankFromAt(line[d..], 0, i);
      HiddenSuffix(line, 0, d, d + i);
      HiddenShift(line, d, 0, i);
    }
  }

  // --- Fences of a line, cut at a visible character -----------------------------------------------------------

  lemma IndentIs(s: string, r: nat)
    requires r < |s| && AllSpace(s[..r]) && !IsSpace(s[r])
    ensures Indent(s) == r
  {
    hide IsSpace;
    var n := Indent(s);
  }

  lemma FenceOfPrefix(line: string, c: nat)
    requires c <= |line| && FenceOf(line[..c]).Some?
    ensures FenceOf(line).Some?
  {
    hide IsSpace, RunOf;
    var part := line[..c];
    var d := Indent(part);
    assert part[..d] == line[..d];
    IndentIs(line, d);
    var rest, short := line[d..], part[d..];
    assert forall i :: 0 <= i < 3 ==> short[i] == rest[i];
    assert RunOf(rest[0], rest) >= 3;
  }

  lemma NoFenceAt(line: string)
    requires line != [] && !IsSpace(line[0]) && line[0] != '`' && line[0] != '~'
    ensures FenceOf(line).None?
  {
    IndentIs(line, 0);
  }

  // --- Texts, cut at a visible character ----------------------------------------------------------------------

  /** A line that shows anything lies outside every fence. */
  lemma VisibleIsOutside(lines: seq<string>, k: nat, c: nat)
    requires k < |lines| && c < |lines[k]| && c < |MaskedLine(lines, k)| && MaskedLine(lines, k)[c] != ' '
    ensures OpenBefore(lines, k) == None && FenceOf(lines[k]) == None
    ensures MaskedLine(lines, k) == BlankInlineCode(lines[k])
  {
    hide OpenBefore, FenceOf, MaskedLine;
    ShownIsMasked(lines, k);
  }

  /** What precedes a line decides whether it is fenced; what follows does not. */
  lemma EarlierLines(lines: seq<string>, k: nat, last: string, j: nat)
    requires j <= k < |lines|
    ensures OpenBefore(lines[..k] + [last], j) == OpenBefore(lines, j)
    ensures j < k ==> MaskedLine(lines[..k] + [last], j) == MaskedLine(lines, j)
  {
    hide FenceOf, MaskedLine, OpenBefore, BlankInlineCode;
    assert lines == lines[..k] + lines[k..];
    OpenPrefix(lines[..k], lines[k..], j);
    OpenPrefix(lines[..k], [last], j);
    if j < k {
      ShownIsMasked(lines[..k] + [last], j);
      ShownIsMasked(lines, j);
    }
  }

  lemma CutLine(lines: seq<string>, k: nat, c: nat)
    requires k < |lines| && c < |lines[k]| == |MaskedLine(lines, k)| && MaskedLine(lines, k)[c] != ' ' && lines[k][c] != '`'
    ensures var part := lines[..k] + [lines[k][..c + 1]];
            MaskedLine(part, k) == MaskedLine(lines, k)[..c + 1] && OpenBefore(part, k + 1) == None
  {
    hide FenceOf, MaskedLine, BlankInlineCode;
    var line := lines[k];
    var part := lines[..k] + [line[..c + 1]];
    VisibleIsOutside(lines, k, c);
    EarlierLines(lines, k, line[..c + 1], k);
    if FenceOf(line[..c + 1]).Some? {
      FenceOfPrefix(line, c + 1);
    }
    ShownIsMasked(part, k);
    BlankPrefix(line, c + 1);
    assert part[k] == line[..c + 1];
  }

  lemma PrefixLines(lines: seq<string>, k: nat, c: nat)
    requires k < |lines| && c < |lines[k]| == |MaskedLine(lines, k)| && MaskedLine(lines, k)[c] != ' ' && lines[k][c] != '`'
    ensures var part := lines[..k] + [lines[k][..c + 1]];
            && MaskedLines(part) == MaskedLines(lines)[..k] + [MaskedLine(lines, k)[..c + 1]]
            && OpenBefore(part, k + 1) == None
  {
    hide MaskedLine, OpenBefore;
    CutLine(lines, k, c);
    forall j | 0 <= j < k ensures MaskedLine(lines[..k] + [lines[k][..c + 1]], j) == MaskedLine(lines, j) {
      EarlierLines(lines, k, lines[k][..c + 1], j);
    }
  }

  /** Up to a visible character a text is masked as if it ended there, with no fence left open. */
  lemma MaskPrefix(text: string, i: nat)
    requires i < |text| == |MaskOf(text)| && MaskOf(text)[i] != ' ' && text[i] != '\n' && text[i] != '`'
    ensures MaskOf(text[..i + 1]) == MaskOf(text)[..i + 1] && OpenAfter(text[..i + 1]) == None
  {
    hide Split, Join, MaskedLine, OpenBefore, Offset;
    var lines := Split(text);
    var shown := MaskedLines(lines);
    SplitJoins(text);
    var k, c := Locate(lines, i);
    SameShape(lines);
    SameOffsets(lines, shown, k);
    CutAt(lines, k, c);
    CutAt(shown, k, c);
    CutAt(lines, k, c + 1);
    CutAt(shown, k, c + 1);
    PrefixLines(lines, k, c);
    JoinSplits(lines[..k] + [lines[k][..c + 1]]);
  }

  lemma SameShape(lines: seq<string>)
    ensures forall j :: 0 <= j < |lines| ==> |MaskedLines(lines)[j]| == |lines[j]|
  {
    hide Inside;
  }

  lemma {:induction false} OpenSuffix(lines: seq<string>, k: nat, first: string, j: nat)
    requires k < |lines| && OpenBefore(lines, k) == None && FenceOf(lines[k]) == None && FenceOf(first) == None
    requires 1 <= j <= |lines| - k
    ensures OpenBefore([first] + lines[k + 1..], j) == OpenBefore(lines, k + j)
    decreases j
  {
    hide FenceOf, Closes;
    var part := [first] + lines[k + 1..];
    if j == 1 {
      assert OpenBefore(part, 0) == None && part[0] == first;
    } else {
      OpenSuffix(lines, k, first, j - 1);
      assert part[j - 1] == lines[k + j - 1];
    }
  }

  lemma LaterLines(lines: seq<string>, k: nat, first: string, j: nat)
    requires k < |lines| && OpenBefore(lines, k) == None && FenceOf(lines[k]) == None && FenceOf(first) == None
    requires 1 <= j < |lines| - k
    ensures MaskedLine([first] + lines[k + 1..], j) == MaskedLine(lines, k + j)
  {
    hide FenceOf, MaskedLine, OpenBefore, BlankInlineCode;
    var part := [first] + lines[k + 1..];
    ShownIsMasked(part, j);
    ShownIsMasked(lines, k + j);
    OpenSuffix(lines, k, first, j);
    assert part[j] == lines[k + j];
  }

  lemma FirstLine(first: string, rest: seq<string>)
    requires FenceOf(first) == None
    ensures MaskedLine([first] + rest, 0) == BlankInlineCode(first)
  {
    hide FenceOf, MaskedLine, BlankInlineCode;
    ShownIsMasked([first] + rest, 0);
  }

  lemma Assembled(lines: seq<string>, k: nat, part: seq<string>, first: string)
    requires k < |lines| && |part| == |lines| - k && MaskedLine(part, 0) == first
    requires forall j :: 1 <= j < |part| ==> MaskedLine(part, j) == MaskedLine(lines, k + j)
    ensures MaskedLines(part) == [first] + MaskedLines(lines)[k + 1..]
  {
    hide MaskedLine;
  }

  lemma SuffixLines(lines: seq<string>, k: nat, c: nat)
    requires k < |lines| && c < |lines[k]| == |MaskedLine(lines, k)| && MaskedLine(lines, k)[c] != ' '
    requires !IsSpace(lines[k][c]) && lines[k][c] != '`' && lines[k][c] != '~'
    ensures MaskedLines([lines[k][c..]] + lines[k + 1..]) == [MaskedLine(lines, k)[c..]] + MaskedLines(lines)[k + 1..]
  {
    var line, rest := lines[k], lines[k + 1..];
    NoFenceAt(line[c..]);
    hide *;
    VisibleIsOutside(lines, k, c);
    FirstLine(line[c..], rest);
    BlankSuffix(line, c);
    forall j | 1 <= j < |[line[c..]] + rest| ensures MaskedLine([line[c..]] + rest, j) == MaskedLine(lines, k + j) {
      LaterLines(lines, k, line[c..], j);
    }
    Assembled(lines, k, [line[c..]] + rest, MaskedLine(lines, k)[c..]);
  }

  /** From a visible character on a text is masked as if it began there. */
  lemma MaskSuffix(text: string, i: nat)
    requires i < |text| == |MaskOf(text)| && MaskOf(text)[i] != ' '
    requires !IsSpace(text[i]) && text[i] != '`' && text[i] != '~'
    ensures MaskOf(text[i..]) == MaskOf(text)[i..]
  {
    hide Split, Join, MaskedLine, OpenBefore, Offset;
    var lines := Split(text);
    var shown := MaskedLines(lines);
    SplitJoins(text);
    var k, c := Locate(lines, i);
    SameShape(lines);
    SameOffsets(lines, shown, k);
    CutAt(lines, k, c);
    CutAt(shown, k, c);
    SuffixLines(lines, k, c);
    JoinSplits([lines[k][c..]] + lines[k + 1..]);
  }

  /**
   * A stretch between two visible characters exchanged for lines of their own that leave no fence
   * open: everything outside it is masked as before.
   */
  lemma MaskSplices(text: string, start: nat, end: nat, middle: string)
    requires 0 < start <= end < |text| == |MaskOf(text)|
    requires MaskOf(text)[start - 1] != ' ' && text[start - 1] != '\n' && text[start - 1] != '`'
    requires MaskOf(text)[end] != ' ' && !IsSpace(text[end]) && text[end] != '`' && text[end] != '~'
    requires OpenAfter(middle) == None
    ensures MaskOf(text[..start] + "\n" + middle + "\n" + text[end..]) ==
            MaskOf(text)[..start] + "\n" + MaskOf(middle) + "\n" + MaskOf(text)[end..]
  {
    hide MaskOf, OpenAfter, IsSpace;
    MaskPrefix(text, start - 1);
    MaskSuffix(text, end);
    MaskConcat(text[..start], middle);
    MaskConcat(text[..start] + "\n" + middle, text[end..]);
  }
}
