/** Lines of text, as the Python scripts see them: split at newlines, joined, stripped. */
module Text {
  /** What Python's `\s` and `str.strip` take for white space. */
  predicate IsSpace(c: char) {
    || c == ' ' || '\t' <= c <= '\r' || '\U{1c}' <= c <= '\U{1f}' || c == '\U{85}' || c == '\U{a0}' || c == '\U{1680}'
    || '\U{2000}' <= c <= '\U{200a}' || c == '\U{2028}' || c == '\U{2029}' || c == '\U{202f}' || c == '\U{205f}'
    || c == '\U{3000}'
  }

  predicate AllSpace(s: string) {
    forall i :: 0 <= i < |s| ==> IsSpace(s[i])
  }

  /** Leading white space. */
  function Indent(s: string): (r: nat)
    ensures r <= |s| && AllSpace(s[..r]) && (r < |s| ==> !IsSpace(s[r]))
    decreases |s|
  {
    if s == [] || !IsSpace(s[0]) then 0
    else
      var r := 1 + Indent(s[1..]);
      assert s[..r] == [s[0]] + s[1..][..r - 1];
      r
  }

  function StripRight(s: string): (r: string)
    ensures r <= s && (r != [] ==> !IsSpace(r[|r| - 1])) && AllSpace(s[|r|..])
    decreases |s|
  {
    if s == [] || !IsSpace(s[|s| - 1]) then s
    else
      var r := StripRight(s[..|s| - 1]);
      assert forall i :: |r| <= i < |s| - 1 ==> s[..|s| - 1][|r|..][i - |r|] == s[i];
      r
  }

  function Strip(s: string): string {
    StripRight(s[Indent(s)..])
  }

  predicate IsBlank(s: string) {
    Indent(s) == |s|
  }

  function Spaces(n: nat): (r: string)
    ensures |r| == n
  {
    seq(n, _ => ' ')
  }

  lemma SliceOfSlice(s: string, a: nat, b: nat, c: nat, d: nat)
    requires a <= b <= |s| && c <= d <= b - a
    ensures s[a..b][c..d] == s[a + c..a + d]
  {
    var inner, outer := s[a..b][c..d], s[a + c..a + d];
    forall i | 0 <= i < |inner| ensures inner[i] == outer[i] {
      assert inner[i] == s[a..b][c + i] == s[a + c + i];
    }
  }

  // --- Lines ------------------------------------------------------------------------------------------

  predicate OneLine(s: string) {
    '\n' !in s
  }

  function FirstNewline(text: string): (r: nat)
    ensures r <= |text| && OneLine(text[..r]) && (r < |text| ==> text[r] == '\n')
    decreases |text|
  {
    if text == [] || text[0] == '\n' then 0
    else
      var r := 1 + FirstNewline(text[1..]);
      assert text[..r] == [text[0]] + text[1..][..r - 1];
      r
  }

  function Split(text: string): (r: seq<string>)
    ensures |r| > 0 && forall i :: 0 <= i < |r| ==> OneLine(r[i])
    decreases |text|
  {
    var n := FirstNewline(text);
    if n == |text| then
      assert text[..n] == text;
      [text]
    else [text[..n]] + Split(text[n + 1..])
  }

  function Join(sep: string, lines: seq<string>): string
    decreases |lines|
  {
    if lines == [] then [] else if |lines| == 1 then lines[0] else lines[0] + sep + Join(sep, lines[1..])
  }

  lemma {:induction false} SplitJoins(text: string)
    ensures Join("\n", Split(text)) == text
    decreases |text|
  {
    hide Split, FirstNewline, Join, OneLine;
    var n := FirstNewline(text);
    if n < |text| {
      var rest := text[n + 1..];
      SplitJoins(rest);
      SplitFirst(text);
      JoinFirst(text[..n], Split(rest));
      assert text == text[..n] + "\n" + rest;
    } else {
      SplitLast(text);
    }
  }

  lemma SplitFirst(text: string)
    requires FirstNewline(text) < |text|
    ensures Split(text) == [text[..FirstNewline(text)]] + Split(text[FirstNewline(text) + 1..])
  {
    hide FirstNewline, OneLine;
  }

  lemma SplitLast(text: string)
    requires FirstNewline(text) == |text|
    ensures Split(text) == [text] && Join("\n", [text]) == text
  {}

  lemma JoinFirst(line: string, lines: seq<string>)
    requires |lines| > 0
    ensures Join("\n", [line] + lines) == line + "\n" + Join("\n", lines)
  {
    assert ([line] + lines)[1..] == lines;
  }

  /** `b` is `a` with some characters blanked: same length, newlines where they were. */
  ghost predicate Blanked(a: string, b: string) {
    && |a| == |b|
    && (forall i :: 0 <= i < |a| ==> b[i] == a[i] || (b[i] == ' ' && a[i] != '\n'))
  }

  /** Blanking line by line keeps every offset of the text. */
  lemma {:induction false} BlankedLines(a: seq<string>, b: seq<string>)
    requires |a| == |b| && forall i :: 0 <= i < |a| ==> Blanked(a[i], b[i])
    ensures Blanked(Join("\n", a), Join("\n", b))
    decreases |a|
  {
    if |a| > 1 {
      BlankedLines(a[1..], b[1..]);
      BlankedConcat(a[0], b[0], "\n" + Join("\n", a[1..]), "\n" + Join("\n", b[1..]));
      assert a[0] + "\n" + Join("\n", a[1..]) == a[0] + ("\n" + Join("\n", a[1..]));
      assert b[0] + "\n" + Join("\n", b[1..]) == b[0] + ("\n" + Join("\n", b[1..]));
    }
  }

  lemma BlankedConcat(a: string, b: string, c: string, d: string)
    requires Blanked(a, b) && |c| == |d| > 0 && c[0] == d[0] && Blanked(c[1..], d[1..])
    ensures Blanked(a + c, b + d)
  {
    forall i | 0 <= i < |a + c|
      ensures (b + d)[i] == (a + c)[i] || ((b + d)[i] == ' ' && (a + c)[i] != '\n')
    {
      if i > |a| {
        assert (a + c)[i] == c[1..][i - |a| - 1] && (b + d)[i] == d[1..][i - |a| - 1];
      }
    }
  }

  /** Where line `k` starts in the joined text. */
  function Offset(lines: seq<string>, k: nat): nat
    requires k < |lines|
  {
    if k == 0 then 0 else |lines[0]| + 1 + Offset(lines[1..], k - 1)
  }

  lemma {:induction false} LineAtOffset(lines: seq<string>, k: nat)
    requires k < |lines|
    ensures Offset(lines, k) + |lines[k]| <= |Join("\n", lines)|
    ensures Join("\n", lines)[Offset(lines, k)..Offset(lines, k) + |lines[k]|] == lines[k]
    decreases k
  {
    if k > 0 {
      LineAtOffset(lines[1..], k - 1);
      var text, rest := Join("\n", lines), Join("\n", lines[1..]);
      var o := Offset(lines[1..], k - 1);
      assert text == (lines[0] + "\n") + rest;
      assert text[|lines[0]| + 1 + o..|lines[0]| + 1 + o + |lines[k]|] == rest[o..o + |lines[k]|];
    }
  }

  lemma {:induction false} SameOffsets(a: seq<string>, b: seq<string>, k: nat)
    requires |a| == |b| && k < |a| && forall i :: 0 <= i < |a| ==> |a[i]| == |b[i]|
    ensures Offset(a, k) == Offset(b, k)
    decreases k
  {
    if k > 0 {
      SameOffsets(a[1..], b[1..], k - 1);
    }
  }
}
