/** Fenced code in Markdown (scripts/docs/check.py): `split_fences` and `mask_code`. */
module Fences {
  import opened Wrappers
  import opened Text

  /** A line that opens or may close a fence: its run of back-ticks or tildes, and what follows. */
  datatype Fence = Fence(marker: string, info: string)

  /** Length of the run of `c` at the start of `s`. */
  function RunOf(c: char, s: string): (r: nat)
    ensures r <= |s| && (forall i :: 0 <= i < r ==> s[i] == c) && (r < |s| ==> s[r] != c)
    decreases |s|
  {
    if s == [] || s[0] != c then 0 else 1 + RunOf(c, s[1..])
  }

  /** At most three leading spaces, then at least three markers of one kind. */
  function FenceOf(line: string): (r: Option<Fence>)
    ensures r.Some? ==> |r.value.marker| >= 3 && (r.value.marker[0] == '`' || r.value.marker[0] == '~')
  {
    var rest := line[Indent(line)..];
    if Indent(line) > 3 || rest == [] || (rest[0] != '`' && rest[0] != '~') || RunOf(rest[0], rest) < 3 then None
    else Some(Fence(rest[..RunOf(rest[0], rest)], rest[RunOf(rest[0], rest)..]))
  }

  /** `line` closes a fence opened with `marker`. */
  predicate Closes(line: string, marker: string) {
    && FenceOf(line).Some?
    && FenceOf(line).value.marker[0] == (if marker == [] then ' ' else marker[0])
    && |FenceOf(line).value.marker| >= |marker|
    && Strip(FenceOf(line).value.info) == []
  }

  // --- What the fenced blocks of a document are ---------------------------------------------------------

  /** A block: the opening line, its info string, and the lines inside. Without a closing line it runs on. */
  datatype FencedBlock = FencedBlock(open: nat, info: string, body: seq<string>)

  /** The first line from `i` on that closes `marker`, or the end. */
  function BodyEnd(lines: seq<string>, i: nat, marker: string): (r: nat)
    requires i <= |lines|
    ensures i <= r <= |lines|
    ensures r < |lines| ==> Closes(lines[r], marker)
    ensures forall k :: i <= k < r ==> !Closes(lines[k], marker)
    decreases |lines| - i
  {
    if i == |lines| || Closes(lines[i], marker) then i else BodyEnd(lines, i + 1, marker)
  }

  /** The line after the block opened at `i`. */
  function BlockEnd(lines: seq<string>, i: nat): (r: nat)
    requires i < |lines| && FenceOf(lines[i]).Some?
    ensures i < r <= |lines|
  {
    var end := BodyEnd(lines, i + 1, FenceOf(lines[i]).value.marker);
    if end < |lines| then end + 1 else end
  }

  function BlockAt(lines: seq<string>, i: nat): FencedBlock
    requires i < |lines| && FenceOf(lines[i]).Some?
  {
    var fence := FenceOf(lines[i]).value;
    FencedBlock(i, Strip(fence.info), lines[i + 1..BodyEnd(lines, i + 1, fence.marker)])
  }

  /** The blocks from line `i` on, none of them open there. */
  function BlocksFrom(lines: seq<string>, i: nat): seq<FencedBlock>
    requires i <= |lines|
    decreases |lines| - i
  {
    if i == |lines| then []
    else if FenceOf(lines[i]).None? then BlocksFrom(lines, i + 1)
    else [BlockAt(lines, i)] + BlocksFrom(lines, BlockEnd(lines, i))
  }

  /** Line `k` belongs to a fenced block, delimiters included. */
  predicate Inside(lines: seq<string>, i: nat, k: nat)
    requires i <= |lines|
    decreases |lines| - i
  {
    if i == |lines| || k < i then false
    else if FenceOf(lines[i]).None? then Inside(lines, i + 1, k)
    else k < BlockEnd(lines, i) || Inside(lines, BlockEnd(lines, i), k)
  }

  lemma {:induction false} NotInsideBefore(lines: seq<string>, i: nat, k: nat)
    requires k < i <= |lines|
    ensures !Inside(lines, i, k)
  {}

  // --- split_fences: nested loops -------------------------------------------------------------------------

  function Unfenced(lines: seq<string>, k: nat): string
    requires k < |lines|
  {
    if Inside(lines, 0, k) then "" else lines[k]
  }

  lemma NoFenceStep(lines: seq<string>, i: nat)
    requires i < |lines| && FenceOf(lines[i]).None?
    ensures BlocksFrom(lines, i) == BlocksFrom(lines, i + 1)
    ensures !Inside(lines, i, i) && forall k :: i < k ==> Inside(lines, i, k) == Inside(lines, i + 1, k)
  {
    NotInsideBefore(lines, i + 1, i);
  }

  lemma FenceStep(lines: seq<string>, i: nat)
    requires i < |lines| && FenceOf(lines[i]).Some?
    ensures BlocksFrom(lines, i) == [BlockAt(lines, i)] + BlocksFrom(lines, BlockEnd(lines, i))
    ensures forall k :: i <= k < BlockEnd(lines, i) ==> Inside(lines, i, k)
    ensures forall k :: BlockEnd(lines, i) <= k ==> Inside(lines, i, k) == Inside(lines, BlockEnd(lines, i), k)
  {}

  /** The lines of a block after its opening line, and where it ends; `blanks` is one empty line for each. */
  method ReadBody(lines: seq<string>, first: nat, marker: string)
    returns (body: seq<string>, blanks: seq<string>, next: nat)
    requires first <= |lines|
    ensures var end := BodyEnd(lines, first, marker);
            body == lines[first..end] && next == (if end < |lines| then end + 1 else end)
    ensures |blanks| == next - first && forall k :: 0 <= k < |blanks| ==> blanks[k] == ""
  {
    hide Closes, FenceOf;
    body, blanks, next := [], [], first;
    while next < |lines|
      invariant first <= next <= |lines| && body == lines[first..next]
      invariant BodyEnd(lines, first, marker) == BodyEnd(lines, next, marker)
      invariant |blanks| == next - first && forall k :: 0 <= k < |blanks| ==> blanks[k] == ""
    {
      blanks := blanks + [""];
      if Closes(lines[next], marker) {
        next := next + 1;
        return;
      }
      body := body + [lines[next]];
      next := next + 1;
    }
  }

  /** The prose with fenced lines emptied, one line for each line of the text, and the blocks. */
  method SplitFences(text: string) returns (prose: seq<string>, blocks: seq<FencedBlock>)
    ensures var lines := Split(text);
            && blocks == BlocksFrom(lines, 0)
            && |prose| == |lines|
            && forall k :: 0 <= k < |lines| ==> prose[k] == Unfenced(lines, k)
  {
    hide FenceOf, Closes, Strip, Split, Inside, BlocksFrom, BodyEnd;
    var lines := Split(text);
    prose, blocks := [], [];
    var i := 0;
    while i < |lines|
      invariant i <= |lines| == |Split(text)| && |prose| == i
      invariant blocks + BlocksFrom(lines, i) == BlocksFrom(lines, 0)
      invariant forall k :: 0 <= k < i ==> prose[k] == Unfenced(lines, k)
      invariant forall k :: i <= k < |lines| ==> Inside(lines, 0, k) == Inside(lines, i, k)
      decreases |lines| - i
    {
      var fence := FenceOf(lines[i]);
      if fence.None? {
        NoFenceStep(lines, i);
        prose := prose + [lines[i]];
        i := i + 1;
      } else {
        FenceStep(lines, i);
        var body, blanks, next := ReadBody(lines, i + 1, fence.value.marker);
        assert next == BlockEnd(lines, i) && FencedBlock(i, Strip(fence.value.info), body) == BlockAt(lines, i);
        assert forall k :: i <= k < next ==> Unfenced(lines, k) == "";
        prose := prose + ([""] + blanks);
        blocks := blocks + [FencedBlock(i, Strip(fence.value.info), body)];
        i := next;
      }
    }
    NoBlocksAtEnd(lines);
  }

  lemma NoBlocksAtEnd(lines: seq<string>)
    ensures BlocksFrom(lines, |lines|) == []
  {}

  // --- mask_code: one pass ------------------------------------------------------------------------------------

  /** The fence that is open before line `k`, as one left-to-right pass keeps it. */
  function OpenBefore(lines: seq<string>, k: nat): Option<string>
    requires k <= |lines|
  {
    if k == 0 then None
    else
      match OpenBefore(lines, k - 1)
      case None => if FenceOf(lines[k - 1]).Some? then Some(FenceOf(lines[k - 1]).value.marker) else None
      case Some(marker) => if Closes(lines[k - 1], marker) then None else Some(marker)
  }

  predicate OnePass(lines: seq<string>, k: nat)
    requires k < |lines|
  {
    OpenBefore(lines, k).Some? || FenceOf(lines[k]).Some?
  }

  lemma {:induction false} StaysOpen(lines: seq<string>, i: nat, marker: string, k: nat)
    requires i <= |lines| && i <= k <= BodyEnd(lines, i, marker) && OpenBefore(lines, i) == Some(marker)
    ensures OpenBefore(lines, k) == Some(marker)
    decreases k
  {
    hide Closes, FenceOf;
    if k > i {
      StaysOpen(lines, i, marker, k - 1);
    }
  }

  lemma OpenStep(lines: seq<string>, k: nat)
    requires k < |lines|
    ensures OpenBefore(lines, k).None? ==>
              OpenBefore(lines, k + 1) == if FenceOf(lines[k]).Some? then Some(FenceOf(lines[k]).value.marker) else None
    ensures OpenBefore(lines, k).Some? && Closes(lines[k], OpenBefore(lines, k).value) ==> OpenBefore(lines, k + 1) == None
  {}

  /** Across a block the pass stays inside its fence, and is outside again after it. */
  lemma PassOverBlock(lines: seq<string>, i: nat, k: nat)
    requires i <= k < |lines| && OpenBefore(lines, i) == None && FenceOf(lines[i]).Some?
    ensures k < BlockEnd(lines, i) ==> OnePass(lines, k)
    ensures BlockEnd(lines, i) <= k ==> OpenBefore(lines, BlockEnd(lines, i)) == None
  {
    hide Closes, FenceOf, BodyEnd, OpenBefore;
    var marker := FenceOf(lines[i]).value.marker;
    var end := BodyEnd(lines, i + 1, marker);
    OpenStep(lines, i);
    if i < k <= end {
      StaysOpen(lines, i + 1, marker, k);
    } else if end < k {
      StaysOpen(lines, i + 1, marker, end);
      OpenStep(lines, end);
    }
  }

  /** The state of the one pass is the block structure of the nested loops. */
  lemma {:induction false} OnePassIsInside(lines: seq<string>, i: nat, k: nat)
    requires i <= k < |lines| && OpenBefore(lines, i) == None
    ensures OnePass(lines, k) == Inside(lines, i, k)
    decreases |lines| - i
  {
    hide Closes, FenceOf, BlockEnd, Inside, OpenBefore;
    OpenStep(lines, i);
    if FenceOf(lines[i]).None? {
      NoFenceStep(lines, i);
      if k > i {
        OnePassIsInside(lines, i + 1, k);
      }
    } else {
      FenceStep(lines, i);
      PassOverBlock(lines, i, k);
      if BlockEnd(lines, i) <= k {
        OnePassIsInside(lines, BlockEnd(lines, i), k);
      }
    }
  }

  // --- Inline code --------------------------------------------------------------------------------------------

  predicate TicksAt(line: string, p: nat, n: nat) {
    p + n <= |line| && forall i :: p <= i < p + n ==> line[i] == '`'
  }

  /** Content from `from` to the first `n` back-ticks after at least one character. */
  function ContentEnd(line: string, from: nat, n: nat): (r: Option<nat>)
    ensures r.Some? ==> from <= r.value && r.value + n <= |line| && TicksAt(line, r.value, n)
    decreases |line| - from
  {
    if from + n > |line| then None
    else if TicksAt(line, from, n) then Some(from)
    else if from < |line| then ContentEnd(line, from + 1, n)
    else None
  }

  /** The length of a code span at `p` with `n` back-ticks, else with fewer. */
  function SpanAt(line: string, p: nat, n: nat): (r: Option<nat>)
    requires TicksAt(line, p, n)
    ensures r.Some? ==> 0 < r.value && p + r.value <= |line|
    decreases n
  {
    if n == 0 then None
    else if p + n >= |line| then SpanAt(line, p, n - 1)
    else
      match ContentEnd(line, p + n + 1, n)
      case Some(end) => Some(end + n - p)
      case None => SpanAt(line, p, n - 1)
  }

  function TickRun(line: string, p: nat): nat
    requires p <= |line|
  {
    RunOf('`', line[p..])
  }

  /** How much of the line at `p` is blanked: a code span's length, or none. */
  function BlankedAt(line: string, p: nat): (r: nat)
    requires p <= |line|
    ensures p + r <= |line|
  {
    TickRunTicks(line, p);
    match SpanAt(line, p, TickRun(line, p))
    case Some(len) => len
    case None => 0
  }

  /** The line from `p` on, with every code span blanked. */
  function BlankFrom(line: string, p: nat): (r: string)
    requires p <= |line|
    ensures |r| == |line| - p
    decreases |line| - p
  {
    if p == |line| then []
    else
      var len := BlankedAt(line, p);
      if len > 0 then Spaces(len) + BlankFrom(line, p + len) else [line[p]] + BlankFrom(line, p + 1)
  }

  lemma TickRunTicks(line: string, p: nat)
    requires p <= |line|
    ensures TicksAt(line, p, TickRun(line, p))
  {
    var rest := line[p..];
    forall i | p <= i < p + TickRun(line, p) ensures line[i] == '`' {
      assert rest[i - p] == line[i];
    }
  }

  function BlankInlineCode(line: string): (r: string)
    ensures |r| == |line|
  {
    BlankFrom(line, 0)
  }

  lemma {:induction false} BlankFromBlanks(line: string, p: nat)
    requires p <= |line| && OneLine(line)
    ensures Blanked(line[p..], BlankFrom(line, p))
    decreases |line| - p
  {
    hide BlankedAt;
    if p < |line| {
      var len := BlankedAt(line, p);
      if len > 0 {
        BlankFromBlanks(line, p + len);
        HeadBlanks(line, p, len, Spaces(len), BlankFrom(line, p + len));
      } else {
        BlankFromBlanks(line, p + 1);
        HeadBlanks(line, p, 1, [line[p]], BlankFrom(line, p + 1));
      }
    }
  }

  lemma HeadBlanks(line: string, p: nat, n: nat, head: string, rest: string)
    requires p + n <= |line| && |head| == n && OneLine(line) && Blanked(line[p + n..], rest)
    requires forall i :: 0 <= i < n ==> head[i] == ' ' || head[i] == line[p + i]
    ensures Blanked(line[p..], head + rest)
  {
    forall i | 0 <= i < |line| - p
      ensures (head + rest)[i] == line[p..][i] || ((head + rest)[i] == ' ' && line[p..][i] != '\n')
    {
      assert line[p..][i] == line[p + i];
      if i >= n {
        assert line[p + n..][i - n] == line[p + i];
      }
    }
  }

  /** What line `k` of the masked text is. */
  function MaskedLine(lines: seq<string>, k: nat): string
    requires k < |lines|
  {
    if Inside(lines, 0, k) then Spaces(|lines[k]|) else BlankInlineCode(lines[k])
  }

  function MaskedLines(lines: seq<string>): (r: seq<string>)
    ensures |r| == |lines|
  {
    seq(|lines|, k requires 0 <= k < |lines| => MaskedLine(lines, k))
  }

  function MaskOf(text: string): string {
    Join("\n", MaskedLines(Split(text)))
  }

  lemma MaskedLineBlanks(lines: seq<string>, k: nat)
    requires k < |lines| && OneLine(lines[k])
    ensures Blanked(lines[k], MaskedLine(lines, k))
  {
    BlankFromBlanks(lines[k], 0);
    assert lines[k][0..] == lines[k];
  }

  /**
   * Keeps every offset: the masked text has the length of the text and its newlines, and differs
   * from it only by spaces. It blanks exactly the lines `SplitFences` takes for fenced.
   */
  method MaskCode(text: string) returns (masked: string)
    ensures Blanked(text, masked) && masked == MaskOf(text)
    ensures var lines := Split(text);
            forall k :: 0 <= k < |lines| ==>
              && Offset(lines, k) + |lines[k]| <= |masked|
              && text[Offset(lines, k)..Offset(lines, k) + |lines[k]|] == lines[k]
              && masked[Offset(lines, k)..Offset(lines, k) + |lines[k]|] == MaskedLine(lines, k)
  {
    hide FenceOf, Closes, Split, Inside, BlankInlineCode, Join;
    var lines := Split(text);
    var out: seq<string> := [];
    var fence: Option<string> := None;
    for i := 0 to |lines|
      invariant |out| == i && fence == OpenBefore(lines, i)
      invariant forall k :: 0 <= k < i ==> out[k] == MaskedLine(lines, k)
    {
      OnePassIsInside(lines, 0, i);
      var line := lines[i];
      var m := FenceOf(line);
      if fence.None? && m.Some? {
        fence := Some(m.value.marker);
        out := out + [Spaces(|line|)];
      } else if fence.Some? {
        out := out + [Spaces(|line|)];
        if Closes(line, fence.value) {
          fence := None;
        }
      } else {
        out := out + [BlankInlineCode(line)];
      }
    }
    assert out == MaskedLines(lines);
    masked := Join("\n", out);
    MaskKeepsOffsets(text, lines, out);
  }

  lemma MaskKeepsOffsets(text: string, lines: seq<string>, out: seq<string>)
    requires lines == Split(text) && |out| == |lines| && forall k :: 0 <= k < |lines| ==> out[k] == MaskedLine(lines, k)
    ensures Blanked(text, Join("\n", out))
    ensures forall k :: 0 <= k < |lines| ==>
              && Offset(lines, k) + |lines[k]| <= |Join("\n", out)|
              && text[Offset(lines, k)..Offset(lines, k) + |lines[k]|] == lines[k]
              && Join("\n", out)[Offset(lines, k)..Offset(lines, k) + |lines[k]|] == MaskedLine(lines, k)
  {
    hide MaskedLine, Split, Join, Offset;
    SplitJoins(text);
    forall k | 0 <= k < |lines| ensures Blanked(lines[k], out[k]) {
      MaskedLineBlanks(lines, k);
    }
    BlankedLines(lines, out);
    forall k | 0 <= k < |lines|
      ensures Offset(lines, k) + |lines[k]| <= |Join("\n", out)|
      ensures text[Offset(lines, k)..Offset(lines, k) + |lines[k]|] == lines[k]
      ensures Join("\n", out)[Offset(lines, k)..Offset(lines, k) + |lines[k]|] == MaskedLine(lines, k)
    {
      LineAtOffset(lines, k);
      LineAtOffset(out, k);
      SameOffsets(lines, out, k);
    }
  }
}
