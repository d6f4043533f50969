/** The Help Centre's Markdown reader (scripts/help/generate.py `parse_blocks`). */
module Blocks {
  import opened Wrappers
  import opened Text
  import opened Fences

  datatype ListKind = Bullets | Numbers

  datatype Block =
    | Heading(level: nat, title: string, id: string)
    | Para(text: string)
    | Items(kind: ListKind, items: seq<string>)
    | Code(lang: string, text: string)
    | Table(header: seq<string>, rows: seq<seq<string>>)

  /** A block and the lines it was made from. */
  datatype Located = Located(block: Block, from: nat, to: nat)

  // --- Line classes -----------------------------------------------------------------------------------

  /** What may follow a heading's text: spaces, hashes, spaces. */
  predicate IsTrailer(s: string) {
    var hashes := s[Indent(s)..];
    IsBlank(hashes[RunOf('#', hashes)..])
  }

  /** The shortest text from `k` characters on that only a trailer follows. */
  function TitleOf(rest: string, k: nat): string
    requires k <= |rest|
    decreases |rest| - k
  {
    if k == |rest| || IsTrailer(rest[k..]) then Strip(rest[..k]) else TitleOf(rest, k + 1)
  }

  /** One to three hashes, white space, then the title. */
  function HeadingOf(line: string): Option<(nat, string)> {
    var level := RunOf('#', line);
    if level == 0 || level > 3 || level == |line| || !IsSpace(line[level]) then None
    else
      var after := line[level..];
      Some((level, TitleOf(after[Indent(after)..], 0)))
  }

  predicate IsTableRow(line: string) {
    Indent(line) < |line| && line[Indent(line)] == '|'
  }

  function AfterBullet(line: string): Option<string> {
    if |line| < 2 || (line[0] != '-' && line[0] != '*') || !IsSpace(line[1]) then None
    else Some(Strip(line[1..]))
  }

  /** Length of the run of decimal digits at the start. */
  function DigitRun(s: string): (r: nat)
    ensures r <= |s| && (forall i :: 0 <= i < r ==> '0' <= s[i] <= '9')
    decreases |s|
  {
    if s == [] || !('0' <= s[0] <= '9') then 0 else 1 + DigitRun(s[1..])
  }

  function AfterNumber(line: string): Option<string> {
    var n := DigitRun(line);
    if n == 0 || n + 1 >= |line| || line[n] != '.' || !IsSpace(line[n + 1]) then None
    else Some(Strip(line[n + 1..]))
  }

  function ItemOf(kind: ListKind, line: string): Option<string> {
    match kind
    case Bullets => AfterBullet(line)
    case Numbers => AfterNumber(line)
  }

  predicate IsItem(line: string) {
    AfterBullet(line).Some? || AfterNumber(line).Some?
  }

  predicate IsContinuation(line: string) {
    0 < Indent(line) < |line|
  }

  predicate IsBlockStart(line: string) {
    IsBlank(line) || HeadingOf(line).Some? || FenceOf(line).Some? || IsTableRow(line) || IsItem(line)
  }

  function SplitOn(c: char, s: string): (r: seq<string>)
    ensures |r| > 0
    decreases |s|
  {
    if s == [] then [[]]
    else
      var rest := SplitOn(c, s[1..]);
      if s[0] == c then [[]] + rest else [[s[0]] + rest[0]] + rest[1..]
  }

  /** The cells of a row, without the bars at its ends. */
  function Cells(line: string): seq<string> {
    var s := Strip(line);
    var t := if s != [] && s[0] == '|' then s[1..] else s;
    var u := if t != [] && t[|t| - 1] == '|' then t[..|t| - 1] else t;
    var cells := SplitOn('|', u);
    seq(|cells|, i requires 0 <= i < |cells| => Strip(cells[i]))
  }

  /** Two or more dashes, with a colon at either end or not. */
  predicate IsSeparatorCell(cell: string) {
    var s := if cell != [] && cell[0] == ':' then cell[1..] else cell;
    var dashes := RunOf('-', s);
    dashes >= 2 && (s[dashes..] == "" || s[dashes..] == ":")
  }

  predicate IsTableSeparator(line: string) {
    IsTableRow(line) && forall c :: c in Cells(line) ==> c == "" || IsSeparatorCell(c)
  }

  // --- A fence line is nothing else -------------------------------------------------------------------

  lemma FenceIsNothingElse(line: string)
    requires FenceOf(line).Some?
    ensures !IsBlank(line) && !IsTableRow(line) && !IsItem(line)
  {
    hide Strip;
    var first := line[Indent(line)];
    assert line[Indent(line)..][0] == first;
    assert Indent(line) == 0 ==> line[0] == first;
    assert !IsSpace('-') && !IsSpace('*');
  }

  // --- What each block says ---------------------------------------------------------------------------

  function Stripped(lines: seq<string>): seq<string> {
    seq(|lines|, i requires 0 <= i < |lines| => Strip(lines[i]))
  }

  function Rows(lines: seq<string>): seq<seq<string>> {
    seq(|lines|, i requires 0 <= i < |lines| => Cells(lines[i]))
  }

  /** `lines` as list items: each item line starts one, any other continues the last. */
  function ItemsOf(kind: ListKind, lines: seq<string>): (r: seq<string>)
    requires |lines| > 0 && ItemOf(kind, lines[0]).Some?
    ensures |r| > 0
    decreases |lines|
  {
    var last := lines[|lines| - 1];
    if |lines| == 1 then [ItemOf(kind, last).value]
    else
      var before := ItemsOf(kind, lines[..|lines| - 1]);
      if ItemOf(kind, last).Some? then before + [ItemOf(kind, last).value]
      else before[|before| - 1 := before[|before| - 1] + " " + Strip(last)]
  }

  /** A line that stays in a list: another item of its kind, or an indented line of no class. */
  predicate StaysInList(kind: ListKind, line: string) {
    && !IsBlank(line)
    && (ItemOf(kind, line).Some? ||
        (!IsItem(line) && HeadingOf(line).None? && FenceOf(line).None? && !IsTableRow(line) && IsContinuation(line)))
  }

  predicate StartsTable(lines: seq<string>, i: nat)
    requires i < |lines|
  {
    IsTableRow(lines[i]) && i + 1 < |lines| && IsTableSeparator(lines[i + 1])
  }

  predicate StopsAt(lines: seq<string>, to: nat, stays: string -> bool) {
    to >= |lines| || !stays(lines[to])
  }

  /** The block is what its lines say, it reaches as far as it can, and no earlier rule took its first line. */
  ghost predicate Explains(lines: seq<string>, b: Located)
    requires b.from < b.to <= |lines|
  {
    var first, part := lines[b.from], lines[b.from..b.to];
    && !IsBlank(first)
    && match b.block
       case Code(lang, text) =>
         && FenceOf(first).Some?
         && b.to == BlockEnd(lines, b.from)
         && lang == BlockAt(lines, b.from).info
         && text == Join("\n", BlockAt(lines, b.from).body)
       case Heading(level, title, _) =>
         && FenceOf(first).None? && b.to == b.from + 1 && HeadingOf(first) == Some((level, title))
       case Table(header, rows) =>
         && FenceOf(first).None? && HeadingOf(first).None? && StartsTable(lines, b.from) && b.to >= b.from + 2
         && header == Cells(first) && rows == Rows(lines[b.from + 2..b.to])
         && (forall k :: b.from + 2 <= k < b.to ==> IsTableRow(lines[k]))
         && StopsAt(lines, b.to, IsTableRow)
       case Items(kind, items) =>
         && FenceOf(first).None? && HeadingOf(first).None? && !StartsTable(lines, b.from)
         && kind == (if AfterBullet(first).Some? then Bullets else Numbers)
         && ItemOf(kind, first).Some? && items == ItemsOf(kind, part)
         && (forall k :: b.from < k < b.to ==> StaysInList(kind, lines[k]))
         && StopsAt(lines, b.to, line => StaysInList(kind, line))
       case Para(text) =>
         && FenceOf(first).None? && HeadingOf(first).None? && !StartsTable(lines, b.from) && !IsItem(first)
         && text == Join(" ", Stripped(part))
         && (forall k :: b.from < k < b.to ==> !IsBlockStart(lines[k]))
         && StopsAt(lines, b.to, line => !IsBlockStart(line))
  }

  /** Up to line `n`: the blocks' lines are consecutive stretches, and only blank lines lie between them. */
  ghost predicate Tiles(lines: seq<string>, blocks: seq<Located>, n: nat)
    requires n <= |lines|
    decreases |blocks|
  {
    if blocks == [] then forall k :: 0 <= k < n ==> IsBlank(lines[k])
    else
      var b := blocks[|blocks| - 1];
      && b.from < b.to <= n
      && (forall k :: b.to <= k < n ==> IsBlank(lines[k]))
      && Explains(lines, b)
      && Tiles(lines, blocks[..|blocks| - 1], b.from)
  }

  /** The fenced blocks behind the code blocks, in order. */
  ghost function CodesOf(lines: seq<string>, blocks: seq<Located>): seq<FencedBlock>
    decreases |blocks|
  {
    if blocks == [] then []
    else
      var b := blocks[|blocks| - 1];
      CodesOf(lines, blocks[..|blocks| - 1]) +
      (if b.block.Code? && b.from < |lines| && FenceOf(lines[b.from]).Some? then [BlockAt(lines, b.from)] else [])
  }

  // --- Heading ids --------------------------------------------------------------------------------------

  function Decimal(n: nat): string {
    if n < 10 then [('0' as int + n) as char] else Decimal(n / 10) + [('0' as int + n % 10) as char]
  }

  datatype Named = Named(id: string, seen: map<string, nat>)

  /** The first heading of a slug keeps it, later ones get a number. */
  function MakeId(seen: map<string, nat>, slug: string): Named {
    if slug in seen then Named(slug + "-" + Decimal(seen[slug] + 1), seen[slug := seen[slug] + 1])
    else Named(slug, seen[slug := 0])
  }

  /** The ids of headings with these slugs, in order. */
  function IdsFrom(seen: map<string, nat>, slugs: seq<string>): seq<string>
    decreases |slugs|
  {
    if slugs == [] then []
    else [MakeId(seen, slugs[0]).id] + IdsFrom(MakeId(seen, slugs[0]).seen, slugs[1..])
  }

  function SeenAfter(seen: map<string, nat>, slugs: seq<string>): map<string, nat>
    decreases |slugs|
  {
    if slugs == [] then seen else SeenAfter(MakeId(seen, slugs[0]).seen, slugs[1..])
  }

  lemma {:induction false} IdsSnoc(seen: map<string, nat>, slugs: seq<string>, slug: string)
    ensures IdsFrom(seen, slugs + [slug]) == IdsFrom(seen, slugs) + [MakeId(SeenAfter(seen, slugs), slug).id]
    ensures SeenAfter(seen, slugs + [slug]) == MakeId(SeenAfter(seen, slugs), slug).seen
    decreases |slugs|
  {
    hide MakeId;
    if slugs == [] {
      assert [] + [slug] == [slug] && [slug][1..] == [];
    } else {
      assert (slugs + [slug])[1..] == slugs[1..] + [slug];
      IdsSnoc(MakeId(seen, slugs[0]).seen, slugs[1..], slug);
    }
  }

  /** The headings among the blocks: their ids, and the slugs of their titles. */
  function HeadingIds(blocks: seq<Located>): seq<string>
    decreases |blocks|
  {
    if blocks == [] then []
    else
      var b := blocks[|blocks| - 1].block;
      HeadingIds(blocks[..|blocks| - 1]) + (if b.Heading? then [b.id] else [])
  }

  function HeadingSlugs(blocks: seq<Located>, slugOf: string -> string): seq<string>
    decreases |blocks|
  {
    if blocks == [] then []
    else
      var b := blocks[|blocks| - 1].block;
      HeadingSlugs(blocks[..|blocks| - 1], slugOf) + (if b.Heading? then [slugOf(b.title)] else [])
  }
}

module BlockParser {
  import opened Wrappers
  import opened Text
  import opened Fences
  import opened Blocks

  /** The rows of a table below its separator. */
  method ReadRows(lines: seq<string>, i: nat) returns (rows: seq<seq<string>>, next: nat)
    requires i <= |lines|
    ensures i <= next <= |lines| && rows == Rows(lines[i..next])
    ensures forall k :: i <= k < next ==> IsTableRow(lines[k])
    ensures StopsAt(lines, next, IsTableRow)
  {
    hide Cells, IsTableRow;
    rows, next := [], i;
    while next < |lines| && IsTableRow(lines[next])
      invariant i <= next <= |lines| && rows == Rows(lines[i..next])
      invariant forall k :: i <= k < next ==> IsTableRow(lines[k])
    {
      rows := rows + [Cells(lines[next])];
      next := next + 1;
    }
  }

  method ReadItems(lines: seq<string>, i: nat, kind: ListKind) returns (items: seq<string>, next: nat)
    requires i < |lines| && ItemOf(kind, lines[i]).Some?
    ensures i < next <= |lines| && items == ItemsOf(kind, lines[i..next])
    ensures forall k :: i < k < next ==> StaysInList(kind, lines[k])
    ensures StopsAt(lines, next, line => StaysInList(kind, line))
  {
    hide HeadingOf, FenceOf, Strip, AfterBullet, AfterNumber, ItemsOf, IsTableRow, IsContinuation, IsBlank;
    items := [];
    var cur := ItemOf(kind, lines[i]).value;
    next := i + 1;
    OneItem(lines, i, kind);
    while next < |lines|
      invariant i < next <= |lines| && items + [cur] == ItemsOf(kind, lines[i..next])
      invariant forall k :: i < k < next ==> StaysInList(kind, lines[k])
    {
      var line := lines[next];
      if IsBlank(line) {
        break;
      }
      MoreItems(lines, i, next, kind);
      if ItemOf(kind, line).Some? {
        items := items + [cur];
        cur := ItemOf(kind, line).value;
        next := next + 1;
        continue;
      }
      if IsItem(line) || HeadingOf(line).Some? || FenceOf(line).Some? || IsTableRow(line) {
        break;
      }
      if IsContinuation(line) {
        cur := cur + " " + Strip(line);
        next := next + 1;
        continue;
      }
      break;
    }
    items := items + [cur];
  }

  lemma OneItem(lines: seq<string>, i: nat, kind: ListKind)
    requires i < |lines| && ItemOf(kind, lines[i]).Some?
    ensures lines[i..i + 1][0] == lines[i] && ItemsOf(kind, lines[i..i + 1]) == [ItemOf(kind, lines[i]).value]
  {}

  lemma MoreItems(lines: seq<string>, i: nat, next: nat, kind: ListKind)
    requires i < next < |lines| && ItemOf(kind, lines[i]).Some?
    ensures lines[i..next][0] == lines[i] == lines[i..next + 1][0]
    ensures var before := ItemsOf(kind, lines[i..next]);
            ItemsOf(kind, lines[i..next + 1]) ==
              if ItemOf(kind, lines[next]).Some? then before + [ItemOf(kind, lines[next]).value]
              else before[|before| - 1 := before[|before| - 1] + " " + Strip(lines[next])]
  {
    hide Strip, AfterBullet, AfterNumber;
    assert lines[i..next + 1][..next - i] == lines[i..next];
  }

  method ReadParagraph(lines: seq<string>, i: nat) returns (parts: seq<string>, next: nat)
    requires i < |lines|
    ensures i < next <= |lines| && parts == Stripped(lines[i..next])
    ensures forall k :: i < k < next ==> !IsBlockStart(lines[k])
    ensures StopsAt(lines, next, line => !IsBlockStart(line))
  {
    hide Strip, IsBlockStart;
    parts, next := [Strip(lines[i])], i + 1;
    while next < |lines| && !IsBlockStart(lines[next])
      invariant i < next <= |lines| && parts == Stripped(lines[i..next])
      invariant forall k :: i < k < next ==> !IsBlockStart(lines[k])
    {
      parts := parts + [Strip(lines[next])];
      next := next + 1;
    }
  }

  /** Lines without a fence lie outside every fenced block. */
  lemma {:induction false} SkipUnfenced(lines: seq<string>, i: nat, j: nat)
    requires i <= j <= |lines| && forall k :: i <= k < j ==> FenceOf(lines[k]).None?
    ensures BlocksFrom(lines, i) == BlocksFrom(lines, j)
    decreases j - i
  {
    hide FenceOf, BlocksFrom, Inside;
    if i < j {
      NoFenceStep(lines, i);
      SkipUnfenced(lines, i + 1, j);
    }
  }

  /** No block but a code block has a fence line in it: a fence ends paragraphs, lists and tables. */
  lemma OthersHaveNoFence(lines: seq<string>, b: Located)
    requires b.from < b.to <= |lines| && Explains(lines, b) && !b.block.Code?
    ensures BlocksFrom(lines, b.from) == BlocksFrom(lines, b.to)
  {
    hide FenceOf, BlocksFrom, Explains;
    forall k | b.from <= k < b.to ensures FenceOf(lines[k]).None? {
      OthersUnfenced(lines, b, k);
    }
    SkipUnfenced(lines, b.from, b.to);
  }

  lemma OthersUnfenced(lines: seq<string>, b: Located, k: nat)
    requires b.from <= k < b.to <= |lines| && Explains(lines, b) && !b.block.Code?
    ensures FenceOf(lines[k]).None?
  {
    hide FenceOf, HeadingOf, Cells, ItemsOf, Join, Strip, AfterBullet, AfterNumber, IsTableRow, IsBlank, StopsAt, Rows, Stripped;
    if FenceOf(lines[k]).Some? {
      FenceIsNothingElse(lines[k]);
      SeparatorIsRow(lines, b.from);
    }
  }

  lemma SeparatorIsRow(lines: seq<string>, i: nat)
    ensures i < |lines| && StartsTable(lines, i) ==> IsTableRow(lines[i]) && IsTableRow(lines[i + 1])
  {}

  lemma BlankHasNoFence(line: string)
    requires IsBlank(line)
    ensures FenceOf(line).None?
  {}

  /** A block more: the tiling reaches to its end and the code blocks so far are accounted for. */
  lemma AddBlock(lines: seq<string>, blocks: seq<Located>, b: Located)
    requires b.from < b.to <= |lines| && Tiles(lines, blocks, b.from) && Explains(lines, b)
    requires CodesOf(lines, blocks) + BlocksFrom(lines, b.from) == BlocksFrom(lines, 0)
    ensures Tiles(lines, blocks + [b], b.to)
    ensures CodesOf(lines, blocks + [b]) + BlocksFrom(lines, b.to) == BlocksFrom(lines, 0)
  {
    hide BlocksFrom, FenceOf, BlockAt, BlockEnd, Explains, Tiles, CodesOf, Inside;
    GrowTiles(lines, blocks, b);
    if b.block.Code? {
      CodeOrNot(lines, b);
      FenceStep(lines, b.from);
    } else {
      OthersHaveNoFence(lines, b);
    }
  }

  lemma GrowTiles(lines: seq<string>, blocks: seq<Located>, b: Located)
    requires b.from < b.to <= |lines| && Tiles(lines, blocks, b.from) && Explains(lines, b)
    ensures Tiles(lines, blocks + [b], b.to)
    ensures CodesOf(lines, blocks + [b]) == CodesOf(lines, blocks) +
            (if b.block.Code? && b.from < |lines| && FenceOf(lines[b.from]).Some? then [BlockAt(lines, b.from)] else [])
  {
    hide Explains, FenceOf, BlockAt;
    assert (blocks + [b])[..|blocks|] == blocks;
  }

  lemma CodeOrNot(lines: seq<string>, b: Located)
    requires b.from < b.to <= |lines| && Explains(lines, b) && b.block.Code?
    ensures FenceOf(lines[b.from]).Some? && b.to == BlockEnd(lines, b.from)
  {}

  lemma {:induction false} AddBlank(lines: seq<string>, blocks: seq<Located>, i: nat)
    requires i < |lines| && IsBlank(lines[i]) && Tiles(lines, blocks, i)
    ensures Tiles(lines, blocks, i + 1) && BlocksFrom(lines, i) == BlocksFrom(lines, i + 1)
  {
    hide Explains, FenceOf;
    BlankHasNoFence(lines[i]);
    NoFenceStep(lines, i);
  }

  /** One block from a line that is not blank. */
  method ReadBlock(lines: seq<string>, i: nat, slugOf: string -> string, seen: map<string, nat>)
    returns (b: Located, after: map<string, nat>)
    requires i < |lines| && !IsBlank(lines[i])
    ensures b.from == i < b.to <= |lines| && Explains(lines, b)
    ensures b.block.Heading? ==>
              var made := MakeId(seen, slugOf(b.block.title)); b.block.id == made.id && after == made.seen
    ensures !b.block.Heading? ==> after == seen
  {
    hide IsBlank, HeadingOf, FenceOf, IsTableRow, IsTableSeparator, AfterBullet, AfterNumber, Cells, ItemsOf, Strip, Join,
         BodyEnd, IsBlockStart, StaysInList, Rows, Stripped;
    after := seen;
    var line := lines[i];
    var fence := FenceOf(line);
    if fence.Some? {
      var body, _, next := ReadBody(lines, i + 1, fence.value.marker);
      return Located(Code(Strip(fence.value.info), Join("\n", body)), i, next), after;
    }
    var heading := HeadingOf(line);
    if heading.Some? {
      var made := MakeId(seen, slugOf(heading.value.1));
      return Located(Heading(heading.value.0, heading.value.1, made.id), i, i + 1), made.seen;
    }
    if IsTableRow(line) && i + 1 < |lines| && IsTableSeparator(lines[i + 1]) {
      var rows, next := ReadRows(lines, i + 2);
      return Located(Table(Cells(line), rows), i, next), after;
    }
    if AfterBullet(line).Some? || AfterNumber(line).Some? {
      var kind := if AfterBullet(line).Some? then Bullets else Numbers;
      var items, next := ReadItems(lines, i, kind);
      return Located(Items(kind, items), i, next), after;
    }
    var parts, next := ReadParagraph(lines, i);
    return Located(Para(Join(" ", parts)), i, next), after;
  }

  /**
   * Every line is consumed once: each block owns a stretch of lines that says what the block says, in
   * order, with only blank lines between; and the code blocks are, in order, exactly the fenced blocks
   * of the document, whatever they interrupt.
   */
  method ParseBlocks(text: string, slugOf: string -> string) returns (blocks: seq<Located>)
    ensures var lines := Split(text);
            Tiles(lines, blocks, |lines|) && CodesOf(lines, blocks) == BlocksFrom(lines, 0)
    ensures HeadingIds(blocks) == IdsFrom(map[], HeadingSlugs(blocks, slugOf))
  {
    hide Split, IsBlank, Tiles, CodesOf, BlocksFrom, Explains, HeadingIds, HeadingSlugs, IdsFrom, SeenAfter, MakeId;
    var lines := Split(text);
    blocks := [];
    var seen: map<string, nat> := map[];
    var i := 0;
    NothingTiled(lines, slugOf);
    while i < |lines|
      invariant i <= |lines| && Tiles(lines, blocks, i)
      invariant CodesOf(lines, blocks) + BlocksFrom(lines, i) == BlocksFrom(lines, 0)
      invariant HeadingIds(blocks) == IdsFrom(map[], HeadingSlugs(blocks, slugOf))
      invariant seen == SeenAfter(map[], HeadingSlugs(blocks, slugOf))
      decreases |lines| - i
    {
      if IsBlank(lines[i]) {
        AddBlank(lines, blocks, i);
        i := i + 1;
        continue;
      }
      var b;
      b, seen := ReadBlock(lines, i, slugOf, seen);
      AddBlock(lines, blocks, b);
      AddHeading(blocks, b, slugOf);
      if b.block.Heading? {
        IdsSnoc(map[], HeadingSlugs(blocks, slugOf), slugOf(b.block.title));
      }
      blocks := blocks + [b];
      i := b.to;
    }
    NoBlocksAtEnd(lines);
  }

  lemma NothingTiled(lines: seq<string>, slugOf: string -> string)
    ensures Tiles(lines, [], 0) && CodesOf(lines, []) == []
    ensures HeadingIds([]) == IdsFrom(map[], HeadingSlugs([], slugOf)) && map[] == SeenAfter(map[], HeadingSlugs([], slugOf))
  {}

  lemma AddHeading(blocks: seq<Located>, b: Located, slugOf: string -> string)
    ensures HeadingIds(blocks + [b]) == if b.block.Heading? then HeadingIds(blocks) + [b.block.id] else HeadingIds(blocks)
    ensures HeadingSlugs(blocks + [b], slugOf) ==
            if b.block.Heading? then HeadingSlugs(blocks, slugOf) + [slugOf(b.block.title)] else HeadingSlugs(blocks, slugOf)
  {
    assert (blocks + [b])[..|blocks|] == blocks;
  }

  /** Every line of the document is in exactly one block, or is blank and in none. */
  lemma {:induction false} EveryLineOnce(lines: seq<string>, blocks: seq<Located>, n: nat, k: nat)
    requires n <= |lines| && Tiles(lines, blocks, n) && k < n
    ensures forall i, j :: 0 <= i < j < |blocks| ==> !(blocks[i].from <= k < blocks[i].to && blocks[j].from <= k < blocks[j].to)
    ensures (exists i :: 0 <= i < |blocks| && blocks[i].from <= k < blocks[i].to) || IsBlank(lines[k])
    decreases |blocks|
  {
    hide Explains, IsBlank;
    if blocks != [] {
      var m := |blocks| - 1;
      var b, before := blocks[m], blocks[..m];
      EndsBefore(lines, before, b.from);
      if k < b.from {
        EveryLineOnce(lines, before, b.from, k);
        if i :| 0 <= i < |before| && before[i].from <= k < before[i].to {
          assert blocks[i].from <= k < blocks[i].to;
        }
        forall i, j | 0 <= i < j < |blocks|
          ensures !(blocks[i].from <= k < blocks[i].to && blocks[j].from <= k < blocks[j].to)
        {
          if j < m {
            assert before[i] == blocks[i] && before[j] == blocks[j];
          }
        }
      } else {
        forall i, j | 0 <= i < j < |blocks|
          ensures !(blocks[i].from <= k < blocks[i].to && blocks[j].from <= k < blocks[j].to)
        {
          assert before[i] == blocks[i];
        }
        if k < b.to {
          assert blocks[m].from <= k < blocks[m].to;
        }
      }
    }
  }

  lemma {:induction false} EndsBefore(lines: seq<string>, blocks: seq<Located>, n: nat)
    requires n <= |lines| && Tiles(lines, blocks, n)
    ensures forall i :: 0 <= i < |blocks| ==> blocks[i].to <= n
    decreases |blocks|
  {
    hide Explains, IsBlank;
    if blocks != [] {
      EndsBefore(lines, blocks[..|blocks| - 1], blocks[|blocks| - 1].from);
      forall i | 0 <= i < |blocks| ensures blocks[i].to <= n {
        if i < |blocks| - 1 {
          assert blocks[i] == blocks[..|blocks| - 1][i];
        }
      }
    }
  }
}
