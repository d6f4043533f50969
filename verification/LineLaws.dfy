/**
 * What is written as a line of Markdown is what the reader makes of it: one law for each kind of
 * line, from the text to the parts and back (scripts/help/generate.py, scripts/docs/check.py).
 */
module LineLaws {
  import opened Wrappers
  import opened Text
  import opened Fences
  import opened Blocks

  // --- White space ----------------------------------------------------------------------------------

  /** No white space at either end. */
  predicate Bare(s: string) {
    s != [] ==> !IsSpace(s[0]) && !IsSpace(s[|s| - 1])
  }

  lemma {:induction false} IndentIs(s: string, n: nat)
    requires n <= |s| && AllSpace(s[..n]) && (n < |s| ==> !IsSpace(s[n]))
    ensures Indent(s) == n
    decreases |s|
  {
    if n > 0 {
      assert s[0] == s[..n][0];
      assert s[1..][..n - 1] == s[..n][1..];
      IndentIs(s[1..], n - 1);
    }
  }

  lemma {:induction false} RightIs(core: string, tail: string)
    requires AllSpace(tail) && (core != [] ==> !IsSpace(core[|core| - 1]))
    ensures StripRight(core + tail) == core
    decreases |tail|
  {
    if tail == [] {
      assert core + tail == core;
    } else {
      var n := |tail| - 1;
      assert (core + tail)[..|core + tail| - 1] == core + tail[..n];
      RightIs(core, tail[..n]);
    }
  }

  /** Stripping takes away exactly the white space around the text. */
  lemma StripIs(lead: string, core: string, tail: string)
    requires AllSpace(lead) && AllSpace(tail) && Bare(core)
    ensures Strip(lead + core + tail) == core
  {
    var s := lead + core + tail;
    if core == [] {
      assert s == lead + tail && AllSpace(s);
      assert s[..|s|] == s;
      IndentIs(s, |s|);
      assert s[|s|..] == [];
    } else {
      assert s[..|lead|] == lead;
      IndentIs(s, |lead|);
      assert s[|lead|..] == core + tail;
      RightIs(core, tail);
    }
  }

  // --- Table rows -----------------------------------------------------------------------------------

  /** A row: a bar in front of every cell and one behind the last. */
  function Bars(cells: seq<string>): string
    decreases |cells|
  {
    if cells == [] then "|" else "|" + cells[0] + Bars(cells[1..])
  }

  lemma {:induction false} SplitAtBar(cell: string, rest: string)
    requires '|' !in cell
    ensures SplitOn('|', cell + "|" + rest) == [cell] + SplitOn('|', rest)
    decreases |cell|
  {
    var s := cell + "|" + rest;
    if cell == [] {
      assert s[1..] == rest;
    } else {
      assert s[1..] == cell[1..] + "|" + rest;
      SplitAtBar(cell[1..], rest);
      assert [cell[0]] + cell[1..] == cell;
    }
  }

  lemma {:induction false} SplitNoBar(cell: string)
    requires '|' !in cell
    ensures SplitOn('|', cell) == [cell]
    decreases |cell|
  {
    if cell != [] {
      SplitNoBar(cell[1..]);
      assert [cell[0]] + cell[1..] == cell;
    }
  }

  lemma {:induction false} SplitBars(cells: seq<string>)
    requires cells != [] && forall c :: c in cells ==> '|' !in c
    ensures var s := Bars(cells);
            |s| >= 2 && s[0] == '|' && s[|s| - 1] == '|' && SplitOn('|', s[1..|s| - 1]) == cells
    decreases |cells|
  {
    var s := Bars(cells);
    if |cells| == 1 {
      assert Bars(cells[1..]) == "|";
      assert s == "|" + cells[0] + "|";
      assert s[1..|s| - 1] == cells[0];
      SplitNoBar(cells[0]);
    } else {
      var rest := Bars(cells[1..]);
      SplitBars(cells[1..]);
      assert s == "|" + cells[0] + rest && rest == "|" + rest[1..];
      assert s[1..|s| - 1] == cells[0] + "|" + rest[1..|rest| - 1];
      SplitAtBar(cells[0], rest[1..|rest| - 1]);
      assert [cells[0]] + cells[1..] == cells;
    }
  }

  /** A written table row reads back as its cells, in order, each without the white space around it. */
  lemma CellsRead(lead: string, cells: seq<string>, tail: string)
    requires AllSpace(lead) && AllSpace(tail) && cells != [] && forall c :: c in cells ==> '|' !in c
    ensures IsTableRow(lead + Bars(cells) + tail)
    ensures Cells(lead + Bars(cells) + tail) == Stripped(cells)
  {
    hide SplitOn, Strip;
    var s, line := Bars(cells), lead + Bars(cells) + tail;
    SplitBars(cells);
    StripIs(lead, s, tail);
    assert line[..|lead|] == lead;
    IndentIs(line, |lead|);
    assert s[1..][..|s| - 2] == s[1..|s| - 1];
  }

  function Repeat(c: char, n: nat): (r: string)
    ensures |r| == n && forall i :: 0 <= i < n ==> r[i] == c
  {
    seq(n, _ => c)
  }

  lemma {:induction false} RunIs(c: char, n: nat, rest: string)
    requires rest != [] ==> rest[0] != c
    ensures RunOf(c, Repeat(c, n) + rest) == n
    decreases n
  {
    var s := Repeat(c, n) + rest;
    if n > 0 {
      assert s[1..] == Repeat(c, n - 1) + rest;
      RunIs(c, n - 1, rest);
    } else {
      assert s == rest;
    }
  }

  /** A separator cell is dashes, two at least, with a colon on either side or not. */
  lemma SeparatorRead(left: bool, n: nat, right: bool)
    ensures var cell := (if left then ":" else "") + Repeat('-', n) + (if right then ":" else "");
            cell != [] && cell != ":" && cell != "::" ==> (IsSeparatorCell(cell) <==> n >= 2)
  {
    var rest := if right then ":" else "";
    var dashes := Repeat('-', n) + rest;
    var cell := (if left then ":" else "") + Repeat('-', n) + rest;
    RunIs('-', n, rest);
    assert dashes[n..] == rest;
    if left {
      assert cell[1..] == dashes;
    } else {
      assert cell == dashes;
    }
  }

  // --- List items -----------------------------------------------------------------------------------

  /** `- text` and `* text`. */
  lemma BulletRead(bullet: char, lead: string, text: string, tail: string)
    requires bullet == '-' || bullet == '*'
    requires lead != [] && AllSpace(lead) && AllSpace(tail) && Bare(text)
    ensures AfterBullet([bullet] + (lead + text + tail)) == Some(text)
  {
    var line := [bullet] + (lead + text + tail);
    assert line[1..] == lead + text + tail;
    StripIs(lead, text, tail);
  }

  predicate AllDigits(s: string) {
    forall i :: 0 <= i < |s| ==> '0' <= s[i] <= '9'
  }

  lemma {:induction false} DigitsAre(digits: string, rest: string)
    requires AllDigits(digits) && (rest != [] ==> !('0' <= rest[0] <= '9'))
    ensures DigitRun(digits + rest) == |digits|
    decreases |digits|
  {
    if digits == [] {
      assert digits + rest == rest;
    } else {
      assert (digits + rest)[1..] == digits[1..] + rest;
      DigitsAre(digits[1..], rest);
    }
  }

  /** `12. text`. */
  lemma NumberRead(digits: string, lead: string, text: string, tail: string)
    requires digits != [] && AllDigits(digits)
    requires lead != [] && AllSpace(lead) && AllSpace(tail) && Bare(text)
    ensures AfterNumber(digits + "." + (lead + text + tail)) == Some(text)
  {
    var rest := "." + (lead + text + tail);
    var line := digits + "." + (lead + text + tail);
    assert line == digits + rest;
    DigitsAre(digits, rest);
    assert line[|digits| + 1..] == lead + text + tail;
    StripIs(lead, text, tail);
  }

  /** An item: its first line, and the lines that continue it. */
  datatype Item = Item(first: string, more: seq<string>)

  function LinesOf(items: seq<Item>): seq<string>
    decreases |items|
  {
    if items == [] then []
    else LinesOf(items[..|items| - 1]) + [items[|items| - 1].first] + items[|items| - 1].more
  }

  function TextOf(kind: ListKind, item: Item): string
    requires ItemOf(kind, item.first).Some?
  {
    Join(" ", [ItemOf(kind, item.first).value] + Stripped(item.more))
  }

  predicate IsListOf(kind: ListKind, items: seq<Item>) {
    forall i :: 0 <= i < |items| ==>
      && ItemOf(kind, items[i].first).Some?
      && forall l :: l in items[i].more ==> ItemOf(kind, l).None?
  }

  lemma {:induction false} JoinSnoc(sep: string, parts: seq<string>, part: string)
    requires parts != []
    ensures Join(sep, parts + [part]) == Join(sep, parts) + sep + part
    decreases |parts|
  {
    if |parts| == 1 {
      assert (parts + [part])[1..] == [part];
    } else {
      assert (parts + [part])[1..] == parts[1..] + [part];
      JoinSnoc(sep, parts[1..], part);
    }
  }

  lemma NextItem(kind: ListKind, lines: seq<string>, line: string)
    requires ItemOf(kind, line).Some? && (lines != [] ==> ItemOf(kind, lines[0]).Some?)
    ensures var all := lines + [line];
            && ItemOf(kind, all[0]).Some?
            && ItemsOf(kind, all) == (if lines == [] then [] else ItemsOf(kind, lines)) + [ItemOf(kind, line).value]
  {
    hide ItemOf;
    assert (lines + [line])[..|lines|] == lines;
  }

  lemma NextContinuation(kind: ListKind, lines: seq<string>, line: string)
    requires lines != [] && ItemOf(kind, lines[0]).Some? && ItemOf(kind, line).None?
    ensures var all, before := lines + [line], ItemsOf(kind, lines);
            && ItemOf(kind, all[0]).Some?
            && ItemsOf(kind, all) == before[..|before| - 1] + [before[|before| - 1] + " " + Strip(line)]
  {
    hide ItemOf, Strip;
    assert (lines + [line])[..|lines|] == lines;
  }

  lemma TextGrows(kind: ListKind, item: Item)
    requires ItemOf(kind, item.first).Some? && item.more != []
    ensures var n := |item.more| - 1;
            TextOf(kind, item) == TextOf(kind, Item(item.first, item.more[..n])) + " " + Strip(item.more[n])
  {
    hide ItemOf, Strip;
    var n, text := |item.more| - 1, ItemOf(kind, item.first).value;
    var parts := [text] + Stripped(item.more[..n]);
    assert [text] + Stripped(item.more) == parts + [Strip(item.more[n])];
    JoinSnoc(" ", parts, Strip(item.more[n]));
  }

  lemma OneLineItem(kind: ListKind, item: Item)
    requires ItemOf(kind, item.first).Some? && item.more == []
    ensures TextOf(kind, item) == ItemOf(kind, item.first).value
  {
    hide ItemOf;
    assert [ItemOf(kind, item.first).value] + Stripped(item.more) == [ItemOf(kind, item.first).value];
  }

  /** Continuation lines are joined to their item with a space. */
  lemma {:induction false} ItemGrows(kind: ListKind, lines: seq<string>, item: Item)
    requires ItemOf(kind, item.first).Some? && forall l :: l in item.more ==> ItemOf(kind, l).None?
    requires lines != [] ==> ItemOf(kind, lines[0]).Some?
    ensures var all := lines + [item.first] + item.more;
            && ItemOf(kind, all[0]).Some?
            && ItemsOf(kind, all) == (if lines == [] then [] else ItemsOf(kind, lines)) + [TextOf(kind, item)]
    decreases |item.more|
  {
    hide ItemOf, Strip, TextOf, ItemsOf;
    if item.more == [] {
      assert lines + [item.first] + item.more == lines + [item.first];
      NextItem(kind, lines, item.first);
      OneLineItem(kind, item);
    } else {
      var n := |item.more| - 1;
      ItemGrows(kind, lines, Item(item.first, item.more[..n]));
      var front := lines + [item.first] + item.more[..n];
      assert lines + [item.first] + item.more == front + [item.more[n]];
      NextContinuation(kind, front, item.more[n]);
      TextGrows(kind, item);
    }
  }

  /** A written list reads back as its items, each joined from its own lines. */
  lemma {:induction false} ItemsRead(kind: ListKind, items: seq<Item>)
    requires items != [] && IsListOf(kind, items)
    ensures var lines := LinesOf(items);
            && |lines| > 0 && ItemOf(kind, lines[0]).Some? && |ItemsOf(kind, lines)| == |items|
            && forall i :: 0 <= i < |items| ==> ItemsOf(kind, lines)[i] == TextOf(kind, items[i])
    decreases |items|
  {
    hide ItemOf, TextOf, ItemsOf;
    var n := |items| - 1;
    if n > 0 {
      ItemsRead(kind, items[..n]);
      ItemGrows(kind, LinesOf(items[..n]), items[n]);
    } else {
      assert items[..n] == [];
      ItemGrows(kind, [], items[n]);
    }
  }

  // --- Headings -------------------------------------------------------------------------------------

  /** White space, hashes, white space. */
  lemma TrailerIs(lead: string, n: nat, tail: string)
    requires AllSpace(lead) && AllSpace(tail)
    ensures IsTrailer(lead + Repeat('#', n) + tail)
  {
    var hashes := Repeat('#', n) + tail;
    var s := lead + Repeat('#', n) + tail;
    assert s == lead + hashes;
    if n == 0 {
      assert hashes == tail && AllSpace(s);
      assert s[..|s|] == s;
      IndentIs(s, |s|);
      assert s[|s|..] == [];
    } else {
      assert s[..|lead|] == lead && s[|lead|] == '#' && !IsSpace('#');
      IndentIs(s, |lead|);
      assert s[|lead|..] == hashes;
      assert tail != [] ==> IsSpace(tail[0]);
      RunIs('#', n, tail);
      assert hashes[n..] == tail && tail[..|tail|] == tail;
      IndentIs(tail, |tail|);
    }
  }

  /** Anything else in it, and it is no trailer. */
  lemma NoTrailer(s: string, i: nat)
    requires i < |s| && !IsSpace(s[i]) && s[i] != '#'
    ensures !IsTrailer(s)
  {
    var n := Indent(s);
    SpacesIn(s, n);
    var hashes := s[n..];
    var k := RunOf('#', hashes);
    assert hashes[i - n] == s[i];
    var rest := hashes[k..];
    assert rest[i - n - k] == s[i];
    SpacesIn(rest, Indent(rest));
  }

  lemma SpacesIn(s: string, n: nat)
    requires n <= |s| && AllSpace(s[..n])
    ensures forall i :: 0 <= i < n ==> IsSpace(s[i])
  {
    forall i | 0 <= i < n ensures IsSpace(s[i]) {
      assert s[..n][i] == s[i];
    }
  }

  lemma {:induction false} TitleIs(title: string, trailer: string, k: nat)
    requires Bare(title) && (title != [] ==> title[|title| - 1] != '#') && IsTrailer(trailer) && k <= |title|
    ensures TitleOf(title + trailer, k) == title
    decreases |title| - k
  {
    var rest := title + trailer;
    if k < |title| {
      assert rest[k..][|title| - 1 - k] == title[|title| - 1];
      NoTrailer(rest[k..], |title| - 1 - k);
      TitleIs(title, trailer, k + 1);
    } else {
      assert rest[k..] == trailer && rest[..k] == title;
      assert [] + title + [] == title;
      StripIs([], title, []);
    }
  }

  /**
   * One to three hashes, white space, a title, and perhaps white space and closing hashes: a heading of
   * that level with that title. With more hashes it is none.
   */
  lemma HeadingRead(level: nat, lead: string, title: string, gap: string, closing: nat, tail: string)
    requires level > 0 && lead != [] && AllSpace(lead) && AllSpace(gap) && AllSpace(tail)
    requires title != [] && Bare(title) && title[|title| - 1] != '#'
    ensures HeadingOf(Repeat('#', level) + (lead + (title + (gap + Repeat('#', closing) + tail)))) ==
            if level <= 3 then Some((level, title)) else None
  {
    hide TitleOf, IsTrailer;
    var trailer := gap + Repeat('#', closing) + tail;
    var after := lead + (title + trailer);
    var line := Repeat('#', level) + after;
    RunIs('#', level, after);
    if level <= 3 {
      assert line[level..] == after;
      assert after[..|lead|] == lead;
      IndentIs(after, |lead|);
      assert after[|lead|..] == title + trailer;
      TrailerIs(gap, closing, tail);
      TitleIs(title, trailer, 0);
    }
  }

  // --- Fences ---------------------------------------------------------------------------------------

  /** Three or more back-ticks or tildes, indented by at most three: the marker and what follows it. */
  lemma FenceRead(lead: string, c: char, n: nat, info: string)
    requires AllSpace(lead) && (c == '`' || c == '~') && n > 0 && (info != [] ==> info[0] != c)
    ensures FenceOf(lead + (Repeat(c, n) + info)) ==
            if |lead| <= 3 && n >= 3 then Some(Fence(Repeat(c, n), info)) else None
  {
    var rest := Repeat(c, n) + info;
    var line := lead + rest;
    assert line[..|lead|] == lead && line[|lead|] == c && !IsSpace(c);
    IndentIs(line, |lead|);
    assert line[|lead|..] == rest;
    RunIs(c, n, info);
    assert rest[..n] == Repeat(c, n) && rest[n..] == info;
  }

  /** A closing line has the same marker, at least as long, and nothing behind it. */
  lemma ClosingRead(lead: string, c: char, n: nat, info: string, d: char, opened_: nat)
    requires AllSpace(lead) && (c == '`' || c == '~') && n > 0 && (info != [] ==> info[0] != c)
    requires (d == '`' || d == '~') && opened_ >= 3
    ensures Closes(lead + (Repeat(c, n) + info), Repeat(d, opened_)) <==>
            |lead| <= 3 && n >= opened_ && c == d && AllSpace(info)
  {
    hide FenceOf;
    FenceRead(lead, c, n, info);
    BlankExactly(info);
  }

  lemma BlankExactly(s: string)
    ensures Strip(s) == [] <==> AllSpace(s)
  {
    var n := Indent(s);
    SpacesIn(s, n);
    var rest := s[n..];
    var r := StripRight(rest);
    assert r == [] ==> rest[|r|..] == rest;
    assert n < |s| ==> rest[0] == s[n];
  }

  // --- Code spans -----------------------------------------------------------------------------------

  lemma BlankStep(line: string, p: nat)
    requires p < |line|
    ensures var len := BlankedAt(line, p);
            BlankFrom(line, p) == if len > 0 then Spaces(len) + BlankFrom(line, p + len) else [line[p]] + BlankFrom(line, p + 1)
  {
    hide BlankedAt;
  }

  lemma NoSpanHere(line: string, p: nat)
    requires p < |line| && line[p] != '`'
    ensures BlankedAt(line, p) == 0
  {
    assert line[p..][0] == line[p];
  }

  lemma {:induction false} PlainBlanks(line: string, p: nat, q: nat)
    requires p <= q <= |line| && forall i :: p <= i < q ==> line[i] != '`'
    ensures BlankFrom(line, p) == line[p..q] + BlankFrom(line, q)
    decreases q - p
  {
    hide BlankFrom, BlankedAt;
    if p < q {
      NoSpanHere(line, p);
      BlankStep(line, p);
      PlainBlanks(line, p + 1, q);
      assert line[p..q] == [line[p]] + line[p + 1..q];
      assert [line[p]] + (line[p + 1..q] + BlankFrom(line, q)) == [line[p]] + line[p + 1..q] + BlankFrom(line, q);
    } else {
      assert line[p..q] == [];
      assert [] + BlankFrom(line, q) == BlankFrom(line, q);
    }
  }

  lemma {:induction false} ContentEndIs(line: string, from: nat, n: nat, end: nat)
    requires from <= end && end + n <= |line| && TicksAt(line, end, n)
    requires forall i :: from <= i < end ==> !TicksAt(line, i, n)
    ensures ContentEnd(line, from, n) == Some(end)
    decreases end - from
  {
    if from < end {
      ContentEndIs(line, from + 1, n, end);
    }
  }

  /** `m` back-ticks at `p` open a span that ends behind `m` back-ticks at `e`, the first after some content. */
  ghost predicate Opens(line: string, p: nat, m: nat, e: nat) {
    && m > 0 && TicksAt(line, p, m) && p + m < e && TicksAt(line, e, m)
    && forall i :: p + m < i < e ==> !TicksAt(line, i, m)
  }

  lemma {:induction false} ContentEndFirst(line: string, from: nat, n: nat)
    ensures var r := ContentEnd(line, from, n);
            && (r.Some? ==> TicksAt(line, r.value, n) && forall i :: from <= i < r.value ==> !TicksAt(line, i, n))
            && (r.None? ==> forall i :: from <= i ==> !TicksAt(line, i, n))
    decreases |line| - from
  {
    if from + n <= |line| && !TicksAt(line, from, n) && from < |line| {
      ContentEndFirst(line, from + 1, n);
    }
  }

  /** The longest run of opening back-ticks that is closed makes the span; without one there is none. */
  lemma {:induction false} LongestSpan(line: string, p: nat, n: nat)
    requires TicksAt(line, p, n)
    ensures SpanAt(line, p, n).None? ==> forall m: nat, e: nat :: 0 < m <= n ==> !Opens(line, p, m, e)
    ensures SpanAt(line, p, n).Some? ==>
              exists m: nat, e: nat :: 0 < m <= n && Opens(line, p, m, e) && p + SpanAt(line, p, n).value == e + m &&
                             forall k: nat, f: nat :: m < k <= n ==> !Opens(line, p, k, f)
    decreases n
  {
    hide TicksAt, ContentEnd;
    if n > 0 {
      FewerTicks(line, p, n);
      ContentEndFirst(line, p + n + 1, n);
      var end := ContentEnd(line, p + n + 1, n);
      if p + n < |line| && end.Some? {
        assert Opens(line, p, n, end.value);
      } else {
        forall e: nat ensures !Opens(line, p, n, e) {
          if p + n >= |line| {
            NoTicksBehind(line, e, n);
          }
        }
        LongestSpan(line, p, n - 1);
      }
    }
  }

  lemma NoTicksBehind(line: string, e: nat, n: nat)
    requires n > 0
    ensures e >= |line| ==> !TicksAt(line, e, n)
  {}

  /** Back-ticks, text without any, and as many back-ticks: the whole span is blanked, whatever follows. */
  lemma SpanBlanks(line: string, p: nat, n: nat, len: nat)
    requires n > 0 && len > 0 && p + n + len + n <= |line|
    requires TicksAt(line, p, n) && TicksAt(line, p + n + len, n)
    requires forall i :: p + n <= i < p + n + len ==> line[i] != '`'
    ensures BlankFrom(line, p) == Spaces(n + len + n) + BlankFrom(line, p + n + len + n)
  {
    hide BlankFrom;
    SpanHere(line, p, n, len);
    BlankStep(line, p);
  }

  lemma TicksHere(line: string, p: nat, n: nat)
    requires p + n < |line| && TicksAt(line, p, n) && line[p + n] != '`'
    ensures TickRun(line, p) == n
  {
    var rest := line[p..];
    assert rest == Repeat('`', n) + rest[n..];
    assert rest[n..][0] == line[p + n];
    RunIs('`', n, rest[n..]);
  }

  lemma SpanHere(line: string, p: nat, n: nat, len: nat)
    requires n > 0 && len > 0 && p + n + len + n <= |line|
    requires TicksAt(line, p, n) && TicksAt(line, p + n + len, n)
    requires forall i :: p + n <= i < p + n + len ==> line[i] != '`'
    ensures BlankedAt(line, p) == n + len + n
  {
    hide TickRun, ContentEnd;
    TicksHere(line, p, n);
    forall i | p + n + 1 <= i < p + n + len ensures !TicksAt(line, i, n) {
      assert line[i] != '`';
    }
    ContentEndIs(line, p + n + 1, n, p + n + len);
  }

  /** Where the parts of a line with a span are. */
  lemma SpanParts(before: string, n: nat, content: string, after: string)
    requires n > 0 && content != [] && '`' !in before && '`' !in content
    ensures var span := Repeat('`', n) + content + Repeat('`', n);
            var line, p, q := before + span + after, |before|, |before| + n + |content|;
            && line[..p] == before && (forall i :: 0 <= i < p ==> line[i] != '`')
            && TicksAt(line, p, n) && TicksAt(line, q, n) && (forall i :: p + n <= i < q ==> line[i] != '`')
            && q + n == |before + span| && line == (before + span) + after
  {
    var span := Repeat('`', n) + content + Repeat('`', n);
    var line, p := before + span + after, |before|;
    forall i | p <= i < p + |span| ensures line[i] == span[i - p] {}
    forall i | 0 <= i < p ensures line[i] == before[i] {}
    forall i | p + n <= i < p + n + |content| ensures line[i] != '`' {
      assert span[i - p] == content[i - p - n];
    }
  }

  /** Text without back-ticks stays; a span in it is blanked; what follows is treated the same way. */
  lemma SpanRead(before: string, n: nat, content: string, after: string)
    requires n > 0 && content != [] && '`' !in before && '`' !in content
    ensures BlankInlineCode(before + (Repeat('`', n) + content + Repeat('`', n)) + after) ==
            before + Spaces(n + |content| + n) + BlankInlineCode(after)
  {
    hide BlankFrom, TicksAt, Repeat;
    var front := before + (Repeat('`', n) + content + Repeat('`', n));
    var line, p := front + after, |before|;
    SpanParts(before, n, content, after);
    PlainBlanks(line, 0, p);
    SpanBlanks(line, p, n, |content|);
    BlankedBehind(front, after, 0);
    assert line[0..p] == line[..p];
    Regrouped(before, Spaces(n + |content| + n), BlankFrom(after, 0));
  }

  lemma Regrouped(a: string, b: string, c: string)
    ensures a + (b + c) == a + b + c
  {}

  lemma TicksBehind(lead: string, line: string, p: nat, n: nat)
    ensures TicksAt(lead + line, |lead| + p, n) == TicksAt(line, p, n)
  {
    var s := lead + line;
    assert forall i :: p <= i < |line| ==> s[|lead| + i] == line[i];
    if TicksAt(line, p, n) {
      forall i | |lead| + p <= i < |lead| + p + n ensures s[i] == '`' {
        assert s[i] == line[i - |lead|];
      }
    }
    if TicksAt(s, |lead| + p, n) {
      forall i | p <= i < p + n ensures line[i] == '`' {
        assert s[|lead| + i] == line[i];
      }
    }
  }

  lemma {:induction false} ContentBehind(lead: string, line: string, from: nat, n: nat)
    ensures ContentEnd(lead + line, |lead| + from, n) ==
            match ContentEnd(line, from, n) case None => None case Some(end) => Some(|lead| + end)
    decreases |line| - from
  {
    TicksBehind(lead, line, from, n);
    if from < |line| {
      ContentBehind(lead, line, from + 1, n);
    }
  }

  lemma FewerTicks(line: string, p: nat, n: nat)
    requires n > 0 && TicksAt(line, p, n)
    ensures TicksAt(line, p, n - 1)
  {}

  lemma {:induction false} SpanBehind(lead: string, line: string, p: nat, n: nat)
    requires TicksAt(line, p, n)
    ensures TicksAt(lead + line, |lead| + p, n) && SpanAt(lead + line, |lead| + p, n) == SpanAt(line, p, n)
    decreases n
  {
    hide TicksAt, ContentEnd;
    TicksBehind(lead, line, p, n);
    if n > 0 {
      FewerTicks(line, p, n);
      FewerTicks(lead + line, |lead| + p, n);
      ContentBehind(lead, line, p + n + 1, n);
      SpanBehind(lead, line, p, n - 1);
    }
  }

  /** What is blanked depends only on what follows. */
  lemma {:induction false} BlankedBehind(lead: string, line: string, p: nat)
    requires p <= |line|
    ensures BlankFrom(lead + line, |lead| + p) == BlankFrom(line, p)
    decreases |line| - p
  {
    hide BlankFrom, BlankedAt;
    if p < |line| {
      var len := BlankedAt(line, p);
      SameBlank(lead, line, p);
      BlankedBehind(lead, line, if len > 0 then p + len else p + 1);
      SameStep(lead + line, line, |lead|, p, len);
    } else {
      NothingToBlank(lead + line, |lead| + p);
      NothingToBlank(line, p);
    }
  }

  lemma NothingToBlank(line: string, p: nat)
    requires p == |line|
    ensures BlankFrom(line, p) == []
  {}

  lemma SameStep(s: string, line: string, k: nat, p: nat, len: nat)
    requires |s| == k + |line| && p < |line| && s[k + p] == line[p]
    requires BlankedAt(s, k + p) == BlankedAt(line, p) == len
    requires len > 0 ==> BlankFrom(s, k + (p + len)) == BlankFrom(line, p + len)
    requires len == 0 ==> BlankFrom(s, k + (p + 1)) == BlankFrom(line, p + 1)
    ensures BlankFrom(s, k + p) == BlankFrom(line, p)
  {
    hide BlankedAt;
  }

  lemma SameBlank(lead: string, line: string, p: nat)
    requires p < |line|
    ensures BlankedAt(lead + line, |lead| + p) == BlankedAt(line, p)
  {
    hide SpanAt;
    assert (lead + line)[|lead| + p..] == line[p..];
    TickRunTicks(line, p);
    SpanBehind(lead, line, p, TickRun(line, p));
  }
}
