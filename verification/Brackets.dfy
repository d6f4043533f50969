/** Bracket balance of Mermaid lines (scripts/docs/check.py `_bracket_problems`). */
module Brackets {
  import opened Wrappers

  predicate IsOpener(c: char) {
    c == '(' || c == '[' || c == '{'
  }

  predicate IsCloser(c: char) {
    c == ')' || c == ']' || c == '}'
  }

  function OpenerOf(c: char): char
    requires IsCloser(c)
  {
    if c == ')' then '(' else if c == ']' then '[' else '{'
  }

  /** Balanced text: other characters, and pairs of one kind around balanced text. */
  ghost predicate Balanced(s: string)
    decreases |s|
  {
    || s == []
    || (!IsOpener(s[0]) && !IsCloser(s[0]) && Balanced(s[1..]))
    || (IsOpener(s[0]) && exists i: nat :: Closed(s, i) && Balanced(s[1..i]) && Balanced(s[i + 1..]))
  }

  predicate Closed(s: string, i: nat) {
    0 < i < |s| && IsCloser(s[i]) && OpenerOf(s[i]) == s[0]
  }

  lemma {:induction false} BalancedConcat(a: string, b: string)
    requires Balanced(a) && Balanced(b)
    ensures Balanced(a + b)
    decreases |a|
  {
    if a == [] {
      assert a + b == b;
    } else if !IsOpener(a[0]) && !IsCloser(a[0]) {
      assert (a + b)[1..] == a[1..] + b;
      BalancedConcat(a[1..], b);
    } else {
      var i: nat :| Closed(a, i) && Balanced(a[1..i]) && Balanced(a[i + 1..]);
      hide Balanced;
      BalancedConcat(a[i + 1..], b);
      ConcatSlices(a, b, 1, i);
      ConcatSlices(a, b, i + 1, i + 1);
      PairIn(a + b, i);
    }
  }

  lemma ConcatSlices(a: string, b: string, i: nat, j: nat)
    requires i <= j <= |a|
    ensures (a + b)[i..j] == a[i..j] && (a + b)[j..] == a[j..] + b
  {
    var l, r := (a + b)[j..], a[j..] + b;
    forall k | 0 <= k < |r| ensures l[k] == r[k] {
      assert l[k] == (a + b)[j + k];
    }
  }

  lemma PairIn(s: string, i: nat)
    requires Closed(s, i) && IsOpener(s[0]) && Balanced(s[1..i]) && Balanced(s[i + 1..])
    ensures Balanced(s)
  {}

  lemma SubSlice(s: string, i: nat, j: nat, a: nat, b: nat)
    requires i + b <= j <= |s| && a <= b
    ensures s[i..j][a..b] == s[i + a..i + b] && (i + b == j ==> s[i..j][a..] == s[i + a..j])
  {
    forall k | 0 <= k < b - a ensures s[i..j][a..b][k] == s[i + a..i + b][k] {
      assert s[i..j][a + k] == s[i + a + k];
    }
  }

  lemma PairBalanced(open: char, inner: string, close: char)
    requires IsOpener(open) && IsCloser(close) && OpenerOf(close) == open && Balanced(inner)
    ensures Balanced([open] + inner + [close])
  {
    var s := [open] + inner + [close];
    var i := |inner| + 1;
    assert s[1..i] == inner && s[i + 1..] == [];
    assert Closed(s, i);
  }

  lemma OtherBalanced(c: char)
    requires !IsOpener(c) && !IsCloser(c)
    ensures Balanced([c])
  {
    assert [c][1..] == [];
  }

  // --- The scan ------------------------------------------------------------------------------------------

  /** The positions still open after the first `i` characters; `None` once a closer matched nothing. */
  function Scan(s: string, i: nat): (r: Option<seq<nat>>)
    requires i <= |s|
    ensures r.Some? ==> forall k :: 0 <= k < |r.value| ==> r.value[k] < i && IsOpener(s[r.value[k]])
  {
    if i == 0 then Some([])
    else
      match Scan(s, i - 1)
      case None => None
      case Some(ps) => ScanStep(s, ps, i - 1)
  }

  function ScanStep(s: string, ps: seq<nat>, k: nat): Option<seq<nat>>
    requires k < |s| && forall i :: 0 <= i < |ps| ==> ps[i] < |s|
  {
    if IsOpener(s[k]) then Some(ps + [k])
    else if !IsCloser(s[k]) then Some(ps)
    else if ps != [] && s[ps[|ps| - 1]] == OpenerOf(s[k]) then Some(ps[..|ps| - 1])
    else None
  }

  /** `s[..i]` is balanced pieces with exactly the openers at `ps` between them. */
  ghost predicate Leaves(s: string, i: nat, ps: seq<nat>)
    requires i <= |s|
    decreases |ps|
  {
    if ps == [] then Balanced(s[..i])
    else
      var last := ps[|ps| - 1];
      last < i && IsOpener(s[last]) && Balanced(s[last + 1..i]) && Leaves(s, last, ps[..|ps| - 1])
  }

  /** The last piece may grow by balanced text. */
  lemma LeavesGrow(s: string, i: nat, j: nat, ps: seq<nat>)
    requires i <= j <= |s| && Leaves(s, i, ps) && Balanced(s[i..j])
    ensures Leaves(s, j, ps)
  {
    var from := if ps == [] then 0 else ps[|ps| - 1] + 1;
    BalancedConcat(s[from..i], s[i..j]);
    assert s[from..j] == s[from..i] + s[i..j];
    assert ps == [] ==> s[..i] == s[0..i] && s[..j] == s[0..j];
  }

  /** An opener starts a new, empty piece. */
  lemma LeavesOpen(s: string, k: nat, ps: seq<nat>)
    requires k < |s| && Leaves(s, k, ps) && IsOpener(s[k])
    ensures Leaves(s, k + 1, ps + [k])
  {
    assert (ps + [k])[..|ps|] == ps && s[k + 1..k + 1] == [];
  }

  /** A matching closer ends the last piece and makes it part of the one before. */
  lemma LeavesClose(s: string, k: nat, ps: seq<nat>)
    requires k < |s| && Leaves(s, k, ps) && ps != [] && ps[|ps| - 1] < |s|
    requires IsCloser(s[k]) && s[ps[|ps| - 1]] == OpenerOf(s[k])
    ensures Leaves(s, k + 1, ps[..|ps| - 1])
  {
    var last := ps[|ps| - 1];
    hide Balanced;
    PairBalanced(s[last], s[last + 1..k], s[k]);
    assert s[last..k + 1] == [s[last]] + s[last + 1..k] + [s[k]];
    LeavesGrow(s, last, k + 1, ps[..|ps| - 1]);
  }

  lemma ScanUnfolds(s: string, i: nat)
    requires 0 < i <= |s| && Scan(s, i).Some?
    ensures Scan(s, i - 1).Some? && Scan(s, i) == ScanStep(s, Scan(s, i - 1).value, i - 1)
  {}

  /** What the scan has open is exactly what is unmatched. */
  lemma {:induction false} ScanLeaves(s: string, i: nat)
    requires i <= |s| && Scan(s, i).Some?
    ensures Leaves(s, i, Scan(s, i).value)
    decreases i
  {
    if i == 0 {
      assert s[..0] == [];
    } else {
      hide Balanced, Leaves, Scan;
      assert Scan(s, i - 1).Some? && Scan(s, i) == ScanStep(s, Scan(s, i - 1).value, i - 1) by {
        ScanUnfolds(s, i);
      }
      ScanLeaves(s, i - 1);
      var ps, c := Scan(s, i - 1).value, s[i - 1];
      if IsOpener(c) {
        LeavesOpen(s, i - 1, ps);
      } else if !IsCloser(c) {
        OtherBalanced(c);
        assert s[i - 1..i] == [c];
        LeavesGrow(s, i - 1, i, ps);
      } else {
        LeavesClose(s, i - 1, ps);
      }
    }
  }

  /** The parts of a balanced stretch that begins with an opener. */
  lemma BalancedParts(s: string, i: nat, j: nat) returns (m: nat)
    requires i < j <= |s| && Balanced(s[i..j]) && (IsOpener(s[i]) || IsCloser(s[i]))
    ensures IsOpener(s[i]) && i < m < j && IsCloser(s[m]) && OpenerOf(s[m]) == s[i]
    ensures Balanced(s[i + 1..m]) && Balanced(s[m + 1..j])
  {
    var part := s[i..j];
    var n: nat :| Closed(part, n) && Balanced(part[1..n]) && Balanced(part[n + 1..]);
    m := i + n;
    SubSlice(s, i, j, 1, n);
    SubSlice(s, i, j, n + 1, j - i);
  }

  lemma BalancedRest(s: string, i: nat, j: nat)
    requires i < j <= |s| && Balanced(s[i..j]) && !IsOpener(s[i]) && !IsCloser(s[i])
    ensures Balanced(s[i + 1..j])
  {
    assert s[i..j][1..] == s[i + 1..j];
  }

  /** Balanced text leaves the scan where it was. */
  lemma {:induction false} BalancedScans(s: string, i: nat, j: nat)
    requires i <= j <= |s| && Scan(s, i).Some? && Balanced(s[i..j])
    ensures Scan(s, j) == Scan(s, i)
    decreases j - i
  {
    hide Balanced;
    if i < j {
      if !IsOpener(s[i]) && !IsCloser(s[i]) {
        BalancedRest(s, i, j);
        BalancedScans(s, i + 1, j);
      } else {
        var m := BalancedParts(s, i, j);
        BalancedScans(s, i + 1, m);
        var ps := Scan(s, i).value;
        assert (ps + [i])[..|ps|] == ps;
        BalancedScans(s, m + 1, j);
      }
    }
  }

  /** So there is only one way to cut the text into balanced pieces and openers: the scan's. */
  lemma {:induction false} LeavesIsScan(s: string, i: nat, ps: seq<nat>)
    requires i <= |s| && Leaves(s, i, ps)
    ensures Scan(s, i) == Some(ps)
    decreases |ps|
  {
    if ps == [] {
      assert s[0..i] == s[..i];
      BalancedScans(s, 0, i);
    } else {
      var last := ps[|ps| - 1];
      LeavesIsScan(s, last, ps[..|ps| - 1]);
      assert ps == ps[..|ps| - 1] + [last];
      assert Scan(s, last + 1) == Some(ps);
      BalancedScans(s, last + 1, i);
    }
  }

  lemma BalancedIffNothingOpen(s: string)
    ensures Balanced(s) <==> Scan(s, |s|) == Some([])
  {
    assert s[..|s|] == s;
    if Balanced(s) {
      LeavesIsScan(s, |s|, []);
    }
    if Scan(s, |s|) == Some([]) {
      ScanLeaves(s, |s|);
    }
  }

  /** Which characters are brackets, and which of them pair. */
  lemma BracketsPair(a: char, b: char)
    ensures Balanced([a]) <==> a !in "()[]{}"
    ensures Balanced([a, b]) <==> [a, b] in {"()", "[]", "{}"} || (a !in "()[]{}" && b !in "()[]{}")
  {
    BalancedIffNothingOpen([a]);
    assert Scan([a], 1) == ScanStep([a], [], 0);
    var s := [a, b];
    BalancedIffNothingOpen(s);
    assert Scan(s, 1) == ScanStep(s, [], 0);
    if IsOpener(a) {
      assert [] + [0 as nat] == [0];
      assert Scan(s, 1) == Some([0]);
      assert Scan(s, 2) == ScanStep(s, [0], 1);
    } else if !IsCloser(a) {
      assert Scan(s, 2) == ScanStep(s, [], 1);
    }
  }

  lemma {:induction false} ScanOfPrefix(s: string, t: string, i: nat)
    requires i <= |s|
    ensures Scan(s + t, i) == Scan(s, i)
    decreases i
  {
    if i > 0 {
      ScanOfPrefix(s, t, i - 1);
      var r := Scan(s, i - 1);
      if r.Some? {
        assert forall k :: 0 <= k < |r.value| ==> (s + t)[r.value[k]] == s[r.value[k]];
      }
    }
  }

  lemma {:induction false} OnceBadAlwaysBad(s: string, i: nat, j: nat)
    requires i <= j <= |s| && Scan(s, i).None?
    ensures Scan(s, j).None?
    decreases j
  {
    if i < j {
      OnceBadAlwaysBad(s, i, j - 1);
    }
  }

  /** After a bad closer nothing that follows can make the text balanced. */
  lemma BadCloserIsFinal(s: string, i: nat, t: string)
    requires i <= |s| && Scan(s, i).None?
    ensures !Balanced(s[..i] + t)
  {
    assert s == s[..i] + s[i..];
    ScanOfPrefix(s[..i], s[i..], i);
    ScanOfPrefix(s[..i], t, i);
    OnceBadAlwaysBad(s[..i] + t, i, |s[..i] + t|);
    BalancedIffNothingOpen(s[..i] + t);
  }

  function CloserOf(c: char): char
    requires IsOpener(c)
  {
    if c == '(' then ')' else if c == '[' then ']' else '}'
  }

  /** Closing the innermost opener. */
  lemma CloseInnermost(s: string, ps: seq<nat>)
    requires ps != [] && Leaves(s, |s|, ps)
    ensures ps[|ps| - 1] < |s| && IsOpener(s[ps[|ps| - 1]])
    ensures var more := s + [CloserOf(s[ps[|ps| - 1]])]; Leaves(more, |more|, ps[..|ps| - 1])
  {
    var last := ps[|ps| - 1];
    var inner, more := s[last + 1..|s|], s + [CloserOf(s[last])];
    PairBalanced(s[last], inner, CloserOf(s[last]));
    assert more[last..|more|] == [s[last]] + inner + [CloserOf(s[last])];
    LeavesOfPrefix(s, more, last, ps[..|ps| - 1]);
    LeavesGrow(more, last, |more|, ps[..|ps| - 1]);
  }

  /** Until then something can: closing what is open, innermost first. */
  lemma {:induction false} OpenCanBeClosed(s: string, ps: seq<nat>) returns (t: string)
    requires Leaves(s, |s|, ps)
    ensures Balanced(s + t)
    decreases |ps|
  {
    if ps == [] {
      t := [];
      assert s + t == s[..|s|];
    } else {
      hide Leaves, Balanced;
      CloseInnermost(s, ps);
      var c := CloserOf(s[ps[|ps| - 1]]);
      var rest := OpenCanBeClosed(s + [c], ps[..|ps| - 1]);
      t := [c] + rest;
      assert s + t == s + [c] + rest;
    }
  }

  lemma {:induction false} LeavesOfPrefix(s: string, t: string, i: nat, ps: seq<nat>)
    requires i <= |s| <= |t| && s == t[..|s|] && Leaves(s, i, ps)
    ensures Leaves(t, i, ps)
    decreases |ps|
  {
    if ps == [] {
      assert s[..i] == t[..i];
    } else {
      var last := ps[|ps| - 1];
      assert s[last + 1..i] == t[last + 1..i];
      LeavesOfPrefix(s, t, last, ps[..|ps| - 1]);
    }
  }

  // --- Lines of a diagram ----------------------------------------------------------------------------------

  /** The next quote from `i` on. */
  function NextQuote(s: string, i: nat): (r: Option<nat>)
    requires i <= |s|
    ensures r.Some? ==> i <= r.value < |s| && s[r.value] == '"' && '"' !in s[i..r.value]
    ensures r.None? ==> '"' !in s[i..]
    decreases |s| - i
  {
    if i == |s| then None else if s[i] == '"' then Some(i) else NextQuote(s, i + 1)
  }

  /** Every quoted stretch is emptied; a lone quote stays. */
  function StripQuoted(s: string): string
    decreases |s|
  {
    if s == [] then []
    else if s[0] != '"' then [s[0]] + StripQuoted(s[1..])
    else
      match NextQuote(s, 1)
      case Some(end) => "\"\"" + StripQuoted(s[end + 1..])
      case None => s
  }

  /** Stretches between quotes. */
  function Quoted(parts: seq<string>): string
    decreases |parts|
  {
    if parts == [] then [] else if |parts| == 1 then parts[0] else parts[0] + "\"" + Quoted(parts[1..])
  }

  /** Every other stretch emptied, as long as a quote closes it. */
  function Emptied(parts: seq<string>): (r: seq<string>)
    ensures |r| == |parts|
  {
    seq(|parts|, i requires 0 <= i < |parts| => if i % 2 == 1 && i < |parts| - 1 then [] else parts[i])
  }

  lemma {:induction false} NextQuoteIs(part: string, rest: string, lead: string)
    requires '"' !in part
    ensures NextQuote(lead + part + "\"" + rest, |lead|) == Some(|lead| + |part|)
    decreases |part|
  {
    var s := lead + part + "\"" + rest;
    if part != [] {
      assert s == (lead + [part[0]]) + part[1..] + "\"" + rest;
      NextQuoteIs(part[1..], rest, lead + [part[0]]);
    }
  }

  lemma {:induction false} NoNextQuote(part: string, lead: string)
    requires '"' !in part
    ensures NextQuote(lead + part, |lead|) == None
    decreases |part|
  {
    if part != [] {
      assert lead + part == (lead + [part[0]]) + part[1..];
      NoNextQuote(part[1..], lead + [part[0]]);
    }
  }

  lemma {:induction false} StripsToQuote(part: string, rest: string)
    requires '"' !in part
    ensures StripQuoted(part + rest) == part + StripQuoted(rest)
    decreases |part|
  {
    if part == [] {
      assert part + rest == rest;
    } else {
      assert (part + rest)[1..] == part[1..] + rest;
      StripsToQuote(part[1..], rest);
    }
  }

  lemma LoneQuote(a: string, b: string)
    requires '"' !in a && '"' !in b
    ensures StripQuoted(a + ("\"" + b)) == a + ("\"" + b)
  {
    StripsToQuote(a, "\"" + b);
    NoNextQuote(b, "\"");
  }

  lemma QuotePair(a: string, b: string, rest: string)
    requires '"' !in a && '"' !in b
    ensures StripQuoted(a + ("\"" + b + "\"" + rest)) == a + ("\"\"" + StripQuoted(rest))
  {
    var s := "\"" + b + "\"" + rest;
    StripsToQuote(a, s);
    NextQuoteIs(b, rest, "\"");
    assert s[1 + |b| + 1..] == rest;
  }

  lemma QuotedPair(parts: seq<string>)
    requires |parts| > 2
    ensures Quoted(parts) == parts[0] + ("\"" + parts[1] + "\"" + Quoted(parts[2..]))
  {
    assert parts[1..][1..] == parts[2..];
  }

  lemma QuotedTwo(parts: seq<string>)
    requires |parts| == 2
    ensures Quoted(parts) == parts[0] + ("\"" + parts[1])
  {
    assert parts[1..] == [parts[1]];
  }

  /** Quoted stretches are emptied and nothing else changes: text outside quotes, and behind a lone quote, stays. */
  lemma {:induction false} StripQuotedDoes(parts: seq<string>)
    requires parts != [] && forall p :: p in parts ==> '"' !in p
    ensures StripQuoted(Quoted(parts)) == Quoted(Emptied(parts))
    decreases |parts|
  {
    hide StripQuoted;
    var e := Emptied(parts);
    if |parts| == 1 {
      hide Quoted;
      assert e == parts;
      OnePart(parts);
    } else if |parts| == 2 {
      hide Quoted;
      assert e == parts;
      QuotedTwo(parts);
      LoneQuote(parts[0], parts[1]);
    } else {
      hide Quoted;
      assert e[2..] == Emptied(parts[2..]) && e[0] == parts[0] && e[1] == [];
      StripQuotedDoes(parts[2..]);
      QuotedPair(parts);
      QuotedPair(e);
      QuotePair(parts[0], parts[1], Quoted(parts[2..]));
      assert "\"" + [] + "\"" + Quoted(e[2..]) == "\"\"" + Quoted(e[2..]);
    }
  }

  lemma OnePart(parts: seq<string>)
    requires |parts| == 1 && '"' !in parts[0]
    ensures StripQuoted(Quoted(parts)) == Quoted(parts)
  {
    StripsToQuote(parts[0], []);
    assert parts[0] + [] == parts[0];
  }

  /** A numbered line. */
  datatype Line = Line(number: nat, text: string)

  /** A character and the line it is on. */
  datatype Token = Token(ch: char, number: nat)

  function TokensOf(line: Line): (r: seq<Token>)
    ensures |r| == |StripQuoted(line.text)|
  {
    var s := StripQuoted(line.text);
    seq(|s|, i requires 0 <= i < |s| => Token(s[i], line.number))
  }

  function Tokens(lines: seq<Line>): seq<Token>
    decreases |lines|
  {
    if lines == [] then [] else Tokens(lines[..|lines| - 1]) + TokensOf(lines[|lines| - 1])
  }

  function Chars(tokens: seq<Token>): (r: string)
    ensures |r| == |tokens|
  {
    seq(|tokens|, i requires 0 <= i < |tokens| => tokens[i].ch)
  }

  datatype Problem = Unbalanced(at: Token) | Unclosed(at: Token)

  /** The tokens at some positions. */
  function At(tokens: seq<Token>, ps: seq<nat>): seq<Token>
    requires forall k :: 0 <= k < |ps| ==> ps[k] < |tokens|
  {
    seq(|ps|, k requires 0 <= k < |ps| => tokens[ps[k]])
  }

  function AllUnclosed(stack: seq<Token>): seq<Problem> {
    seq(|stack|, k requires 0 <= k < |stack| => Unclosed(stack[k]))
  }

  /** What the check has to say about a text: the first closer that matches nothing, or what stays open. */
  ghost predicate Reports(tokens: seq<Token>, out: seq<Problem>) {
    var s := Chars(tokens);
    || (exists k :: 0 <= k < |tokens| && FirstBad(s, k) && out == [Unbalanced(tokens[k])])
    || (exists ps: seq<nat> :: Leaves(s, |s|, ps) && (forall k :: 0 <= k < |ps| ==> ps[k] < |tokens|) &&
          out == AllUnclosed(At(tokens, ps)))
  }

  /** Position `k` is the first that no continuation can repair. */
  ghost predicate FirstBad(s: string, k: nat) {
    && k < |s|
    && Scan(s, k).Some?
    && Scan(s, k + 1).None?
  }

  lemma TokensGrow(lines: seq<Line>, i: nat)
    requires i < |lines|
    ensures Tokens(lines[..i + 1]) == Tokens(lines[..i]) + TokensOf(lines[i])
  {
    assert lines[..i + 1][..i] == lines[..i];
  }

  lemma {:induction false} TokensPrefix(lines: seq<Line>, i: nat)
    requires i <= |lines|
    ensures Tokens(lines[..i]) <= Tokens(lines)
    decreases |lines| - i
  {
    if i == |lines| {
      assert lines[..i] == lines;
    } else {
      TokensGrow(lines, i);
      TokensPrefix(lines, i + 1);
    }
  }

  /** One character of the scan, on the stack of tokens the program keeps. */
  lemma StackStep(tokens: seq<Token>, k: nat)
    requires k < |tokens| && Scan(Chars(tokens), k).Some?
    ensures var s := Chars(tokens);
            var stack, c := At(tokens, Scan(s, k).value), tokens[k].ch;
            && Scan(s, k + 1) == ScanStep(s, Scan(s, k).value, k)
            && (IsOpener(c) ==> Scan(s, k + 1).Some? && At(tokens, Scan(s, k + 1).value) == stack + [tokens[k]])
            && (!IsOpener(c) && !IsCloser(c) ==> Scan(s, k + 1).Some? && At(tokens, Scan(s, k + 1).value) == stack)
            && (IsCloser(c) && (stack == [] || stack[|stack| - 1].ch != OpenerOf(c)) ==> Scan(s, k + 1).None?)
            && (IsCloser(c) && stack != [] && stack[|stack| - 1].ch == OpenerOf(c) ==>
                  Scan(s, k + 1).Some? && At(tokens, Scan(s, k + 1).value) == stack[..|stack| - 1])
  {}

  method BracketProblems(lines: seq<Line>) returns (out: seq<Problem>)
    ensures Reports(Tokens(lines), out)
    ensures out == [] <==> Balanced(Chars(Tokens(lines)))
  {
    hide Scan, Balanced, Leaves, StripQuoted, Tokens, Reports;
    ghost var tokens := Tokens(lines);
    ghost var s := Chars(tokens);
    var stack: seq<Token> := [];
    StartsEmpty(tokens, lines);
    for i := 0 to |lines|
      invariant Tokens(lines[..i]) <= tokens
      invariant Scan(s, |Tokens(lines[..i])|).Some?
      invariant stack == At(tokens, Scan(s, |Tokens(lines[..i])|).value)
    {
      TokensGrow(lines, i);
      TokensPrefix(lines, i + 1);
      ghost var base := |Tokens(lines[..i])|;
      var line := StripQuoted(lines[i].text);
      for j := 0 to |line|
        invariant base + |line| <= |tokens|
        invariant Scan(s, base + j).Some? && stack == At(tokens, Scan(s, base + j).value)
      {
        assert tokens[base + j] == TokensOf(lines[i])[j];
        StackStep(tokens, base + j);
        var ch := line[j];
        if IsOpener(ch) {
          stack := stack + [Token(ch, lines[i].number)];
        } else if IsCloser(ch) {
          if stack == [] || stack[|stack| - 1].ch != OpenerOf(ch) {
            out := [Unbalanced(Token(ch, lines[i].number))];
            ReportsBad(tokens, base + j);
            return;
          }
          stack := stack[..|stack| - 1];
        }
      }
    }
    assert lines[..|lines|] == lines;
    ReportsOpen(tokens);
    out := AllUnclosed(stack);
  }

  lemma StartsEmpty(tokens: seq<Token>, lines: seq<Line>)
    ensures Scan(Chars(tokens), 0) == Some([]) && Tokens(lines[..0]) == []
  {}

  lemma ReportsBad(tokens: seq<Token>, k: nat)
    requires k < |tokens| && Scan(Chars(tokens), k).Some? && Scan(Chars(tokens), k + 1).None?
    ensures Reports(tokens, [Unbalanced(tokens[k])]) && !Balanced(Chars(tokens))
  {
    var s := Chars(tokens);
    assert FirstBad(s, k);
    OnceBadAlwaysBad(s, k + 1, |s|);
    BalancedIffNothingOpen(s);
  }

  lemma ReportsOpen(tokens: seq<Token>)
    requires Scan(Chars(tokens), |tokens|).Some?
    ensures var ps := Scan(Chars(tokens), |tokens|).value;
            && Reports(tokens, AllUnclosed(At(tokens, ps)))
            && (AllUnclosed(At(tokens, ps)) == [] <==> Balanced(Chars(tokens)))
  {
    hide Balanced, Scan, Leaves, Reports;
    var s := Chars(tokens);
    ScanLeaves(s, |s|);
    BalancedIffNothingOpen(s);
    OpenIsReported(tokens, Scan(s, |s|).value);
  }

  lemma OpenIsReported(tokens: seq<Token>, ps: seq<nat>)
    requires Leaves(Chars(tokens), |tokens|, ps) && forall k :: 0 <= k < |ps| ==> ps[k] < |tokens|
    ensures Reports(tokens, AllUnclosed(At(tokens, ps)))
    ensures AllUnclosed(At(tokens, ps)) == [] <==> ps == []
  {
    hide Leaves, Scan;
    assert |AllUnclosed(At(tokens, ps))| == |ps|;
  }

  /** Some continuation makes the text balanced. */
  ghost predicate Completable(s: string) {
    exists t :: Balanced(s + t)
  }

  /** The reported closer, in terms of balance alone: up to it the text could be completed, with it not. */
  lemma FirstBadMeans(s: string, k: nat)
    ensures FirstBad(s, k) <==> k < |s| && Completable(s[..k]) && !Completable(s[..k + 1])
  {
    hide Balanced, Scan, Completable;
    if k < |s| {
      assert s == s[..k] + s[k..] && s == s[..k + 1] + s[k + 1..];
      ScanOfPrefix(s[..k], s[k..], k);
      ScanOfPrefix(s[..k + 1], s[k + 1..], k + 1);
      CompletableIffScans(s[..k]);
      CompletableIffScans(s[..k + 1]);
    }
  }

  lemma CompletableIffScans(s: string)
    ensures Completable(s) <==> Scan(s, |s|).Some?
  {
    hide Balanced, Scan;
    if Scan(s, |s|).Some? {
      ScanLeaves(s, |s|);
      var t := OpenCanBeClosed(s, Scan(s, |s|).value);
    } else {
      forall t ensures !Balanced(s + t) {
        assert s[..|s|] == s;
        BadCloserIsFinal(s, |s|, t);
      }
    }
  }
}
