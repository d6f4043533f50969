/**
 * What is written as a section marker is read as one, with its name and its end (scripts/docs/check.py
 * `BEGIN_RE`, `END_RE_TEMPLATE`).
 */
module MarkerLaws {
  import opened Wrappers
  import opened Text
  import opened Sections

  predicate IsName(name: string) {
    name != [] && forall i :: 0 <= i < |name| ==> IsNameChar(name[i])
  }

  lemma {:induction false} SkipTo(s: string, p: nat, q: nat)
    requires p <= q <= |s| && AllSpace(s[p..q]) && (q < |s| ==> !IsSpace(s[q]))
    ensures SkipSpace(s, p) == q
    decreases q - p
  {
    if p < q {
      assert s[p..q][0] == s[p];
      assert s[p + 1..q] == s[p..q][1..];
      SkipTo(s, p + 1, q);
    }
  }

  lemma {:induction false} NameTo(s: string, p: nat, q: nat)
    requires p <= q <= |s| && (forall i :: p <= i < q ==> IsNameChar(s[i])) && (q < |s| ==> !IsNameChar(s[q]))
    ensures NameEnd(s, p) == q
    decreases q - p
  {
    if p < q {
      NameTo(s, p + 1, q);
    }
  }

  /** White space, then what is no white space. */
  lemma SkipsSpaces(s: string, p: nat, spaces: string)
    requires AllSpace(spaces) && Lit(s, p, spaces) && p + |spaces| < |s| && !IsSpace(s[p + |spaces|])
    ensures SkipSpace(s, p) == p + |spaces|
  {
    SkipTo(s, p, p + |spaces|);
  }

  lemma FirstOf(s: string, p: nat, part: string, c: char)
    requires Lit(s, p, part) && part != [] && part[0] == c
    ensures p < |s| && s[p] == c
  {
    assert s[p..p + |part|][0] == s[p];
  }

  /** The parts of a marker from position `p` on. */
  predicate Written(s: string, p: nat, k: Kind, gap: string, space: string, name: string, last: string) {
    var a := p + 4 + |gap|;
    var b := a + |k.Keyword()| + |space|;
    && Lit(s, p, OPEN) && Lit(s, p + 4, gap) && Lit(s, a, k.Keyword()) && Lit(s, a + |k.Keyword()|, space)
    && Lit(s, b, name) && Lit(s, b + |name|, last) && Lit(s, b + |name| + |last|, CLOSE)
    && AllSpace(gap) && AllSpace(space) && AllSpace(last)
  }

  lemma NotSpaces()
    ensures !IsSpace('B') && !IsSpace('E') && !IsSpace('-') && !IsSpace('>')
  {}

  lemma KeywordIs(k: Kind)
    ensures |k.Keyword()| == (if k.Begin? then 16 else 14) && k.Keyword()[0] == (if k.Begin? then 'B' else 'E')
  {}

  lemma NameIsAt(s: string, p: nat, k: Kind, gap: string, space: string, name: string, last: string)
    requires Written(s, p, k, gap, space, name, last) && name != [] && !IsSpace(name[0])
    ensures NameStart(k, s, p) == Some(p + 4 + |gap| + |k.Keyword()| + |space|)
  {
    var a := p + 4 + |gap|;
    NotSpaces();
    KeywordIs(k);
    hide Lit, SkipSpace, AllSpace, IsSpace;
    FirstOf(s, a, k.Keyword(), if k.Begin? then 'B' else 'E');
    SkipsSpaces(s, p + 4, gap);
    FirstOf(s, a + |k.Keyword()| + |space|, name, name[0]);
    SkipsSpaces(s, a + |k.Keyword()|, space);
  }

  lemma CloseIsAt(s: string, p: nat, last: string)
    requires AllSpace(last) && Lit(s, p, last) && Lit(s, p + |last|, CLOSE)
    ensures p + |last| + 3 <= |s| && CloseAt(s, p) == Some(p + |last| + 3)
  {
    LitFits(s, p + |last|, CLOSE);
    NotSpaces();
    hide Lit, SkipSpace, AllSpace, IsSpace;
    FirstOf(s, p + |last|, CLOSE, '-');
    SkipsSpaces(s, p, last);
  }

  lemma LitFits(s: string, p: nat, part: string)
    requires Lit(s, p, part)
    ensures p + |part| <= |s| && s[p..p + |part|] == part
  {}

  /** White space behind the name, or the arrow whose dashes look like more of it: either way the name is found. */
  lemma NameRead(s: string, b: nat, name: string, last: string)
    requires IsName(name) && AllSpace(last)
    requires Lit(s, b, name) && Lit(s, b + |name|, last) && Lit(s, b + |name| + |last|, CLOSE)
    ensures b + |name| + |last| + 3 <= |s| && NameAt(Begin, s, b) == Some(Found(name, b + |name| + |last| + 3))
  {
    hide Lit, AllSpace, IsSpace, IsNameChar, CloseAt, NameEnd, IsName;
    var e := b + |name|;
    NamesChars(s, b, name);
    CloseIsAt(s, e, last);
    LitFits(s, b, name);
    NameIsNoSpace(name);
    if last != [] {
      SpaceEnds(s, e, last);
      NameTo(s, b, e);
    } else {
      ArrowBehind(s, e);
      DashIsName();
      NameTo(s, b, e + 2);
      NoCloseInside(s, e + 2);
    }
  }

  lemma NamesChars(s: string, b: nat, name: string)
    requires IsName(name) && Lit(s, b, name)
    ensures b + |name| <= |s| && forall i :: b <= i < b + |name| ==> IsNameChar(s[i])
  {
    forall i | b <= i < b + |name| ensures IsNameChar(s[i]) {
      assert s[b..b + |name|][i - b] == s[i];
    }
  }

  lemma SpaceEnds(s: string, e: nat, last: string)
    requires last != [] && AllSpace(last) && Lit(s, e, last)
    ensures e < |s| && !IsNameChar(s[e])
  {
    FirstOf(s, e, last, last[0]);
    assert IsSpace(last[0]);
  }

  lemma DashIsName()
    ensures IsNameChar('-') && !IsNameChar('>')
  {}

  /** Without white space the arrow's dashes look like more of the name. */
  lemma ArrowBehind(s: string, e: nat)
    requires Lit(s, e, CLOSE)
    ensures e + 3 <= |s| && s[e] == '-' && s[e + 1] == '-' && s[e + 2] == '>'
  {
    assert s[e..e + 3][0] == s[e] && s[e..e + 3][1] == s[e + 1] && s[e..e + 3][2] == s[e + 2];
  }

  lemma NoCloseInside(s: string, p: nat)
    requires p < |s| && s[p] == '>'
    ensures CloseAt(s, p).None?
  {
    NotSpaces();
    assert p + 3 <= |s| ==> s[p..p + 3][0] == '>';
  }

  lemma NameIsNoSpace(name: string)
    requires IsName(name)
    ensures name != [] && !IsSpace(name[0])
  {
    assert IsNameChar(name[0]);
  }

  /** A BEGIN marker is found with its name, white space or none around it, and ends behind its arrow. */
  lemma BeginRead(s: string, p: nat, gap: string, space: string, name: string, last: string)
    requires Written(s, p, Begin, gap, space, name, last) && IsName(name)
    ensures MarkerAt(Begin, s, p) == Some(Found(name, p + 4 + |gap| + 16 + |space| + |name| + |last| + 3))
  {
    hide Lit, AllSpace, IsSpace, NameAt, NameStart, IsName;
    KeywordIs(Begin);
    NameIsNoSpace(name);
    NameIsAt(s, p, Begin, gap, space, name, last);
    NameRead(s, p + 4 + |gap| + 16 + |space|, name, last);
  }

  /** An END marker is found by exactly its name. */
  lemma EndRead(s: string, p: nat, gap: string, space: string, name: string, last: string)
    requires Written(s, p, End(name), gap, space, name, last) && name != [] && !IsSpace(name[0])
    ensures MarkerAt(End(name), s, p) == Some(Found(name, p + 4 + |gap| + 14 + |space| + |name| + |last| + 3))
  {
    hide Lit, AllSpace, IsSpace, CloseAt, NameStart;
    KeywordIs(End(name));
    NameIsAt(s, p, End(name), gap, space, name, last);
    LitFits(s, p + 4 + |gap| + 14 + |space|, name);
    CloseIsAt(s, p + 4 + |gap| + 14 + |space| + |name|, last);
  }

  /** Newlines at the end of the content do not count; everything else does. */
  lemma {:induction false} ContentTrimmed(core: string, n: nat)
    requires core != [] ==> core[|core| - 1] != '\n'
    ensures Trimmed(core + Newlines(n)) == core
    decreases n
  {
    var content := core + Newlines(n);
    if n == 0 {
      assert content == core;
    } else {
      assert content[..|content| - 1] == core + Newlines(n - 1);
      ContentTrimmed(core, n - 1);
    }
  }

  function Newlines(n: nat): (r: string)
    ensures |r| == n && forall i :: 0 <= i < n ==> r[i] == '\n'
  {
    seq(n, _ => '\n')
  }
}
