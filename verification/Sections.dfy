/**
 * Generated sections of a document (scripts/docs/check.py `find_sections`, `replace_section`): the
 * stretch between a BEGIN and an END marker, looked for in the text with its code masked.
 */
module Sections {
  import opened Wrappers
  import opened Text
  import opened Fences
  import opened Masking

  // --- Markers -------------------------------------------------------------------------------------------

  /** What `\w` matches among ASCII characters. */
  predicate IsWord(c: char) {
    'a' <= c <= 'z' || 'A' <= c <= 'Z' || '0' <= c <= '9' || c == '_'
  }

  predicate IsNameChar(c: char) {
    IsWord(c) || c == '-'
  }

  predicate Lit(s: string, p: nat, lit: string) {
    p + |lit| <= |s| && s[p..p + |lit|] == lit
  }

  function SkipSpace(s: string, p: nat): (r: nat)
    requires p <= |s|
    ensures p <= r <= |s| && (forall i :: p <= i < r ==> IsSpace(s[i])) && (r < |s| ==> !IsSpace(s[r]))
    decreases |s| - p
  {
    if p < |s| && IsSpace(s[p]) then SkipSpace(s, p + 1) else p
  }

  function NameEnd(s: string, p: nat): (r: nat)
    requires p <= |s|
    ensures p <= r <= |s| && (forall i :: p <= i < r ==> IsNameChar(s[i])) && (r < |s| ==> !IsNameChar(s[r]))
    decreases |s| - p
  {
    if p < |s| && IsNameChar(s[p]) then NameEnd(s, p + 1) else p
  }

  /** A marker that begins some section, or one that ends the section of a name. */
  datatype Kind = Begin | End(name: string) {
    function Keyword(): string {
      if Begin? then "BEGIN GENERATED:" else "END GENERATED:"
    }

    predicate Plain() {
      End? ==> '<' !in name
    }
  }

  /** A marker that was found: the name in it, and where it stops. */
  datatype Found = Found(name: string, end: nat)

  const OPEN := "<!--"
  const CLOSE := "-->"

  function CloseAt(s: string, p: nat): (r: Option<nat>)
    requires p <= |s|
    ensures r.Some? ==> p + 3 <= r.value <= |s|
  {
    var c := SkipSpace(s, p);
    if Lit(s, c, CLOSE) then Some(c + 3) else None
  }

  /**
   * The rest of a marker from its name on. The greedy name of a BEGIN marker takes dashes along and
   * gives back the two that belong to the closing arrow.
   */
  function NameAt(k: Kind, s: string, b: nat): (r: Option<Found>)
    requires b <= |s|
    ensures r.Some? ==> b < r.value.end <= |s|
  {
    match k
    case Begin =>
      var e := NameEnd(s, b);
      if e == b then None
      else if CloseAt(s, e).Some? then Some(Found(s[b..e], CloseAt(s, e).value))
      else if b + 3 <= e && Lit(s, e - 2, CLOSE) then Some(Found(s[b..e - 2], e + 1))
      else None
    case End(name) =>
      if Lit(s, b, name) && CloseAt(s, b + |name|).Some? then Some(Found(name, CloseAt(s, b + |name|).value)) else None
  }

  /** Behind the opening, the keyword and the spaces around it: where the name of a marker at `p` is. */
  function NameStart(k: Kind, s: string, p: nat): (r: Option<nat>)
    ensures r.Some? ==> p + 4 < r.value <= |s|
  {
    if !Lit(s, p, OPEN) then None
    else
      var a := SkipSpace(s, p + 4);
      if !Lit(s, a, k.Keyword()) then None else Some(SkipSpace(s, a + |k.Keyword()|))
  }

  /** The marker that starts at `p`. */
  function MarkerAt(k: Kind, s: string, p: nat): (r: Option<Found>)
    ensures r.Some? ==> p < r.value.end <= |s|
  {
    match NameStart(k, s, p)
    case None => None
    case Some(b) => NameAt(k, s, b)
  }

  function NextMarker(k: Kind, s: string, from: nat): (r: Option<nat>)
    ensures r.Some? ==> from <= r.value < |s| && MarkerAt(k, s, r.value).Some?
    ensures forall p :: from <= p < (if r.Some? then r.value else |s|) ==> MarkerAt(k, s, p).None?
    decreases |s| - from
  {
    if from >= |s| then None
    else if MarkerAt(k, s, from).Some? then Some(from)
    else NextMarker(k, s, from + 1)
  }

  // --- Sections ------------------------------------------------------------------------------------------

  datatype Section = Section(name: string, start: nat, end: nat)

  datatype SectionError = NoEnd(name: string) | NoSection(name: string)

  /** Every BEGIN marker from `from` on with the next END marker of its name. */
  function SectionsFrom(s: string, from: nat): Result<seq<Section>, SectionError>
    decreases |s| - from
  {
    match NextMarker(Begin, s, from)
    case None => Ok([])
    case Some(p) =>
      var m := MarkerAt(Begin, s, p).value;
      match NextMarker(End(m.name), s, m.end)
      case None => Err(NoEnd(m.name))
      case Some(e) =>
        match SectionsFrom(s, m.end)
        case Err(err) => Err(err)
        case Ok(rest) => Ok([Section(m.name, m.end, e)] + rest)
  }

  ghost predicate Fit(sections: seq<Section>, n: nat) {
    forall sec :: sec in sections ==> 0 < sec.start <= sec.end < n
  }

  lemma {:induction false} SectionsFit(s: string, from: nat)
    ensures SectionsFrom(s, from).Ok? ==> Fit(SectionsFrom(s, from).value, |s|)
    decreases |s| - from
  {
    hide MarkerAt, NextMarker, SectionsFrom;
    SectionsStep(s, from);
    var next := NextMarker(Begin, s, from);
    if next.Some? {
      SectionsFit(s, MarkerAt(Begin, s, next.value).value.end);
    }
  }

  function FindNamed(sections: seq<Section>, name: string): (r: Option<Section>)
    ensures r.Some? ==> r.value in sections && r.value.name == name
    decreases |sections|
  {
    if sections == [] then None
    else if sections[0].name == name then Some(sections[0])
    else FindNamed(sections[1..], name)
  }

  function Trimmed(content: string): string
    decreases |content|
  {
    if content != [] && content[|content| - 1] == '\n' then Trimmed(content[..|content| - 1]) else content
  }

  function Spliced(text: string, start: nat, end: nat, middle: string): string
    requires start <= end <= |text|
  {
    text[..start] + "\n" + middle + "\n" + text[end..]
  }

  /** The text with the first section of that name holding `content`. */
  function Replaced(text: string, name: string, content: string): Result<string, SectionError> {
    MaskLength(text);
    SectionsFit(MaskOf(text), 0);
    match SectionsFrom(MaskOf(text), 0)
    case Err(e) => Err(e)
    case Ok(sections) =>
      match FindNamed(sections, name)
      case None => Err(NoSection(name))
      case Some(sec) => Ok(Spliced(text, sec.start, sec.end, Trimmed(content)))
  }

  function Prepend(out: seq<Section>, more: Result<seq<Section>, SectionError>): Result<seq<Section>, SectionError> {
    match more
    case Err(e) => Err(e)
    case Ok(rest) => Ok(out + rest)
  }

  lemma PrependLaws(out: seq<Section>, sec: Section, more: Result<seq<Section>, SectionError>)
    ensures Prepend([], more) == more && Prepend(out, Ok([])) == Ok(out)
    ensures Prepend(out, Prepend([sec], more)) == Prepend(out + [sec], more)
  {
    if more.Ok? {
      assert out + ([sec] + more.value) == (out + [sec]) + more.value && [] + more.value == more.value;
    }
    assert out + [] == out;
  }

  method FindSections(text: string) returns (r: Result<seq<Section>, SectionError>)
    ensures r == SectionsFrom(MaskOf(text), 0)
  {
    hide MarkerAt, SectionsFrom, MaskOf, Prepend;
    var masked := MaskCode(text);
    var out: seq<Section> := [];
    var from := 0;
    var next := NextMarker(Begin, masked, 0);
    PrependLaws([], Section("", 0, 0), SectionsFrom(masked, 0));
    while next.Some?
      invariant next == NextMarker(Begin, masked, from)
      invariant SectionsFrom(masked, 0) == Prepend(out, SectionsFrom(masked, from))
      decreases |masked| - from
    {
      var m := MarkerAt(Begin, masked, next.value).value;
      var end := NextMarker(End(m.name), masked, m.end);
      SectionsStep(masked, from);
      if end.None? {
        PrependErr(out, NoEnd(m.name));
        return Err(NoEnd(m.name));
      }
      PrependLaws(out, Section(m.name, m.end, end.value), SectionsFrom(masked, m.end));
      out := out + [Section(m.name, m.end, end.value)];
      from := m.end;
      next := NextMarker(Begin, masked, from);
    }
    SectionsStep(masked, from);
    PrependLaws(out, Section("", 0, 0), Ok([]));
    return Ok(out);
  }

  lemma PrependErr(out: seq<Section>, e: SectionError)
    ensures Prepend(out, Err(e)) == Err(e)
  {}

  lemma SectionsStep(s: string, from: nat)
    ensures SectionsFrom(s, from) ==
            match NextMarker(Begin, s, from)
            case None => Ok([])
            case Some(p) =>
              var m := MarkerAt(Begin, s, p).value;
              match NextMarker(End(m.name), s, m.end)
              case None => Err(NoEnd(m.name))
              case Some(e) => Prepend([Section(m.name, m.end, e)], SectionsFrom(s, m.end))
  {
    hide MarkerAt, NextMarker;
  }

  method ReplaceSection(text: string, name: string, content: string) returns (r: Result<string, SectionError>)
    ensures r == Replaced(text, name, content)
  {
    hide SectionsFrom, MaskOf;
    MaskLength(text);
    SectionsFit(MaskOf(text), 0);
    var found := FindSections(text);
    if found.Err? {
      return Err(found.error);
    }
    var sections := found.value;
    for i := 0 to |sections|
      invariant FindNamed(sections, name) == FindNamed(sections[i..], name)
    {
      var sec := sections[i];
      if sec.name == name {
        return Ok(text[..sec.start] + "\n" + Trimmed(content) + "\n" + text[sec.end..]);
      }
      assert sections[i..][1..] == sections[i + 1..];
    }
    return Err(NoSection(name));
  }

  // --- A marker depends on its own characters only ---------------------------------------------------------

  predicate Agree(s: string, p: nat, t: string, q: nat, n: nat) {
    p + n <= |s| && q + n <= |t| && s[p..p + n] == t[q..q + n]
  }

  lemma AgreeAt(s: string, p: nat, t: string, q: nat, n: nat, i: nat)
    requires Agree(s, p, t, q, n) && i < n
    ensures s[p + i] == t[q + i]
  {
    assert s[p + i] == s[p..p + n][i] && t[q + i] == t[q..q + n][i];
  }

  lemma AgreeTail(s: string, p: nat, t: string, q: nat, n: nat, m: nat)
    requires Agree(s, p, t, q, n) && m <= n
    ensures Agree(s, p + m, t, q + m, n - m)
  {
    assert s[p + m..p + n] == s[p..p + n][m..] && t[q + m..q + n] == t[q..q + n][m..];
  }

  lemma AgreeHead(s: string, p: nat, t: string, q: nat, n: nat, m: nat)
    requires Agree(s, p, t, q, n) && m <= n
    ensures Agree(s, p, t, q, m)
  {
    assert s[p..p + m] == s[p..p + n][..m] && t[q..q + m] == t[q..q + n][..m];
  }

  lemma SkipIs(t: string, q: nat, r: nat)
    requires q <= r < |t| && (forall i :: q <= i < r ==> IsSpace(t[i])) && !IsSpace(t[r])
    ensures SkipSpace(t, q) == r
  {
    hide IsSpace;
  }

  lemma NameEndIs(t: string, q: nat, r: nat)
    requires q <= r < |t| && (forall i :: q <= i < r ==> IsNameChar(t[i])) && !IsNameChar(t[r])
    ensures NameEnd(t, q) == r
  {
    hide IsNameChar;
  }

  lemma LitLocal(s: string, p: nat, t: string, q: nat, n: nat, lit: string)
    requires Agree(s, p, t, q, n) && Lit(s, p, lit) && |lit| <= n
    ensures Lit(t, q, lit)
  {
    AgreeHead(s, p, t, q, n, |lit|);
  }

  lemma SkipLocal(s: string, p: nat, t: string, q: nat, n: nat)
    requires p <= |s| && Agree(s, p, t, q, n) && SkipSpace(s, p) < p + n
    ensures q <= |t| && SkipSpace(t, q) - q == SkipSpace(s, p) - p
  {
    hide IsSpace;
    var d := SkipSpace(s, p) - p;
    forall i | q <= i < q + d ensures IsSpace(t[i]) {
      AgreeAt(s, p, t, q, n, i - q);
    }
    AgreeAt(s, p, t, q, n, d);
    SkipIs(t, q, q + d);
  }

  lemma NameEndLocal(s: string, p: nat, t: string, q: nat, n: nat)
    requires p <= |s| && Agree(s, p, t, q, n) && NameEnd(s, p) < p + n
    ensures q <= |t| && NameEnd(t, q) - q == NameEnd(s, p) - p
  {
    hide IsNameChar;
    var d := NameEnd(s, p) - p;
    forall i | q <= i < q + d ensures IsNameChar(t[i]) {
      AgreeAt(s, p, t, q, n, i - q);
    }
    AgreeAt(s, p, t, q, n, d);
    NameEndIs(t, q, q + d);
  }

  lemma CloseLocal(s: string, p: nat, t: string, q: nat, n: nat)
    requires p <= |s| && Agree(s, p, t, q, n) && CloseAt(s, p).Some? && CloseAt(s, p).value <= p + n
    ensures q <= |t| && CloseAt(t, q) == Some(q + (CloseAt(s, p).value - p))
  {
    hide SkipSpace;
    SkipLocal(s, p, t, q, n);
    var d := SkipSpace(s, p) - p;
    AgreeTail(s, p, t, q, n, d);
    LitLocal(s, p + d, t, q + d, n - d, CLOSE);
  }

  lemma LitChars(s: string, p: nat, lit: string)
    requires Lit(s, p, lit)
    ensures forall i :: 0 <= i < |lit| ==> s[p + i] == lit[i]
  {
    forall i | 0 <= i < |lit| ensures s[p + i] == lit[i] {
      assert s[p + i] == s[p..p + |lit|][i];
    }
  }

  lemma LitFirst(s: string, p: nat, lit: string)
    requires lit != []
    ensures Lit(s, p, lit) ==> s[p] == lit[0]
  {
    assert Lit(s, p, lit) ==> s[p..p + |lit|][0] == s[p];
  }

  /** A name ends before a character that belongs to no name, and a closing arrow needs one. */
  lemma NameStops(s: string, b: nat)
    requires b <= |s| && NameAt(Begin, s, b).Some?
    ensures NameEnd(s, b) < NameAt(Begin, s, b).value.end
  {
    hide SkipSpace, NameEnd;
  }

  lemma NameLocal(k: Kind, s: string, b: nat, t: string, c: nat, n: nat)
    requires b <= |s| && NameAt(k, s, b).Some? && NameAt(k, s, b).value.end <= b + n && Agree(s, b, t, c, n)
    ensures c <= |t| && NameAt(k, t, c) == Some(Found(NameAt(k, s, b).value.name, c + (NameAt(k, s, b).value.end - b)))
  {
    match k {
      case Begin => BeginNameLocal(s, b, t, c, n);
      case End(name) => EndNameLocal(name, s, b, t, c, n);
    }
  }

  lemma EndNameLocal(name: string, s: string, b: nat, t: string, c: nat, n: nat)
    requires b <= |s| && NameAt(End(name), s, b).Some? && NameAt(End(name), s, b).value.end <= b + n && Agree(s, b, t, c, n)
    ensures c <= |t| && NameAt(End(name), t, c) == Some(Found(name, c + (NameAt(End(name), s, b).value.end - b)))
  {
    hide CloseAt, Lit, NameEnd;
    LitLocal(s, b, t, c, n, name);
    AgreeTail(s, b, t, c, n, |name|);
    hide Agree;
    CloseLocal(s, b + |name|, t, c + |name|, n - |name|);
  }

  lemma SameName(s: string, b: nat, t: string, c: nat, n: nat, m: nat)
    requires Agree(s, b, t, c, n) && m <= n
    ensures b + m <= |s| && c + m <= |t| && s[b..b + m] == t[c..c + m]
  {
    AgreeHead(s, b, t, c, n, m);
  }

  lemma BeginNameLocal(s: string, b: nat, t: string, c: nat, n: nat)
    requires b <= |s| && NameAt(Begin, s, b).Some? && NameAt(Begin, s, b).value.end <= b + n && Agree(s, b, t, c, n)
    ensures c <= |t|
    ensures NameAt(Begin, t, c) == Some(Found(NameAt(Begin, s, b).value.name, c + (NameAt(Begin, s, b).value.end - b)))
  {
    hide Lit, CloseAt, NameEnd, Agree;
    NameStops(s, b);
    NameEndLocal(s, b, t, c, n);
    var d := NameEnd(s, b) - b;
    if CloseAt(s, b + d).Some? {
      SameName(s, b, t, c, n, d);
      AgreeTail(s, b, t, c, n, d);
      CloseLocal(s, b + d, t, c + d, n - d);
    } else {
      SameName(s, b, t, c, n, d - 2);
      AgreeTail(s, b, t, c, n, d - 2);
      LitLocal(s, b + d - 2, t, c + d - 2, n - d + 2, CLOSE);
      ArrowIsNoClose(t, c + d);
    }
  }

  lemma ArrowIsNoClose(t: string, e: nat)
    requires 2 <= e <= |t| && Lit(t, e - 2, CLOSE)
    ensures CloseAt(t, e).None?
  {
    LitChars(t, e - 2, CLOSE);
    NoCloseAtArrow(t, e);
  }

  lemma NoCloseAtArrow(t: string, e: nat)
    requires e < |t| && t[e] == '>'
    ensures CloseAt(t, e).None?
  {
    SkipIs(t, e, e);
    hide SkipSpace;
    LitFirst(t, e, CLOSE);
  }

  lemma NameStartLocal(k: Kind, s: string, p: nat, t: string, q: nat, n: nat)
    requires NameStart(k, s, p).Some? && NameStart(k, s, p).value < p + n && Agree(s, p, t, q, n)
    ensures NameStart(k, t, q) == Some(q + (NameStart(k, s, p).value - p))
  {
    hide SkipSpace, Agree, Lit, Kind.Keyword;
    LitLocal(s, p, t, q, n, OPEN);
    AgreeTail(s, p, t, q, n, 4);
    SkipLocal(s, p + 4, t, q + 4, n - 4);
    var a := SkipSpace(s, p + 4) - p;
    AgreeTail(s, p, t, q, n, a);
    LitFits(s, p + a, k.Keyword());
    LitLocal(s, p + a, t, q + a, n - a, k.Keyword());
    var w := a + |k.Keyword()|;
    AgreeTail(s, p, t, q, n, w);
    SkipLocal(s, p + w, t, q + w, n - w);
  }

  lemma LitFits(s: string, p: nat, lit: string)
    requires Lit(s, p, lit)
    ensures p + |lit| <= |s|
  {}

  /** The same characters make the same marker, wherever they stand. */
  lemma MarkerLocal(k: Kind, s: string, p: nat, t: string, q: nat)
    requires MarkerAt(k, s, p).Some? && Agree(s, p, t, q, MarkerAt(k, s, p).value.end - p)
    ensures MarkerAt(k, t, q) == Some(Found(MarkerAt(k, s, p).value.name, q + (MarkerAt(k, s, p).value.end - p)))
  {
    hide NameStart, NameAt, Agree;
    var n := MarkerAt(k, s, p).value.end - p;
    NameStartLocal(k, s, p, t, q, n);
    var b := NameStart(k, s, p).value - p;
    AgreeTail(s, p, t, q, n, b);
    NameLocal(k, s, p + b, t, q + b, n - b);
  }

  ghost predicate NoBracket(s: string, p: nat, q: nat)
    requires q <= |s|
  {
    forall i :: p <= i < q ==> s[i] != '<'
  }

  lemma CloseShape(s: string, p: nat)
    requires p <= |s| && CloseAt(s, p).Some?
    ensures s[CloseAt(s, p).value - 1] == '>' && NoBracket(s, p, CloseAt(s, p).value)
  {
    hide SkipSpace;
    LitChars(s, SkipSpace(s, p), CLOSE);
  }

  lemma NameShape(k: Kind, s: string, b: nat)
    requires b <= |s| && NameAt(k, s, b).Some? && k.Plain()
    ensures var m := NameAt(k, s, b).value; s[m.end - 1] == '>' && NoBracket(s, b, m.end) && '<' !in m.name
  {
    hide SkipSpace, NameEnd, CloseAt;
    match k {
      case Begin =>
        var e := NameEnd(s, b);
        if CloseAt(s, e).Some? {
          CloseShape(s, e);
        } else {
          LitChars(s, e - 2, CLOSE);
        }
        NameHasNoBracket(s, b, e);
      case End(name) =>
        CloseShape(s, b + |name|);
        forall i | b <= i < b + |name| ensures s[i] != '<' {
          assert s[i] == s[b..b + |name|][i - b];
        }
    }
  }

  lemma NameHasNoBracket(s: string, b: nat, e: nat)
    requires b <= e <= |s| && forall i :: b <= i < e ==> IsNameChar(s[i])
    ensures NoBracket(s, b, e) && forall d :: b <= d <= e ==> '<' !in s[b..d]
  {
    forall d | b <= d <= e ensures '<' !in s[b..d] {
      assert forall i :: 0 <= i < |s[b..d]| ==> s[b..d][i] == s[b + i];
    }
  }

  lemma SpaceHasNoBracket(s: string, p: nat)
    requires p <= |s|
    ensures NoBracket(s, p, SkipSpace(s, p))
  {
    hide SkipSpace;
    assert !IsSpace('<');
    hide IsSpace;
  }

  lemma LitHasNoBracket(s: string, p: nat, lit: string)
    requires Lit(s, p, lit) && '<' !in lit
    ensures NoBracket(s, p, p + |lit|)
  {
    forall i | p <= i < p + |lit| ensures s[i] != '<' {
      assert s[i] == s[p..p + |lit|][i - p];
    }
  }

  lemma NoBracketJoins(s: string, p: nat, q: nat, r: nat)
    requires p <= q <= r <= |s| && NoBracket(s, p, q) && NoBracket(s, q, r)
    ensures NoBracket(s, p, r)
  {}

  lemma OpenShape(s: string, p: nat)
    requires Lit(s, p, OPEN)
    ensures p + 4 <= |s| && s[p] == '<' && NoBracket(s, p + 1, p + 4)
  {
    LitChars(s, p, OPEN);
    assert s[p + 1] == '!' && s[p + 2] == '-' && s[p + 3] == '-';
  }

  lemma KeywordPlain(k: Kind)
    ensures '<' !in k.Keyword()
  {}

  lemma StartShape(k: Kind, s: string, p: nat)
    requires NameStart(k, s, p).Some?
    ensures s[p] == '<' && NoBracket(s, p + 1, NameStart(k, s, p).value)
  {
    hide SkipSpace, NoBracket, Lit, Kind.Keyword;
    OpenShape(s, p);
    var a := SkipSpace(s, p + 4);
    SpaceHasNoBracket(s, p + 4);
    NoBracketJoins(s, p + 1, p + 4, a);
    KeywordPlain(k);
    LitFits(s, a, k.Keyword());
    LitHasNoBracket(s, a, k.Keyword());
    var w := a + |k.Keyword()|;
    NoBracketJoins(s, p + 1, a, w);
    SpaceHasNoBracket(s, w);
    NoBracketJoins(s, p + 1, w, SkipSpace(s, w));
  }

  /** A marker opens with its only '<' and ends with '>'. */
  lemma MarkerShape(k: Kind, s: string, p: nat)
    requires MarkerAt(k, s, p).Some? && k.Plain()
    ensures var m := MarkerAt(k, s, p).value;
            p + 4 < m.end && s[p] == '<' && s[m.end - 1] == '>' && NoBracket(s, p + 1, m.end) && '<' !in m.name
  {
    hide NameStart, NameAt, NoBracket;
    StartShape(k, s, p);
    var b := NameStart(k, s, p).value;
    NameShape(k, s, b);
    NoBracketJoins(s, p + 1, b, MarkerAt(k, s, p).value.end);
  }

  /** Nothing is both a BEGIN and an END marker. */
  lemma BeginIsNoEnd(s: string, p: nat, name: string)
    requires MarkerAt(Begin, s, p).Some?
    ensures MarkerAt(End(name), s, p).None?
  {
    hide SkipSpace, NameAt;
    var a := SkipSpace(s, p + 4);
    LitFirst(s, a, "BEGIN GENERATED:");
    LitFirst(s, a, "END GENERATED:");
  }
}
