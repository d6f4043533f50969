/**
 * The ids `parse_blocks` gives its headings (scripts/help/generate.py): when they are distinct. The
 * n-th repetition of a slug gets "-n" appended, but nothing keeps a heading from having that as its slug.
 */
module HeadingIds {
  import opened Blocks

  function Count(slugs: seq<string>, slug: string): (r: nat)
    ensures r <= |slugs|
    decreases |slugs|
  {
    if slugs == [] then 0
    else Count(slugs[..|slugs| - 1], slug) + (if slugs[|slugs| - 1] == slug then 1 else 0)
  }

  function Numbered(slug: string, n: nat): string {
    slug + "-" + Decimal(n)
  }

  /** The id of heading `k`, from the slugs before it. */
  function IdAt(slugs: seq<string>, k: nat): string
    requires k < |slugs|
  {
    var repeats := Count(slugs[..k], slugs[k]);
    if repeats == 0 then slugs[k] else Numbered(slugs[k], repeats)
  }

  lemma {:induction false} SeenCounts(slugs: seq<string>, slug: string)
    ensures var seen := SeenAfter(map[], slugs);
            (slug in seen <==> Count(slugs, slug) > 0) && (slug in seen ==> seen[slug] == Count(slugs, slug) - 1)
    decreases |slugs|
  {
    if slugs != [] {
      var before, last := slugs[..|slugs| - 1], slugs[|slugs| - 1];
      assert slugs == before + [last];
      IdsSnoc(map[], before, last);
      SeenCounts(before, slug);
      SeenCounts(before, last);
    }
  }

  lemma {:induction false} IdsAre(slugs: seq<string>)
    ensures |IdsFrom(map[], slugs)| == |slugs|
    ensures forall k :: 0 <= k < |slugs| ==> IdsFrom(map[], slugs)[k] == IdAt(slugs, k)
    decreases |slugs|
  {
    if slugs != [] {
      var n := |slugs| - 1;
      var before, last := slugs[..n], slugs[n];
      assert slugs == before + [last];
      IdsSnoc(map[], before, last);
      IdsAre(before);
      SeenCounts(before, last);
      forall k | 0 <= k < n ensures IdAt(slugs, k) == IdAt(before, k) {
        assert slugs[..k] == before[..k];
      }
    }
  }

  lemma {:induction false} DecimalDigits(n: nat)
    ensures Decimal(n) != [] && '-' !in Decimal(n)
    decreases n
  {
    if n >= 10 {
      DecimalDigits(n / 10);
    }
  }

  lemma {:induction false} DecimalInjective(n: nat, m: nat)
    requires Decimal(n) == Decimal(m)
    ensures n == m
    decreases n
  {
    var s := Decimal(n);
    if n >= 10 && m >= 10 {
      assert Decimal(n / 10) == s[..|s| - 1] == Decimal(m / 10);
      DecimalInjective(n / 10, m / 10);
      assert s[|s| - 1] == ('0' as int + n % 10) as char == ('0' as int + m % 10) as char;
    } else if n >= 10 {
      DecimalDigits(n / 10);
    } else if m >= 10 {
      DecimalDigits(m / 10);
    }
  }

  /** The last dash tells slug and number apart. */
  lemma NumberedInjective(a: string, n: nat, b: string, m: nat)
    requires Numbered(a, n) == Numbered(b, m)
    ensures a == b && n == m
  {
    hide Decimal;
    var s, x, y := Numbered(a, n), Decimal(n), Decimal(m);
    assert s[|s| - |x| - 1] == '-' && s[|s| - |x|..] == x;
    assert s[|s| - |y| - 1] == '-' && s[|s| - |y|..] == y;
    assert |x| < |y| ==> y[|y| - |x| - 1] == s[|s| - |x| - 1];
    assert |y| < |x| ==> x[|x| - |y| - 1] == s[|s| - |y| - 1];
    DecimalDigits(n);
    DecimalDigits(m);
    assert a == s[..|s| - |x| - 1] == b;
    DecimalInjective(n, m);
  }

  lemma {:induction false} CountGrows(slugs: seq<string>, k: nat, slug: string)
    requires k < |slugs| && slugs[k] == slug
    ensures Count(slugs[..k], slug) < Count(slugs, slug)
    decreases |slugs|
  {
    var n := |slugs| - 1;
    if k < n {
      CountGrows(slugs[..n], k, slug);
      assert slugs[..n][..k] == slugs[..k];
    }
  }

  lemma EarlierCountsLess(slugs: seq<string>, i: nat, k: nat)
    requires i < k < |slugs| && slugs[i] == slugs[k]
    ensures Count(slugs[..i], slugs[i]) < Count(slugs[..k], slugs[k])
  {
    assert slugs[..k][..i] == slugs[..i];
    CountGrows(slugs[..k], i, slugs[i]);
  }

  lemma {:induction false} Occurrence(slugs: seq<string>, slug: string, n: nat) returns (k: nat)
    requires n < Count(slugs, slug)
    ensures k < |slugs| && slugs[k] == slug && Count(slugs[..k], slug) == n
    decreases |slugs|
  {
    var last := |slugs| - 1;
    if n < Count(slugs[..last], slug) {
      k := Occurrence(slugs[..last], slug, n);
      assert slugs[..last][..k] == slugs[..k];
    } else {
      k := last;
    }
  }

  /** Heading `i` spells out the numbered id of the `n`-th repetition of heading `j`. */
  ghost predicate SpellsOut(slugs: seq<string>, i: nat, j: nat, n: nat)
    requires i < |slugs| && j < |slugs|
  {
    0 < n < Count(slugs, slugs[j]) && slugs[i] == Numbered(slugs[j], n)
  }

  ghost predicate Distinct(ids: seq<string>) {
    forall i, k :: 0 <= i < k < |ids| ==> ids[i] != ids[k]
  }

  lemma SameIdSpellsOut(slugs: seq<string>, i: nat, k: nat)
    requires i < k < |slugs| && IdAt(slugs, i) == IdAt(slugs, k)
    ensures exists a: nat, b: nat, n: nat :: a < |slugs| && b < |slugs| && SpellsOut(slugs, a, b, n)
  {
    var ci, ck := Count(slugs[..i], slugs[i]), Count(slugs[..k], slugs[k]);
    CountGrows(slugs, i, slugs[i]);
    CountGrows(slugs, k, slugs[k]);
    if slugs[i] == slugs[k] {
      EarlierCountsLess(slugs, i, k);
      if ci > 0 {
        NumberedInjective(slugs[i], ci, slugs[k], ck);
      }
      assert false;
    } else if ci == 0 {
      assert SpellsOut(slugs, i, k, ck);
    } else if ck == 0 {
      assert SpellsOut(slugs, k, i, ci);
    } else {
      NumberedInjective(slugs[i], ci, slugs[k], ck);
    }
  }

  /** Ids are distinct exactly when no heading's own slug is a number the headings actually use up. */
  lemma IdsDistinctExactly(slugs: seq<string>)
    ensures Distinct(IdsFrom(map[], slugs)) <==>
            forall i: nat, j: nat, n: nat :: i < |slugs| && j < |slugs| ==> !SpellsOut(slugs, i, j, n)
  {
    hide Decimal, IdsFrom;
    var ids := IdsFrom(map[], slugs);
    IdsAre(slugs);
    if i: nat, j: nat, n: nat :| i < |slugs| && j < |slugs| && SpellsOut(slugs, i, j, n) {
      CountGrows(slugs, i, slugs[i]);
      var first := Occurrence(slugs, slugs[i], 0);
      var numbered := Occurrence(slugs, slugs[j], n);
      assert ids[first] == ids[numbered] && first != numbered;
    } else {
      forall i, k | 0 <= i < k < |ids| ensures ids[i] != ids[k] {
        if ids[i] == ids[k] {
          SameIdSpellsOut(slugs, i, k);
        }
      }
    }
  }

  /** Three headings are enough: "A", "A" and "A 1". */
  lemma NumberedIdTaken()
    ensures SpellsOut(["a", "a", "a-1"], 2, 0, 1) && !Distinct(IdsFrom(map[], ["a", "a", "a-1"]))
  {
    var slugs := ["a", "a", "a-1"];
    assert slugs[..2] == ["a", "a"] && slugs[..2][..1] == ["a"] && ["a"][..0] == [];
    assert Count(["a"], "a") == 1 && Count(["a", "a"], "a") == 2 by { assert ["a", "a"][..1] == ["a"]; }
    assert Decimal(1) == "1" && "a" + "-" + "1" == "a-1";
    assert SpellsOut(slugs, 2, 0, 1);
    IdsDistinctExactly(slugs);
  }
}
