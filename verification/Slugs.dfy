/** URL slugs: `Slugify` turns a name into one, and `UniqueSlug` finds one that is free. */
module Slugs {
  import opened Text

  // ---------------------------------------------------------------------
  // slugify
  // ---------------------------------------------------------------------

  /** Every run of characters other than a-z and 0-9 becomes one dash. */
  function Dashed(s: string, inRun: bool): string {
    if s == "" then ""
    else if IsLowerAlnum(s[0]) then [s[0]] + Dashed(s[1..], false)
    else if inRun then Dashed(s[1..], true)
    else "-" + Dashed(s[1..], true)
  }

  function StripDashes(s: string): string {
    var t := if s != "" && s[0] == '-' then s[1..] else s;
    if t != "" && t[|t| - 1] == '-' then t[..|t| - 1] else t
  }

  function Slugify(text: string): string {
    StripDashes(Dashed(Trim(Lower(text)), false))
  }

  ghost predicate NoDoubleDash(s: string) {
    forall i :: 0 < i < |s| ==> !(s[i - 1] == '-' && s[i] == '-')
  }

  ghost predicate SlugChars(s: string) {
    forall i :: 0 <= i < |s| ==> IsLowerAlnum(s[i]) || s[i] == '-'
  }

  /** Words of a-z and 0-9 joined by single dashes. */
  ghost predicate IsSlug(s: string) {
    SlugChars(s) && NoDoubleDash(s) && (s != "" ==> s[0] != '-' && s[|s| - 1] != '-')
  }

  lemma {:induction false} DashedShape(s: string, inRun: bool)
    ensures SlugChars(Dashed(s, inRun)) && NoDoubleDash(Dashed(s, inRun))
    ensures inRun && Dashed(s, inRun) != "" ==> Dashed(s, inRun)[0] != '-'
  {
    if s != "" {
      DashedShape(s[1..], false);
      DashedShape(s[1..], true);
    }
  }

  lemma {:induction false} DashedKeeps(s: string)
    requires SlugChars(s) && NoDoubleDash(s)
    ensures Dashed(s, false) == s
    ensures s != "" && s[0] != '-' ==> Dashed(s, true) == s
  {
    if s != "" {
      var t := s[1..];
      assert SlugChars(t);
      assert forall i :: 0 < i < |t| ==> t[i - 1] == s[i] && t[i] == s[i + 1];
      assert NoDoubleDash(t);
      DashedKeeps(t);
      assert s == [s[0]] + t;
      if s[0] == '-' && t != "" {
        assert t[0] != '-';
      }
    }
  }

  /** `Slugify` always yields a slug, and leaves a slug as it is. */
  lemma SlugifyNormalises(text: string)
    ensures IsSlug(Slugify(text))
    ensures IsSlug(text) ==> Slugify(text) == text
  {
    DashedShape(Trim(Lower(text)), false);
    if IsSlug(text) {
      SlugIsClean(text);
      DashedKeeps(text);
    }
  }

  lemma SlugIsClean(s: string)
    requires IsSlug(s)
    ensures Lower(s) == s && Trim(s) == s
  {
    if s != "" {
      assert IsLowerAlnum(s[0]) && IsLowerAlnum(s[|s| - 1]);
    }
  }

  // ---------------------------------------------------------------------
  // What the slug of a text is
  // ---------------------------------------------------------------------

  predicate IsLetterOrDigit(c: char) {
    IsLowerAlnum(LowerChar(c))
  }

  ghost predicate IsWordOf(w: string) {
    w != "" && forall i :: 0 <= i < |w| ==> IsLetterOrDigit(w[i])
  }

  /** What stands between two words. */
  ghost predicate IsGap(g: string) {
    forall i :: 0 <= i < |g| ==> !IsLetterOrDigit(g[i])
  }

  function NoTrailingDash(s: string): string {
    if s != "" && s[|s| - 1] == '-' then s[..|s| - 1] else s
  }

  /** The slug of a text in lower case, with a leading dash never written. */
  function Slugged(s: string): string {
    NoTrailingDash(Dashed(s, true))
  }

  lemma StripsBoth(s: string)
    ensures StripDashes(Dashed(s, false)) == Slugged(s)
  {
    DashedShape(s, true);
    if s != "" && !IsLowerAlnum(s[0]) {
      assert Dashed(s, false) == "-" + Dashed(s[1..], true) && Dashed(s, true) == Dashed(s[1..], true);
      DashedShape(s[1..], true);
      assert ("-" + Dashed(s[1..], true))[1..] == Dashed(s[1..], true);
    } else {
      assert Dashed(s, false) == Dashed(s, true);
    }
  }

  ghost predicate NoWord(g: string) {
    forall i :: 0 <= i < |g| ==> !IsLowerAlnum(g[i])
  }

  lemma {:induction false} DashedGap(g: string, b: string)
    requires NoWord(g)
    ensures Dashed(g + b, true) == Dashed(b, true)
    ensures g != "" ==> Dashed(g + b, false) == "-" + Dashed(b, true)
  {
    if g == "" {
      assert g + b == b;
    } else {
      assert (g + b)[1..] == g[1..] + b && NoWord(g[1..]);
      DashedGap(g[1..], b);
    }
  }

  lemma {:induction false} DashedWord(w: string, b: string, inRun: bool)
    requires w != "" && forall i :: 0 <= i < |w| ==> IsLowerAlnum(w[i])
    ensures Dashed(w + b, inRun) == w + Dashed(b, false)
  {
    var s := w + b;
    assert s[1..] == w[1..] + b && w == [w[0]] + w[1..];
    if |w| > 1 {
      DashedWord(w[1..], b, false);
      assert [w[0]] + (w[1..] + Dashed(b, false)) == w + Dashed(b, false);
    } else {
      assert s[1..] == b;
    }
  }

  /** A gap at the end adds at most the dash that is taken away again. */
  lemma {:induction false} DashedTail(s: string, g: string, inRun: bool)
    requires NoWord(g)
    ensures var d := Dashed(s, inRun);
            || Dashed(s + g, inRun) == d
            || (Dashed(s + g, inRun) == d + "-" && (d == "" || d[|d| - 1] != '-') && (d == "" ==> !inRun))
  {
    DashedShape(s + g, inRun);
    if s == "" {
      assert s + g == g && g + "" == g;
      DashedGap(g, "");
    } else {
      var inner := !IsLowerAlnum(s[0]);
      var d := Dashed(s[1..], inner);
      assert (s + g)[0] == s[0] && (s + g)[1..] == s[1..] + g;
      DashedTail(s[1..], g, inner);
      assert [s[0]] + (d + "-") == [s[0]] + d + "-" && "-" + (d + "-") == "-" + d + "-";
    }
  }

  lemma SluggedTail(s: string, g: string)
    requires NoWord(g)
    ensures Slugged(s + g) == Slugged(s)
  {
    DashedTail(s, g, true);
    var d := Dashed(s, true);
    if Dashed(s + g, true) == d + "-" {
      assert (d + "-")[..|d|] == d;
    }
  }

  /** Trimming is not needed: white space is part of a gap. */
  lemma SlugifyIsSlugged(text: string)
    ensures Slugify(text) == Slugged(Lower(text))
  {
    var s := Lower(text);
    var before, after := TrimExactly(s);
    StripsBoth(Trim(s));
    SluggedTail(before + Trim(s), after);
    DashedGap(before, Trim(s));
  }

  lemma LowerAdds(a: string, b: string)
    ensures Lower(a + b) == Lower(a) + Lower(b)
  {
  }

  /** The slug, word by word: a gap in front does not matter, a word is written in lower case,
      and a gap becomes one dash if another word follows. */
  lemma SlugifyByWords(gap: string, word: string, gap': string, rest: string)
    requires IsGap(gap) && IsWordOf(word) && IsGap(gap') && gap' != ""
    ensures Slugify(gap + rest) == Slugify(rest) && Slugify("") == ""
    ensures Slugify(word) == Lower(word)
    ensures Slugify(word + gap' + rest) ==
              if Slugify(rest) == "" then Lower(word) else Lower(word) + "-" + Slugify(rest)
  {
    SlugOfGap(gap, rest);
    SlugOfGap("", "");
    SlugOfWord(word);
    SlugOfWordAndRest(word, gap', rest);
  }

  lemma SlugOfGap(gap: string, rest: string)
    requires IsGap(gap)
    ensures Slugify(gap + rest) == Slugify(rest)
  {
    LowerAdds(gap, rest);
    SlugifyIsSlugged(gap + rest);
    SlugifyIsSlugged(rest);
    DashedGap(Lower(gap), Lower(rest));
  }

  lemma SlugOfWord(word: string)
    requires IsWordOf(word)
    ensures Slugify(word) == Lower(word)
  {
    var w := Lower(word);
    SlugifyIsSlugged(word);
    DashedWord(w, "", true);
    assert w + "" == w && IsLowerAlnum(w[|w| - 1]);
  }

  lemma SlugOfWordAndRest(word: string, gap: string, rest: string)
    requires IsWordOf(word) && IsGap(gap) && gap != ""
    ensures Slugify(word + gap + rest) ==
              if Slugify(rest) == "" then Lower(word) else Lower(word) + "-" + Slugify(rest)
  {
    LowerAdds(word, gap + rest);
    LowerAdds(gap, rest);
    assert word + gap + rest == word + (gap + rest);
    SlugifyIsSlugged(word + gap + rest);
    SlugifyIsSlugged(rest);
    SluggedWordAndRest(Lower(word), Lower(gap), Lower(rest));
  }

  lemma SluggedWordAndRest(w: string, g: string, r: string)
    requires w != "" && (forall i :: 0 <= i < |w| ==> IsLowerAlnum(w[i])) && NoWord(g) && g != ""
    ensures Slugged(w + (g + r)) == if Slugged(r) == "" then w else w + "-" + Slugged(r)
  {
    DashedWord(w, g + r, true);
    DashedGap(g, r);
    DashedShape(r, true);
    JoinsWords(w, Dashed(r, true));
  }

  lemma JoinsWords(w: string, d: string)
    requires d != "" ==> d[0] != '-'
    ensures NoTrailingDash(w + ("-" + d)) ==
              if NoTrailingDash(d) == "" then w else w + "-" + NoTrailingDash(d)
  {
    var s := w + ("-" + d);
    if d == "" {
      assert s[..|s| - 1] == w;
    } else {
      assert s[|s| - 1] == d[|d| - 1];
      if d[|d| - 1] == '-' {
        assert s[..|s| - 1] == w + "-" + d[..|d| - 1];
      } else {
        assert s == w + "-" + d;
      }
    }
  }

  // ---------------------------------------------------------------------
  // A free slug
  // ---------------------------------------------------------------------

  function Base(name: string): string {
    if Slugify(name) == "" then "item" else Slugify(name)
  }

  /** The name's slug, then the slug with -1, -2, ... */
  function Candidate(name: string, k: nat): string {
    if k == 0 then Base(name) else Base(name) + "-" + Decimal(k)
  }

  lemma CandidatesDiffer(name: string, j: nat, k: nat)
    requires j != k
    ensures Candidate(name, j) != Candidate(name, k)
  {
    var base := Base(name);
    ValueOfDecimal(j);
    ValueOfDecimal(k);
    assert j > 0 ==> Candidate(name, j)[|base| + 1..] == Decimal(j);
    assert k > 0 ==> Candidate(name, k)[|base| + 1..] == Decimal(k);
  }

  /** The slug is made of this name. */
  ghost predicate SlugOf(name: string, slug: string) {
    exists k: nat :: slug == Candidate(name, k)
  }

  /** The first `n` candidates. */
  ghost function Tried(name: string, n: nat): (s: set<string>)
    ensures |s| == n
    ensures forall c :: c in s <==> exists k :: 0 <= k < n && Candidate(name, k) == c
  {
    if n == 0 then {}
    else
      var before := Tried(name, n - 1);
      assert Candidate(name, n - 1) !in before by {
        forall k | 0 <= k < n - 1 ensures Candidate(name, k) != Candidate(name, n - 1) {
          CandidatesDiffer(name, k, n - 1);
        }
      }
      before + {Candidate(name, n - 1)}
  }

  /** Candidate `k` is the first one that is free. */
  ghost predicate FirstFree(name: string, taken: set<string>, k: nat) {
    Candidate(name, k) !in taken && forall j :: 0 <= j < k ==> Candidate(name, j) in taken
  }

  /** More candidates in a row than there are taken slugs cannot all be taken. */
  lemma Pigeonhole(name: string, taken: set<string>, n: nat)
    requires forall k :: 0 <= k < n ==> Candidate(name, k) in taken
    ensures n <= |taken|
  {
    var tried := Tried(name, n);
    forall c | c in tried ensures c in taken {
      var k :| 0 <= k < n && Candidate(name, k) == c;
    }
    SubsetSize(tried, taken);
  }

  lemma SubsetSize<T>(a: set<T>, b: set<T>)
    requires a <= b
    ensures |a| <= |b|
  {
    assert b == a + (b - a);
    assert |b| == |a| + |b - a|;
  }

  lemma {:induction false} SomeFree(name: string, taken: set<string>, n: nat) returns (k: nat)
    requires forall j :: 0 <= j < n ==> Candidate(name, j) in taken
    ensures FirstFree(name, taken, k)
    decreases |taken| - n
  {
    if Candidate(name, n) !in taken {
      k := n;
    } else {
      Pigeonhole(name, taken, n + 1);
      k := SomeFree(name, taken, n + 1);
    }
  }

  /** The slug a name gets when `taken` are gone: its base or the base with the least
      free suffix. */
  ghost function FreshSlug(name: string, taken: set<string>): (slug: string)
    ensures slug !in taken && SlugOf(name, slug)
    ensures exists k: nat :: slug == Candidate(name, k) && FirstFree(name, taken, k)
  {
    assert exists k: nat :: FirstFree(name, taken, k) by {
      var k := SomeFree(name, taken, 0);
    }
    var k: nat :| FirstFree(name, taken, k);
    Candidate(name, k)
  }

  lemma FreshSlugIs(name: string, taken: set<string>, k: nat)
    requires FirstFree(name, taken, k)
    ensures FreshSlug(name, taken) == Candidate(name, k)
  {
    var j: nat :| FreshSlug(name, taken) == Candidate(name, j) && FirstFree(name, taken, j);
    OneFirst(name, taken, j, k);
  }

  lemma OneFirst(name: string, taken: set<string>, j: nat, k: nat)
    requires FirstFree(name, taken, j) && FirstFree(name, taken, k)
    ensures j == k
  {
    assert j < k ==> Candidate(name, j) in taken;
    assert k < j ==> Candidate(name, k) in taken;
  }

  /** A name of two words: "Oil Filter" becomes "oil-filter", and the next one of that name
      "oil-filter-1". */
  lemma TwoWords(a: string, b: string)
    requires IsWordOf(a) && IsWordOf(b)
    ensures var slug := Lower(a) + "-" + Lower(b);
            && FreshSlug(a + " " + b, {}) == slug
            && FreshSlug(a + " " + b, {slug}) == slug + "-1"
  {
    var name, slug := a + " " + b, Lower(a) + "-" + Lower(b);
    SlugOfWord(b);
    SlugOfWordAndRest(a, " ", b);
    assert Candidate(name, 0) == slug;
    assert Decimal(1) == "1" && Candidate(name, 1) == slug + "-" + "1" == slug + "-1";
    FreshSlugIs(name, {}, 0);
    FreshSlugIs(name, {slug}, 1);
  }

  /** The slugs handed out in one batch and maybe not written yet. */
  class Reserved {
    var slugs: set<string>

    constructor ()
      ensures slugs == {}
    {
      slugs := {};
    }

    /** Tries one candidate after the other; it ends because the candidates are all
        different and only finitely many slugs are gone. */
    method UniqueSlug(name: string, taken: set<string>) returns (slug: string)
      modifies this
      ensures slug == FreshSlug(name, taken + old(slugs))
      ensures slugs == old(slugs) + {slug}
      ensures var base, gone := if Slugify(name) == "" then "item" else Slugify(name), taken + old(slugs);
              if base !in gone then slug == base
              else exists k :: k >= 1 && slug == base + "-" + Decimal(k) && slug !in gone
                               && forall j :: 1 <= j < k ==> base + "-" + Decimal(j) in gone
    {
      var base := Base(name);
      slug := base;
      var suffix := 1;
      ghost var gone := taken + slugs;
      while slug in slugs || slug in taken
        invariant suffix >= 1 && slug == Candidate(name, suffix - 1)
        invariant forall k :: 0 <= k < suffix - 1 ==> Candidate(name, k) in gone
        invariant slugs == old(slugs)
        decreases |gone| + 1 - suffix
      {
        assert slug in gone;
        Pigeonhole(name, gone, suffix);
        slug := base + "-" + Decimal(suffix);
        suffix := suffix + 1;
      }
      FreshSlugIs(name, gone, suffix - 1);
      assert Candidate(name, 0) == base;
      assert suffix > 1 ==> slug == base + "-" + Decimal(suffix - 1);
      forall j | 1 <= j < suffix - 1 ensures base + "-" + Decimal(j) in gone {
        assert Candidate(name, j) in gone;
      }
      slugs := slugs + {slug};
    }
  }

  function Elements(slugs: seq<string>): set<string> {
    set s | s in slugs
  }

  /** A batch of names that share their reserved slugs. */
  ghost function BatchSlugs(names: seq<string>, taken: set<string>): (slugs: seq<string>)
    ensures |slugs| == |names|
  {
    if names == [] then []
    else
      var before := BatchSlugs(names[..|names| - 1], taken);
      before + [FreshSlug(names[|names| - 1], taken + Elements(before))]
  }

  /** They are pairwise distinct (as many slugs as names) and none of them was taken. */
  lemma {:induction false} BatchIsFresh(names: seq<string>, taken: set<string>)
    ensures Elements(BatchSlugs(names, taken)) !! taken
    ensures |Elements(BatchSlugs(names, taken))| == |names|
  {
    if names != [] {
      var before := BatchSlugs(names[..|names| - 1], taken);
      var last := FreshSlug(names[|names| - 1], taken + Elements(before));
      BatchIsFresh(names[..|names| - 1], taken);
      assert Elements(before + [last]) == Elements(before) + {last};
    }
  }

  method NameBatch(names: seq<string>, taken: set<string>) returns (slugs: seq<string>)
    ensures slugs == BatchSlugs(names, taken)
    ensures Elements(slugs) !! taken && |Elements(slugs)| == |names|
  {
    var reserved := new Reserved();
    slugs := [];
    for i := 0 to |names|
      invariant slugs == BatchSlugs(names[..i], taken)
      invariant reserved.slugs == Elements(slugs)
    {
      var slug := reserved.UniqueSlug(names[i], taken);
      assert names[..i + 1][..i] == names[..i];
      slugs := slugs + [slug];
    }
    assert names[..|names|] == names;
    BatchIsFresh(names, taken);
  }
}
