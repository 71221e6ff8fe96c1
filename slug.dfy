/** The slug normalisation of types.ts line 262:
    `category.toLowerCase().replace(/ /g, '-').replace(/[^a-z0-9-]/g, '')`. */
module Slug {
  import opened Sequences
  import opened Decimal

  /** `toLowerCase` on one character, ASCII letters only. */
  function LowerChar(c: char): char
  {
    if 'A' <= c <= 'Z' then ((c as int) + 32) as char else c
  }

  function ToLower(s: string): (r: string)
    ensures |r| == |s|
    ensures forall k :: 0 <= k < |s| ==> r[k] == LowerChar(s[k])
  {
    Map(s, LowerChar)
  }

  /** `replace(/ /g, '-')`: each space (U+0020 only) becomes a hyphen. */
  function SpacesToHyphens(s: string): (r: string)
    ensures |r| == |s|
    ensures forall k :: 0 <= k < |s| ==> r[k] == (if s[k] == ' ' then '-' else s[k])
  {
    Map(s, (c: char) => if c == ' ' then '-' else c)
  }

  /** The character class `[a-z0-9-]`. */
  predicate IsSlugChar(c: char)
  {
    'a' <= c <= 'z' || '0' <= c <= '9' || c == '-'
  }

  /** Lower-case, spaces to hyphens, then drop everything outside `[a-z0-9-]`. */
  function Slugify(s: string): (r: string)
    ensures forall c :: c in r ==> IsSlugChar(c)
    ensures |r| <= |s|
  {
    Filter(SpacesToHyphens(ToLower(s)), IsSlugChar)
  }

  /** Normalising an already normalised string changes nothing. */
  lemma SlugifyIdempotent(s: string)
    ensures Slugify(Slugify(s)) == Slugify(s)
  {
    var t := Slugify(s);
    forall k | 0 <= k < |t| ensures ToLower(t)[k] == t[k] && SpacesToHyphens(t)[k] == t[k] {
      assert t[k] in t;
    }
    assert ToLower(t) == t;
    assert SpacesToHyphens(t) == t;
    FilterKeepsAll(t, IsSlugChar);
  }

  /** Slug of the i-th generated list. */
  function ListSlug(category: string, i: nat): (r: string)
    ensures forall c :: c in r ==> IsSlugChar(c)
  {
    "en-iyi-" + Slugify(category) + "-" + NatToString(i)
  }

  /** Every generated slug starts with `en-iyi-`. */
  lemma ListSlugStart(category: string, i: nat)
    ensures "en-iyi-" <= ListSlug(category, i) && ListSlug(category, i)[0] == 'e'
  {
  }

  /** The last `m` characters of a generated slug are those of its counter,
      and the character before them is the hyphen exactly when they are the
      whole counter. */
  lemma ListSlugTail(c: string, i: nat, m: nat)
    requires m <= |NatToString(i)|
    ensures var s, n := ListSlug(c, i), NatToString(i);
      s[|s| - m..] == n[|n| - m..] &&
      (m == |n| ==> s[|s| - m - 1] == '-') &&
      (m < |n| ==> s[|s| - m - 1] == n[|n| - m - 1] && '0' <= s[|s| - m - 1] <= '9')
  {
    var s, n := ListSlug(c, i), NatToString(i);
    if m < |n| {
      assert n[|n| - m - 1] in n;
    }
  }

  /** Two generated slugs with different counters differ, whatever their
      categories: the counter is everything after the last hyphen. */
  lemma {:induction false} ListSlugsDistinct(c1: string, i: nat, c2: string, j: nat)
    requires i != j
    ensures ListSlug(c1, i) != ListSlug(c2, j)
  {
    var a, b := NatToString(i), NatToString(j);
    var m := Min(|a|, |b|);
    ListSlugTail(c1, i, m);
    ListSlugTail(c2, j, m);
    NatToStringInjective(i, j);
    if ListSlug(c1, i) == ListSlug(c2, j) {
      assert false;
    }
  }
}
