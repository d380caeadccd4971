/**
 * The grant slug (backend/app/crud/grant.py:80-89): the lowercased title
 * with every character other than ASCII letters, digits, whitespace (any
 * character Python counts as whitespace) and '-' removed, trimmed, and each
 * run of whitespace replaced by one '-'; and the numbered candidates tried
 * when that slug is already taken.
 */
module Slug {
  import opened Text

  predicate IsAlnum(c: char)
  {
    'a' <= c <= 'z' || 'A' <= c <= 'Z' || '0' <= c <= '9'
  }

  /** A character allowed in a slug. */
  predicate IsSlugChar(c: char)
  {
    'a' <= c <= 'z' || '0' <= c <= '9' || c == '-'
  }

  predicate IsSlug(s: string)
  {
    forall i :: 0 <= i < |s| ==> IsSlugChar(s[i])
  }

  /** The characters `[^a-zA-Z0-9\s-]` does not match. */
  predicate Kept(c: char)
  {
    IsAlnum(c) || IsSpace(c) || c == '-'
  }

  /** `re.sub(r'[^a-zA-Z0-9\s-]', '', s)`. */
  function Filter(s: string): (r: string)
    ensures |r| <= |s|
    ensures forall i :: 0 <= i < |r| ==> Kept(r[i])
    ensures forall c :: c in r ==> c in s
    ensures (forall i :: 0 <= i < |s| ==> Kept(s[i])) ==> r == s
  {
    if s == [] then []
    else if Kept(s[0]) then [s[0]] + Filter(s[1..])
    else Filter(s[1..])
  }

  /** `s` with its leading whitespace removed. */
  function DropSpaces(s: string): (r: string)
    ensures |r| <= |s|
    ensures r == s[|s| - |r|..]
    ensures r != [] ==> !IsSpace(r[0])
  {
    if s != [] && IsSpace(s[0]) then DropSpaces(s[1..]) else s
  }

  /** `re.sub(r'\s+', '-', s)`: each maximal run of whitespace becomes one '-'. */
  function Collapse(s: string): (r: string)
    ensures |r| <= |s|
    ensures forall i :: 0 <= i < |r| ==> !IsSpace(r[i])
    ensures forall i :: 0 <= i < |r| ==> r[i] == '-' || r[i] in s
    decreases |s|
  {
    if s == [] then []
    else if IsSpace(s[0]) then "-" + Collapse(DropSpaces(s))
    else [s[0]] + Collapse(s[1..])
  }

  /** The slug `create_grant` derives from a title before the uniqueness check. */
  function Slugify(title: string): string
  {
    Collapse(Strip(Filter(Lower(title))))
  }

  lemma {:induction false} CollapseNoSpace(s: string)
    requires forall i :: 0 <= i < |s| ==> !IsSpace(s[i])
    ensures Collapse(s) == s
  {
    if s != [] {
      CollapseNoSpace(s[1..]);
    }
  }

  /**
   * A slug holds only lowercase ASCII letters, digits and '-', and is never
   * longer than the title.
   */
  lemma SlugCharset(title: string)
    ensures IsSlug(Slugify(title))
    ensures |Slugify(title)| <= |title|
  {
    var low := Lower(title);
    var kept := Filter(low);
    var trimmed := Strip(kept);
    assert forall c :: c in kept ==> c in low;
    forall c | c in kept
      ensures Kept(c) && !('A' <= c <= 'Z')
    {
    }
    var r := Collapse(trimmed);
    forall i | 0 <= i < |r|
      ensures IsSlugChar(r[i])
    {
      if r[i] != '-' {
        assert r[i] in trimmed;
        assert r[i] in kept;
      }
    }
  }

  /** A slug is its own slug: deriving a slug from a slug changes nothing. */
  lemma SlugifyIdempotent(title: string)
    ensures Slugify(Slugify(title)) == Slugify(title)
  {
    var s := Slugify(title);
    SlugCharset(title);
    assert forall i :: 0 <= i < |s| ==> LowerChar(s[i]) == s[i];
    assert Lower(s) == s;
    assert Filter(s) == s;
    assert StripLeft(s) == s;
    assert StripRight(s) == s;
    CollapseNoSpace(s);
  }

  /** The `counter`-th alternative: `f"{base_slug}-{counter}"`. */
  function Candidate(base: string, k: nat): (c: string)
    ensures |c| > |base| && c[..|base|] == base && c[|base|] == '-'
  {
    base + "-" + Decimal(k)
  }

  /** Distinct counters give distinct candidates, and none equals the base. */
  lemma CandidateInjective(base: string, j: nat, k: nat)
    ensures Candidate(base, j) == Candidate(base, k) <==> j == k
    ensures Candidate(base, j) != base
  {
    if Candidate(base, j) == Candidate(base, k) {
      assert Decimal(j) == Candidate(base, j)[|base| + 1..];
      assert Decimal(k) == Candidate(base, k)[|base| + 1..];
      DecimalInjective(j, k);
    }
  }

  /** Every candidate of a slug is itself a slug. */
  lemma CandidateIsSlug(base: string, k: nat)
    requires IsSlug(base)
    ensures IsSlug(Candidate(base, k))
  {
    var c := Candidate(base, k);
    var d := Decimal(k);
    assert c == base + "-" + d;
    forall i | 0 <= i < |c|
      ensures IsSlugChar(c[i])
    {
      if i > |base| {
        assert c[i] == d[i - |base| - 1];
      }
    }
  }
}
