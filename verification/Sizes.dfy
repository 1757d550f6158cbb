/** Garment sizes: internal/aggregate/sizes.go. */
module Sizes {
  import opened Wrappers
  import opened Strings

  datatype Size = Small | Medium | Large | XL | XXL | XXXL

  /** The size a canonical spelling stands for; None for a spelling the tally does not know. */
  function SizeOf(s: string): Option<Size> {
    if s == "small" then Some(Small)
    else if s == "medium" then Some(Medium)
    else if s == "large" then Some(Large)
    else if s == "xl" then Some(XL)
    else if s == "2xl" then Some(XXL)
    else if s == "3xl" then Some(XXXL)
    else None
  }

  /** A tally per garment size, as a value. */
  datatype SizeCounts = SizeCounts(small: nat, medium: nat, large: nat, xl: nat, xxl: nat, xxxl: nat) {

    function Get(size: Size): nat {
      match size
      case Small => small
      case Medium => medium
      case Large => large
      case XL => xl
      case XXL => xxl
      case XXXL => xxxl
    }

    function Plus(other: SizeCounts): SizeCounts {
      SizeCounts(small + other.small, medium + other.medium, large + other.large,
                 xl + other.xl, xxl + other.xxl, xxxl + other.xxxl)
    }

    predicate AtMost(other: SizeCounts) {
      small <= other.small && medium <= other.medium && large <= other.large
      && xl <= other.xl && xxl <= other.xxl && xxxl <= other.xxxl
    }

    function Total(): nat {
      small + medium + large + xl + xxl + xxxl
    }
  }

  const NONE := SizeCounts(0, 0, 0, 0, 0, 0)

  lemma PlusAssociates(a: SizeCounts, b: SizeCounts, c: SizeCounts)
    ensures a.Plus(b).Plus(c) == a.Plus(b.Plus(c))
  {
  }

  lemma PlusNone(a: SizeCounts)
    ensures a.Plus(NONE) == a && NONE.Plus(a) == a
  {
  }

  lemma NoneAtMost(a: SizeCounts)
    ensures NONE.AtMost(a)
  {
  }

  /** Sums of ordered tallies are ordered, and equal only when the parts are. */
  lemma PlusAtMost(a: SizeCounts, b: SizeCounts, c: SizeCounts, d: SizeCounts)
    requires a.AtMost(c) && b.AtMost(d)
    ensures a.Plus(b).AtMost(c.Plus(d))
    ensures a.Plus(b) == c.Plus(d) <==> a == c && b == d
  {
  }

  function Bit(size: Option<Size>, s: Size): nat {
    if size.Some? && size.value == s then 1 else 0
  }

  /** One garment of the given size; no garment when the size is unknown. */
  function One(size: Option<Size>): SizeCounts {
    SizeCounts(Bit(size, Small), Bit(size, Medium), Bit(size, Large), Bit(size, XL), Bit(size, XXL), Bit(size, XXXL))
  }

  lemma OneCounts(size: Option<Size>, s: Size)
    ensures One(size).Get(s) == if size == Some(s) then 1 else 0
    ensures One(size).Total() == if size.Some? then 1 else 0
  {
    if size.Some? {
      match size.value {
        case Small =>
        case Medium =>
        case Large =>
        case XL =>
        case XXL =>
        case XXXL =>
      }
    }
  }

  /** The SizeCounts struct of the source, updated in place through its receiver. */
  class SizeTally {
    var small: nat
    var medium: nat
    var large: nat
    var xl: nat
    var xxl: nat
    var xxxl: nat

    function Counts(): SizeCounts
      reads this
    {
      SizeCounts(small, medium, large, xl, xxl, xxxl)
    }

    constructor (c: SizeCounts)
      ensures Counts() == c
    {
      small, medium, large, xl, xxl, xxxl := c.small, c.medium, c.large, c.xl, c.xxl, c.xxxl;
    }

    /** Counts one garment and reports whether the size was one this tally knows. */
    method Add(size: string) returns (known: bool)
      modifies this
      ensures Counts() == old(Counts()).Plus(One(SizeOf(size)))
      ensures known <==> SizeOf(size).Some?
    {
      known := true;
      match SizeOf(size) {
        case Some(Small) => small := small + 1;
        case Some(Medium) => medium := medium + 1;
        case Some(Large) => large := large + 1;
        case Some(XL) => xl := xl + 1;
        case Some(XXL) => xxl := xxl + 1;
        case Some(XXXL) => xxxl := xxxl + 1;
        case None => known := false;
      }
    }
  }

  function Canonical(s: string): string {
    if s == "s" || s == "small" then "small"
    else if s == "m" || s == "medium" then "medium"
    else if s == "l" || s == "large" then "large"
    else if s == "xl" || s == "extra large" then "xl"
    else if s == "2xl" || s == "xxl" then "2xl"
    else if s == "3xl" || s == "xxxl" then "3xl"
    else s
  }

  /** The canonical spelling of a size; anything unrecognised comes back trimmed and lower-cased. */
  function NormalizeSize(size: string): string {
    Canonical(ToLower(Trim(size)))
  }

  lemma CanonicalIsClean(s: string)
    requires Trimmed(s) && ToLower(s) == s
    ensures Trimmed(Canonical(s)) && ToLower(Canonical(s)) == Canonical(s)
    ensures Canonical(Canonical(s)) == Canonical(s)
  {
    assert ToLower("small") == "small";
    assert ToLower("medium") == "medium";
    assert ToLower("large") == "large";
    assert ToLower("xl") == "xl";
    assert ToLower("2xl") == "2xl";
    assert ToLower("3xl") == "3xl";
  }

  /** Every normalised size is its own normal form: spelling it canonically changes nothing. */
  lemma NormalizeSizeIsFixed(size: string)
    ensures NormalizeSize(NormalizeSize(size)) == NormalizeSize(size)
  {
    var s := ToLower(Trim(size));
    TrimLower(Trim(size));
    TrimOfTrimmed(Trim(size));
    ToLowerIdempotent(Trim(size));
    CanonicalIsClean(s);
    TrimOfTrimmed(Canonical(s));
  }

  /** Which spellings, in any letter case and with any blanks around them, mean which size. */
  lemma SizeSpellings(size: string)
    ensures var spelled, meant := ToLower(Trim(size)), SizeOf(NormalizeSize(size));
      && (meant == Some(Small) <==> spelled in {"s", "small"})
      && (meant == Some(Medium) <==> spelled in {"m", "medium"})
      && (meant == Some(Large) <==> spelled in {"l", "large"})
      && (meant == Some(XL) <==> spelled in {"xl", "extra large"})
      && (meant == Some(XXL) <==> spelled in {"2xl", "xxl"})
      && (meant == Some(XXXL) <==> spelled in {"3xl", "xxxl"})
      && (meant == None ==> NormalizeSize(size) == spelled)
  {
    hide ToLower, Trim;
    CanonicalMeans(ToLower(Trim(size)));
  }

  lemma CanonicalMeans(s: string)
    ensures SizeOf(Canonical(s)) == Some(Small) <==> s in {"s", "small"}
    ensures SizeOf(Canonical(s)) == Some(Medium) <==> s in {"m", "medium"}
    ensures SizeOf(Canonical(s)) == Some(Large) <==> s in {"l", "large"}
    ensures SizeOf(Canonical(s)) == Some(XL) <==> s in {"xl", "extra large"}
    ensures SizeOf(Canonical(s)) == Some(XXL) <==> s in {"2xl", "xxl"}
    ensures SizeOf(Canonical(s)) == Some(XXXL) <==> s in {"3xl", "xxxl"}
    ensures SizeOf(Canonical(s)) == None ==> Canonical(s) == s
  {
  }
}
