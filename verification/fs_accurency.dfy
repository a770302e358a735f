/** src/utils/fsAccurency.js: a second copy of the accuracy estimator under a
    misspelt name, with its own module-global variable. The connector imports
    the other copy (src/utils/fsAccuracy.js); this one is modelled on its own
    and proved to compute the same values. */
module FsAccurency {
  import FsAccuracy

  const Initial: int := 10000

  /** `revalidate(mtime)` of this copy, for an integer mtime. */
  function Revalidate(a: int, mtime: int): (r: int)
    ensures r <= a
    ensures FsAccuracy.OnLadder(a) ==> FsAccuracy.OnLadder(r)
  {
    if a == 1 then a
    else if a > 10 && mtime % 10 != 0 then 10
    else if a > 100 && mtime % 100 != 0 then 100
    else if a > 1000 && mtime % 1000 != 0 then 1000
    else if a > 2000 && mtime % 2000 != 0 then 2000
    else a
  }

  /** `revalidate(mtime)` of this copy, for an mtime with a fractional part. */
  function RevalidateFractional(a: int): (r: int)
    ensures a > 1 ==> r == 1
    ensures a <= 1 ==> r == a
  {
    if a == 1 then a
    else if a > 1 then 1
    else a
  }

  /** `get()` of this copy. */
  function Get(a: int): int {
    a
  }

  /** Both copies start at the same value and, for every current value and
      mtime, move to the same new value. */
  lemma SameAsFsAccuracy(a: int, mtime: int)
    ensures Initial == FsAccuracy.Initial
    ensures Revalidate(a, mtime) == FsAccuracy.Revalidate(a, mtime)
    ensures RevalidateFractional(a) == FsAccuracy.RevalidateFractional(a)
  {
  }

  /** Once this copy's value is 1 it stays 1. */
  lemma FinestIsFixed(mtime: int)
    ensures Revalidate(1, mtime) == 1
  {
  }
}
