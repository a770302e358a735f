/** The module-global timestamp-accuracy estimate of src/utils/fsAccuracy.js.
    The JavaScript keeps it in one mutable variable shared by every connector;
    here it is an explicit value that callers thread from call to call. */
module FsAccuracy {

  /** The value the variable holds when the module is loaded. */
  const Initial: int := 10000

  /** The values below the initial one that `revalidate` may move to from an
      integer mtime, finest first. */
  const Steps: seq<int> := [10, 100, 1000, 2000]

  /** The values the variable can ever hold. */
  predicate OnLadder(a: int) {
    a == 1 || a == 10 || a == 100 || a == 1000 || a == 2000 || a == 10000
  }

  /** `revalidate(mtime)` for an integer mtime: the new accuracy. The
      non-integer test of the source (`mtime % 1 !== 0`) never fires on an
      integer and is modelled by `RevalidateFractional`. JavaScript's `%`
      truncates while Dafny's is Euclidean, but only `!= 0` is tested, and
      divisibility does not depend on the sign. */
  function Revalidate(a: int, mtime: int): (r: int)
    ensures r <= a
    ensures OnLadder(a) ==> OnLadder(r)
    ensures r == a || r in Steps
  {
    if a == 1 then a
    else if a > 10 && mtime % 10 != 0 then 10
    else if a > 100 && mtime % 100 != 0 then 100
    else if a > 1000 && mtime % 1000 != 0 then 1000
    else if a > 2000 && mtime % 2000 != 0 then 2000
    else a
  }

  /** `revalidate(mtime)` for an mtime with a fractional part: the first test
      of the source fires and the value becomes 1. */
  function RevalidateFractional(a: int): (r: int)
    ensures a > 1 ==> r == 1
    ensures a <= 1 ==> r == a
  {
    if a == 1 then a
    else if a > 1 then 1
    else a
  }

  /** `get()`: the current value, read without changing it. */
  function Get(a: int): int {
    a
  }

  /** `revalidate` moves to the finest step below the current value that
      does not divide the mtime, and stays put when every such step divides
      it. */
  lemma RevalidateChoosesFinestStep(a: int, mtime: int)
    ensures var r := Revalidate(a, mtime);
      && (r == a || (r in Steps && r < a && mtime % r != 0))
      && (forall s :: s in Steps && s < r ==> mtime % s == 0)
      && (r == a ==> forall s :: s in Steps && s < a ==> mtime % s == 0)
  {
  }

  lemma InitialOnLadder()
    ensures OnLadder(Initial) && Initial == 10000
  {
  }

  /** Once the value is 1 it stays 1. */
  lemma FinestIsFixed(mtime: int)
    ensures Revalidate(1, mtime) == 1
    ensures RevalidateFractional(1) == 1
  {
  }

  /** Revalidating with the same mtime a second time changes nothing. */
  lemma RevalidateIdempotent(a: int, mtime: int)
    ensures Revalidate(Revalidate(a, mtime), mtime) == Revalidate(a, mtime)
  {
  }

  /** An integer mtime never drives the value down to 1. */
  lemma IntegerNeverFinest(a: int, mtime: int)
    requires OnLadder(a) && a != 1
    ensures Revalidate(a, mtime) >= 10
  {
  }

  /** Every ladder value below a ladder value divides it. */
  lemma LadderDivides(s: int, a: int)
    requires s in Steps && OnLadder(a) && s < a
    ensures a % s == 0
  {
  }

  /** A multiple of `a` is a multiple of every ladder step below `a`. */
  lemma MultipleOfFinerStep(m: int, a: int, s: int)
    requires s in Steps && OnLadder(a) && s < a && m % a == 0
    ensures m % s == 0
  {
    var q := m / a;
    assert m == a * q;
    var k := a / s;
    LadderDivides(s, a);
    assert m == s * (k * q);
  }

  /** An mtime that is a multiple of the current value leaves it unchanged. */
  lemma {:induction false} MultipleKeepsValue(a: int, mtime: int)
    requires OnLadder(a)
    requires mtime % a == 0
    ensures Revalidate(a, mtime) == a
  {
    forall s | s in Steps && s < a
      ensures mtime % s == 0
    {
      MultipleOfFinerStep(mtime, a, s);
    }
    RevalidateChoosesFinestStep(a, mtime);
  }
}
