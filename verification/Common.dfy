/** Small shared vocabulary: optional and fallible values. */
module Common {

  datatype Option<+T> = None | Some(value: T)

  datatype Result<+T, +E> = Ok(value: T) | Err(error: E)

  function Min(a: int, b: int): int {
    if a <= b then a else b
  }

  function Max(a: int, b: int): int {
    if a >= b then a else b
  }

  function Pow2(n: nat): (p: nat)
    ensures p >= 1
  {
    if n == 0 then 1 else 2 * Pow2(n - 1)
  }

  /** The first n elements, or all of them when there are fewer. */
  function Prefix<T>(s: seq<T>, n: nat): seq<T> {
    if |s| <= n then s else s[..n]
  }

  /** x is the first of the values that is not empty, or empty when all are. */
  ghost predicate FirstFilled<T>(xs: seq<T>, empty: T, x: T) {
    || (x == empty && forall i :: 0 <= i < |xs| ==> xs[i] == empty)
    || (x != empty && exists i :: 0 <= i < |xs| && xs[i] == x && forall j :: 0 <= j < i ==> xs[j] == empty)
  }

  /** x is the last of the values that is not empty, or empty when all are. */
  ghost predicate LastFilled<T>(xs: seq<T>, empty: T, x: T) {
    || (x == empty && forall i :: 0 <= i < |xs| ==> xs[i] == empty)
    || (x != empty && exists i :: 0 <= i < |xs| && xs[i] == x && forall j :: i < j < |xs| ==> xs[j] == empty)
  }

  /** x is the first of the longest values. */
  ghost predicate FirstLongest<T>(xs: seq<seq<T>>, x: seq<T>) {
    && (forall i :: 0 <= i < |xs| ==> |xs[i]| <= |x|)
    && exists i :: 0 <= i < |xs| && xs[i] == x && forall j :: 0 <= j < i ==> |xs[j]| < |x|
  }

  lemma FirstFilledSnoc<T>(xs: seq<T>, empty: T, x: T, next: T)
    requires FirstFilled(xs, empty, x)
    ensures FirstFilled(xs + [next], empty, if x == empty then next else x)
  {
    var all := xs + [next];
    assert all[|xs|] == next;
    if x != empty {
      var i :| 0 <= i < |xs| && xs[i] == x && forall j :: 0 <= j < i ==> xs[j] == empty;
      assert all[i] == x;
    }
  }

  lemma LastFilledSnoc<T>(xs: seq<T>, empty: T, x: T, next: T)
    requires LastFilled(xs, empty, x)
    ensures LastFilled(xs + [next], empty, if next != empty then next else x)
  {
    var all := xs + [next];
    assert all[|xs|] == next;
    if next == empty && x != empty {
      var i :| 0 <= i < |xs| && xs[i] == x && forall j :: i < j < |xs| ==> xs[j] == empty;
      assert all[i] == x;
    }
  }

  lemma FirstLongestSnoc<T>(xs: seq<seq<T>>, x: seq<T>, next: seq<T>)
    requires FirstLongest(xs, x)
    ensures FirstLongest(xs + [next], if |next| > |x| then next else x)
  {
    var all := xs + [next];
    assert all[|xs|] == next;
    if |next| <= |x| {
      var i :| 0 <= i < |xs| && xs[i] == x && forall j :: 0 <= j < i ==> |xs[j]| < |x|;
      assert all[i] == x;
    }
  }
}
