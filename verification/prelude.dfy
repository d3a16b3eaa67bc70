/** Small building blocks shared by the model: Rust's Option and Ordering, a
    way to say that a Rust call panicked, the fixed-width integer ranges the
    source uses, and integer sums with the lemmas the evaluator needs. */
module Prelude {

  datatype Option<T> = None | Some(value: T)

  /** std::cmp::Ordering */
  datatype Ordering = Less | Equal | Greater {
    function Reverse(): Ordering {
      match this
      case Less => Greater
      case Equal => Equal
      case Greater => Less
    }
  }

  /** The outcome of a call that may not return a usable result: Failed stands
      for a panic, or for handing the chess library a move that is not legal in
      the position (what the library then does is not part of this model). */
  datatype Outcome<T> = Returned(value: T) | Failed

  const I32_MIN: int := -0x8000_0000
  const I32_MAX: int := 0x7fff_ffff
  const U8_MAX: int := 0xff

  type I32 = x: int | I32_MIN <= x <= I32_MAX
  type U8 = x: int | 0 <= x <= U8_MAX

  /** Ord::cmp on Rust integers. */
  function CmpInt(x: int, y: int): (o: Ordering)
    ensures o == Less <==> x < y
    ensures o == Equal <==> x == y
    ensures o == Greater <==> x > y
  {
    if x < y then Less else if x == y then Equal else Greater
  }

  /** i32::max and i32::min. */
  function MaxInt(x: int, y: int): int { if x >= y then x else y }
  function MinInt(x: int, y: int): int { if x <= y then x else y }

  function Sum(s: seq<int>): int
  {
    if s == [] then 0 else Sum(s[..|s| - 1]) + s[|s| - 1]
  }

  lemma {:induction false} SumConcat(a: seq<int>, b: seq<int>)
    ensures Sum(a + b) == Sum(a) + Sum(b)
    decreases |b|
  {
    if b == [] {
      assert a + b == a;
    } else {
      var b' := b[..|b| - 1];
      assert (a + b)[..|a + b| - 1] == a + b';
      SumConcat(a, b');
    }
  }

  /** A sum of n terms each of magnitude at most bound has magnitude at most n * bound. */
  lemma {:induction false} SumBounded(s: seq<int>, bound: int)
    requires forall i :: 0 <= i < |s| ==> -bound <= s[i] <= bound
    ensures -|s| * bound <= Sum(s) <= |s| * bound
  {
    if s != [] {
      var s' := s[..|s| - 1];
      assert forall i :: 0 <= i < |s'| ==> s'[i] == s[i];
      SumBounded(s', bound);
      assert |s| * bound == |s'| * bound + bound;
    }
  }

  /** Extending a prefix by one element adds that element to its sum. */
  lemma SumPrefixStep(s: seq<int>, i: nat)
    requires i < |s|
    ensures Sum(s[..i + 1]) == Sum(s[..i]) + s[i]
  {
    assert s[..i + 1][..i] == s[..i];
  }
}
