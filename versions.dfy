/**
  Release versions as the selector compares them (`packaging.version.Version`,
  restricted to final releases, PEP 440 "Final releases").

  A release is its sequence of numeric segments (`10.0.10240` is `[10, 0, 10240]`).
  Two releases compare segment by segment from the left, a missing trailing
  segment counting as zero, so `10.14` and `10.14.0` are equal.
 */
module Versions {

  type Release = seq<nat>

  datatype Ordering = Less | Equal | Greater

  function Flip(o: Ordering): Ordering
  {
    match o
    case Less => Greater
    case Equal => Equal
    case Greater => Less
  }

  /** Segment `i` of `v`, zero past its end. */
  function Segment(v: Release, i: nat): nat
  {
    if i < |v| then v[i] else 0
  }

  /** `v` without its first segment (empty stays empty). */
  function Rest(v: Release): (r: Release)
    ensures forall i: nat :: Segment(r, i) == Segment(v, i + 1)
  {
    if v == [] then [] else v[1..]
  }

  /** Release comparison with zero padding, one segment at a time. */
  function Compare(a: Release, b: Release): (r: Ordering)
    ensures a == b ==> r == Equal
    ensures r == Equal ==> Segment(a, 0) == Segment(b, 0)
    ensures r == Less ==> Segment(a, 0) <= Segment(b, 0)
    decreases |a| + |b|
  {
    if a == [] && b == [] then Equal
    else if Segment(a, 0) < Segment(b, 0) then Less
    else if Segment(a, 0) > Segment(b, 0) then Greater
    else Compare(Rest(a), Rest(b))
  }

  /** `Version(a) >= Version(b)` for final releases. */
  predicate AtLeast(a: Release, b: Release): (r: bool)
    ensures a == b ==> r
    ensures Segment(a, 0) > Segment(b, 0) ==> r
    ensures Segment(a, 0) < Segment(b, 0) ==> !r
  {
    Compare(a, b) != Less
  }

  // ---------------------------------------------------------------------------
  // Reference definition: how `packaging` builds its comparison key. It drops
  // the trailing zeros of the release and compares the remaining tuples the
  // way Python compares tuples (lexicographically, a proper prefix first).
  // ---------------------------------------------------------------------------

  /** The release with its trailing zeros removed. */
  function StripTrailingZeros(v: Release): (r: Release)
    ensures |r| <= |v| && r == v[..|r|]
    ensures r == [] || r[|r| - 1] != 0
    ensures forall i :: |r| <= i < |v| ==> v[i] == 0
  {
    if |v| > 0 && v[|v| - 1] == 0 then StripTrailingZeros(v[..|v| - 1]) else v
  }

  /** Python's ordering of two tuples of integers. */
  function TupleCompare(a: seq<nat>, b: seq<nat>): (r: Ordering)
    ensures r == Equal <==> a == b
    decreases |a|
  {
    if a == [] && b == [] then Equal
    else if a == [] then Less
    else if b == [] then Greater
    else if a[0] < b[0] then Less
    else if a[0] > b[0] then Greater
    else
      assert a == [a[0]] + a[1..] && b == [b[0]] + b[1..];
      TupleCompare(a[1..], b[1..])
  }

  /** The key of a release with its first segment split off. */
  lemma StripFirst(v: Release)
    ensures StripTrailingZeros(v) ==
      if Segment(v, 0) == 0 && StripTrailingZeros(Rest(v)) == [] then []
      else [Segment(v, 0)] + StripTrailingZeros(Rest(v))
  {
  }

  /** The padded comparison agrees with `packaging`'s key comparison. */
  lemma {:induction false} CompareMatchesPackaging(a: Release, b: Release)
    ensures Compare(a, b) == TupleCompare(StripTrailingZeros(a), StripTrailingZeros(b))
    decreases |a| + |b|
  {
    StripFirst(a);
    StripFirst(b);
    if !(a == [] && b == []) && Segment(a, 0) == Segment(b, 0) {
      CompareMatchesPackaging(Rest(a), Rest(b));
      var sa, sb := StripTrailingZeros(Rest(a)), StripTrailingZeros(Rest(b));
      if Segment(a, 0) != 0 || (sa != [] && sb != []) {
        var x := Segment(a, 0);
        assert ([x] + sa)[1..] == sa && ([x] + sb)[1..] == sb;
      }
    }
  }

  // ---------------------------------------------------------------------------
  // Order properties
  // ---------------------------------------------------------------------------

  /** Two releases compare equal exactly when every padded segment agrees. */
  lemma {:induction false} EqualIffSameSegments(a: Release, b: Release)
    ensures Compare(a, b) == Equal <==> forall i: nat :: Segment(a, i) == Segment(b, i)
    decreases |a| + |b|
  {
    if a == [] && b == [] {
    } else if Segment(a, 0) != Segment(b, 0) {
    } else {
      EqualIffSameSegments(Rest(a), Rest(b));
      if Compare(a, b) == Equal {
        forall i: nat ensures Segment(a, i) == Segment(b, i) {
          if i > 0 {
            assert Segment(Rest(a), i - 1) == Segment(Rest(b), i - 1);
          }
        }
      }
    }
  }

  /** Trailing zeros never change the outcome: `10.14.0` compares like `10.14`. */
  lemma {:induction false} TrailingZeroIgnored(a: Release, b: Release)
    ensures Compare(a + [0], b) == Compare(a, b)
    decreases |a| + |b|
  {
    if a == [] {
      assert Rest([0]) == [];
      if b != [] && Segment(b, 0) == 0 {
        TrailingZeroIgnored([], Rest(b));
        assert Rest(b) == [] ==> Compare([], Rest(b)) == Equal;
      }
    } else {
      assert Rest(a + [0]) == Rest(a) + [0];
      assert Segment(a + [0], 0) == Segment(a, 0);
      if Segment(a, 0) == Segment(b, 0) {
        TrailingZeroIgnored(Rest(a), Rest(b));
      }
    }
  }

  /** Swapping the operands flips the outcome. */
  lemma {:induction false} CompareAntisymmetric(a: Release, b: Release)
    ensures Compare(b, a) == Flip(Compare(a, b))
    decreases |a| + |b|
  {
    if !(a == [] && b == []) && Segment(a, 0) == Segment(b, 0) {
      CompareAntisymmetric(Rest(a), Rest(b));
    }
  }

  /** `>=` on releases is transitive. */
  lemma {:induction false} AtLeastTransitive(a: Release, b: Release, c: Release)
    requires AtLeast(a, b) && AtLeast(b, c)
    ensures AtLeast(a, c)
    decreases |a| + |b| + |c|
  {
    if a == [] && c == [] {
    } else if Segment(a, 0) == Segment(b, 0) == Segment(c, 0) {
      AtLeastTransitive(Rest(a), Rest(b), Rest(c));
    }
  }

  /** `>=` on releases is total. */
  lemma AtLeastTotal(a: Release, b: Release)
    ensures AtLeast(a, b) || AtLeast(b, a)
  {
    CompareAntisymmetric(a, b);
  }
}
