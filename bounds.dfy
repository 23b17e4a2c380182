/**
 * The axis-aligned bounding box the OBJ loader keeps: a running component-wise
 * minimum and maximum over every vertex position it has folded in, starting from
 * the empty box (FLT_MAX, -FLT_MAX), plus the centre and radius derived from it.
 */
module Bounds {
  import opened Geometry

  /** The largest finite single-precision float, (2 - 2^-23) * 2^127, exactly. */
  const FltMax: real := 340282346638528859811704183484516925440.0

  /** The initial box: minimum at +FLT_MAX and maximum at -FLT_MAX on every axis. */
  const EmptyMin: Vec3 := Vec3(FltMax, FltMax, FltMax)
  const EmptyMax: Vec3 := Vec3(-FltMax, -FltMax, -FltMax)

  /** A position whose coordinates are finite single-precision values. */
  predicate Finite(p: Vec3) {
    -FltMax <= p.x <= FltMax && -FltMax <= p.y <= FltMax && -FltMax <= p.z <= FltMax
  }

  predicate InBox(p: Vec3, lo: Vec3, hi: Vec3) { LessEq(lo, p) && LessEq(p, hi) }

  /** The minimum after folding the positions ps, in order, into lo. */
  function FoldMin(lo: Vec3, ps: seq<Vec3>): Vec3
    decreases |ps|
  {
    if ps == [] then lo else Min(FoldMin(lo, ps[..|ps| - 1]), ps[|ps| - 1])
  }

  /** The maximum after folding the positions ps, in order, into hi. */
  function FoldMax(hi: Vec3, ps: seq<Vec3>): Vec3
    decreases |ps|
  {
    if ps == [] then hi else Max(FoldMax(hi, ps[..|ps| - 1]), ps[|ps| - 1])
  }

  /** After the fold, every folded position lies within the box. */
  lemma {:induction false} FoldContains(lo: Vec3, hi: Vec3, ps: seq<Vec3>)
    ensures forall i :: 0 <= i < |ps| ==> InBox(ps[i], FoldMin(lo, ps), FoldMax(hi, ps))
    decreases |ps|
  {
    if ps != [] {
      var init := ps[..|ps| - 1];
      FoldContains(lo, hi, init);
      forall i | 0 <= i < |ps| ensures InBox(ps[i], FoldMin(lo, ps), FoldMax(hi, ps)) {
        if i < |ps| - 1 {
          assert ps[i] == init[i];
        }
      }
    }
  }

  /** The minimum never increases and the maximum never decreases. */
  lemma {:induction false} FoldMonotone(lo: Vec3, hi: Vec3, ps: seq<Vec3>)
    ensures LessEq(FoldMin(lo, ps), lo)
    ensures LessEq(hi, FoldMax(hi, ps))
    decreases |ps|
  {
    if ps != [] {
      FoldMonotone(lo, hi, ps[..|ps| - 1]);
    }
  }

  /**
   * The fold computes the greatest lower bound: any point below the starting
   * minimum and below every folded position is below the result; dually for the
   * maximum.
   */
  lemma {:induction false} FoldTight(lo: Vec3, hi: Vec3, ps: seq<Vec3>, b: Vec3)
    ensures (LessEq(b, lo) && forall i :: 0 <= i < |ps| ==> LessEq(b, ps[i])) ==> LessEq(b, FoldMin(lo, ps))
    ensures (LessEq(hi, b) && forall i :: 0 <= i < |ps| ==> LessEq(ps[i], b)) ==> LessEq(FoldMax(hi, ps), b)
    decreases |ps|
  {
    if ps != [] {
      var init := ps[..|ps| - 1];
      FoldTight(lo, hi, init, b);
      if forall i :: 0 <= i < |ps| ==> LessEq(b, ps[i]) {
        assert forall i :: 0 <= i < |init| ==> LessEq(b, init[i]) by {
          forall i | 0 <= i < |init| ensures LessEq(b, init[i]) { assert init[i] == ps[i]; }
        }
      }
      if forall i :: 0 <= i < |ps| ==> LessEq(ps[i], b) {
        assert forall i :: 0 <= i < |init| ==> LessEq(init[i], b) by {
          forall i | 0 <= i < |init| ensures LessEq(init[i], b) { assert init[i] == ps[i]; }
        }
      }
    }
  }

  /** Folding a then b is folding a + b: successive folds over several meshes compose. */
  lemma {:induction false} FoldAppend(lo: Vec3, hi: Vec3, a: seq<Vec3>, b: seq<Vec3>)
    ensures FoldMin(lo, a + b) == FoldMin(FoldMin(lo, a), b)
    ensures FoldMax(hi, a + b) == FoldMax(FoldMax(hi, a), b)
    decreases |b|
  {
    if b == [] {
      assert a + b == a;
    } else {
      var b' := b[..|b| - 1];
      FoldAppend(lo, hi, a, b');
      assert (a + b)[..|a + b| - 1] == a + b';
    }
  }

  /** Folding one finite position into the empty box makes the box that position. */
  lemma FirstPointFromEmpty(p: Vec3)
    requires Finite(p)
    ensures FoldMin(EmptyMin, [p]) == p && FoldMax(EmptyMax, [p]) == p
  {
    assert [p][..0] == [];
  }

  /** The component-wise midpoint of the box, as `(min + max) * 0.5`. */
  function Center(lo: Vec3, hi: Vec3): (c: Vec3)
    ensures Sub(c, lo) == Sub(hi, c)
    ensures LessEq(lo, hi) ==> InBox(c, lo, hi)
  {
    Scale(Add(lo, hi), 0.5)
  }

  /**
   * The square of the radius `length(max - min) * 0.5`; square roots are not
   * modelled. It is the squared distance from the centre to either corner.
   */
  function RadiusSquared(lo: Vec3, hi: Vec3): (r: real)
    ensures r >= 0.0
    ensures r == SquaredLength(Sub(hi, Center(lo, hi)))
    ensures r == SquaredLength(Sub(lo, Center(lo, hi)))
  {
    SquaredLength(Sub(hi, lo)) * 0.25
  }

  lemma AxisWithinHalf(l: real, h: real, v: real)
    requires l <= v <= h
    ensures (v - (l + h) * 0.5) * (v - (l + h) * 0.5) <= (h - l) * (h - l) * 0.25
  {
    var d := v - (l + h) * 0.5;
    var e := (h - l) * 0.5;
    assert -e <= d <= e;
    assert d * d <= e * e by {
      if d >= 0.0 {
        assert d * d <= d * e;
        assert d * e <= e * e;
      } else {
        assert d * d <= -d * e;
        assert -d * e <= e * e;
      }
    }
  }

  /** Every point of the box lies within the sphere of that radius around the centre. */
  lemma BoxInSphere(lo: Vec3, hi: Vec3, p: Vec3)
    requires InBox(p, lo, hi)
    ensures SquaredLength(Sub(p, Center(lo, hi))) <= RadiusSquared(lo, hi)
  {
    AxisWithinHalf(lo.x, hi.x, p.x);
    AxisWithinHalf(lo.y, hi.y, p.y);
    AxisWithinHalf(lo.z, hi.z, p.z);
  }
}
