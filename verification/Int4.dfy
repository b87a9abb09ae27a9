/** Group-wise 4-bit quantization of a weight matrix, over exact reals. */
module Int4 {

  // The largest finite single-precision value.
  const F32_MAX: real := 340282346638528859811704183484516925440.0

  // ---------------------------------------------------------------- one group

  /** Minimum and maximum as folded in the source, starting from the extreme values. */
  function MinOf(vs: seq<real>): real {
    if vs == [] then F32_MAX
    else var m := MinOf(vs[..|vs| - 1]); if vs[|vs| - 1] < m then vs[|vs| - 1] else m
  }

  function MaxOf(vs: seq<real>): real {
    if vs == [] then -F32_MAX
    else var m := MaxOf(vs[..|vs| - 1]); if vs[|vs| - 1] > m then vs[|vs| - 1] else m
  }

  /** Round to nearest, halves away from zero. */
  function Round(x: real): int {
    if x >= 0.0 then (x + 0.5).Floor else -((-x + 0.5).Floor)
  }

  /** Rounded and clamped to the four-bit range. */
  function Clamp15(x: real): (q: nat)
    ensures q <= 15
  {
    var r := Round(x);
    if r < 0 then 0 else if r > 15 then 15 else r
  }

  function Scale(lo: real, hi: real): (s: real)
    ensures s > 0.0
  {
    if hi - lo > 0.0000000001 then (hi - lo) / 15.0 else 1.0
  }

  function ZeroPoint(lo: real, scale: real): (z: nat)
    requires scale > 0.0
    ensures z <= 15
  {
    Clamp15(-lo / scale)
  }

  function Quantized(v: real, scale: real, zero: nat): (q: nat)
    requires scale > 0.0
    ensures q <= 15
  {
    Clamp15(v / scale + zero as real)
  }

  function Dequantized(q: nat, scale: real, zero: nat): real {
    (q as real - zero as real) * scale
  }

  /** What a value becomes after quantization in its group and back. */
  function Restored(v: real, group: seq<real>): real {
    var scale := Scale(MinOf(group), MaxOf(group));
    var zero := ZeroPoint(MinOf(group), scale);
    Dequantized(Quantized(v, scale, zero), scale, zero)
  }

  function Abs(x: real): real {
    if x < 0.0 then -x else x
  }

  /** Within half a step of the group's scale. */
  predicate Close(v: real, group: seq<real>) {
    Abs(Restored(v, group) - v) <= Scale(MinOf(group), MaxOf(group)) / 2.0
  }

  predicate Finite(vs: seq<real>) {
    forall i | 0 <= i < |vs| :: -F32_MAX <= vs[i] <= F32_MAX
  }

  lemma {:induction false} ExtremesBound(vs: seq<real>)
    requires Finite(vs)
    ensures forall i | 0 <= i < |vs| :: MinOf(vs) <= vs[i] <= MaxOf(vs)
    ensures vs != []
      ==> (exists i :: 0 <= i < |vs| && vs[i] == MinOf(vs)) && (exists i :: 0 <= i < |vs| && vs[i] == MaxOf(vs))
  {
    if vs != [] {
      var init, last := vs[..|vs| - 1], vs[|vs| - 1];
      ExtremesBound(init);
      if |vs| > 1 {
        var i :| 0 <= i < |init| && init[i] == MinOf(init);
        var j :| 0 <= j < |init| && init[j] == MaxOf(init);
        assert vs[i] == MinOf(init) && vs[j] == MaxOf(init);
      }
      assert vs[|vs| - 1] == last;
    }
  }

  lemma RoundError(x: real)
    ensures Abs(Round(x) as real - x) <= 0.5
  {
  }

  /** Rounding and clamping cost at most one half exactly on the interval from -1/2 to 15 1/2. */
  lemma ClampError(x: real)
    ensures Abs(Clamp15(x) as real - x) <= 0.5 <==> -0.5 <= x <= 15.5
  {
    RoundError(x);
  }

  lemma DivideBy(v: real, scale: real, zero: nat, q: nat)
    requires scale > 0.0
    ensures Dequantized(q, scale, zero) - v == (q as real - (v / scale + zero as real)) * scale
  {
    assert v / scale * scale == v;
  }

  lemma ScaledBound(e: real, scale: real)
    requires scale > 0.0
    ensures Abs(e * scale) <= scale / 2.0 <==> Abs(e) <= 0.5
  {
    if Abs(e) <= 0.5 {
      assert -0.5 * scale <= e * scale <= 0.5 * scale;
    } else if e > 0.5 {
      assert e * scale > 0.5 * scale;
    } else {
      assert e * scale < -0.5 * scale;
    }
  }

  /**
   * A value is restored within half a step exactly when its scaled position lands within half a step of the code range.
   */
  lemma CloseIff(v: real, scale: real, zero: nat)
    requires scale > 0.0
    ensures Abs(Dequantized(Quantized(v, scale, zero), scale, zero) - v) <= scale / 2.0
      <==> -0.5 <= v / scale + zero as real <= 15.5
  {
    var x := v / scale + zero as real;
    var q := Quantized(v, scale, zero);
    DivideBy(v, scale, zero, q);
    var e := q as real - x;
    assert Dequantized(q, scale, zero) - v == e * scale;
    ScaledBound(e, scale);
    ClampError(x);
  }

  lemma ClampBelow(a: real)
    ensures -a + Clamp15(a) as real >= -0.5 <==> a <= 15.5
  {
    RoundError(a);
  }

  lemma ClampAbove(a: real, b: real)
    requires a + b <= 15.0
    ensures b + Clamp15(a) as real <= 15.5 <==> b <= 15.5
  {
    RoundError(a);
  }

  lemma ScaleFacts(lo: real, hi: real)
    requires lo <= hi
    ensures var s := Scale(lo, hi);
      && (-lo) / s == -(lo / s) && -lo / s + hi / s <= 15.0
      && (-lo / s <= 15.5 <==> -15.5 * s <= lo) && (hi / s <= 15.5 <==> hi <= 15.5 * s)
  {
    var s := Scale(lo, hi);
    assert lo == lo / s * s && hi == hi / s * s;
    assert hi - lo <= 15.0 * s;
    DivideLe(hi - lo, s, 15.0);
    DivideLe(hi, s, 15.5);
    DivideLe(-lo, s, 15.5);
    assert (hi - lo) / s == hi / s - lo / s;
  }

  lemma DivideLe(a: real, s: real, c: real)
    requires s > 0.0
    ensures a / s <= c <==> a <= c * s
  {
    assert a == a / s * s;
    if a / s <= c {
      assert a / s * s <= c * s;
    } else {
      assert a / s * s > c * s;
    }
  }

  lemma DivideMonotone(a: real, b: real, s: real)
    requires s > 0.0 && a <= b
    ensures a / s <= b / s
  {
    assert b == b / s * s;
    DivideLe(a, s, b / s);
  }

  /** The range of a group stays within 15 1/2 steps of zero. */
  predicate NearZero(group: seq<real>) {
    var lo, hi := MinOf(group), MaxOf(group);
    -15.5 * Scale(lo, hi) <= lo && hi <= 15.5 * Scale(lo, hi)
  }

  /** Exactly when a group is restored within half a step everywhere: its range must stay near zero. */
  lemma GroupCloseIff(group: seq<real>)
    requires group != [] && Finite(group)
    ensures (forall i | 0 <= i < |group| :: Close(group[i], group)) <==> NearZero(group)
  {
    var lo, hi := MinOf(group), MaxOf(group);
    var s := Scale(lo, hi);
    var z := ZeroPoint(lo, s);
    ExtremesBound(group);
    ScaleFacts(lo, hi);
    ClampBelow(-lo / s);
    ClampAbove(-lo / s, hi / s);
    assert NearZero(group) <==> lo / s + z as real >= -0.5 && hi / s + z as real <= 15.5;
    forall i | 0 <= i < |group|
      ensures Close(group[i], group) <==> -0.5 <= group[i] / s + z as real <= 15.5
      ensures lo / s <= group[i] / s <= hi / s
    {
      CloseIff(group[i], s, z);
      DivideMonotone(lo, group[i], s);
      DivideMonotone(group[i], hi, s);
    }
    var i :| 0 <= i < |group| && group[i] == lo;
    var j :| 0 <= j < |group| && group[j] == hi;
  }

  /**
   * The bound in terms of the group's extremes alone: within a thirtieth of the range, or within one half when the
   * range is at most 1e-10.
   */
  lemma RangeCloseIff(group: seq<real>, lo: real, hi: real)
    requires Finite(group) && lo in group && hi in group && forall v | v in group :: lo <= v <= hi
    ensures hi - lo > 0.0000000001 ==>
      ((forall v | v in group :: Abs(Restored(v, group) - v) <= (hi - lo) / 30.0)
        <==> -15.5 / 15.0 * (hi - lo) <= lo && hi <= 15.5 / 15.0 * (hi - lo))
    ensures hi - lo <= 0.0000000001 ==>
      ((forall v | v in group :: Abs(Restored(v, group) - v) <= 0.5) <==> -15.5 <= lo && hi <= 15.5)
  {
    ExtremesAre(group, lo, hi);
    GroupCloseIff(group);
    assert Scale(lo, hi) / 2.0 == if hi - lo > 0.0000000001 then (hi - lo) / 30.0 else 0.5;
    hide Restored, MinOf, MaxOf, Abs, Scale;
    forall v | v in group
      ensures Close(v, group) <==> Abs(Restored(v, group) - v) <= Scale(lo, hi) / 2.0
    {
    }
    assert (forall v | v in group :: Close(v, group)) <==> NearZero(group);
  }

  lemma ExtremesAre(group: seq<real>, lo: real, hi: real)
    requires Finite(group) && lo in group && hi in group && forall v | v in group :: lo <= v <= hi
    ensures MinOf(group) == lo && MaxOf(group) == hi
  {
    ExtremesBound(group);
    var i :| 0 <= i < |group| && group[i] == MinOf(group);
    var j :| 0 <= j < |group| && group[j] == MaxOf(group);
    assert group[i] in group && group[j] in group;
  }

  /** Halves are rounded away from zero. */
  lemma RoundHalves(n: nat)
    ensures Round(n as real + 0.5) == n + 1 && Round(-(n as real) - 0.5) == -(n + 1)
  {
  }

  /** In particular a group whose range contains zero is always restored within half a step. */
  lemma SpanningZeroIsNear(group: seq<real>)
    requires group != [] && Finite(group) && MinOf(group) <= 0.0 <= MaxOf(group)
    ensures NearZero(group)
  {
    var lo, hi := MinOf(group), MaxOf(group);
    if hi - lo > 0.0000000001 {
      assert 15.0 * Scale(lo, hi) == hi - lo;
    }
  }

  /** A group far from zero fails: of 100 and 101, whose step is one fifteenth, 100 comes back as 1. */
  lemma FarGroupSaturates()
    ensures var group := [100.0, 101.0];
      && MinOf(group) == 100.0 && MaxOf(group) == 101.0
      && !NearZero(group) && Restored(100.0, group) == 1.0 && !Close(100.0, group)
  {
    var group := [100.0, 101.0];
    var one: seq<real> := [100.0];
    assert group[..1] == one && one[..0] == [];
    assert MinOf(one) == 100.0 && MaxOf(one) == 100.0;
    assert MinOf(group) == 100.0 && MaxOf(group) == 101.0;
    var s := Scale(100.0, 101.0);
    assert s == 1.0 / 15.0 && -100.0 / s == -1500.0 && 100.0 / s == 1500.0;
    assert ZeroPoint(100.0, s) == 0 && Quantized(100.0, s, 0) == 15;
  }
}
