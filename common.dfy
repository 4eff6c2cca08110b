/** Vocabulary shared by both marquee revisions: an optional value and the
    linear translation animation both of them attach to the label's layer. */
module Common {

  datatype Option<T> = None | Some(value: T)

  function Max(a: real, b: real): (m: real)
    ensures a <= m && b <= m && (m == a || m == b)
  {
    if a < b then b else a
  }

  function Min(a: real, b: real): (m: real)
    ensures m <= a && m <= b && (m == a || m == b)
  {
    if a < b then a else b
  }

  /** A `transform.translation.x` animation with linear timing, added at time
      `began`: it moves from `from` to `to` in `duration`, and since it is
      neither removed on completion nor unfilled it stays at `to` afterwards. */
  datatype Scroll = Scroll(from: real, to: real, duration: real, began: real)

  /** Velocity of an animation, in points per second. */
  function Velocity(s: Scroll): real
    requires s.duration > 0.0
  {
    (s.to - s.from) / s.duration
  }

  /** The horizontal offset the label shows at time `t`. Without an animation
      the layer shows its transform, which both revisions only ever set to
      the identity, so the offset is 0. */
  function OffsetAt(anim: Option<Scroll>, t: real): (x: real)
    requires anim.Some? ==> anim.value.duration > 0.0
    ensures anim.None? ==> x == 0.0
    ensures anim.Some? && t <= anim.value.began ==> x == anim.value.from
    ensures anim.Some? && anim.value.began + anim.value.duration <= t ==> x == anim.value.to
    ensures anim.Some? && anim.value.to <= anim.value.from ==> anim.value.to <= x <= anim.value.from
  {
    match anim
    case None => 0.0
    case Some(s) =>
      if t <= s.began then s.from
      else if s.began + s.duration <= t then s.to
      else
        VelocityBounds(s, t - s.began);
        s.from + Velocity(s) * (t - s.began)
  }

  /** Part way through an animation towards a smaller offset, the distance
      covered lies within the animation's span. */
  lemma VelocityBounds(s: Scroll, e: real)
    requires s.duration > 0.0 && 0.0 < e < s.duration
    ensures s.to <= s.from ==> s.to - s.from <= Velocity(s) * e <= 0.0
  {
    var v := Velocity(s);
    assert v * s.duration == s.to - s.from;
    if s.to <= s.from {
      assert v <= 0.0;
      assert v * e - v * s.duration == v * (e - s.duration);
      assert v * (e - s.duration) >= 0.0 by {
        assert -v >= 0.0 && s.duration - e > 0.0;
        assert (-v) * (s.duration - e) >= 0.0;
      }
      assert v * e <= 0.0 by {
        assert (-v) * e >= 0.0;
      }
    }
  }

  /** The animation runs at constant velocity (linear timing, no easing):
      between two instants inside it the offset changes by the velocity times
      the time that elapsed. */
  lemma {:induction false} OffsetIsLinear(s: Scroll, t1: real, t2: real)
    requires s.duration > 0.0
    requires s.began <= t1 <= s.began + s.duration
    requires s.began <= t2 <= s.began + s.duration
    ensures OffsetAt(Some(s), t2) - OffsetAt(Some(s), t1) == Velocity(s) * (t2 - t1)
  {
    var v := Velocity(s);
    assert v * s.duration == s.to - s.from;
    assert OffsetAt(Some(s), t1) == s.from + v * (t1 - s.began);
    assert OffsetAt(Some(s), t2) == s.from + v * (t2 - s.began);
    assert v * (t2 - s.began) - v * (t1 - s.began) == v * (t2 - t1);
  }

  /** An animation towards a smaller offset never moves back. */
  lemma {:induction false} OffsetNeverIncreases(s: Scroll, t1: real, t2: real)
    requires s.duration > 0.0 && s.to <= s.from
    requires t1 <= t2
    ensures OffsetAt(Some(s), t2) <= OffsetAt(Some(s), t1)
  {
    var lo := if t1 < s.began then s.began else if t1 > s.began + s.duration then s.began + s.duration else t1;
    var hi := if t2 < s.began then s.began else if t2 > s.began + s.duration then s.began + s.duration else t2;
    assert OffsetAt(Some(s), t1) == OffsetAt(Some(s), lo);
    assert OffsetAt(Some(s), t2) == OffsetAt(Some(s), hi);
    OffsetIsLinear(s, lo, hi);
    var v := Velocity(s);
    assert v <= 0.0 by {
      assert v * s.duration == s.to - s.from;
    }
    assert lo <= hi;
    NonNegativeProduct(-v, hi - lo);
  }

  lemma NonNegativeProduct(a: real, b: real)
    requires 0.0 <= a && 0.0 <= b
    ensures 0.0 <= a * b
  {
  }
}
