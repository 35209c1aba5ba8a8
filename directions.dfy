// Planar directions. Unity's Vector3 is reduced to its ground-plane (x, z)
// components; the y component is zeroed by every caller before quantising.

module Directions {

  datatype Vec2 = Vec2(x: real, z: real)

  function Abs(r: real): real { if r < 0.0 then -r else r }

  function Dot(a: Vec2, b: Vec2): real { a.x * b.x + a.z * b.z }

  const Forward := Vec2(0.0, 1.0)
  const Back := Vec2(0.0, -1.0)
  const Left := Vec2(-1.0, 0.0)
  const Right := Vec2(1.0, 0.0)
  const Zero := Vec2(0.0, 0.0)

  function Scale(v: Vec2, k: real): Vec2 { Vec2(v.x * k, v.z * k) }

  /** Whether Vector3.normalized keeps a vector, that is whether its
      magnitude exceeds `eps`, compared through the squared magnitude. */
  predicate Normalisable(v: Vec2, eps: real)
  {
    v.x * v.x + v.z * v.z > eps * eps
  }

  /** The four unit axes of grid movement. */
  predicate IsAxis(v: Vec2)
  {
    v == Forward || v == Back || v == Left || v == Right
  }

  /** GetClosest4Direction: the axis of the larger component, by its sign; a
      tie goes to the z axis, and a zero component counts as negative. */
  function Closest4Direction(v: Vec2): (r: Vec2)
    ensures IsAxis(r)
    ensures Abs(v.x) > Abs(v.z) ==> r.z == 0.0 && (r == Right <==> v.x > 0.0)
    ensures Abs(v.x) <= Abs(v.z) ==> r.x == 0.0 && (r == Forward <==> v.z > 0.0)
  {
    if Abs(v.x) > Abs(v.z) then (if v.x > 0.0 then Right else Left)
    else (if v.z > 0.0 then Forward else Back)
  }

  /** The chosen axis is a closest one: no axis has a larger dot product. */
  lemma Closest4IsClosest(v: Vec2, a: Vec2)
    requires IsAxis(a)
    ensures Dot(v, Closest4Direction(v)) >= Dot(v, a)
  {
  }

  /** Quantising ignores the length of the vector. */
  lemma Closest4ScaleInvariant(v: Vec2, k: real)
    requires k > 0.0
    ensures Closest4Direction(Scale(v, k)) == Closest4Direction(v)
  {
    var w := Scale(v, k);
    assert Abs(w.x) == Abs(v.x) * k && Abs(w.z) == Abs(v.z) * k;
    var gap := Abs(v.x) - Abs(v.z);
    assert Abs(w.x) - Abs(w.z) == gap * k;
    if gap > 0.0 {
      assert gap * k > 0.0;
    } else {
      assert gap * k <= 0.0;
    }
    assert w.x > 0.0 <==> v.x > 0.0;
    assert w.z > 0.0 <==> v.z > 0.0;
  }

  /** The axis closest to the reverse of `h` never points toward `h`. */
  lemma AwayAxisNeverToward(h: Vec2)
    ensures Dot(Closest4Direction(Scale(h, -1.0)), h) <= 0.0
  {
    var away := Scale(h, -1.0);
    assert away.x == -h.x && away.z == -h.z;
    var c := Closest4Direction(away);
    if Abs(away.x) > Abs(away.z) {
      if away.x > 0.0 {
        assert c == Right && Dot(Right, h) == h.x;
      } else {
        assert c == Left && Dot(Left, h) == -h.x;
      }
    } else {
      if away.z > 0.0 {
        assert c == Forward && Dot(Forward, h) == h.z;
      } else {
        assert c == Back && Dot(Back, h) == -h.z;
      }
    }
  }

  /** The two directions CircleTarget alternates between, indexed by its
      counter: right, then left, each already one of the four axes. */
  function CircleDirection(i: nat): (r: Vec2)
    ensures r == Right || r == Left
    ensures Closest4Direction(r) == r
  {
    if i % 2 == 0 then Right else Left
  }

  /** Each CircleTarget step reverses the previous one, and every second step
      repeats it. */
  lemma CircleAlternates(i: nat)
    ensures CircleDirection(i + 1) == Scale(CircleDirection(i), -1.0)
    ensures CircleDirection(i + 2) == CircleDirection(i)
  {
  }
}
