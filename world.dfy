/** Values shared by the entity and player systems: optional values, the
    2D and 3D vectors of the game's transforms (f32 modelled as real, NaN
    excluded), the clamp on scalars, rotations, the Transform component and
    the size of the game world. */
module World {

  datatype Option<T> = None | Some(value: T)

  datatype Vec2 = Vec2(x: real, y: real)

  datatype Vec3 = Vec3(x: real, y: real, z: real)

  const Zero2: Vec2 := Vec2(0.0, 0.0)
  const Zero3: Vec3 := Vec3(0.0, 0.0, 0.0)

  /** Half-width of the square world: the GameWorld resource is created with border 500. */
  const Border: real := 500.0

  function Add(a: Vec3, b: Vec3): Vec3 {
    Vec3(a.x + b.x, a.y + b.y, a.z + b.z)
  }

  function Sub2(a: Vec2, b: Vec2): Vec2 {
    Vec2(a.x - b.x, a.y - b.y)
  }

  function Half(v: Vec2): Vec2 {
    Vec2(v.x / 2.0, v.y / 2.0)
  }

  /** Rust's f32::clamp: it panics unless lo <= hi, which is the requires here;
      below lo it gives lo, above hi it gives hi, otherwise the value itself. */
  function Clamp(v: real, lo: real, hi: real): (r: real)
    requires lo <= hi
    ensures lo <= r <= hi
    ensures lo <= v <= hi ==> r == v
    ensures v < lo ==> r == lo
    ensures hi < v ==> r == hi
  {
    if v < lo then lo else if v > hi then hi else v
  }

  /** Clamp is the projection onto [lo, hi]: no point of the interval is closer to v. */
  lemma ClampIsNearest(v: real, lo: real, hi: real, w: real)
    requires lo <= hi && lo <= w <= hi
    ensures Abs(Clamp(v, lo, hi) - v) <= Abs(w - v)
  {
  }

  /** Clamping a clamped value changes nothing. */
  lemma ClampIdempotent(v: real, lo: real, hi: real)
    requires lo <= hi
    ensures Clamp(Clamp(v, lo, hi), lo, hi) == Clamp(v, lo, hi)
  {
  }

  function Abs(v: real): real {
    if v < 0.0 then -v else v
  }

  /** A rotation. The player's rotation is the quaternion turning the screen's
      up axis towards the cursor offset; the trigonometry behind it is not
      modelled, so the rotation is kept as the offset it was computed from. */
  datatype Rotation = Identity | TowardCursor(offset: Vec2)

  /** The part of Bevy's Transform component the game reads or writes
      (scale is never touched and is left out). */
  class Transform {
    var translation: Vec3
    var rotation: Rotation

    /** Transform::from_translation: the given translation, no rotation. */
    constructor FromTranslation(t: Vec3)
      ensures translation == t && rotation == Identity
    {
      translation := t;
      rotation := Identity;
    }
  }

  /** No object occurs twice: a Bevy query yields each matching entity once. */
  predicate Distinct(ts: seq<Transform>) {
    forall i, j :: 0 <= i < j < |ts| ==> ts[i] != ts[j]
  }

  /** No object is in both sequences: the queries' With/Without filters exclude each other. */
  predicate Disjoint(a: seq<Transform>, b: seq<Transform>) {
    forall i, j :: 0 <= i < |a| && 0 <= j < |b| ==> a[i] != b[j]
  }
}
