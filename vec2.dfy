/** Two-dimensional vectors (civilwar/utils/vec2.py) over exact numbers.
    Every operation builds a new vector; none changes its operands. */
module Vec2 {
  import opened Common
  import opened Api

  datatype Vector2D = Vector2D(x: real, y: real)

  datatype VecError = ZeroDivision | IndexOutOfRange

  /** `v + w`, componentwise; subtracting `w` again gives `v` back. */
  function Add(v: Vector2D, w: Vector2D): (r: Vector2D)
    ensures Sub(r, w) == v
  {
    Vector2D(v.x + w.x, v.y + w.y)
  }

  /** `v - w`, componentwise; adding `w` again gives `v` back. */
  function Sub(v: Vector2D, w: Vector2D): (r: Vector2D)
    ensures Vector2D(r.x + w.x, r.y + w.y) == v
  {
    Vector2D(v.x - w.x, v.y - w.y)
  }

  /** `v * a`: both components scaled by `a`; dividing by a non-zero `a`
      gives `v` back, and the result is parallel to `v`. */
  function Mul(v: Vector2D, a: real): (r: Vector2D)
    ensures a != 0.0 ==> Vector2D(r.x / a, r.y / a) == v
    ensures r.x * v.y - r.y * v.x == 0.0
  {
    ScaleUndone(v.x, a);
    ScaleUndone(v.y, a);
    Vector2D(v.x * a, v.y * a)
  }

  /** Dividing by a non-zero factor undoes multiplying by it. */
  lemma ScaleUndone(x: real, a: real)
    ensures a != 0.0 ==> (x * a) / a == x
  {
  }

  /** `v / a`: both components divided by `a`; dividing by zero raises. */
  function Div(v: Vector2D, a: real): (r: Result<Vector2D, VecError>)
    ensures r.Err? <==> a == 0.0
    ensures r.Ok? ==> Mul(r.value, a) == v
  {
    if a == 0.0 then Err(ZeroDivision) else Ok(Vector2D(v.x / a, v.y / a))
  }

  /** `v[item]`: index 0 is x, index 1 is y, anything else raises IndexError. */
  function Get(v: Vector2D, item: int): (r: Result<real, VecError>)
    ensures item == 0 ==> r == Ok(v.x)
    ensures item == 1 ==> r == Ok(v.y)
    ensures item != 0 && item != 1 ==> r == Err(IndexOutOfRange)
  {
    if item == 0 then Ok(v.x) else if item == 1 then Ok(v.y) else Err(IndexOutOfRange)
  }

  /** `Vector2D.cross_multiply(v1, v2)`: zero for a vector with itself,
      and negated when the operands are swapped. */
  function Cross(v1: Vector2D, v2: Vector2D): (r: real)
    ensures v1 == v2 ==> r == 0.0
    ensures r == -(v2.x * v1.y - v2.y * v1.x)
  {
    v1.x * v2.y - v1.y * v2.x
  }

  /** `normalize()`, given `len`, the value `length()` computes; all the
      model needs of that square root is that it is zero exactly for the zero
      vector. A zero-length vector gives the zero vector; any other vector is
      divided by its length. */
  function Normalize(v: Vector2D, len: real): (r: Vector2D)
    requires len >= 0.0 && (len == 0.0 <==> v == Vector2D(0.0, 0.0))
    ensures r == Vector2D(0.0, 0.0) <==> v == Vector2D(0.0, 0.0)
    ensures len > 0.0 ==> Mul(r, len) == v
  {
    if len > 0.0 then Div(v, len).value else Vector2D(0.0, 0.0)
  }

  /** `to_json()`: a dict with keys x and y holding the stored components. */
  function ToJson(v: Vector2D): (r: Value)
    ensures r.VDict? && Keys(r.entries) == ["x", "y"]
    ensures Lookup(r.entries, "x") == Some(VFloat(v.x))
    ensures Lookup(r.entries, "y") == Some(VFloat(v.y))
  {
    VDict([("x", VFloat(v.x)), ("y", VFloat(v.y))])
  }

  /** A vector as the serializer sees it: a JsonSerializable object. */
  function AsSerializable(v: Vector2D): Value
  {
    VSerializable("utils.vec2.Vector2D", ToJson(v))
  }

  /** Serializing a vector yields exactly its `to_json()` dict. */
  lemma SerializeVector(v: Vector2D)
    ensures Serialized(AsSerializable(v)) == ToJson(v)
    ensures Serialized(Serialized(AsSerializable(v))) == ToJson(v)
  {
    SettledIsFixed(ToJson(v));
  }

  lemma AddThenSub(v: Vector2D, w: Vector2D)
    ensures Sub(Add(v, w), w) == v
    ensures Add(Sub(v, w), w) == v
  {
  }

  /** `normalize()` keeps the direction: the result is parallel to the
      vector it came from. */
  lemma NormalizeKeepsDirection(v: Vector2D, len: real)
    requires len >= 0.0 && (len == 0.0 <==> v == Vector2D(0.0, 0.0))
    ensures Cross(Normalize(v, len), v) == 0.0
  {
    var r := Normalize(v, len);
    if len > 0.0 {
      assert Mul(r, len) == v;
      ScaledIsParallel(r, len);
    }
  }

  /** A vector and any multiple of it have cross product zero. */
  lemma ScaledIsParallel(v: Vector2D, a: real)
    ensures Cross(v, Mul(v, a)) == 0.0
  {
    calc {
      Cross(v, Mul(v, a));
      v.x * (v.y * a) - v.y * (v.x * a);
      a * (v.x * v.y) - a * (v.y * v.x);
      0.0;
    }
  }

  /** Scaling either operand scales the cross product. */
  lemma CrossScales(v: Vector2D, w: Vector2D, a: real)
    ensures Cross(Mul(v, a), w) == a * Cross(v, w)
  {
    calc {
      Cross(Mul(v, a), w);
      (v.x * a) * w.y - (v.y * a) * w.x;
      a * (v.x * w.y) - a * (v.y * w.x);
      a * Cross(v, w);
    }
  }

  /** Indexing recovers the components the vector was built from. */
  lemma IndexRoundTrip(v: Vector2D)
    ensures Vector2D(Get(v, 0).value, Get(v, 1).value) == v
  {
  }
}
