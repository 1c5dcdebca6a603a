/** Objects of the world (world_object.py): identity, shape, and the
    pairwise collision correction.

    Python's class hierarchy (WorldObject, Agent, Food, Poison, Wall) is
    flattened into one class `WorldObject` whose constant `kind` tells the
    subclasses apart; the fields only agents use keep their initial values
    on every other kind of object. */
module WorldObjects {
  import opened Numerics
  import opened NeuroBlobs

  /** `size`: a number for a circle, a pair (width, height) for a rectangle. */
  datatype Size = Scalar(value: real) | Pair(first: real, second: real)

  datatype Color = Color(r: int, g: int, b: int)

  /** The subclass of an object, with the class constants that matter:
      `Edible` is `Food` and its subclass `Poison`, which differ only in
      their energy and health effects. */
  datatype Kind = Plain | AgentBody | Edible(energyCost: real, healthCost: real) | WallBody

  /** The `category` class attribute; `Poison` inherits `'food'`. */
  function Category(k: Kind): string
  {
    match k
    case Plain => "worldobject"
    case AgentBody => "agent"
    case Edible(_, _) => "food"
    case WallBody => "wall"
  }

  /** The class attributes of `Food` and `Poison`. */
  const FoodKind: Kind := Edible(0.2, 0.0)
  const PoisonKind: Kind := Edible(0.0, -0.1)

  function IsCircle(s: Size): bool { s.Scalar? }
  function IsRectangle(s: Size): bool { s.Pair? }

  function Width(s: Size): real
  {
    if IsRectangle(s) then s.first else 2.0 * s.value
  }

  function Height(s: Size): real
  {
    if IsRectangle(s) then s.second else 2.0 * s.value
  }

  /** The `radius` property: the size of a circle, half the diagonal of a
      rectangle. */
  function Radius(s: Size, m: Maths): real
  {
    if IsCircle(s) then s.value
    else Hypot(m, Vec(Width(s) / 2.0, Height(s) / 2.0))
  }

  /** Every size is exactly one of circle and rectangle. */
  lemma ShapeClassification(s: Size)
    ensures IsCircle(s) <==> s.Scalar?
    ensures IsRectangle(s) <==> s.Pair?
    ensures IsCircle(s) != IsRectangle(s)
  {
  }

  /** A circle's radius is its size, and its width and height are its diameter. */
  lemma CircleDimensions(s: Size, m: Maths)
    requires IsCircle(s)
    ensures Radius(s, m) == s.value
    ensures Width(s) == Height(s) == 2.0 * Radius(s, m)
  {
  }

  /** A rectangle's radius is the circumscribed circle's: it is at least
      half the width and half the height, so the circle covers the rectangle. */
  lemma {:induction false} RectangleRadiusCovers(s: Size, m: Maths)
    requires Lawful(m) && IsRectangle(s) && s.first >= 0.0 && s.second >= 0.0
    ensures Radius(s, m) >= s.first / 2.0 && Radius(s, m) >= s.second / 2.0
  {
    var hw, hh := s.first / 2.0, s.second / 2.0;
    var pw, ph := hw * hw, hh * hh;
    SquareSign(hw, pw);
    SquareSign(hh, ph);
    assert Radius(s, m) == m.sqrt(NormSq(Vec(hw, hh)));
    assert NormSq(Vec(hw, hh)) == pw + ph;
    SqrtAbove(m, pw + ph, hw);
    SqrtAbove(m, pw + ph, hh);
  }

  // ---------------------------------------------------------------------
  // Identity.

  /** The other operand of `__eq__`, which may be any Python value. */
  datatype Value = Object(obj: WorldObject) | NonObject

  class WorldObject {
    /** `uuid.uuid4()`; distinct objects are assumed to draw distinct ids. */
    const id: nat
    const kind: Kind
    const size: Size
    const color: Color
    var x: real
    var y: real
    // The fields below belong to agents.
    var angle: real
    var energy: real
    var health: real
    var age: int
    var score: int
    var interacted: WorldObject?
    var inputs: seq<real>
    var outputs: seq<real>
    var brain: NeuroBlob?

    /** `WorldObject.__init__(x, y, size, color)` for an object of the given kind. */
    constructor (id: nat, kind: Kind, size: Size, color: Color, x: real, y: real)
      ensures this.id == id && this.kind == kind && this.size == size && this.color == color
      ensures this.x == x && this.y == y
      ensures energy == 1.0 && health == 1.0 && age == 0 && score == 0 && angle == 0.0
      ensures interacted == null && inputs == [] && outputs == [0.0, 0.0, 0.0] && brain == null
    {
      this.id, this.kind, this.size, this.color := id, kind, size, color;
      this.x, this.y := x, y;
      angle, energy, health, age, score := 0.0, 1.0, 1.0, 0, 0;
      interacted, inputs, outputs, brain := null, [], [0.0, 0.0, 0.0], null;
    }

    /** The `position` property. */
    function Position(): (p: Vec)
      reads this`x, this`y
      ensures p.x == x && p.y == y
    {
      Vec(x, y)
    }

    /** The `position` setter. */
    method SetPosition(p: Vec)
      modifies this`x, this`y
      ensures Position() == p
    {
      x, y := p.x, p.y;
    }

    /** `collide(obj)`: pushes overlapping objects apart, as `Collision`
        says. The writes happen in the source's order, so an object
        colliding with itself ends where it started. */
    method Collide(obj: WorldObject, m: Maths)
      modifies this`x, this`y, obj`x, obj`y
      ensures this != obj ==>
        (Position(), obj.Position()) == Collision(old(Position()), size, old(obj.Position()), obj.size, m)
      ensures this == obj ==> Position() == old(Position())
    {
      match (IsCircle(size), IsCircle(obj.size))
      case (true, true) =>
        var d := Sub(Position(), obj.Position());
        var c := CircleCorrection(d, Radius(size, m) + Radius(obj.size, m), m);
        SetPosition(Add(Position(), c));
        obj.SetPosition(Sub(obj.Position(), c));
      case (true, false) =>
        SetPosition(CircleRectangle(Position(), Radius(size, m), obj.Position(), obj.size, m));
      case (false, true) =>
        obj.SetPosition(CircleRectangle(obj.Position(), Radius(obj.size, m), Position(), size, m));
      case (false, false) =>
    }
  }

  /** `__eq__`: equal exactly when the other value is a world object with the same id. */
  predicate Equals(self: WorldObject, other: Value)
  {
    other.Object? && self.id == other.obj.id
  }

  /** `__hash__`. */
  function Hash(self: WorldObject): nat
  {
    self.id
  }

  /** Equality by id is an equivalence, never holds against a non-object,
      and agrees with the hash. */
  lemma EqualityIsIdentityOfIds(a: WorldObject, b: WorldObject, c: WorldObject)
    ensures Equals(a, Object(a))
    ensures Equals(a, Object(b)) <==> a.id == b.id
    ensures Equals(a, Object(b)) == Equals(b, Object(a))
    ensures Equals(a, Object(b)) && Equals(b, Object(c)) ==> Equals(a, Object(c))
    ensures !Equals(a, NonObject)
    ensures Equals(a, Object(b)) ==> Hash(a) == Hash(b)
  {
  }

  // ---------------------------------------------------------------------
  // Collision, over positions.

  /** The correction for two overlapping circles whose centres differ by
      `d` and whose radii sum to `minDistance`: half the overlap along `d`;
      zero unless `0 < |d| < minDistance`. */
  function CircleCorrection(d: Vec, minDistance: real, m: Maths): Vec
  {
    var distance := Hypot(m, d);
    if distance < minDistance && distance != 0.0 then
      Vec(d.x / distance * (minDistance - distance) / 2.0, d.y / distance * (minDistance - distance) / 2.0)
    else Vec(0.0, 0.0)
  }

  /** The point of the axis-aligned rectangle of size `s` centred at `q`
      nearest to `p` (`np.clip` on each axis). */
  function ClosestPoint(p: Vec, q: Vec, s: Size): Vec
  {
    Vec(Clip(p.x, q.x - Width(s) / 2.0, q.x + Width(s) / 2.0),
        Clip(p.y, q.y - Height(s) / 2.0, q.y + Height(s) / 2.0))
  }

  /** The new centre of a circle of radius `r` at `p` after colliding with
      the fixed rectangle of size `s` at `q`. */
  function CircleRectangle(p: Vec, r: real, q: Vec, s: Size, m: Maths): Vec
  {
    PushFrom(p, ClosestPoint(p, q, s), r, m)
  }

  /** A circle of radius `r` at `p` pushed directly away from the point `k`
      until it just reaches it, when it overlaps `k` without being centred
      on it. */
  function PushFrom(p: Vec, k: Vec, r: real, m: Maths): Vec
  {
    var d := Sub(p, k);
    var distance := Hypot(m, d);
    if distance < r && distance != 0.0 then
      Add(p, Vec(d.x / distance * (r - distance), d.y / distance * (r - distance)))
    else p
  }

  /** The positions of two distinct objects after `a.collide(b)`. */
  function Collision(p: Vec, s: Size, q: Vec, t: Size, m: Maths): (Vec, Vec)
  {
    match (IsCircle(s), IsCircle(t))
    case (true, true) =>
      var c := CircleCorrection(Sub(p, q), Radius(s, m) + Radius(t, m), m);
      (Add(p, c), Sub(q, c))
    case (true, false) => (CircleRectangle(p, Radius(s, m), q, t, m), q)
    case (false, true) => (p, CircleRectangle(q, Radius(t, m), p, s, m))
    case (false, false) => (p, q)
  }

  /** Circle-circle: equal and opposite corrections, so the sum of the two
      centres is preserved. */
  lemma CircleCollisionConservesSum(p: Vec, s: Size, q: Vec, t: Size, m: Maths)
    requires IsCircle(s) && IsCircle(t)
    ensures Add(Collision(p, s, q, t, m).0, Collision(p, s, q, t, m).1) == Add(p, q)
  {
  }

  /** Circle-circle: nothing moves when the centres coincide or the circles
      do not overlap. */
  lemma CircleCollisionNoOp(p: Vec, s: Size, q: Vec, t: Size, m: Maths)
    requires IsCircle(s) && IsCircle(t)
    requires Hypot(m, Sub(p, q)) == 0.0 || Hypot(m, Sub(p, q)) >= s.value + t.value
    ensures Collision(p, s, q, t, m) == (p, q)
  {
  }

  /** Circle-circle, in exact arithmetic: after a correction the centres
      are exactly the radius sum apart. */
  lemma {:induction false} CircleCollisionSeparates(p: Vec, s: Size, q: Vec, t: Size, m: Maths)
    requires Lawful(m) && IsCircle(s) && IsCircle(t)
    requires 0.0 < Hypot(m, Sub(p, q)) < s.value + t.value
    ensures Hypot(m, Sub(Collision(p, s, q, t, m).0, Collision(p, s, q, t, m).1)) == s.value + t.value
  {
    var d := Sub(p, q);
    var dist := Hypot(m, d);
    var mn := s.value + t.value;
    var c := CircleCorrection(d, mn, m);
    var sep := Sub(Add(p, c), Sub(q, c));
    assert sep.x == d.x + 2.0 * (d.x / dist * (mn - dist) / 2.0);
    assert sep.y == d.y + 2.0 * (d.y / dist * (mn - dist) / 2.0);
    SpreadAlong(d.x, dist, mn);
    SpreadAlong(d.y, dist, mn);
    assert sep == Scale(d, mn / dist);
    ScaleToLength(m, d, mn);
  }

  lemma SpreadAlong(a: real, dist: real, mn: real)
    requires dist != 0.0
    ensures a + 2.0 * (a / dist * (mn - dist) / 2.0) == a * (mn / dist)
  {
  }

  /** Circle-rectangle (either argument order): the rectangle never moves. */
  lemma RectangleStaysPut(p: Vec, s: Size, q: Vec, t: Size, m: Maths)
    requires IsCircle(s) != IsCircle(t)
    ensures IsCircle(s) ==> Collision(p, s, q, t, m).1 == q
    ensures IsCircle(t) ==> Collision(p, s, q, t, m).0 == p
  {
  }

  /** Circle-rectangle: nothing moves when the centre is inside the
      rectangle (distance 0) or the circle does not reach it. */
  lemma CircleRectangleNoOp(p: Vec, r: real, q: Vec, s: Size, m: Maths)
    requires Hypot(m, Sub(p, ClosestPoint(p, q, s))) == 0.0 || Hypot(m, Sub(p, ClosestPoint(p, q, s))) >= r
    ensures CircleRectangle(p, r, q, s, m) == p
  {
  }

  /** Circle-rectangle, in exact arithmetic: after a correction the centre
      is exactly one radius from the point of the rectangle that was nearest. */
  lemma {:induction false} CircleRectangleTouches(p: Vec, r: real, q: Vec, s: Size, m: Maths)
    requires Lawful(m)
    requires 0.0 < Hypot(m, Sub(p, ClosestPoint(p, q, s))) < r
    ensures Hypot(m, Sub(CircleRectangle(p, r, q, s, m), ClosestPoint(p, q, s))) == r
  {
    PushReaches(p, ClosestPoint(p, q, s), r, m);
  }

  lemma {:induction false} PushReaches(p: Vec, k: Vec, r: real, m: Maths)
    requires Lawful(m)
    requires 0.0 < Hypot(m, Sub(p, k)) < r
    ensures Hypot(m, Sub(PushFrom(p, k, r, m), k)) == r
  {
    var d := Sub(p, k);
    var dist := Hypot(m, d);
    var moved := Sub(PushFrom(p, k, r, m), k);
    PushAlong(d.x, dist, r);
    PushAlong(d.y, dist, r);
    assert moved == Scale(d, r / dist);
    ScaleToLength(m, d, r);
  }

  lemma PushAlong(a: real, dist: real, r: real)
    requires dist != 0.0
    ensures a + a / dist * (r - dist) == a * (r / dist)
  {
  }

  /** `rectangle.collide(circle)` delegates to `circle.collide(rectangle)`,
      and two rectangles never move. */
  lemma CollisionDelegation(p: Vec, s: Size, q: Vec, t: Size, m: Maths)
    ensures !IsCircle(s) && IsCircle(t) ==>
      Collision(p, s, q, t, m) == (Collision(q, t, p, s, m).1, Collision(q, t, p, s, m).0)
    ensures !IsCircle(s) && !IsCircle(t) ==> Collision(p, s, q, t, m) == (p, q)
  {
  }
}
