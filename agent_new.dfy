/** The experimental agent of `experimental/agent_new.py`: the same body,
    controller and constants as `agent.py`, but it perceives the whole
    world (walls included), moves within the world's bounds, eats with a
    plain touch test and puts back every food it eats, and pays its costs
    with an `>=` test. */
module AgentsNew {
  import opened Numerics
  import opened NeuroBlobs
  import opened WorldObjects
  import Agents
  import Worlds

  /** `Agent.FOOD_COST`: the energy one meal gives. */
  const FOOD_COST: real := 0.2

  // ---------------------------------------------------------------------
  // `clamp`.

  /** `clamp(value, min_value, max_value)`, which is `max(lo, min(v, hi))`. */
  function Clamp(v: real, lo: real, hi: real): (r: real)
    ensures lo <= hi ==> lo <= r <= hi
    ensures lo <= v <= hi ==> r == v
    ensures v < lo ==> r == lo
    ensures lo <= hi < v ==> r == hi
  {
    Max(lo, Min(v, hi))
  }

  /** `clamp` and numpy's `clip` agree on every proper interval; on an
      empty one (`hi < lo`) `clamp` gives `lo` where `clip` gives `hi`. */
  lemma {:induction false} ClampAndClip(v: real, lo: real, hi: real)
    ensures lo <= hi ==> Clamp(v, lo, hi) == Clip(v, lo, hi)
    ensures hi < lo ==> Clamp(v, lo, hi) == lo && Clip(v, lo, hi) == hi
  {
    if lo <= hi {
      if v < lo {
        assert Clamp(v, lo, hi) == lo == Clip(v, lo, hi);
      } else if v > hi {
        assert Clamp(v, lo, hi) == hi == Clip(v, lo, hi);
      }
    } else {
      assert Min(v, hi) <= hi < lo;
    }
  }

  // ---------------------------------------------------------------------
  // Metabolism.

  /** `_apply_energy_cost(cost)` of the new agent: paid from energy while
      energy covers it, the `>=` test; otherwise energy drops to 0 and the
      deficit is taken from health, which stops at 0. */
  function SpendNew(v: Agents.Vitals, cost: real): (r: Agents.Vitals)
    ensures Agents.InUnit(v) && cost >= 0.0 ==> Agents.InUnit(r)
    ensures v.energy == cost ==> r.energy == 0.0 && r.health == v.health
    ensures v.health >= 0.0 ==>
      r.energy + r.health == v.energy + v.health - cost || (r.energy == 0.0 && r.health == 0.0)
  {
    if v.energy >= cost then Agents.Vitals(v.energy - cost, v.health)
    else Agents.Vitals(0.0, Max(0.0, v.health - (cost - v.energy)))
  }

  /** The two cost rules differ only when energy equals the cost exactly,
      and even then only for a negative health. */
  lemma {:induction false} SpendNewAgrees(v: Agents.Vitals, cost: real)
    ensures v.energy != cost ==> SpendNew(v, cost) == Agents.Spend(v, cost)
    ensures v.health >= 0.0 ==> SpendNew(v, cost) == Agents.Spend(v, cost)
    ensures v.energy == cost && v.health < 0.0 ==>
      SpendNew(v, cost).health == v.health && Agents.Spend(v, cost).health == 0.0
  {
    if v.energy == cost {
      assert Agents.Spend(v, cost) == Agents.Vitals(0.0, Max(0.0, v.health));
    }
  }

  /** `_apply_energy_cost(cost)` on the agent. */
  method ApplyEnergyCost(agent: WorldObject, cost: real)
    modifies agent`energy, agent`health
    ensures Agents.Vitals(agent.energy, agent.health) == SpendNew(old(Agents.Vitals(agent.energy, agent.health)), cost)
  {
    if agent.energy >= cost {
      agent.energy := agent.energy - cost;
    } else {
      var deficit := cost - agent.energy;
      agent.energy := 0.0;
      agent.health := Max(0.0, agent.health - deficit);
    }
  }

  // ---------------------------------------------------------------------
  // Movement.

  /** The agent's position after `_move(world, velocity)`: a step along the
      heading, clipped to keep the whole body inside the world. */
  function ClampedStep(p: Vec, angle: real, velocity: real, r: real, width: real, height: real, m: Maths): (q: Vec)
    ensures 2.0 * r <= width ==> r <= q.x <= width - r
    ensures 2.0 * r <= height ==> r <= q.y <= height - r
    ensures (var t := Add(p, Agents.Heading(angle, velocity, m));
             r <= t.x <= width - r && r <= t.y <= height - r ==> q == t)
  {
    var t := Add(p, Agents.Heading(angle, velocity, m));
    Vec(Clip(t.x, r, width - r), Clip(t.y, r, height - r))
  }

  /** The body lies inside the world: its centre is at least a radius away
      from every wall. */
  ghost predicate BodyInside(agent: WorldObject, width: real, height: real, m: Maths)
    reads agent`x, agent`y
  {
    var r := Radius(agent.size, m);
    r <= agent.x <= width - r && r <= agent.y <= height - r
  }

  /** `_move(world, velocity)`. */
  method Move(agent: WorldObject, width: real, height: real, velocity: real, m: Maths)
    modifies agent`x, agent`y
    ensures agent.Position() ==
      ClampedStep(old(agent.Position()), agent.angle, velocity, Radius(agent.size, m), width, height, m)
    ensures 2.0 * Radius(agent.size, m) <= width && 2.0 * Radius(agent.size, m) <= height ==>
      BodyInside(agent, width, height, m)
  {
    var p := ClampedStep(agent.Position(), agent.angle, velocity, Radius(agent.size, m), width, height, m);
    agent.SetPosition(p);
  }

  // ---------------------------------------------------------------------
  // Ray casting.

  /** `_intersect_ray_circle(ray_dir, obj)` of the new agent: as in
      `agent.py` but without the test that the centre lies ahead, so a
      circle around the agent is seen at its far crossing. */
  function IntersectRayCircle(dir: Vec, offset: Vec, radius: real, m: Maths): (r: Option<real>)
    ensures r.Some? ==> r.value >= 0.0
    ensures NormSq(offset) > (Agents.VISION_DISTANCE + radius) * (Agents.VISION_DISTANCE + radius) ==> r == None
    ensures NormSq(offset) - Dot(offset, dir) * Dot(offset, dir) > radius * radius ==> r == None
  {
    RayCircle(NormSq(offset), Dot(offset, dir), radius, m)
  }

  /** The new `_intersect_ray_circle` on the squared length `tm` of the
      offset and its projection `tca` on the ray. */
  function RayCircle(tm: real, tca: real, radius: real, m: Maths): (r: Option<real>)
    ensures r.Some? ==> r.value >= 0.0
    ensures tm > (Agents.VISION_DISTANCE + radius) * (Agents.VISION_DISTANCE + radius) ==> r == None
    ensures tm - tca * tca > radius * radius ==> r == None
    ensures r.Some? ==> r == Agents.Crossing(tca, tm - tca * tca, radius * radius, m)
  {
    if tm > (Agents.VISION_DISTANCE + radius) * (Agents.VISION_DISTANCE + radius) then None
    else Agents.Crossing(tca, tm - tca * tca, radius * radius, m)
  }

  /** For a centre ahead of the agent both versions agree. */
  lemma {:induction false} IntersectRayCircleAhead(dir: Vec, offset: Vec, radius: real, m: Maths)
    requires Dot(offset, dir) >= 0.0
    ensures IntersectRayCircle(dir, offset, radius, m) == Agents.IntersectRayCircle(dir, offset, radius, m)
  {
    var tm, tca := NormSq(offset), Dot(offset, dir);
    assert IntersectRayCircle(dir, offset, radius, m) == RayCircle(tm, tca, radius, m);
    assert Agents.IntersectRayCircle(dir, offset, radius, m) == Agents.RayCircle(tm, tca, radius, m);
    RayCircleAhead(tm, tca, radius, m);
  }

  lemma RayCircleAhead(tm: real, tca: real, radius: real, m: Maths)
    requires tca >= 0.0
    ensures RayCircle(tm, tca, radius, m) == Agents.RayCircle(tm, tca, radius, m)
  {
  }

  /** A circle whose centre lies behind the agent is seen only when the
      agent is inside it. */
  lemma {:induction false} HitBehindMeansInside(dir: Vec, offset: Vec, radius: real, m: Maths)
    requires Lawful(m)
    requires Dot(offset, dir) < 0.0 && IntersectRayCircle(dir, offset, radius, m).Some?
    ensures NormSq(offset) <= radius * radius
  {
    var tm, tca := NormSq(offset), Dot(offset, dir);
    assert IntersectRayCircle(dir, offset, radius, m) == RayCircle(tm, tca, radius, m);
    BehindInside(tm, tca, radius * radius, m);
  }

  /** With the centre behind, only the far crossing can be ahead, and it
      is ahead only when the agent is inside the circle. */
  lemma BehindInside(tm: real, tca: real, rr: real, m: Maths)
    requires Lawful(m) && tca < 0.0 && Agents.Crossing(tca, tm - tca * tca, rr, m).Some?
    ensures tm <= rr
  {
    var h := rr - (tm - tca * tca);
    SqrtLaw(m, h);
    BehindArithmetic(tca, m.sqrt(h), tm, rr);
  }

  lemma BehindArithmetic(tca: real, thc: real, tm: real, rr: real)
    requires tca < 0.0 && 0.0 <= thc && tca + thc >= 0.0 && thc * thc == rr - (tm - tca * tca)
    ensures tm <= rr
  {
    var a := -tca;
    if a < thc {
      SquareBelow(a, thc, a * a, thc * thc);
    }
    assert a * a <= thc * thc;
    assert a * a == tca * tca;
  }

  /** For a unit direction, a distance the new test returns is a true
      crossing: the point that far along the ray is on the circle. */
  lemma {:induction false} HitIsOnCircle(dir: Vec, offset: Vec, radius: real, m: Maths)
    requires Lawful(m) && NormSq(dir) == 1.0
    requires IntersectRayCircle(dir, offset, radius, m).Some?
    ensures NormSq(Sub(Scale(dir, IntersectRayCircle(dir, offset, radius, m).value), offset)) == radius * radius
  {
    var tm, tca := NormSq(offset), Dot(offset, dir);
    assert IntersectRayCircle(dir, offset, radius, m) == RayCircle(tm, tca, radius, m);
    var t := Agents.Crossing(tca, tm - tca * tca, radius * radius, m).value;
    Agents.CrossingOnCircle(tca, tm, radius * radius, m);
    Agents.RayPointDistance(dir, offset, t, radius * radius);
  }

  /** The agent's centre lies in the world (walls included). */
  predicate InWorld(x: real, y: real, width: real, height: real)
  {
    0.0 <= x <= width && 0.0 <= y <= height
  }

  /** `_intersect_ray_rectangle(ray_dir, world)`: no wall is reported when
      the agent is more than `VISION_DISTANCE` from every wall or the ray's
      tip stays inside the world; otherwise the ray is cut at the nearest
      wall the tip passes, or left at full length when the tip lands on a
      wall exactly. The centre must be in the world: outside it the
      divisions may be by zero. */
  function WallDistance(x: real, y: real, dir: Vec, width: real, height: real): (r: Option<real>)
    requires InWorld(x, y, width, height)
    ensures r.None? <==>
      (Agents.VISION_DISTANCE < x < width - Agents.VISION_DISTANCE &&
       Agents.VISION_DISTANCE < y < height - Agents.VISION_DISTANCE) ||
      (0.0 < x + dir.x * Agents.VISION_DISTANCE < width && 0.0 < y + dir.y * Agents.VISION_DISTANCE < height)
    ensures r.Some? ==> 0.0 <= r.value <= Agents.VISION_DISTANCE
  {
    var vd := Agents.VISION_DISTANCE;
    if vd < x < width - vd && vd < y < height - vd then None
    else if 0.0 < x + dir.x * vd < width && 0.0 < y + dir.y * vd < height then None
    else Some(AxisCut(y, dir.y, height, AxisCut(x, dir.x, width, vd)))
  }

  /** The two tests of `_intersect_ray_rectangle` on one axis: a ray from
      `p` moving `d` per unit, cut so far at `cur`, is cut at the far wall
      `extent` when its full length passes that wall, then at the wall at 0
      when it passes that one. */
  function AxisCut(p: real, d: real, extent: real, cur: real): (r: real)
    requires 0.0 <= p <= extent && 0.0 <= cur
    ensures 0.0 <= r <= cur
    ensures p + d * Agents.VISION_DISTANCE > extent ==> d > 0.0 && r <= (extent - p) / d
    ensures p + d * Agents.VISION_DISTANCE < 0.0 ==> d < 0.0 && r <= -p / d
    ensures r == cur || (p + d * Agents.VISION_DISTANCE > extent && r == (extent - p) / d) ||
                        (p + d * Agents.VISION_DISTANCE < 0.0 && r == -p / d)
  {
    var vd := Agents.VISION_DISTANCE;
    var far := if p + d * vd > extent then Min(cur, (extent - p) / d) else cur;
    if p + d * vd < 0.0 then Min(far, -p / d) else far
  }

  /** The wall distance is where the ray meets the boundary first: the
      point that far along the ray is still in the world. */
  lemma {:induction false} WallHitInWorld(x: real, y: real, dir: Vec, width: real, height: real, t: real)
    requires InWorld(x, y, width, height) && WallDistance(x, y, dir, width, height) == Some(t)
    ensures InWorld(x + dir.x * t, y + dir.y * t, width, height)
  {
    var cx := AxisCut(x, dir.x, width, Agents.VISION_DISTANCE);
    assert t == AxisCut(y, dir.y, height, cx);
    AxisHitWithin(x, dir.x, width, Agents.VISION_DISTANCE, t);
    AxisHitWithin(y, dir.y, height, cx, t);
  }

  /** On one axis: stopping no later than the cut keeps the position in
      `[0, extent]`. */
  lemma AxisHitWithin(p: real, d: real, extent: real, cur: real, t: real)
    requires 0.0 <= p <= extent && 0.0 <= cur <= Agents.VISION_DISTANCE
    requires 0.0 <= t <= AxisCut(p, d, extent, cur)
    ensures 0.0 <= p + d * t <= extent
  {
    AxisHit(p, d, extent, t);
  }

  /** Unless the ray kept its full length, the point at the wall distance
      is on a wall. */
  lemma {:induction false} WallHitOnWall(x: real, y: real, dir: Vec, width: real, height: real, t: real)
    requires InWorld(x, y, width, height) && WallDistance(x, y, dir, width, height) == Some(t)
    requires t < Agents.VISION_DISTANCE
    ensures x + dir.x * t == width || x + dir.x * t == 0.0 || y + dir.y * t == height || y + dir.y * t == 0.0
  {
    var vd := Agents.VISION_DISTANCE;
    var cx := AxisCut(x, dir.x, width, vd);
    assert t == AxisCut(y, dir.y, height, cx);
    if t == cx {
      AxisOnWall(x, dir.x, width, vd, t);
    } else {
      AxisOnWall(y, dir.y, height, cx, t);
    }
  }

  /** On one axis: a cut below `cur` lies on one of the two walls. */
  lemma AxisOnWall(p: real, d: real, extent: real, cur: real, t: real)
    requires 0.0 <= p <= extent && 0.0 <= cur && t == AxisCut(p, d, extent, cur) && t != cur
    ensures p + d * t == extent || p + d * t == 0.0
  {
    if p + d * Agents.VISION_DISTANCE > extent && t == (extent - p) / d {
      assert d * t == extent - p;
    } else {
      assert d * t == -p;
    }
  }

  /** On one axis: a position in `[0, extent]` moved by `d` per unit for
      `t` units stays in `[0, extent]` when `t` stops at the wall the full
      ray would pass. */
  lemma AxisHit(p: real, d: real, extent: real, t: real)
    requires 0.0 <= p <= extent && 0.0 <= t <= Agents.VISION_DISTANCE
    requires p + d * Agents.VISION_DISTANCE > extent ==> d != 0.0 && t <= (extent - p) / d
    requires p + d * Agents.VISION_DISTANCE < 0.0 ==> d != 0.0 && t <= -p / d
    ensures 0.0 <= p + d * t <= extent
  {
    var vd := Agents.VISION_DISTANCE;
    if d > 0.0 {
      MulRight(0.0, t, d);
      if p + d * vd > extent {
        var q := (extent - p) / d;
        MulRight(t, q, d);
        assert q * d == extent - p;
      } else {
        MulRight(t, vd, d);
      }
    } else if d < 0.0 {
      var e := -d;
      MulRight(0.0, t, e);
      if p + d * vd < 0.0 {
        var q := -p / d;
        MulRight(t, q, e);
        assert q * e == p;
      } else {
        MulRight(t, vd, e);
      }
    }
  }

  // ---------------------------------------------------------------------
  // Perception.

  /** The grey `sense` records for a wall. */
  const WALL_SHADE: seq<real> := [0.5, 0.5, 0.5]

  /** The wall reading of one ray: proximity `1 - t / VISION_DISTANCE`. */
  function WallProximity(x: real, y: real, dir: Vec, width: real, height: real): (r: Option<real>)
    requires InWorld(x, y, width, height)
    ensures r.Some? ==> 0.0 <= r.value <= 1.0
    ensures r.Some? <==> WallDistance(x, y, dir, width, height).Some?
  {
    var t := WallDistance(x, y, dir, width, height);
    if t.Some? && t.value <= Agents.VISION_DISTANCE then Some(1.0 - t.value / Agents.VISION_DISTANCE)
    else None
  }

  /** The proximity of `o` along `dir` as `sense` measures it: every object
      is taken as a circle of its radius, and only hits within the vision
      distance count. */
  function Proximity(agent: WorldObject, o: WorldObject, dir: Vec, m: Maths): (r: Option<real>)
    reads agent`x, agent`y, o`x, o`y
    ensures r.Some? ==> 0.0 <= r.value <= 1.0
  {
    var dist := IntersectRayCircle(dir, Sub(o.Position(), agent.Position()), Radius(o.size, m), m);
    if dist.None? || dist.value > Agents.VISION_DISTANCE then None
    else Some(1.0 - dist.value / Agents.VISION_DISTANCE)
  }

  /** `best` and `color` are what one ray of `sense` records: the wall
      reading (or 0 and black), unless an object other than `agent` is
      strictly closer along the ray, in which case the best proximity over
      the objects and the shade of one object reaching it. */
  ghost predicate IsBestReading(best: real, color: seq<real>, agent: WorldObject, seen: set<WorldObject>,
                                dir: Vec, width: real, height: real, m: Maths)
    requires InWorld(agent.x, agent.y, width, height)
    reads agent`x, agent`y, seen`x, seen`y
  {
    var wall := WallProximity(agent.x, agent.y, dir, width, height);
    var base := if wall.Some? then wall.value else 0.0;
    0.0 <= best <= 1.0 &&
    (forall o :: o in seen && o != agent && Proximity(agent, o, dir, m).Some? ==>
       Proximity(agent, o, dir, m).value <= best) &&
    ((best == base && color == (if wall.Some? then WALL_SHADE else [0.0, 0.0, 0.0])) ||
     (best > base && exists o :: (o in seen && o != agent && Proximity(agent, o, dir, m) == Some(best) &&
        color == Agents.Shade(o.color))))
  }

  /** One ray of `sense`: the wall first, then every object but the agent,
      replacing the reading only on a strictly greater proximity. */
  method RayReading(agent: WorldObject, objects: set<WorldObject>, dir: Vec, width: real, height: real, m: Maths)
    returns (best: real, color: seq<real>)
    requires InWorld(agent.x, agent.y, width, height)
    ensures |color| == 3
    ensures IsBestReading(best, color, agent, objects, dir, width, height, m)
  {
    best, color := 0.0, [0.0, 0.0, 0.0];
    var tWall := WallDistance(agent.x, agent.y, dir, width, height);
    if tWall.Some? && tWall.value <= Agents.VISION_DISTANCE {
      best := 1.0 - tWall.value / Agents.VISION_DISTANCE;
      color := WALL_SHADE;
    }
    ghost var base := best;
    ghost var baseColor := color;
    var remaining := objects;
    ghost var seen: set<WorldObject> := {};
    while remaining != {}
      invariant remaining + seen == objects && remaining !! seen
      invariant |color| == 3 && base <= best <= 1.0
      invariant forall o :: o in seen && o != agent && Proximity(agent, o, dir, m).Some? ==>
        Proximity(agent, o, dir, m).value <= best
      invariant (best == base && color == baseColor) ||
        (best > base && exists o :: (o in seen && o != agent && Proximity(agent, o, dir, m) == Some(best) &&
           color == Agents.Shade(o.color)))
      decreases remaining
    {
      var o :| o in remaining;
      remaining := remaining - {o};
      seen := seen + {o};
      if o != agent {
        var dist := IntersectRayCircle(dir, Sub(o.Position(), agent.Position()), Radius(o.size, m), m);
        if dist.Some? && dist.value <= Agents.VISION_DISTANCE {
          var proximity := 1.0 - dist.value / Agents.VISION_DISTANCE;
          assert Proximity(agent, o, dir, m) == Some(proximity);
          if proximity > best {
            best := proximity;
            color := Agents.Shade(o.color);
          }
        }
      }
    }
  }

  /** The first `n` rays are recorded in `inputs`, four slots each: the
      proximity, then the colour. */
  ghost predicate RaysRecorded(inputs: seq<real>, n: nat, agent: WorldObject, seen: set<WorldObject>,
                               width: real, height: real, m: Maths)
    requires InWorld(agent.x, agent.y, width, height)
    reads agent`x, agent`y, agent`angle, seen`x, seen`y
  {
    4 * n <= |inputs| &&
    forall k :: 0 <= k < n ==>
      IsBestReading(inputs[4 * k], inputs[4 * k + 1..4 * k + 4], agent, seen,
                    Agents.RayDirection(agent.angle, k, m), width, height, m)
  }

  /** Writing one reading at `idx` keeps the slots before it. */
  lemma SlotsWritten(before: seq<real>, idx: nat, best: real, color: seq<real>)
    requires idx + 4 <= |before| && |color| == 3
    ensures var after := before[idx := best][idx + 1 := color[0]][idx + 2 := color[1]][idx + 3 := color[2]];
      after[idx] == best && after[idx + 1..idx + 4] == color && after[..idx] == before[..idx]
  {
  }

  /** Writing ray `n` after the recorded ones, leaving them alone, records
      one more ray. */
  lemma {:induction false} RecordOneMore(before: seq<real>, after: seq<real>, n: nat, agent: WorldObject,
                                         seen: set<WorldObject>, width: real, height: real, m: Maths)
    requires InWorld(agent.x, agent.y, width, height)
    requires RaysRecorded(before, n, agent, seen, width, height, m)
    requires |after| == |before| && 4 * n + 4 <= |after| && after[..4 * n] == before[..4 * n]
    requires IsBestReading(after[4 * n], after[4 * n + 1..4 * n + 4], agent, seen,
                           Agents.RayDirection(agent.angle, n, m), width, height, m)
    ensures RaysRecorded(after, n + 1, agent, seen, width, height, m)
  {
    forall k | 0 <= k < n
      ensures IsBestReading(after[4 * k], after[4 * k + 1..4 * k + 4], agent, seen,
                            Agents.RayDirection(agent.angle, k, m), width, height, m)
    {
      assert after[4 * k] == after[..4 * n][4 * k] == before[4 * k];
      assert after[4 * k + 1..4 * k + 4] == after[..4 * n][4 * k + 1..4 * k + 4] == before[4 * k + 1..4 * k + 4];
    }
  }

  /** Writes past the recorded rays keep them recorded. */
  lemma {:induction false} RecordKept(before: seq<real>, after: seq<real>, n: nat, agent: WorldObject,
                                      seen: set<WorldObject>, width: real, height: real, m: Maths)
    requires InWorld(agent.x, agent.y, width, height)
    requires RaysRecorded(before, n, agent, seen, width, height, m)
    requires |after| == |before| && after[..4 * n] == before[..4 * n]
    ensures RaysRecorded(after, n, agent, seen, width, height, m)
  {
    forall k | 0 <= k < n
      ensures IsBestReading(after[4 * k], after[4 * k + 1..4 * k + 4], agent, seen,
                            Agents.RayDirection(agent.angle, k, m), width, height, m)
    {
      assert after[4 * k] == after[..4 * n][4 * k] == before[4 * k];
      assert after[4 * k + 1..4 * k + 4] == after[..4 * n][4 * k + 1..4 * k + 4] == before[4 * k + 1..4 * k + 4];
    }
  }

  /** `inputs` is what `sense(world)` records for `agent` in `world` as it
      stands: the ray readings over every object, then `1 - energy` and
      `1 - health`. */
  ghost predicate Perceived(inputs: seq<real>, agent: WorldObject, world: Worlds.World, m: Maths)
    reads agent`x, agent`y, agent`angle, agent`energy, agent`health, world`objectsByCategory
    reads world.GetObjects(None)`x, world.GetObjects(None)`y
  {
    InWorld(agent.x, agent.y, world.width, world.height) &&
    |inputs| == Agents.N_INPUT &&
    RaysRecorded(inputs, Agents.VISION_RAYS, agent, world.GetObjects(None), world.width, world.height, m) &&
    inputs[Agents.N_INPUT - 2] == 1.0 - agent.energy &&
    inputs[Agents.N_INPUT - 1] == 1.0 - agent.health
  }

  /** The body of `sense(world)`: four inputs per ray (proximity, then
      colour) over every object of the world, then `1 - energy` and
      `1 - health`; each slot of the input buffer is written by index. */
  method Readings(agent: WorldObject, world: Worlds.World, m: Maths) returns (buffer: seq<real>)
    requires InWorld(agent.x, agent.y, world.width, world.height)
    ensures |buffer| == Agents.N_INPUT
    ensures RaysRecorded(buffer, Agents.VISION_RAYS, agent, world.GetObjects(None), world.width, world.height, m)
    ensures buffer[Agents.N_INPUT - 2] == 1.0 - agent.energy
    ensures buffer[Agents.N_INPUT - 1] == 1.0 - agent.health
  {
    var objects := world.GetObjects(None);
    buffer := seq(Agents.N_INPUT, _ => 0.0);
    var idx := 0;
    var i := 0;
    while i < Agents.VISION_RAYS
      invariant 0 <= i <= Agents.VISION_RAYS && idx == 4 * i && |buffer| == Agents.N_INPUT
      invariant RaysRecorded(buffer, i, agent, objects, world.width, world.height, m)
    {
      var best, color := RayReading(agent, objects, Agents.RayDirection(agent.angle, i, m),
                                    world.width, world.height, m);
      ghost var before := buffer;
      buffer := buffer[idx := best][idx + 1 := color[0]][idx + 2 := color[1]][idx + 3 := color[2]];
      SlotsWritten(before, idx, best, color);
      RecordOneMore(before, buffer, i, agent, objects, world.width, world.height, m);
      idx := idx + 4;
      i := i + 1;
    }
    ghost var rays := buffer;
    buffer := buffer[Agents.N_INPUT - 2 := 1.0 - agent.energy][Agents.N_INPUT - 1 := 1.0 - agent.health];
    assert buffer[..4 * Agents.VISION_RAYS] == rays[..4 * Agents.VISION_RAYS];
    RecordKept(rays, buffer, Agents.VISION_RAYS, agent, objects, world.width, world.height, m);
  }

  /** `sense(world)`: the agent's inputs become its readings of the world
      as it stood when sensing began; sensing changes nothing it reads. */
  method Sense(agent: WorldObject, world: Worlds.World, m: Maths)
    requires InWorld(agent.x, agent.y, world.width, world.height)
    modifies agent`inputs
    ensures Perceived(agent.inputs, agent, world, m)
    ensures var inputs := agent.inputs; old(Perceived(inputs, agent, world, m))
  {
    var buffer := Readings(agent, world, m);
    agent.inputs := buffer;
  }

  // ---------------------------------------------------------------------
  // Thinking and acting.

  /** `think()`: one pass of the controller over the current inputs. */
  method Think(agent: WorldObject, m: Maths)
    requires Agents.WellFormed(agent) && |agent.inputs| == Agents.N_INPUT
    modifies agent`outputs, agent.brain.state, agent.brain.buffer
    ensures Agents.WellFormed(agent)
    ensures agent.brain.state[..] ==
      Iterate(agent.brain.Matrix(), WithInputs(old(agent.brain.state[..]), agent.inputs), 1, m)
    ensures agent.outputs == agent.brain.state[agent.brain.outputStart..]
    ensures TanhBounded(m.tanh) ==> forall i :: 0 <= i < |agent.outputs| ==> -1.0 <= agent.outputs[i] <= 1.0
  {
    var brain := agent.brain;
    var r := brain.Step(agent.inputs, 1, m);
    agent.outputs := r.value;
    if TanhBounded(m.tanh) {
      var s := WithInputs(old(brain.state[..]), agent.inputs);
      IterateBounded(brain.Matrix(), s, 1, m);
    }
  }

  /** The eating test of `_consume_if_possible`: the bodies touch and the
      food lies within half the vision angle of the heading. */
  predicate CanEat(agent: WorldObject, food: WorldObject, m: Maths)
    reads agent`x, agent`y, agent`angle, food`x, food`y
  {
    Touching(Sub(food.Position(), agent.Position()), agent.angle, Radius(agent.size, m) + Radius(food.size, m), m)
  }

  /** The eating test on values: `d` is the offset of the food from the
      agent, `heading` the agent's heading and `reach` the sum of the radii. */
  predicate Touching(d: Vec, heading: real, reach: real, m: Maths)
  {
    Hypot(m, d) <= reach && Abs(Agents.Bearing(d, heading, m)) <= Agents.VISION_ANGLE / 2.0
  }

  /** The agent can eat none of `foods`. */
  ghost predicate NoneEdible(agent: WorldObject, foods: set<WorldObject>, m: Maths)
    reads agent`x, agent`y, agent`angle, foods`x, foods`y
  {
    forall o :: o in foods ==> !CanEat(agent, o, m)
  }

  /** `_consume_if_possible(world)`: eats the first food in reach (in the
      set's iteration order), poison included, and puts a new object of the
      same class at a random place, so the food stock never shrinks;
      `draws` are the random draws of that `add_object`. */
  method ConsumeIfPossible(agent: WorldObject, world: Worlds.World, draws: Worlds.Draws, m: Maths)
    returns (eaten: WorldObject?, added: seq<WorldObject>)
    requires world.Valid()
    modifies agent`energy, agent`score, world`grid, world`objectsByCategory
    ensures world.Valid()
    ensures eaten == null <==> old(NoneEdible(agent, world.Members("food"), m))
    ensures eaten == null ==>
      agent.energy == old(agent.energy) && agent.score == old(agent.score) && added == [] &&
      world.grid == old(world.grid) && world.objectsByCategory == old(world.objectsByCategory)
    ensures eaten != null ==>
      eaten in old(world.Members("food")) && old(CanEat(agent, eaten, m)) &&
      agent.energy == Min(1.0, old(agent.energy) + FOOD_COST) && agent.score == old(agent.score) + 1 &&
      |added| == 1 && fresh(added[0]) && added[0].kind == eaten.kind &&
      Swapped(old(world.objectsByCategory), world.objectsByCategory, old(world.grid), world.grid, eaten, added[0]) &&
      Worlds.RegisteredIn(world.grid, added[0], world.ObjectCells(added[0], m))
    ensures |world.Members("food")| == |old(world.Members("food"))|
  {
    var foods := world.GetObjects(Some("food"));
    assert foods == world.Members("food");
    var food := FirstEdible(agent, foods, m);
    if food != null {
      assert food in old(world.Members("food")) && old(CanEat(agent, food, m));
      eaten, added := Eat(agent, world, food, draws, m);
    } else {
      eaten, added := null, [];
    }
  }

  /** The search of `_consume_if_possible`: the first object of
      `candidates` the agent can eat, in the set's iteration order, or null
      when there is none. */
  method FirstEdible(agent: WorldObject, candidates: set<WorldObject>, m: Maths) returns (food: WorldObject?)
    ensures food == null <==> NoneEdible(agent, candidates, m)
    ensures food != null ==> food in candidates && CanEat(agent, food, m)
  {
    var remaining := candidates;
    while remaining != {}
      invariant remaining <= candidates
      invariant forall o :: o in candidates - remaining ==> !CanEat(agent, o, m)
      decreases remaining
    {
      var o :| o in remaining;
      remaining := remaining - {o};
      if CanEat(agent, o, m) {
        return o;
      }
    }
    return null;
  }

  /** The body of the `if` in `_consume_if_possible`: the food leaves the
      world, the agent gains `FOOD_COST` energy (capped at 1) and a point,
      and a new object of the food's class is added. */
  method Eat(agent: WorldObject, world: Worlds.World, food: WorldObject, draws: Worlds.Draws, m: Maths)
    returns (eaten: WorldObject, added: seq<WorldObject>)
    requires world.Valid() && food in world.Members("food")
    modifies agent`energy, agent`score, world`grid, world`objectsByCategory
    ensures world.Valid() && eaten == food
    ensures agent.energy == Min(1.0, old(agent.energy) + FOOD_COST) && agent.score == old(agent.score) + 1
    ensures |added| == 1 && fresh(added[0]) && added[0].kind == food.kind
    ensures Swapped(old(world.objectsByCategory), world.objectsByCategory, old(world.grid), world.grid, food, added[0])
    ensures Worlds.RegisteredIn(world.grid, added[0], world.ObjectCells(added[0], m))
    ensures |world.Members("food")| == |old(world.Members("food"))|
  {
    var energy, score := agent.energy, agent.score;
    added := Replace(world, food, draws, m);
    agent.energy := Min(1.0, energy + FOOD_COST);
    agent.score := score + 1;
    eaten := food;
  }

  /** `world.remove_object(food)` then `world.add_object(type(food))`: the
      food is swapped for a new object of its class, so the number of
      food objects is kept. */
  method Replace(world: Worlds.World, food: WorldObject, draws: Worlds.Draws, m: Maths)
    returns (added: seq<WorldObject>)
    requires world.Valid() && food in world.Members("food")
    modifies world`grid, world`objectsByCategory
    ensures world.Valid()
    ensures |added| == 1 && fresh(added[0]) && added[0].kind == food.kind
    ensures Swapped(old(world.objectsByCategory), world.objectsByCategory, old(world.grid), world.grid, food, added[0])
    ensures Worlds.RegisteredIn(world.grid, added[0], world.ObjectCells(added[0], m))
    ensures |world.Members("food")| == |old(world.Members("food"))|
  {
    ghost var before, c0, g0 := world.Members("food"), world.objectsByCategory, world.grid;
    assert Category(food.kind) == "food";
    world.RemoveObject(food, m);
    ghost var c1, g1 := world.objectsByCategory, world.grid;
    added := AddOfClass(world, food.kind, draws, m);
    SwapRecorded(c0, c1, world.objectsByCategory, g0, g1, world.grid, food, added[0]);
    SwapKeepsSize(before, food, added[0]);
  }

  /** Removing `eaten` from the food and then adding only `added` makes a
      food swap. */
  lemma SwapRecorded(c0: map<string, set<WorldObject>>, c1: map<string, set<WorldObject>>,
                     c2: map<string, set<WorldObject>>, g0: Worlds.Grid, g1: Worlds.Grid, g2: Worlds.Grid,
                     eaten: WorldObject, added: WorldObject)
    requires "food" in c0 && c1 == c0["food" := c0["food"] - {eaten}]
    requires Worlds.Lookup(c2, "food") == Worlds.Lookup(c1, "food") + {added}
    requires forall k :: k != "food" ==> Worlds.Lookup(c2, k) == Worlds.Lookup(c1, k)
    requires g1.Keys == g0.Keys && g2.Keys == g0.Keys
    requires forall c :: c in g0 ==> g1[c] - {eaten} == g0[c] - {eaten}
    requires forall c :: c in g1 ==> g1[c] <= g2[c] <= g1[c] + {added}
    ensures Swapped(c0, c2, g0, g2, eaten, added)
  {
    Worlds.SwapChangesOnly(g0, g1, g2, eaten, added);
    forall k | k != "food"
      ensures Worlds.Lookup(c2, k) == Worlds.Lookup(c0, k)
    {
      assert Worlds.Lookup(c1, k) == Worlds.Lookup(c0, k);
    }
  }

  /** A food swap, on the category maps `c0`, `c` and the grids `g0`, `g`
      before and after: `eaten` left the food, `added` joined it, no other
      category changed, and only the registrations of those two changed. */
  ghost predicate Swapped(c0: map<string, set<WorldObject>>, c: map<string, set<WorldObject>>,
                          g0: Worlds.Grid, g: Worlds.Grid, eaten: WorldObject, added: WorldObject)
  {
    Worlds.Lookup(c, "food") == Worlds.Lookup(c0, "food") - {eaten} + {added} &&
    (forall k :: k != "food" ==> Worlds.Lookup(c, k) == Worlds.Lookup(c0, k)) &&
    Worlds.ChangedOnly(g0, g, {eaten, added})
  }

  /** What eating did to the world, on the category maps `c0`, `c` and the
      grids `g0`, `g` before and after: nothing when nothing was eaten
      (and nothing was added); otherwise `eaten` was swapped for the one
      object `added`, of the same kind. */
  ghost predicate FoodSwap(c0: map<string, set<WorldObject>>, c: map<string, set<WorldObject>>,
                           g0: Worlds.Grid, g: Worlds.Grid, eaten: WorldObject?, added: seq<WorldObject>)
  {
    (eaten == null ==> added == [] && c == c0 && g == g0) &&
    (eaten != null ==> |added| == 1 && added[0].kind == eaten.kind && Swapped(c0, c, g0, g, eaten, added[0]))
  }

  /** `world.add_object(type(food))`: one new object of the class of
      `kind`, at a random place. */
  method AddOfClass(world: Worlds.World, kind: Kind, draws: Worlds.Draws, m: Maths)
    returns (added: seq<WorldObject>)
    requires world.Valid() && Worlds.Spawnable(kind)
    modifies world`grid, world`objectsByCategory
    ensures world.Valid()
    ensures |added| == 1 && fresh(added[0]) && added[0].kind == kind
    ensures Worlds.Lookup(world.objectsByCategory, Category(kind)) ==
      Worlds.Lookup(old(world.objectsByCategory), Category(kind)) + {added[0]}
    ensures forall k :: k != Category(kind) ==>
      Worlds.Lookup(world.objectsByCategory, k) == Worlds.Lookup(old(world.objectsByCategory), k)
    ensures Worlds.RegisteredIn(world.grid, added[0], world.ObjectCells(added[0], m))
    ensures world.grid.Keys == old(world.grid.Keys)
    ensures forall c :: c in old(world.grid) ==> old(world.grid[c]) <= world.grid[c] <= old(world.grid[c]) + {added[0]}
  {
    added := world.AddObject(Worlds.ClassOf(kind), 1, None, None, draws, m);
    assert Worlds.Elements(added) == {added[0]};
    forall k | k != Category(kind)
      ensures Worlds.Lookup(world.objectsByCategory, k) == Worlds.Lookup(old(world.objectsByCategory), k)
    {
      assert world.Members(k) == old(world.Members(k));
    }
  }

  /** Taking one member out and putting a new one in keeps the size. */
  lemma SwapKeepsSize<T>(s: set<T>, a: T, b: T)
    requires a in s && b !in s
    ensures |s - {a} + {b}| == |s|
  {
    assert |s - {a}| == |s| - 1;
  }

  /** `act(world)`: turn by a tenth of the first output, age by one, move
      within the world by the second output, eat when the third output is
      positive, then pay the passive and movement cost and regenerate.
      `draws` are the random draws of the replacement food. */
  method Act(agent: WorldObject, world: Worlds.World, draws: Worlds.Draws, m: Maths)
    returns (eaten: WorldObject?, added: seq<WorldObject>)
    requires world.Valid() && |agent.outputs| == 3
    modifies agent`angle, agent`x, agent`y, agent`age, agent`energy, agent`health, agent`score
    modifies world`grid, world`objectsByCategory
    ensures world.Valid()
    ensures agent.age == old(agent.age) + 1
    ensures agent.angle == PyMod(old(agent.angle) + old(agent.outputs[0]) * 0.1, TAU)
    ensures agent.Position() == ClampedStep(old(agent.Position()), agent.angle, old(agent.outputs[1]),
                                            Radius(agent.size, m), world.width, world.height, m)
    ensures old(agent.outputs[2]) <= 0.0 ==> eaten == null
    ensures old(agent.outputs[2]) > 0.0 ==>
      (eaten == null <==> NoneEdible(agent, old(world.Members("food")), m))
    ensures eaten != null ==> CanEat(agent, eaten, m)
    ensures eaten != null ==> eaten in old(world.Members("food"))
    ensures Agents.Vitals(agent.energy, agent.health) ==
      AfterEating(old(Agents.Vitals(agent.energy, agent.health)), eaten != null, old(agent.outputs[1]))
    ensures agent.score == old(agent.score) + (if eaten != null then 1 else 0)
    ensures FoodSwap(old(world.objectsByCategory), world.objectsByCategory, old(world.grid), world.grid, eaten, added)
    ensures eaten != null ==> fresh(added[0])
    ensures Agents.InUnit(old(Agents.Vitals(agent.energy, agent.health))) ==>
      Agents.InUnit(Agents.Vitals(agent.energy, agent.health))
    ensures forall k :: k != "food" ==> world.Members(k) == old(world.Members(k))
    ensures |world.Members("food")| == |old(world.Members("food"))|
    ensures Worlds.ChangedOnly(old(world.grid), world.grid, old(world.Members("food")) + world.Members("food"))
  {
    var dTheta, velocity, eat := agent.outputs[0], agent.outputs[1], agent.outputs[2];
    dTheta := dTheta * 0.1;
    agent.age := agent.age + 1;
    Agents.Rotate(agent, dTheta);
    eaten, added := MoveAndFeed(agent, world, velocity, eat, draws, m);
  }

  /** The part of `act` after turning: move within the world by `velocity`,
      then eat when `eat` is positive and pay the costs. */
  method MoveAndFeed(agent: WorldObject, world: Worlds.World, velocity: real, eat: real, draws: Worlds.Draws, m: Maths)
    returns (eaten: WorldObject?, added: seq<WorldObject>)
    requires world.Valid()
    modifies agent`x, agent`y, agent`energy, agent`health, agent`score
    modifies world`grid, world`objectsByCategory
    ensures world.Valid()
    ensures agent.Position() == ClampedStep(old(agent.Position()), agent.angle, velocity,
                                            Radius(agent.size, m), world.width, world.height, m)
    ensures eat <= 0.0 ==> eaten == null
    ensures eat > 0.0 ==> (eaten == null <==> NoneEdible(agent, old(world.Members("food")), m))
    ensures eaten != null ==> CanEat(agent, eaten, m)
    ensures eaten != null ==> eaten in old(world.Members("food"))
    ensures Agents.Vitals(agent.energy, agent.health) ==
      AfterEating(old(Agents.Vitals(agent.energy, agent.health)), eaten != null, velocity)
    ensures agent.score == old(agent.score) + (if eaten != null then 1 else 0)
    ensures FoodSwap(old(world.objectsByCategory), world.objectsByCategory, old(world.grid), world.grid, eaten, added)
    ensures eaten != null ==> fresh(added[0])
    ensures Agents.InUnit(old(Agents.Vitals(agent.energy, agent.health))) ==>
      Agents.InUnit(Agents.Vitals(agent.energy, agent.health))
    ensures forall k :: k != "food" ==> world.Members(k) == old(world.Members(k))
    ensures |world.Members("food")| == |old(world.Members("food"))|
    ensures Worlds.ChangedOnly(old(world.grid), world.grid, old(world.Members("food")) + world.Members("food"))
  {
    Move(agent, world.width, world.height, velocity, m);
    eaten, added := Feed(agent, world, eat, velocity, draws, m);
  }

  /** The part of `act` after moving: eat when `eat` is positive, then pay
      the passive and movement cost of `velocity` and regenerate. */
  method Feed(agent: WorldObject, world: Worlds.World, eat: real, velocity: real, draws: Worlds.Draws, m: Maths)
    returns (eaten: WorldObject?, added: seq<WorldObject>)
    requires world.Valid()
    modifies agent`energy, agent`health, agent`score, world`grid, world`objectsByCategory
    ensures world.Valid()
    ensures eat <= 0.0 ==> eaten == null
    ensures eat > 0.0 ==> (eaten == null <==> old(NoneEdible(agent, world.Members("food"), m)))
    ensures eaten != null ==> eaten in old(world.Members("food")) && old(CanEat(agent, eaten, m))
    ensures eaten != null ==> eaten in old(world.Members("food"))
    ensures Agents.Vitals(agent.energy, agent.health) ==
      AfterEating(old(Agents.Vitals(agent.energy, agent.health)), eaten != null, velocity)
    ensures agent.score == old(agent.score) + (if eaten != null then 1 else 0)
    ensures FoodSwap(old(world.objectsByCategory), world.objectsByCategory, old(world.grid), world.grid, eaten, added)
    ensures eaten != null ==> fresh(added[0])
    ensures Agents.InUnit(old(Agents.Vitals(agent.energy, agent.health))) ==>
      Agents.InUnit(Agents.Vitals(agent.energy, agent.health))
    ensures forall k :: k != "food" ==> world.Members(k) == old(world.Members(k))
    ensures |world.Members("food")| == |old(world.Members("food"))|
    ensures Worlds.ChangedOnly(old(world.grid), world.grid, old(world.Members("food")) + world.Members("food"))
  {
    eaten, added := EatIfHungry(agent, world, eat, draws, m);
    Metabolise(agent, velocity);
  }

  /** The eating step of `act`: when `eat` is positive, the agent tries to
      consume a food or poison in reach. */
  method EatIfHungry(agent: WorldObject, world: Worlds.World, eat: real, draws: Worlds.Draws, m: Maths)
    returns (eaten: WorldObject?, added: seq<WorldObject>)
    requires world.Valid()
    modifies agent`energy, agent`health, agent`score, world`grid, world`objectsByCategory
    ensures world.Valid()
    ensures eat <= 0.0 ==> eaten == null
    ensures eat > 0.0 ==> (eaten == null <==> old(NoneEdible(agent, world.Members("food"), m)))
    ensures eaten != null ==> eaten in old(world.Members("food")) && old(CanEat(agent, eaten, m))
    ensures eaten == null ==>
      agent.energy == old(agent.energy) && agent.health == old(agent.health) && agent.score == old(agent.score)
    ensures eaten != null ==>
      eaten in old(world.Members("food")) &&
      agent.energy == Min(1.0, old(agent.energy) + FOOD_COST) && agent.health == old(agent.health) &&
      agent.score == old(agent.score) + 1
    ensures FoodSwap(old(world.objectsByCategory), world.objectsByCategory, old(world.grid), world.grid, eaten, added)
    ensures eaten != null ==> fresh(added[0])
    ensures Agents.InUnit(old(Agents.Vitals(agent.energy, agent.health))) ==>
      Agents.InUnit(Agents.Vitals(agent.energy, agent.health))
    ensures forall k :: k != "food" ==> world.Members(k) == old(world.Members(k))
    ensures |world.Members("food")| == |old(world.Members("food"))|
    ensures Worlds.ChangedOnly(old(world.grid), world.grid, old(world.Members("food")) + world.Members("food"))
  {
    ghost var foods := world.Members("food");
    eaten, added := null, [];
    if eat > 0.0 {
      eaten, added := ConsumeIfPossible(agent, world, draws, m);
      if eaten != null {
        Worlds.ChangedOnlyWider(old(world.grid), world.grid, {eaten, added[0]}, foods + world.Members("food"));
      }
    }
  }

  /** The vitals at the end of `act`, from the vitals `v` before eating:
      `FOOD_COST` energy (capped at 1) when the agent `ate`, then the
      passive and movement cost of `velocity` and regeneration. */
  function AfterEating(v: Agents.Vitals, ate: bool, velocity: real): Agents.Vitals
  {
    var fed := if ate then Agents.Vitals(Min(1.0, v.energy + FOOD_COST), v.health) else v;
    Agents.Regenerate(SpendNew(fed, Agents.MovementCost(velocity)))
  }

  /** The end of `act`: the passive and movement cost, then regeneration;
      the vitals stay in [0, 1]. */
  method Metabolise(agent: WorldObject, velocity: real)
    modifies agent`energy, agent`health
    ensures Agents.Vitals(agent.energy, agent.health) ==
      Agents.Regenerate(SpendNew(old(Agents.Vitals(agent.energy, agent.health)), Agents.MovementCost(velocity)))
    ensures Agents.InUnit(old(Agents.Vitals(agent.energy, agent.health))) ==>
      Agents.InUnit(Agents.Vitals(agent.energy, agent.health))
  {
    ApplyEnergyCost(agent, Agents.MovementCost(velocity));
    Agents.RestoreHealth(agent);
  }
}
