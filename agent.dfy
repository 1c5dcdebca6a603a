/** The agent of agent.py: metabolism (energy, health, regeneration),
    consumption, heading and movement, the ray-casting perception and the
    action step.

    An agent is a `WorldObject` of kind `AgentBody`; the agent operations
    are methods of this module taking the agent as their first argument. */
module Agents {
  import opened Numerics
  import opened NeuroBlobs
  import opened WorldObjects

  const VISION_RAYS: nat := 11
  const VISION_DISTANCE: real := 100.0
  const VISION_ANGLE: real := 120.0 * (PI / 180.0)
  const CONSUME_LEVEL: real := 0.0
  const PASSIVE_COST: real := 0.0001
  const MOVEMENT_COST_FACTOR: real := 0.001
  const BITING_COST: real := 0.005
  const REGEN_COST: real := PASSIVE_COST

  /** Controller dimensions chosen in `Agent.__init__`. */
  const N_INPUT: nat := VISION_RAYS * 4 + 2
  const N_OUTPUT: nat := 3
  const N_HIDDEN: nat := (N_INPUT + N_OUTPUT) * 2

  const AGENT_SIZE: Size := Scalar(6.0)
  const AGENT_COLOR: Color := Color(0, 100, 255)

  lemma Dimensions()
    ensures N_INPUT == 46 && N_HIDDEN == 98 && N_OUTPUT == 3
    ensures 1 + N_INPUT + N_HIDDEN + N_OUTPUT == 148
  {
  }

  // ---------------------------------------------------------------------
  // Metabolism, over values.

  datatype Vitals = Vitals(energy: real, health: real)

  ghost predicate InUnit(v: Vitals)
  {
    0.0 <= v.energy <= 1.0 && 0.0 <= v.health <= 1.0
  }

  /** `_apply_energy_cost(cost)`: paid from energy while energy exceeds the
      cost; otherwise energy drops to 0 and the deficit is taken from
      health, which stops at 0. */
  function Spend(v: Vitals, cost: real): (r: Vitals)
    ensures InUnit(v) && cost >= 0.0 ==> InUnit(r)
    ensures v.energy > cost ==> r.health == v.health && r.energy == v.energy - cost
    ensures v.energy <= cost ==> r.energy == 0.0 && r.health == Max(0.0, v.health - (cost - v.energy))
    ensures r.energy + r.health == v.energy + v.health - cost || (r.energy == 0.0 && r.health == 0.0)
  {
    if v.energy > cost then Vitals(v.energy - cost, v.health)
    else Vitals(0.0, Max(0.0, v.health - (cost - v.energy)))
  }

  /** `_restore_health()`: moves at most `REGEN_COST` from energy to health,
      never past full health nor below empty energy. */
  function Regenerate(v: Vitals): (r: Vitals)
    ensures r.energy + r.health == v.energy + v.health
    ensures v.health >= 1.0 ==> r == v
    ensures v.health < 1.0 ==> r.health <= 1.0
    ensures v.energy >= 0.0 ==> 0.0 <= r.energy <= v.energy && v.health <= r.health <= v.health + REGEN_COST
    ensures InUnit(v) ==> InUnit(r)
  {
    if v.health < 1.0 then
      var heal := Min(Min(REGEN_COST, 1.0 - v.health), v.energy);
      Vitals(v.energy - heal, v.health + heal)
    else v
  }

  /** `_process_consumption(food)` on energy and health: the food's effects
      with energy capped at 1 and health floored at 0. */
  function Consumption(v: Vitals, food: Kind): (r: Vitals)
    requires food.Edible?
    ensures r.energy <= 1.0 && r.health >= 0.0
    ensures InUnit(v) && food.energyCost >= 0.0 && food.healthCost <= 0.0 ==> InUnit(r)
    ensures food.energyCost >= 0.0 ==> r.energy >= Min(v.energy, 1.0)
    ensures food.healthCost <= 0.0 ==> r.health <= Max(v.health, 0.0)
  {
    Vitals(Min(1.0, v.energy + food.energyCost), Max(0.0, v.health + food.healthCost))
  }

  /** `_process_consumption(food)` on the score: +1 when the food gives
      energy, -1 when it gives none. */
  function ScoreChange(food: Kind): (r: int)
    requires food.Edible?
    ensures r == 1 || r == -1
    ensures r == 1 <==> food.energyCost != 0.0
  {
    if food.energyCost != 0.0 then 1 else -1
  }

  /** Food feeds and rewards; poison feeds nothing, hurts and penalises. */
  lemma FoodAndPoison(v: Vitals)
    requires InUnit(v)
    ensures Consumption(v, FoodKind).energy == Min(1.0, v.energy + 0.2)
    ensures Consumption(v, FoodKind).health == v.health
    ensures ScoreChange(FoodKind) == 1
    ensures Consumption(v, PoisonKind).energy == v.energy
    ensures Consumption(v, PoisonKind).health == Max(0.0, v.health - 0.1)
    ensures ScoreChange(PoisonKind) == -1
  {
  }

  /** The per-step cost of moving at `velocity`. */
  function MovementCost(velocity: real): (r: real)
    ensures r >= PASSIVE_COST
    ensures r == PASSIVE_COST <==> velocity == 0.0
  {
    var sq := velocity * velocity;
    SquareSign(velocity, sq);
    PASSIVE_COST + MOVEMENT_COST_FACTOR * sq
  }

  // ---------------------------------------------------------------------
  // Ray casting, over values.

  /** `_intersect_ray_circle`: the distance along the ray `dir` from the
      agent to the first crossing of the circle of `radius` whose centre
      is at `offset` from the agent, if the circle is near enough, ahead,
      and crossed. */
  function IntersectRayCircle(dir: Vec, offset: Vec, radius: real, m: Maths): (r: Option<real>)
    ensures r.Some? ==> r.value >= 0.0
    ensures NormSq(offset) > (VISION_DISTANCE + radius) * (VISION_DISTANCE + radius) ==> r == None
    ensures Dot(offset, dir) < 0.0 ==> r == None
    ensures NormSq(offset) - Dot(offset, dir) * Dot(offset, dir) > radius * radius ==> r == None
  {
    RayCircle(NormSq(offset), Dot(offset, dir), radius, m)
  }

  /** `_intersect_ray_circle` on the two scalars it computes from the
      offset: its squared length `tm` and its projection `tca` on the ray. */
  function RayCircle(tm: real, tca: real, radius: real, m: Maths): (r: Option<real>)
    ensures r.Some? ==> r.value >= 0.0
    ensures tm > (VISION_DISTANCE + radius) * (VISION_DISTANCE + radius) ==> r == None
    ensures tca < 0.0 ==> r == None
    ensures tm - tca * tca > radius * radius ==> r == None
    ensures r.Some? ==> r == Crossing(tca, tm - tca * tca, radius * radius, m)
  {
    if tm > (VISION_DISTANCE + radius) * (VISION_DISTANCE + radius) then None
    else if tca < 0.0 then None
    else Crossing(tca, tm - tca * tca, radius * radius, m)
  }

  /** The end of `_intersect_ray_circle`: from the projection `tca` of the
      centre on the ray, the squared distance `d2` of the centre from the
      ray and the squared radius `rr`, the near crossing `tca - thc` when
      it is ahead, else the far one `tca + thc` when it is ahead, else
      none, where `thc` is the half chord. */
  function Crossing(tca: real, d2: real, rr: real, m: Maths): (r: Option<real>)
    ensures r.Some? ==> r.value >= 0.0
    ensures d2 > rr ==> r == None
    ensures r.Some? ==> d2 <= rr && (r.value == tca - m.sqrt(rr - d2) || r.value == tca + m.sqrt(rr - d2))
  {
    if d2 > rr then None
    else
      var thc := m.sqrt(rr - d2);
      var t0 := tca - thc;
      var t1 := tca + thc;
      if t0 >= 0.0 then Some(t0) else if t1 >= 0.0 then Some(t1) else None
  }

  /** A crossing `t` lies on the circle: with `tm` the squared length of the
      offset, `t * t - 2 * t * tca + tm` is the squared radius. */
  lemma CrossingOnCircle(tca: real, tm: real, rr: real, m: Maths)
    requires Lawful(m) && Crossing(tca, tm - tca * tca, rr, m).Some?
    ensures var t := Crossing(tca, tm - tca * tca, rr, m).value;
      t * t - 2.0 * t * tca + tm == rr
  {
    var t := Crossing(tca, tm - tca * tca, rr, m).value;
    var h := rr - (tm - tca * tca);
    SqrtLaw(m, h);
    OnCircle(t, tca, m.sqrt(h), tm, h);
  }

  /** For a unit direction, a distance `IntersectRayCircle` returns is a
      true crossing: the point that far along the ray is on the circle. */
  lemma {:induction false} RayCircleHitIsOnCircle(dir: Vec, offset: Vec, radius: real, m: Maths)
    requires Lawful(m) && NormSq(dir) == 1.0
    requires IntersectRayCircle(dir, offset, radius, m).Some?
    ensures NormSq(Sub(Scale(dir, IntersectRayCircle(dir, offset, radius, m).value), offset)) == radius * radius
  {
    var tm, tca := NormSq(offset), Dot(offset, dir);
    assert IntersectRayCircle(dir, offset, radius, m) == RayCircle(tm, tca, radius, m);
    var t := Crossing(tca, tm - tca * tca, radius * radius, m).value;
    CrossingOnCircle(tca, tm, radius * radius, m);
    RayPointDistance(dir, offset, t, radius * radius);
  }

  /** The squared distance from the point `t` along a unit ray to the
      centre at `offset` is `t * t - 2 * t * tca + tm`. */
  lemma RayPointDistance(dir: Vec, offset: Vec, t: real, rr: real)
    requires NormSq(dir) == 1.0
    requires t * t - 2.0 * t * Dot(offset, dir) + NormSq(offset) == rr
    ensures NormSq(Sub(Scale(dir, t), offset)) == rr
  {
    var p := Sub(Scale(dir, t), offset);
    assert NormSq(p) == t * t * NormSq(dir) - 2.0 * t * Dot(offset, dir) + NormSq(offset);
  }

  lemma OnCircle(t: real, tca: real, thc: real, tm: real, h: real)
    requires t == tca - thc || t == tca + thc
    requires thc * thc == h
    ensures t * t - 2.0 * t * tca + tm == h + tm - tca * tca
  {
    assert (t - tca) * (t - tca) == thc * thc;
  }

  /** One edge test of `_intersect_ray_rectangle`: the edge at signed
      distance `edge` along the axis where the ray moves by `along` per
      unit, with the crossing at `edge / along * across` on the other
      axis, which must lie between `lo` and `hi`. */
  function EdgeHit(edge: real, along: real, across: real, hi: real, lo: real): (r: Option<real>)
    ensures r.Some? ==> r.value > 0.0 && r.value * along == edge
    ensures r.Some? && lo <= hi ==> lo <= r.value * across <= hi
  {
    if edge * along > 0.0 then
      var t := edge / along;
      var inter := t * across;
      if (hi - inter) * (lo - inter) <= 0.0 then
        EdgeHitFacts(edge, along, t, inter, hi, lo);
        Some(t)
      else None
    else None
  }

  lemma EdgeHitFacts(edge: real, along: real, t: real, inter: real, hi: real, lo: real)
    requires edge * along > 0.0 && t == edge / along && (hi - inter) * (lo - inter) <= 0.0
    ensures t > 0.0 && t * along == edge
    ensures lo <= hi ==> lo <= inter <= hi
  {
    QuotientPositive(edge, along, t);
    if lo <= hi {
      Between(inter, hi, lo);
    }
  }

  lemma QuotientPositive(edge: real, along: real, t: real)
    requires edge * along > 0.0 && t == edge / along
    ensures t > 0.0 && t * along == edge
  {
    var sq := along * along;
    SquareSign(along, sq);
    assert t * sq == edge * along;
    if t <= 0.0 {
      MulRight(t, 0.0, sq);
    }
  }

  /** `(hi - v) * (lo - v) <= 0` places `v` between `lo` and `hi`. */
  lemma Between(v: real, hi: real, lo: real)
    requires (hi - v) * (lo - v) <= 0.0 && lo <= hi
    ensures lo <= v <= hi
  {
    var p := (hi - v) * (lo - v);
    assert p == (v - hi) * (v - lo);
    if v < lo {
      ProductPositive(hi - v, lo - v, p);
    } else if v > hi {
      ProductPositive(v - hi, v - lo, p);
    }
  }

  /** The four edge tests in the order the source performs them: right and
      left edges, then top and bottom edges, of the rectangle of size `s`
      whose centre is at `d` from the agent. */
  function RectangleEdges(dir: Vec, d: Vec, s: Size): (r: seq<Option<real>>)
    ensures |r| == 4
  {
    var maxX, minX := d.x + Width(s) / 2.0, d.x - Width(s) / 2.0;
    var maxY, minY := d.y + Height(s) / 2.0, d.y - Height(s) / 2.0;
    [EdgeHit(maxX, dir.x, dir.y, maxY, minY), EdgeHit(minX, dir.x, dir.y, maxY, minY),
     EdgeHit(maxY, dir.y, dir.x, maxX, minX), EdgeHit(minY, dir.y, dir.x, maxX, minX)]
  }

  /** The running minimum `dist = min(hit, dist)` from `VISION_DISTANCE`. */
  function NearestHit(hits: seq<Option<real>>): real
  {
    if |hits| == 0 then VISION_DISTANCE
    else
      var prev := NearestHit(hits[..|hits| - 1]);
      match hits[|hits| - 1]
      case Some(t) => Min(t, prev)
      case None => prev
  }

  /** The running minimum is the nearest hit, or `VISION_DISTANCE` when
      that is nearer; with positive hits it is positive. */
  lemma {:induction false} NearestHitIsMinimum(hits: seq<Option<real>>)
    ensures NearestHit(hits) <= VISION_DISTANCE
    ensures forall i :: 0 <= i < |hits| && hits[i].Some? ==> NearestHit(hits) <= hits[i].value
    ensures NearestHit(hits) == VISION_DISTANCE || exists i :: 0 <= i < |hits| && hits[i] == Some(NearestHit(hits))
    ensures (forall i :: 0 <= i < |hits| && hits[i].Some? ==> hits[i].value > 0.0) ==> NearestHit(hits) > 0.0
  {
    if |hits| > 0 {
      var init := hits[..|hits| - 1];
      NearestHitIsMinimum(init);
      assert forall i :: 0 <= i < |init| ==> init[i] == hits[i];
      if NearestHit(hits) != VISION_DISTANCE && NearestHit(hits) != NearestHit(init) {
        assert hits[|hits| - 1] == Some(NearestHit(hits));
      }
    }
  }

  /** `_intersect_ray_rectangle`: the running minimum over the edge tests. */
  method IntersectRayRectangle(dir: Vec, d: Vec, s: Size) returns (dist: real)
    ensures dist == NearestHit(RectangleEdges(dir, d, s))
    ensures 0.0 < dist <= VISION_DISTANCE
  {
    var maxX, minX := d.x + Width(s) / 2.0, d.x - Width(s) / 2.0;
    var maxY, minY := d.y + Height(s) / 2.0, d.y - Height(s) / 2.0;
    ghost var hits := RectangleEdges(dir, d, s);
    dist := VISION_DISTANCE;
    var xEdges := [maxX, minX];
    var i := 0;
    while i < 2
      invariant 0 <= i <= 2
      invariant dist == NearestHit(hits[..i])
    {
      var hit := EdgeHit(xEdges[i], dir.x, dir.y, maxY, minY);
      assert hits[..i + 1][..i] == hits[..i] && hits[i] == hit;
      if hit.Some? {
        dist := Min(hit.value, dist);
      }
      i := i + 1;
    }
    var yEdges := [maxY, minY];
    var j := 0;
    while j < 2
      invariant 0 <= j <= 2
      invariant dist == NearestHit(hits[..2 + j])
    {
      var hit := EdgeHit(yEdges[j], dir.y, dir.x, maxX, minX);
      assert hits[..2 + j + 1][..2 + j] == hits[..2 + j] && hits[2 + j] == hit;
      if hit.Some? {
        dist := Min(hit.value, dist);
      }
      j := j + 1;
    }
    assert hits[..4] == hits;
    NearestHitIsMinimum(hits);
  }

  // ---------------------------------------------------------------------
  // Perception.

  /** The heading of ray `i`: the rays fan out evenly over `VISION_ANGLE`,
      centred on the agent's heading. */
  function RayAngle(heading: real, i: nat): real
  {
    heading - VISION_ANGLE / 2.0 + (i as real / (VISION_RAYS - 1) as real) * VISION_ANGLE
  }

  /** The first ray looks half the vision angle to one side, the last half
      to the other, and ray `i` mirrors ray `VISION_RAYS - 1 - i`. */
  lemma RayFan(heading: real, i: nat)
    requires i < VISION_RAYS
    ensures RayAngle(heading, 0) == heading - VISION_ANGLE / 2.0
    ensures RayAngle(heading, VISION_RAYS - 1) == heading + VISION_ANGLE / 2.0
    ensures RayAngle(heading, i) - heading == heading - RayAngle(heading, VISION_RAYS - 1 - i)
  {
  }

  function RayDirection(heading: real, i: nat, m: Maths): Vec
  {
    Vec(m.cos(RayAngle(heading, i)), m.sin(RayAngle(heading, i)))
  }

  /** The distance at which ray `dir` from `agent` meets `o`, as `_sense`
      measures it: circles by `IntersectRayCircle`, rectangles by the edge
      tests. */
  function RayDistance(agent: WorldObject, o: WorldObject, dir: Vec, m: Maths): (r: Option<real>)
    reads agent`x, agent`y, o`x, o`y
    ensures r.Some? ==> r.value >= 0.0
  {
    var offset := Sub(o.Position(), agent.Position());
    if IsCircle(o.size) then IntersectRayCircle(dir, offset, Radius(o.size, m), m)
    else
      var hits := RectangleEdges(dir, offset, o.size);
      NearestHitIsMinimum(hits);
      Some(NearestHit(hits))
  }

  /** The proximity `1 - dist / VISION_DISTANCE` of `o` along `dir`, if it
      is seen at all. */
  function Proximity(agent: WorldObject, o: WorldObject, dir: Vec, m: Maths): (r: Option<real>)
    reads agent`x, agent`y, o`x, o`y
    ensures r.Some? ==> 0.0 <= r.value <= 1.0
  {
    var dist := RayDistance(agent, o, dir, m);
    if dist.None? || dist.value > VISION_DISTANCE then None
    else Some(1.0 - dist.value / VISION_DISTANCE)
  }

  /** An object's colour scaled to [0, 1]. */
  function Shade(c: Color): seq<real>
  {
    [c.r as real / 255.0, c.g as real / 255.0, c.b as real / 255.0]
  }

  /** `best` is the best proximity along `dir` among the objects of
      `seen` other than `agent`, or 0 when none is seen closer than the
      full vision distance. */
  ghost predicate IsBestProximity(best: real, agent: WorldObject, seen: set<WorldObject>, dir: Vec, m: Maths)
    reads agent`x, agent`y, seen`x, seen`y
  {
    0.0 <= best <= 1.0 &&
    (forall o :: o in seen && o != agent && Proximity(agent, o, dir, m).Some? ==>
       Proximity(agent, o, dir, m).value <= best) &&
    (best > 0.0 ==> exists o :: o in seen && o != agent && Proximity(agent, o, dir, m) == Some(best))
  }

  /** The distance test of `_sense` for one object along one ray: circles
      by `_intersect_ray_circle`, rectangles by `_intersect_ray_rectangle`,
      and only hits within `VISION_DISTANCE` give a proximity. */
  method MeasureProximity(agent: WorldObject, o: WorldObject, dir: Vec, m: Maths)
    returns (proximity: Option<real>)
    ensures proximity == Proximity(agent, o, dir, m)
    ensures proximity.Some? ==> 0.0 <= proximity.value <= 1.0
  {
    var dist: Option<real>;
    var offset := Sub(o.Position(), agent.Position());
    if IsCircle(o.size) {
      dist := IntersectRayCircle(dir, offset, Radius(o.size, m), m);
    } else {
      var t := IntersectRayRectangle(dir, offset, o.size);
      dist := Some(t);
    }
    if dist.None? || dist.value > VISION_DISTANCE {
      return None;
    }
    proximity := Some(1.0 - dist.value / VISION_DISTANCE);
  }

  /** What one ray of `_sense` has read after looking at the objects of
      `seen`: the best proximity among them, and the colour of one object
      reaching it, or black when nothing was seen. */
  ghost predicate Reading(best: real, color: seq<real>, agent: WorldObject, seen: set<WorldObject>, dir: Vec, m: Maths)
    reads agent`x, agent`y, seen`x, seen`y
  {
    IsBestProximity(best, agent, seen, dir, m) &&
    |color| == 3 && (best == 0.0 ==> color == [0.0, 0.0, 0.0]) &&
    (best > 0.0 ==> exists o :: (o in seen && o != agent &&
      Proximity(agent, o, dir, m) == Some(best) && color == Shade(o.color)))
  }

  /** Looking at one more object that is the agent, unseen, or no closer
      keeps the reading. */
  lemma ReadingKept(best: real, color: seq<real>, agent: WorldObject, seen: set<WorldObject>,
                    o: WorldObject, dir: Vec, m: Maths)
    requires Reading(best, color, agent, seen, dir, m)
    requires o == agent || Proximity(agent, o, dir, m).None? || Proximity(agent, o, dir, m).value <= best
    ensures Reading(best, color, agent, seen + {o}, dir, m)
  {
    if best > 0.0 {
      var w :| w in seen && w != agent && Proximity(agent, w, dir, m) == Some(best) && color == Shade(w.color);
      assert w in seen + {o};
    }
  }

  /** Looking at one more object, other than the agent, that is strictly
      closer replaces the reading by that object's. */
  lemma ReadingReplaced(best: real, color: seq<real>, agent: WorldObject, seen: set<WorldObject>,
                        o: WorldObject, dir: Vec, m: Maths)
    requires Reading(best, color, agent, seen, dir, m)
    requires o != agent && Proximity(agent, o, dir, m).Some? && Proximity(agent, o, dir, m).value > best
    ensures Reading(Proximity(agent, o, dir, m).value, Shade(o.color), agent, seen + {o}, dir, m)
  {
    var v := Proximity(agent, o, dir, m).value;
    assert o in seen + {o};
    forall w | w in seen + {o} && w != agent && Proximity(agent, w, dir, m).Some?
      ensures Proximity(agent, w, dir, m).value <= v
    {
      if w != o {
        assert w in seen;
      }
    }
  }

  /** One ray of `_sense`: the best proximity over `nearests` and the colour
      of the object that first reached it (in the set's iteration order). */
  method RayReading(agent: WorldObject, nearests: set<WorldObject>, dir: Vec, m: Maths)
    returns (best: real, color: seq<real>)
    ensures IsBestProximity(best, agent, nearests, dir, m)
    ensures |color| == 3 && (best == 0.0 ==> color == [0.0, 0.0, 0.0])
    ensures best > 0.0 ==> exists o :: (o in nearests && o != agent &&
      Proximity(agent, o, dir, m) == Some(best) && color == Shade(o.color))
  {
    best := 0.0;
    color := [0.0, 0.0, 0.0];
    var remaining := nearests;
    ghost var seen: set<WorldObject> := {};
    while remaining != {}
      invariant remaining + seen == nearests && remaining !! seen
      invariant Reading(best, color, agent, seen, dir, m)
      decreases remaining
    {
      var o :| o in remaining;
      best, color := LookAt(agent, o, dir, m, best, color, seen);
      remaining := remaining - {o};
      seen := seen + {o};
    }
    assert seen == nearests;
  }

  /** One iteration of a ray's loop in `_sense`: an object other than the
      agent whose proximity beats the best so far replaces the reading. */
  method LookAt(agent: WorldObject, o: WorldObject, dir: Vec, m: Maths, best: real, color: seq<real>,
                ghost seen: set<WorldObject>)
    returns (best': real, color': seq<real>)
    requires Reading(best, color, agent, seen, dir, m)
    ensures Reading(best', color', agent, seen + {o}, dir, m)
  {
    best', color' := best, color;
    if o != agent {
      var proximity := MeasureProximity(agent, o, dir, m);
      if proximity.Some? && proximity.value > best {
        ReadingReplaced(best, color, agent, seen, o, dir, m);
        best', color' := proximity.value, Shade(o.color);
      } else {
        ReadingKept(best, color, agent, seen, o, dir, m);
      }
    } else {
      ReadingKept(best, color, agent, seen, o, dir, m);
    }
  }

  /** The first `n` rays are recorded in `inputs`, four slots each: the
      reading of that ray, its best proximity followed by the colour of an
      object reaching it (black when nothing was seen). */
  ghost predicate RaysRecorded(inputs: seq<real>, n: nat, agent: WorldObject, nearests: set<WorldObject>, m: Maths)
    reads agent`x, agent`y, agent`angle, nearests`x, nearests`y
  {
    4 * n <= |inputs| &&
    forall k :: 0 <= k < n ==>
      Reading(inputs[4 * k], inputs[4 * k + 1..4 * k + 4], agent, nearests, RayDirection(agent.angle, k, m), m)
  }

  /** Appending anything after the recorded rays keeps them recorded. */
  lemma {:induction false} RecordKept(inputs: seq<real>, extra: seq<real>, n: nat, agent: WorldObject,
                                      nearests: set<WorldObject>, m: Maths)
    requires RaysRecorded(inputs, n, agent, nearests, m)
    ensures RaysRecorded(inputs + extra, n, agent, nearests, m)
  {
    var after := inputs + extra;
    forall k | 0 <= k < n
      ensures after[4 * k] == inputs[4 * k] && after[4 * k + 1..4 * k + 4] == inputs[4 * k + 1..4 * k + 4]
    {
    }
  }

  /** Appending the reading of ray `n` right after the first `n` records
      one more ray. */
  lemma {:induction false} RecordOneMore(inputs: seq<real>, best: real, color: seq<real>, n: nat,
                                         agent: WorldObject, nearests: set<WorldObject>, m: Maths)
    requires RaysRecorded(inputs, n, agent, nearests, m) && |inputs| == 4 * n
    requires Reading(best, color, agent, nearests, RayDirection(agent.angle, n, m), m)
    ensures RaysRecorded(inputs + [best] + color, n + 1, agent, nearests, m)
  {
    var after := inputs + [best] + color;
    RecordKept(inputs, [best] + color, n, agent, nearests, m);
    assert after == inputs + ([best] + color);
    assert after[4 * n] == best && after[4 * n + 1..4 * n + 4] == color;
    forall k | 0 <= k < n + 1
      ensures Reading(after[4 * k], after[4 * k + 1..4 * k + 4], agent, nearests, RayDirection(agent.angle, k, m), m)
    {
      if k == n {
        assert after[4 * k] == best && after[4 * k + 1..4 * k + 4] == color;
      }
    }
  }

  /** `_sense(nearests)`: four inputs per ray (proximity, then colour), then
      `1 - energy` and `1 - health`. */
  method Sense(agent: WorldObject, nearests: set<WorldObject>, m: Maths)
    modifies agent`inputs
    ensures |agent.inputs| == 4 * VISION_RAYS + 2 == N_INPUT
    ensures RaysRecorded(agent.inputs, VISION_RAYS, agent, nearests, m)
    ensures agent.inputs[4 * VISION_RAYS] == 1.0 - agent.energy
    ensures agent.inputs[4 * VISION_RAYS + 1] == 1.0 - agent.health
  {
    var rays := ReadRays(agent, nearests, m);
    var inputs := rays + [1.0 - agent.energy, 1.0 - agent.health];
    RecordKept(rays, [1.0 - agent.energy, 1.0 - agent.health], VISION_RAYS, agent, nearests, m);
    agent.inputs := inputs;
    assert agent.inputs == inputs;
  }

  /** The ray loop of `_sense`: four values per ray, in ray order. */
  method ReadRays(agent: WorldObject, nearests: set<WorldObject>, m: Maths) returns (inputs: seq<real>)
    ensures |inputs| == 4 * VISION_RAYS
    ensures RaysRecorded(inputs, VISION_RAYS, agent, nearests, m)
  {
    inputs := [];
    var i := 0;
    while i < VISION_RAYS
      invariant 0 <= i <= VISION_RAYS && |inputs| == 4 * i
      invariant RaysRecorded(inputs, i, agent, nearests, m)
    {
      var best, color := RayReading(agent, nearests, RayDirection(agent.angle, i, m), m);
      RecordOneMore(inputs, best, color, i, agent, nearests, m);
      inputs := inputs + [best] + color;
      i := i + 1;
    }
  }

  // ---------------------------------------------------------------------
  // Agent state changes.

  /** What every agent keeps: a controller of the agent's dimensions whose
      state has full length, and three outputs. */
  ghost predicate WellFormed(a: WorldObject)
    reads a`brain, a`outputs, if a.brain != null then {a.brain} else {}
  {
    a.brain != null && a.brain.Valid() && a.brain.nInput == N_INPUT && a.brain.nHidden == N_HIDDEN &&
    a.brain.nOutput == N_OUTPUT && a.brain.state.Length == a.brain.nNeurons && |a.outputs| == 3
  }

  /** `Agent.__init__` at `(x, y)`: `heading` is the random initial angle,
      `weights` the random initial controller weights. */
  method NewAgent(id: nat, x: real, y: real, heading: real, weights: (nat, nat) -> real)
    returns (a: WorldObject)
    ensures fresh(a) && fresh(a.brain) && a.brain != null && fresh(a.brain.W) && fresh(a.brain.state)
    ensures a.kind == AgentBody && a.size == AGENT_SIZE && a.color == AGENT_COLOR && a.id == id
    ensures a.x == x && a.y == y && a.angle == heading
    ensures a.energy == 1.0 && a.health == 1.0 && a.age == 0 && a.score == 0 && a.interacted == null
    ensures a.inputs == [] && a.outputs == [0.0, 0.0, 0.0]
    ensures a.brain.Valid() && a.brain.nInput == N_INPUT && a.brain.nHidden == N_HIDDEN && a.brain.nOutput == N_OUTPUT
    ensures WellFormed(a)
  {
    a := new WorldObject(id, AgentBody, AGENT_SIZE, AGENT_COLOR, x, y);
    a.angle := heading;
    a.brain := new NeuroBlob(N_INPUT, N_HIDDEN, N_OUTPUT, true, weights);
  }

  /** `_rotate(d_theta)`: the heading stays in [0, 2*pi). */
  method Rotate(agent: WorldObject, dTheta: real)
    modifies agent`angle
    ensures agent.angle == PyMod(old(agent.angle) + dTheta, TAU)
    ensures 0.0 <= agent.angle < TAU
  {
    agent.angle := PyMod(agent.angle + dTheta, TAU);
  }

  /** `_move(velocity)`: a step of `velocity` along the heading, with no
      clamping to the world. */
  method Move(agent: WorldObject, velocity: real, m: Maths)
    modifies agent`x, agent`y
    ensures agent.Position() == Add(old(agent.Position()), Heading(agent.angle, velocity, m))
  {
    var dx := m.cos(agent.angle) * velocity;
    var dy := m.sin(agent.angle) * velocity;
    agent.x := agent.x + dx;
    agent.y := agent.y + dy;
  }

  /** The displacement of a step of `velocity` along `angle`. */
  function Heading(angle: real, velocity: real, m: Maths): Vec
  {
    Vec(m.cos(angle) * velocity, m.sin(angle) * velocity)
  }

  /** A step covers exactly `|velocity|`. */
  lemma {:induction false} StepLength(angle: real, velocity: real, m: Maths)
    requires Lawful(m)
    ensures Hypot(m, Heading(angle, velocity, m)) == Abs(velocity)
  {
    var c, s := m.cos(angle), m.sin(angle);
    var h := Heading(angle, velocity, m);
    var a := Abs(velocity);
    assert c * c + s * s == 1.0;
    NormSqScale(Vec(c, s), velocity);
    assert h == Scale(Vec(c, s), velocity);
    var n := NormSq(h);
    assert n == velocity * velocity;
    assert velocity * velocity == a * a;
    SqrtOfSquare(m, a);
    assert Hypot(m, h) == m.sqrt(n);
  }

  /** `_apply_energy_cost(cost)` on the agent. */
  method ApplyEnergyCost(agent: WorldObject, cost: real)
    modifies agent`energy, agent`health
    ensures Vitals(agent.energy, agent.health) == Spend(old(Vitals(agent.energy, agent.health)), cost)
  {
    if agent.energy > cost {
      agent.energy := agent.energy - cost;
    } else {
      var deficit := cost - agent.energy;
      agent.energy := 0.0;
      agent.health := Max(0.0, agent.health - deficit);
    }
  }

  /** `_restore_health()` on the agent. */
  method RestoreHealth(agent: WorldObject)
    modifies agent`energy, agent`health
    ensures Vitals(agent.energy, agent.health) == Regenerate(old(Vitals(agent.energy, agent.health)))
  {
    if agent.health < 1.0 {
      var heal := Min(Min(REGEN_COST, 1.0 - agent.health), agent.energy);
      agent.health := agent.health + heal;
      agent.energy := agent.energy - heal;
    }
  }

  /** `_process_consumption(food)` on the agent. */
  method ProcessConsumption(agent: WorldObject, food: WorldObject)
    requires food.kind.Edible?
    modifies agent`energy, agent`health, agent`score
    ensures Vitals(agent.energy, agent.health) == Consumption(old(Vitals(agent.energy, agent.health)), food.kind)
    ensures agent.score == old(agent.score) + ScoreChange(food.kind)
  {
    agent.energy := Min(1.0, agent.energy + food.kind.energyCost);
    agent.health := Max(0.0, agent.health + food.kind.healthCost);
    agent.score := agent.score + ScoreChange(food.kind);
  }

  /** The bearing of `o` seen from `agent`, relative to its heading, in [-pi, pi). */
  function RelativeAngle(agent: WorldObject, o: WorldObject, m: Maths): (r: real)
    reads agent`x, agent`y, agent`angle, o`x, o`y
    ensures -PI <= r < PI
  {
    Bearing(Sub(o.Position(), agent.Position()), agent.angle, m)
  }

  /** The bearing of the offset `d` relative to `heading`, wrapped into
      [-pi, pi) as `(atan2(dy, dx) + pi - heading) % (2 pi) - pi`. */
  function Bearing(d: Vec, heading: real, m: Maths): real
  {
    PyMod(m.atan2(d.y, d.x) + PI - heading, TAU) - PI
  }

  /** The reach test of `_consume_if_possible`: within 1.2 times the sum of
      the radii and within half the vision angle of the heading. */
  predicate InReach(agent: WorldObject, o: WorldObject, m: Maths)
    reads agent`x, agent`y, agent`angle, o`x, o`y
  {
    var distance := Hypot(m, Sub(o.Position(), agent.Position()));
    !(distance > (Radius(agent.size, m) + Radius(o.size, m)) * 1.2 ||
      Abs(RelativeAngle(agent, o, m)) > VISION_ANGLE / 2.0)
  }

  /** The search of `_consume_if_possible`: the first object of `candidates`
      in reach, in the set's iteration order, or null when none is. */
  method FirstInReach(agent: WorldObject, candidates: set<WorldObject>, m: Maths)
    returns (target: WorldObject?)
    ensures target == null <==> forall o :: o in candidates ==> !InReach(agent, o, m)
    ensures target != null ==> target in candidates && InReach(agent, target, m)
  {
    var remaining := candidates;
    while remaining != {}
      invariant remaining <= candidates
      invariant forall o :: o in candidates - remaining ==> !InReach(agent, o, m)
      decreases remaining
    {
      var o :| o in remaining;
      remaining := remaining - {o};
      if InReach(agent, o, m) {
        return o;
      }
    }
    return null;
  }

  /** The bite of `_consume_if_possible` on the object found in reach: food
      and poison are consumed and remembered as the agent's last interaction;
      anything else is left alone. */
  method Bite(agent: WorldObject, target: WorldObject)
    modifies agent`energy, agent`health, agent`score, agent`interacted
    ensures target.kind.Edible? ==>
      Vitals(agent.energy, agent.health) == Consumption(old(Vitals(agent.energy, agent.health)), target.kind) &&
      agent.score == old(agent.score) + ScoreChange(target.kind) &&
      agent.interacted == target
    ensures !target.kind.Edible? ==>
      agent.energy == old(agent.energy) && agent.health == old(agent.health) &&
      agent.score == old(agent.score) && agent.interacted == old(agent.interacted)
  {
    if target.kind.Edible? {
      ProcessConsumption(agent, target);
      agent.interacted := target;
    }
  }

  /** The loop of `_consume_if_possible`: stops at the first object of
      `candidates` in reach and consumes it if it is food; returns that
      object, or null when none is in reach. */
  method BiteFirstInReach(agent: WorldObject, candidates: set<WorldObject>, m: Maths)
    returns (target: WorldObject?)
    modifies agent`energy, agent`health, agent`score, agent`interacted
    ensures target == null <==> forall o :: o in candidates ==> !InReach(agent, o, m)
    ensures target != null ==> target in candidates && InReach(agent, target, m)
    ensures target != null && target.kind.Edible? ==>
      Vitals(agent.energy, agent.health) == Consumption(old(Vitals(agent.energy, agent.health)), target.kind) &&
      agent.score == old(agent.score) + ScoreChange(target.kind) &&
      agent.interacted == target
    ensures target == null || !target.kind.Edible? ==>
      agent.energy == old(agent.energy) && agent.health == old(agent.health) &&
      agent.score == old(agent.score) && agent.interacted == old(agent.interacted)
  {
    target := FirstInReach(agent, candidates, m);
    if target != null {
      Bite(agent, target);
    }
  }

  /** `_consume_if_possible(nearests)` as written: the biting cost is paid
      once, then the first object of `nearests` in reach is taken, even
      when that object is the agent itself. */
  method ConsumeIfPossible(agent: WorldObject, nearests: set<WorldObject>, m: Maths)
    returns (target: WorldObject?)
    modifies agent`energy, agent`health, agent`score, agent`interacted
    ensures target == null <==> forall o :: o in nearests ==> !InReach(agent, o, m)
    ensures target != null ==> target in nearests && InReach(agent, target, m)
    ensures target != null && target.kind.Edible? ==>
      Vitals(agent.energy, agent.health) ==
        Consumption(Spend(old(Vitals(agent.energy, agent.health)), BITING_COST), target.kind) &&
      agent.score == old(agent.score) + ScoreChange(target.kind) && agent.interacted == target
    ensures target == null || !target.kind.Edible? ==>
      Vitals(agent.energy, agent.health) == Spend(old(Vitals(agent.energy, agent.health)), BITING_COST) &&
      agent.score == old(agent.score) && agent.interacted == old(agent.interacted)
  {
    ApplyEnergyCost(agent, BITING_COST);
    target := BiteFirstInReach(agent, nearests, m);
  }

  /** An agent is in its own reach exactly when its heading is within half
      the vision angle of the x axis: the agent is at distance 0 of itself
      and `atan2(0, 0)` is 0, so its bearing to itself is minus its heading,
      taken modulo a full turn. So when `nearests` holds the agent itself,
      the as-written loop may stop at the agent and consume nothing, whatever
      food is in reach too. */
  lemma {:induction false} SelfInReach(agent: WorldObject, m: Maths)
    requires Lawful(m) && agent.size == AGENT_SIZE && 0.0 <= agent.angle < TAU
    ensures InReach(agent, agent, m) <==>
      agent.angle <= VISION_ANGLE / 2.0 || TAU - VISION_ANGLE / 2.0 <= agent.angle
  {
    var d := Sub(agent.Position(), agent.Position());
    assert d == Vec(0.0, 0.0);
    HypotZero(m, d);
    var a := PI - agent.angle;
    assert m.atan2(d.y, d.x) + PI - agent.angle == a;
    if a >= 0.0 {
      assert RelativeAngle(agent, agent, m) == -agent.angle;
    } else {
      PyModNegative(a, TAU);
      assert RelativeAngle(agent, agent, m) == TAU - agent.angle;
    }
  }

  /** `_consume_if_possible` as evidently intended, skipping the agent
      itself as `_sense` does: the agent never blocks its own bite. */
  method ConsumeIfPossibleSkippingSelf(agent: WorldObject, nearests: set<WorldObject>, m: Maths)
    returns (target: WorldObject?)
    modifies agent`energy, agent`health, agent`score, agent`interacted
    ensures target != agent
    ensures target == null <==> forall o :: o in nearests && o != agent ==> !InReach(agent, o, m)
    ensures target != null ==> target in nearests && InReach(agent, target, m)
    ensures target != null && target.kind.Edible? ==>
      Vitals(agent.energy, agent.health) ==
        Consumption(Spend(old(Vitals(agent.energy, agent.health)), BITING_COST), target.kind) &&
      agent.score == old(agent.score) + ScoreChange(target.kind) && agent.interacted == target
    ensures target == null || !target.kind.Edible? ==>
      Vitals(agent.energy, agent.health) == Spend(old(Vitals(agent.energy, agent.health)), BITING_COST) &&
      agent.score == old(agent.score) && agent.interacted == old(agent.interacted)
  {
    ApplyEnergyCost(agent, BITING_COST);
    target := BiteFirstInReach(agent, nearests - {agent}, m);
  }

  /** `_act(nearests)`: turn by a tenth of the first output, age by one,
      move by the second output, try to eat when the third output is above
      `CONSUME_LEVEL`, then pay the movement cost and regenerate. Returns
      the object bitten, or null when the agent did not try to eat or found
      nothing in reach; the reach test is taken at the moved position. */
  method Act(agent: WorldObject, nearests: set<WorldObject>, m: Maths) returns (target: WorldObject?)
    requires |agent.outputs| == 3
    modifies agent`angle, agent`x, agent`y, agent`age, agent`energy, agent`health, agent`score, agent`interacted
    ensures agent.age == old(agent.age) + 1
    ensures agent.angle == PyMod(old(agent.angle) + old(agent.outputs[0]) * 0.1, TAU)
    ensures agent.Position() == Add(old(agent.Position()), Heading(agent.angle, old(agent.outputs[1]), m))
    ensures old(agent.outputs[2]) <= CONSUME_LEVEL ==>
      target == null &&
      Vitals(agent.energy, agent.health) ==
        Regenerate(Spend(old(Vitals(agent.energy, agent.health)), MovementCost(old(agent.outputs[1])))) &&
      agent.score == old(agent.score)
    ensures old(agent.outputs[2]) > CONSUME_LEVEL ==>
      (target == null <==> forall o :: o in nearests && o != agent ==> !InReach(agent, o, m))
    ensures target != null ==> target in nearests && target != agent && InReach(agent, target, m)
    ensures old(agent.outputs[2]) > CONSUME_LEVEL && target != null && target.kind.Edible? ==>
      Vitals(agent.energy, agent.health) ==
        Regenerate(Spend(Consumption(Spend(old(Vitals(agent.energy, agent.health)), BITING_COST), target.kind),
                         MovementCost(old(agent.outputs[1])))) &&
      agent.score == old(agent.score) + ScoreChange(target.kind)
    ensures old(agent.outputs[2]) > CONSUME_LEVEL && (target == null || !target.kind.Edible?) ==>
      Vitals(agent.energy, agent.health) ==
        Regenerate(Spend(Spend(old(Vitals(agent.energy, agent.health)), BITING_COST), MovementCost(old(agent.outputs[1])))) &&
      agent.score == old(agent.score)
    ensures (InUnit(old(Vitals(agent.energy, agent.health))) &&
             forall o :: o in nearests && o.kind.Edible? ==> o.kind.energyCost >= 0.0 && o.kind.healthCost <= 0.0) ==>
      InUnit(Vitals(agent.energy, agent.health))
  {
    var dTheta, velocity, eat := agent.outputs[0], agent.outputs[1], agent.outputs[2];
    dTheta := dTheta * 0.1;
    agent.age := agent.age + 1;
    Rotate(agent, dTheta);
    Move(agent, velocity, m);
    target := EatAndRecover(agent, nearests, eat, velocity, m);
  }

  /** The part of `_act` after moving: try to eat when `eat` is above
      `CONSUME_LEVEL`, then pay the movement cost of `velocity` and
      regenerate. */
  method EatAndRecover(agent: WorldObject, nearests: set<WorldObject>, eat: real, velocity: real, m: Maths)
    returns (target: WorldObject?)
    modifies agent`energy, agent`health, agent`score, agent`interacted
    ensures eat <= CONSUME_LEVEL ==>
      target == null &&
      Vitals(agent.energy, agent.health) ==
        Regenerate(Spend(old(Vitals(agent.energy, agent.health)), MovementCost(velocity))) &&
      agent.score == old(agent.score)
    ensures eat > CONSUME_LEVEL ==>
      (target == null <==> forall o :: o in nearests && o != agent ==> !InReach(agent, o, m))
    ensures target != null ==> target in nearests && target != agent && InReach(agent, target, m)
    ensures eat > CONSUME_LEVEL && target != null && target.kind.Edible? ==>
      Vitals(agent.energy, agent.health) ==
        Regenerate(Spend(Consumption(Spend(old(Vitals(agent.energy, agent.health)), BITING_COST), target.kind),
                         MovementCost(velocity))) &&
      agent.score == old(agent.score) + ScoreChange(target.kind)
    ensures eat > CONSUME_LEVEL && (target == null || !target.kind.Edible?) ==>
      Vitals(agent.energy, agent.health) ==
        Regenerate(Spend(Spend(old(Vitals(agent.energy, agent.health)), BITING_COST), MovementCost(velocity))) &&
      agent.score == old(agent.score)
    ensures (InUnit(old(Vitals(agent.energy, agent.health))) &&
             forall o :: o in nearests && o.kind.Edible? ==> o.kind.energyCost >= 0.0 && o.kind.healthCost <= 0.0) ==>
      InUnit(Vitals(agent.energy, agent.health))
  {
    target := null;
    if eat > CONSUME_LEVEL {
      target := ConsumeIfPossibleSkippingSelf(agent, nearests, m);
    }
    ApplyEnergyCost(agent, MovementCost(velocity));
    RestoreHealth(agent);
  }
}
