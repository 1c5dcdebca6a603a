# NeuroBlob core in Dafny

A model of the core of NeuroBlob, a small artificial-life simulator. Agents
live in a rectangular world, see it through a fan of vision rays, and are
driven by a small recurrent network (a "NeuroBlob"). They pay energy to
move and to bite, and they eat food (and poison) that the world replaces.
A generation manager keeps the best-scoring agent of a generation and seeds
the next one with mutated copies of its network.

The model has one module per source file:

- `Numerics` (`numerics.dfy`). Vectors over `real`, and Python's `int()`
  (truncation toward zero), float `%` (floored remainder) and `np.clip`,
  each written out. Square root, cosine, sine, `atan2` and `tanh` are the
  fields of a `Maths` value that every operation receives. `Lawful(m)`
  states the laws the proofs use: a square root squares back, cos² + sin² = 1,
  and `atan2(0, 0) = 0`. `TanhBounded` states |tanh| ≤ 1.
- `WorldObjects` (`world_object.py`). Sizes (a number for a circle, a pair
  for a rectangle), shape classification, width, height and radius,
  identity by id, and the collision correction. `WorldObject` is a class
  with the mutable fields of every object, and of the agent subclass too.
  A `kind` tag says whether the object is a plain object, an agent body,
  something edible (food or poison, with its energy and health effects) or
  a wall.
- `NeuroBlobs` (`neuroblob.py`). The network as a class over arrays:
  `W` is an `array2`, and `state` and `buffer` are arrays. `step` is
  specified by a pure `Iterate` function, and `mutate` and `learn` by
  per-weight functions. The shape check of `load` is the pure
  `CheckRecord`.
- `Agents` (`agent.py`). The metabolism functions (`Spend`, `Regenerate`,
  `Consumption`), the ray/circle and ray/rectangle distances, perception
  (`Sense` over a set of nearby objects), and the agent's actions as
  methods on a `WorldObject`.
- `AgentsNew` (`experimental/agent_new.py`). The variant whose movement is
  clamped to the world. Its perception includes the world's walls, and
  eating swaps the eaten food for a new object of the same class, so the
  number of food objects stays the same.
- `Worlds` (`world.py`). The uniform 8 × 6 grid (a `map` from cells to
  object sets), the cell computation for a bounding box, add, remove and
  reconcile, the area query, and the `World` class with its grid and
  category map.
- `WorldUpdates` (`world.py`, `World.update`). One tick: every agent
  senses, then thinks, then acts and is re-indexed. This is in its own
  module because it uses the agent operations, which use the world.
- `SimulationManagers` (`simulation_manager.py`). The generation manager
  as a class: generation and tick counters, best-agent tracking, the
  statistics series, and repopulation from the best network.

Randomness is passed in. `Worlds.Draws` gives the spawn positions (as
fractions of the world's extent), ids, headings and initial weights of
`add_object`. `SimulationManagers.GenerationDraws` gives what one
generation draws, including the mutation mask and noise of each copied
network. The contents of a brain file arrive as an `Option<Record>`.

Python sets are iterated in an unspecified order, so loops over a set pick
any remaining element, and their contracts do not depend on the order.

## Model

| member | source | states |
|---|---|---|
| Numerics.Trunc | world.py:58-61 | Python's `int()` of a float: the integer at most the value for a non-negative value, at least it for a negative one, and within one of it |
| Numerics.TruncMonotone | world.py:58-61 | truncation is monotone, so grid indices never decrease as coordinates grow |
| Numerics.PyModNegative | agent.py:206 | Python's `%` of a value in [-m, 0) adds one modulus |
| Numerics.PyMod | agent.py:171 | Python's float `%` with a positive modulus lies in [0, m), is the identity on [0, m), and differs from its operand by a whole multiple of m |
| Numerics.Clip | world_object.py:105-110 | `np.clip` lies in [lo, hi] when lo ≤ hi and keeps an in-range value; with crossed bounds it returns hi |
| WorldObjects.ShapeClassification | world_object.py:69-77 | a numeric size is a circle and a pair is a rectangle, and exactly one of the two holds |
| WorldObjects.CircleDimensions | world_object.py:60-87 | for a circle, radius = size and width = height = 2·radius |
| WorldObjects.RectangleRadiusCovers | world_object.py:60-67 | a rectangle's radius (half its diagonal) is at least half of each side, so its radius box covers it |
| WorldObjects.WorldObject.constructor | world_object.py:22-39 | a new object has the given id, kind, size, colour and position, and the default agent fields |
| WorldObjects.WorldObject.Position | world_object.py:129-132 | the position getter returns (x, y) |
| WorldObjects.WorldObject.SetPosition | world_object.py:134-137 | after the setter, the position is the given vector |
| WorldObjects.WorldObject.Collide | world_object.py:89-126 | both positions become the pure `Collision` of the old positions and sizes; an object colliding with itself does not move |
| WorldObjects.EqualityIsIdentityOfIds | world_object.py:41-47 | equality holds exactly when the ids are equal; it is reflexive, symmetric and transitive, false against a non-object, and equal objects hash alike |
| WorldObjects.CircleCollisionConservesSum | world_object.py:91-101 | a circle–circle correction moves the two circles by opposite amounts, so the sum of their positions is kept |
| WorldObjects.CircleCollisionNoOp | world_object.py:97 | circles at distance 0, or at least the radius sum apart, do not move |
| WorldObjects.CircleCollisionSeparates | world_object.py:97-101 | overlapping circles at a positive distance end exactly the radius sum apart |
| WorldObjects.RectangleStaysPut | world_object.py:103-122 | in a circle–rectangle collision the rectangle never moves, whichever side it is on |
| WorldObjects.CircleRectangleNoOp | world_object.py:112-118 | a circle whose centre is inside the rectangle (distance 0), or at least a radius from it, does not move |
| WorldObjects.CircleRectangleTouches | world_object.py:112-118 | an overlapping circle ends exactly one radius from the rectangle's closest point |
| WorldObjects.PushReaches | world_object.py:115-118 | pushing a point away from a closer point leaves it at exactly the push distance |
| WorldObjects.CollisionDelegation | world_object.py:120-126 | rectangle–circle is circle–rectangle with the arguments swapped, and rectangle–rectangle changes nothing |
| NeuroBlobs.Product | neuroblob.py:78 | `np.dot(W, state)` has one entry per row of W, each the weighted sum of the state |
| NeuroBlobs.ActivationIsTanhOfProduct | neuroblob.py:78-79 | one pass is the kept first slots followed by tanh of `np.dot(W, state)` |
| NeuroBlobs.TanhInto | neuroblob.py:79 | `np.tanh(buffer, out=state[hidden_start:])`: the slots from the start index take tanh of the buffer, the slots before it are kept |
| NeuroBlobs.NeuroBlob.Pass | neuroblob.py:78-79 | one pass of the loop moves the state exactly one `Activation` further |
| NeuroBlobs.Activation | neuroblob.py:78-79 | one pass keeps the bias and input slots and sets each recurrent slot to tanh of its row's weighted sum |
| NeuroBlobs.Iterate | neuroblob.py:77-79 | `steps_count` passes keep the length of the state |
| NeuroBlobs.IterateKeepsPrefix | neuroblob.py:77-79 | any number of passes leaves the bias and input slots as they were |
| NeuroBlobs.IterateBounded | neuroblob.py:79 | with a bounded tanh and at least one pass, every recurrent slot lies in [-1, 1] |
| NeuroBlobs.WithInputs | neuroblob.py:74 | writing the inputs replaces exactly slots 1 to n_input and keeps the bias and the rest |
| NeuroBlobs.MutatedWeight | neuroblob.py:91-94 | a mutated weight lies in [-1, 1]; an unmasked weight in range is kept, and a masked one moves by at most the noise |
| NeuroBlobs.LearnedWeight | neuroblob.py:104-106 | a learned weight lies in [-1, 1] and moves in the direction of lr·reward·post·pre; a zero reward changes nothing |
| NeuroBlobs.CheckRecord | neuroblob.py:136-138 | a record passes exactly when W has n_recurrent (> 0) rows of n_neurons entries; a wrong row count or first-row length is the incompatible-weights error |
| NeuroBlobs.CheckIgnoresState | neuroblob.py:136-141 | the check does not look at the stored state |
| NeuroBlobs.NeuroBlob.constructor | neuroblob.py:23-54 | the layout indices and shapes hold, the state is zero except the bias 1.0, and each weight is its draw, except the self-connections, which are 0 when they are not allowed |
| NeuroBlobs.NeuroBlob.FromParts | neuroblob.py:140-141 | a network built from a weight matrix and a state holds exactly them |
| NeuroBlobs.NeuroBlob.Clone | simulation_manager.py:100 | `copy.deepcopy` of a network: fresh arrays with the same layout, weights and state |
| NeuroBlobs.NeuroBlob.ComputeBuffer | neuroblob.py:78 | the buffer becomes the product of W and the state |
| NeuroBlobs.NeuroBlob.ApplyTanh | neuroblob.py:79 | the state becomes one activation pass of the old state |
| NeuroBlobs.NeuroBlob.WriteInputs | neuroblob.py:74 | the state becomes the old state with the inputs written in |
| NeuroBlobs.NeuroBlob.Propagate | neuroblob.py:77-79 | the state becomes `Iterate` of the old state over `steps_count` passes |
| NeuroBlobs.NeuroBlob.Step | neuroblob.py:56-81 | a wrong input length fails and changes nothing; otherwise the state is `Iterate` of the state with the inputs written in, and the result is the n_output output slots |
| NeuroBlobs.NeuroBlob.Mutate | neuroblob.py:83-94 | every weight becomes its `MutatedWeight`, so the shape is kept and all weights lie in [-1, 1] |
| NeuroBlobs.NeuroBlob.Learn | neuroblob.py:96-106 | succeeds exactly for a state of length n_neurons (with a recurrent neuron) or of length 1; then every weight W[i][j] becomes clip(W[i][j] + lr·reward·state[hidden_start+i]·state[j], -1, 1), or clip(W[i][j] + lr·reward·state[0]², -1, 1) for the broadcast length-1 state; on failure W is unchanged |
| NeuroBlobs.NeuroBlob.ToRecord | neuroblob.py:108-118 | the saved record has W's shape and the state, and `load`'s check accepts it |
| NeuroBlobs.NeuroBlob.Load | neuroblob.py:122-141 | the outcome is `CheckRecord` of the record; on success W and the state are the record's, and on failure nothing changes |
| Agents.Dimensions | agent.py:61-63 | the network has 46 inputs, 98 hidden and 3 outputs: 148 neurons |
| Agents.Spend | agent.py:182-189 | with a non-negative cost, energy and health stay in [0, 1]; energy above the cost drops by it, otherwise energy is 0 and health loses the deficit, floored at 0 |
| Agents.Regenerate | agent.py:191-196 | energy + health is kept, health never passes 1, energy never drops below 0, full health is a no-op, and values in [0, 1] stay there |
| Agents.Consumption | agent.py:220-224 | eating caps energy at 1 and floors health at 0; food never lowers energy and poison never raises health |
| Agents.ScoreChange | agent.py:225 | the score changes by +1 exactly when the food's energy effect is non-zero, else by -1 |
| Agents.FoodAndPoison | food.py:13-39 | food adds 0.2 energy (capped) and +1 score; poison takes 0.1 health (floored) and -1 score |
| Agents.MovementCost | agent.py:147 | the movement cost is at least the passive cost, and equal to it exactly at zero velocity |
| Agents.IntersectRayCircle | agent.py:229-251 | the distance is None or ≥ 0, and None when the circle is beyond the vision distance, behind the ray, or off the ray by more than its radius |
| Agents.RayCircle | agent.py:236-251 | the same bounds on the intermediate quantities, and a hit is one of the two crossings |
| Agents.Crossing | agent.py:244-251 | a crossing is the nearer non-negative of t_ca ∓ t_hc, and None when the ray misses |
| Agents.CrossingOnCircle | agent.py:248-251 | a crossing distance solves the ray/circle equation |
| Agents.RayCircleHitIsOnCircle | agent.py:229-251 | with a unit direction, the hit point lies on the circle |
| Agents.EdgeHit | agent.py:293-303 | an edge hit is ahead of the agent (> 0), lies on the edge's line, and crosses within the edge's span |
| Agents.RectangleEdges | agent.py:284-303 | the four candidate edge hits of a rectangle |
| Agents.NearestHitIsMinimum | agent.py:291-305 | the running minimum is at most the vision distance, at most every hit, and is one of them or the vision distance |
| Agents.IntersectRayRectangle | agent.py:280-305 | the loop returns the minimum over the edge hits, which lies in (0, VISION_DISTANCE] |
| Agents.RayFan | agent.py:84-86 | the rays span the vision angle centred on the heading, symmetric about it |
| Agents.RayDistance | agent.py:97-100 | a ray's distance to an object is None or ≥ 0 |
| Agents.Proximity | agent.py:102-105 | a proximity, when seen, lies in [0, 1] |
| Agents.MeasureProximity | agent.py:97-105 | the proximity of one object along one ray, in [0, 1] |
| Agents.ReadingKept | agent.py:106-108 | an object no closer than the current best (or the agent itself) keeps the reading |
| Agents.ReadingReplaced | agent.py:106-108 | a strictly closer object replaces the best proximity and colour |
| Agents.RayReading | agent.py:88-108 | the best proximity over all other objects, 0 with black when nothing is seen, else the colour of an object achieving it |
| Agents.LookAt | agent.py:93-108 | one step of the scan keeps the reading the best over the objects seen so far |
| Agents.RecordKept | agent.py:110 | appending entries keeps the rays already recorded |
| Agents.RecordOneMore | agent.py:110 | appending a ray's best reading records one more ray |
| Agents.ReadRays | agent.py:83-110 | the ray loop records 4 entries per ray: the best proximity along that ray and the colour of the object giving it (black when nothing is seen) |
| Agents.Sense | agent.py:75-114 | the inputs are 46 entries: each ray's best proximity and the colour of the object giving it, then 1 - energy and 1 - health |
| Agents.NewAgent | agent.py:43-65 | a fresh agent has size 6, full energy and health, age and score 0, outputs [0, 0, 0] and a well-formed 46/98/3 network |
| Agents.Rotate | agent.py:169-171 | the heading becomes (angle + dθ) mod 2π, in [0, 2π) |
| Agents.Move | agent.py:173-180 | the position moves by the velocity along the heading |
| Agents.StepLength | agent.py:175-176 | the step has length |velocity| |
| Agents.ApplyEnergyCost | agent.py:182-189 | the vitals become `Spend` of the old vitals |
| Agents.RestoreHealth | agent.py:191-196 | the vitals become `Regenerate` of the old vitals |
| Agents.ProcessConsumption | agent.py:220-225 | the vitals become `Consumption` and the score changes by `ScoreChange` |
| Agents.RelativeAngle | agent.py:206 | the bearing of an object relative to the heading lies in [-π, π) |
| Agents.FirstInReach | agent.py:202-209 | returns an object in reach, or null exactly when none is |
| Agents.Bite | agent.py:211-216 | biting food applies its consumption and records it; biting anything else changes nothing |
| Agents.BiteFirstInReach | agent.py:202-218 | the first object in reach is bitten, and only food changes the agent |
| Agents.ConsumeIfPossible | agent.py:198-218 | the biting cost is charged once; the first object in reach, possibly the agent itself, is bitten, and only food changes the agent further |
| Agents.SelfInReach | agent.py:202-209 | an agent is in its own reach exactly when its heading is within half the vision angle of 0 (mod 2π) |
| Agents.ConsumeIfPossibleSkippingSelf | agent.py:198-218 | as above, but the agent never picks itself, so it is null exactly when no other object is in reach |
| Agents.EatAndRecover | agent.py:144-149 | below the consume level nothing is bitten and the vitals are `Regenerate(Spend(…, movement cost))`; above it the target is null exactly when no other object is in reach, and an edible target adds its consumption and score between the biting cost and the movement cost |
| Agents.Act | agent.py:125-149 | age + 1, the damped turn, the move, and the costs. Below the consume level nothing is bitten and the vitals are `Regenerate(Spend(…, movement cost))`. Above it the biting cost is paid; the target is null exactly when no other object is in reach at the moved position, and an edible target adds its consumption and score before the movement cost. Vitals in [0, 1] stay there |
| AgentsNew.Clamp | experimental/agent_new.py:7-8 | the result lies in [lo, hi] when lo ≤ hi, keeps an in-range value, and is lo below range and hi above it |
| AgentsNew.ClampAndClip | experimental/agent_new.py:122-124 | `clamp` and `np.clip` agree when lo ≤ hi and differ (lo against hi) when the bounds cross |
| AgentsNew.SpendNew | experimental/agent_new.py:126-132 | the `>=` variant: vitals in [0, 1] stay there, energy equal to the cost drops to 0 with health kept, and health + energy drops by the cost unless both hit 0 |
| AgentsNew.SpendNewAgrees | experimental/agent_new.py:126-132 | the variant agrees with agent.py's spend except when energy equals the cost and health is negative |
| AgentsNew.ApplyEnergyCost | experimental/agent_new.py:126-132 | the vitals become `SpendNew` of the old vitals |
| AgentsNew.ClampedStep | experimental/agent_new.py:119-124 | the new position lies in [r, width − r] × [r, height − r] when the world fits the body, and is the plain step when that is in range |
| AgentsNew.Move | experimental/agent_new.py:119-124 | the position becomes the clamped step, so the body stays inside a world at least twice its radius in each direction |
| AgentsNew.IntersectRayCircle | experimental/agent_new.py:154-169 | the distance is None or ≥ 0, and None beyond the vision distance or off the ray by more than the radius |
| AgentsNew.RayCircle | experimental/agent_new.py:158-169 | the same bounds on the intermediate quantities, and a hit is a crossing |
| AgentsNew.IntersectRayCircleAhead | experimental/agent_new.py:154-169 | for a circle ahead of the ray, this agrees with agent.py's version |
| AgentsNew.RayCircleAhead | experimental/agent_new.py:162-169 | the same agreement on the intermediate quantities |
| AgentsNew.HitBehindMeansInside | experimental/agent_new.py:162-169 | without agent.py's `t_ca < 0` test, a hit on a circle behind the ray happens only when the agent is inside the circle |
| AgentsNew.BehindInside | experimental/agent_new.py:166-169 | the same on the intermediate quantities |
| AgentsNew.HitIsOnCircle | experimental/agent_new.py:154-169 | with a unit direction, the hit point lies on the circle |
| AgentsNew.WallDistance | experimental/agent_new.py:171-194 | None exactly when the agent is farther than the vision distance from every wall or the ray's tip stays inside; otherwise a distance in [0, VISION_DISTANCE] |
| AgentsNew.AxisCut | experimental/agent_new.py:185-192 | one axis's cut: non-negative, at most the current distance, and at most the distance to the crossed wall |
| AgentsNew.WallHitInWorld | experimental/agent_new.py:183-194 | the wall-hit point lies in the world |
| AgentsNew.AxisHitWithin | experimental/agent_new.py:185-192 | one axis's cut keeps the point within that axis's extent |
| AgentsNew.WallHitOnWall | experimental/agent_new.py:183-194 | a wall hit nearer than the vision distance lies on one of the four walls |
| AgentsNew.AxisOnWall | experimental/agent_new.py:185-192 | a cut that shortens the distance ends on that axis's wall |
| AgentsNew.AxisHit | experimental/agent_new.py:185-192 | a distance within both cut bounds keeps the point within the axis |
| AgentsNew.WallProximity | experimental/agent_new.py:67-71 | a wall proximity lies in [0, 1] and exists exactly when the wall distance does |
| AgentsNew.Proximity | experimental/agent_new.py:77-80 | an object's proximity, when seen, lies in [0, 1] |
| AgentsNew.RayReading | experimental/agent_new.py:62-84 | the reading is the wall's (grey) unless some other object is strictly closer, and then the best object's |
| AgentsNew.RecordOneMore | experimental/agent_new.py:86-88 | writing a ray's four slots records one more ray |
| AgentsNew.RecordKept | experimental/agent_new.py:86-88 | writing past the recorded slots keeps the rays recorded |
| AgentsNew.Sense | experimental/agent_new.py:55-92 | the inputs are 46 entries: each ray's best reading over the walls and all other objects, then 1 − energy and 1 − health |
| AgentsNew.Readings | experimental/agent_new.py:55-92 | 46 readings: the best reading of each ray over the walls and all objects, then 1 − energy and 1 − health |
| AgentsNew.Think | experimental/agent_new.py:94-96 | one network pass on the inputs; the outputs are the output slots, in [-1, 1] with a bounded tanh |
| AgentsNew.ConsumeIfPossible | experimental/agent_new.py:140-152 | eats nothing exactly when no food is in reach; otherwise one food in reach is swapped for a new object of its class, energy rises by 0.2 (capped), the score by 1, and the number of food objects is kept |
| AgentsNew.FirstEdible | experimental/agent_new.py:141-147 | returns a food in reach, or null exactly when none is |
| AgentsNew.Eat | experimental/agent_new.py:148-151 | eating one food: the swap, +0.2 energy (capped) and +1 score |
| AgentsNew.Replace | experimental/agent_new.py:148-150 | the food is removed and a fresh object of its kind is added and indexed; the food count is kept |
| AgentsNew.SwapRecorded | experimental/agent_new.py:148-150 | a removal followed by an addition is a swap of the two objects in the category map and the grid |
| AgentsNew.AddOfClass | experimental/agent_new.py:150 | `add_object(type(food))` adds one fresh object of that kind, files it under its category, and indexes it |
| AgentsNew.SwapKeepsSize | experimental/agent_new.py:148-150 | replacing one member by a non-member keeps the set's size |
| AgentsNew.Act | experimental/agent_new.py:98-112 | age + 1, the damped turn, the clamped move, then eating: only when the eat output is positive, and then a food is eaten exactly when one is in reach, and the food eaten was in reach; the eaten food is swapped for the one fresh object `added` of its kind in the category map and the grid, and nothing changes there when nothing is eaten; then the costs. Vitals in [0, 1] stay there and categories other than food are kept |
| AgentsNew.MoveAndFeed | experimental/agent_new.py:105-112 | the clamped move, then eating as in `Feed` judged at the moved position (the eaten food swapped for the fresh `added`), then the costs; the food count and the other categories are kept and the grid changes only for old and new food |
| AgentsNew.Feed | experimental/agent_new.py:106-112 | eating when hungry (a positive eat output eats exactly when a food is in reach, and only a food in reach, which is swapped for the fresh `added` of its kind), then the costs and regeneration |
| AgentsNew.EatIfHungry | experimental/agent_new.py:106-107 | eats only when the eat output is positive; then eats exactly when a food is in reach, and the food eaten was in reach; eating swaps it for the one fresh object `added` of its kind and gives +0.2 energy (capped) and +1 score, and not eating changes neither the agent nor the world |
| AgentsNew.Metabolise | experimental/agent_new.py:110-112 | the vitals become `Regenerate(SpendNew(…, movement cost))`, and vitals in [0, 1] stay there |
| Worlds.ColumnCount | world.py:35-36 | one column of the grid has one cell per row |
| Worlds.CellsLeftOfCount | world.py:35-36 | the first k columns hold k·6 cells |
| Worlds.AllCellsCount | world.py:30-36 | the grid has 8 × 6 = 48 cells |
| Worlds.EmptyGrid | world.py:33-36 | a fresh grid has exactly the 48 cells, each holding the empty set |
| Worlds.ClampIndex | world.py:58-61 | a clamped index lies in [0, hi] and keeps an in-range index |
| Worlds.ObjectSpan | world.py:52-61 | the index range of a bounding box is clamped into the grid |
| Worlds.CellsOf | world.py:38-64 | the cells of an object lie in the grid, and an object without a radius has none |
| Worlds.IndexMonotone | world.py:58-61 | the cell index grows with the coordinate |
| Worlds.IndexInGrid | world.py:58-61 | a coordinate inside the world has an index inside the grid |
| Worlds.CentreCellRegistered | world.py:52-64 | an object whose centre is in the world is filed in the cell of its centre |
| Worlds.Added | world.py:66-69 | the object is added to exactly the listed cells; other cells and other objects are unchanged |
| Worlds.Removed | world.py:71-74 | the object is discarded from exactly the listed cells; other cells and other objects are unchanged |
| Worlds.AddRemoveIdempotent | world.py:66-74 | adding twice is adding once, and removing twice is removing once |
| Worlds.FiledOneMore | world.py:109-111 | filing one more object under a category keeps the category map consistent |
| Worlds.GrownByAdding | world.py:114-115 | adding an object grows the grid by that object only |
| Worlds.OthersStayRegistered | world.py:66-74 | adding or removing one object leaves every other object's registration as it was |
| Worlds.RegistrationKept | world.py:194-197 | when only a set of objects changed in the grid, every other object keeps its registration |
| Worlds.ChangedOnlyWider | world.py:194-197 | a change confined to some objects is confined to any larger set |
| Worlds.SwapChangesOnly | experimental/agent_new.py:148-150 | removing one object and adding another changes the grid only for those two |
| Worlds.RemoveUndoesAdd | world.py:66-74 | removing an object from the cells it was just added to restores the grid |
| Worlds.Reconcile | world.py:79-83 | applying only the differences old − new and new − old leaves the object registered in exactly the new cells, and changes nothing else |
| Worlds.ClassOf | world.py:105-106 | every spawnable kind comes from exactly one class |
| Worlds.ClassOfKindOf | world.py:105-106 | class and kind determine each other |
| Worlds.Construct | world.py:105 | `obj_class(x, y)` builds a fresh object of the class's kind, size and colour at the position; an agent gets a well-formed network |
| Worlds.QueryRange | world.py:162-171 | the scanned column and row range always lies inside the grid |
| Worlds.GatheredUnion | world.py:173-176 | the objects of a union of cells are the union of the objects of each |
| Worlds.ColumnsJoin | world.py:173-176 | the column ranges join up as the loop advances |
| Worlds.FoundIfRegistered | world.py:162-181 | an object registered in its cells and near the query is among the candidates scanned |
| Worlds.GatheredOneMore | world.py:173-176 | scanning one more cell adds exactly that cell's objects |
| Worlds.NearOnAxes | world.py:180-181 | passing the exact distance test implies overlap on each axis |
| Worlds.AxisMeets | world.py:162-171 | on each axis, the scanned range and an overlapping object's range share an index |
| Worlds.QueryRangeComplete | world.py:162-171 | the scanned cells meet the cells of every object that passes the distance test |
| Worlds.LowerRangesAgree | world.py:162-171 | for a centre below the far edge, the first index scanned as written (clamped at 0) equals the first clamped index |
| Worlds.UpperRangesAgree | world.py:162-171 | for a centre at or past the near edge, the last index scanned as written (clamped at 1) equals the last clamped index, or is one past the grid where the clamped one is its last index |
| Worlds.RangesCutToGrid | world.py:162-176 | two ranges that differ only by ending one past the grid cover the same grid cells |
| Worlds.QueryCellsAgreeInside | world.py:162-171 | for a query centred inside the world, the cells scanned as written, cut to the grid, are the clamped range's cells |
| Worlds.QueryRangesAgreeInside | world.py:162-176 | for a query centred inside the world, the range as written and the clamped range gather the same candidates |
| Worlds.QueryRangeAsWrittenMisses | world.py:162-176 | as written, a query centred beyond the right edge scans only column 8, which is not in the grid, and misses an object that passes the distance test; the clamped range finds it |
| Worlds.World.constructor | world.py:24-31 | a new world has the given size, no categories and the empty grid |
| Worlds.World.ObjectCells | world.py:38-64 | an object's cells lie in the grid |
| Worlds.World.AddToGrid | world.py:66-69 | the grid becomes `Added` of the old grid |
| Worlds.World.RemoveFromGrid | world.py:71-74 | the grid becomes `Removed` of the old grid |
| Worlds.World.UpdateObjectInGrid | world.py:76-83 | with old cells, the grid applies only the two set differences; without them, the object is added to its new cells |
| Worlds.World.GetObjects | world.py:134-146 | with no category, the union of all categories; with a category, its members, empty when unknown |
| Worlds.World.GetObjectsInArea | world.py:148-181 | the scanned candidates that pass the exact distance test; every registered object that passes the test is found; for a query centred inside the world, the result equals that of the range as written |
| Worlds.World.Scan | world.py:173-176 | the candidates are exactly the objects registered in the range's cells |
| Worlds.World.ScanColumn | world.py:174-176 | the objects registered in one column between two rows |
| Worlds.World.AddObject | world.py:85-118 | returns `count` distinct fresh objects built from the draws, files them under their category, registers each in exactly its cells, and changes nothing else |
| Worlds.World.AddNext | world.py:100-116 | one more iteration keeps the loop's account of what was added |
| Worlds.World.AddedOneMore | world.py:100-116 | filing and indexing one more fresh object extends that account |
| Worlds.World.SpawnedOneMore | world.py:102-105 | one more object built from its draws extends the list of spawned objects |
| Worlds.World.RegisteredOneMore | world.py:114-115 | indexing a new object keeps the earlier ones registered |
| Worlds.World.DistinctOneMore | world.py:116 | appending a new object keeps the list free of repeats |
| Worlds.World.AddOne | world.py:105-115 | one object is built, filed under its category and registered in exactly its cells |
| Worlds.World.RemoveObject | world.py:120-132 | the object leaves its cells and its category, and nothing else changes |
| WorldUpdates.SensePhase | world.py:186-187 | every agent's inputs are its readings of the world as it stood before anyone moved; controllers, states and readiness are untouched |
| WorldUpdates.ThinkOne | world.py:191 | `agent.think(steps_count=1)`: the outputs are one pass of the controller from the given state, and lie in [-1, 1] with a bounded tanh |
| WorldUpdates.ThinkSteady | world.py:190-191 | one controller pass of an agent leaves every agent of the phase as `Steady` describes it |
| WorldUpdates.ThinkNext | world.py:190-191 | one more agent has made one controller pass from its state before the phase, and every other agent is as `Phase` says |
| WorldUpdates.ThinkPhase | world.py:190-191 | when the agents own separate controllers, every agent has made exactly one pass from its state before the phase; inputs and bodies are untouched, and with a bounded tanh all outputs lie in [-1, 1] |
| WorldUpdates.ThinkAll | world.py:190-191 | the thinking loop leaves every agent thought once and every body untouched |
| WorldUpdates.PhaseDone | world.py:190-191 | after the loop every agent is well formed, with outputs in [-1, 1] under a bounded tanh, and with distinct controllers each made one pass |
| WorldUpdates.ThinkInWorld | world.py:190-191 | the thinking phase keeps every agent ready, its inputs and its body |
| WorldUpdates.ReindexKeepsOthers | world.py:197 | reconciling one agent keeps every other object's registration |
| WorldUpdates.ActOn | world.py:196 | `agent.act(world)`: the agent acts as `Acted` says; food now is old food or fresh food, the food count and other categories are kept, the grid changes only for food |
| WorldUpdates.ActInGrid | world.py:196 | the agent acts as `Acted` says (turn, move, eat, costs from its state before acting); the other agents stay indexed, categories other than food are kept, the food count is kept, and the grid changes only for food |
| WorldUpdates.Reindex | world.py:197 | after the reconcile, the agent and all others are indexed in exactly their cells; only the agent's cells change |
| WorldUpdates.ActAndReindex | world.py:195-197 | one iteration of the acting loop: the agent acts as `Acted` says, every agent stays indexed, the food count is kept, and the grid changes only for this agent and food |
| WorldUpdates.ActNext | world.py:194-197 | one more agent has acted as `Acted` says from its state before the phase, agents not yet visited are untouched, and new food is fresh |
| WorldUpdates.ActAll | world.py:194-197 | every agent has acted once from its state before the phase; the food now is the old food or fresh food, and the grid changes only for agents and food |
| WorldUpdates.ActPhase | world.py:194-197 | every agent acted as `Acted` says from its state before the phase and is indexed in its new cells; vitals in [0, 1] stay there, the food count is kept with eaten food replaced by fresh objects, the grid changes only for agents and food, and in a world of at least 12 × 12 every agent stays inside |
| WorldUpdates.GrowTouched | world.py:194-197 | the grid changes of the acting loop so far and of one more agent compose into changes only for agents and (old or fresh) food |
| WorldUpdates.ActInTick | world.py:194-197 | the acting phase as the tick needs it: every agent acted as `Acted` says, stays indexed and well formed with vitals in [0, 1], and stays ready in a world of at least 12 × 12 |
| WorldUpdates.SenseThenThink | world.py:185-191 | every agent perceived the world before the tick, then (with separate controllers) made one controller pass; bodies are untouched and agents stay ready |
| WorldUpdates.UpdateAgents | world.py:183-197 | every agent perceived the world as it stood before the tick and then acted as `Acted` says from its state before the tick; the food count is kept with eaten food replaced by fresh objects, the grid changes only for agents and food, and the agents stay indexed, well formed and ready |
| WorldUpdates.Update | world.py:183-197 | a tick: every agent perceived the old world and then acted as `Acted` says (one tick older, the damped turn, the clamped move, eating only on a positive eat output, the costs); the agents and every category but food are kept, the food count is kept with eaten food replaced by fresh objects, the grid changes only for agents and food, vitals stay in [0, 1], and in a world of at least 12 × 12 every agent stays ready for the next tick |
| SimulationManagers.Tick | simulation_manager.py:112 | `world.update()` as `Update` states it: each agent perceived the old world and acted as `Acted` says, the food count is kept with fresh replacements, the grid changes only for agents and food, and every controller, including the kept best agent's, keeps the simulation's shape |
| SimulationManagers.Preferred | simulation_manager.py:118-119 | the choice scores at least as much as the old best and the agent, and a tie keeps the old best |
| SimulationManagers.SimulationManager.constructor | simulation_manager.py:26-46 | generation 1, tick 0 and no best agent; a named file that fails to load is forgotten; a loaded network seeds every agent and adds one statistics entry |
| SimulationManagers.SimulationManager.LoadInitialBrain | simulation_manager.py:48-59 | succeeds exactly when the record passes the check, and the best agent then carries its weights and state; on failure nothing changes |
| SimulationManagers.SimulationManager.StartNewGeneration | simulation_manager.py:61-73 | generation + 1, tick 0, no best agent; the statistics grow by (0, best score) only when there was a best agent; the new world holds 100 food and poison and 10 agents, mutated offspring of the old best |
| SimulationManagers.SimulationManager.RebuildWorld | simulation_manager.py:71-73 | a fresh world holding 50 food and 50 poison under "food" and 10 agents, offspring of the old best when there was one, and the best agent is cleared |
| SimulationManagers.SimulationManager.ClearBest | simulation_manager.py:73 | clearing the best agent keeps the world ready and populated |
| SimulationManagers.SimulationManager.ResetWorld | simulation_manager.py:75-78 | a fresh world holding 50 food and 50 poison under "food", 10 fresh agents with networks of the simulation's shape, and no other category |
| SimulationManagers.SimulationManager.CreateNewPopulation | simulation_manager.py:86-102 | a no-op without a best agent; otherwise every agent holds a mutated copy of the best network |
| SimulationManagers.SimulationManager.UpdateStats | simulation_manager.py:104-107 | appends the tick and the best score (0 without a best agent), one entry to each series |
| SimulationManagers.SimulationManager.Update | simulation_manager.py:109-114 | tick + 1, the world ticks, and the best agent scores at least as much as every agent; it is the old best or an agent that beat it strictly |
| SimulationManagers.SimulationManager.TickWorld | simulation_manager.py:112 | the world ticks with the effect `Tick` states: each agent perceived and acted, fresh food replaces eaten food, the grid changes only for agents and food, and the world stays running |
| SimulationManagers.SimulationManager.EvaluateAll | simulation_manager.py:113-114 | the evaluation loop over the agents of the world leaves a champion |
| SimulationManagers.SimulationManager.EvaluateAgents | simulation_manager.py:113-114 | the best agent scores at least as much as every agent; it is the old best or an agent that beat it strictly |
| SimulationManagers.SimulationManager.EvaluateAgent | simulation_manager.py:116-119 | the best agent becomes `Preferred` of the old best and the agent |
| SimulationManagers.OffspringOf | simulation_manager.py:99-102 | agents visited in order, each with a mutated copy, are all offspring of the parent network |
| SimulationManagers.OffspringReady | simulation_manager.py:99-102 | a placed agent with a mutated copy of a full-state network is ready for a tick |
| SimulationManagers.PopulationReady | simulation_manager.py:99-102 | every placed agent of the population is ready |
| SimulationManagers.Populate | simulation_manager.py:99-102 | after the loop, every agent is an offspring of the parent, and ready when placed |
| SimulationManagers.PopulationFacts | simulation_manager.py:99-102 | what the loop leaves: offspring everywhere, and readiness for placed agents |
| SimulationManagers.InheritBrain | simulation_manager.py:100-102 | the agent gets a fresh copy of the parent's network, and it is always mutated, since an object never equals a set |
| SimulationManagers.Repopulate | simulation_manager.py:99-102 | every agent is visited once, and the k-th gets a fresh copy mutated with the k-th draws |
| SimulationManagers.InheritNext | simulation_manager.py:99-102 | one more agent has inherited, and the parent is unchanged |
| SimulationManagers.FractionInside | world.py:102-103 | a uniform draw of a positive extent lies within it |
| SimulationManagers.SpawnObjects | simulation_manager.py:80-84 | 50 objects of the food kind and 50 of the poison kind under "food", 10 fresh agents with networks of the simulation's shape, each placed when the draws are fractions, and no other category |
| SimulationManagers.SpawnFood | simulation_manager.py:82-83 | exactly 50 food and 50 poison objects filed under "food", and no other category |
| SimulationManagers.KindSplit | simulation_manager.py:82-83 | among the objects of two disjoint lists of food and poison, the food kind counts the first list and the poison kind the second |
| SimulationManagers.SpawnAgents | simulation_manager.py:84 | exactly 10 fresh agents with networks of the simulation's shape, each placed when the draws are fractions |

## Left out

- Rendering and the user interface are not modelled: the `draw` methods, the GUI and `main.py`'s event loop.
- File and JSON input and output in `save` and `load` are not modelled. Only the W/state record and its check are.
- Randomness is passed in as draws. Floats are `real`, so nothing here is bit-exact, and float32 storage is not modelled.
- Square root, cosine, sine, `atan2` and `tanh` are not defined. Proofs use only the laws in `Lawful` and `TanhBounded`.
- The learning path is not modelled. `LEARNING` is false, and the calls `brain.learn(scale=…, forgotten_rate=…)` in `_process_consumption` and `_update_learning` do not match `learn(reward, lr)`. The periodic weight decay is left out for the same reason. `NeuroBlob.learn` itself is modelled.
- agent.py's `update`, `_think` and `_intersect_ray_wall` are not modelled. No caller in the modelled code uses them: `World.update` calls the experimental agent's `sense`, `think` and `act`.
- Each function follows its own body where the modules disagree:
  - `World.add_object` calls `obj_class(x, y)`, but agent.py's `Agent.__init__` takes one tuple and passes it as `x`.
  - `Food` and `Wall` pass `radius=`, `width=` and `height=`, which `WorldObject.__init__` does not accept.
  - `_load_initial_brain` builds `Agent((0, 0))`.
  - simulation_manager.py imports agent.py's `Agent` (line 3), which has no `sense`, `think` or `act`, yet `World.update` calls them. The model's world update runs the experimental agent.
  - `World.update` calls `agent.think(steps_count=1)` (world.py:191), but the experimental `think` takes no argument (experimental/agent_new.py:94). `WorldUpdates.ThinkPhase` runs one pass of the network, which is the default of `NeuroBlob.step`.
  - The experimental agent passes `radius=6` to `WorldObject.__init__` (experimental/agent_new.py:24), which takes `size`.

  The model builds every object from its class's kind, size and colour. Agents have size 6.
- The experimental agent's `__init__` is not modelled separately. Agents are built by `Agents.NewAgent`; its ray directions are `Agents.RayAngle`, and its first `sense` writes the inputs.
- Poison inherits the category "food" and counts among the food objects.
- Identity: sets in the model hold objects by reference. Python hashes and compares by uuid, and the two coincide while ids are unique. `EqualityIsIdentityOfIds` states the Python rule, but uuid uniqueness is not modelled.
- Worlds.CellsOf: the branch for an object without a `radius` attribute is modelled, but every object of the model has a radius.
- Worlds.World.constructor: requires a positive width and height. In Python a zero size fails later, in `_get_object_cells`.
- NeuroBlobs.NeuroBlob.Step: `load` does not check the state's length, and NumPy's behaviour on a state of the wrong length is not modelled exactly. The model writes the inputs when their slots fit (and leaves the state as it was otherwise), then fails unless `steps_count` is 0.
- NeuroBlobs.NeuroBlob.Learn: models NumPy's shape rules for a 1-D state only: a state of length n_neurons (with a recurrent neuron) or of length 1 (broadcast over all of W) is learned from; any other length fails and changes nothing.
- NeuroBlobs.CheckRecord: rejects a ragged W (rows of different lengths) beyond the first-row check, since NumPy cannot build an array from ragged rows.
- Worlds.World.GetObjectsInArea: scans the clamped range (see Findings), not the range as written. The two gather the same candidates for a query centred inside the world (`Worlds.QueryRangesAgreeInside`); they differ only for a query centred outside it.
- Agents.Act: calls the corrected `ConsumeIfPossibleSkippingSelf` (see Findings), not the loop as written.
- AgentsNew.WallDistance: requires the agent's centre to be inside the world, which clamped movement keeps. The source computes a value anywhere.
- AgentsNew.WallProximity: the same requirement as `WallDistance`.
- AgentsNew.RayReading: the same requirement as `WallDistance`.
- AgentsNew.Sense: the same requirement as `WallDistance`.
- AgentsNew.Act: the body stays inside the world only when the world is at least twice the agent's radius in each direction.
- WorldUpdates.Update: requires every agent of the world to be ready (a well-formed network, its centre in the world, vitals in [0, 1], indexed). The source assumes this without checking.
- WorldUpdates.Update: "ready for the next tick" is stated for worlds of at least 12 × 12.
- WorldUpdates.Update: the draws of the food that replaces eaten food come from the oracle, in acting order.
- WorldUpdates.Update: does not restate that each controller made one pass. `SenseThenThink` and `ThinkPhase` state it, but it is not carried through the acting phase, whose proofs would then have to frame every controller. The same holds for `UpdateAgents`, `SimulationManagers.Tick` and `SimulationManagers.SimulationManager.TickWorld`.
- WorldUpdates.ThinkPhase: states the one pass per agent only when the agents own separate controllers before the phase. Agents that share one network would each step it once more, and the model does not describe that.
- WorldUpdates.ActPhase: does not lift the per-agent "eats exactly when a food is in reach" of `AgentsNew.Act`. `Acted` keeps only that the score rises by one at most and only on a positive eat output, with the vitals matching; which food was eaten is not recorded across the loop.
- SimulationManagers.SimulationManager.Update: requires the world's agents to be ready, as `WorldUpdates.Update` does.
- SimulationManagers.SimulationManager.CreateNewPopulation: requires the best agent not to be one of the world's agents, which holds in `start_new_generation` because the world has just been rebuilt.
- SimulationManagers.SimulationManager.CreateNewPopulation: does not state that the copies are distinct objects from each other.
- SimulationManagers.SimulationManager.StartNewGeneration: the population is stated to be the old best's offspring, but the constructor's first generation is not traced back to the loaded file beyond its state.
- SimulationManagers.SimulationManager.constructor: requires a positive world size; `WORLD_SIZE` comes from the configuration module, which is not part of this model.
- The print statements of the manager are not modelled.

## Findings

| source | as written | input that shows it | evidently intended | confidence | as-written member | corrected member |
|---|---|---|---|---|---|---|
| agent.py:202-218 | `_consume_if_possible` loops over `nearests` without skipping the agent itself, unlike `_sense`. If the caller passes a `nearests` that holds the agent (`get_objects_in_area` around the agent finds it; no caller in the repository shows which set `_act` is given), the agent is at distance 0 of itself and in reach whenever its heading is within π/3 of 0. When the set yields it first, the loop stops at it and, since it is not food, eats nothing. | a `nearests` holding the agent and a food in reach, an agent heading at angle 0, and a set that yields the agent first | skip the agent itself, as `_sense` does (agent.py:93-94) | not executed; the set's iteration order decides whether it shows | Agents.SelfInReach | Agents.ConsumeIfPossibleSkippingSelf |
| world.py:162-171 | `get_objects_in_area` clamps `left` and `bottom` only from below (at 0) and `right` and `top` only from above (at 1, whose index is one past the grid). A query circle wholly past the right or bottom edge scans only column 8 or row 6, which are not in the grid. | world 800 × 600; food of radius 3 at (798, 300); query at (900, 300) with radius 100. The food passes the distance test (102 ≤ 103) but only column 8 is scanned | clamp the index range into the grid at both ends, as `_get_object_cells` does | not executed; only queries centred outside the world show it | Worlds.QueryRangeAsWrittenMisses | Worlds.QueryRange |
