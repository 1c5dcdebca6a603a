/** The generation manager (`SimulationManager`, simulation_manager.py): a
    world, the best agent of the running generation, the generation and
    tick counters and the statistics series.

    Randomness is passed in: `GenerationDraws` holds what one generation
    draws (the spawn positions and ids of `add_object`, and the mutation
    mask and noise of each copied brain), and the contents of the brain file
    arrive as an `Option<Record>` (`None` when the file cannot be read or
    parsed). */
module SimulationManagers {
  import opened Numerics
  import opened NeuroBlobs
  import opened WorldObjects
  import opened Worlds
  import Agents
  import AgentsNew
  import WorldUpdates

  /** The neurons of `Agent.__init__`'s network: the bias, the inputs, the
      hidden and the output neurons. */
  const N_NEURONS: nat := 1 + Agents.N_INPUT + Agents.N_HIDDEN + Agents.N_OUTPUT

  /** `_spawn_objects`: how many of each class a generation starts with. */
  const FOOD_COUNT: nat := 50
  const POISON_COUNT: nat := 50
  const AGENT_COUNT: nat := 10

  /** The defaults of `NeuroBlob.mutate`. */
  const MUTATION_RATE: real := 0.1
  const MUTATION_SCALE: real := 0.01

  /** What one generation draws: the `add_object` draws of each of the
      three spawn calls, and for the `k`-th brain copied the mutation mask
      fractions `chance(k)` and the noise `noise(k)`. */
  datatype GenerationDraws = GenerationDraws(food: Draws, poison: Draws, agents: Draws,
                                             chance: nat -> (nat, nat) -> real,
                                             noise: nat -> (nat, nat) -> real)

  /** The objects of `s` of kind `k`; food and poison share a category,
      so their split is told apart by kind. */
  function OfKind(s: set<WorldObject>, k: Kind): set<WorldObject>
  {
    set o | o in s && o.kind == k
  }

  /** `world` holds the food and poison of `_spawn_objects`: 50 of each,
      all under "food". */
  ghost predicate Stocked(world: World)
    reads world`objectsByCategory
  {
    |world.Members("food")| == FOOD_COUNT + POISON_COUNT &&
    |OfKind(world.Members("food"), FoodKind)| == FOOD_COUNT &&
    |OfKind(world.Members("food"), PoisonKind)| == POISON_COUNT
  }

  /** Every position `d` draws is a fraction of the world's extent, as
      `random.uniform(0, extent)` gives. */
  ghost predicate UnitDraws(d: Draws)
  {
    forall i :: 0.0 <= d.x(i) <= 1.0 && 0.0 <= d.y(i) <= 1.0
  }

  /** A sequence without repetitions has as many elements as entries. */
  lemma {:induction false} DistinctElements(s: seq<WorldObject>)
    requires forall i, j :: 0 <= i < j < |s| ==> s[i] != s[j]
    ensures |Elements(s)| == |s|
  {
    if s != [] {
      var t := s[..|s| - 1];
      DistinctElements(t);
      assert Elements(s) == Elements(t) + {s[|s| - 1]};
      assert s[|s| - 1] !in Elements(t);
    }
  }

  /** The controller an agent of the simulation carries: the shape of
      `Agent.__init__`'s network, whatever its weights. */
  ghost predicate Shaped(a: WorldObject)
    reads a`brain, if a.brain != null then {a.brain} else {}
  {
    a.brain != null && a.brain.Valid() && a.brain.nInput == Agents.N_INPUT &&
    a.brain.nHidden == Agents.N_HIDDEN && a.brain.nOutput == Agents.N_OUTPUT
  }

  /** The state vector of `a`'s controller has one entry per neuron. */
  ghost predicate StateSized(a: WorldObject)
    reads a`brain, if a.brain != null then {a.brain} else {}
  {
    a.brain != null && a.brain.state.Length == a.brain.nNeurons
  }

  /** `b` is a copy of a brain with weights `parent`, mutated with mask
      fractions `chance` and noise `noise` at the default rate. */
  ghost predicate MutatedFrom(b: NeuroBlob, parent: seq<seq<real>>,
                              chance: (nat, nat) -> real, noise: (nat, nat) -> real)
    reads b, b.W
  {
    b.W.Length0 == |parent| && Rectangular(parent, b.W.Length1) &&
    forall i, j :: 0 <= i < b.W.Length0 && 0 <= j < b.W.Length1 ==>
      b.W[i, j] == MutatedWeight(parent[i][j], chance(i, j), MUTATION_RATE, noise(i, j))
  }

  /** Every agent of `world` is ready for the next tick. */
  ghost predicate Running(world: World, m: Maths)
    reads world, world.Members("agent")
    reads set a | a in world.Members("agent") && a.brain != null :: a.brain
  {
    world.width > 0.0 && world.height > 0.0 &&
    forall a :: a in world.Members("agent") ==> WorldUpdates.Ready(world, a, m)
  }

  /** `self.world.update()` as `update` sees it: the world stays valid and
      keeps its agents; each agent perceived the world as it was and acted
      as `WorldUpdates.Acted` says; the food count is kept, eaten food
      replaced by the fresh objects `added`; the grid changes only for
      agents and food; and in a world that holds an agent's body the
      agents stay ready. The tick leaves every controller's layout alone,
      so `kept` (the manager's best agent, which may be an agent of an
      earlier generation) keeps a controller of the simulation's shape.
      The per-agent clauses fire on the agent's inputs, its state before
      the tick and its shape, not on membership alone. */
  method Tick(world: World, draws: nat -> Draws, m: Maths, ghost kept: WorldObject?) returns (ghost added: set<WorldObject>)
    requires world.Valid() && Running(world, m)
    requires kept != null ==> Shaped(kept)
    modifies world`grid, world`objectsByCategory
    modifies world.Members("agent")`inputs, world.Members("agent")`outputs
    modifies world.Members("agent")`angle, world.Members("agent")`x, world.Members("agent")`y
    modifies world.Members("agent")`age, world.Members("agent")`energy, world.Members("agent")`health
    modifies world.Members("agent")`score
    modifies set a | a in world.Members("agent") && a.brain != null :: a.brain.state
    modifies set a | a in world.Members("agent") && a.brain != null :: a.brain.buffer
    ensures world.Valid() && world.Members("agent") == old(world.Members("agent"))
    ensures |world.Members("food")| == |old(world.Members("food"))|
    ensures forall a {:trigger a.inputs} :: a in world.Members("agent") ==>
      var inputs := a.inputs; old(AgentsNew.Perceived(inputs, a, world, m))
    ensures forall a {:trigger old(WorldUpdates.StateOf(a))} :: a in world.Members("agent") ==>
      WorldUpdates.Acted(a, old(WorldUpdates.StateOf(a)), world.width, world.height, m)
    ensures fresh(added) && world.Members("food") <= old(world.Members("food")) + added
    ensures ChangedOnly(old(world.grid), world.grid, world.Members("agent") + old(world.Members("food")) + added)
    ensures world.width >= 12.0 && world.height >= 12.0 ==> Running(world, m)
    ensures forall a {:trigger Shaped(a)} :: a in world.Members("agent") ==> Shaped(a)
    ensures kept != null ==> Shaped(kept)
  {
    added := WorldUpdates.Update(world, draws, m);
    forall a | a in world.Members("agent") ensures Shaped(a) {
      assert Agents.WellFormed(a);
    }
  }

  /** `best` is what evaluating every agent of `agents` leaves when the best
      agent was `before`: it is null only when there was none and there are
      no agents, it scores at least as much as every agent, and it is
      `before` or an agent that beat `before` strictly. */
  ghost predicate Champion(best: WorldObject?, before: WorldObject?, agents: set<WorldObject>)
    reads best, before, agents
  {
    (best == null <==> before == null && agents == {}) &&
    (best != null ==> forall a :: a in agents ==> a.score <= best.score) &&
    (best == before || (best in agents && (before == null || best.score > before.score)))
  }

  /** `_evaluate_agent`'s choice: `agent` replaces `best` when there is no
      best yet or when its score is strictly higher, so among tied agents
      the one met first is kept. */
  function Preferred(best: WorldObject?, agent: WorldObject): (r: WorldObject)
    reads best, agent
    ensures r == agent || r == best
    ensures r.score >= agent.score
    ensures best != null ==> r.score >= best.score
    ensures best != null && best.score >= agent.score ==> r == best
  {
    if best == null || agent.score > best.score then agent else best
  }

  class SimulationManager {
    /** `WORLD_SIZE`. */
    const width: real
    const height: real
    var world: World
    var bestAgent: WorldObject?
    var generation: int
    var currentTick: int
    /** `stats['timestamps']` and `stats['scores']`. */
    var timestamps: seq<int>
    var scores: seq<int>
    var brainFile: Option<string>

    /** The world has the configured size, the two statistics series are
        as long as each other, and a best agent carries a controller of
        the simulation's shape. */
    ghost predicate Valid()
      reads this`world, this`bestAgent, this`timestamps, this`scores, world
      reads (if bestAgent != null then {bestAgent} else {})`brain
      reads if bestAgent != null && bestAgent.brain != null then {bestAgent.brain} else {}
    {
      world.Valid() && world.width == width && world.height == height &&
      |timestamps| == |scores| &&
      (bestAgent != null ==> Shaped(bestAgent))
    }

    /** `SimulationManager(brain_file)`: an empty world and counters, then,
        when a brain file is named (a non-empty name), the initial brain is
        loaded; any failure is caught and forgets the file name. Then the
        first generation starts. `tempId`, `tempHeading` and
        `tempWeights` are the draws of the temporary agent. */
    constructor (width: real, height: real, brainFile: Option<string>, contents: Option<Record>,
                 tempId: nat, tempHeading: real, tempWeights: (nat, nat) -> real,
                 gen: GenerationDraws, m: Maths)
      requires width > 0.0 && height > 0.0
      ensures Valid() && fresh(world)
      ensures this.width == width && this.height == height
      ensures generation == 1 && currentTick == 0 && bestAgent == null
      ensures var named := brainFile.Some? && brainFile.value != "";
              var loads := named && contents.Some? &&
                CheckRecord(Agents.N_HIDDEN + Agents.N_OUTPUT,
                            N_NEURONS, contents.value) == None;
        this.brainFile == (if named && !loads then None else brainFile) &&
        timestamps == (if loads then [0] else []) && scores == (if loads then [0] else []) &&
        (loads ==> forall a :: a in world.Members("agent") ==> a.brain != null && a.brain.state[..] == contents.value.state)
      ensures Stocked(world)
      ensures |world.Members("agent")| == AGENT_COUNT
    {
      this.width, this.height := width, height;
      world := new World(width, height);
      bestAgent := null;
      generation := 0;
      timestamps, scores := [], [];
      currentTick := 0;
      this.brainFile := brainFile;
      new;
      if brainFile.Some? && brainFile.value != "" {
        var ok := LoadInitialBrain(contents, tempId, tempHeading, tempWeights);
        if !ok {
          this.brainFile := None;
        }
      }
      StartNewGeneration(gen, m);
    }

    /** `_load_initial_brain`: a temporary agent at (0, 0) receives the
        stored network and becomes the best agent. `ok` is false exactly
        when loading raises (the file cannot be read or its weights do not
        fit), and then nothing changes. */
    method LoadInitialBrain(contents: Option<Record>, id: nat, heading: real, weights: (nat, nat) -> real)
      returns (ok: bool)
      requires Valid()
      modifies this`bestAgent
      ensures Valid()
      ensures ok <==> (contents.Some? &&
        CheckRecord(Agents.N_HIDDEN + Agents.N_OUTPUT,
                    N_NEURONS, contents.value) == None)
      ensures ok ==> (fresh(bestAgent) && bestAgent.score == 0 && bestAgent.brain != null &&
        bestAgent.brain.Matrix() == contents.value.W && bestAgent.brain.state[..] == contents.value.state)
      ensures !ok ==> bestAgent == old(bestAgent)
    {
      if contents.None? {
        return false;
      }
      var temp := Agents.NewAgent(id, 0.0, 0.0, heading, weights);
      var err := temp.brain.Load(contents.value);
      if err.Some? {
        return false;
      }
      bestAgent := temp;
      ok := true;
    }

    /** `start_new_generation`: the tick is reset, the best agent's score
        (with the reset tick, 0) is appended to the statistics when there is
        one, the generation advances by one, the world is rebuilt and
        populated, and the best agent is cleared. The agents of the new
        world carry mutated copies of the old best agent's network, or
        fresh random ones when there was none. */
    method StartNewGeneration(gen: GenerationDraws, m: Maths)
      requires Valid()
      modifies this`currentTick, this`timestamps, this`scores, this`generation, this`world, this`bestAgent
      ensures Valid() && fresh(world)
      ensures currentTick == 0 && generation == old(generation) + 1 && bestAgent == null
      ensures old(bestAgent) == null ==> timestamps == old(timestamps) && scores == old(scores)
      ensures old(bestAgent) != null ==>
        timestamps == old(timestamps) + [0] && scores == old(scores) + [old(bestAgent.score)]
      ensures Stocked(world)
      ensures |world.Members("agent")| == AGENT_COUNT
      ensures forall k :: k != "food" && k != "agent" ==> world.Members(k) == {}
      ensures old(bestAgent) != null ==>
        Populated(world, old(bestAgent.brain.state[..]), old(bestAgent.brain.Matrix()), gen)
      ensures UnitDraws(gen.agents) && (old(bestAgent) == null || StateSized(old(bestAgent))) ==> Running(world, m)
    {
      currentTick := 0;
      if bestAgent != null {
        UpdateStats();
      }
      generation := generation + 1;
      assert bestAgent != null ==>
        bestAgent.brain.state[..] == old(bestAgent.brain.state[..]) && bestAgent.brain.Matrix() == old(bestAgent.brain.Matrix());
      RebuildWorld(gen, m);
    }

    /** The tail of `start_new_generation`: `_reset_world`,
        `_create_new_population` and clearing the best agent. */
    method RebuildWorld(gen: GenerationDraws, m: Maths)
      requires Valid()
      modifies this`world, this`bestAgent
      ensures Valid() && fresh(world) && bestAgent == null
      ensures Stocked(world)
      ensures |world.Members("agent")| == AGENT_COUNT
      ensures forall k :: k != "food" && k != "agent" ==> world.Members(k) == {}
      ensures old(bestAgent) != null ==>
        Populated(world, old(bestAgent.brain.state[..]), old(bestAgent.brain.Matrix()), gen)
      ensures UnitDraws(gen.agents) && (old(bestAgent) == null || StateSized(old(bestAgent))) ==> Running(world, m)
    {
      ghost var state, weights := [], [];
      if bestAgent != null {
        state, weights := bestAgent.brain.state[..], bestAgent.brain.Matrix();
      }
      ResetWorld(gen, m);
      assert bestAgent != null ==> bestAgent.brain.state[..] == state && bestAgent.brain.Matrix() == weights;
      CreateNewPopulation(gen, m);
      ClearBest(state, weights, gen, m);
    }

    /** `self.best_agent = None`: nothing the world holds changes. */
    method ClearBest(ghost state: seq<real>, ghost weights: seq<seq<real>>, ghost gen: GenerationDraws, ghost m: Maths)
      requires Valid()
      modifies this`bestAgent
      ensures Valid() && bestAgent == null
      ensures old(Running(world, m)) ==> Running(world, m)
      ensures old(Populated(world, state, weights, gen)) ==> Populated(world, state, weights, gen)
    {
      bestAgent := null;
    }

    /** `_reset_world`: a new world of the configured size with the
        objects of `_spawn_objects`. */
    method ResetWorld(gen: GenerationDraws, m: Maths)
      requires Valid()
      modifies this`world
      ensures Valid() && fresh(world)
      ensures Stocked(world)
      ensures forall k :: k != "food" && k != "agent" ==> world.Members(k) == {}
      ensures |world.Members("agent")| == AGENT_COUNT
      ensures forall a :: a in world.Members("agent") ==> fresh(a) && Shaped(a) && StateSized(a)
      ensures UnitDraws(gen.agents) ==> Seeded(world, m)
    {
      world := new World(width, height);
      SpawnObjects(world, gen, m);
    }

    /** `_create_new_population`: without a best agent nothing happens;
        otherwise every agent of the world receives a deep copy of the best
        agent's network, and every copy is mutated. `order` is the order in
        which the agents were visited; the `k`-th uses the `k`-th mutation
        draws. */
    method CreateNewPopulation(gen: GenerationDraws, m: Maths)
      requires Valid()
      requires bestAgent != null ==> bestAgent !in world.Members("agent")
      modifies world.Members("agent")`brain
      ensures Valid()
      ensures bestAgent == null ==> forall a :: a in world.Members("agent") ==> a.brain == old(a.brain)
      ensures bestAgent != null && |world.Members("agent")| == AGENT_COUNT ==>
        Populated(world, old(bestAgent.brain.state[..]), old(bestAgent.brain.Matrix()), gen)
      ensures old(Seeded(world, m)) && (bestAgent == null || StateSized(bestAgent)) ==> Running(world, m)
    {
      if bestAgent == null {
        return;
      }
      var agents := world.GetObjects(Some("agent"));
      Populate(world, agents, bestAgent.brain, gen, m);
      assert old(Seeded(world, m)) ==> forall a :: a in agents ==> Placed(world, a, m);
    }

    /** `_update_stats`: the current tick and the best agent's score (0
        without one) are appended, one entry each. */
    method UpdateStats()
      requires Valid()
      modifies this`timestamps, this`scores
      ensures Valid()
      ensures timestamps == old(timestamps) + [currentTick]
      ensures scores == old(scores) + [if bestAgent != null then bestAgent.score else 0]
    {
      timestamps := timestamps + [currentTick];
      scores := scores + [if bestAgent != null then bestAgent.score else 0];
    }

    /** `update`: the tick advances by one, the world runs one tick, and
        every agent is evaluated. Afterwards a best agent scores at least
        as much as every agent of the world; it is the old best agent, or
        an agent of the world that beat it strictly. */
    method Update(draws: nat -> Draws, m: Maths)
      requires Valid() && Running(world, m)
      modifies this`currentTick, this`bestAgent
      modifies world`grid, world`objectsByCategory
      modifies world.Members("agent")`inputs, world.Members("agent")`outputs
      modifies world.Members("agent")`angle, world.Members("agent")`x, world.Members("agent")`y
      modifies world.Members("agent")`age, world.Members("agent")`energy, world.Members("agent")`health
      modifies world.Members("agent")`score
      modifies set a | a in world.Members("agent") && a.brain != null :: a.brain.state
      modifies set a | a in world.Members("agent") && a.brain != null :: a.brain.buffer
      ensures Valid() && world == old(world)
      ensures currentTick == old(currentTick) + 1
      ensures world.Members("agent") == old(world.Members("agent"))
      ensures Champion(bestAgent, old(bestAgent), world.Members("agent"))
      ensures world.width >= 12.0 && world.height >= 12.0 ==> Running(world, m)
    {
      currentTick := currentTick + 1;
      ghost var added := TickWorld(draws, m);
      EvaluateAll(m);
    }

    /** `self.world.update()` inside `update`, with the effect `Tick` states. */
    method TickWorld(draws: nat -> Draws, m: Maths) returns (ghost added: set<WorldObject>)
      requires Valid() && Running(world, m)
      modifies world`grid, world`objectsByCategory
      modifies world.Members("agent")`inputs, world.Members("agent")`outputs
      modifies world.Members("agent")`angle, world.Members("agent")`x, world.Members("agent")`y
      modifies world.Members("agent")`age, world.Members("agent")`energy, world.Members("agent")`health
      modifies world.Members("agent")`score
      modifies set a | a in world.Members("agent") && a.brain != null :: a.brain.state
      modifies set a | a in world.Members("agent") && a.brain != null :: a.brain.buffer
      ensures world == old(world) && Valid()
      ensures world.Members("agent") == old(world.Members("agent"))
      ensures |world.Members("food")| == |old(world.Members("food"))|
      ensures forall a {:trigger a.inputs} :: a in world.Members("agent") ==>
        var inputs := a.inputs; old(AgentsNew.Perceived(inputs, a, world, m))
      ensures forall a {:trigger old(WorldUpdates.StateOf(a))} :: a in world.Members("agent") ==>
        WorldUpdates.Acted(a, old(WorldUpdates.StateOf(a)), world.width, world.height, m)
      ensures fresh(added) && world.Members("food") <= old(world.Members("food")) + added
      ensures ChangedOnly(old(world.grid), world.grid, world.Members("agent") + old(world.Members("food")) + added)
      ensures world.width >= 12.0 && world.height >= 12.0 ==> Running(world, m)
      ensures forall a {:trigger Shaped(a)} :: a in world.Members("agent") ==> Shaped(a)
    {
      added := Tick(world, draws, m, bestAgent);
    }

    /** The evaluation loop of `update` over the agents of the world. */
    method EvaluateAll(ghost m: Maths)
      requires Valid() && forall a :: a in world.Members("agent") ==> Shaped(a)
      modifies this`bestAgent
      ensures Valid()
      ensures old(Running(world, m)) ==> Running(world, m)
      ensures Champion(bestAgent, old(bestAgent), world.Members("agent"))
    {
      var agents := world.GetObjects(Some("agent"));
      EvaluateAgents(agents);
    }

    /** The loop of `update` that evaluates every agent of `agents`. */
    method EvaluateAgents(agents: set<WorldObject>)
      modifies this`bestAgent
      ensures Champion(bestAgent, old(bestAgent), agents)
    {
      var remaining := agents;
      while remaining != {}
        invariant remaining <= agents
        invariant bestAgent == null <==> old(bestAgent) == null && remaining == agents
        invariant bestAgent != null ==> forall a :: a in agents - remaining ==> a.score <= bestAgent.score
        invariant bestAgent == old(bestAgent) ||
          (bestAgent in agents - remaining && (old(bestAgent) == null || bestAgent.score > old(bestAgent).score))
        decreases remaining
      {
        var agent :| agent in remaining;
        EvaluateAgent(agent);
        remaining := remaining - {agent};
      }
    }

    /** `_evaluate_agent(agent)`. */
    method EvaluateAgent(agent: WorldObject)
      modifies this`bestAgent
      ensures bestAgent == Preferred(old(bestAgent), agent)
    {
      if bestAgent == null || agent.score > bestAgent.score {
        bestAgent := agent;
      }
    }
  }

  /** `a` carries a network of the simulation's shape with the state
      `state` and the weights `weights` mutated with `chance` and `noise`. */
  ghost predicate Inherited(a: WorldObject, state: seq<real>, weights: seq<seq<real>>,
                            chance: (nat, nat) -> real, noise: (nat, nat) -> real)
    reads a`brain, if a.brain != null then {a.brain, a.brain.W, a.brain.state} else {}
  {
    a.brain != null && Shaped(a) && a.brain.state[..] == state && MutatedFrom(a.brain, weights, chance, noise)
  }

  /** `a` carries a copy of a network with state `state` and weights
      `weights`, mutated with the draws of one of the generation's agents. */
  ghost predicate Offspring(a: WorldObject, state: seq<real>, weights: seq<seq<real>>, gen: GenerationDraws)
    reads a`brain, if a.brain != null then {a.brain, a.brain.W, a.brain.state} else {}
  {
    exists k :: 0 <= k < AGENT_COUNT && Inherited(a, state, weights, gen.chance(k), gen.noise(k))
  }

  /** Every agent of `world` is an offspring of the network with state
      `state` and weights `weights`. */
  ghost predicate Populated(world: World, state: seq<real>, weights: seq<seq<real>>, gen: GenerationDraws)
    reads world, world.Members("agent")
    reads set a | a in world.Members("agent") && a.brain != null :: a.brain
    reads set a | a in world.Members("agent") && a.brain != null :: a.brain.W
    reads set a | a in world.Members("agent") && a.brain != null :: a.brain.state
  {
    forall a :: a in world.Members("agent") ==> Offspring(a, state, weights, gen)
  }

  /** Every agent of `world` carries a controller of the simulation's
      shape and is placed. */
  ghost predicate Seeded(world: World, m: Maths)
    reads world, world.Members("agent")
    reads set a | a in world.Members("agent") && a.brain != null :: a.brain
  {
    forall a :: a in world.Members("agent") ==> Shaped(a) && StateSized(a) && Placed(world, a, m)
  }

  /** Everything `Ready` asks of an agent besides its controller. */
  ghost predicate Placed(world: World, a: WorldObject, m: Maths)
    reads world, a`x, a`y, a`energy, a`health, a`outputs
  {
    a.kind == AgentBody && a.size == Agents.AGENT_SIZE && |a.outputs| == 3 &&
    AgentsNew.InWorld(a.x, a.y, world.width, world.height) &&
    Agents.InUnit(Agents.Vitals(a.energy, a.health)) && WorldUpdates.Indexed(world, a, m)
  }

  /** The agents `order` visits, each holding a copy of `parent` mutated
      with the draws of its place, are the parent's offspring. */
  lemma OffspringOf(agents: set<WorldObject>, order: seq<WorldObject>, state: seq<real>,
                    weights: seq<seq<real>>, gen: GenerationDraws)
    requires |order| == AGENT_COUNT && Elements(order) == agents
    requires forall k :: 0 <= k < |order| ==> Inherited(order[k], state, weights, gen.chance(k), gen.noise(k))
    ensures forall a :: a in agents ==> Offspring(a, state, weights, gen)
  {
    forall a | a in agents
      ensures Offspring(a, state, weights, gen)
    {
      var k :| 0 <= k < |order| && order[k] == a;
      assert Inherited(a, state, weights, gen.chance(k), gen.noise(k));
    }
  }

  /** A placed agent holding a mutated copy of a network whose state has
      one entry per neuron of the simulation's shape is ready for a tick. */
  lemma OffspringReady(world: World, a: WorldObject, state: seq<real>, weights: seq<seq<real>>,
                       chance: (nat, nat) -> real, noise: (nat, nat) -> real, m: Maths)
    requires |state| == N_NEURONS
    requires Inherited(a, state, weights, chance, noise) && Placed(world, a, m)
    ensures WorldUpdates.Ready(world, a, m)
  {
    assert |a.brain.state[..]| == |state|;
  }

  /** The agents `order` visits, placed and each holding a mutated copy of
      a network whose state has one entry per neuron of the simulation's
      shape, are all ready for a tick. */
  lemma PopulationReady(world: World, agents: set<WorldObject>, order: seq<WorldObject>, state: seq<real>,
                        weights: seq<seq<real>>, gen: GenerationDraws, m: Maths)
    requires |state| == N_NEURONS
    requires Elements(order) == agents && forall a :: a in agents ==> Placed(world, a, m)
    requires forall k :: 0 <= k < |order| ==> Inherited(order[k], state, weights, gen.chance(k), gen.noise(k))
    ensures forall a :: a in agents ==> WorldUpdates.Ready(world, a, m)
  {
    forall a | a in agents
      ensures WorldUpdates.Ready(world, a, m)
    {
      var k :| 0 <= k < |order| && order[k] == a;
      OffspringReady(world, a, state, weights, gen.chance(k), gen.noise(k), m);
    }
  }

  /** The loop of `_create_new_population` with what it achieves for a
      world holding `agents`: every agent becomes an offspring of `parent`,
      and placed agents are ready for a tick when the parent's state has one
      entry per neuron. */
  method Populate(ghost world: World, agents: set<WorldObject>, parent: NeuroBlob, gen: GenerationDraws,
                  ghost m: Maths)
    requires parent.Valid() && parent.nInput == Agents.N_INPUT && parent.nHidden == Agents.N_HIDDEN &&
             parent.nOutput == Agents.N_OUTPUT
    modifies agents`brain
    ensures |agents| == AGENT_COUNT ==>
      forall a :: a in agents ==> Offspring(a, old(parent.state[..]), old(parent.Matrix()), gen)
    ensures parent.state.Length == parent.nNeurons && (forall a :: a in agents ==> Placed(world, a, m)) ==>
      forall a :: a in agents ==> WorldUpdates.Ready(world, a, m)
  {
    ghost var state, weights := parent.state[..], parent.Matrix();
    ghost var order := Repopulate(agents, parent, gen);
    PopulationFacts(world, agents, order, state, weights, gen, m);
  }

  /** What the loop of `_create_new_population` leaves: visiting `agents`
      in `order`, each agent holding a mutated copy of the network with
      state `state` and weights `weights`, makes every agent an offspring
      of that network, and placed agents ready for a tick when the state
      has one entry per neuron. */
  lemma PopulationFacts(world: World, agents: set<WorldObject>, order: seq<WorldObject>, state: seq<real>,
                        weights: seq<seq<real>>, gen: GenerationDraws, m: Maths)
    requires |order| == |agents| && Elements(order) == agents
    requires forall k :: 0 <= k < |order| ==> Inherited(order[k], state, weights, gen.chance(k), gen.noise(k))
    ensures |agents| == AGENT_COUNT ==> forall a :: a in agents ==> Offspring(a, state, weights, gen)
    ensures |state| == N_NEURONS && (forall a :: a in agents ==> Placed(world, a, m)) ==>
      forall a :: a in agents ==> WorldUpdates.Ready(world, a, m)
  {
    if |agents| == AGENT_COUNT {
      OffspringOf(agents, order, state, weights, gen);
    }
    if |state| == N_NEURONS && forall a :: a in agents ==> Placed(world, a, m) {
      PopulationReady(world, agents, order, state, weights, gen, m);
    }
  }

  /** One iteration of `_create_new_population`: `agent.brain =
      copy.deepcopy(parent)`, then, since `agent` is compared with a set
      and an object never equals a set, `agent.brain.mutate()`. */
  method InheritBrain(agent: WorldObject, parent: NeuroBlob, chance: (nat, nat) -> real, noise: (nat, nat) -> real)
    requires parent.Valid() && parent.nInput == Agents.N_INPUT && parent.nHidden == Agents.N_HIDDEN &&
             parent.nOutput == Agents.N_OUTPUT
    modifies agent`brain
    ensures fresh(agent.brain) && Inherited(agent, parent.state[..], parent.Matrix(), chance, noise)
  {
    var copy := parent.Clone();
    agent.brain := copy;
    if !Equals(agent, NonObject) {
      copy.Mutate(MUTATION_RATE, chance, noise);
    }
  }

  /** The loop of `_create_new_population` over `agents`: each inherits a
      fresh mutated copy of `parent`; the `k`-th visited uses the `k`-th
      mutation draws. */
  method Repopulate(agents: set<WorldObject>, parent: NeuroBlob, gen: GenerationDraws)
    returns (ghost order: seq<WorldObject>)
    requires parent.Valid() && parent.nInput == Agents.N_INPUT && parent.nHidden == Agents.N_HIDDEN &&
             parent.nOutput == Agents.N_OUTPUT
    modifies agents`brain
    ensures |order| == |agents| && Elements(order) == agents
    ensures forall k :: 0 <= k < |order| ==>
      fresh(order[k].brain) && Inherited(order[k], old(parent.state[..]), old(parent.Matrix()), gen.chance(k), gen.noise(k))
  {
    ghost var state, weights := parent.state[..], parent.Matrix();
    order := [];
    var remaining := agents;
    var k := 0;
    while remaining != {}
      invariant remaining <= agents && k == |order| == |agents| - |remaining|
      invariant forall a :: a in agents && a !in remaining ==> a in order
      invariant forall j :: 0 <= j < |order| ==> order[j] in agents && order[j] !in remaining
      invariant parent.state[..] == state && parent.Matrix() == weights
      invariant forall j :: 0 <= j < |order| ==> fresh(order[j].brain)
      invariant AllInherited(order, state, weights, gen)
      decreases remaining
    {
      var agent :| agent in remaining;
      InheritNext(agent, parent, gen, k, order, state, weights);
      order := order + [agent];
      k := k + 1;
      remaining := remaining - {agent};
    }
  }

  /** `InheritBrain` as the `k`-th step of `_create_new_population`'s loop,
      after the agents of `order` have inherited. */
  method InheritNext(agent: WorldObject, parent: NeuroBlob, gen: GenerationDraws, k: nat,
                     ghost order: seq<WorldObject>, ghost state: seq<real>, ghost weights: seq<seq<real>>)
    requires parent.Valid() && parent.nInput == Agents.N_INPUT && parent.nHidden == Agents.N_HIDDEN &&
             parent.nOutput == Agents.N_OUTPUT
    requires k == |order| && agent !in order && parent.state[..] == state && parent.Matrix() == weights
    requires AllInherited(order, state, weights, gen)
    modifies agent`brain
    ensures fresh(agent.brain) && AllInherited(order + [agent], state, weights, gen)
    ensures parent.state[..] == state && parent.Matrix() == weights
  {
    InheritBrain(agent, parent, gen.chance(k), gen.noise(k));
    assert AllInherited(order, state, weights, gen);
  }

  /** The `j`-th agent of `order` holds a copy of the network with state
      `state` and weights `weights` mutated with the `j`-th draws. */
  ghost predicate AllInherited(order: seq<WorldObject>, state: seq<real>, weights: seq<seq<real>>,
                               gen: GenerationDraws)
    reads Elements(order)
    reads set a | a in Elements(order) && a.brain != null :: a.brain
    reads set a | a in Elements(order) && a.brain != null :: a.brain.W
    reads set a | a in Elements(order) && a.brain != null :: a.brain.state
  {
    forall j :: 0 <= j < |order| ==> Inherited(order[j], state, weights, gen.chance(j), gen.noise(j))
  }

  /** A uniform fraction of a positive extent lies within the extent. */
  lemma FractionInside(extent: real, fraction: real)
    requires extent > 0.0 && 0.0 <= fraction <= 1.0
    ensures 0.0 <= Coordinate(None, extent, fraction) <= extent
  {
    MulRight(fraction, 1.0, extent);
  }

  /** `_spawn_objects` on a fresh world: 50 food, 50 poison (both filed
      under "food") and 10 agents, each agent indexed in the grid with a
      fresh controller of the simulation's shape. */
  method SpawnObjects(world: World, gen: GenerationDraws, m: Maths)
    requires world.Valid() && world.objectsByCategory == map[]
    modifies world`grid, world`objectsByCategory
    ensures world.Valid()
    ensures Stocked(world)
    ensures forall k :: k != "food" && k != "agent" ==> world.Members(k) == {}
    ensures |world.Members("agent")| == AGENT_COUNT
    ensures forall a :: a in world.Members("agent") ==> fresh(a) && Shaped(a) && StateSized(a)
    ensures UnitDraws(gen.agents) ==>
      forall a :: a in world.Members("agent") ==> Placed(world, a, m)
  {
    SpawnFood(world, gen, m);
    SpawnAgents(world, gen, m);
  }

  /** The first two `add_object` calls of `_spawn_objects`: 50 food and 50
      poison, all filed under "food". */
  method SpawnFood(world: World, gen: GenerationDraws, m: Maths)
    requires world.Valid() && world.objectsByCategory == map[]
    modifies world`grid, world`objectsByCategory
    ensures world.Valid()
    ensures Stocked(world)
    ensures forall k :: k != "food" ==> world.Members(k) == {}
  {
    assert forall k :: world.Members(k) == {};
    var food := world.AddObject(FoodClass, FOOD_COUNT, None, None, gen.food, m);
    var poison := world.AddObject(PoisonClass, POISON_COUNT, None, None, gen.poison, m);
    assert world.Members("food") == Elements(food) + Elements(poison);
    KindSplit(food, poison);
  }

  /** Distinct food objects and distinct poison objects, filed together,
      count as many of each kind as there are entries. */
  lemma KindSplit(food: seq<WorldObject>, poison: seq<WorldObject>)
    requires forall i :: 0 <= i < |food| ==> food[i].kind == FoodKind
    requires forall i :: 0 <= i < |poison| ==> poison[i].kind == PoisonKind
    requires forall i, j :: 0 <= i < j < |food| ==> food[i] != food[j]
    requires forall i, j :: 0 <= i < j < |poison| ==> poison[i] != poison[j]
    ensures |Elements(food) + Elements(poison)| == |food| + |poison|
    ensures |OfKind(Elements(food) + Elements(poison), FoodKind)| == |food|
    ensures |OfKind(Elements(food) + Elements(poison), PoisonKind)| == |poison|
  {
    DistinctElements(food);
    DistinctElements(poison);
    assert Elements(food) !! Elements(poison);
    assert OfKind(Elements(food) + Elements(poison), FoodKind) == Elements(food);
    assert OfKind(Elements(food) + Elements(poison), PoisonKind) == Elements(poison);
  }

  /** The third `add_object` call of `_spawn_objects`: 10 agents, each
      indexed in the grid with a fresh controller of the simulation's
      shape. */
  method SpawnAgents(world: World, gen: GenerationDraws, m: Maths)
    requires world.Valid() && world.Members("agent") == {}
    modifies world`grid, world`objectsByCategory
    ensures world.Valid()
    ensures forall k :: k != "agent" ==> world.Members(k) == old(world.Members(k))
    ensures |world.Members("agent")| == AGENT_COUNT
    ensures forall a :: a in world.Members("agent") ==> fresh(a) && Shaped(a) && StateSized(a)
    ensures UnitDraws(gen.agents) ==>
      forall a :: a in world.Members("agent") ==> Placed(world, a, m)
  {
    var agents := world.AddObject(AgentClass, AGENT_COUNT, None, None, gen.agents, m);
    assert world.Members("agent") == Elements(agents);
    DistinctElements(agents);
    forall a | a in world.Members("agent")
      ensures fresh(a) && Shaped(a) && StateSized(a)
      ensures UnitDraws(gen.agents) ==> Placed(world, a, m)
    {
      var i :| 0 <= i < |agents| && agents[i] == a;
      assert Agents.WellFormed(a);
      assert a.energy == 1.0 && a.health == 1.0;
      assert a.kind == AgentBody && a.size == Agents.AGENT_SIZE;
      assert WorldUpdates.Indexed(world, a, m);
      if UnitDraws(gen.agents) {
        FractionInside(world.width, gen.agents.x(i));
        FractionInside(world.height, gen.agents.y(i));
        assert AgentsNew.InWorld(a.x, a.y, world.width, world.height);
      }
    }
  }
}
