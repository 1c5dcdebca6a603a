/** One tick of the world (`World.update`, world.py): every agent senses,
    then every agent thinks, then every agent acts and is re-indexed in the
    grid from the cells it occupied before acting.

    The agents are those of experimental/agent_new.py, whose `sense(world)`
    and `act(world)` match the calls `update` makes; `think(steps_count=1)`
    is one propagation pass of the controller. This lives apart from
    `Worlds` because the agent operations it calls use the world. */
module WorldUpdates {
  import opened Numerics
  import opened NeuroBlobs
  import opened WorldObjects
  import opened Worlds
  import Agents
  import AgentsNew

  /** `o` is registered in exactly the cells of its current bounding box. */
  ghost predicate Indexed(world: World, o: WorldObject, m: Maths)
    reads world`grid, o`x, o`y
  {
    world.width > 0.0 && world.height > 0.0 && RegisteredIn(world.grid, o, world.ObjectCells(o, m))
  }

  /** What an agent needs for a tick: a well-formed controller, its centre
      in the world, energy and health in [0, 1], and an up-to-date entry
      in the grid. */
  ghost predicate Ready(world: World, a: WorldObject, m: Maths)
    reads world`grid, a`x, a`y, a`energy, a`health, a`brain, a`outputs, if a.brain != null then {a.brain} else {}
  {
    Placed(world, a, m) && Agents.WellFormed(a)
  }

  /** An agent's body with its centre in the world, energy and health in
      [0, 1], and an up-to-date entry in the grid. */
  ghost predicate Placed(world: World, a: WorldObject, m: Maths)
    reads world`grid, a`x, a`y, a`energy, a`health
  {
    a.kind == AgentBody && a.size == Agents.AGENT_SIZE &&
    AgentsNew.InWorld(a.x, a.y, world.width, world.height) &&
    Agents.InUnit(Agents.Vitals(a.energy, a.health)) &&
    Indexed(world, a, m)
  }

  /** The sensing phase: every agent rebuilds its inputs from the world as
      it stands before anyone moves; sensing changes nothing else an agent
      has, so readiness, controllers and bodies are as they were. */
  method SensePhase(world: World, agents: set<WorldObject>, m: Maths)
    requires forall a :: a in agents ==> AgentsNew.InWorld(a.x, a.y, world.width, world.height)
    modifies agents`inputs
    ensures forall a :: a in agents ==> var inputs := a.inputs; old(AgentsNew.Perceived(inputs, a, world, m))
    ensures forall a :: a in agents ==> BrainState(a) == old(BrainState(a))
    ensures SeparateBrains(agents) == old(SeparateBrains(agents))
    ensures forall a :: a in agents ==> Ready(world, a, m) == old(Ready(world, a, m)) && |a.inputs| == Agents.N_INPUT
    ensures forall a :: a in agents ==> StateOf(a) == old(StateOf(a))
  {
    var remaining := agents;
    while remaining != {}
      invariant remaining <= agents
      invariant forall a :: a in agents - remaining ==>
        var inputs := a.inputs; old(AgentsNew.Perceived(inputs, a, world, m))
      decreases remaining
    {
      var a :| a in remaining;
      AgentsNew.Sense(a, world, m);
      remaining := remaining - {a};
    }
  }

  /** Every output of `a` lies in [-1, 1]. */
  ghost predicate OutputsBounded(a: WorldObject)
    reads a`outputs
  {
    forall i :: 0 <= i < |a.outputs| ==> -1.0 <= a.outputs[i] <= 1.0
  }

  /** `a` can think; once `thought`, its outputs lie in [-1, 1]. */
  ghost predicate Thinking(a: WorldObject, thought: bool)
    reads a`brain, a`outputs, a`inputs, if a.brain != null then {a.brain} else {}
  {
    Agents.WellFormed(a) && |a.inputs| == Agents.N_INPUT && (thought ==> OutputsBounded(a))
  }

  /** No two agents share a state array, and no agent's state array is
      another's scratch buffer, so that one agent thinking leaves the
      others' controllers alone (each agent of the simulation owns its
      controller). */
  ghost predicate SeparateBrains(agents: set<WorldObject>)
    reads agents`brain, set a | a in agents && a.brain != null :: a.brain
  {
    forall a, b :: a in agents && b in agents && a != b && a.brain != null && b.brain != null ==>
      a.brain.state != b.brain.state && a.brain.state != b.brain.buffer
  }

  /** The state of `a`'s controller; empty when it has none. */
  function BrainState(a: WorldObject): seq<real>
    reads a`brain, if a.brain != null then {a.brain, a.brain.state} else {}
  {
    if a.brain != null then a.brain.state[..] else []
  }

  /** `a` has thought once from the state `s0`: its state is one pass of
      its controller over `s0` with its inputs written in, and its outputs
      are the output neurons of that state. */
  ghost predicate Thought(a: WorldObject, s0: seq<real>, m: Maths)
    reads a`brain, a`outputs, a`inputs, if a.brain != null then {a.brain, a.brain.state, a.brain.W} else {}
  {
    Agents.WellFormed(a) && |s0| == a.brain.nNeurons && |a.inputs| == Agents.N_INPUT &&
    a.brain.state[..] == Iterate(a.brain.Matrix(), WithInputs(s0, a.inputs), 1, m) &&
    a.outputs == a.brain.state[a.brain.outputStart..]
  }

  /** The index of the first output neuron of an agent's controller. */
  const OUTPUT_START: nat := 1 + Agents.N_INPUT + Agents.N_HIDDEN

  /** An agent's controller as the thinking phase finds it: its state and
      scratch arrays, its weights and inputs, the state `before` the phase,
      and the state `after` one pass. */
  datatype Snapshot = Snapshot(state: array<real>, buffer: array<real>, matrix: seq<seq<real>>,
                               inputs: seq<real>, before: seq<real>, after: seq<real>)

  /** No agent's state array is another agent's state array or buffer. */
  ghost predicate Distinct(snaps: map<WorldObject, Snapshot>)
  {
    forall a, b :: a in snaps && b in snaps && a != b ==>
      snaps[a].state != snaps[b].state && snaps[a].state != snaps[b].buffer
  }

  /** `snap.after` is one pass of the weights `snap.matrix` over
      `snap.before` with `snap.inputs` written in. */
  ghost predicate OnePass(snap: Snapshot, m: Maths)
  {
    |snap.before| == 1 + Agents.N_INPUT + Agents.N_HIDDEN + Agents.N_OUTPUT && |snap.inputs| == Agents.N_INPUT &&
    Rectangular(snap.matrix, |snap.before|) && |snap.matrix| <= |snap.before| &&
    snap.after == Iterate(snap.matrix, WithInputs(snap.before, snap.inputs), 1, m)
  }

  /** What holds of `a` throughout the thinking phase: it can think, its
      controller's arrays are those `snap` records, and once `thought` with
      a bounded `tanh` its outputs lie in [-1, 1]. */
  ghost predicate Steady(a: WorldObject, snap: Snapshot, thought: bool, m: Maths)
    reads a`brain, a`outputs, a`inputs, if a.brain != null then {a.brain, a.brain.W} else {}
  {
    Thinking(a, TanhBounded(m.tanh) && thought) && a.brain.nHidden == Agents.N_HIDDEN &&
    a.brain.state == snap.state && a.brain.buffer == snap.buffer &&
    a.brain.Matrix() == snap.matrix && a.inputs == snap.inputs
  }

  /** Where `a` stands in the thinking phase: its state is still
      `snap.before`, or it has thought, its state is `snap.after` and its
      outputs are the output neurons of that state. */
  ghost predicate Pending(a: WorldObject, snap: Snapshot, thought: bool)
    reads a`outputs, snap.state
  {
    if thought then OUTPUT_START <= |snap.after| && snap.state[..] == snap.after && a.outputs == snap.after[OUTPUT_START..]
    else snap.state[..] == snap.before
  }

  /** Each agent's controller before the thinking phase. */
  ghost method TakeSnapshots(agents: set<WorldObject>, m: Maths) returns (snaps: map<WorldObject, Snapshot>)
    requires forall a :: a in agents ==> Agents.WellFormed(a) && |a.inputs| == Agents.N_INPUT
    ensures forall a :: a in agents ==>
      a in snaps && snaps[a].before == BrainState(a) && OnePass(snaps[a], m) &&
      Steady(a, snaps[a], false, m) && Pending(a, snaps[a], false)
    ensures SeparateBrains(agents) ==> Distinct(snaps)
  {
    snaps := map a: WorldObject | a in agents ::
      Snapshot(a.brain.state, a.brain.buffer, a.brain.Matrix(), a.inputs, a.brain.state[..],
               Iterate(a.brain.Matrix(), WithInputs(a.brain.state[..], a.inputs), 1, m));
  }

  /** `agent.think()` for an agent whose state is `s0`: its state becomes
      the one pass of its controller over `s0` with its inputs written in,
      and its outputs the output neurons of that state. */
  method ThinkOne(a: WorldObject, ghost s0: seq<real>, m: Maths)
    requires Agents.WellFormed(a) && |a.inputs| == Agents.N_INPUT && a.brain.state[..] == s0
    modifies a`outputs, a.brain.state, a.brain.buffer
    ensures Thought(a, s0, m)
    ensures TanhBounded(m.tanh) ==> OutputsBounded(a)
  {
    AgentsNew.Think(a, m);
  }

  /** `a` thinks, as `ThinkOne` says, and every agent stays `Steady`. */
  method ThinkSteady(agents: set<WorldObject>, ghost done: set<WorldObject>, a: WorldObject,
                     ghost snaps: map<WorldObject, Snapshot>, m: Maths)
    requires a in agents && Agents.WellFormed(a) && |a.inputs| == Agents.N_INPUT
    requires forall b :: b in agents ==> b in snaps && Steady(b, snaps[b], b in done, m)
    requires OnePass(snaps[a], m)
    modifies a`outputs, a.brain.state, a.brain.buffer
    ensures Thought(a, old(BrainState(a)), m)
    ensures old(BrainState(a)) == snaps[a].before ==> Pending(a, snaps[a], true)
    ensures forall b :: b in agents ==> Steady(b, snaps[b], b in done + {a}, m)
  {
    ThinkOne(a, a.brain.state[..], m);
    forall b | b in agents
      ensures Steady(b, snaps[b], b in done + {a}, m)
    {
      assert old(Steady(b, snaps[b], b in done, m));
    }
  }

  /** Where the thinking phase stands once the agents of `done` have
      thought: every agent is `Steady` and, with distinct controllers,
      `Pending`. */
  ghost predicate Phase(agents: set<WorldObject>, snaps: map<WorldObject, Snapshot>, done: set<WorldObject>, m: Maths)
    reads agents, set a | a in agents && a.brain != null :: a.brain
    reads set a | a in agents && a.brain != null :: a.brain.W
    reads set a | a in agents && a in snaps :: snaps[a].state
  {
    forall a :: a in agents ==>
      a in snaps && Steady(a, snaps[a], a in done, m) && (Distinct(snaps) ==> Pending(a, snaps[a], a in done))
  }

  /** One agent of the thinking phase thinks, as `ThinkOne` says; with
      distinct controllers, every other agent stands where it stood. */
  method ThinkNext(agents: set<WorldObject>, ghost done: set<WorldObject>, a: WorldObject,
                   ghost snaps: map<WorldObject, Snapshot>, m: Maths)
    requires a in agents && a !in done && done <= agents && Agents.WellFormed(a) && |a.inputs| == Agents.N_INPUT
    requires Phase(agents, snaps, done, m) && OnePass(snaps[a], m)
    modifies a`outputs, a.brain.state, a.brain.buffer
    ensures Thought(a, old(BrainState(a)), m)
    ensures Phase(agents, snaps, done + {a}, m)
  {
    ThinkSteady(agents, done, a, snaps, m);
    forall b | b in agents
      ensures Distinct(snaps) ==> Pending(b, snaps[b], b in done + {a})
    {
      if b != a {
        assert old(Distinct(snaps) ==> Pending(b, snaps[b], b in done));
      }
    }
  }

  /** Every agent thinks once, one after the other, from the snapshot
      `snaps` took of it. */
  method ThinkAll(agents: set<WorldObject>, ghost snaps: map<WorldObject, Snapshot>, m: Maths)
    requires forall a :: a in agents ==> a in snaps && OnePass(snaps[a], m)
    requires Phase(agents, snaps, {}, m)
    modifies agents`outputs
    modifies set a | a in agents && a in snaps :: snaps[a].state
    modifies set a | a in agents && a in snaps :: snaps[a].buffer
    ensures Phase(agents, snaps, agents, m)
    ensures forall a :: a in agents ==> StateOf(a) == old(StateOf(a))
  {
    var remaining: set<WorldObject> := agents;
    ghost var done: set<WorldObject> := {};
    while remaining != {}
      invariant done <= agents && remaining <= agents && forall a :: a in agents ==> (a in done <==> a !in remaining)
      invariant Phase(agents, snaps, done, m)
      decreases remaining
    {
      var a :| a in remaining;
      ThinkNext(agents, done, a, snaps, m);
      remaining := remaining - {a};
      done := done + {a};
    }
  }

  /** The thinking phase: every agent runs its controller once on its
      inputs, from the state it had before the phase, and its outputs are
      the output neurons of the new state (given separate controllers);
      with a bounded `tanh` every output lies in [-1, 1]. Inputs and bodies
      are left alone. */
  method ThinkPhase(agents: set<WorldObject>, m: Maths)
    requires forall a :: a in agents ==> Agents.WellFormed(a) && |a.inputs| == Agents.N_INPUT
    modifies agents`outputs
    modifies set a | a in agents && a.brain != null :: a.brain.state
    modifies set a | a in agents && a.brain != null :: a.brain.buffer
    ensures forall a :: a in agents ==> Agents.WellFormed(a)
    ensures forall a :: a in agents ==> a.inputs == old(a.inputs) && StateOf(a) == old(StateOf(a))
    ensures TanhBounded(m.tanh) ==> forall a :: a in agents ==> OutputsBounded(a)
    ensures old(SeparateBrains(agents)) ==> forall a :: a in agents ==> Thought(a, old(BrainState(a)), m)
  {
    ghost var snaps := TakeSnapshots(agents, m);
    ThinkAll(agents, snaps, m);
    PhaseDone(agents, snaps, m);
  }

  /** The thinking phase inside a tick: as `ThinkPhase` says, and ready
      agents stay ready, since thinking touches neither the world nor the
      agents' bodies. */
  method ThinkInWorld(world: World, agents: set<WorldObject>, m: Maths)
    requires forall a :: a in agents ==> Ready(world, a, m) && |a.inputs| == Agents.N_INPUT
    modifies agents`outputs
    modifies set a | a in agents && a.brain != null :: a.brain.state
    modifies set a | a in agents && a.brain != null :: a.brain.buffer
    ensures forall a :: a in agents ==> Ready(world, a, m) && a.inputs == old(a.inputs)
    ensures forall a :: a in agents ==> StateOf(a) == old(StateOf(a))
    ensures TanhBounded(m.tanh) ==> forall a :: a in agents ==> OutputsBounded(a)
    ensures old(SeparateBrains(agents)) ==> forall a :: a in agents ==> Thought(a, old(BrainState(a)), m)
  {
    ThinkPhase(agents, m);
  }

  /** Once every agent has thought, every agent can think and, with a
      bounded `tanh`, has its outputs in [-1, 1]; with distinct controllers
      each has thought once from the state its snapshot recorded. */
  lemma PhaseDone(agents: set<WorldObject>, snaps: map<WorldObject, Snapshot>, m: Maths)
    requires Phase(agents, snaps, agents, m)
    requires forall a :: a in agents ==> a in snaps && OnePass(snaps[a], m)
    ensures forall a :: a in agents ==> Agents.WellFormed(a)
    ensures TanhBounded(m.tanh) ==> forall a :: a in agents ==> OutputsBounded(a)
    ensures Distinct(snaps) ==> forall a :: a in agents ==> Thought(a, snaps[a].before, m)
  {
  }

  /** Moving `obj` from `oldCells` to `newCells` leaves every other
      object's registration as it was. */
  lemma ReindexKeepsOthers(g: Grid, obj: WorldObject, oldCells: set<Cell>, newCells: set<Cell>,
                           o: WorldObject, oCells: set<Cell>)
    requires RegisteredIn(g, o, oCells) && o != obj
    ensures RegisteredIn(Added(Removed(g, obj, oldCells - newCells), obj, newCells - oldCells), o, oCells)
  {
    OthersStayRegistered(g, obj, oldCells - newCells, o, oCells);
    OthersStayRegistered(Removed(g, obj, oldCells - newCells), obj, newCells - oldCells, o, oCells);
  }

  /** What acting reads and changes on an agent, as it stands. */
  datatype Before = Before(angle: real, position: Vec, vitals: Agents.Vitals, score: int, age: int)

  function StateOf(a: WorldObject): Before
    reads a`angle, a`x, a`y, a`energy, a`health, a`score, a`age
  {
    Before(a.angle, a.Position(), Agents.Vitals(a.energy, a.health), a.score, a.age)
  }

  /** `a` has acted once since it stood as `s`, on the outputs it holds: it
      turned by a tenth of `outputs[0]` (modulo 2 pi), took the clamped step
      of speed `outputs[1]` and aged by one; it either ate, which takes
      `outputs[2] > 0` and earns one point and the food's energy, or did
      not; either way it paid the cost of moving and regenerated. */
  ghost predicate Acted(a: WorldObject, s: Before, width: real, height: real, m: Maths)
    reads a`angle, a`x, a`y, a`energy, a`health, a`score, a`age, a`outputs
  {
    |a.outputs| == 3 &&
    a.age == s.age + 1 &&
    a.angle == PyMod(s.angle + a.outputs[0] * 0.1, TAU) &&
    a.Position() == AgentsNew.ClampedStep(s.position, a.angle, a.outputs[1], Radius(a.size, m), width, height, m) &&
    (a.score == s.score || (a.outputs[2] > 0.0 && a.score == s.score + 1)) &&
    Agents.Vitals(a.energy, a.health) == AgentsNew.AfterEating(s.vitals, a.score != s.score, a.outputs[1])
  }

  /** `agent.act(world)` as the tick sees it: the agent acts as `Acted`
      says; the food now is the old food or the food just added, acting
      changes the grid only for food, and every other category is kept. */
  method ActOn(world: World, agent: WorldObject, draws: Draws, m: Maths) returns (added: seq<WorldObject>)
    requires world.Valid() && |agent.outputs| == 3
    modifies agent`angle, agent`x, agent`y, agent`age, agent`energy, agent`health, agent`score
    modifies world`grid, world`objectsByCategory
    ensures world.Valid()
    ensures Acted(agent, old(StateOf(agent)), world.width, world.height, m)
    ensures forall k :: k != "food" ==> world.Members(k) == old(world.Members(k))
    ensures |world.Members("food")| == |old(world.Members("food"))|
    ensures forall o :: o in world.Members("food") ==> o in old(world.Members("food")) || o in added
    ensures forall o :: o in added ==> fresh(o)
    ensures ChangedOnly(old(world.grid), world.grid, old(world.Members("food")) + world.Members("food"))
    ensures Agents.InUnit(old(Agents.Vitals(agent.energy, agent.health))) ==>
      Agents.InUnit(Agents.Vitals(agent.energy, agent.health))
  {
    ghost var foods0 := world.Members("food");
    var eaten;
    eaten, added := AgentsNew.Act(agent, world, draws, m);
    if eaten == null {
      assert added == [] && world.Members("food") == foods0;
    } else {
      assert added == [added[0]] && fresh(added[0]);
      assert world.Members("food") == foods0 - {eaten} + {added[0]};
    }
    assert agent.outputs == old(agent.outputs);
    assert old(StateOf(agent)) == Before(old(agent.angle), old(agent.Position()), old(Agents.Vitals(agent.energy, agent.health)), old(agent.score), old(agent.age));
  }

  /** `agent.act(world)` inside the acting phase: besides what `ActOn`
      says, the agent is still filed under `oldCells`, the cells it
      occupied before acting, and every other agent stays indexed. */
  method ActInGrid(world: World, agent: WorldObject, agents: set<WorldObject>, oldCells: set<Cell>,
                   draws: Draws, m: Maths) returns (added: seq<WorldObject>)
    requires world.Valid() && agent.kind == AgentBody && |agent.outputs| == 3
    requires forall b :: b in agents ==> b.kind == AgentBody && Indexed(world, b, m)
    requires RegisteredIn(world.grid, agent, oldCells)
    modifies agent`angle, agent`x, agent`y, agent`age, agent`energy, agent`health, agent`score
    modifies world`grid, world`objectsByCategory
    ensures world.Valid()
    ensures RegisteredIn(world.grid, agent, oldCells)
    ensures forall b :: b in agents && b != agent ==> Indexed(world, b, m)
    ensures Acted(agent, old(StateOf(agent)), world.width, world.height, m)
    ensures forall k :: k != "food" ==> world.Members(k) == old(world.Members(k))
    ensures |world.Members("food")| == |old(world.Members("food"))|
    ensures forall o :: o in world.Members("food") ==> o in old(world.Members("food")) || o in added
    ensures forall o :: o in added ==> fresh(o)
    ensures ChangedOnly(old(world.grid), world.grid, old(world.Members("food")) + world.Members("food"))
    ensures Agents.InUnit(old(Agents.Vitals(agent.energy, agent.health))) ==>
      Agents.InUnit(Agents.Vitals(agent.energy, agent.health))
  {
    ghost var g0 := world.grid;
    ghost var foods0 := world.Members("food");
    added := ActOn(world, agent, draws, m);
    ghost var foods := foods0 + world.Members("food");
    assert agent !in foods;
    RegistrationKept(g0, world.grid, foods, agent, oldCells);
    forall b | b in agents && b != agent
      ensures Indexed(world, b, m)
    {
      assert b !in foods;
      RegistrationKept(g0, world.grid, foods, b, world.ObjectCells(b, m));
    }
  }

  /** `_update_object_in_grid(agent, old_cells)` after the agent acted: the
      agent is filed under its new cells, every other agent stays indexed,
      and the grid changes for the agent alone. */
  method Reindex(world: World, agent: WorldObject, agents: set<WorldObject>, oldCells: set<Cell>, m: Maths)
    requires world.Valid() && oldCells <= AllCells() && RegisteredIn(world.grid, agent, oldCells)
    requires forall b :: b in agents && b != agent ==> Indexed(world, b, m)
    modifies world`grid
    ensures world.Valid() && world.objectsByCategory == old(world.objectsByCategory)
    ensures forall b :: b in agents + {agent} ==> Indexed(world, b, m)
    ensures ChangedOnly(old(world.grid), world.grid, {agent})
  {
    var newCells := world.ObjectCells(agent, m);
    ghost var g := world.grid;
    world.UpdateObjectInGrid(agent, Some(oldCells), m);
    Reconcile(g, agent, oldCells, newCells);
    forall b | b in agents && b != agent
      ensures Indexed(world, b, m)
    {
      ReindexKeepsOthers(g, agent, oldCells, newCells, b, world.ObjectCells(b, m));
    }
  }

  /** One iteration of the acting phase: `old_cells` is taken, the agent
      acts (and may swap a food), and the grid entry of the agent is
      reconciled with its new cells. Every agent indexed before is indexed
      after, and the grid changes only for the agent and the food. */
  method ActAndReindex(world: World, agent: WorldObject, agents: set<WorldObject>, draws: Draws, m: Maths)
    returns (added: seq<WorldObject>)
    requires world.Valid() && agent.kind == AgentBody && agent.size == Agents.AGENT_SIZE && |agent.outputs| == 3
    requires forall b :: b in agents ==> b.kind == AgentBody && Indexed(world, b, m)
    requires Indexed(world, agent, m)
    modifies agent`angle, agent`x, agent`y, agent`age, agent`energy, agent`health, agent`score
    modifies world`grid, world`objectsByCategory
    ensures world.Valid()
    ensures Acted(agent, old(StateOf(agent)), world.width, world.height, m)
    ensures forall b :: b in agents + {agent} ==> Indexed(world, b, m)
    ensures forall k :: k != "food" ==> world.Members(k) == old(world.Members(k))
    ensures |world.Members("food")| == |old(world.Members("food"))|
    ensures forall o :: o in world.Members("food") ==> o in old(world.Members("food")) || o in added
    ensures forall o :: o in added ==> fresh(o)
    ensures ChangedOnly(old(world.grid), world.grid, {agent} + old(world.Members("food")) + world.Members("food"))
    ensures Agents.InUnit(old(Agents.Vitals(agent.energy, agent.health))) ==>
      Agents.InUnit(Agents.Vitals(agent.energy, agent.health))
    ensures world.width >= 12.0 && world.height >= 12.0 ==>
      AgentsNew.InWorld(agent.x, agent.y, world.width, world.height)
  {
    ghost var g0 := world.grid;
    ghost var foods0 := world.Members("food");
    var oldCells := world.ObjectCells(agent, m);
    added := ActInGrid(world, agent, agents, oldCells, draws, m);
    ghost var g1 := world.grid;
    ghost var touched := {agent} + foods0 + world.Members("food");
    assert Radius(agent.size, m) == 6.0;
    Reindex(world, agent, agents, oldCells, m);
    ChangedOnlyWider(g0, g1, foods0 + world.Members("food"), touched);
    ChangedOnlyWider(g1, world.grid, {agent}, touched);
    ChangedOnlyTrans(g0, g1, world.grid, touched);
  }

  /** Where agent `a` stands in the acting phase of a world of the given
      size: it stood as `s` before the phase, and it has acted from there
      when `acted` and is still as it stood otherwise; vitals in [0, 1]
      stay there. */
  ghost predicate Acting(a: WorldObject, s: Before, acted: bool, width: real, height: real, m: Maths)
    reads a`angle, a`x, a`y, a`age, a`energy, a`health, a`score, a`outputs
  {
    a.kind == AgentBody && a.size == Agents.AGENT_SIZE && |a.outputs| == 3 &&
    (if acted then Acted(a, s, width, height, m) else StateOf(a) == s) &&
    (Agents.InUnit(s.vitals) ==> Agents.InUnit(Agents.Vitals(a.energy, a.health))) &&
    (acted && width >= 12.0 && height >= 12.0 ==> AgentsNew.InWorld(a.x, a.y, width, height))
  }

  /** One agent of the acting phase acts and is re-indexed; the others are
      as they were, and every agent stays indexed. */
  method ActNext(world: World, agents: set<WorldObject>, ghost done: set<WorldObject>, a: WorldObject,
                 ghost before: map<WorldObject, Before>, draws: Draws, m: Maths)
    returns (ghost step: set<WorldObject>)
    requires world.Valid() && a in agents && a !in done && done <= agents
    requires forall b :: b in agents ==> Indexed(world, b, m)
    requires forall b :: b in agents ==> b in before && Acting(b, before[b], b in done, world.width, world.height, m)
    modifies a`angle, a`x, a`y, a`age, a`energy, a`health, a`score
    modifies world`grid, world`objectsByCategory
    ensures world.Valid()
    ensures forall b :: b in agents ==> Indexed(world, b, m)
    ensures forall b :: b in agents ==> Acting(b, before[b], b in done + {a}, world.width, world.height, m)
    ensures forall k :: k != "food" ==> world.Members(k) == old(world.Members(k))
    ensures |world.Members("food")| == |old(world.Members("food"))|
    ensures world.Members("food") <= old(world.Members("food")) + step && fresh(step)
    ensures ChangedOnly(old(world.grid), world.grid, {a} + old(world.Members("food")) + world.Members("food"))
  {
    var added := ActAndReindex(world, a, agents, draws, m);
    step := Elements(added);
    forall b | b in agents
      ensures Acting(b, before[b], b in done + {a}, world.width, world.height, m)
    {
      if b != a {
        assert old(Acting(b, before[b], b in done, world.width, world.height, m));
      }
    }
  }

  /** The bookkeeping of one step of the acting phase: if the grid has
      changed only for the agents, the food `foods0` and the food `added`
      so far, and agent `a` then changes it only for itself and the food
      before and after, replacing food only with `step`, then the grid has
      changed only for the agents, `foods0` and `added + step`. */
  lemma GrowTouched(g0: Grid, g: Grid, g1: Grid, agents: set<WorldObject>, foods0: set<WorldObject>,
                    added: set<WorldObject>, a: WorldObject, foods: set<WorldObject>, foods1: set<WorldObject>,
                    step: set<WorldObject>)
    requires a in agents && foods <= foods0 + added && foods1 <= foods + step
    requires ChangedOnly(g0, g, agents + foods0 + added) && ChangedOnly(g, g1, {a} + foods + foods1)
    ensures foods1 <= foods0 + (added + step)
    ensures ChangedOnly(g0, g1, agents + foods0 + (added + step))
  {
    var touched := agents + foods0 + (added + step);
    ChangedOnlyWider(g0, g, agents + foods0 + added, touched);
    ChangedOnlyWider(g, g1, {a} + foods + foods1, touched);
    ChangedOnlyTrans(g0, g, g1, touched);
  }

  /** The acting phase: every agent acts, then is re-indexed. Each agent
      ends as `Acted` says from where it stood before the phase; the food
      is the old food or food added during the phase, and the grid changes
      only for the agents, the old food and the added food. */
  method ActPhase(world: World, agents: set<WorldObject>, draws: nat -> Draws, m: Maths)
    returns (ghost added: set<WorldObject>)
    requires world.Valid()
    requires forall a :: a in agents ==>
      a.kind == AgentBody && a.size == Agents.AGENT_SIZE && |a.outputs| == 3 && Indexed(world, a, m)
    modifies agents`angle, agents`x, agents`y, agents`age, agents`energy, agents`health, agents`score
    modifies world`grid, world`objectsByCategory
    ensures world.Valid()
    ensures forall k :: k != "food" ==> world.Members(k) == old(world.Members(k))
    ensures |world.Members("food")| == |old(world.Members("food"))|
    ensures forall a :: a in agents ==> Acted(a, old(StateOf(a)), world.width, world.height, m) && Indexed(world, a, m)
    ensures forall a :: a in agents && old(Agents.InUnit(Agents.Vitals(a.energy, a.health))) ==>
      Agents.InUnit(Agents.Vitals(a.energy, a.health))
    ensures world.width >= 12.0 && world.height >= 12.0 ==>
      forall a :: a in agents ==> AgentsNew.InWorld(a.x, a.y, world.width, world.height)
    ensures forall a :: a in agents ==> a.inputs == old(a.inputs)
    ensures fresh(added) && world.Members("food") <= old(world.Members("food")) + added
    ensures ChangedOnly(old(world.grid), world.grid, agents + old(world.Members("food")) + added)
  {
    ghost var before := map a | a in agents :: StateOf(a);
    added := ActAll(world, agents, draws, m, before);
  }

  /** The loop of the acting phase: every agent of `agents`, which stood as
      `before`, acts. */
  method ActAll(world: World, agents: set<WorldObject>, draws: nat -> Draws, m: Maths,
                ghost before: map<WorldObject, Before>)
    returns (ghost added: set<WorldObject>)
    requires world.Valid()
    requires forall a :: a in agents ==> Indexed(world, a, m)
    requires forall a :: a in agents ==> a in before && Acting(a, before[a], false, world.width, world.height, m)
    modifies agents`angle, agents`x, agents`y, agents`age, agents`energy, agents`health, agents`score
    modifies world`grid, world`objectsByCategory
    ensures world.Valid()
    ensures forall k :: k != "food" ==> world.Members(k) == old(world.Members(k))
    ensures |world.Members("food")| == |old(world.Members("food"))|
    ensures forall a :: a in agents ==> Indexed(world, a, m)
    ensures forall a :: a in agents ==> Acting(a, before[a], true, world.width, world.height, m)
    ensures forall a :: a in agents ==> a.inputs == old(a.inputs)
    ensures fresh(added) && world.Members("food") <= old(world.Members("food")) + added
    ensures ChangedOnly(old(world.grid), world.grid, agents + old(world.Members("food")) + added)
  {
    var remaining := agents;
    ghost var done: set<WorldObject> := {};
    ghost var g0, foods0 := world.grid, world.Members("food");
    added := {};
    var i := 0;
    while remaining != {}
      invariant remaining <= agents && done <= agents && remaining !! done
      invariant world.Valid()
      invariant forall k :: k != "food" ==> world.Members(k) == old(world.Members(k))
      invariant |world.Members("food")| == |foods0|
      invariant forall a :: a in agents ==> Indexed(world, a, m)
      invariant forall a :: a in agents ==> a in before && Acting(a, before[a], a in done, world.width, world.height, m)
      invariant forall a :: a in agents && a !in done ==> a in remaining
      invariant world.Members("food") <= foods0 + added
      invariant ChangedOnly(g0, world.grid, agents + foods0 + added)
      invariant forall o :: o in added ==> !old(allocated(o))
      decreases remaining
    {
      var a :| a in remaining;
      ghost var g, foods := world.grid, world.Members("food");
      ghost var step := ActNext(world, agents, done, a, before, draws(i), m);
      ghost var grown := added + step;
      forall o | o in grown
        ensures !old(allocated(o))
      {
        if o !in step {
          assert o in added;
        }
      }
      GrowTouched(g0, g, world.grid, agents, foods0, added, a, foods, world.Members("food"), step);
      added := grown;
      remaining := remaining - {a};
      done := done + {a};
      i := i + 1;
    }
  }

  /** The acting phase as the tick runs it on ready agents: as `ActPhase`
      says; acting leaves every agent's inputs, controller and outputs
      alone, and in a world that holds an agent's body the agents stay
      ready. */
  method ActInTick(world: World, agents: set<WorldObject>, draws: nat -> Draws, m: Maths)
    returns (ghost added: set<WorldObject>)
    requires world.Valid()
    requires forall a :: a in agents ==> Ready(world, a, m)
    modifies agents`angle, agents`x, agents`y, agents`age, agents`energy, agents`health, agents`score
    modifies world`grid, world`objectsByCategory
    ensures world.Valid()
    ensures forall k :: k != "food" ==> world.Members(k) == old(world.Members(k))
    ensures |world.Members("food")| == |old(world.Members("food"))|
    ensures forall a :: a in agents ==> Acted(a, old(StateOf(a)), world.width, world.height, m) && Indexed(world, a, m)
    ensures forall a :: a in agents ==> Agents.InUnit(Agents.Vitals(a.energy, a.health))
    ensures fresh(added) && world.Members("food") <= old(world.Members("food")) + added
    ensures ChangedOnly(old(world.grid), world.grid, agents + old(world.Members("food")) + added)
    ensures forall a :: a in agents ==> Agents.WellFormed(a) && OutputsBounded(a) == old(OutputsBounded(a))
    ensures forall a :: a in agents ==> a.inputs == old(a.inputs)
    ensures world.width >= 12.0 && world.height >= 12.0 ==> forall a :: a in agents ==> Ready(world, a, m)
  {
    added := ActPhase(world, agents, draws, m);
    forall a | a in agents
      ensures Agents.WellFormed(a) && OutputsBounded(a) == old(OutputsBounded(a))
    {
      assert old(Agents.WellFormed(a));
      assert a.brain == old(a.brain) && a.outputs == old(a.outputs);
      assert a.brain.W == old(a.brain.W) && a.brain.state == old(a.brain.state);
    }
  }

  /** The first two phases of a tick: every agent senses the world as it
      stands, then every agent thinks once on those inputs (given separate
      controllers). Agents stay ready and where they stood, and with a
      bounded `tanh` their outputs lie in [-1, 1]. */
  method SenseThenThink(world: World, agents: set<WorldObject>, m: Maths)
    requires forall a :: a in agents ==> Ready(world, a, m)
    modifies agents`inputs, agents`outputs
    modifies set a | a in agents && a.brain != null :: a.brain.state
    modifies set a | a in agents && a.brain != null :: a.brain.buffer
    ensures forall a :: a in agents ==> Ready(world, a, m)
    ensures forall a :: a in agents ==> var inputs := a.inputs; old(AgentsNew.Perceived(inputs, a, world, m))
    ensures old(SeparateBrains(agents)) ==> forall a :: a in agents ==> Thought(a, old(BrainState(a)), m)
    ensures TanhBounded(m.tanh) ==> forall a :: a in agents ==> OutputsBounded(a)
    ensures forall a :: a in agents ==> StateOf(a) == old(StateOf(a))
  {
    SensePhase(world, agents, m);
    label sensed:
    ThinkInWorld(world, agents, m);
    if old(SeparateBrains(agents)) {
      assert old@sensed(SeparateBrains(agents));
      forall a | a in agents
        ensures Thought(a, old(BrainState(a)), m)
      {
        assert old@sensed(BrainState(a)) == old(BrainState(a));
        assert Thought(a, old@sensed(BrainState(a)), m);
      }
    }
  }

  /** `update()`: sense, think, then act with re-indexing, each phase over
      the agents of the world. `draws(i)` are the random draws of the
      replacement food of the `i`-th agent to act; `added` is the food
      created during the tick. Each agent's inputs are its reading of the
      world before the tick, and it acted as `Acted` says on the outputs
      its controller computed from them (`SenseThenThink` states that pass).
      The agents and every category but food are kept, and so is the
      number of food objects; the grid changes only for the agents and the
      food. In a world that holds an agent's body, a tick keeps every
      agent ready for the next. */
  method Update(world: World, draws: nat -> Draws, m: Maths) returns (ghost added: set<WorldObject>)
    requires world.Valid()
    requires forall a :: a in world.Members("agent") ==> Ready(world, a, m)
    modifies world`grid, world`objectsByCategory
    modifies world.Members("agent")`inputs, world.Members("agent")`outputs
    modifies world.Members("agent")`angle, world.Members("agent")`x, world.Members("agent")`y
    modifies world.Members("agent")`age, world.Members("agent")`energy, world.Members("agent")`health
    modifies world.Members("agent")`score
    modifies set a | a in world.Members("agent") && a.brain != null :: a.brain.state
    modifies set a | a in world.Members("agent") && a.brain != null :: a.brain.buffer
    ensures world.Valid()
    ensures forall k :: k != "food" ==> world.Members(k) == old(world.Members(k))
    ensures |world.Members("food")| == |old(world.Members("food"))|
    ensures forall a {:trigger a.inputs} :: a in world.Members("agent") ==>
      var inputs := a.inputs; old(AgentsNew.Perceived(inputs, a, world, m))
    ensures forall a {:trigger old(StateOf(a))} :: a in world.Members("agent") ==>
      Acted(a, old(StateOf(a)), world.width, world.height, m)
    ensures fresh(added) && world.Members("food") <= old(world.Members("food")) + added
    ensures ChangedOnly(old(world.grid), world.grid, world.Members("agent") + old(world.Members("food")) + added)
    ensures forall a {:trigger Agents.WellFormed(a)} :: a in world.Members("agent") ==> Indexed(world, a, m) && Agents.WellFormed(a)
    ensures forall a {:trigger Agents.InUnit(Agents.Vitals(a.energy, a.health))} :: a in world.Members("agent") ==> Agents.InUnit(Agents.Vitals(a.energy, a.health))
    ensures TanhBounded(m.tanh) ==> forall a {:trigger OutputsBounded(a)} :: a in world.Members("agent") ==> OutputsBounded(a)
    ensures world.width >= 12.0 && world.height >= 12.0 ==>
      forall a {:trigger Ready(world, a, m)} :: a in world.Members("agent") ==> Ready(world, a, m)
  {
    var agents := world.GetObjects(Some("agent"));
    added := UpdateAgents(world, agents, draws, m);
  }

  /** The three phases of `update()` over `agents`, the agents of the world. */
  method UpdateAgents(world: World, agents: set<WorldObject>, draws: nat -> Draws, m: Maths)
    returns (ghost added: set<WorldObject>)
    requires world.Valid() && agents == world.Members("agent")
    requires forall a :: a in agents ==> Ready(world, a, m)
    modifies world`grid, world`objectsByCategory
    modifies agents`inputs, agents`outputs, agents`angle, agents`x, agents`y
    modifies agents`age, agents`energy, agents`health, agents`score
    modifies set a | a in agents && a.brain != null :: a.brain.state
    modifies set a | a in agents && a.brain != null :: a.brain.buffer
    ensures world.Valid()
    ensures forall k :: k != "food" ==> world.Members(k) == old(world.Members(k))
    ensures |world.Members("food")| == |old(world.Members("food"))|
    ensures forall a :: a in agents ==> var inputs := a.inputs; old(AgentsNew.Perceived(inputs, a, world, m))
    ensures forall a :: a in agents ==> Acted(a, old(StateOf(a)), world.width, world.height, m)
    ensures fresh(added) && world.Members("food") <= old(world.Members("food")) + added
    ensures ChangedOnly(old(world.grid), world.grid, agents + old(world.Members("food")) + added)
    ensures forall a :: a in agents ==> Indexed(world, a, m) && Agents.WellFormed(a)
    ensures forall a :: a in agents ==> Agents.InUnit(Agents.Vitals(a.energy, a.health))
    ensures TanhBounded(m.tanh) ==> forall a :: a in agents ==> OutputsBounded(a)
    ensures world.width >= 12.0 && world.height >= 12.0 ==>
      forall a :: a in agents ==> Ready(world, a, m)
  {
    SenseThenThink(world, agents, m);
    added := ActInTick(world, agents, draws, m);
  }
}
