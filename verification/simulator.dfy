/** The per-step orchestration: a simulator object that owns a cart-pole
    physics model, starts episodes and advances the model one step per
    action, combining the physical terminal check with a 200-iteration cap.

    The physics integrator itself is not part of this model: the model's
    one-step transition is an arbitrary function `Dynamics` fixed when the
    model is built, and the start state of an episode is supplied by the
    caller, which stands for whatever (possibly random) state the physics
    model chooses on reset. */
module Simulator {
  import opened Star

  /** One integration step of the physics: old state and discrete action
      (0 or 1) to the new state. */
  type Dynamics = (ModelState, int) -> ModelState

  /** Iteration count from which every step is reported as terminal. */
  const MaxIterations: int := 200

  /** What one call of `simulate` hands back to the platform. */
  datatype StepResult = StepResult(state: BrainState, reward: real, terminal: bool)

  /** The result of a step whose post-step physics state is `post`, taken
      when the platform's iteration counter reads `iterationCount`. */
  function Outcome(post: ModelState, iterationCount: int): (r: StepResult)
    ensures r.terminal <==> iterationCount >= MaxIterations || Terminal(post)
    ensures r.reward == (if r.terminal then TerminalReward else AliveReward)
    ensures Unstate(r.state) == post
  {
    var terminal := if iterationCount >= MaxIterations then true else Terminal(post);
    StepResult(State(post), Reward(post, terminal), terminal)
  }

  /** The cart-pole physics model: a state that `Reset` and `Step` replace
      in place. */
  class CartPole {
    const dynamics: Dynamics
    var state: ModelState

    constructor (dynamics: Dynamics, initial: ModelState)
      ensures this.dynamics == dynamics && state == initial
    {
      this.dynamics := dynamics;
      state := initial;
    }

    /** Puts the model at the start of an episode. */
    method Reset(start: ModelState)
      modifies this
      ensures state == start
    {
      state := start;
    }

    /** Integrates one timestep under the given action. */
    method Step(action: int)
      modifies this
      ensures state == dynamics(old(state), action)
    {
      state := dynamics(state, action);
    }
  }

  /** The simulator the platform drives. The platform keeps the iteration
      and episode counters; the simulator only reads them. */
  class CartpoleSimulator {
    const model: CartPole
    var iterationCount: nat
    var episodeCount: nat

    constructor (model: CartPole)
      ensures this.model == model
      ensures iterationCount == 0 && episodeCount == 0
    {
      this.model := model;
      iterationCount := 0;
      episodeCount := 0;
    }

    /** Resets the physics and reports the encoded start state. Only the
        model changes; the counters are left to the platform. */
    method EpisodeStart(start: ModelState) returns (b: BrainState)
      modifies model
      ensures model.state == start
      ensures b == State(start) && Unstate(b) == model.state
    {
      model.Reset(start);
      b := State(model.state);
    }

    /** Runs one step: decodes the action, advances the physics exactly
        once, and reports the encoded post-step state, its reward and the
        terminal flag (forced once the iteration counter reaches the cap). */
    method Simulate(brainAction: BrainAction) returns (b: BrainState, reward: real, terminal: bool)
      modifies model
      ensures model.state == model.dynamics(old(model.state), Action(brainAction))
      ensures StepResult(b, reward, terminal) == Outcome(model.state, iterationCount)
    {
      var action := Action(brainAction);

      model.Step(action);

      if iterationCount >= MaxIterations {
        terminal := true;
      } else {
        terminal := Terminal(model.state);
      }

      reward := Reward(model.state, terminal);
      b := State(model.state);
    }
  }

  // Properties of a single step

  /** At or past the cap the step is terminal and penalised, even when the
      pole is physically in bounds. */
  lemma CapForcesTerminal(post: ModelState, iterationCount: int)
    requires iterationCount >= MaxIterations
    ensures Outcome(post, iterationCount).terminal
    ensures Outcome(post, iterationCount).reward == -0.01
  {
  }

  /** Below the cap the terminal flag is exactly the physical check of the
      post-step state, and the reward follows it. */
  lemma BelowCapIsPhysical(post: ModelState, iterationCount: int)
    requires iterationCount < MaxIterations
    ensures Outcome(post, iterationCount).terminal == Terminal(post)
    ensures Outcome(post, iterationCount).reward == (if Terminal(post) then -0.01 else 1.0)
  {
  }

  // Repeated steps

  /** The physics state after feeding `commands`, one step each, from `s`. */
  function Advance(dynamics: Dynamics, s: ModelState, commands: seq<BrainAction>): ModelState
    decreases |commands|
  {
    if commands == [] then s
    else Advance(dynamics, dynamics(s, Action(commands[0])), commands[1..])
  }

  /** The results of consecutive `Simulate` calls issuing `commands` from the
      physics state `s`, with the iteration counter reading `k` at the first
      call and advanced by one between calls. */
  function Rollout(dynamics: Dynamics, s: ModelState, k: int, commands: seq<BrainAction>): (r: seq<StepResult>)
    ensures |r| == |commands|
    decreases |commands|
  {
    if commands == [] then []
    else
      var post := dynamics(s, Action(commands[0]));
      [Outcome(post, k)] + Rollout(dynamics, post, k + 1, commands[1..])
  }

  /** The i-th step of a rollout is the outcome of the physics state reached
      after i + 1 commands, taken at counter reading k + i. */
  lemma {:induction false} RolloutAt(dynamics: Dynamics, s: ModelState, k: int, commands: seq<BrainAction>, i: nat)
    requires i < |commands|
    ensures Rollout(dynamics, s, k, commands)[i] == Outcome(Advance(dynamics, s, commands[..i + 1]), k + i)
    decreases |commands|
  {
    var post := dynamics(s, Action(commands[0]));
    if i == 0 {
      assert commands[..1][1..] == [];
    } else {
      RolloutAt(dynamics, post, k + 1, commands[1..], i - 1);
      assert commands[..i + 1][1..] == commands[1..][..i];
    }
  }

  /** Once the counter has reached the cap, every further step of a rollout
      is terminal with the penalty reward. */
  lemma RolloutCapped(dynamics: Dynamics, s: ModelState, k: int, commands: seq<BrainAction>, i: nat)
    requires i < |commands| && k + i >= MaxIterations
    ensures Rollout(dynamics, s, k, commands)[i].terminal
    ensures Rollout(dynamics, s, k, commands)[i].reward == TerminalReward
  {
    RolloutAt(dynamics, s, k, commands, i);
  }

  /** When no state along the way leaves the physical bounds, a rollout is
      terminal at exactly those steps where the counter has reached the cap:
      the episode ends by the forced cutoff and not by the bounds check. */
  lemma ForcedCutoffOnly(dynamics: Dynamics, s: ModelState, k: int, commands: seq<BrainAction>)
    requires forall j :: 1 <= j <= |commands| ==> !Terminal(Advance(dynamics, s, commands[..j]))
    ensures forall i :: 0 <= i < |commands| ==>
      (Rollout(dynamics, s, k, commands)[i].terminal <==> k + i >= MaxIterations)
  {
    forall i | 0 <= i < |commands|
      ensures Rollout(dynamics, s, k, commands)[i].terminal <==> k + i >= MaxIterations
    {
      RolloutAt(dynamics, s, k, commands, i);
    }
  }

  /** Two hundred in-bounds steps from the first iteration (counter 0) end
      with a terminal step exactly at the 200th counter value, and not
      before. */
  lemma EpisodeOfTwoHundredSteps(dynamics: Dynamics, s: ModelState, commands: seq<BrainAction>)
    requires |commands| == 201
    requires forall j :: 1 <= j <= |commands| ==> !Terminal(Advance(dynamics, s, commands[..j]))
    ensures forall i :: 0 <= i < 200 ==> !Rollout(dynamics, s, 0, commands)[i].terminal
    ensures Rollout(dynamics, s, 0, commands)[200].terminal
  {
    ForcedCutoffOnly(dynamics, s, 0, commands);
  }
}
