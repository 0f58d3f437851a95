# Cart-pole step function

A model of the layer that connects a cart-pole (inverted pendulum on a cart)
physics model to a reinforcement-learning platform's simulator protocol.

- `star.dfy`, module `Star`: the four pure transforms. `State` renames the raw
  4-tuple `(x, x_dot, theta, theta_dot)` to the record
  `{position, velocity, angle, rotation}`; `Terminal` is the strict bounds
  check on position (±2.4) and pole angle (±12 degrees in radians);
  `Action` maps the sign of the platform's command to the discrete action 1
  (positive) or 0 (zero or negative); `Reward` is 1.0 while the episode goes
  on and -0.01 on a terminal step.
- `simulator.dfy`, module `Simulator`: the physics model as a class
  `CartPole` whose state `Reset` and `Step` replace in place, and the
  simulator class `CartpoleSimulator` with `EpisodeStart` (reset, then report
  the encoded state) and `Simulate` (decode the action, step the physics once,
  force the terminal flag once the iteration counter reaches 200, otherwise
  use the physical check, then compute the reward from that flag and encode
  the post-step state). `Outcome` is the pure selection made after the step;
  `Rollout` describes a sequence of `Simulate` calls with the counter advanced
  once per call, and the lemmas about it give the forced-cutoff behaviour of
  a whole episode.

Numbers are mathematical reals. The angle limit is computed from the exact
value of the IEEE-754 double that Python's `math.pi` holds
(884279719003555 / 2^48), so `ThetaThreshold` lies strictly between 0.2094
and 0.2095.

## Model

| member | source | states |
|---|---|---|
| `Star.State` | star.py:13-22 | index 0, 1, 2, 3 become `position`, `velocity`, `angle`, `rotation` with values unchanged; reading the record back gives the tuple |
| `Star.StateInjective` | star.py:13-22 | two raw states have the same encoding exactly when they are equal |
| `Star.ThetaThreshold` | star.py:31 | twelve degrees in radians from `math.pi`, strictly between 0.2094 and 0.2095 |
| `Star.Terminal` | star.py:25-40 | terminal exactly when `abs(x) > 2.4` or `abs(theta)` exceeds the angle threshold |
| `Star.PositionBoundaryNotTerminal` | star.py:36-37 | `x == ±2.4` with the angle within its limit is not terminal (strict inequality) |
| `Star.AngleBoundaryNotTerminal` | star.py:38-39 | `theta == ±threshold` with the cart on the track is not terminal |
| `Star.BeyondLimitTerminal` | star.py:36-39 | any of the four strict violations alone makes the state terminal |
| `Star.TerminalIgnoresVelocities` | star.py:30-39 | changing `x_dot` or `theta_dot` never changes the verdict |
| `Star.TerminalSymmetric` | star.py:36-39 | negating both `x` and `theta` keeps the verdict |
| `Star.Action` | star.py:42-46 | the action is 0 or 1, and 1 exactly when the command is positive (0 for a zero command) |
| `Star.Reward` | star.py:48-54 | the reward is 1.0 or -0.01, positive exactly when the step is not terminal |
| `Star.RewardIgnoresState` | star.py:48-54 | the reward is 1.0 when not done and -0.01 when done, whatever the model state |
| `Simulator.Outcome` | simulator.py:40-48 | terminal exactly when the counter is at least 200 or the post-step state is physically terminal; reward follows that final flag; the returned state decodes to the post-step state |
| `Simulator.CapForcesTerminal` | simulator.py:40-41 | at or past 200 iterations the step is terminal and rewarded -0.01 whatever the physics state |
| `Simulator.BelowCapIsPhysical` | simulator.py:42-45 | below 200 iterations the flag is the physical check of the post-step state and the reward follows it |
| `Simulator.CartPole.Reset` | simulator.py:28 | after a reset the physics state is the episode's start state |
| `Simulator.CartPole.Step` | simulator.py:38 | one step replaces the physics state by the transition of the old state under the action |
| `Simulator.CartpoleSimulator.EpisodeStart` | simulator.py:23-30 | the model is reset and the encoding of the reset state is returned; the counters are untouched |
| `Simulator.CartpoleSimulator.Simulate` | simulator.py:32-48 | the model advances exactly once, under `Action(brain_action)`; the returned state, reward and flag are `Outcome` of the post-step state at the current counter; nothing else changes |
| `Simulator.Rollout` | simulator.py:32-48 | consecutive `Simulate` results: one per command |
| `Simulator.RolloutAt` | simulator.py:36-48 | the i-th result is `Outcome` of the state after i + 1 commands, at counter reading k + i |
| `Simulator.RolloutCapped` | simulator.py:40-45 | every step taken with the counter at or past 200 is terminal with reward -0.01 |
| `Simulator.ForcedCutoffOnly` | simulator.py:40-43 | when every post-step state is in bounds, a step is terminal exactly when its counter reading is at least 200 |
| `Simulator.EpisodeOfTwoHundredSteps` | simulator.py:40-43 | from counter 0, 201 in-bounds steps are non-terminal for the first 200 and terminal at counter 200 |

## Left out

- The cart-pole integrator (`CartPole` in `cartpole`) is not part of this model: its one-step transition is an arbitrary function `Dynamics` given to the `CartPole` constructor, so every result holds for any dynamics; its constants and integration scheme are not modelled.
- `Simulator.CartPole.Reset` takes the start state as a parameter: how the physics model picks it (fixed or random) is not visible.
- The platform SDK (configuration, brain, the `Simulator` base class and its `run` loop) is not modelled; `iterationCount` and `episodeCount` are fields the simulator only reads. `Rollout` assumes the counter advances by one between consecutive `Simulate` calls, which is the SDK's business and not visible.
- The simulator's model is given to the constructor instead of being attached after construction (`self.model = None`, then `sim.model = model`); calling `simulate` before a model is attached is therefore not modelled.
- Logging, rendering (`Viewer`) and the `__main__` loop are I/O and are left out.
- Floating-point rounding is not modelled: values are reals, and the angle threshold is computed exactly from the double value of `math.pi` rather than with rounding after each operation.
- The action and state records are fixed-field datatypes; a dictionary with missing or extra keys cannot be expressed.
