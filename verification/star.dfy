/** The transform layer between the cart-pole physics and the training
    platform: state encoding, the terminal check, action decoding and the
    reward. Every member here is pure; floating-point values are modelled
    as mathematical reals. */
module Star {

  /** The physics model's raw state, in the order the integrator keeps it:
      (x, x_dot, theta, theta_dot), i.e. cart position, cart velocity, pole
      angle in radians and pole angular velocity. */
  type ModelState = (real, real, real, real)

  /** The named state record the training platform expects. */
  datatype BrainState = BrainState(position: real, velocity: real, angle: real, rotation: real)

  /** The action record the training platform sends; only its `command`
      field is read. */
  datatype BrainAction = BrainAction(command: real)

  /** Half-width of the track: the cart may stand anywhere in [-2.4, 2.4]. */
  const XThreshold: real := 2.4

  /** The value of Python's `math.pi`: the IEEE-754 double nearest to pi,
      which is exactly 884279719003555 / 2^48. */
  const MathPi: real := 884279719003555.0 / 281474976710656.0

  /** Reward while the episode goes on, and the reward on a terminal step. */
  const AliveReward: real := 1.0
  const TerminalReward: real := -0.01

  function Abs(v: real): real { if v < 0.0 then -v else v }

  /** Twelve degrees expressed in radians, computed from `math.pi`. */
  function ThetaThreshold(): (r: real)
    ensures 0.2094 < r < 0.2095
  {
    12.0 * 2.0 * MathPi / 360.0
  }

  /** Renames the four components of the raw state; values are unchanged. */
  function State(s: ModelState): (b: BrainState)
    ensures b.position == s.0 && b.velocity == s.1
    ensures b.angle == s.2 && b.rotation == s.3
    ensures Unstate(b) == s
  {
    BrainState(s.0, s.1, s.2, s.3)
  }

  /** The inverse of `State`: reads a record back as the raw 4-tuple. */
  function Unstate(b: BrainState): (s: ModelState)
  {
    (b.position, b.velocity, b.angle, b.rotation)
  }

  /** True when the cart has left the track or the pole has tipped past
      twelve degrees; both comparisons are strict, so the limits themselves
      are still in play. */
  function Terminal(s: ModelState): (done: bool)
    ensures done <==> Abs(s.0) > XThreshold || Abs(s.2) > ThetaThreshold()
  {
    var (x, xDot, theta, thetaDot) := s;
    var thetaThresholdRadians := ThetaThreshold();
    var xThreshold := XThreshold;
    x < -xThreshold || x > xThreshold || theta < -thetaThresholdRadians || theta > thetaThresholdRadians
  }

  /** Maps the sign of the command to the model's discrete action: 1 for a
      positive command, 0 for zero or a negative one. */
  function Action(a: BrainAction): (action: int)
    ensures action == 0 || action == 1
    ensures action == 1 <==> a.command > 0.0
  {
    if a.command > 0.0 then 1 else 0
  }

  /** A flat reward: positive exactly while the episode goes on. The model
      state is accepted and ignored. */
  function Reward(s: ModelState, done: bool): (r: real)
    ensures r == AliveReward || r == TerminalReward
    ensures r > 0.0 <==> !done
  {
    if !done then AliveReward else TerminalReward
  }

  // Properties of the transforms

  /** Encoding and decoding the state are inverse to each other. */
  lemma StateRoundTrip(s: ModelState, b: BrainState)
    ensures Unstate(State(s)) == s
    ensures State(Unstate(b)) == b
  {
  }

  /** Two raw states encode to the same record only when they are equal. */
  lemma StateInjective(s: ModelState, t: ModelState)
    ensures State(s) == State(t) <==> s == t
  {
  }

  /** The track limits are not terminal when the angle is within its limit. */
  lemma PositionBoundaryNotTerminal(s: ModelState)
    requires s.0 == XThreshold || s.0 == -XThreshold
    requires -ThetaThreshold() <= s.2 <= ThetaThreshold()
    ensures !Terminal(s)
  {
  }

  /** The angle limits are not terminal when the cart is on the track. */
  lemma AngleBoundaryNotTerminal(s: ModelState)
    requires s.2 == ThetaThreshold() || s.2 == -ThetaThreshold()
    requires -XThreshold <= s.0 <= XThreshold
    ensures !Terminal(s)
  {
  }

  /** Any step beyond a limit is terminal, whatever the other component. */
  lemma BeyondLimitTerminal(s: ModelState)
    requires s.0 < -XThreshold || s.0 > XThreshold || s.2 < -ThetaThreshold() || s.2 > ThetaThreshold()
    ensures Terminal(s)
  {
  }

  /** The velocities never influence the terminal check. */
  lemma TerminalIgnoresVelocities(s: ModelState, xDot: real, thetaDot: real)
    ensures Terminal((s.0, xDot, s.2, thetaDot)) == Terminal(s)
  {
  }

  /** Mirroring the cart and the pole about the centre keeps the verdict. */
  lemma TerminalSymmetric(s: ModelState)
    ensures Terminal((-s.0, s.1, -s.2, s.3)) == Terminal(s)
  {
  }

  /** The reward depends on the terminal flag alone. */
  lemma RewardIgnoresState(s: ModelState, t: ModelState, done: bool)
    ensures Reward(s, done) == Reward(t, done)
    ensures Reward(s, done) == (if done then -0.01 else 1.0)
  {
  }
}
