/** Vertical free fall that the player can switch on and off: a two-state machine
    (enabled or disabled) holding a vertical velocity, integrated once per frame
    under a constant downward acceleration and clamped to a terminal speed. */
module Physics {

  /** The fastest the velocity may become in either direction. */
  const TerminalVelocity: real := 80.0
  /** The downward acceleration applied per unit of time. */
  const GravityConstant: real := 9.8

  function Abs(u: real): real {
    if u < 0.0 then -u else u
  }

  /** The observable state: whether gravity is on, and the current velocity. */
  datatype GravityState = GravityState(enabled: bool, velocity: real)

  /** The state that the constructor establishes. */
  const Initial: GravityState := GravityState(false, 0.0)

  /** Gravity that is switched off never carries a velocity. */
  predicate Inv(s: GravityState) {
    !s.enabled ==> s.velocity == 0.0
  }

  /** The velocity never goes past the terminal velocity in either direction. */
  predicate Bounded(s: GravityState) {
    Abs(s.velocity) <= TerminalVelocity
  }

  /** Limits the magnitude of `u` to the terminal velocity and keeps its sign. */
  function Clamp(u: real): (r: real)
    ensures Abs(r) <= TerminalVelocity
    ensures Abs(u) <= TerminalVelocity ==> r == u
    ensures Abs(u) > TerminalVelocity ==> Abs(r) == TerminalVelocity && (r > 0.0 <==> u > 0.0)
  {
    if Abs(u) > TerminalVelocity then
      (if u > 0.0 then TerminalVelocity else -TerminalVelocity)
    else
      u
  }

  function Min(a: real, b: real): real { if a <= b then a else b }
  function Max(a: real, b: real): real { if a >= b then a else b }

  /** Clamp is the projection onto the interval [-80, 80]. */
  lemma ClampIsProjection(u: real)
    ensures Clamp(u) == Max(-TerminalVelocity, Min(TerminalVelocity, u))
  {
  }

  /** One integration step of an enabled update: the velocity loses
      `GravityConstant * deltaTime` and is then clamped. */
  function Fall(velocity: real, deltaTime: real): (r: real)
    ensures Abs(r) <= TerminalVelocity
    ensures Abs(velocity - GravityConstant * deltaTime) <= TerminalVelocity ==>
              r == velocity - GravityConstant * deltaTime
    ensures Abs(velocity - GravityConstant * deltaTime) > TerminalVelocity ==>
              Abs(r) == TerminalVelocity && (r > 0.0 <==> velocity - GravityConstant * deltaTime > 0.0)
  {
    Clamp(velocity + -GravityConstant * deltaTime)
  }

  /** What `update` does to the state. */
  function UpdateState(s: GravityState, deltaTime: real): (r: GravityState)
    ensures !s.enabled ==> r == s
    ensures s.enabled ==> r.enabled && Bounded(r)
    ensures s.enabled ==> r.velocity == Clamp(s.velocity - GravityConstant * deltaTime)
  {
    if !s.enabled then s else GravityState(true, Fall(s.velocity, deltaTime))
  }

  /** What `toggle` does to the state. */
  function ToggleState(s: GravityState): (r: GravityState)
    ensures r.enabled != s.enabled
    ensures !r.enabled ==> r.velocity == 0.0
    ensures r.enabled ==> r.velocity == s.velocity
  {
    GravityState(!s.enabled, if s.enabled then 0.0 else s.velocity)
  }

  /** What `reset` does to the state. */
  function ResetState(s: GravityState): (r: GravityState)
    ensures r.enabled == s.enabled && r.velocity == 0.0
  {
    GravityState(s.enabled, 0.0)
  }

  /** Toggling twice gives back the original flag and loses the velocity: it is a reset. */
  lemma ToggleTwice(s: GravityState)
    ensures ToggleState(ToggleState(s)).enabled == s.enabled
    ensures ToggleState(ToggleState(s)) == ResetState(s)
  {
  }

  /** Every operation keeps the invariant and the bound. */
  lemma StepsPreserveInvariant(s: GravityState, deltaTime: real)
    requires Inv(s) && Bounded(s)
    ensures Inv(UpdateState(s, deltaTime)) && Bounded(UpdateState(s, deltaTime))
    ensures Inv(ToggleState(s)) && Bounded(ToggleState(s))
    ensures Inv(ResetState(s)) && Bounded(ResetState(s))
  {
  }

  /** The calls a caller can make on a Gravity object, in order. */
  datatype Op = Update(deltaTime: real) | Toggle | Reset

  function Step(s: GravityState, op: Op): GravityState {
    match op
    case Update(dt) => UpdateState(s, dt)
    case Toggle => ToggleState(s)
    case Reset => ResetState(s)
  }

  /** The state after performing `ops` one after another from `s`. */
  function Run(s: GravityState, ops: seq<Op>): GravityState
    decreases |ops|
  {
    if ops == [] then s else Run(Step(s, ops[0]), ops[1..])
  }

  function Toggles(ops: seq<Op>): nat
    decreases |ops|
  {
    if ops == [] then 0 else (if ops[0].Toggle? then 1 else 0) + Toggles(ops[1..])
  }

  /** From the initial state, any sequence of calls keeps gravity consistent:
      disabled means zero velocity, and the speed stays at most 80. */
  lemma {:induction false} RunPreservesInvariant(s: GravityState, ops: seq<Op>)
    requires Inv(s) && Bounded(s)
    ensures Inv(Run(s, ops)) && Bounded(Run(s, ops))
    decreases |ops|
  {
    if ops != [] {
      StepsPreserveInvariant(s, if ops[0].Update? then ops[0].deltaTime else 0.0);
      RunPreservesInvariant(Step(s, ops[0]), ops[1..]);
    }
  }

  /** Only `toggle` changes the flag: it ends up flipped exactly when the number of
      toggles is odd. */
  lemma {:induction false} RunFlag(s: GravityState, ops: seq<Op>)
    ensures Run(s, ops).enabled == (s.enabled != (Toggles(ops) % 2 == 1))
    decreases |ops|
  {
    if ops != [] {
      RunFlag(Step(s, ops[0]), ops[1..]);
    }
  }

  /** While gravity is disabled, updates and resets leave the state exactly as it was. */
  lemma {:induction false} DisabledRunIsIdle(s: GravityState, ops: seq<Op>)
    requires Inv(s) && !s.enabled
    requires Toggles(ops) == 0
    ensures Run(s, ops) == s
    decreases |ops|
  {
    if ops != [] {
      assert !ops[0].Toggle?;
      DisabledRunIsIdle(Step(s, ops[0]), ops[1..]);
    }
  }

  datatype Option<T> = None | Some(value: T)

  /** The gravity object of the program. `gravityStrength` is stored by the
      constructor but `update` always uses `GravityConstant`. */
  class Gravity {
    var enabled: bool
    var velocity: real
    var gravityStrength: real

    function State(): GravityState
      reads this
    {
      GravityState(enabled, velocity)
    }

    ghost predicate Valid()
      reads this
    {
      Inv(State()) && Bounded(State())
    }

    /** A new object starts disabled and at rest; the strength defaults to the
        gravity constant. */
    constructor (gravityStrength: real := GravityConstant)
      ensures Valid()
      ensures State() == Initial
      ensures this.gravityStrength == gravityStrength
    {
      velocity := 0.0;
      enabled := false;
      this.gravityStrength := gravityStrength;
    }

    method Update(deltatime: real)
      requires Valid()
      modifies `velocity
      ensures Valid()
      ensures State() == UpdateState(old(State()), deltatime)
    {
      if !enabled {
        return;
      }
      velocity := velocity + -GravityConstant * deltatime;
      if Abs(velocity) > TerminalVelocity {
        velocity := if velocity > 0.0 then TerminalVelocity else -TerminalVelocity;
      }
    }

    method Toggle()
      requires Valid()
      modifies `velocity, `enabled
      ensures Valid()
      ensures State() == ToggleState(old(State()))
    {
      if enabled {
        velocity := 0.0;
      }
      enabled := !enabled;
    }

    /** A read of the flag; it changes nothing. */
    function IsEnabled(): (b: bool)
      reads this
      ensures b == State().enabled
    {
      enabled
    }

    method Reset()
      requires Valid()
      modifies `velocity
      ensures Valid()
      ensures State() == ResetState(old(State()))
    {
      velocity := 0.0;
    }

    /** The console line `log` would write: the velocity, and only while enabled.
        It changes nothing. */
    method Log() returns (line: Option<real>)
      ensures line.Some? <==> enabled
      ensures line.Some? ==> line.value == velocity
    {
      if enabled {
        line := Some(velocity);
      } else {
        line := None;
      }
    }
  }
}
