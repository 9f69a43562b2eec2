/** The host-side mock of the LED driver used by the unit tests: the same
    in-memory transitions as the simulated backend, plus a test-only reset
    that is not part of the caller-facing interface. */
module MockDriver {
  import opened LedState
  import opened LedApi
  import SimDriver

  /** led_reset: back to the zero state from anywhere, bypassing every guard. */
  function Reset(d: Led): (r: Led)
    ensures Abs(r) == Uninit && Wf(r)
  {
    Fresh
  }

  /** led_init: always succeeds; the LED is off afterwards even if it was on. */
  function Init(d: Led): (o: Outcome)
    ensures o.ret == 0
    ensures Abs(o.dev) == Ready(false)
  {
    Outcome(ReadyOff, 0)
  }

  /** led_on: refused before init; otherwise the LED is on. */
  function On(d: Led): (o: Outcome)
    ensures o.ret == 0 <==> d.initialized
    ensures o.ret != 0 ==> o == NotConnected(d)
    ensures o.ret == 0 ==> o.dev == d.(state := true)
  {
    if !d.initialized then NotConnected(d)
    else Outcome(d.(state := true), 0)
  }

  /** led_off: refused before init; otherwise the LED is off. */
  function Off(d: Led): (o: Outcome)
    ensures o.ret == 0 <==> d.initialized
    ensures o.ret != 0 ==> o == NotConnected(d)
    ensures o.ret == 0 ==> o.dev == d.(state := false)
  {
    if !d.initialized then NotConnected(d)
    else Outcome(d.(state := false), 0)
  }

  /** led_toggle: refused before init; otherwise the level flips. */
  function Toggle(d: Led): (o: Outcome)
    ensures o.ret == 0 <==> d.initialized
    ensures o.ret != 0 ==> o == NotConnected(d)
    ensures o.ret == 0 ==> o.dev.initialized && o.dev.state != d.state
  {
    if !d.initialized then NotConnected(d)
    else Outcome(d.(state := !d.state), 0)
  }

  /** led_get_state: 1, 0 or -ENOTCONN, and no change. */
  function GetState(d: Led): (o: Outcome)
    ensures o.dev == d
    ensures o.ret == 1 || o.ret == 0 || o.ret == -ENOTCONN
    ensures o.ret >= 0 <==> d.initialized
    ensures o.ret == 1 <==> d.initialized && d.state
  {
    if !d.initialized then NotConnected(d)
    else Outcome(d, LevelCode(d.state))
  }

  /** Dispatch one operation of the interface to the mock. */
  function Step(d: Led, op: Op): Outcome
  {
    match op
    case Init => Init(d)
    case On => On(d)
    case Off => Off(d)
    case Toggle => Toggle(d)
    case GetState => GetState(d)
  }

  /** The mock behaves like the simulated backend, operation for operation. */
  lemma MatchesSim(d: Led, op: Op)
    ensures Step(d, op) == SimDriver.Step(d, op)
  {
  }

  /** After a reset every operation but init is refused again, exactly as on
      a freshly constructed device. */
  lemma ResetRegates(d: Led, op: Op)
    requires !op.Init?
    ensures Step(Reset(d), op) == NotConnected(Fresh)
    ensures Step(Reset(d), op) == Step(Fresh, op)
  {
  }

  /** Init from any state, the LED being on included, ends in the same state
      with the same return code, so repeating it changes nothing. */
  lemma InitIdempotent(d: Led)
    ensures Init(d) == Init(Fresh)
    ensures Init(Init(d).dev) == Init(d)
  {
  }

  /** Two toggles of an initialised device restore it. */
  lemma ToggleInvolution(d: Led)
    requires d.initialized
    ensures Toggle(Toggle(d).dev) == Outcome(d, 0)
  {
  }

  /** Every operation honours the documented return values. */
  lemma ConformsToHeader(d: Led, op: Op)
    ensures ReturnConforms(op, Step(d, op).ret)
  {
  }
}
