/** The simulated backend of the LED driver (the native-simulator build):
    the device is nothing but its two flags, and init cannot fail. */
module SimDriver {
  import opened LedState
  import opened LedApi

  /** led_init: from any state, initialise with the LED off and report success. */
  function Init(d: Led): (o: Outcome)
    ensures o.ret == 0
    ensures Abs(o.dev) == Ready(false)
  {
    Outcome(ReadyOff, 0)
  }

  /** led_on: refused before init; otherwise the LED is on. */
  function On(d: Led): (o: Outcome)
    ensures o.ret == 0 <==> d.initialized
    ensures o.ret != 0 ==> o == NotConnected(d)
    ensures o.ret == 0 ==> Abs(o.dev) == Ready(true)
  {
    if !d.initialized then NotConnected(d)
    else Outcome(d.(state := true), 0)
  }

  /** led_off: refused before init; otherwise the LED is off. */
  function Off(d: Led): (o: Outcome)
    ensures o.ret == 0 <==> d.initialized
    ensures o.ret != 0 ==> o == NotConnected(d)
    ensures o.ret == 0 ==> Abs(o.dev) == Ready(false)
  {
    if !d.initialized then NotConnected(d)
    else Outcome(d.(state := false), 0)
  }

  /** led_toggle: refused before init; otherwise the shadow level flips. */
  function Toggle(d: Led): (o: Outcome)
    ensures o.ret == 0 <==> d.initialized
    ensures o.ret != 0 ==> o == NotConnected(d)
    ensures o.ret == 0 ==> o.dev.initialized && o.dev.state != d.state
  {
    if !d.initialized then NotConnected(d)
    else Outcome(d.(state := !d.state), 0)
  }

  /** led_get_state: a pure read of the shadow level. */
  function GetState(d: Led): (o: Outcome)
    ensures o.dev == d
    ensures d.initialized ==> o.ret == LevelCode(d.state)
    ensures !d.initialized ==> o.ret == -ENOTCONN
  {
    if !d.initialized then NotConnected(d)
    else Outcome(d, LevelCode(d.state))
  }

  /** Dispatch one operation of the interface to this backend. */
  function Step(d: Led, op: Op): Outcome
  {
    match op
    case Init => Init(d)
    case On => On(d)
    case Off => Off(d)
    case Toggle => Toggle(d)
    case GetState => GetState(d)
  }

  /** Every operation does what the reference machine prescribes, state and
      return code alike, from every state. */
  lemma RefinesIntended(d: Led, op: Op)
    ensures Abs(Step(d, op).dev) == Intended(Abs(d), op).mode
    ensures Step(d, op).ret == Encode(Intended(Abs(d), op).reply)
  {
  }

  /** Every operation honours the documented return values. */
  lemma ConformsToHeader(d: Led, op: Op)
    ensures ReturnConforms(op, Step(d, op).ret)
  {
  }

  /** The gate: before init every operation but init returns -ENOTCONN and
      changes nothing. */
  lemma GateRefuses(d: Led, op: Op)
    requires !d.initialized && !op.Init?
    ensures Step(d, op) == NotConnected(d)
  {
  }

  /** No operation breaks the well-formedness invariant. */
  lemma PreservesWf(d: Led, op: Op)
    requires Wf(d)
    ensures Wf(Step(d, op).dev)
  {
  }

  /** Two toggles of an initialised device restore it, both succeeding. */
  lemma ToggleInvolution(d: Led)
    requires d.initialized
    ensures Toggle(d).ret == 0 && Toggle(Toggle(d).dev).ret == 0
    ensures Toggle(Toggle(d).dev).dev == d
  {
  }

  /** Initialising twice is the same as initialising once. */
  lemma InitIdempotent(d: Led)
    ensures Init(Init(d).dev) == Init(d)
  {
  }

  /** After init, on makes get_state report 1 and off makes it report 0. */
  lemma OnOffObservable(d: Led)
    requires d.initialized
    ensures GetState(On(d).dev).ret == 1
    ensures GetState(Off(d).dev).ret == 0
  {
  }
}
