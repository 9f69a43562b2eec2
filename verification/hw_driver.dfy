/** The hardware backend of the LED driver: the same gate, then a Zephyr GPIO
    call whose status decides whether the shadow level is updated.

    The GPIO calls are not modelled; what they returned is a parameter:
    whether the port passed its readiness check, and the int status of the
    configure, set or toggle call. The electrical pin level is not
    represented: the driver never reconciles the shadow level with the pin
    after a failed write, and this model cannot show it.
 */
module HwDriver {
  import opened LedState
  import opened LedApi
  import SimDriver

  /** What the GPIO layer answers during one driver call. */
  datatype Gpio = Gpio(portReady: bool, status: int)

  /** The GPIO layer answering a ready port and status 0 to every call. */
  const AllOk := Gpio(true, 0)

  /** led_init: -ENODEV if the port is not ready; a negative configure status
      is returned unchanged; in both cases the state is untouched. Otherwise
      the device is initialised with the LED off. The configure status is
      tested with `< 0`, so a positive status counts as success. */
  function Init(d: Led, portReady: bool, configRet: int): (o: Outcome)
    ensures !portReady ==> o == Outcome(d, -ENODEV)
    ensures portReady && configRet < 0 ==> o == Outcome(d, configRet)
    ensures o.ret == 0 <==> portReady && configRet >= 0
    ensures o.ret == 0 ==> o.dev == ReadyOff
    ensures o.ret != 0 ==> o.dev == d
  {
    if !portReady then Outcome(d, -ENODEV)
    else if configRet < 0 then Outcome(d, configRet)
    else Outcome(ReadyOff, 0)
  }

  /** led_on: refused before init; otherwise the set status is returned
      verbatim and the shadow level becomes on exactly when it is 0. */
  function On(d: Led, setRet: int): (o: Outcome)
    ensures !d.initialized ==> o == NotConnected(d)
    ensures d.initialized ==> o.ret == setRet
    ensures o.dev.initialized == d.initialized
    ensures o.ret == 0 ==> o.dev.state
    ensures o.ret != 0 ==> o.dev == d
  {
    if !d.initialized then NotConnected(d)
    else if setRet == 0 then Outcome(d.(state := true), setRet)
    else Outcome(d, setRet)
  }

  /** led_off: as led_on, with the LED going off on success. */
  function Off(d: Led, setRet: int): (o: Outcome)
    ensures !d.initialized ==> o == NotConnected(d)
    ensures d.initialized ==> o.ret == setRet
    ensures o.dev.initialized == d.initialized
    ensures o.ret == 0 ==> !o.dev.state
    ensures o.ret != 0 ==> o.dev == d
  {
    if !d.initialized then NotConnected(d)
    else if setRet == 0 then Outcome(d.(state := false), setRet)
    else Outcome(d, setRet)
  }

  /** led_toggle: refused before init; otherwise the toggle status is
      returned verbatim and the shadow level flips exactly when it is 0. */
  function Toggle(d: Led, toggleRet: int): (o: Outcome)
    ensures !d.initialized ==> o == NotConnected(d)
    ensures d.initialized ==> o.ret == toggleRet
    ensures o.dev.initialized == d.initialized
    ensures o.ret == 0 ==> o.dev.state != d.state
    ensures o.ret != 0 ==> o.dev == d
  {
    if !d.initialized then NotConnected(d)
    else if toggleRet == 0 then Outcome(d.(state := !d.state), toggleRet)
    else Outcome(d, toggleRet)
  }

  /** led_get_state: a pure read of the shadow level; no GPIO call is made,
      so it takes no GPIO answer. */
  function GetState(d: Led): (o: Outcome)
    ensures o.dev == d
    ensures d.initialized ==> o.ret == LevelCode(d.state)
    ensures !d.initialized ==> o.ret == -ENOTCONN
  {
    if !d.initialized then NotConnected(d)
    else Outcome(d, LevelCode(d.state))
  }

  /** Dispatch one operation of the interface to this backend, with the GPIO
      layer answering g. */
  function Step(d: Led, op: Op, g: Gpio): Outcome
  {
    match op
    case Init => Init(d, g.portReady, g.status)
    case On => On(d, g.status)
    case Off => Off(d, g.status)
    case Toggle => Toggle(d, g.status)
    case GetState => GetState(d)
  }

  /** Backend equivalence: when the port is ready and every GPIO call returns
      0, each operation yields the same state and return code as the
      simulated backend. */
  lemma MatchesSimOnSuccess(d: Led, op: Op)
    ensures Step(d, op, AllOk) == SimDriver.Step(d, op)
  {
  }

  /** The gate: before init every operation but init returns -ENOTCONN and
      changes nothing, whatever the GPIO layer would have answered. */
  lemma GateRefuses(d: Led, op: Op, g: Gpio)
    requires !d.initialized && !op.Init?
    ensures Step(d, op, g) == NotConnected(d)
  {
  }

  /** No partial update: a mutating call that does not return 0 leaves both
      flags as they were, and get_state never changes them. */
  lemma FailureLeavesState(d: Led, op: Op, g: Gpio)
    ensures op.GetState? || Step(d, op, g).ret != 0 ==> Step(d, op, g).dev == d
  {
  }

  /** The documented return values hold provided the set and toggle calls
      return 0 or a negative code; the init path already maps a positive
      configure status to 0. */
  lemma ConformsToHeader(d: Led, op: Op, g: Gpio)
    requires op.On? || op.Off? || op.Toggle? ==> g.status <= 0
    ensures ReturnConforms(op, Step(d, op, g).ret)
  {
  }

  /** Without that proviso the contract fails: a set call answering 1 makes
      led_on return 1. */
  lemma PositiveStatusBreaksHeader()
    ensures Step(ReadyOff, Op.On, Gpio(true, 1)).ret == 1
    ensures !ReturnConforms(Op.On, Step(ReadyOff, Op.On, Gpio(true, 1)).ret)
  {
  }

  /** No operation breaks the well-formedness invariant, whatever the GPIO layer answers. */
  lemma PreservesWf(d: Led, op: Op, g: Gpio)
    requires Wf(d)
    ensures Wf(Step(d, op, g).dev)
  {
  }

  /** Two successful toggles restore the device; in general the shadow level
      flips once per toggle that returned 0. */
  lemma ToggleTwice(d: Led, r1: int, r2: int)
    requires d.initialized
    ensures Toggle(Toggle(d, r1).dev, r2).dev.initialized
    ensures Toggle(Toggle(d, r1).dev, r2).dev.state == (d.state != ((r1 == 0) != (r2 == 0)))
    ensures r1 == 0 && r2 == 0 ==> Toggle(Toggle(d, r1).dev, r2).dev == d
  {
  }
}
