/** The state one LED driver instance owns, shared by every backend.

    Each backend of the driver keeps two file-scoped flags: whether led_init
    has succeeded, and the shadow level (the last level the driver commanded,
    true = on). Both start out false. Every driver call is modelled as a pure
    function from the state before the call to an Outcome: the state after it
    and the int the C function returns.
 */
module LedState {

  /** The pair of flags (led_initialized, led_state). */
  datatype Led = Led(initialized: bool, state: bool)

  /** The zero-initialised state a driver instance starts in. */
  const Fresh := Led(false, false)

  /** The state a successful led_init establishes: initialised, LED off. */
  const ReadyOff := Led(true, false)

  /* errno values as numbered by Zephyr's C library. The driver returns their
     negations. Nothing proved below depends on the numbers beyond their being
     positive and distinct. */
  const ENODEV: int := 19
  const ENOTCONN: int := 128

  /** The state after one driver call and the status int it returns. */
  datatype Outcome = Outcome(dev: Led, ret: int)

  /** The refusal of every non-init call on an uninitialised device. */
  function NotConnected(d: Led): Outcome
  {
    Outcome(d, -ENOTCONN)
  }

  /** Well-formedness: the shadow level is off while the device is not initialised. */
  predicate Wf(d: Led)
  {
    d.initialized || !d.state
  }
}
