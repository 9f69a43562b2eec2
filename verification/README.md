# LED driver: an init-gated device state machine and its two backends

This project models the LED driver of a small Zephyr application. The driver
exposes one binary output device through five C calls: `led_init`, `led_on`,
`led_off`, `led_toggle` and `led_get_state`. Each call returns a status int:
`0` on success, `1`/`0` for the level from `led_get_state`, or a negated errno
(on hardware, whatever the GPIO call returned).
A driver instance owns two flags, `(initialized, state)`, which start out
`(false, false)`. Every call except `led_init` is refused with `-ENOTCONN`
until init has succeeded.

Three implementations are modelled:

- the simulated backend (native-simulator build), which changes the flags in memory only;
- the hardware backend. For `led_on`, `led_off` and `led_toggle` it runs the
  same gate, then calls the Zephyr GPIO API, updates the shadow `state` only
  when that call returned exactly 0, and returns the status verbatim.
  `led_init` returns `-ENODEV` for a port that is not ready, returns a
  negative configure status unchanged, and otherwise succeeds;
- the host-side mock used by the unit tests. It behaves like the simulated backend
  and adds a test-only `led_reset`.

Each call is a pure function from the flags before the call to an `Outcome`:
the flags after the call and the returned int. The GPIO calls are not modelled.
What they returned is a parameter instead: whether the port passed
`device_is_ready`, and the int status of `gpio_pin_configure_dt`,
`gpio_pin_set_dt` or `gpio_pin_toggle_dt`. `HwDriver.Gpio` bundles the two.

Modules:

- `LedState` (led_state.dfy): the flags `Led`, `Outcome`, the errno constants,
  and the well-formedness invariant `Wf` (the level is off while the device is uninitialised).
- `LedApi` (led_api.dfy): the operation type `Op` and the return-value contract
  of the header (`ReturnConforms`). It also holds the reference state machine
  (`Mode` = `Uninit` | `Ready(on)`, and `Intended`) that the backends are proved against.
- `SimDriver`, `HwDriver`, `MockDriver`: the three implementations. Each has one
  function per C call, a `Step` dispatcher, and its per-call lemmas.
- `Traces` (traces.dfy): runs over a whole sequence of calls, with lemmas proved
  by induction over the sequence. It also replays the unit tests' call sequences.

Two points about the code:

- Hardware `led_init` tests the configure status with `ret < 0`, so a positive
  status counts as success. `led_on`, `led_off` and `led_toggle` instead test
  `ret == 0` and return any non-zero status unchanged, positive ones included.
  A positive set or toggle status would therefore break the "0 on success,
  negative error code on failure" promise of the header's doc comments
  (src/led_driver.h:13-29).
- `led_reset` exists only in the mock file. The native-simulator branch of
  `my_blinky/src/led_driver.c` has no reset.

## Model

| member | source | states |
|---|---|---|
| `LedApi.Intended` | src/led_driver.h:7-35 | The reference machine obeys the documented return values. Before init, every operation except init is refused with ENOTCONN and stays Uninit. get_state never changes the mode. After init the device is Ready. |
| `LedApi.ReturnConforms` | src/led_driver.h:7-35 | The documented return values: init, on, off and toggle give 0 or a negative code; get_state gives 1, 0 or a negative code. The ConformsToHeader lemmas state each backend against it. |
| `LedApi.LevelCode` | src/led_driver.h:31-35 | get_state's level encoding is 0 or 1, and 1 exactly when the LED is on. |
| `SimDriver.Init` | my_blinky/src/led_driver.c:8-13 | From any state, init returns 0 and leaves the device Ready with the LED off. |
| `SimDriver.On` | my_blinky/src/led_driver.c:15-22 | on returns 0 exactly when the device is initialised, and then the device is Ready and on. Otherwise it returns -ENOTCONN and changes nothing. |
| `SimDriver.Off` | my_blinky/src/led_driver.c:24-31 | off returns 0 exactly when the device is initialised, and then the device is Ready and off. Otherwise it returns -ENOTCONN and changes nothing. |
| `SimDriver.Toggle` | my_blinky/src/led_driver.c:33-40 | toggle returns 0 exactly when the device is initialised, and then the level is the opposite of before. Otherwise it returns -ENOTCONN and changes nothing. |
| `SimDriver.GetState` | my_blinky/src/led_driver.c:42-48 | get_state never changes the state. It returns 1/0 for on/off when initialised and -ENOTCONN otherwise. |
| `SimDriver.RefinesIntended` | my_blinky/src/led_driver.c:8-48 | From every state, every simulated operation reaches the abstract state and return code the reference machine prescribes. |
| `SimDriver.ConformsToHeader` | src/led_driver.h:7-35 | Every simulated operation returns only values the header documents for it. |
| `SimDriver.GateRefuses` | my_blinky/src/led_driver.c:15-48 | On an uninitialised device every operation except init returns -ENOTCONN and leaves both flags unchanged. |
| `SimDriver.PreservesWf` | my_blinky/src/led_driver.c:8-48 | No simulated operation leads from a well-formed state (level off while uninitialised) to an ill-formed one. |
| `SimDriver.ToggleInvolution` | my_blinky/src/led_driver.c:33-40 | On an initialised device two toggles both succeed and restore the original state. |
| `SimDriver.InitIdempotent` | my_blinky/src/led_driver.c:8-13 | Repeating init has the same effect and return code as calling it once. |
| `SimDriver.OnOffObservable` | my_blinky/src/led_driver.c:15-48 | After init, get_state reports 1 once on has run and 0 once off has run. |
| `HwDriver.Init` | my_blinky/src/led_driver.c:57-71 | A port that is not ready gives -ENODEV. A negative configure status is returned unchanged. Both failures leave the flags untouched. The result is 0 exactly when the port is ready and the configure status is not negative, and then the device is initialised and off. |
| `HwDriver.On` | my_blinky/src/led_driver.c:73-84 | Before init: -ENOTCONN and no change. After init: returns the set status verbatim and never changes `initialized`. Status 0 means the level is on; any other status means nothing changed. |
| `HwDriver.Off` | my_blinky/src/led_driver.c:86-97 | Like on, except that status 0 means the level is off. |
| `HwDriver.Toggle` | my_blinky/src/led_driver.c:99-110 | Before init: -ENOTCONN and no change. After init: returns the toggle status verbatim. Status 0 means the level flipped; any other status means nothing changed. |
| `HwDriver.GetState` | my_blinky/src/led_driver.c:112-119 | A read-only call that takes no GPIO answer. It returns 1/0 for on/off when initialised and -ENOTCONN otherwise. |
| `HwDriver.MatchesSimOnSuccess` | my_blinky/src/led_driver.c:8-119 | When the port is ready and the GPIO call returns 0, each hardware operation yields the same state and return code as the simulated one. |
| `HwDriver.GateRefuses` | my_blinky/src/led_driver.c:73-119 | On an uninitialised device every operation except init returns -ENOTCONN and changes nothing, whatever the GPIO layer would answer. |
| `HwDriver.FailureLeavesState` | my_blinky/src/led_driver.c:57-119 | No partial update: a call that does not return 0 leaves both flags as they were. get_state never changes them. |
| `HwDriver.ConformsToHeader` | src/led_driver.h:7-35 | Assume set and toggle answer 0 or a negative status. Then every hardware operation returns only the values the header documents. |
| `HwDriver.PositiveStatusBreaksHeader` | my_blinky/src/led_driver.c:79-83 | Without that assumption the header contract fails: a set status of 1 makes led_on return 1. |
| `HwDriver.PreservesWf` | my_blinky/src/led_driver.c:57-119 | The well-formedness invariant holds after every hardware operation, whatever the GPIO layer answers. |
| `HwDriver.ToggleTwice` | my_blinky/src/led_driver.c:99-110 | Toggling flips the shadow level once for each toggle whose status was 0. Two successful toggles restore the device. |
| `MockDriver.Reset` | tests/src/led_driver_mock.c:7-11 | From any state, reset leaves an uninitialised, well-formed device. |
| `MockDriver.Init` | tests/src/led_driver_mock.c:13-18 | init returns 0 and leaves the device Ready with the LED off, even if it was on. |
| `MockDriver.On` | tests/src/led_driver_mock.c:20-27 | on succeeds exactly when the device is initialised. Then only the level changes, to on. Otherwise: -ENOTCONN and no change. |
| `MockDriver.Off` | tests/src/led_driver_mock.c:29-36 | off succeeds exactly when the device is initialised. Then only the level changes, to off. Otherwise: -ENOTCONN and no change. |
| `MockDriver.Toggle` | tests/src/led_driver_mock.c:38-45 | toggle succeeds exactly when the device is initialised, and then the level is negated. Otherwise: -ENOTCONN and no change. |
| `MockDriver.GetState` | tests/src/led_driver_mock.c:47-53 | get_state returns one of 1, 0 or -ENOTCONN and never changes the state. It is non-negative exactly when the device is initialised, and 1 exactly when it is also on. |
| `MockDriver.MatchesSim` | tests/src/led_driver_mock.c:13-53 | The mock and the simulated backend agree on every operation from every state. |
| `MockDriver.ResetRegates` | tests/src/led_driver_mock.c:7-53 | After reset every operation except init is refused, exactly as on a freshly constructed device. |
| `MockDriver.InitIdempotent` | tests/src/led_driver_mock.c:13-18 | init from any state gives the same result as init from the zero state, so repeating it changes nothing. |
| `MockDriver.ToggleInvolution` | tests/src/led_driver_mock.c:38-45 | On an initialised device two toggles return 0 and restore the device. |
| `MockDriver.ConformsToHeader` | src/led_driver.h:7-35 | Every mock operation returns only values the header documents for it. |
| `Traces.HwRunMatchesSim` | my_blinky/src/led_driver.c:8-119 | Over any sequence of calls in which every GPIO call succeeds, the hardware backend returns the same codes and ends in the same state as the simulated backend. |
| `Traces.MockRunMatchesSim` | tests/src/led_driver_mock.c:13-53 | Over any sequence of calls, the mock and the simulated backend return the same codes and end in the same state. |
| `Traces.SimRunPreservesWf` | my_blinky/src/led_driver.c:8-48 | The well-formedness invariant holds after any sequence of simulated calls. |
| `Traces.HwRunPreservesWf` | my_blinky/src/led_driver.c:57-119 | The well-formedness invariant holds after any sequence of hardware calls, whatever the GPIO layer answers. |
| `Traces.SimGateOverRun` | my_blinky/src/led_driver.c:15-48 | Until init is called, every simulated call returns -ENOTCONN and the state never changes. |
| `Traces.HwGateOverRun` | my_blinky/src/led_driver.c:73-119 | Until init is called, every hardware call returns -ENOTCONN and the state never changes, whatever the GPIO layer answers. |
| `Traces.SimRunAppend` | my_blinky/src/led_driver.c:8-48 | A simulated run of a followed by b ends where running b from the end of a ends, and returns a's codes followed by b's. |
| `Traces.HwRunAppend` | my_blinky/src/led_driver.c:57-119 | The same splitting holds for hardware runs, each part with its own GPIO answers. |
| `Traces.SimGateBeforeInit` | my_blinky/src/led_driver.c:15-48 | In any simulated run from an uninitialised device, every call before the first init returns -ENOTCONN, and the rest of the run returns and ends as if those calls had not been made. |
| `Traces.HwGateBeforeInit` | my_blinky/src/led_driver.c:73-119 | The same on the hardware backend, whatever the GPIO layer answers during the refused calls. |
| `Traces.ResetGatesRun` | tests/src/led_driver_mock.c:7-53 | After reset, from any state, the mock refuses every call with -ENOTCONN until init and stays in the zero state. |
| `Traces.TogglesParity` | my_blinky/src/led_driver.c:33-40 | On an initialised device, n toggles all return 0. The level ends up flipped exactly when n is odd. |
| `Traces.TestInit` | my_blinky/tests/src/test_led.c:13-17 | After reset, init returns 0. |
| `Traces.TestOperationsWithoutInit` | my_blinky/tests/src/test_led.c:20-34 | After reset, on, off, toggle and get_state each return -ENOTCONN. |
| `Traces.TestStateManagement` | my_blinky/tests/src/test_led.c:37-62 | After reset, the calls init, get_state, on, get_state, off, get_state return 0,0,0,1,0,0. The hardware backend returns the same codes when every GPIO call succeeds. |
| `Traces.TestToggle` | my_blinky/tests/src/test_led.c:65-90 | After reset, the calls init, off, toggle, get_state, toggle, get_state return 0,0,0,1,0,0. The hardware backend returns the same codes when every GPIO call succeeds. |

## Left out

- The Zephyr GPIO layer is not modelled: device-tree lookup (`DT_ALIAS`, `GPIO_DT_SPEC_GET_OR`), `device_is_ready`, `gpio_pin_configure_dt`, `gpio_pin_set_dt` and `gpio_pin_toggle_dt`. They are foreign calls, so the model takes what they returned as parameters.
- The electrical pin level is not represented. A GPIO call can fail yet still change the pin; the driver never reconciles the shadow level with the pin, and this model cannot show it.
- The compile-time `#ifdef CONFIG_BOARD_NATIVE_SIM` choice of backend is not modelled as a choice. The backends are separate modules with the same operation shapes.
- `src/main.c` and `app/src/main.c` are not modelled. They are endless loops paced by `k_msleep`/`k_sleep`. The first calls `led_toggle` repeatedly and ignores its result. `Traces.TogglesParity` states what successful repeated toggles do to the shadow level.
- `tests/hardware/test_gpio.py` and `tests/hardware/conftest.py` are not modelled. They do serial-port I/O against a physical board, with sleeps and timeouts.
- The ztest harness (`ZTEST`, `ZTEST_SUITE`, the before-hook) is not modelled. The test bodies appear only as the call sequences of the `Traces.Test*` lemmas, with the hook's `led_reset` applied first.
- Return codes are unbounded `int`s, not 32-bit C `int`s. The driver does no arithmetic on them: it only passes them through or negates the small errno constants. So width and wrap-around never arise.
- The errno values use Zephyr's numbering (ENODEV 19, ENOTCONN 128). No proof relies on these values beyond their being positive and distinct.
- Concurrency is not modelled. The driver has one owner and its file-scoped flags are never shared. Each model function takes the state explicitly instead of reading globals.
- HwDriver.ConformsToHeader: holds only when `gpio_pin_set_dt` and `gpio_pin_toggle_dt` return 0 or a negative status. The driver returns that status verbatim, so a positive status would break the header's "0 or negative" promise (`HwDriver.PositiveStatusBreaksHeader`).
