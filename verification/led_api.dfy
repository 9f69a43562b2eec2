/** The caller-facing contract of the LED driver, independent of any backend.

    It holds the five operations of the driver interface, the return-value
    contract their doc comments promise, and a reference state machine
    (Uninit, or Ready with an on/off sub-state) against which the backends
    are proved.
 */
module LedApi {
  import opened LedState

  /** The five operations of the driver interface. */
  datatype Op = Init | On | Off | Toggle | GetState

  /** How led_get_state encodes a level: 1 for on, 0 for off. */
  function LevelCode(on: bool): (c: int)
    ensures c == 0 || c == 1
    ensures c == 1 <==> on
  {
    if on then 1 else 0
  }

  /** The documented return values: init, on, off and toggle give 0 on success
      and a negative code on failure; get_state gives 1 (on), 0 (off) or a
      negative code. */
  predicate ReturnConforms(op: Op, ret: int)
  {
    if op == GetState then ret == 1 || ret == 0 || ret < 0
    else ret == 0 || ret < 0
  }

  /** The abstract states of the device. */
  datatype Mode = Uninit | Ready(on: bool)

  /** What an operation reports, before it is encoded as a C int. */
  datatype Reply = Done | Level(on: bool) | Refused(errno: int)

  /** One step of the reference machine. */
  datatype Transition = Transition(mode: Mode, reply: Reply)

  /** The abstract state a pair of driver flags stands for. */
  function Abs(d: Led): Mode
  {
    if d.initialized then Ready(d.state) else Uninit
  }

  /** The C int a reply is returned as. */
  function Encode(r: Reply): int
  {
    match r
    case Done => 0
    case Level(on) => LevelCode(on)
    case Refused(e) => -e
  }

  /** The intended behaviour of each operation: init always leads to Ready(off);
      every other operation is refused with "not connected" while Uninit;
      once Ready, on/off set the level, toggle flips it and get_state reports
      it without changing anything. */
  function Intended(m: Mode, op: Op): (t: Transition)
    ensures ReturnConforms(op, Encode(t.reply))
    ensures op != Init && m == Uninit ==> t == Transition(Uninit, Refused(ENOTCONN))
    ensures op == GetState ==> t.mode == m
    ensures m.Ready? || op == Init ==> t.mode.Ready?
  {
    match (m, op)
    case (_, Init) => Transition(Ready(false), Done)
    case (Uninit, _) => Transition(Uninit, Refused(ENOTCONN))
    case (Ready(_), On) => Transition(Ready(true), Done)
    case (Ready(_), Off) => Transition(Ready(false), Done)
    case (Ready(b), Toggle) => Transition(Ready(!b), Done)
    case (Ready(b), GetState) => Transition(m, Level(b))
  }
}
