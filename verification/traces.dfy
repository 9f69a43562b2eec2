/** Sequences of driver calls on one device: what each backend returns over a
    whole run, the properties that hold for every run, and the runs the unit
    tests perform. */
module Traces {
  import opened LedState
  import opened LedApi
  import SimDriver
  import HwDriver
  import MockDriver

  /** The state after a run and the return code of each call, in order. */
  datatype Trace = Trace(dev: Led, rets: seq<int>)

  /** Run ops on the simulated backend starting from d. */
  function SimRun(d: Led, ops: seq<Op>): (t: Trace)
    ensures |t.rets| == |ops|
    decreases |ops|
  {
    if |ops| == 0 then Trace(d, [])
    else
      var o := SimDriver.Step(d, ops[0]);
      var rest := SimRun(o.dev, ops[1..]);
      Trace(rest.dev, [o.ret] + rest.rets)
  }

  /** Run ops on the hardware backend starting from d, the GPIO layer giving
      answer gs[i] during call i. */
  function HwRun(d: Led, ops: seq<Op>, gs: seq<HwDriver.Gpio>): (t: Trace)
    requires |gs| == |ops|
    ensures |t.rets| == |ops|
    decreases |ops|
  {
    if |ops| == 0 then Trace(d, [])
    else
      var o := HwDriver.Step(d, ops[0], gs[0]);
      var rest := HwRun(o.dev, ops[1..], gs[1..]);
      Trace(rest.dev, [o.ret] + rest.rets)
  }

  /** Run ops on the mock starting from d. */
  function MockRun(d: Led, ops: seq<Op>): (t: Trace)
    ensures |t.rets| == |ops|
    decreases |ops|
  {
    if |ops| == 0 then Trace(d, [])
    else
      var o := MockDriver.Step(d, ops[0]);
      var rest := MockRun(o.dev, ops[1..]);
      Trace(rest.dev, [o.ret] + rest.rets)
  }

  /** A GPIO layer that answers every one of n calls with success. */
  function AllOkAnswers(n: nat): (gs: seq<HwDriver.Gpio>)
    ensures |gs| == n
    ensures forall i :: 0 <= i < n ==> gs[i] == HwDriver.AllOk
  {
    seq(n, _ => HwDriver.AllOk)
  }

  /** n calls of toggle in a row. */
  function Toggles(n: nat): (ops: seq<Op>)
    ensures |ops| == n
    ensures forall i :: 0 <= i < n ==> ops[i] == Toggle
  {
    seq(n, _ => Toggle)
  }

  /** True when no call of ops is init. */
  predicate NoInit(ops: seq<Op>)
  {
    forall i :: 0 <= i < |ops| ==> ops[i] != Init
  }

  /** Backend equivalence over whole runs: when every GPIO call succeeds, the
      hardware backend returns the same codes and ends in the same state as
      the simulated one. */
  lemma {:induction false} HwRunMatchesSim(d: Led, ops: seq<Op>)
    ensures HwRun(d, ops, AllOkAnswers(|ops|)) == SimRun(d, ops)
    decreases |ops|
  {
    if |ops| > 0 {
      HwDriver.MatchesSimOnSuccess(d, ops[0]);
      var d' := SimDriver.Step(d, ops[0]).dev;
      assert AllOkAnswers(|ops|)[1..] == AllOkAnswers(|ops| - 1);
      HwRunMatchesSim(d', ops[1..]);
    }
  }

  /** The mock and the simulated backend agree over whole runs. */
  lemma {:induction false} MockRunMatchesSim(d: Led, ops: seq<Op>)
    ensures MockRun(d, ops) == SimRun(d, ops)
    decreases |ops|
  {
    if |ops| > 0 {
      MockDriver.MatchesSim(d, ops[0]);
      MockRunMatchesSim(SimDriver.Step(d, ops[0]).dev, ops[1..]);
    }
  }

  /** The well-formedness invariant holds after any run of the simulated backend. */
  lemma {:induction false} SimRunPreservesWf(d: Led, ops: seq<Op>)
    requires Wf(d)
    ensures Wf(SimRun(d, ops).dev)
    decreases |ops|
  {
    if |ops| > 0 {
      SimDriver.PreservesWf(d, ops[0]);
      SimRunPreservesWf(SimDriver.Step(d, ops[0]).dev, ops[1..]);
    }
  }

  /** The well-formedness invariant holds after any run of the hardware backend, whatever the
      GPIO layer answers. */
  lemma {:induction false} HwRunPreservesWf(d: Led, ops: seq<Op>, gs: seq<HwDriver.Gpio>)
    requires |gs| == |ops|
    requires Wf(d)
    ensures Wf(HwRun(d, ops, gs).dev)
    decreases |ops|
  {
    if |ops| > 0 {
      HwDriver.PreservesWf(d, ops[0], gs[0]);
      HwRunPreservesWf(HwDriver.Step(d, ops[0], gs[0]).dev, ops[1..], gs[1..]);
    }
  }

  /** The gate over a whole run: until init is called, every call of the
      simulated backend returns -ENOTCONN and the state never changes. */
  lemma {:induction false} SimGateOverRun(d: Led, ops: seq<Op>)
    requires !d.initialized && NoInit(ops)
    ensures SimRun(d, ops).dev == d
    ensures forall i :: 0 <= i < |ops| ==> SimRun(d, ops).rets[i] == -ENOTCONN
    decreases |ops|
  {
    if |ops| > 0 {
      SimDriver.GateRefuses(d, ops[0]);
      SimGateOverRun(d, ops[1..]);
    }
  }

  /** The same gate on the hardware backend, whatever the GPIO layer would
      have answered. */
  lemma {:induction false} HwGateOverRun(d: Led, ops: seq<Op>, gs: seq<HwDriver.Gpio>)
    requires |gs| == |ops|
    requires !d.initialized && NoInit(ops)
    ensures HwRun(d, ops, gs).dev == d
    ensures forall i :: 0 <= i < |ops| ==> HwRun(d, ops, gs).rets[i] == -ENOTCONN
    decreases |ops|
  {
    if |ops| > 0 {
      HwDriver.GateRefuses(d, ops[0], gs[0]);
      HwGateOverRun(d, ops[1..], gs[1..]);
    }
  }

  /** Running a then b is running a, then running b from where a stopped. */
  lemma {:induction false} SimRunAppend(d: Led, a: seq<Op>, b: seq<Op>)
    ensures SimRun(d, a + b)
         == Trace(SimRun(SimRun(d, a).dev, b).dev, SimRun(d, a).rets + SimRun(SimRun(d, a).dev, b).rets)
    decreases |a|
  {
    if |a| > 0 {
      assert (a + b)[0] == a[0];
      assert (a + b)[1..] == a[1..] + b;
      SimRunAppend(SimDriver.Step(d, a[0]).dev, a[1..], b);
    } else {
      assert a + b == b;
    }
  }

  /** The same splitting of a hardware run, each part with its own GPIO answers. */
  lemma {:induction false} HwRunAppend(d: Led, a: seq<Op>, b: seq<Op>, ga: seq<HwDriver.Gpio>, gb: seq<HwDriver.Gpio>)
    requires |ga| == |a| && |gb| == |b|
    ensures HwRun(d, a + b, ga + gb)
         == Trace(HwRun(HwRun(d, a, ga).dev, b, gb).dev, HwRun(d, a, ga).rets + HwRun(HwRun(d, a, ga).dev, b, gb).rets)
    decreases |a|
  {
    if |a| > 0 {
      assert (a + b)[0] == a[0];
      assert (a + b)[1..] == a[1..] + b;
      assert (ga + gb)[0] == ga[0];
      assert (ga + gb)[1..] == ga[1..] + gb;
      HwRunAppend(HwDriver.Step(d, a[0], ga[0]).dev, a[1..], b, ga[1..], gb);
    } else {
      assert a + b == b;
      assert ga + gb == gb;
    }
  }

  /** The gate on the init-free prefix of any simulated run: each call of the
      prefix returns -ENOTCONN, and the rest of the run behaves as if the
      prefix had never been issued. */
  lemma SimGateBeforeInit(d: Led, a: seq<Op>, b: seq<Op>)
    requires !d.initialized && NoInit(a)
    ensures forall i :: 0 <= i < |a| ==> SimRun(d, a + b).rets[i] == -ENOTCONN
    ensures SimRun(d, a + b).rets[|a|..] == SimRun(d, b).rets
    ensures SimRun(d, a + b).dev == SimRun(d, b).dev
  {
    SimRunAppend(d, a, b);
    SimGateOverRun(d, a);
  }

  /** The same on the hardware backend, whatever the GPIO layer answers. */
  lemma HwGateBeforeInit(d: Led, a: seq<Op>, b: seq<Op>, ga: seq<HwDriver.Gpio>, gb: seq<HwDriver.Gpio>)
    requires |ga| == |a| && |gb| == |b|
    requires !d.initialized && NoInit(a)
    ensures forall i :: 0 <= i < |a| ==> HwRun(d, a + b, ga + gb).rets[i] == -ENOTCONN
    ensures HwRun(d, a + b, ga + gb).rets[|a|..] == HwRun(d, b, gb).rets
    ensures HwRun(d, a + b, ga + gb).dev == HwRun(d, b, gb).dev
  {
    HwRunAppend(d, a, b, ga, gb);
    HwGateOverRun(d, a, ga);
  }

  /** After led_reset the mock refuses every call until init, from any state. */
  lemma ResetGatesRun(d: Led, ops: seq<Op>)
    requires NoInit(ops)
    ensures MockRun(MockDriver.Reset(d), ops).dev == Fresh
    ensures forall i :: 0 <= i < |ops| ==> MockRun(MockDriver.Reset(d), ops).rets[i] == -ENOTCONN
  {
    MockRunMatchesSim(Fresh, ops);
    SimGateOverRun(Fresh, ops);
  }

  /** n toggles of an initialised device all succeed and leave the shadow
      level flipped exactly when n is odd. */
  lemma {:induction false} TogglesParity(d: Led, n: nat)
    requires d.initialized
    ensures SimRun(d, Toggles(n)).dev == d.(state := d.state != (n % 2 == 1))
    ensures forall i :: 0 <= i < n ==> SimRun(d, Toggles(n)).rets[i] == 0
    decreases n
  {
    if n > 0 {
      assert Toggles(n)[1..] == Toggles(n - 1);
      TogglesParity(d.(state := !d.state), n - 1);
    }
  }

  /* The runs of the driver's unit tests. Each test starts from led_reset, as
     the suite's before-hook calls it, whatever state the previous test left. */

  /** test_led_init: init succeeds. */
  lemma TestInit(d: Led)
    ensures MockRun(MockDriver.Reset(d), [Init]).rets == [0]
  {
  }

  /** test_led_operations_without_init: on, off, toggle and get_state are all
      refused. */
  lemma TestOperationsWithoutInit(d: Led)
    ensures MockRun(MockDriver.Reset(d), [On, Off, Toggle, GetState]).rets
         == [-ENOTCONN, -ENOTCONN, -ENOTCONN, -ENOTCONN]
  {
  }

  /** test_led_state_management: init, get_state, on, get_state, off,
      get_state return 0, 0, 0, 1, 0, 0, on the mock and on the hardware
      backend when every GPIO call succeeds. */
  lemma TestStateManagement(d: Led)
    ensures MockRun(MockDriver.Reset(d), [Init, GetState, On, GetState, Off, GetState]).rets
         == [0, 0, 0, 1, 0, 0]
    ensures HwRun(Fresh, [Init, GetState, On, GetState, Off, GetState], AllOkAnswers(6)).rets
         == [0, 0, 0, 1, 0, 0]
  {
  }

  /** test_led_toggle: init, off, toggle, get_state, toggle, get_state return
      0, 0, 0, 1, 0, 0, on the mock and on the hardware backend when every
      GPIO call succeeds. */
  lemma TestToggle(d: Led)
    ensures MockRun(MockDriver.Reset(d), [Init, Off, Toggle, GetState, Toggle, GetState]).rets
         == [0, 0, 0, 1, 0, 0]
    ensures HwRun(Fresh, [Init, Off, Toggle, GetState, Toggle, GetState], AllOkAnswers(6)).rets
         == [0, 0, 0, 1, 0, 0]
  {
  }
}
