/**
 * The scanner driver seen from the plugin: the commands the plugin issues,
 * in order, and what a trace of those commands leaves the device set to.
 * The driver's return codes only choose a log line in the plugin, so they
 * are not modelled.
 */
module ScanDriver {
  import opened Types

  /** Light modes as the driver header documents them: 1 is steady on, 2 is off. */
  const LIGHT_STEADY_ON: uint8 := 1
  const LIGHT_OFF: uint8 := 2

  /** One call into the driver. */
  datatype Command =
    | RegisterDataCallback           // ts_scan_get_data_fun_register
    | RegisterStateCallback          // ts_scan_state_fun_register
    | ScanInit                       // ts_scan_init
    | ScanDeinit                     // ts_scan_deinit
    | SetLightMode(mode: uint8, isTemp: uint8)
    | ScanSw(en: uint8)

  /**
   * The mode `light_change(state)` asks for: `state + 1`, computed in `int`
   * and narrowed back to the driver's `uint8` parameter.
   */
  function LightModeFor(state: uint8): uint8 {
    ((state as int + 1) % 0x100) as uint8
  }

  /** The command `light_change(state)` issues. */
  function LightCommand(state: uint8): Command {
    SetLightMode(LightModeFor(state), 0)
  }

  /** The command `scan_change(state)` issues. */
  function ScanCommand(state: uint8): Command {
    ScanSw(state)
  }

  /**
   * The commands `bind_change(state)` issues: arming turns the light on
   * before enabling the scan, disarming disables the scan before the light.
   */
  function BindCommands(state: uint8): (cmds: seq<Command>)
    ensures |cmds| == 2
    ensures state != 0 ==> cmds[0].SetLightMode? && cmds[0].mode == LightModeFor(1) && cmds[1] == ScanSw(1)
    ensures state == 0 ==> cmds[0] == ScanSw(0) && cmds[1].SetLightMode? && cmds[1].mode == LightModeFor(0)
    ensures forall c :: c in cmds && c.SetLightMode? ==> c.isTemp == 0
  {
    if state != 0 then [LightCommand(1), ScanCommand(1)]
    else [ScanCommand(0), LightCommand(0)]
  }

  /**
   * `light_change` passes `state + 1`: opening the light asks for mode 2,
   * which the driver header calls "off", and closing it asks for mode 1,
   * "steady on". The model keeps the value as the code computes it.
   */
  lemma LightModeAsWritten()
    ensures LightModeFor(1) == LIGHT_OFF
    ensures LightModeFor(0) == LIGHT_STEADY_ON
  {
  }

  /** What the device has last been told: initialised or not, light mode, scan switch. */
  datatype DeviceView = DeviceView(initialized: bool, light: Option<uint8>, scan: Option<uint8>)

  /** A device that has not received any command. */
  const POWER_ON := DeviceView(false, None, None)

  function Apply(v: DeviceView, c: Command): DeviceView {
    match c
    case RegisterDataCallback => v
    case RegisterStateCallback => v
    case ScanInit => v.(initialized := true)
    case ScanDeinit => v.(initialized := false)
    case SetLightMode(mode, _) => v.(light := Some(mode))
    case ScanSw(en) => v.(scan := Some(en))
  }

  /** The device after it has carried out the commands of `t` in order. */
  function Replay(v: DeviceView, t: seq<Command>): DeviceView
    decreases |t|
  {
    if t == [] then v else Replay(Apply(v, t[0]), t[1..])
  }

  /** The device after the plugin's whole command trace. */
  function Device(t: seq<Command>): DeviceView {
    Replay(POWER_ON, t)
  }

  /** Carrying out two traces one after the other is carrying out their concatenation. */
  lemma {:induction false} ReplayAppend(v: DeviceView, t: seq<Command>, u: seq<Command>)
    ensures Replay(v, t + u) == Replay(Replay(v, t), u)
    decreases |t|
  {
    if t == [] {
      assert t + u == u;
    } else {
      assert (t + u)[1..] == t[1..] + u;
      ReplayAppend(Apply(v, t[0]), t[1..], u);
    }
  }

  /** The two-state toggle that `bind_change` drives. */
  datatype Binding = Armed | Disarmed

  function BindingOf(v: DeviceView): Binding {
    if v.scan == Some(1) then Armed else Disarmed
  }

  /**
   * Light and scan were last set by one and the same `bind_change`: either
   * neither was ever set, or the scan switch is 0 or 1 and the light carries
   * the mode `light_change` computes for that same value.
   */
  predicate Coupled(v: DeviceView) {
    (v.scan.None? && v.light.None?) ||
    (v.scan.Some? && v.scan.value <= 1 && v.light == Some(LightModeFor(v.scan.value)))
  }

  /** `bind_change(state)` leaves the device coupled, armed exactly when `state` is non-zero. */
  lemma BindEffect(t: seq<Command>, state: uint8)
    ensures Device(t + BindCommands(state)).initialized == Device(t).initialized
    ensures Coupled(Device(t + BindCommands(state)))
    ensures BindingOf(Device(t + BindCommands(state))) == if state != 0 then Armed else Disarmed
  {
    var cmds := BindCommands(state);
    ReplayAppend(POWER_ON, t, cmds);
    ReplayPair(Device(t), cmds[0], cmds[1]);
    assert cmds == [cmds[0], cmds[1]];
  }

  lemma ReplayPair(v: DeviceView, a: Command, b: Command)
    ensures Replay(v, [a, b]) == Apply(Apply(v, a), b)
  {
    calc {
      Replay(v, [a, b]);
      { assert [a, b][0] == a && [a, b][1..] == [b]; }
      Replay(Apply(v, a), [b]);
      { assert [b][0] == b && [b][1..] == []; }
      Replay(Apply(Apply(v, a), b), []);
    }
  }

  /** Carrying out one more command. */
  lemma ReplaySnoc(v: DeviceView, t: seq<Command>, c: Command)
    ensures Replay(v, t + [c]) == Apply(Replay(v, t), c)
  {
    ReplayAppend(v, t, [c]);
    assert [c][1..] == [];
  }
}
