/**
 * The readings the MQTT handler stores and the publish tick reads: the
 * module-level `pv_*` and `pv_L1_*`..`pv_L3_*` variables of the driver, and
 * the configuration values the core consults.
 */
module Readings {
  import opened Optional

  datatype Line = L1 | L2 | L3

  /** One phase's `pv_Lk_*` variables; `None` until a payload sets them. */
  datatype Phase = Phase(
    power: Option<real>,
    current: Option<real>,
    voltage: Option<real>,
    frequency: Option<real>,
    powerFactor: Option<real>,
    forward: Option<real>)

  const Absent: Phase := Phase(None, None, None, None, None, None)

  /** The aggregate reading (`pv_power`, `pv_current`, `pv_voltage`, `pv_forward`) and the three phases. */
  datatype Store = Store(
    power: real,
    current: real,
    voltage: real,
    forward: Option<real>,
    l1: Phase,
    l2: Phase,
    l3: Phase)
  {
    function PhaseOf(k: Line): Phase
    {
      match k
      case L1 => l1
      case L2 => l2
      case L3 => l3
    }

    /** This store with phase `k` replaced and everything else kept. */
    function WithPhase(k: Line, p: Phase): (r: Store)
      ensures r.PhaseOf(k) == p
      ensures forall j :: j != k ==> r.PhaseOf(j) == PhaseOf(j)
      ensures r.power == power && r.current == current && r.voltage == voltage && r.forward == forward
    {
      match k
      case L1 => this.(l1 := p)
      case L2 => this.(l2 := p)
      case L3 => this.(l3 := p)
    }
  }

  /** `pv_power` before the first reading: the waiting loop at startup polls for it. */
  const Unset: real := -1.0

  /** Lines 78-103: power unset, current and voltage 0, forward 0, no phase. */
  const InitialStore: Store := Store(Unset, 0.0, 0.0, Some(0.0), Absent, Absent, Absent)

  /**
   * What the core reads from config.ini, already converted: the subscribed
   * topic, the nominal voltage and frequency, the standby threshold and the
   * staleness timeout in seconds (0 disables it). Python's `float()` on a
   * string and `round()` are given as functions.
   */
  datatype Settings = Settings(
    topic: string,
    nominalVoltage: real,
    nominalFrequency: real,
    standbyPower: real,
    timeout: int,
    parseFloat: string -> Option<real>,
    round: (real, nat) -> real)
}
