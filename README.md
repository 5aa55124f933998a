# dbus-mqtt-pv: a verified model of the ingestion-and-publish core

`dbus-mqtt-pv` bridges photovoltaic inverter readings from an MQTT topic onto a
Venus OS D-Bus service (`com.victronenergy.pvinverter`). This project models
its core in Dafny:

- the MQTT handler `on_message`. It normalises three payload shapes into the
  stored readings: a generic `pv` object with optional `L1`/`L2`/`L3` blocks,
  the Tasmota-style `power_L1`/`power_L2`/`power_L3` values, and the
  vendor-flat `apower` document. It also applies the standby threshold.
- the once-a-second publish callback `_update`. It publishes only when
  `last_changed` differs from `last_updated` and mirrors the aggregate onto
  L1 when no phase has a reading. It sets StatusCode 7 or 8, checks the
  staleness timeout and advances the wrapping UpdateIndex.
- the startup loop in `main` that waits for the first reading, and the
  initial state of the script's module globals.

Modules, in dependency order:

- `Optional`: Python's `None` as `Option`.
- `PyJson`: a decoded JSON value. Python's `in`, `[]`, `float()`, `.get()`
  and `/` on it can raise; they return `Eval = Value(v) | Raised`.
- `Readings`: the stored readings (`pv_*`, `pv_L1_*`..`pv_L3_*`) and the
  configuration values the core reads.
- `Normaliser`: what one decoded document does to the readings. Python's
  exception handlers end the handler while keeping every assignment made
  before the exception, so each function returns the readings as they are
  at that point, together with whether an exception ended the handler.
- `Publisher`: the bus paths, the assignments a publishing tick makes (a
  log of `Write`s applied to the path map), StatusCode and UpdateIndex.
- `DriverState`: the whole driver as a state machine. `Delivered` is one
  message, `Ticked` one tick and `Wait` the startup loop. Lemmas relate
  sequences of these steps.
- `PvService`: class `Bridge`, whose fields are the module globals and the
  bus values. `OnMessage`, `Tick` and `StartupWait` make the script's
  assignments one at a time. Each is proved to end in the state the
  matching `DriverState` function gives.

Where the documented behaviour and the code differ, the model follows the
code:

- A `{}` payload decodes, so it refreshes `last_changed`, although it is
  documented as a no-op.
- A generic `{"pv": {"power": p}}` gives `current = p / nominal voltage` only
  above the standby threshold; in standby the current is 0.0.
- In the vendor-flat shape, the default current divides by the nominal
  voltage, not by the payload's voltage.
- A tick publishes first and checks staleness afterwards. The terminating
  tick does not advance UpdateIndex.
- `energy_forward` absent from a generic payload keeps its previous value.
  The aggregate starts at 0 and the phases start at None. In the flat shape
  an absent `aenergy.total` clears it to None.

## Model

| member | source | states |
|---|---|---|
| Normaliser.TakeAggregate | dbus-mqtt-pv/dbus-mqtt-pv.py:155-162 | power at or below the standby threshold is stored as 0.0 with current 0.0; otherwise the current is the payload's or power over the nominal voltage; voltage defaults to nominal; energy_forward is overwritten only when present; it raises exactly when a field fails to convert (or nominal voltage 0 without current); on a raise every reading assigned before the failing read is kept (a converted power, then the current, then the voltage) and the later ones keep their old values |
| Normaliser.TakePhase | dbus-mqtt-pv/dbus-mqtt-pv.py:164-192 | only phase k changes; a block that is missing or lacks `power` leaves it untouched; a complete block sets every field with the nominal defaults and no standby threshold, keeps energy_forward when absent; raises exactly when the block is present and does not complete; for a dict block each field takes its new value when every read up to it completes and keeps its old value otherwise (ReadInOrder), so a raise leaves the phase half-filled; a block that is not a dict raises and changes nothing (the field reads are the helper TakePhaseFields) |
| Normaliser.TakePhaseIsLocal | dbus-mqtt-pv/dbus-mqtt-pv.py:164-192 | what a phase block does to its phase depends only on that phase's previous reading |
| Normaliser.TakeGeneric | dbus-mqtt-pv/dbus-mqtt-pv.py:152-192 | the aggregate is TakeAggregate's; raises iff the aggregate or one of the L1, L2, L3 blocks raises; after a good aggregate, each phase up to the first raising block is what TakePhase gives it and the phases after that block are unchanged; a phase whose block lacks `power` is unchanged; a failed aggregate leaves every phase unchanged |
| Normaliser.TasmotaPhase | dbus-mqtt-pv/dbus-mqtt-pv.py:196-213 | only phase k changes: power from the payload, nominal voltage and frequency, current = power / nominal voltage, energy_forward None, power factor kept; raises iff the value does not convert or the nominal voltage is 0; a value that does not convert changes nothing, and a nominal voltage of 0 leaves the power and voltage stored before the division raises |
| Normaliser.TakeTasmota | dbus-mqtt-pv/dbus-mqtt-pv.py:196-213 | the aggregate never changes; the first of power_L1, power_L2, power_L3 present sets its phase to power p, current p / nominal voltage, nominal voltage and frequency, no energy, power factor kept (TasmotaReading), and raises iff p does not convert or the nominal voltage is 0, keeping what TasmotaPhase keeps on a raise; the later keys are not read; none present changes nothing |
| Normaliser.FlatEnergy | dbus-mqtt-pv/dbus-mqtt-pv.py:226 | `aenergy.total / 1000`; None without `aenergy` and None for an `aenergy` object without `total`; raises iff `in` on `aenergy` raises, or `total` is present and `aenergy` is not an object or `total` does not convert |
| Normaliser.TakeFlat | dbus-mqtt-pv/dbus-mqtt-pv.py:218-246 | standby rule on apower; current defaults to power over the nominal voltage; L1 mirrors the aggregate with freq or nominal frequency and pf or None; L2 and L3 keep only their power factor; raises iff a field fails; on a raise the readings assigned before the failing read (aggregate power, current, voltage, forward, then the L1 mirror, frequency, power factor, in that order) are kept, the later ones and L2/L3 are untouched; a non-dict document changes nothing |
| Normaliser.Normalise | dbus-mqtt-pv/dbus-mqtt-pv.py:152-250 | a non-object document changes nothing (a number or null raises on `in`); a `pv` object with `power` is TakeGeneric: TakeAggregate's aggregate, raises iff the aggregate or a phase block raises, and otherwise gives each phase what TakePhase gives it; a `pv` object without `power` is TakeTasmota; without `pv`, an `apower` document is TakeFlat; a document with neither, or a non-dict `pv`, changes nothing |
| Normaliser.PowerOnlyPayload | dbus-mqtt-pv/dbus-mqtt-pv.py:152-162 | `{"pv": {"power": p}}` gives the thresholded power, p / nominal voltage (0.0 in standby), nominal voltage and nothing else; nominal voltage 0 raises after storing the power |
| Normaliser.PhaseBlockWithoutPowerSkipped | dbus-mqtt-pv/dbus-mqtt-pv.py:175-182 | an `L2` block without `power` leaves all three phases unchanged |
| Normaliser.TasmotaSinglePhase | dbus-mqtt-pv/dbus-mqtt-pv.py:202-207 | `{"pv": {"power_L2": x}}` changes exactly phase L2, to the nominal-derived values |
| Normaliser.FlatPayload | dbus-mqtt-pv/dbus-mqtt-pv.py:218-246 | `{"apower": p, "voltage": v}` gives current = power / NOMINAL voltage, voltage v, no energy, L1 mirroring it, L2/L3 cleared but for the power factor |
| Publisher.L1Writes | dbus-mqtt-pv/dbus-mqtt-pv.py:337-350 | six L1 assignments when L1 has a reading, five (no power factor) when no phase has one, none otherwise; the paths are distinct L1 paths and the power factor is among them only when L1 has a reading; each carries the value Shown gives its path: the L1 field rounded (3 digits for the power factor), or the rounded aggregate |
| Publisher.LineWrites | dbus-mqtt-pv/dbus-mqtt-pv.py:352-366 | six assignments to phase k when it has a reading, none otherwise; each carries the phase field rounded as Shown gives it |
| Publisher.PublishWrites | dbus-mqtt-pv/dbus-mqtt-pv.py:330-366 | only aggregate and phase value paths are assigned, each with the value Shown gives that path |
| Publisher.AggregateWrites | dbus-mqtt-pv/dbus-mqtt-pv.py:332-335 | four aggregate assignments, each the reading rounded to two digits |
| Publisher.PhaseWrites | dbus-mqtt-pv/dbus-mqtt-pv.py:338-343 | six assignments to phase k, each the phase field rounded, 3 digits for the power factor |
| Publisher.MirrorWrites | dbus-mqtt-pv/dbus-mqtt-pv.py:346-350 | five L1 assignments, no power factor, each the matching aggregate reading rounded to two digits (frequency None) |
| Publisher.PublishedValues | dbus-mqtt-pv/dbus-mqtt-pv.py:330-366 | after publishing, an assigned path holds the value Shown gives it and any other path keeps its value |
| Publisher.PresentPhasePublished | dbus-mqtt-pv/dbus-mqtt-pv.py:337-366 | when a phase has a reading, every one of its paths shows that field rounded, 3 digits for the power factor |
| Publisher.AggregatePublished | dbus-mqtt-pv/dbus-mqtt-pv.py:332-335 | after publishing, the aggregate paths show the readings rounded to two digits, whatever the phase assignments |
| Publisher.MirroredWhenNoPhase | dbus-mqtt-pv/dbus-mqtt-pv.py:344-350 | with no phase reading L1 shows the aggregate, frequency None, and its power factor and every L2/L3 path keep their values |
| Publisher.UpperLinePublishedIffPresent | dbus-mqtt-pv/dbus-mqtt-pv.py:352-366 | an L2/L3 path is assigned iff that phase has a power reading |
| Publisher.L1PublishedIff | dbus-mqtt-pv/dbus-mqtt-pv.py:337-350 | an L1 path is assigned iff L1 has a reading, or no phase has one and the path is not the power factor |
| Publisher.NextStatus | dbus-mqtt-pv/dbus-mqtt-pv.py:378-384 | 7 iff the shown power is at least 10, 8 iff below |
| Publisher.StatusWrites | dbus-mqtt-pv/dbus-mqtt-pv.py:378-384 | at most one assignment, made iff the status changes, carrying the new status |
| Publisher.NextIndex | dbus-mqtt-pv/dbus-mqtt-pv.py:394-397 | stays in 0..255 and equals (i + 1) mod 256 |
| Publisher.IndexAfterIsModular | dbus-mqtt-pv/dbus-mqtt-pv.py:394-397 | n increments from i give (i + n) mod 256 |
| Publisher.IndexWrapLaw | dbus-mqtt-pv/dbus-mqtt-pv.py:394-397 | 256 increments return to the start, fewer never do |
| DriverState.Initial | dbus-mqtt-pv/dbus-mqtt-pv.py:74-103 | pv_power -1, no phase reading, last_changed = last_updated, every path at its registered value, status and UpdateIndex 0, not exited |
| DriverState.InitialPaths | dbus-mqtt-pv/dbus-mqtt-pv.py:480-520 | every phase path starts None; the aggregate paths are registered |
| DriverState.Delivered | dbus-mqtt-pv/dbus-mqtt-pv.py:146-150 | a foreign topic, an empty or undecodable payload, or an exited process changes nothing; any decoded payload sets last_changed to the handling second and the readings to the normaliser's result |
| DriverState.Ticked | dbus-mqtt-pv/dbus-mqtt-pv.py:324-398 | nothing after exit; publishes iff last_changed != last_updated, then status 7/8 from the rounded power; exits iff stale; timeout 0 never exits; the exiting tick keeps UpdateIndex, any other advances it mod 256; the log only grows |
| DriverState.Published | dbus-mqtt-pv/dbus-mqtt-pv.py:330-386 | the readings assigned, status 7 iff the rounded power is at least 10 else 8, last_updated = last_changed; store, clock, UpdateIndex and exit unchanged |
| DriverState.QuietSecondTick | dbus-mqtt-pv/dbus-mqtt-pv.py:330-386 | a second tick with no message in between assigns no reading and no status; its only write is UpdateIndex |
| DriverState.ExitIsFinal | dbus-mqtt-pv/dbus-mqtt-pv.py:389-391 | after exit no message and no tick changes anything |
| DriverState.SilenceIsFatal | dbus-mqtt-pv/dbus-mqtt-pv.py:389-391 | with the timeout enabled, a tick more than timeout seconds after the last message exits without advancing UpdateIndex, and nothing happens after |
| DriverState.TicksAdvanceIndex | dbus-mqtt-pv/dbus-mqtt-pv.py:393-397 | n non-stale ticks never exit and advance UpdateIndex n times |
| DriverState.IndexWrapsAfter256Ticks | dbus-mqtt-pv/dbus-mqtt-pv.py:393-397 | 256 non-stale ticks bring UpdateIndex back to its start |
| DriverState.SameSecondMessageNotPublished | dbus-mqtt-pv/dbus-mqtt-pv.py:328-330 | a message handled in the same second as the last published data is not published by the next tick |
| DriverState.FreshMessagePublished | dbus-mqtt-pv/dbus-mqtt-pv.py:330-386 | a message handled in another second is published by the next tick, with /Ac/Power = round(power, 2) and the status following it |
| DriverState.EmptyObjectRefreshesClock | dbus-mqtt-pv/dbus-mqtt-pv.py:146-150 | `{}` changes no reading but refreshes last_changed |
| DriverState.StatusWrittenOnlyOnChange | dbus-mqtt-pv/dbus-mqtt-pv.py:378-384 | a tick assigns /StatusCode iff the status changes |
| DriverState.Wait | dbus-mqtt-pv/dbus-mqtt-pv.py:446-459 | polls stay between the start and the number of batches; ready only with pv_power set; pending only with every batch used and pv_power still -1 |
| DriverState.TickedAsWritten | dbus-mqtt-pv/dbus-mqtt-pv.py:324-398 | as Ticked unless the tick publishes while a stored phase has non-zero power and no voltage or current; on such a publishing tick it assigns the readings and stops there: no status, no last_updated, no exit, no UpdateIndex. A tick with nothing new to publish skips the debug lines and is Ticked |
| DriverState.IncompletePhaseStallsTicks | dbus-mqtt-pv/dbus-mqtt-pv.py:368-398 | with such a phase stored and unpublished data, no number of ticks, however late, exits or advances UpdateIndex |
| DriverState.NullPhaseVoltageBlocksTimeout | dbus-mqtt-pv/dbus-mqtt-pv.py:164-391 | a first message whose L1 block has a null voltage stores such a phase; as written no later tick exits, while Ticked exits once the timeout has passed |
| DriverState.Deadline | dbus-mqtt-pv/dbus-mqtt-pv.py:454 | the first poll i with timeout <= 5 i |
| DriverState.WaitEnds | dbus-mqtt-pv/dbus-mqtt-pv.py:446-459 | the wait ends ready only with pv_power set, and exits only with pv_power still -1, timeout != 0 and timeout <= 5 polls |
| DriverState.DisabledTimeoutNeverExits | dbus-mqtt-pv/dbus-mqtt-pv.py:454 | with timeout 0 the wait never exits the process |
| DriverState.WaitExitsAtDeadline | dbus-mqtt-pv/dbus-mqtt-pv.py:446-459 | the wait never polls past Deadline(timeout) and exits exactly there |
| DriverState.SilentStartupExits | dbus-mqtt-pv/dbus-mqtt-pv.py:446-459 | with no message, the wait exits at exactly poll Deadline(timeout) |
| PvService.Bridge.constructor | dbus-mqtt-pv/dbus-mqtt-pv.py:74-103 | the initial readings and bus values |
| PvService.Bridge.OnMessage | dbus-mqtt-pv/dbus-mqtt-pv.py:137-269 | ends in DriverState.Delivered of the previous state |
| PvService.Bridge.Ingest | dbus-mqtt-pv/dbus-mqtt-pv.py:152-250 | assigns the readings as Normaliser.Normalise gives them |
| PvService.Bridge.ReadAggregate | dbus-mqtt-pv/dbus-mqtt-pv.py:155-162 | as Normaliser.TakeAggregate |
| PvService.Bridge.ReadPhase | dbus-mqtt-pv/dbus-mqtt-pv.py:164-192 | as Normaliser.TakePhase |
| PvService.Bridge.ReadGeneric | dbus-mqtt-pv/dbus-mqtt-pv.py:152-192 | as Normaliser.TakeGeneric |
| PvService.Bridge.ReadTasmotaPhase | dbus-mqtt-pv/dbus-mqtt-pv.py:196-213 | as Normaliser.TasmotaPhase |
| PvService.Bridge.ReadTasmota | dbus-mqtt-pv/dbus-mqtt-pv.py:196-213 | as Normaliser.TakeTasmota |
| PvService.Bridge.ReadFlat | dbus-mqtt-pv/dbus-mqtt-pv.py:218-246 | as Normaliser.TakeFlat |
| PvService.Bridge.PutAggregate | dbus-mqtt-pv/dbus-mqtt-pv.py:332-335 | assigns the four aggregate paths |
| PvService.Bridge.PutPhase | dbus-mqtt-pv/dbus-mqtt-pv.py:338-343 | assigns the six paths of one phase |
| PvService.Bridge.PutMirror | dbus-mqtt-pv/dbus-mqtt-pv.py:346-350 | assigns the mirrored L1 paths |
| PvService.Bridge.PutL1 | dbus-mqtt-pv/dbus-mqtt-pv.py:337-350 | assigns L1 or its mirror |
| PvService.Bridge.PutLine | dbus-mqtt-pv/dbus-mqtt-pv.py:352-366 | assigns L2 or L3 when present |
| PvService.Bridge.PutPhases | dbus-mqtt-pv/dbus-mqtt-pv.py:337-366 | assigns L1 (or its mirror), then L2 and L3 when present |
| PvService.Bridge.PutReadings | dbus-mqtt-pv/dbus-mqtt-pv.py:330-366 | assigns every reading path of a publishing tick |
| PvService.Bridge.Publish | dbus-mqtt-pv/dbus-mqtt-pv.py:330-386 | the readings, then the status code read back from /Ac/Power, then last_updated; ends in DriverState.Published |
| PvService.Bridge.Tick | dbus-mqtt-pv/dbus-mqtt-pv.py:324-398 | ends in DriverState.Ticked of the previous state and keeps UpdateIndex in 0..255 |
| PvService.Bridge.DeliverBatch | dbus-mqtt-pv/dbus-mqtt-pv.py:458 | the messages handled during one sleep |
| PvService.Bridge.StartupWait | dbus-mqtt-pv/dbus-mqtt-pv.py:446-459 | ends as DriverState.Wait from poll 0 |

## Left out

- MQTT transport (connect, subscribe, TLS, credentials, reconnect): messages arrive as `Message` values carrying the second they are handled in.
- Loading config.ini and logging: the configuration values the core reads are fields of `Settings`. Log calls are left out, but for the format on lines 367-374, which can raise (see Findings).
- DriverState.Ticked / PvService.Bridge.Tick: skip the debug lines 367-374. A phase with non-zero power and a None voltage or current makes them raise TypeError as written; the corrected tick does not. DriverState.TickedAsWritten models the tick as written. Whether GLib calls `_update` again after it raises is not modelled: the as-written lemmas assume it does, and if it does not, no later tick runs, so the driver does not exit either.
- PvService.Bridge.Valid: assumes UpdateIndex is in 0..255. The paths are registered writeable and `_handlechangedvalue` accepts any value (lines 310-317, 400-402), so another D-Bus client could store anything there. Such writes are not modelled; NextIndex follows lines 394-396 for any integer.
- `json.loads`: a payload is `Empty`, `Malformed` (the decoder raises) or an already decoded document. JSON booleans are numbers.
- Python's `float()` on strings and `round()`: parameters of `Settings`, not interpreted.
- Floating point: readings are exact reals.
- VeDbusService: registration, the management and identity paths, `/Ac/MaxPower`, `/Ac/Position`, `/Ac/StatusCode` (registered but never assigned) and the text formatters are not modelled; the bus is a map of the value paths plus the StatusCode and UpdateIndex fields.
- GLib and `sys.exit()`: the timer is the caller of `Tick`, and exiting is an absorbing `terminated` flag.
- Concurrency: the handler and the tick are atomic steps that interleave in any order; interleavings inside a step are not modelled.
- StartupWait: `sleep(5)` becomes the handling of the messages of one batch; when the given batches run out the wait ends `Pending`, so an unbounded wait (timeout 0, no data) is modelled only up to the batches provided.
- The waiting-loop log lines (every 12th poll) have no effect on state.

## Findings

| source | as written | input that shows it | evidently intended | confidence | as-written member | corrected member |
|---|---|---|---|---|---|---|
| dbus-mqtt-pv/dbus-mqtt-pv.py:368-374 | the debug line of a phase formats its voltage and current with `{:.1f}` whenever its power is non-zero, even when they are None; the TypeError leaves `_update` after the readings are assigned, before the status, `last_updated`, the staleness exit and UpdateIndex. Only a publishing tick runs these lines, so the stall needs unpublished readings | `{"pv": {"power": 100, "L1": {"power": 50, "voltage": null}}}` as the first message: line 168 raises and leaves L1 with power 50 and voltage None; then silence | a debug line never stops a tick: the timeout still ends the driver and UpdateIndex still advances | medium; not executed | DriverState.TickedAsWritten | DriverState.SilenceIsFatal |
