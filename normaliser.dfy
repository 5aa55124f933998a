/**
 * The payload normaliser of `on_message`: how one decoded document updates
 * the stored readings. The handler assigns the readings one after another;
 * when an expression raises, the handler's `except` clauses end it and every
 * assignment made before stays in effect. Each function below therefore
 * returns the readings as they are when the handler stops, and whether it
 * stopped on an exception.
 */
module Normaliser {
  import opened Optional
  import opened PyJson
  import opened Readings

  datatype Outcome = Outcome(store: Store, raised: bool)

  /** The standby threshold of lines 157-158 and 221-222. */
  function Thresholded(p: real, c: Settings): real
  {
    if p > c.standbyPower then p else 0.0
  }

  /*
   * The generic object and a phase block are read field by field, in the
   * order power, current, voltage (then, in a block, frequency and power
   * factor), energy_forward. Each predicate below says that every read up to
   * and including the named one completes; a missing current is power over
   * the nominal voltage, which raises when that voltage is 0.
   */
  predicate PowerReads(f: map<string, Json>, c: Settings)
    requires "power" in f
  {
    ToFloat(f["power"], c.parseFloat).Value?
  }

  predicate CurrentReads(f: map<string, Json>, c: Settings)
    requires "power" in f
  {
    && PowerReads(f, c)
    && (if "current" in f then ToFloat(f["current"], c.parseFloat).Value? else c.nominalVoltage != 0.0)
  }

  predicate VoltageReads(f: map<string, Json>, c: Settings)
    requires "power" in f
  {
    CurrentReads(f, c) && Converts(f, "voltage", c.parseFloat)
  }

  predicate FrequencyReads(f: map<string, Json>, c: Settings)
    requires "power" in f
  {
    VoltageReads(f, c) && Converts(f, "frequency", c.parseFloat)
  }

  predicate PowerFactorReads(f: map<string, Json>, c: Settings)
    requires "power" in f
  {
    FrequencyReads(f, c) && Converts(f, "power_factor", c.parseFloat)
  }

  /** When the generic aggregate fields all convert (lines 155-162). */
  predicate AggregateConverts(pv: map<string, Json>, c: Settings)
    requires "power" in pv
  {
    VoltageReads(pv, c) && Converts(pv, "energy_forward", c.parseFloat)
  }

  /**
   * Lines 155-162: the aggregate reading of a generic `pv` object. Power at or
   * below the standby threshold is stored as 0.0 and so is the current; a
   * missing current is derived from the nominal voltage, a missing voltage is
   * the nominal one, and energy_forward is only overwritten when present.
   */
  function TakeAggregate(s: Store, pv: map<string, Json>, c: Settings): (r: Outcome)
    requires "power" in pv
    ensures r.store.l1 == s.l1 && r.store.l2 == s.l2 && r.store.l3 == s.l3
    ensures r.raised <==> !AggregateConverts(pv, c)
    ensures ToFloat(pv["power"], c.parseFloat).Raised? ==> r.store == s
    ensures ToFloat(pv["power"], c.parseFloat).Value? ==>
      r.store.power == Thresholded(ToFloat(pv["power"], c.parseFloat).v, c)
    // an exception keeps the readings assigned before it
    ensures r.store.current == (if !CurrentReads(pv, c) then s.current
                                else if ToFloat(pv["power"], c.parseFloat).v <= c.standbyPower then 0.0
                                else if "current" in pv then ToFloat(pv["current"], c.parseFloat).v
                                else ToFloat(pv["power"], c.parseFloat).v / c.nominalVoltage)
    ensures r.store.voltage == (if VoltageReads(pv, c) then FloatOr(pv, "voltage", c.nominalVoltage, c.parseFloat).v
                                else s.voltage)
    ensures r.raised ==> r.store.forward == s.forward
    ensures !r.raised ==>
      var p := ToFloat(pv["power"], c.parseFloat).v;
      && r.store.current == (if p <= c.standbyPower then 0.0
                             else if "current" in pv then ToFloat(pv["current"], c.parseFloat).v
                             else p / c.nominalVoltage)
      && r.store.voltage == (if "voltage" in pv then ToFloat(pv["voltage"], c.parseFloat).v else c.nominalVoltage)
      && r.store.forward == (if "energy_forward" in pv then Some(ToFloat(pv["energy_forward"], c.parseFloat).v)
                             else s.forward)
  {
    var p := ToFloat(pv["power"], c.parseFloat);
    if p.Raised? then Outcome(s, true) else
    var above := p.v > c.standbyPower;
    var s1 := s.(power := Thresholded(p.v, c));
    var i := if "current" in pv then ToFloat(pv["current"], c.parseFloat) else Div(s1.power, c.nominalVoltage);
    if i.Raised? then Outcome(s1, true) else
    var s2 := s1.(current := if above then i.v else 0.0);
    var v := FloatOr(pv, "voltage", c.nominalVoltage, c.parseFloat);
    if v.Raised? then Outcome(s2, true) else
    var s3 := s2.(voltage := v.v);
    if "energy_forward" !in pv then Outcome(s3, false) else
    var e := ToFloat(pv["energy_forward"], c.parseFloat);
    if e.Raised? then Outcome(s3, true) else Outcome(s3.(forward := Some(e.v)), false)
  }

  function LineKey(k: Line): string
  {
    match k
    case L1 => "L1"
    case L2 => "L2"
    case L3 => "L3"
  }

  /** Lines 165, 175, 185: block `Lk` is read only when it exists and contains `power`. */
  predicate Consumed(pv: map<string, Json>, k: Line)
  {
    LineKey(k) in pv && Contains(pv[LineKey(k)], "power") == Value(true)
  }

  /** When every field of a phase block converts (lines 166-172). */
  predicate PhaseConverts(f: map<string, Json>, c: Settings)
    requires "power" in f
  {
    PowerFactorReads(f, c) && Converts(f, "energy_forward", c.parseFloat)
  }

  /**
   * Lines 166-172 read into phase `was`, giving `ph`: each field takes its new
   * value when every read up to it completes, and keeps its old value once an
   * earlier read (or its own) has raised.
   */
  predicate ReadInOrder(was: Phase, ph: Phase, f: map<string, Json>, c: Settings)
    requires "power" in f
  {
    && ph.power == (if PowerReads(f, c) then Some(ToFloat(f["power"], c.parseFloat).v) else was.power)
    && ph.current == (if !CurrentReads(f, c) then was.current
                      else if "current" in f then Some(ToFloat(f["current"], c.parseFloat).v)
                      else Some(ToFloat(f["power"], c.parseFloat).v / c.nominalVoltage))
    && ph.voltage == (if VoltageReads(f, c) then Some(FloatOr(f, "voltage", c.nominalVoltage, c.parseFloat).v)
                      else was.voltage)
    && ph.frequency == (if FrequencyReads(f, c) then Some(FloatOr(f, "frequency", c.nominalFrequency, c.parseFloat).v)
                        else was.frequency)
    && ph.powerFactor == (if PowerFactorReads(f, c) then FloatIfPresent(f, "power_factor", c.parseFloat).v
                          else was.powerFactor)
    && ph.forward == (if PhaseConverts(f, c) && "energy_forward" in f
                      then Some(ToFloat(f["energy_forward"], c.parseFloat).v) else was.forward)
  }

  /** Whether reading the block found under `Lk` completes without an exception. */
  predicate BlockCompletes(b: Json, c: Settings)
  {
    match Contains(b, "power")
    case Raised => false
    case Value(has) => !has || (b.Object? && PhaseConverts(b.fields, c))
  }

  /** Whether reading block `Lk` raises: it exists and does not complete. */
  predicate BlockRaises(pv: map<string, Json>, k: Line, c: Settings)
  {
    LineKey(k) in pv && !BlockCompletes(pv[LineKey(k)], c)
  }

  /** Lines 166-172: the fields of a phase block that has `power`; part of `TakePhase`. */
  function TakePhaseFields(s: Store, k: Line, f: map<string, Json>, c: Settings): Outcome
    requires "power" in f
  {
    var was := s.PhaseOf(k);
    var p := ToFloat(f["power"], c.parseFloat);
    if p.Raised? then Outcome(s, true) else
    var ph1 := was.(power := Some(p.v));
    var i := if "current" in f then ToFloat(f["current"], c.parseFloat) else Div(p.v, c.nominalVoltage);
    if i.Raised? then Outcome(s.WithPhase(k, ph1), true) else
    var ph2 := ph1.(current := Some(i.v));
    var v := FloatOr(f, "voltage", c.nominalVoltage, c.parseFloat);
    if v.Raised? then Outcome(s.WithPhase(k, ph2), true) else
    var ph3 := ph2.(voltage := Some(v.v));
    var hz := FloatOr(f, "frequency", c.nominalFrequency, c.parseFloat);
    if hz.Raised? then Outcome(s.WithPhase(k, ph3), true) else
    var ph4 := ph3.(frequency := Some(hz.v));
    var pf := FloatIfPresent(f, "power_factor", c.parseFloat);
    if pf.Raised? then Outcome(s.WithPhase(k, ph4), true) else
    var ph5 := ph4.(powerFactor := pf.v);
    if "energy_forward" !in f then Outcome(s.WithPhase(k, ph5), false) else
    var e := ToFloat(f["energy_forward"], c.parseFloat);
    if e.Raised? then Outcome(s.WithPhase(k, ph5), true)
    else Outcome(s.WithPhase(k, ph5.(forward := Some(e.v))), false)
  }

  /**
   * Lines 164-192, one phase: only phase `k` can change; a block that is
   * missing or has no `power` leaves it as it was; a complete block sets
   * power, current (or power over the nominal voltage), voltage and frequency
   * (or the nominal ones), the power factor (or None), and keeps the previous
   * energy_forward unless the block carries one. Phase readings are not
   * subject to the standby threshold.
   */
  function TakePhase(s: Store, k: Line, pv: map<string, Json>, c: Settings): (r: Outcome)
    ensures r.store == s.WithPhase(k, r.store.PhaseOf(k))
    ensures !Consumed(pv, k) ==> r.store == s
    ensures r.raised <==> BlockRaises(pv, k, c)
    ensures r.raised ==> r.store.PhaseOf(k).forward == s.PhaseOf(k).forward
    ensures Consumed(pv, k) && pv[LineKey(k)].Object? ==>
      ReadInOrder(s.PhaseOf(k), r.store.PhaseOf(k), pv[LineKey(k)].fields, c)
    ensures Consumed(pv, k) && !pv[LineKey(k)].Object? ==> r == Outcome(s, true)
    ensures !r.raised && Consumed(pv, k) ==>
      && pv[LineKey(k)].Object?
      && var f := pv[LineKey(k)].fields;
      && var p := ToFloat(f["power"], c.parseFloat).v;
      && var ph := r.store.PhaseOf(k);
      && ph.power == Some(p)
      && ph.current == Some(if "current" in f then ToFloat(f["current"], c.parseFloat).v else p / c.nominalVoltage)
      && ph.voltage == Some(FloatOr(f, "voltage", c.nominalVoltage, c.parseFloat).v)
      && ph.frequency == Some(FloatOr(f, "frequency", c.nominalFrequency, c.parseFloat).v)
      && ph.powerFactor == FloatIfPresent(f, "power_factor", c.parseFloat).v
      && ph.forward == (if "energy_forward" in f then Some(ToFloat(f["energy_forward"], c.parseFloat).v)
                        else s.PhaseOf(k).forward)
  {
    var key := LineKey(k);
    if key !in pv then Outcome(s, false) else
    var has := Contains(pv[key], "power");
    if has.Raised? then Outcome(s, true)
    else if !has.v then Outcome(s, false)
    // `"power" in` a string or a list, which cannot then be indexed by a string
    else if !pv[key].Object? then Outcome(s, true)
    else TakePhaseFields(s, k, pv[key].fields, c)
  }

  /** Phase `k` after reading block `Lk` depends only on phase `k` before. */
  lemma TakePhaseIsLocal(s: Store, t: Store, k: Line, pv: map<string, Json>, c: Settings)
    requires s.PhaseOf(k) == t.PhaseOf(k)
    ensures TakePhase(s, k, pv, c).store.PhaseOf(k) == TakePhase(t, k, pv, c).store.PhaseOf(k)
  {
  }

  /**
   * Lines 152-192: a generic `pv` object with `power`: the aggregate, then
   * L1, L2 and L3. Each phase ends as reading its own block alone would
   * leave it; an exception stops the handler, so the blocks after the one
   * that raised are not read.
   */
  function TakeGeneric(s: Store, pv: map<string, Json>, c: Settings): (r: Outcome)
    requires "power" in pv
    ensures var a := TakeAggregate(s, pv, c).store;
      r.store.power == a.power && r.store.current == a.current
      && r.store.voltage == a.voltage && r.store.forward == a.forward
    ensures r.raised <==>
      !AggregateConverts(pv, c) || BlockRaises(pv, L1, c) || BlockRaises(pv, L2, c) || BlockRaises(pv, L3, c)
    ensures forall k :: !Consumed(pv, k) ==> r.store.PhaseOf(k) == s.PhaseOf(k)
    ensures !AggregateConverts(pv, c) ==> r.raised && r.store.l1 == s.l1 && r.store.l2 == s.l2 && r.store.l3 == s.l3
    ensures AggregateConverts(pv, c) ==> r.store.l1 == TakePhase(s, L1, pv, c).store.l1
    ensures AggregateConverts(pv, c) && !BlockRaises(pv, L1, c) ==>
      r.store.l2 == TakePhase(s, L2, pv, c).store.l2
    ensures AggregateConverts(pv, c) && !BlockRaises(pv, L1, c) && !BlockRaises(pv, L2, c) ==>
      r.store.l3 == TakePhase(s, L3, pv, c).store.l3
    ensures BlockRaises(pv, L1, c) ==> r.store.l2 == s.l2 && r.store.l3 == s.l3
    ensures BlockRaises(pv, L2, c) ==> r.store.l3 == s.l3
    ensures !r.raised ==> forall k :: r.store.PhaseOf(k) == TakePhase(s, k, pv, c).store.PhaseOf(k)
  {
    var a := TakeAggregate(s, pv, c);
    if a.raised then a else
    var b1 := TakePhase(a.store, L1, pv, c);
    TakePhaseIsLocal(a.store, s, L1, pv, c);
    if b1.raised then b1 else
    var b2 := TakePhase(b1.store, L2, pv, c);
    TakePhaseIsLocal(b1.store, s, L2, pv, c);
    if b2.raised then b2 else
    TakePhaseIsLocal(b2.store, s, L3, pv, c);
    TakePhase(b2.store, L3, pv, c)
  }

  function Cleared(p: Phase): Phase
  {
    Absent.(powerFactor := p.powerFactor)
  }

  /** Lines 197-201: the phase a Tasmota `power_Lk` value `p` produces, keeping power factor `pf`. */
  function TasmotaReading(p: real, pf: Option<real>, c: Settings): Phase
    requires c.nominalVoltage != 0.0
  {
    Phase(Some(p), Some(p / c.nominalVoltage), Some(c.nominalVoltage), Some(c.nominalFrequency), pf, None)
  }

  /**
   * Lines 197-213, one phase of a Tasmota-style payload: power from the
   * payload, the nominal voltage and frequency, current derived from the
   * nominal voltage, energy_forward cleared, and the power factor and every
   * other reading kept.
   */
  function TasmotaPhase(s: Store, k: Line, x: Json, c: Settings): (r: Outcome)
    ensures r.store == s.WithPhase(k, r.store.PhaseOf(k))
    ensures r.store.PhaseOf(k).powerFactor == s.PhaseOf(k).powerFactor
    ensures r.raised <==> ToFloat(x, c.parseFloat).Raised? || c.nominalVoltage == 0.0
    ensures !r.raised ==>
      r.store.PhaseOf(k) == TasmotaReading(ToFloat(x, c.parseFloat).v, s.PhaseOf(k).powerFactor, c)
    ensures ToFloat(x, c.parseFloat).Raised? ==> r.store == s
    ensures ToFloat(x, c.parseFloat).Value? && c.nominalVoltage == 0.0 ==>
      r.store.PhaseOf(k) == s.PhaseOf(k).(power := Some(ToFloat(x, c.parseFloat).v), voltage := Some(0.0))
  {
    var p := ToFloat(x, c.parseFloat);
    if p.Raised? then Outcome(s, true) else
    var ph := s.PhaseOf(k).(power := Some(p.v), voltage := Some(c.nominalVoltage));
    var i := Div(p.v, c.nominalVoltage);
    if i.Raised? then Outcome(s.WithPhase(k, ph), true)
    else Outcome(s.WithPhase(k, ph.(current := Some(i.v), frequency := Some(c.nominalFrequency), forward := None)), false)
  }

  /**
   * Reading `x` into phase `k` raises exactly when `x` does not convert or the
   * nominal voltage is 0, and otherwise gives phase `k` its Tasmota reading.
   * A value that does not convert changes nothing; with a nominal voltage of
   * 0 the power and voltage are stored before the division raises.
   */
  predicate TasmotaSets(s: Store, r: Outcome, k: Line, x: Json, c: Settings)
  {
    && (r.raised <==> ToFloat(x, c.parseFloat).Raised? || c.nominalVoltage == 0.0)
    && (ToFloat(x, c.parseFloat).Raised? ==> r.store.PhaseOf(k) == s.PhaseOf(k))
    && (ToFloat(x, c.parseFloat).Value? && c.nominalVoltage == 0.0 ==>
          r.store.PhaseOf(k) == s.PhaseOf(k).(power := Some(ToFloat(x, c.parseFloat).v), voltage := Some(0.0)))
    && (ToFloat(x, c.parseFloat).Value? && c.nominalVoltage != 0.0 ==>
          r.store.PhaseOf(k) == TasmotaReading(ToFloat(x, c.parseFloat).v, s.PhaseOf(k).powerFactor, c))
  }

  /**
   * Lines 196-213: a `pv` object without `power` updates at most one phase,
   * the first of `power_L1`, `power_L2`, `power_L3` it carries, and never
   * the aggregate.
   */
  function TakeTasmota(s: Store, pv: map<string, Json>, c: Settings): (r: Outcome)
    ensures r.store.power == s.power && r.store.current == s.current
    ensures r.store.voltage == s.voltage && r.store.forward == s.forward
    ensures "power_L1" in pv ==> r.store.l2 == s.l2 && r.store.l3 == s.l3
    ensures "power_L1" !in pv && "power_L2" in pv ==> r.store.l1 == s.l1 && r.store.l3 == s.l3
    ensures "power_L1" !in pv && "power_L2" !in pv ==> r.store.l1 == s.l1 && r.store.l2 == s.l2
    ensures "power_L1" !in pv && "power_L2" !in pv && "power_L3" !in pv ==> r == Outcome(s, false)
    ensures "power_L1" in pv ==> TasmotaSets(s, r, L1, pv["power_L1"], c)
    ensures "power_L1" !in pv && "power_L2" in pv ==> TasmotaSets(s, r, L2, pv["power_L2"], c)
    ensures "power_L1" !in pv && "power_L2" !in pv && "power_L3" in pv ==> TasmotaSets(s, r, L3, pv["power_L3"], c)
  {
    if "power_L1" in pv then TasmotaPhase(s, L1, pv["power_L1"], c)
    else if "power_L2" in pv then TasmotaPhase(s, L2, pv["power_L2"], c)
    else if "power_L3" in pv then TasmotaPhase(s, L3, pv["power_L3"], c)
    else Outcome(s, false)
  }

  /**
   * Line 226 raises on `aenergy` when `"total" in` it raises (a number or
   * null), when a string or list containing "total" is then asked `.get`, or
   * when `total` does not convert.
   */
  predicate EnergyRaises(a: Json, parse: string -> Option<real>)
  {
    match Contains(a, "total")
    case Raised => true
    case Value(has) => has && (!a.Object? || ToFloat(a.fields["total"], parse).Raised?)
  }

  /** Line 226: `aenergy.total / 1000`, or None when there is no total. */
  function FlatEnergy(f: map<string, Json>, parse: string -> Option<real>): (r: Eval<Option<real>>)
    ensures "aenergy" !in f ==> r == Value(None)
    ensures "aenergy" in f && f["aenergy"].Object? && "total" in f["aenergy"].fields
            && ToFloat(f["aenergy"].fields["total"], parse).Value?
            ==> r == Value(Some(ToFloat(f["aenergy"].fields["total"], parse).v / 1000.0))
    ensures "aenergy" in f && f["aenergy"].Object? && "total" !in f["aenergy"].fields ==> r == Value(None)
    ensures r.Value? && r.v.Some? ==> "aenergy" in f && f["aenergy"].Object?
    ensures r.Raised? <==> "aenergy" in f && EnergyRaises(f["aenergy"], parse)
  {
    if "aenergy" !in f then Value(None) else
    var has := Contains(f["aenergy"], "total");
    if has.Raised? then Raised
    else if !has.v then Value(None)
    // `.get` on a string or a list
    else if !f["aenergy"].Object? then Raised
    else
      var t := ToFloat(f["aenergy"].fields["total"], parse);
      if t.Raised? then Raised else Value(Some(t.v / 1000.0))
  }

  /*
   * A vendor-flat document is read in the order apower, current (whose
   * default, power over the nominal voltage, is computed even when the key is
   * present), voltage, aenergy, freq, pf (lines 219-232). Each predicate says
   * that every read up to and including the named one completes.
   */
  predicate FlatCurrentReads(f: map<string, Json>, c: Settings)
  {
    && FloatOr(f, "apower", 0.0, c.parseFloat).Value?
    && c.nominalVoltage != 0.0
    && Converts(f, "current", c.parseFloat)
  }

  predicate FlatEnergyReads(f: map<string, Json>, c: Settings)
  {
    && FlatCurrentReads(f, c)
    && Converts(f, "voltage", c.parseFloat)
    && FlatEnergy(f, c.parseFloat).Value?
  }

  predicate FlatFrequencyReads(f: map<string, Json>, c: Settings)
  {
    FlatEnergyReads(f, c) && Converts(f, "freq", c.parseFloat)
  }

  /** When a vendor-flat document is read to the end (lines 219-246). */
  predicate FlatConverts(f: map<string, Json>, c: Settings)
  {
    FlatFrequencyReads(f, c) && Converts(f, "pf", c.parseFloat)
  }

  /**
   * Lines 218-246: a vendor-flat document with `apower`. The aggregate follows
   * the standby rule; L1 mirrors the aggregate power, current, voltage and
   * forward, takes `freq` or the nominal frequency and `pf` or None; every L2
   * and L3 reading except the power factor becomes None. The clearing is the
   * last step, so a document that raises leaves L2 and L3 alone.
   */
  function TakeFlat(s: Store, doc: Json, c: Settings): (r: Outcome)
    ensures r.raised <==> !doc.Object? || !FlatConverts(doc.fields, c)
    ensures r.raised ==> r.store.l2 == s.l2 && r.store.l3 == s.l3
    ensures !doc.Object? ==> r.store == s
    // an exception keeps the readings assigned before it
    ensures doc.Object? ==>
      && var f := doc.fields;
      && var p := FloatOr(f, "apower", 0.0, c.parseFloat);
      && var st := r.store;
      && st.power == (if p.Value? then Thresholded(p.v, c) else s.power)
      && st.current == (if !FlatCurrentReads(f, c) then s.current
                        else if p.v <= c.standbyPower then 0.0
                        else FloatOr(f, "current", p.v / c.nominalVoltage, c.parseFloat).v)
      && st.voltage == (if FlatCurrentReads(f, c) && Converts(f, "voltage", c.parseFloat)
                        then FloatOr(f, "voltage", c.nominalVoltage, c.parseFloat).v else s.voltage)
      && st.forward == (if FlatEnergyReads(f, c) then FlatEnergy(f, c.parseFloat).v else s.forward)
      && st.l1.power == (if FlatEnergyReads(f, c) then Some(st.power) else s.l1.power)
      && st.l1.current == (if FlatEnergyReads(f, c) then Some(st.current) else s.l1.current)
      && st.l1.voltage == (if FlatEnergyReads(f, c) then Some(st.voltage) else s.l1.voltage)
      && st.l1.frequency == (if FlatFrequencyReads(f, c)
                             then Some(FloatOr(f, "freq", c.nominalFrequency, c.parseFloat).v) else s.l1.frequency)
      && st.l1.powerFactor == (if FlatConverts(f, c) then FloatIfPresent(f, "pf", c.parseFloat).v
                               else s.l1.powerFactor)
      && st.l1.forward == (if FlatConverts(f, c) then st.forward else s.l1.forward)
    ensures !r.raised ==>
      && var f := doc.fields;
      && var p := FloatOr(f, "apower", 0.0, c.parseFloat).v;
      && r.store.power == Thresholded(p, c)
      && r.store.current == (if p <= c.standbyPower then 0.0
                             else FloatOr(f, "current", p / c.nominalVoltage, c.parseFloat).v)
      && r.store.voltage == FloatOr(f, "voltage", c.nominalVoltage, c.parseFloat).v
      && r.store.forward == FlatEnergy(f, c.parseFloat).v
      && r.store.l1 == Phase(Some(r.store.power), Some(r.store.current), Some(r.store.voltage),
                             Some(FloatOr(f, "freq", c.nominalFrequency, c.parseFloat).v),
                             FloatIfPresent(f, "pf", c.parseFloat).v, r.store.forward)
      && r.store.l2 == Cleared(s.l2) && r.store.l3 == Cleared(s.l3)
  {
    // `.get` on a string or a list
    if !doc.Object? then Outcome(s, true) else
    var f := doc.fields;
    var p := FloatOr(f, "apower", 0.0, c.parseFloat);
    if p.Raised? then Outcome(s, true) else
    var above := p.v > c.standbyPower;
    var s1 := s.(power := Thresholded(p.v, c));
    // the default argument of `.get("current", ...)` is evaluated even when the key is present
    var fallback := Div(s1.power, c.nominalVoltage);
    if fallback.Raised? then Outcome(s1, true) else
    var i := FloatOr(f, "current", fallback.v, c.parseFloat);
    if i.Raised? then Outcome(s1, true) else
    var s2 := s1.(current := if above then i.v else 0.0);
    var v := FloatOr(f, "voltage", c.nominalVoltage, c.parseFloat);
    if v.Raised? then Outcome(s2, true) else
    var s3 := s2.(voltage := v.v);
    var e := FlatEnergy(f, c.parseFloat);
    if e.Raised? then Outcome(s3, true) else
    var s4 := s3.(forward := e.v);
    var l1 := s4.l1.(power := Some(s4.power), current := Some(s4.current), voltage := Some(s4.voltage));
    var hz := FloatOr(f, "freq", c.nominalFrequency, c.parseFloat);
    if hz.Raised? then Outcome(s4.(l1 := l1), true) else
    var pf := FloatIfPresent(f, "pf", c.parseFloat);
    if pf.Raised? then Outcome(s4.(l1 := l1.(frequency := Some(hz.v))), true) else
    var l1Done := l1.(frequency := Some(hz.v), powerFactor := pf.v, forward := s4.forward);
    Outcome(s4.(l1 := l1Done, l2 := Cleared(s4.l2), l3 := Cleared(s4.l3)), false)
  }

  /**
   * Lines 152-250: shape selection. A `pv` key selects the generic object
   * (or, without `power`, the Tasmota chain); otherwise an `apower` key
   * selects the vendor-flat shape; anything else is logged and ignored.
   */
  function Normalise(s: Store, doc: Json, c: Settings): (r: Outcome)
    ensures doc.Num? || doc.Null? ==> r == Outcome(s, true)
    ensures !doc.Object? ==> r.store == s
    ensures doc.Object? && "pv" in doc.fields && doc.fields["pv"].Object? && "power" in doc.fields["pv"].fields ==>
      r == TakeGeneric(s, doc.fields["pv"].fields, c)
    ensures doc.Object? && "pv" in doc.fields && doc.fields["pv"].Object? && "power" in doc.fields["pv"].fields ==>
      && var pv := doc.fields["pv"].fields;
      && var a := TakeAggregate(s, pv, c).store;
      && r.store.power == a.power && r.store.current == a.current
      && r.store.voltage == a.voltage && r.store.forward == a.forward
      && (r.raised <==>
            !AggregateConverts(pv, c) || BlockRaises(pv, L1, c) || BlockRaises(pv, L2, c) || BlockRaises(pv, L3, c))
      && (forall k :: !Consumed(pv, k) ==> r.store.PhaseOf(k) == s.PhaseOf(k))
      && (!r.raised ==> forall k :: r.store.PhaseOf(k) == TakePhase(s, k, pv, c).store.PhaseOf(k))
    ensures doc.Object? && "pv" in doc.fields && doc.fields["pv"].Object? && "power" !in doc.fields["pv"].fields ==>
      r == TakeTasmota(s, doc.fields["pv"].fields, c)
    ensures doc.Object? && "pv" !in doc.fields && "apower" in doc.fields ==> r == TakeFlat(s, doc, c)
    ensures doc.Object? && "pv" !in doc.fields && "apower" !in doc.fields ==> r == Outcome(s, false)
    ensures doc.Object? && "pv" in doc.fields && !doc.fields["pv"].Object? ==> r == Outcome(s, false)
    ensures doc.Object? && "pv" in doc.fields && doc.fields["pv"].Object? && "power" !in doc.fields["pv"].fields ==>
      && r.store.power == s.power && r.store.current == s.current
      && r.store.voltage == s.voltage && r.store.forward == s.forward
  {
    var hasPv := Contains(doc, "pv");
    if hasPv.Raised? then Outcome(s, true)
    else if hasPv.v then
      var pv := Index(doc, "pv");
      if pv.Raised? then Outcome(s, true)
      // logged: the pv value is not an object
      else if !pv.v.Object? then Outcome(s, false)
      else if "power" in pv.v.fields then TakeGeneric(s, pv.v.fields, c)
      else TakeTasmota(s, pv.v.fields, c)
    else
      var hasFlat := Contains(doc, "apower");
      if hasFlat.Raised? then Outcome(s, true)
      else if hasFlat.v then TakeFlat(s, doc, c)
      // logged: neither pv nor apower
      else Outcome(s, false)
  }

  /**
   * `{"pv": {"power": p}}`: power after the standby rule, current derived from
   * the nominal voltage (or 0.0 in standby), the nominal voltage, and every
   * phase and energy_forward as they were. A nominal voltage of zero raises
   * after the power is stored, also in standby, because the division happens
   * before the threshold is applied to the current.
   */
  lemma PowerOnlyPayload(s: Store, p: real, c: Settings)
    ensures var r := Normalise(s, Object(map["pv" := Object(map["power" := Num(p)])]), c);
      && (c.nominalVoltage != 0.0 ==>
            r == Outcome(s.(power := Thresholded(p, c),
                            current := if p > c.standbyPower then p / c.nominalVoltage else 0.0,
                            voltage := c.nominalVoltage), false))
      && (c.nominalVoltage == 0.0 ==> r == Outcome(s.(power := Thresholded(p, c)), true))
  {
  }

  /**
   * Lines 164-192: a phase block without `power` is skipped entirely, even
   * when it carries other readings.
   */
  lemma PhaseBlockWithoutPowerSkipped(s: Store, p: real, v: real, c: Settings)
    requires c.nominalVoltage != 0.0
    ensures var r := Normalise(s, Object(map["pv" := Object(map["power" := Num(p), "L2" := Object(map["voltage" := Num(v)])])]), c);
      && !r.raised && r.store.l1 == s.l1 && r.store.l2 == s.l2 && r.store.l3 == s.l3
  {
  }

  /**
   * Lines 196-213: `{"pv": {"power_L2": x}}` sets phase L2 from the nominal
   * voltage and frequency, clears its energy_forward, keeps its power factor,
   * and touches nothing else.
   */
  lemma TasmotaSinglePhase(s: Store, x: real, c: Settings)
    requires c.nominalVoltage != 0.0
    ensures Normalise(s, Object(map["pv" := Object(map["power_L2" := Num(x)])]), c)
         == Outcome(s.(l2 := Phase(Some(x), Some(x / c.nominalVoltage), Some(c.nominalVoltage),
                                   Some(c.nominalFrequency), s.l2.powerFactor, None)), false)
  {
  }

  /**
   * Lines 218-246: `{"apower": p, "voltage": v}`. The current defaults to the
   * power over the NOMINAL voltage, not over the voltage in the payload; L1
   * mirrors the aggregate with the nominal frequency and no power factor;
   * L2 and L3 keep only their power factor; there is no energy_forward.
   */
  lemma FlatPayload(s: Store, p: real, v: real, c: Settings)
    requires c.nominalVoltage != 0.0
    ensures var r := Normalise(s, Object(map["apower" := Num(p), "voltage" := Num(v)]), c);
      var i := if p > c.standbyPower then Thresholded(p, c) / c.nominalVoltage else 0.0;
      && !r.raised
      && r.store.power == Thresholded(p, c) && r.store.current == i
      && r.store.voltage == v && r.store.forward == None
      && r.store.l1 == Phase(Some(Thresholded(p, c)), Some(i), Some(v), Some(c.nominalFrequency), None, None)
      && r.store.l2 == Cleared(s.l2) && r.store.l3 == Cleared(s.l3)
  {
  }
}
