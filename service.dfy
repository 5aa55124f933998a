/**
 * The running driver: the module-level readings and clock of the script,
 * the values of its bus service, and the three routines that change them.
 * `OnMessage` is the MQTT handler, `Tick` the once-a-second publish callback
 * and `StartupWait` the loop that waits for the first reading. Each assigns
 * the readings and bus values one at a time, as the script does, and is
 * proved to reach the state the matching function of `DriverState` gives.
 */
module PvService {
  import opened Optional
  import opened PyJson
  import opened Readings
  import opened Normaliser
  import opened Publisher
  import opened DriverState

  class Bridge {
    const cfg: Settings
    /** The `pv_*` module globals. */
    var store: Store
    var lastChanged: int
    var lastUpdated: int
    /** The value paths of the bus service. */
    var paths: Paths
    /** `/StatusCode` and `/UpdateIndex`. */
    var statusCode: int
    var updateIndex: int
    /** Every assignment to the bus, in order. */
    var log: seq<Write>
    /** Set by `sys.exit()`. */
    var terminated: bool

    function State(): Driver
      reads this
    {
      Driver(store, lastChanged, lastUpdated, paths, statusCode, updateIndex, log, terminated)
    }

    /** UpdateIndex stays within 0..255 and no registered path disappears. */
    ghost predicate Valid()
      reads this
    {
      0 <= updateIndex <= 255 && InitialPaths().Keys <= paths.Keys
    }

    /** Lines 74-103 and 306-308, 488: the state when the script starts. */
    constructor (c: Settings)
      ensures cfg == c && State() == Initial() && Valid()
    {
      cfg := c;
      store := InitialStore;
      lastChanged := 0;
      lastUpdated := 0;
      paths := InitialPaths();
      statusCode := 0;
      updateIndex := 0;
      log := [];
      terminated := false;
    }

    /** Lines 137-269: handle one MQTT message. */
    method OnMessage(m: Message)
      requires Valid()
      modifies this
      ensures Valid()
      ensures State() == Delivered(old(State()), m, cfg)
    {
      if terminated || m.topic != cfg.topic || !m.payload.Decoded? {
        return;
      }
      lastChanged := m.at;
      var _ := Ingest(m.payload.doc);
    }

    /** Lines 152-250: read one decoded document into the readings; `raised` when an exception ended it. */
    method Ingest(doc: Json) returns (raised: bool)
      modifies this`store
      ensures Outcome(store, raised) == Normalise(old(store), doc, cfg)
    {
      var hasPv := Contains(doc, "pv");
      if hasPv.Raised? {
        return true;
      }
      if hasPv.v {
        var pv := Index(doc, "pv");
        if pv.Raised? {
          return true;
        }
        if !pv.v.Object? {
          return false;
        }
        if "power" in pv.v.fields {
          raised := ReadGeneric(pv.v.fields);
        } else {
          raised := ReadTasmota(pv.v.fields);
        }
      } else {
        var hasFlat := Contains(doc, "apower");
        if hasFlat.Raised? {
          return true;
        }
        if hasFlat.v {
          raised := ReadFlat(doc);
        } else {
          raised := false;
        }
      }
    }

    /**
     * Lines 155-162, one assignment at a time; `TakeAggregate` states the
     * readings and the raise this ends in.
     */
    method ReadAggregate(pv: map<string, Json>) returns (raised: bool)
      requires "power" in pv
      modifies this`store
      ensures Outcome(store, raised) == TakeAggregate(old(store), pv, cfg)
    {
      var p := ToFloat(pv["power"], cfg.parseFloat);
      if p.Raised? {
        return true;
      }
      var above := p.v > cfg.standbyPower;
      store := store.(power := if above then p.v else 0.0);
      var i := if "current" in pv then ToFloat(pv["current"], cfg.parseFloat) else Div(store.power, cfg.nominalVoltage);
      if i.Raised? {
        return true;
      }
      store := store.(current := if above then i.v else 0.0);
      var v := FloatOr(pv, "voltage", cfg.nominalVoltage, cfg.parseFloat);
      if v.Raised? {
        return true;
      }
      store := store.(voltage := v.v);
      if "energy_forward" in pv {
        var e := ToFloat(pv["energy_forward"], cfg.parseFloat);
        if e.Raised? {
          return true;
        }
        store := store.(forward := Some(e.v));
      }
      return false;
    }

    /**
     * Lines 164-192, one block `Lk`, assigned field by field so that a raise
     * keeps the fields read before it; `TakePhase` states the outcome.
     */
    method ReadPhase(k: Line, pv: map<string, Json>) returns (raised: bool)
      modifies this`store
      ensures Outcome(store, raised) == TakePhase(old(store), k, pv, cfg)
    {
      var key := LineKey(k);
      if key !in pv {
        return false;
      }
      var has := Contains(pv[key], "power");
      if has.Raised? {
        return true;
      }
      if !has.v {
        return false;
      }
      if !pv[key].Object? {
        return true;
      }
      var f := pv[key].fields;
      var p := ToFloat(f["power"], cfg.parseFloat);
      if p.Raised? {
        return true;
      }
      var ph := store.PhaseOf(k).(power := Some(p.v));
      store := store.WithPhase(k, ph);
      var i := if "current" in f then ToFloat(f["current"], cfg.parseFloat) else Div(p.v, cfg.nominalVoltage);
      if i.Raised? {
        return true;
      }
      ph := ph.(current := Some(i.v));
      store := store.WithPhase(k, ph);
      var v := FloatOr(f, "voltage", cfg.nominalVoltage, cfg.parseFloat);
      if v.Raised? {
        return true;
      }
      ph := ph.(voltage := Some(v.v));
      store := store.WithPhase(k, ph);
      var hz := FloatOr(f, "frequency", cfg.nominalFrequency, cfg.parseFloat);
      if hz.Raised? {
        return true;
      }
      ph := ph.(frequency := Some(hz.v));
      store := store.WithPhase(k, ph);
      var pf := FloatIfPresent(f, "power_factor", cfg.parseFloat);
      if pf.Raised? {
        return true;
      }
      ph := ph.(powerFactor := pf.v);
      store := store.WithPhase(k, ph);
      if "energy_forward" in f {
        var e := ToFloat(f["energy_forward"], cfg.parseFloat);
        if e.Raised? {
          return true;
        }
        store := store.WithPhase(k, ph.(forward := Some(e.v)));
      }
      return false;
    }

    /** Lines 152-192: the aggregate, then L1, L2, L3 until one raises, as `TakeGeneric`. */
    method ReadGeneric(pv: map<string, Json>) returns (raised: bool)
      requires "power" in pv
      modifies this`store
      ensures Outcome(store, raised) == TakeGeneric(old(store), pv, cfg)
    {
      raised := ReadAggregate(pv);
      if raised {
        return;
      }
      raised := ReadPhase(L1, pv);
      if raised {
        return;
      }
      raised := ReadPhase(L2, pv);
      if raised {
        return;
      }
      raised := ReadPhase(L3, pv);
    }

    /** Lines 197-213, one `power_Lk` value, assigned in the source's order, as `TasmotaPhase`. */
    method ReadTasmotaPhase(k: Line, x: Json) returns (raised: bool)
      modifies this`store
      ensures Outcome(store, raised) == TasmotaPhase(old(store), k, x, cfg)
    {
      var p := ToFloat(x, cfg.parseFloat);
      if p.Raised? {
        return true;
      }
      var ph := store.PhaseOf(k).(power := Some(p.v), voltage := Some(cfg.nominalVoltage));
      store := store.WithPhase(k, ph);
      var i := Div(p.v, cfg.nominalVoltage);
      if i.Raised? {
        return true;
      }
      store := store.WithPhase(k, ph.(current := Some(i.v), frequency := Some(cfg.nominalFrequency), forward := None));
      return false;
    }

    /** Lines 196-213: the first `power_Lk` present, as `TakeTasmota`. */
    method ReadTasmota(pv: map<string, Json>) returns (raised: bool)
      modifies this`store
      ensures Outcome(store, raised) == TakeTasmota(old(store), pv, cfg)
    {
      if "power_L1" in pv {
        raised := ReadTasmotaPhase(L1, pv["power_L1"]);
      } else if "power_L2" in pv {
        raised := ReadTasmotaPhase(L2, pv["power_L2"]);
      } else if "power_L3" in pv {
        raised := ReadTasmotaPhase(L3, pv["power_L3"]);
      } else {
        raised := false;
      }
    }

    /** Lines 218-246, one assignment at a time, as `TakeFlat`. */
    method ReadFlat(doc: Json) returns (raised: bool)
      modifies this`store
      ensures Outcome(store, raised) == TakeFlat(old(store), doc, cfg)
    {
      if !doc.Object? {
        return true;
      }
      var f := doc.fields;
      var p := FloatOr(f, "apower", 0.0, cfg.parseFloat);
      if p.Raised? {
        return true;
      }
      var above := p.v > cfg.standbyPower;
      store := store.(power := if above then p.v else 0.0);
      var fallback := Div(store.power, cfg.nominalVoltage);
      if fallback.Raised? {
        return true;
      }
      var i := FloatOr(f, "current", fallback.v, cfg.parseFloat);
      if i.Raised? {
        return true;
      }
      store := store.(current := if above then i.v else 0.0);
      var v := FloatOr(f, "voltage", cfg.nominalVoltage, cfg.parseFloat);
      if v.Raised? {
        return true;
      }
      store := store.(voltage := v.v);
      var e := FlatEnergy(f, cfg.parseFloat);
      if e.Raised? {
        return true;
      }
      store := store.(forward := e.v);
      var l1 := store.l1.(power := Some(store.power), current := Some(store.current), voltage := Some(store.voltage));
      store := store.(l1 := l1);
      var hz := FloatOr(f, "freq", cfg.nominalFrequency, cfg.parseFloat);
      if hz.Raised? {
        return true;
      }
      store := store.(l1 := l1.(frequency := Some(hz.v)));
      var pf := FloatIfPresent(f, "pf", cfg.parseFloat);
      if pf.Raised? {
        return true;
      }
      store := store.(l1 := l1.(frequency := Some(hz.v), powerFactor := pf.v, forward := store.forward));
      store := store.(l2 := Cleared(store.l2), l3 := Cleared(store.l3));
      return false;
    }

    /** One assignment to a value path, extending the record of writes since `base`. */
    method Put(w: Write, ghost base: Paths, ghost done: seq<Write>)
      requires paths == Apply(base, done)
      modifies this`paths, this`log
      ensures paths == Apply(base, done + [w]) && log == old(log) + [w]
    {
      ApplySnoc(base, done, w);
      paths := paths[w.path := w.value];
      log := log + [w];
    }

    /** Lines 332-335. */
    method PutAggregate()
      modifies this`paths, this`log
      ensures paths == Apply(old(paths), AggregateWrites(store, cfg.round))
      ensures log == old(log) + AggregateWrites(store, cfg.round)
    {
      ghost var base := paths;
      ghost var done: seq<Write> := [];
      var w := Write(Ac(Power), Some(cfg.round(store.power, 2)));
      Put(w, base, done);
      done := done + [w];
      w := Write(Ac(Current), Some(cfg.round(store.current, 2)));
      Put(w, base, done);
      done := done + [w];
      w := Write(Ac(Voltage), Some(cfg.round(store.voltage, 2)));
      Put(w, base, done);
      done := done + [w];
      w := Write(Ac(EnergyForward), Rounded(store.forward, 2, cfg.round));
      Put(w, base, done);
      done := done + [w];
      assert done == AggregateWrites(store, cfg.round);
    }

    /** Lines 338-343, 352-366: the six readings of phase `k`. */
    method PutPhase(k: Line, p: Phase)
      modifies this`paths, this`log
      ensures paths == Apply(old(paths), PhaseWrites(k, p, cfg.round))
      ensures log == old(log) + PhaseWrites(k, p, cfg.round)
    {
      ghost var base := paths;
      ghost var done: seq<Write> := [];
      var w := Write(AcLine(k, Power), Rounded(p.power, 2, cfg.round));
      Put(w, base, done);
      done := done + [w];
      w := Write(AcLine(k, Current), Rounded(p.current, 2, cfg.round));
      Put(w, base, done);
      done := done + [w];
      w := Write(AcLine(k, Voltage), Rounded(p.voltage, 2, cfg.round));
      Put(w, base, done);
      done := done + [w];
      w := Write(AcLine(k, Frequency), Rounded(p.frequency, 2, cfg.round));
      Put(w, base, done);
      done := done + [w];
      w := Write(AcLine(k, PowerFactor), Rounded(p.powerFactor, 3, cfg.round));
      Put(w, base, done);
      done := done + [w];
      w := Write(AcLine(k, EnergyForward), Rounded(p.forward, 2, cfg.round));
      Put(w, base, done);
      done := done + [w];
      assert done == PhaseWrites(k, p, cfg.round);
    }

    /** Lines 346-350: L1 mirrors the aggregate. */
    method PutMirror()
      modifies this`paths, this`log
      ensures paths == Apply(old(paths), MirrorWrites(store, cfg.round))
      ensures log == old(log) + MirrorWrites(store, cfg.round)
    {
      ghost var base := paths;
      ghost var done: seq<Write> := [];
      var w := Write(AcLine(L1, Power), Some(cfg.round(store.power, 2)));
      Put(w, base, done);
      done := done + [w];
      w := Write(AcLine(L1, Current), Some(cfg.round(store.current, 2)));
      Put(w, base, done);
      done := done + [w];
      w := Write(AcLine(L1, Voltage), Some(cfg.round(store.voltage, 2)));
      Put(w, base, done);
      done := done + [w];
      w := Write(AcLine(L1, Frequency), None);
      Put(w, base, done);
      done := done + [w];
      w := Write(AcLine(L1, EnergyForward), Rounded(store.forward, 2, cfg.round));
      Put(w, base, done);
      done := done + [w];
      assert done == MirrorWrites(store, cfg.round);
    }

    /** Lines 337-350: phase L1, or the aggregate mirrored onto it when no phase has a reading. */
    method PutL1()
      modifies this`paths, this`log
      ensures paths == Apply(old(paths), L1Writes(store, cfg.round))
      ensures log == old(log) + L1Writes(store, cfg.round)
    {
      if store.l1.power.Some? {
        PutPhase(L1, store.l1);
      } else if store.l2.power.None? && store.l3.power.None? {
        PutMirror();
      }
    }

    /** Lines 352-366: phase `k` when it has a reading. */
    method PutLine(k: Line)
      modifies this`paths, this`log
      ensures paths == Apply(old(paths), LineWrites(k, store, cfg.round))
      ensures log == old(log) + LineWrites(k, store, cfg.round)
    {
      if store.PhaseOf(k).power.Some? {
        PutPhase(k, store.PhaseOf(k));
      }
    }

    /** Lines 337-366: the assignments of the three phases, L1 first. */
    method PutPhases()
      modifies this`paths, this`log
      ensures paths == Apply(old(paths), L1Writes(store, cfg.round) + LineWrites(L2, store, cfg.round)
                                         + LineWrites(L3, store, cfg.round))
      ensures log == old(log) + L1Writes(store, cfg.round) + LineWrites(L2, store, cfg.round)
                     + LineWrites(L3, store, cfg.round)
    {
      ghost var l1 := L1Writes(store, cfg.round);
      ghost var l2 := LineWrites(L2, store, cfg.round);
      PutL1();
      PutLine(L2);
      ApplyAppend(old(paths), l1, l2);
      PutLine(L3);
      ApplyAppend(old(paths), l1 + l2, LineWrites(L3, store, cfg.round));
    }

    /** Lines 330-366: every reading assignment of a publishing tick. */
    method PutReadings()
      modifies this`paths, this`log
      ensures paths == Apply(old(paths), PublishWrites(store, cfg.round))
      ensures log == old(log) + PublishWrites(store, cfg.round)
    {
      ghost var agg := AggregateWrites(store, cfg.round);
      ghost var phases := L1Writes(store, cfg.round) + LineWrites(L2, store, cfg.round) + LineWrites(L3, store, cfg.round);
      ghost var l2 := LineWrites(L2, store, cfg.round);
      Regroup(old(log), agg, L1Writes(store, cfg.round), l2, LineWrites(L3, store, cfg.round));
      PutAggregate();
      PutPhases();
      ApplyAppend(old(paths), agg, phases);
    }

    /** Lines 330-386: publish the readings, then the status code, and mark the data as published. */
    method Publish()
      modifies this`paths, this`log, this`statusCode, this`lastUpdated
      ensures paths == Apply(old(paths), PublishWrites(store, cfg.round))
      ensures statusCode == NextStatus(cfg.round(store.power, 2), old(statusCode))
      ensures log == old(log) + PublishWrites(store, cfg.round) + StatusWrites(cfg.round(store.power, 2), old(statusCode))
      ensures lastUpdated == lastChanged
      ensures State() == Published(old(State()), cfg)
    {
      ghost var before := paths;
      PutReadings();
      AggregatePublished(before, store, cfg.round);
      // lines 378-384 compare the power just published
      var shown := paths[Ac(Power)].value;
      if shown >= 10.0 {
        if statusCode != 7 {
          statusCode := 7;
          log := log + [Write(StatusCode, Some(7.0))];
        }
      } else {
        if statusCode != 8 {
          statusCode := 8;
          log := log + [Write(StatusCode, Some(8.0))];
        }
      }
      lastUpdated := lastChanged;
    }

    /**
     * Lines 324-398: the once-a-second publish callback at second `now`.
     */
    method Tick(now: int)
      requires Valid()
      modifies this
      ensures Valid()
      ensures State() == Ticked(old(State()), now, cfg)
    {
      if terminated {
        return;
      }
      if lastChanged != lastUpdated {
        ApplyKeeps(paths, PublishWrites(store, cfg.round));
        Publish();
      }
      if cfg.timeout != 0 && now - lastChanged > cfg.timeout {
        terminated := true;
        return;
      }
      var index := updateIndex + 1;
      if index > 255 {
        index := 0;
      }
      updateIndex := index;
      log := log + [Write(UpdateIndex, Some(index as real))];
    }

    /** The messages handled while the startup loop sleeps. */
    method DeliverBatch(ms: seq<Message>)
      requires Valid()
      modifies this
      ensures Valid()
      ensures State() == DeliverAll(old(State()), ms, cfg)
    {
      for j := 0 to |ms|
        invariant Valid()
        invariant State() == DeliverAll(old(State()), ms[..j], cfg)
      {
        assert ms[..j + 1][..j] == ms[..j];
        OnMessage(ms[j]);
      }
      assert ms[..|ms|] == ms;
    }

    /**
     * Lines 446-459: wait for the first reading. `inbox[i]` holds the
     * messages handled during the `i`-th five-second sleep.
     */
    method StartupWait(inbox: seq<seq<Message>>) returns (w: WaitResult)
      requires Valid()
      modifies this
      ensures Valid()
      ensures WaitEnd(w, State()) == Wait(old(State()), inbox, 0, cfg)
    {
      var i := 0;
      while store.power == Unset
        invariant 0 <= i <= |inbox|
        invariant Valid()
        invariant Wait(State(), inbox, i, cfg) == Wait(old(State()), inbox, 0, cfg)
        decreases |inbox| - i
      {
        if cfg.timeout != 0 && cfg.timeout <= i * 5 {
          terminated := true;
          return TimedOut(i);
        }
        if i == |inbox| {
          return Pending(i);
        }
        DeliverBatch(inbox[i]);
        i := i + 1;
      }
      return Ready(i);
    }
  }
}
