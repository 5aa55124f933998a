/**
 * The whole driver as a state machine: the stored readings, the freshness
 * clock (`last_changed`, `last_updated`), the bus, and whether the process
 * has exited. Message handling and publish ticks are atomic steps that may
 * interleave in any order; `Delivered`, `Ticked` and `Wait` give the state
 * after each.
 */
module DriverState {
  import opened Optional
  import opened PyJson
  import opened Readings
  import opened Normaliser
  import opened Publisher

  /** An MQTT payload: empty, not JSON (`json.loads` raises), or a decoded document. */
  datatype Payload = Empty | Malformed | Decoded(doc: Json)

  /** A message on `topic`, handled at second `at` (`int(time())`). */
  datatype Message = Message(topic: string, payload: Payload, at: int)

  datatype Driver = Driver(
    store: Store,
    lastChanged: int,
    lastUpdated: int,
    paths: Paths,
    statusCode: int,
    updateIndex: int,
    log: seq<Write>,
    terminated: bool)

  /** Lines 481-484, 493-520: the value paths the service registers, with their initial values. */
  function InitialPaths(): (m: Paths)
    ensures forall k, q :: AcLine(k, q) in m && m[AcLine(k, q)] == None
    ensures Ac(Power) in m && Ac(Current) in m && Ac(Voltage) in m && Ac(EnergyForward) in m
  {
    var registered := set k: Line, q: Quantity | true :: AcLine(k, q);
    var lines := map p | p in registered :: None;
    lines[Ac(Power) := Some(0.0)][Ac(Current) := Some(0.0)][Ac(Voltage) := Some(0.0)][Ac(EnergyForward) := None]
  }

  /** Lines 74-103 and 306-308, 488: the state before the first message. */
  function Initial(): (d: Driver)
    ensures d.store.power == Unset && forall k :: d.store.PhaseOf(k) == Absent
    ensures d.lastChanged == d.lastUpdated
    ensures d.paths == InitialPaths() && d.statusCode == 0 && d.updateIndex == 0
    ensures d.log == [] && !d.terminated
  {
    Driver(InitialStore, 0, 0, InitialPaths(), 0, 0, [], false)
  }

  /**
   * Lines 137-269: one message. A message on another topic, an empty payload
   * and one `json.loads` rejects change nothing. Any decoded document sets
   * `last_changed` before its shape is examined, so it refreshes the
   * staleness clock even when the shape is not recognised or reading it
   * raises. Nothing happens once the process has exited.
   */
  function Delivered(d: Driver, m: Message, c: Settings): (r: Driver)
    ensures d.terminated || m.topic != c.topic || !m.payload.Decoded? ==> r == d
    ensures !d.terminated && m.topic == c.topic && m.payload.Decoded? ==>
      r == d.(store := Normalise(d.store, m.payload.doc, c).store, lastChanged := m.at)
  {
    if d.terminated || m.topic != c.topic then d
    else match m.payload
      case Empty => d
      case Malformed => d
      case Decoded(doc) => d.(store := Normalise(d.store, doc, c).store, lastChanged := m.at)
  }

  /** Messages handled one after another. */
  function DeliverAll(d: Driver, ms: seq<Message>, c: Settings): Driver
    decreases |ms|
  {
    if ms == [] then d else Delivered(DeliverAll(d, ms[..|ms| - 1], c), ms[|ms| - 1], c)
  }

  /**
   * Lines 324-398: one publish tick at second `now`. When `last_changed`
   * differs from `last_updated` the tick assigns the readings and, only if it
   * changes, the status code, and then marks the data as published. It then
   * checks staleness, after publishing: a stale tick exits the process before
   * UpdateIndex is advanced; any other tick advances UpdateIndex, wrapping
   * 255 to 0.
   */
  function Ticked(d: Driver, now: int, c: Settings): (r: Driver)
    ensures d.terminated ==> r == d
    ensures r.store == d.store && r.lastChanged == d.lastChanged
    ensures !d.terminated ==> r.lastUpdated == r.lastChanged
    ensures !d.terminated ==> (r.terminated <==> Stale(c.timeout, now, d.lastChanged))
    ensures c.timeout == 0 ==> r.terminated == d.terminated
    ensures d.lastChanged == d.lastUpdated ==> r.paths == d.paths && r.statusCode == d.statusCode
    ensures !d.terminated && d.lastChanged != d.lastUpdated ==>
      && r.paths == Apply(d.paths, PublishWrites(d.store, c.round))
      && r.statusCode == (if c.round(d.store.power, 2) >= 10.0 then 7 else 8)
    ensures r.terminated ==> r.updateIndex == d.updateIndex
    ensures !r.terminated && 0 <= d.updateIndex <= 255 ==> r.updateIndex == (d.updateIndex + 1) % 256
    ensures |r.log| >= |d.log| && r.log[..|d.log|] == d.log
  {
    if d.terminated then d else
    var d1 := if d.lastChanged != d.lastUpdated then Published(d, c) else d;
    if Stale(c.timeout, now, d.lastChanged) then d1.(terminated := true)
    else
      var n := NextIndex(d.updateIndex);
      d1.(updateIndex := n, log := d1.log + [Write(UpdateIndex, Some(n as real))])
  }

  /**
   * Lines 330-386: the publishing half of a tick. The readings are assigned,
   * then the status follows the power just published, and the data is marked
   * as published.
   */
  function Published(d: Driver, c: Settings): (r: Driver)
    ensures r.store == d.store && r.lastChanged == d.lastChanged && r.lastUpdated == d.lastChanged
    ensures r.paths == Apply(d.paths, PublishWrites(d.store, c.round))
    ensures r.statusCode == (if c.round(d.store.power, 2) >= 10.0 then 7 else 8)
    ensures r.updateIndex == d.updateIndex && r.terminated == d.terminated
  {
    var ws := PublishWrites(d.store, c.round);
    // line 378 reads back the power just published
    var shown := c.round(d.store.power, 2);
    d.(paths := Apply(d.paths, ws),
       statusCode := NextStatus(shown, d.statusCode),
       lastUpdated := d.lastChanged,
       log := d.log + ws + StatusWrites(shown, d.statusCode))
  }

  /** Ticks one after another. */
  function TickAll(d: Driver, nows: seq<int>, c: Settings): Driver
    decreases |nows|
  {
    if nows == [] then d else Ticked(TickAll(d, nows[..|nows| - 1], c), nows[|nows| - 1], c)
  }

  /**
   * A tick with nothing new since the previous one assigns no reading and no
   * status: its only write is the UpdateIndex heartbeat.
   */
  lemma QuietSecondTick(d: Driver, t1: int, t2: int, c: Settings)
    requires !d.terminated
    ensures var d1 := Ticked(d, t1, c); var d2 := Ticked(d1, t2, c);
      && d2.paths == d1.paths && d2.statusCode == d1.statusCode && d2.store == d1.store
      && d2.log == d1.log + (if d2.terminated || d1.terminated then []
                             else [Write(UpdateIndex, Some(d2.updateIndex as real))])
  {
  }

  /** Lines 389-391, 455-456: once the process has exited, no message and no tick changes anything. */
  lemma {:induction false} ExitIsFinal(d: Driver, ms: seq<Message>, nows: seq<int>, c: Settings)
    requires d.terminated
    ensures DeliverAll(d, ms, c) == d && TickAll(d, nows, c) == d
    decreases |ms| + |nows|
  {
    if ms != [] {
      ExitIsFinal(d, ms[..|ms| - 1], [], c);
    }
    if nows != [] {
      ExitIsFinal(d, [], nows[..|nows| - 1], c);
    }
  }

  /**
   * Lines 389-391: with the timeout enabled, the first tick more than
   * `timeout` seconds after the last message exits the process without
   * advancing UpdateIndex, and nothing happens after it.
   */
  lemma SilenceIsFatal(d: Driver, now: int, ms: seq<Message>, nows: seq<int>, c: Settings)
    requires !d.terminated && c.timeout != 0 && now - d.lastChanged > c.timeout
    ensures var e := Ticked(d, now, c);
      && e.terminated && e.updateIndex == d.updateIndex
      && DeliverAll(e, ms, c) == e && TickAll(e, nows, c) == e
  {
    ExitIsFinal(Ticked(d, now, c), ms, nows, c);
  }

  /**
   * Lines 393-397: while no tick is stale, every tick advances UpdateIndex by
   * one modulo 256 and nothing exits.
   */
  lemma {:induction false} TicksAdvanceIndex(d: Driver, nows: seq<int>, c: Settings)
    requires !d.terminated && 0 <= d.updateIndex <= 255
    requires forall i :: 0 <= i < |nows| ==> !Stale(c.timeout, nows[i], d.lastChanged)
    ensures !TickAll(d, nows, c).terminated
    ensures TickAll(d, nows, c).lastChanged == d.lastChanged
    ensures TickAll(d, nows, c).updateIndex == IndexAfter(d.updateIndex, |nows|)
    decreases |nows|
  {
    if nows != [] {
      var init := nows[..|nows| - 1];
      forall i | 0 <= i < |init| ensures !Stale(c.timeout, init[i], d.lastChanged) {
        assert init[i] == nows[i];
      }
      TicksAdvanceIndex(d, init, c);
      IndexAfterIsModular(d.updateIndex, |init|);
    }
  }

  /** After 256 ticks that are not stale, UpdateIndex is back at its starting value. */
  lemma IndexWrapsAfter256Ticks(d: Driver, nows: seq<int>, c: Settings)
    requires !d.terminated && 0 <= d.updateIndex <= 255 && |nows| == 256
    requires forall i :: 0 <= i < |nows| ==> !Stale(c.timeout, nows[i], d.lastChanged)
    ensures TickAll(d, nows, c).updateIndex == d.updateIndex
  {
    TicksAdvanceIndex(d, nows, c);
    IndexWrapLaw(d.updateIndex);
  }

  /**
   * Lines 150, 330: `last_changed` has a resolution of one second, so a
   * message handled in the same second as the data last published is not
   * published by the next tick, although it changed the readings.
   */
  lemma SameSecondMessageNotPublished(d: Driver, m: Message, now: int, c: Settings)
    requires !d.terminated && d.lastUpdated == d.lastChanged
    requires m.topic == c.topic && m.payload.Decoded? && m.at == d.lastChanged
    ensures var e := Ticked(Delivered(d, m, c), now, c);
      e.paths == d.paths && e.statusCode == d.statusCode
  {
  }

  /**
   * Lines 150, 330-386: a decoded message handled in any other second is
   * published by the next tick, with the status following the new power.
   */
  lemma FreshMessagePublished(d: Driver, m: Message, now: int, c: Settings)
    requires !d.terminated && m.topic == c.topic && m.payload.Decoded? && m.at != d.lastUpdated
    ensures var s := Normalise(d.store, m.payload.doc, c).store;
      var e := Ticked(Delivered(d, m, c), now, c);
      && e.paths == Apply(d.paths, PublishWrites(s, c.round))
      && Ac(Power) in e.paths && e.paths[Ac(Power)] == Some(c.round(s.power, 2))
      && e.statusCode == (if c.round(s.power, 2) >= 10.0 then 7 else 8)
      && e.lastUpdated == m.at
  {
    var s := Normalise(d.store, m.payload.doc, c).store;
    AggregatePublished(d.paths, s, c.round);
  }

  /**
   * Lines 147-150: `{}` is not an empty payload; it decodes, refreshes the
   * staleness clock and, having neither `pv` nor `apower`, changes no reading.
   */
  lemma EmptyObjectRefreshesClock(d: Driver, at: int, c: Settings)
    requires !d.terminated
    ensures Delivered(d, Message(c.topic, Decoded(Object(map[])), at), c) == d.(lastChanged := at)
  {
  }

  /** Line 454: the first poll `i` at which `timeout <= i * 5`. */
  function Deadline(timeout: int): (r: nat)
    ensures timeout <= r * 5
    ensures r > 0 ==> (r - 1) * 5 < timeout
  {
    if timeout <= 0 then 0 else (timeout + 4) / 5
  }

  /**
   * How the startup wait ends: the first reading arrived before poll
   * `polls`, the timeout expired at poll `polls`, or the messages the model
   * was given ran out while still waiting.
   */
  datatype WaitResult = Ready(polls: nat) | TimedOut(polls: nat) | Pending(polls: nat)

  datatype WaitEnd = WaitEnd(result: WaitResult, driver: Driver)

  /**
   * Lines 446-459, from poll `i` on: while `pv_power` is still unset, exit
   * when the timeout is enabled and `timeout <= i * 5`, else sleep, during
   * which the messages `inbox[i]` are handled, and poll again.
   */
  function Wait(d: Driver, inbox: seq<seq<Message>>, i: nat, c: Settings): (r: WaitEnd)
    requires i <= |inbox|
    ensures i <= r.result.polls <= |inbox|
    ensures r.result.Ready? ==> r.driver.store.power != Unset
    ensures r.result.Pending? ==> r.result.polls == |inbox| && r.driver.store.power == Unset
    decreases |inbox| - i
  {
    if d.store.power != Unset then WaitEnd(Ready(i), d)
    else if c.timeout != 0 && c.timeout <= i * 5 then WaitEnd(TimedOut(i), d.(terminated := true))
    else if i == |inbox| then WaitEnd(Pending(i), d)
    else Wait(DeliverAll(d, inbox[i], c), inbox, i + 1, c)
  }

  /**
   * Lines 447-456: the wait ends ready only with `pv_power` set, and exits
   * only with `pv_power` still unset and `timeout <= polls * 5`.
   */
  lemma {:induction false} WaitEnds(d: Driver, inbox: seq<seq<Message>>, i: nat, c: Settings)
    requires i <= |inbox|
    ensures var e := Wait(d, inbox, i, c);
      && i <= e.result.polls <= |inbox|
      && (e.result.Ready? ==> e.driver.store.power != Unset && !e.driver.terminated == !d.terminated)
      && (e.result.TimedOut? ==> e.driver.store.power == Unset && e.driver.terminated
                                 && c.timeout != 0 && c.timeout <= e.result.polls * 5)
      && (e.result.Pending? ==> e.driver.store.power == Unset && e.result.polls == |inbox|)
    decreases |inbox| - i
  {
    if d.store.power == Unset && !(c.timeout != 0 && c.timeout <= i * 5) && i < |inbox| {
      var next := DeliverAll(d, inbox[i], c);
      WaitEnds(next, inbox, i + 1, c);
      if !Wait(next, inbox, i + 1, c).result.TimedOut? {
        DeliveriesKeepExit(d, inbox[i], c);
      }
    }
  }

  /** Handling messages never changes whether the process has exited. */
  lemma {:induction false} DeliveriesKeepExit(d: Driver, ms: seq<Message>, c: Settings)
    ensures DeliverAll(d, ms, c).terminated == d.terminated
    decreases |ms|
  {
    if ms != [] {
      DeliveriesKeepExit(d, ms[..|ms| - 1], c);
    }
  }

  /** Line 454: with the timeout disabled the startup wait never exits the process. */
  lemma {:induction false} DisabledTimeoutNeverExits(d: Driver, inbox: seq<seq<Message>>, i: nat, c: Settings)
    requires i <= |inbox| && c.timeout == 0
    ensures !Wait(d, inbox, i, c).result.TimedOut?
    decreases |inbox| - i
  {
    if d.store.power == Unset && i < |inbox| {
      DisabledTimeoutNeverExits(DeliverAll(d, inbox[i], c), inbox, i + 1, c);
    }
  }

  /**
   * Lines 453-456: with the timeout enabled, the wait exits at exactly poll
   * `Deadline(timeout)` (after that many 5-second sleeps) unless the first
   * reading came before, and it never polls past that deadline.
   */
  lemma {:induction false} WaitExitsAtDeadline(d: Driver, inbox: seq<seq<Message>>, i: nat, c: Settings)
    requires i <= |inbox| && c.timeout != 0 && i <= Deadline(c.timeout)
    ensures Wait(d, inbox, i, c).result.polls <= Deadline(c.timeout)
    ensures Wait(d, inbox, i, c).result.TimedOut? ==> Wait(d, inbox, i, c).result.polls == Deadline(c.timeout)
    decreases |inbox| - i
  {
    if d.store.power == Unset && !(c.timeout <= i * 5) && i < |inbox| {
      WaitExitsAtDeadline(DeliverAll(d, inbox[i], c), inbox, i + 1, c);
    }
  }

  /**
   * Lines 446-456: when no message arrives, the startup wait exits the
   * process at exactly poll `Deadline(timeout)`.
   */
  lemma {:induction false} SilentStartupExits(d: Driver, inbox: seq<seq<Message>>, i: nat, c: Settings)
    requires d.store.power == Unset && c.timeout != 0
    requires i <= Deadline(c.timeout) <= |inbox|
    requires forall j :: i <= j < |inbox| ==> inbox[j] == []
    ensures Wait(d, inbox, i, c) == WaitEnd(TimedOut(Deadline(c.timeout)), d.(terminated := true))
    decreases |inbox| - i
  {
    if !(c.timeout <= i * 5) {
      assert DeliverAll(d, inbox[i], c) == d;
      SilentStartupExits(d, inbox, i + 1, c);
    }
  }

  /**
   * Lines 378-384: a tick assigns `/StatusCode` exactly when the status it
   * computes differs from the one shown.
   */
  lemma StatusWrittenOnlyOnChange(d: Driver, now: int, c: Settings)
    requires !d.terminated
    ensures var r := Ticked(d, now, c);
      Writes(r.log[|d.log|..], StatusCode) <==> r.statusCode != d.statusCode
  {
    var r := Ticked(d, now, c);
    var publish := d.lastChanged != d.lastUpdated;
    var shown := c.round(d.store.power, 2);
    var ws := if publish then PublishWrites(d.store, c.round) else [];
    var sw := if publish then StatusWrites(shown, d.statusCode) else [];
    var tail := r.log[|d.log|..];
    var idx := if r.terminated then [] else [Write(UpdateIndex, Some(r.updateIndex as real))];
    assert tail == ws + sw + idx;
    if r.statusCode != d.statusCode {
      assert tail[|ws|].path == StatusCode;
    } else {
      assert sw == [];
      forall i | 0 <= i < |tail| ensures tail[i].path != StatusCode {
        if i < |ws| {
          assert tail[i] == ws[i];
        }
      }
    }
  }

  /** Lines 369-374: the debug line of a phase formats its voltage and current whenever its power is non-zero. */
  predicate DebugLineFails(p: Phase)
  {
    p.power.Some? && p.power.value != 0.0 && (p.voltage.None? || p.current.None?)
  }

  predicate DebugLinesFail(s: Store)
  {
    DebugLineFails(s.l1) || DebugLineFails(s.l2) || DebugLineFails(s.l3)
  }

  /**
   * Lines 324-398 as written, debug lines included: formatting None with
   * `{:.1f}` raises TypeError, which leaves `_update` after the readings
   * are assigned and before the status, `last_updated`, the staleness check
   * and UpdateIndex. The debug lines run only on a publishing tick, so a
   * tick with nothing new is `Ticked` whatever is stored. `Ticked` is this
   * tick without the failing debug lines.
   */
  function TickedAsWritten(d: Driver, now: int, c: Settings): (r: Driver)
    ensures !(!d.terminated && d.lastChanged != d.lastUpdated && DebugLinesFail(d.store)) ==> r == Ticked(d, now, c)
    ensures !d.terminated && d.lastChanged != d.lastUpdated && DebugLinesFail(d.store) ==>
      && r.paths == Apply(d.paths, PublishWrites(d.store, c.round))
      && !r.terminated && r.lastUpdated == d.lastUpdated
      && r.statusCode == d.statusCode && r.updateIndex == d.updateIndex
  {
    if !d.terminated && d.lastChanged != d.lastUpdated && DebugLinesFail(d.store) then
      var ws := PublishWrites(d.store, c.round);
      d.(paths := Apply(d.paths, ws), log := d.log + ws)
    else Ticked(d, now, c)
  }

  function TickAllAsWritten(d: Driver, nows: seq<int>, c: Settings): Driver
    decreases |nows|
  {
    if nows == [] then d else TickedAsWritten(TickAllAsWritten(d, nows[..|nows| - 1], c), nows[|nows| - 1], c)
  }

  /**
   * As written, once a phase has a non-zero power but no voltage or current
   * and no message arrives, no tick completes: the process never exits on
   * the timeout, UpdateIndex stops, and the readings stay unpublished-marked.
   */
  lemma {:induction false} IncompletePhaseStallsTicks(d: Driver, nows: seq<int>, c: Settings)
    requires !d.terminated && d.lastChanged != d.lastUpdated && DebugLinesFail(d.store)
    ensures var e := TickAllAsWritten(d, nows, c);
      && !e.terminated && e.store == d.store && e.lastChanged == d.lastChanged
      && e.lastUpdated == d.lastUpdated && e.updateIndex == d.updateIndex && e.statusCode == d.statusCode
    decreases |nows|
  {
    if nows != [] {
      IncompletePhaseStallsTicks(d, nows[..|nows| - 1], c);
    }
  }

  /**
   * `{"pv": {"power": 100, "L1": {"power": 50, "voltage": null}}}` as the first
   * message stores L1 power 50 with no voltage (line 168 raises), and after
   * it the feed falls silent. As written no later tick ever exits; the tick
   * that is meant to exits once the timeout has passed.
   */
  lemma NullPhaseVoltageBlocksTimeout(c: Settings, nows: seq<int>)
    requires c.nominalVoltage != 0.0 && c.timeout > 0
    ensures var doc := Object(map["pv" := Object(map["power" := Num(100.0),
                                                     "L1" := Object(map["power" := Num(50.0), "voltage" := Null])])]);
      var d := Delivered(Initial(), Message(c.topic, Decoded(doc), 1), c);
      && DebugLinesFail(d.store)
      && !TickAllAsWritten(d, nows, c).terminated
      && Ticked(d, c.timeout + 2, c).terminated
  {
    var block := map["power" := Num(50.0), "voltage" := Null];
    var pv := map["power" := Num(100.0), "L1" := Object(block)];
    var doc := Object(map["pv" := Object(pv)]);
    var d := Delivered(Initial(), Message(c.topic, Decoded(doc), 1), c);
    assert "pv" in doc.fields && "power" in pv;
    assert Consumed(pv, L1) by {
      assert "power" in block;
    }
    assert "L2" !in pv && "L3" !in pv;
    assert BlockRaises(pv, L1, c) by {
      assert "voltage" in block && ToFloat(block["voltage"], c.parseFloat).Raised?;
    }
    assert d.store.l1.power == Some(50.0);
    assert d.store.l1.voltage == None by {
      assert Initial().store.l1 == Absent;
    }
    IncompletePhaseStallsTicks(d, nows, c);
  }
}
