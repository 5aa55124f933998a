/**
 * What the publish tick (`DbusMqttPvService._update`) assigns on the device
 * bus. Every assignment is a `Write`; the path values a tick leaves behind
 * are the old values overwritten by its writes in order (`Apply`).
 */
module Publisher {
  import opened Optional
  import opened Readings

  datatype Quantity = Power | Current | Voltage | Frequency | PowerFactor | EnergyForward

  /** `/Ac/<q>`, `/Ac/<Lk>/<q>`, `/StatusCode`, `/UpdateIndex`. */
  datatype BusPath = Ac(q: Quantity) | AcLine(k: Line, q: Quantity) | StatusCode | UpdateIndex

  datatype Write = Write(path: BusPath, value: Option<real>)

  type Paths = map<BusPath, Option<real>>

  /** The path values after the writes `ws`, in order, on top of `m`. */
  function Apply(m: Paths, ws: seq<Write>): Paths
    decreases |ws|
  {
    if ws == [] then m else Apply(m, ws[..|ws| - 1])[ws[|ws| - 1].path := ws[|ws| - 1].value]
  }

  predicate Writes(ws: seq<Write>, p: BusPath)
  {
    exists i :: 0 <= i < |ws| && ws[i].path == p
  }

  lemma ApplySnoc(m: Paths, ws: seq<Write>, w: Write)
    ensures Apply(m, ws + [w]) == Apply(m, ws)[w.path := w.value]
  {
    assert (ws + [w])[..|ws|] == ws;
  }

  /** Regrouping a batch of writes that is built in four parts. */
  lemma Regroup<T>(x: seq<T>, a: seq<T>, b: seq<T>, c: seq<T>, d: seq<T>)
    ensures x + a + (b + c + d) == x + (a + b + c + d)
    ensures a + (b + c + d) == a + b + c + d
  {
  }

  /** Applying two batches of writes one after the other is applying their concatenation. */
  lemma {:induction false} ApplyAppend(m: Paths, a: seq<Write>, b: seq<Write>)
    ensures Apply(m, a + b) == Apply(Apply(m, a), b)
    decreases |b|
  {
    if b == [] {
      assert a + b == a;
    } else {
      var b' := b[..|b| - 1];
      assert a + b == (a + b') + [b[|b| - 1]];
      assert b == b' + [b[|b| - 1]];
      ApplySnoc(m, a + b', b[|b| - 1]);
      ApplySnoc(Apply(m, a), b', b[|b| - 1]);
      ApplyAppend(m, a, b');
    }
  }

  /** Writes never remove a path. */
  lemma {:induction false} ApplyKeeps(m: Paths, ws: seq<Write>)
    ensures m.Keys <= Apply(m, ws).Keys
    decreases |ws|
  {
    if ws != [] {
      ApplyKeeps(m, ws[..|ws| - 1]);
    }
  }

  /** A path that no write names keeps its value. */
  lemma {:induction false} ApplyElsewhere(m: Paths, ws: seq<Write>, p: BusPath)
    requires !Writes(ws, p)
    ensures p in Apply(m, ws) <==> p in m
    ensures p in m ==> Apply(m, ws)[p] == m[p]
    decreases |ws|
  {
    if ws != [] {
      var init := ws[..|ws| - 1];
      assert !Writes(init, p) by {
        forall i | 0 <= i < |init| ensures init[i].path != p {
          assert init[i] == ws[i];
        }
      }
      ApplyElsewhere(m, init, p);
    }
  }

  /** The last write to a path decides its value. */
  lemma {:induction false} ApplyLast(m: Paths, ws: seq<Write>, i: nat)
    requires i < |ws|
    requires forall j :: i < j < |ws| ==> ws[j].path != ws[i].path
    ensures ws[i].path in Apply(m, ws) && Apply(m, ws)[ws[i].path] == ws[i].value
    decreases |ws|
  {
    if i < |ws| - 1 {
      var init := ws[..|ws| - 1];
      ApplyLast(m, init, i);
    }
  }

  /** `round(x, digits) if x is not None else None`. */
  function Rounded(x: Option<real>, digits: nat, round: (real, nat) -> real): Option<real>
  {
    if x.Some? then Some(round(x.value, digits)) else None
  }

  /** The aggregate reading behind `/Ac/<q>`; the aggregate has no frequency or power factor. */
  function AggregateField(s: Store, q: Quantity): Option<real>
  {
    match q
    case Power => Some(s.power)
    case Current => Some(s.current)
    case Voltage => Some(s.voltage)
    case EnergyForward => s.forward
    case _ => None
  }

  /** The reading of phase `p` behind `/Ac/Lk/<q>`. */
  function PhaseField(p: Phase, q: Quantity): Option<real>
  {
    match q
    case Power => p.power
    case Current => p.current
    case Voltage => p.voltage
    case Frequency => p.frequency
    case PowerFactor => p.powerFactor
    case EnergyForward => p.forward
  }

  /** The power factor is shown with three digits, everything else with two. */
  function Digits(q: Quantity): nat
  {
    if q == PowerFactor then 3 else 2
  }

  /**
   * Lines 332-366: the value a publishing tick shows on a reading path: the
   * rounded aggregate on `/Ac/<q>`; on `/Ac/Lk/<q>` the rounded reading of
   * phase k when it has one, else the rounded aggregate (only L1 is ever
   * mirrored, and its frequency becomes None).
   */
  function Shown(s: Store, path: BusPath, round: (real, nat) -> real): Option<real>
  {
    match path
    case Ac(q) => Rounded(AggregateField(s, q), 2, round)
    case AcLine(k, q) =>
      if s.PhaseOf(k).power.Some? then Rounded(PhaseField(s.PhaseOf(k), q), Digits(q), round)
      else Rounded(AggregateField(s, q), 2, round)
    case _ => None
  }

  /** Lines 332-335. */
  function AggregateWrites(s: Store, round: (real, nat) -> real): (ws: seq<Write>)
    ensures |ws| == 4
    ensures forall i :: 0 <= i < |ws| ==> ws[i].path.Ac? && ws[i].value == Shown(s, ws[i].path, round)
    ensures forall i, j :: 0 <= i < j < |ws| ==> ws[i].path != ws[j].path
  {
    [ Write(Ac(Power), Some(round(s.power, 2))),
      Write(Ac(Current), Some(round(s.current, 2))),
      Write(Ac(Voltage), Some(round(s.voltage, 2))),
      Write(Ac(EnergyForward), Rounded(s.forward, 2, round)) ]
  }

  /** Lines 338-343, 353-358, 361-366. */
  function PhaseWrites(k: Line, p: Phase, round: (real, nat) -> real): (ws: seq<Write>)
    ensures |ws| == 6
    ensures forall i :: 0 <= i < |ws| ==>
      && ws[i].path.AcLine? && ws[i].path.k == k
      && ws[i].value == Rounded(PhaseField(p, ws[i].path.q), Digits(ws[i].path.q), round)
    ensures forall i, j :: 0 <= i < j < |ws| ==> ws[i].path != ws[j].path
  {
    [ Write(AcLine(k, Power), Rounded(p.power, 2, round)),
      Write(AcLine(k, Current), Rounded(p.current, 2, round)),
      Write(AcLine(k, Voltage), Rounded(p.voltage, 2, round)),
      Write(AcLine(k, Frequency), Rounded(p.frequency, 2, round)),
      Write(AcLine(k, PowerFactor), Rounded(p.powerFactor, 3, round)),
      Write(AcLine(k, EnergyForward), Rounded(p.forward, 2, round)) ]
  }

  /** Lines 346-350: the aggregate shown on L1 when no phase has a reading. */
  function MirrorWrites(s: Store, round: (real, nat) -> real): (ws: seq<Write>)
    ensures |ws| == 5
    ensures forall i :: 0 <= i < |ws| ==>
      && ws[i].path.AcLine? && ws[i].path.k == L1 && ws[i].path.q != PowerFactor
      && ws[i].value == Rounded(AggregateField(s, ws[i].path.q), 2, round)
    ensures forall i, j :: 0 <= i < j < |ws| ==> ws[i].path != ws[j].path
  {
    [ Write(AcLine(L1, Power), Some(round(s.power, 2))),
      Write(AcLine(L1, Current), Some(round(s.current, 2))),
      Write(AcLine(L1, Voltage), Some(round(s.voltage, 2))),
      Write(AcLine(L1, Frequency), None),
      Write(AcLine(L1, EnergyForward), Rounded(s.forward, 2, round)) ]
  }

  function L1Writes(s: Store, round: (real, nat) -> real): (ws: seq<Write>)
    ensures |ws| == (if s.l1.power.Some? then 6 else if s.l2.power.None? && s.l3.power.None? then 5 else 0)
    ensures forall i :: 0 <= i < |ws| ==>
      ws[i].path.AcLine? && ws[i].path.k == L1 && ws[i].value == Shown(s, ws[i].path, round)
    ensures forall i :: 0 <= i < |ws| && ws[i].path.q == PowerFactor ==> s.l1.power.Some?
    ensures forall i, j :: 0 <= i < j < |ws| ==> ws[i].path != ws[j].path
  {
    if s.l1.power.Some? then PhaseWrites(L1, s.l1, round)
    else if s.l2.power.None? && s.l3.power.None? then MirrorWrites(s, round)
    else []
  }

  function LineWrites(k: Line, s: Store, round: (real, nat) -> real): (ws: seq<Write>)
    ensures |ws| == (if s.PhaseOf(k).power.Some? then 6 else 0)
    ensures forall i :: 0 <= i < |ws| ==>
      ws[i].path.AcLine? && ws[i].path.k == k && ws[i].value == Shown(s, ws[i].path, round)
    ensures forall i, j :: 0 <= i < j < |ws| ==> ws[i].path != ws[j].path
  {
    if s.PhaseOf(k).power.Some? then PhaseWrites(k, s.PhaseOf(k), round) else []
  }

  /** Lines 332-366: the value paths a publishing tick assigns, in order. */
  function PublishWrites(s: Store, round: (real, nat) -> real): (ws: seq<Write>)
    ensures forall i :: 0 <= i < |ws| ==> ws[i].path.Ac? || ws[i].path.AcLine?
    ensures forall i :: 0 <= i < |ws| ==> ws[i].value == Shown(s, ws[i].path, round)
  {
    AggregateWrites(s, round) + L1Writes(s, round) + LineWrites(L2, s, round) + LineWrites(L3, s, round)
  }

  /** Lines 332-335: every publishing tick shows the aggregate reading, rounded to two digits. */
  lemma AggregatePublished(m: Paths, s: Store, round: (real, nat) -> real)
    ensures var r := Apply(m, PublishWrites(s, round));
      && Ac(Power) in r && r[Ac(Power)] == Some(round(s.power, 2))
      && Ac(Current) in r && r[Ac(Current)] == Some(round(s.current, 2))
      && Ac(Voltage) in r && r[Ac(Voltage)] == Some(round(s.voltage, 2))
      && Ac(EnergyForward) in r && r[Ac(EnergyForward)] == Rounded(s.forward, 2, round)
  {
    var agg := AggregateWrites(s, round);
    var phases := L1Writes(s, round) + LineWrites(L2, s, round) + LineWrites(L3, s, round);
    assert PublishWrites(s, round) == agg + phases;
    ApplyAppend(m, agg, phases);
    var mid := Apply(m, agg);
    ApplyLast(m, agg, 0);
    ApplyLast(m, agg, 1);
    ApplyLast(m, agg, 2);
    ApplyLast(m, agg, 3);
    forall q ensures !Writes(phases, Ac(q)) {
      forall i | 0 <= i < |phases| ensures phases[i].path != Ac(q) {
        assert phases[i].path.AcLine?;
      }
    }
    ApplyElsewhere(mid, phases, Ac(Power));
    ApplyElsewhere(mid, phases, Ac(Current));
    ApplyElsewhere(mid, phases, Ac(Voltage));
    ApplyElsewhere(mid, phases, Ac(EnergyForward));
  }

  /**
   * Lines 344-350: with no phase reading, L1 shows the aggregate power,
   * current, voltage and forward, its frequency becomes None, its power
   * factor and every L2 and L3 path keep their values.
   */
  lemma MirroredWhenNoPhase(m: Paths, s: Store, round: (real, nat) -> real)
    requires s.l1.power.None? && s.l2.power.None? && s.l3.power.None?
    ensures var r := Apply(m, PublishWrites(s, round));
      && AcLine(L1, Power) in r && r[AcLine(L1, Power)] == Some(round(s.power, 2))
      && AcLine(L1, Current) in r && r[AcLine(L1, Current)] == Some(round(s.current, 2))
      && AcLine(L1, Voltage) in r && r[AcLine(L1, Voltage)] == Some(round(s.voltage, 2))
      && AcLine(L1, Frequency) in r && r[AcLine(L1, Frequency)] == None
      && AcLine(L1, EnergyForward) in r && r[AcLine(L1, EnergyForward)] == Rounded(s.forward, 2, round)
      && (AcLine(L1, PowerFactor) in m ==> AcLine(L1, PowerFactor) in r && r[AcLine(L1, PowerFactor)] == m[AcLine(L1, PowerFactor)])
      && (forall q :: AcLine(L2, q) in m ==> AcLine(L2, q) in r && r[AcLine(L2, q)] == m[AcLine(L2, q)])
      && (forall q :: AcLine(L3, q) in m ==> AcLine(L3, q) in r && r[AcLine(L3, q)] == m[AcLine(L3, q)])
  {
    var ws := PublishWrites(s, round);
    ApplyKeeps(m, ws);
    ApplyLast(m, ws, 4);
    ApplyLast(m, ws, 5);
    ApplyLast(m, ws, 6);
    ApplyLast(m, ws, 7);
    ApplyLast(m, ws, 8);
    ApplyElsewhere(m, ws, AcLine(L1, PowerFactor));
    forall q | AcLine(L2, q) in m ensures Apply(m, ws)[AcLine(L2, q)] == m[AcLine(L2, q)] {
      ApplyElsewhere(m, ws, AcLine(L2, q));
    }
    forall q | AcLine(L3, q) in m ensures Apply(m, ws)[AcLine(L3, q)] == m[AcLine(L3, q)] {
      ApplyElsewhere(m, ws, AcLine(L3, q));
    }
  }

  function QuantityIndex(q: Quantity): (i: nat)
    ensures i < 6
  {
    match q
    case Power => 0
    case Current => 1
    case Voltage => 2
    case Frequency => 3
    case PowerFactor => 4
    case EnergyForward => 5
  }

  lemma PhaseWritesAt(k: Line, p: Phase, round: (real, nat) -> real, q: Quantity)
    ensures PhaseWrites(k, p, round)[QuantityIndex(q)].path == AcLine(k, q)
  {
  }

  /**
   * Lines 352-366: a publishing tick assigns the L2 (L3) paths exactly when
   * that phase has a power reading; presence, not value, decides.
   */
  lemma UpperLinePublishedIffPresent(s: Store, round: (real, nat) -> real, k: Line, q: Quantity)
    requires k != L1
    ensures Writes(PublishWrites(s, round), AcLine(k, q)) <==> s.PhaseOf(k).power.Some?
  {
    var ws := PublishWrites(s, round);
    var pre := AggregateWrites(s, round) + L1Writes(s, round);
    if s.PhaseOf(k).power.Some? {
      PhaseWritesAt(k, s.PhaseOf(k), round, q);
      if k == L2 {
        assert ws[|pre| + QuantityIndex(q)].path == AcLine(k, q);
      } else {
        var pre3 := pre + LineWrites(L2, s, round);
        assert ws[|pre3| + QuantityIndex(q)].path == AcLine(k, q);
      }
    }
  }

  /**
   * Lines 337-350: the L1 paths are assigned when L1 has a power reading, or
   * (all but the power factor) when no phase has one; never otherwise.
   */
  lemma L1PublishedIff(s: Store, round: (real, nat) -> real, q: Quantity)
    ensures Writes(PublishWrites(s, round), AcLine(L1, q)) <==>
      s.l1.power.Some? || (s.l2.power.None? && s.l3.power.None? && q != PowerFactor)
  {
    var ws := PublishWrites(s, round);
    if s.l1.power.Some? {
      PhaseWritesAt(L1, s.l1, round, q);
      assert ws[4 + QuantityIndex(q)].path == AcLine(L1, q);
    } else if s.l2.power.None? && s.l3.power.None? && q != PowerFactor {
      var i := match q
        case Power => 4
        case Current => 5
        case Voltage => 6
        case Frequency => 7
        case _ => 8;
      assert ws[i].path == AcLine(L1, q);
    }
  }

  /** When every write agrees with `f`, a path that is written ends holding `f` of it. */
  lemma {:induction false} ApplyAgrees(m: Paths, ws: seq<Write>, f: BusPath -> Option<real>, p: BusPath)
    requires forall i :: 0 <= i < |ws| ==> ws[i].value == f(ws[i].path)
    requires Writes(ws, p)
    ensures p in Apply(m, ws) && Apply(m, ws)[p] == f(p)
    decreases |ws|
  {
    var last := ws[|ws| - 1];
    if last.path != p {
      var init := ws[..|ws| - 1];
      var i :| 0 <= i < |ws| && ws[i].path == p;
      assert init[i].path == p;
      ApplyAgrees(m, init, f, p);
    }
  }

  /**
   * Lines 330-366: after a publishing tick every path it assigns shows
   * `Shown`, and every other path keeps its value.
   */
  lemma PublishedValues(m: Paths, s: Store, round: (real, nat) -> real, p: BusPath)
    ensures var ws := PublishWrites(s, round); var r := Apply(m, ws);
      && (Writes(ws, p) ==> p in r && r[p] == Shown(s, p, round))
      && (!Writes(ws, p) ==> (p in r <==> p in m) && (p in m ==> r[p] == m[p]))
  {
    var ws := PublishWrites(s, round);
    if Writes(ws, p) {
      ApplyAgrees(m, ws, path => Shown(s, path, round), p);
    } else {
      ApplyElsewhere(m, ws, p);
    }
  }

  /**
   * Lines 337-343, 352-366: a phase with a power reading shows every one of
   * its readings rounded, the power factor to three digits and the rest to
   * two; a missing reading shows None.
   */
  lemma PresentPhasePublished(m: Paths, s: Store, round: (real, nat) -> real, k: Line, q: Quantity)
    requires s.PhaseOf(k).power.Some?
    ensures var r := Apply(m, PublishWrites(s, round));
      AcLine(k, q) in r && r[AcLine(k, q)] == Rounded(PhaseField(s.PhaseOf(k), q), Digits(q), round)
  {
    if k == L1 {
      L1PublishedIff(s, round, q);
    } else {
      UpperLinePublishedIffPresent(s, round, k, q);
    }
    PublishedValues(m, s, round, AcLine(k, q));
  }

  /**
   * Lines 378-384: the status shown after a publishing tick is 7 (running)
   * when the published power is at least 10 W and 8 (standby) otherwise.
   */
  function NextStatus(shown: real, current: int): (r: int)
    ensures r == 7 <==> shown >= 10.0
    ensures r == 8 <==> shown < 10.0
  {
    if shown >= 10.0 then
      if current != 7 then 7 else current
    else
      if current != 8 then 8 else current
  }

  /** Lines 379-384: `/StatusCode` is assigned only when its value changes. */
  function StatusWrites(shown: real, current: int): (ws: seq<Write>)
    ensures |ws| <= 1
    ensures ws == [] <==> current == NextStatus(shown, current)
    ensures ws != [] ==> ws[0] == Write(StatusCode, Some(NextStatus(shown, current) as real))
  {
    if shown >= 10.0 then
      if current != 7 then [Write(StatusCode, Some(7.0))] else []
    else
      if current != 8 then [Write(StatusCode, Some(8.0))] else []
  }

  /** Line 389: the data is stale when the timeout is enabled and exceeded. */
  predicate Stale(timeout: int, now: int, lastChanged: int)
  {
    timeout != 0 && now - lastChanged > timeout
  }

  /** Lines 394-396: UpdateIndex counts 0..255 and wraps from 255 to 0. */
  function NextIndex(i: int): (r: int)
    ensures 0 <= i <= 255 ==> 0 <= r <= 255 && r == (i + 1) % 256
  {
    var n := i + 1;
    if n > 255 then 0 else n
  }

  /** UpdateIndex after `n` non-terminating ticks. */
  function IndexAfter(i: int, n: nat): int
  {
    if n == 0 then i else NextIndex(IndexAfter(i, n - 1))
  }

  lemma {:induction false} IndexAfterIsModular(i: int, n: nat)
    requires 0 <= i <= 255
    ensures IndexAfter(i, n) == (i + n) % 256
  {
    if n > 0 {
      IndexAfterIsModular(i, n - 1);
    }
  }

  /** After 256 ticks that do not terminate, UpdateIndex is back where it started. */
  lemma IndexWrapLaw(i: int)
    requires 0 <= i <= 255
    ensures IndexAfter(i, 256) == i
    ensures forall n :: 0 < n < 256 ==> IndexAfter(i, n) != i
  {
    IndexAfterIsModular(i, 256);
    forall n | 0 < n < 256 ensures IndexAfter(i, n) != i {
      IndexAfterIsModular(i, n);
    }
  }
}
