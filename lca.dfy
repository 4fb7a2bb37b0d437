/** Life cycle assessment of a system: impacts per indicator from the
    construction and transportation activities of its units, from the
    streams that carry characterization factors, and from other items, each
    accumulated into a dictionary keyed by indicator ID. */
module LifeCycle {
  import opened Common

  /** An activity's impacts (or an item's characterization factors) per
      indicator ID, in dictionary order. */
  type Impacts = seq<(string, real)>

  /** A transportation activity: its impacts per trip and the interval
      between trips (hr). */
  datatype Transportation = Transportation(impacts: Impacts, interval: real)

  /** A unit as the assessment sees it: its own lifetime (None when unset)
      and its construction and transportation activities. */
  datatype Unit = Unit(lifetime: Option<real>, construction: seq<Impacts>,
                       transportation: seq<Transportation>)

  /** A stream impact item: the ID of its linked stream (None when it has
      none), its characterization factors and the mass flow of the linked
      stream (kg/hr). */
  datatype StreamItem = StreamItem(stream: Option<string>, cfs: Impacts, fMass: real)

  /** An "other" impact item with the quantity added to the assessment. */
  datatype OtherItem = OtherItem(cfs: Impacts, quantity: real)

  /** One `impacts[m] += v` an accumulation loop performs; `amount` is an
      error when evaluating `v` raises. */
  datatype Entry = Entry(indicator: string, amount: Result<real>)

  /** `dict.fromkeys(indicators, 0.)`. */
  function Zeros(inds: set<string>): (r: map<string, real>)
    ensures r.Keys == inds
    ensures forall m | m in r :: r[m] == 0.0
  {
    map m | m in inds :: 0.0
  }

  /** The entries applied one after the other: the lookup `impacts[m]`
      raises KeyError for an unknown indicator before the amount is
      evaluated. */
  function AddAll(acc: map<string, real>, es: seq<Entry>): Result<map<string, real>>
    decreases |es|
  {
    if es == [] then Ok(acc)
    else if es[0].indicator !in acc then Err(KeyError)
    else if es[0].amount.Err? then Err(es[0].amount.error)
    else AddAll(acc[es[0].indicator := acc[es[0].indicator] + es[0].amount.value], es[1..])
  }

  /** The sum of the amounts the entries add to indicator `m`. */
  function Total(es: seq<Entry>, m: string): real
    decreases |es|
  {
    if es == [] then 0.0
    else (if es[0].indicator == m && es[0].amount.Ok? then es[0].amount.value else 0.0)
         + Total(es[1..], m)
  }

  /** Every entry names a known indicator and has an amount. */
  predicate Accepted(keys: set<string>, es: seq<Entry>)
  {
    Named(keys, es) && Evaluated(es)
  }

  predicate Named(keys: set<string>, es: seq<Entry>)
  {
    forall i | 0 <= i < |es| :: es[i].indicator in keys
  }

  predicate Evaluated(es: seq<Entry>)
  {
    forall i | 0 <= i < |es| :: es[i].amount.Ok?
  }

  lemma ConcatIndex(a: seq<Entry>, b: seq<Entry>)
    ensures forall i | 0 <= i < |a| :: (a + b)[i] == a[i]
    ensures forall i | 0 <= i < |b| :: (a + b)[|a| + i] == b[i]
  {
  }

  lemma AcceptedConcat(keys: set<string>, a: seq<Entry>, b: seq<Entry>)
    ensures Named(keys, a + b) <==> Named(keys, a) && Named(keys, b)
    ensures Evaluated(a + b) <==> Evaluated(a) && Evaluated(b)
  {
    ConcatIndex(a, b);
    if Named(keys, a) && Named(keys, b) {
      forall i | 0 <= i < |a + b|
        ensures (a + b)[i].indicator in keys
      {
        if i >= |a| {
          assert (a + b)[|a| + (i - |a|)] == b[i - |a|];
        }
      }
    }
    if Evaluated(a) && Evaluated(b) {
      forall i | 0 <= i < |a + b|
        ensures (a + b)[i].amount.Ok?
      {
        if i >= |a| {
          assert (a + b)[|a| + (i - |a|)] == b[i - |a|];
        }
      }
    }
  }

  lemma AcceptedSplit(keys: set<string>, es: seq<Entry>)
    requires es != []
    ensures Accepted(keys, es) <==>
            (es[0].indicator in keys && es[0].amount.Ok? && Accepted(keys, es[1..]))
  {
    assert es == [es[0]] + es[1..];
    AcceptedConcat(keys, [es[0]], es[1..]);
  }

  /** Accumulation succeeds exactly when every entry is accepted, and then
      adds to each indicator the sum of its amounts and to no other key;
      when every amount can be evaluated, the only possible error is
      KeyError. */
  lemma {:induction false} AddAllSums(acc: map<string, real>, es: seq<Entry>)
    ensures AddAll(acc, es).Ok? <==> Accepted(acc.Keys, es)
    ensures AddAll(acc, es).Ok? ==>
              AddAll(acc, es).value.Keys == acc.Keys &&
              forall m | m in acc :: AddAll(acc, es).value[m] == acc[m] + Total(es, m)
    ensures (forall i | 0 <= i < |es| :: es[i].amount.Ok?) && AddAll(acc, es).Err? ==>
              AddAll(acc, es).error == KeyError
    decreases |es|
  {
    if es != [] {
      AcceptedSplit(acc.Keys, es);
      var e := es[0];
      if e.indicator in acc && e.amount.Ok? {
        var next := acc[e.indicator := acc[e.indicator] + e.amount.value];
        assert next.Keys == acc.Keys;
        AddAllSums(next, es[1..]);
        assert forall i | 0 <= i < |es[1..]| :: es[1..][i] == es[i + 1];
      }
    }
  }

  lemma {:induction false} AddAllConcat(acc: map<string, real>, a: seq<Entry>, b: seq<Entry>)
    ensures AddAll(acc, a + b) ==
            (if AddAll(acc, a).Ok? then AddAll(AddAll(acc, a).value, b) else AddAll(acc, a))
    decreases |a|
  {
    if a == [] {
      assert a + b == b;
    } else {
      assert (a + b)[0] == a[0];
      assert (a + b)[1..] == a[1..] + b;
      if a[0].indicator in acc && a[0].amount.Ok? {
        AddAllConcat(acc[a[0].indicator := acc[a[0].indicator] + a[0].amount.value], a[1..], b);
      }
    }
  }

  lemma {:induction false} TotalConcat(a: seq<Entry>, b: seq<Entry>, m: string)
    ensures Total(a + b, m) == Total(a, m) + Total(b, m)
    decreases |a|
  {
    if a == [] {
      assert a + b == b;
    } else {
      assert (a + b)[0] == a[0];
      assert (a + b)[1..] == a[1..] + b;
      TotalConcat(a[1..], b, m);
    }
  }

  /** The loop `for m, n in impact.items(): impacts[m] += ...`. */
  method Accumulate(impacts: map<string, real>, es: seq<Entry>) returns (r: Result<map<string, real>>)
    ensures r == AddAll(impacts, es)
  {
    var acc := impacts;
    var i := 0;
    while i < |es|
      invariant 0 <= i <= |es|
      invariant AddAll(impacts, es) == AddAll(acc, es[i..])
    {
      var e := es[i];
      if e.indicator !in acc {
        return Err(KeyError);
      }
      if e.amount.Err? {
        return Err(e.amount.error);
      }
      assert es[i..][1..] == es[i + 1..];
      acc := acc[e.indicator := acc[e.indicator] + e.amount.value];
      i := i + 1;
    }
    assert es[i..] == [];
    return Ok(acc);
  }

  // ---- Amounts ------------------------------------------------------------

  /** `ratio`: 1 when no time is given (None or 0), otherwise the time (hr)
      over the lifetime in hours; Python's float division raises
      ZeroDivisionError on a zero lifetime. */
  function TimeRatio(time: Option<real>, lifetimeHr: real): (r: Result<real>)
    ensures (time == None || time == Some(0.0)) ==> r == Ok(1.0)
    ensures time.Some? && time.value != 0.0 ==> (r.Err? <==> lifetimeHr == 0.0)
    ensures r.Err? ==> r.error == ZeroDivisionError
    ensures time.Some? && time.value != 0.0 && r.Ok? ==> r.value * lifetimeHr == time.value
  {
    if time == None || time == Some(0.0) then Ok(1.0)
    else if lifetimeHr == 0.0 then Err(ZeroDivisionError)
    else Ok(time.value / lifetimeHr)
  }

  /** The hours a getter normalizes to: the lifetime in hours when no time
      is given (None or 0), otherwise the time given. */
  function Hours(time: Option<real>, lifetimeHr: real): (r: real)
    ensures r == lifetimeHr || (time.Some? && r == time.value && r != 0.0)
    ensures time == None || time == Some(0.0) ==> r == lifetimeHr
  {
    if time == None || time == Some(0.0) then lifetimeHr else time.value
  }

  /** `factor`: the system lifetime over the unit's, or 1 when the unit has
      no lifetime (None or 0). */
  function Factor(lifetime: real, unitLifetime: Option<real>): (r: real)
    ensures unitLifetime.Some? && unitLifetime.value != 0.0 ==> r * unitLifetime.value == lifetime
    ensures unitLifetime == None || unitLifetime == Some(0.0) ==> r == 1.0
  {
    if unitLifetime == None || unitLifetime == Some(0.0) then 1.0
    else lifetime / unitLifetime.value
  }

  function ConstructionShare(n: real, ratio: real, factor: real): real
  {
    n * ratio * factor
  }

  /** `n*time/j.interval`, raising ZeroDivisionError on a zero interval. */
  function TripShare(n: real, time: real, interval: real): (r: Result<real>)
    ensures r.Err? <==> interval == 0.0
    ensures r.Err? ==> r.error == ZeroDivisionError
    ensures r.Ok? ==> r.value * interval == n * time
  {
    if interval == 0.0 then Err(ZeroDivisionError) else Ok(n * time / interval)
  }

  function StreamShare(n: real, time: real, fMass: real): real
  {
    n * time * fMass
  }

  function OtherShare(n: real, quantity: real): real
  {
    n * quantity
  }

  /** The kinds `get_stream_impacts` accepts. */
  predicate ValidKind(kind: string)
  {
    kind == "all" || kind == "direct_emission" || kind == "offset"
  }

  /** The characterization factor a kind counts: the positive part for
      direct emissions, the negative part for offsets, all of it otherwise. */
  function Clamp(kind: string, n: real): (r: real)
    ensures kind == "direct_emission" ==> r >= 0.0 && (r == n || r == 0.0) && r >= n
    ensures kind == "offset" ==> r <= 0.0 && (r == n || r == 0.0) && r <= n
    ensures kind != "direct_emission" && kind != "offset" ==> r == n
  {
    if kind == "direct_emission" then (if n > 0.0 then n else 0.0)
    else if kind == "offset" then (if n < 0.0 then n else 0.0)
    else n
  }

  // ---- The entries each getter visits, in loop order ----------------------

  function ImpactEntries(impacts: Impacts, ratio: real, factor: real): seq<Entry>
    decreases |impacts|
  {
    if impacts == [] then []
    else [Entry(impacts[0].0, Ok(ConstructionShare(impacts[0].1, ratio, factor)))]
         + ImpactEntries(impacts[1..], ratio, factor)
  }

  function ConstructionEntries(acts: seq<Impacts>, ratio: real, factor: real): seq<Entry>
    decreases |acts|
  {
    if acts == [] then []
    else ImpactEntries(acts[0], ratio, factor) + ConstructionEntries(acts[1..], ratio, factor)
  }

  function UnitsConstructionEntries(units: seq<Unit>, lifetime: real, ratio: real): seq<Entry>
    decreases |units|
  {
    if units == [] then []
    else ConstructionEntries(units[0].construction, ratio, Factor(lifetime, units[0].lifetime))
         + UnitsConstructionEntries(units[1..], lifetime, ratio)
  }

  function TripEntries(impacts: Impacts, time: real, interval: real): seq<Entry>
    decreases |impacts|
  {
    if impacts == [] then []
    else [Entry(impacts[0].0, TripShare(impacts[0].1, time, interval))]
         + TripEntries(impacts[1..], time, interval)
  }

  function TransportationEntries(trips: seq<Transportation>, time: real): seq<Entry>
    decreases |trips|
  {
    if trips == [] then []
    else TripEntries(trips[0].impacts, time, trips[0].interval) + TransportationEntries(trips[1..], time)
  }

  function UnitsTransportationEntries(units: seq<Unit>, time: real): seq<Entry>
    decreases |units|
  {
    if units == [] then []
    else TransportationEntries(units[0].transportation, time)
         + UnitsTransportationEntries(units[1..], time)
  }

  function FactorEntries(cfs: Impacts, kind: string, time: real, fMass: real): seq<Entry>
    decreases |cfs|
  {
    if cfs == [] then []
    else [Entry(cfs[0].0, Ok(StreamShare(Clamp(kind, cfs[0].1), time, fMass)))]
         + FactorEntries(cfs[1..], kind, time, fMass)
  }

  /** The factors of an item without a linked stream: `impacts[m]` is read
      first, then `ws.F_mass` on None raises AttributeError. */
  function UnlinkedEntries(cfs: Impacts): seq<Entry>
    decreases |cfs|
  {
    if cfs == [] then [] else [Entry(cfs[0].0, Err(AttributeError))] + UnlinkedEntries(cfs[1..])
  }

  /** `ws is exclude`: an item is skipped when its linked stream is the
      excluded one (an item without a stream is skipped when nothing is
      excluded, and fails at its first factor when something is). */
  function ItemEntries(item: StreamItem, exclude: Option<string>, kind: string, time: real): seq<Entry>
  {
    if item.stream == exclude then []
    else if item.stream.None? then UnlinkedEntries(item.cfs)
    else FactorEntries(item.cfs, kind, time, item.fMass)
  }

  /** No item reaches `ws.F_mass` without a linked stream: either nothing is
      excluded, or every unlinked item has no factors. */
  predicate Linked(items: seq<StreamItem>, exclude: Option<string>)
  {
    forall i | 0 <= i < |items| :: items[i].stream.None? && exclude.Some? ==> items[i].cfs == []
  }

  function StreamEntries(items: seq<StreamItem>, exclude: Option<string>, kind: string, time: real): seq<Entry>
    decreases |items|
  {
    if items == [] then []
    else ItemEntries(items[0], exclude, kind, time) + StreamEntries(items[1..], exclude, kind, time)
  }

  function QuantityEntries(cfs: Impacts, quantity: real): seq<Entry>
    decreases |cfs|
  {
    if cfs == [] then []
    else [Entry(cfs[0].0, Ok(OtherShare(cfs[0].1, quantity)))] + QuantityEntries(cfs[1..], quantity)
  }

  function OtherEntries(items: seq<OtherItem>): seq<Entry>
    decreases |items|
  {
    if items == [] then []
    else QuantityEntries(items[0].cfs, items[0].quantity) + OtherEntries(items[1..])
  }

  // ---- Properties of the entries ------------------------------------------

  /** What one entry adds to indicator `m`. */
  function Amount(e: Entry, m: string): real
  {
    if e.indicator == m && e.amount.Ok? then e.amount.value else 0.0
  }

  lemma TotalCons(e: Entry, rest: seq<Entry>, m: string)
    ensures Total([e] + rest, m) == Amount(e, m) + Total(rest, m)
  {
    assert ([e] + rest)[1..] == rest;
  }

  /** Two parts each scaled by `k` sum to their whole scaled by `k`. */
  lemma Combine(whole: real, whole1: real, a: real, b: real, a1: real, b1: real, k: real)
    requires whole == a + b && whole1 == a1 + b1
    requires a == k * a1 && b == Times(k, b1)
    ensures whole == Times(k, whole1)
  {
  }

  /** The entries with every amount multiplied by `k`. */
  function ScaleEntries(es: seq<Entry>, k: real): seq<Entry>
    decreases |es|
  {
    if es == [] then [] else [ScaleEntry(es[0], k)] + ScaleEntries(es[1..], k)
  }

  function ScaleEntry(e: Entry, k: real): Entry
  {
    if e.amount.Ok? then Entry(e.indicator, Ok(Times(k, e.amount.value))) else e
  }

  function Times(k: real, x: real): real
  {
    k * x
  }

  lemma ScaleOk(indicator: string, x: real, k: real)
    ensures ScaleEntry(Entry(indicator, Ok(x)), k) == Entry(indicator, Ok(Times(k, x)))
  {
  }

  lemma ScaleAmount(e: Entry, k: real, m: string)
    ensures Amount(ScaleEntry(e, k), m) == k * Amount(e, m)
  {
  }

  lemma {:induction false} ScaleEntriesConcat(a: seq<Entry>, b: seq<Entry>, k: real)
    ensures ScaleEntries(a + b, k) == ScaleEntries(a, k) + ScaleEntries(b, k)
    decreases |a|
  {
    if a == [] {
      assert a + b == b;
    } else {
      assert (a + b)[0] == a[0];
      assert (a + b)[1..] == a[1..] + b;
      ScaleEntriesConcat(a[1..], b, k);
      assert ScaleEntries(a + b, k) == [ScaleEntry(a[0], k)] + ScaleEntries(a[1..] + b, k);
    }
  }

  /** Scaling every amount by `k` scales every indicator's total by `k`. */
  lemma TotalOfScaled(es: seq<Entry>, base: seq<Entry>, k: real, m: string)
    requires es == ScaleEntries(base, k)
    ensures Total(es, m) == Times(k, Total(base, m))
  {
    TotalScales(base, k, m);
  }

  lemma {:induction false} TotalScales(es: seq<Entry>, k: real, m: string)
    ensures Total(ScaleEntries(es, k), m) == Times(k, Total(es, m))
    decreases |es|
  {
    if es != [] {
      var t := es[1..];
      var se := ScaleEntry(es[0], k);
      var st := ScaleEntries(t, k);
      TotalScales(t, k, m);
      assert ScaleEntries(es, k) == [se] + st;
      TotalCons(se, st, m);
      assert Total(es, m) == Amount(es[0], m) + Total(t, m);
      ScaleAmount(es[0], k, m);
      Combine(Total([se] + st, m), Total(es, m), Amount(se, m), Total(st, m), Amount(es[0], m), Total(t, m), k);
    }
  }

  lemma {:induction false} ImpactEntriesScale(impacts: Impacts, ratio: real, factor: real)
    ensures ImpactEntries(impacts, ratio, factor) == ScaleEntries(ImpactEntries(impacts, 1.0, factor), ratio)
    decreases |impacts|
  {
    if impacts != [] {
      var head1 := Entry(impacts[0].0, Ok(ConstructionShare(impacts[0].1, 1.0, factor)));
      ImpactEntriesScale(impacts[1..], ratio, factor);
      assert ConstructionShare(impacts[0].1, ratio, factor) == Times(ratio, ConstructionShare(impacts[0].1, 1.0, factor));
      ScaleEntriesConcat([head1], ImpactEntries(impacts[1..], 1.0, factor), ratio);
      assert [head1][1..] == [];
      assert ScaleEntries([head1], ratio) == [ScaleEntry(head1, ratio)];
      ScaleOk(impacts[0].0, ConstructionShare(impacts[0].1, 1.0, factor), ratio);
      assert ScaleEntries([head1], ratio) == [Entry(impacts[0].0, Ok(ConstructionShare(impacts[0].1, ratio, factor)))];
    }
  }

  lemma {:induction false} ConstructionEntriesScale(acts: seq<Impacts>, ratio: real, factor: real)
    ensures ConstructionEntries(acts, ratio, factor)
            == ScaleEntries(ConstructionEntries(acts, 1.0, factor), ratio)
    decreases |acts|
  {
    if acts != [] {
      ConstructionEntriesScale(acts[1..], ratio, factor);
      ImpactEntriesScale(acts[0], ratio, factor);
      ScaleEntriesConcat(ImpactEntries(acts[0], 1.0, factor), ConstructionEntries(acts[1..], 1.0, factor), ratio);
    }
  }

  lemma {:induction false} UnitsConstructionEntriesScale(units: seq<Unit>, lifetime: real, ratio: real)
    ensures UnitsConstructionEntries(units, lifetime, ratio)
            == ScaleEntries(UnitsConstructionEntries(units, lifetime, 1.0), ratio)
    decreases |units|
  {
    if units != [] {
      UnitsConstructionEntriesScale(units[1..], lifetime, ratio);
      ConstructionEntriesScale(units[0].construction, ratio, Factor(lifetime, units[0].lifetime));
      ScaleEntriesConcat(ConstructionEntries(units[0].construction, 1.0, Factor(lifetime, units[0].lifetime)),
                         UnitsConstructionEntries(units[1..], lifetime, 1.0), ratio);
    }
  }

  /** Construction impacts normalized to a time frame are the impacts over
      the whole lifetime scaled by the time ratio. */
  lemma ConstructionScalesWithRatio(units: seq<Unit>, lifetime: real, ratio: real, m: string)
    ensures Total(UnitsConstructionEntries(units, lifetime, ratio), m)
            == Times(ratio, Total(UnitsConstructionEntries(units, lifetime, 1.0), m))
  {
    UnitsConstructionEntriesScale(units, lifetime, ratio);
    TotalOfScaled(UnitsConstructionEntries(units, lifetime, ratio), UnitsConstructionEntries(units, lifetime, 1.0), ratio, m);
  }

  lemma {:induction false} TripEntriesScale(impacts: Impacts, time: real, interval: real)
    ensures TripEntries(impacts, time, interval) == ScaleEntries(TripEntries(impacts, 1.0, interval), time)
    decreases |impacts|
  {
    if impacts != [] {
      var head1 := Entry(impacts[0].0, TripShare(impacts[0].1, 1.0, interval));
      TripEntriesScale(impacts[1..], time, interval);
      if interval != 0.0 {
        assert TripShare(impacts[0].1, time, interval).value == Times(time, TripShare(impacts[0].1, 1.0, interval).value);
        ScaleOk(impacts[0].0, TripShare(impacts[0].1, 1.0, interval).value, time);
      }
      ScaleEntriesConcat([head1], TripEntries(impacts[1..], 1.0, interval), time);
      assert [head1][1..] == [];
      assert ScaleEntries([head1], time) == [ScaleEntry(head1, time)];
      assert ScaleEntries([head1], time) == [Entry(impacts[0].0, TripShare(impacts[0].1, time, interval))];
    }
  }

  lemma {:induction false} TransportationEntriesScale(trips: seq<Transportation>, time: real)
    ensures TransportationEntries(trips, time) == ScaleEntries(TransportationEntries(trips, 1.0), time)
    decreases |trips|
  {
    if trips != [] {
      TransportationEntriesScale(trips[1..], time);
      TripEntriesScale(trips[0].impacts, time, trips[0].interval);
      ScaleEntriesConcat(TripEntries(trips[0].impacts, 1.0, trips[0].interval),
                         TransportationEntries(trips[1..], 1.0), time);
    }
  }

  lemma {:induction false} UnitsTransportationEntriesScale(units: seq<Unit>, time: real)
    ensures UnitsTransportationEntries(units, time) == ScaleEntries(UnitsTransportationEntries(units, 1.0), time)
    decreases |units|
  {
    if units != [] {
      UnitsTransportationEntriesScale(units[1..], time);
      TransportationEntriesScale(units[0].transportation, time);
      ScaleEntriesConcat(TransportationEntries(units[0].transportation, 1.0),
                         UnitsTransportationEntries(units[1..], 1.0), time);
    }
  }

  /** Transportation impacts grow linearly with the hours they cover: the
      impacts over `time` are `time` times the impacts of one hour. */
  lemma TransportationScalesWithTime(units: seq<Unit>, time: real, m: string)
    ensures Total(UnitsTransportationEntries(units, time), m)
            == Times(time, Total(UnitsTransportationEntries(units, 1.0), m))
  {
    UnitsTransportationEntriesScale(units, time);
    TotalOfScaled(UnitsTransportationEntries(units, time), UnitsTransportationEntries(units, 1.0), time, m);
  }

  lemma ClampsAdd(n: real, time: real, fMass: real)
    ensures StreamShare(Clamp("direct_emission", n), time, fMass)
            + StreamShare(Clamp("offset", n), time, fMass) == StreamShare(n, time, fMass)
  {
    if n > 0.0 {
      assert Clamp("offset", n) == 0.0;
    } else {
      assert Clamp("direct_emission", n) == 0.0;
    }
  }

  lemma {:induction false} FactorKindsAdd(cfs: Impacts, time: real, fMass: real, m: string)
    ensures Total(FactorEntries(cfs, "direct_emission", time, fMass), m)
            + Total(FactorEntries(cfs, "offset", time, fMass), m)
            == Total(FactorEntries(cfs, "all", time, fMass), m)
    decreases |cfs|
  {
    if cfs != [] {
      var n := cfs[0].1;
      FactorKindsAdd(cfs[1..], time, fMass, m);
      ClampsAdd(n, time, fMass);
      TotalCons(Entry(cfs[0].0, Ok(StreamShare(Clamp("direct_emission", n), time, fMass))),
                FactorEntries(cfs[1..], "direct_emission", time, fMass), m);
      TotalCons(Entry(cfs[0].0, Ok(StreamShare(Clamp("offset", n), time, fMass))),
                FactorEntries(cfs[1..], "offset", time, fMass), m);
      TotalCons(Entry(cfs[0].0, Ok(StreamShare(Clamp("all", n), time, fMass))),
                FactorEntries(cfs[1..], "all", time, fMass), m);
    }
  }

  /** Per indicator, the direct emissions and the offsets of the streams add
      up to all of their impacts. */
  lemma {:induction false} StreamKindsAdd(items: seq<StreamItem>, exclude: Option<string>, time: real, m: string)
    ensures Total(StreamEntries(items, exclude, "direct_emission", time), m)
            + Total(StreamEntries(items, exclude, "offset", time), m)
            == Total(StreamEntries(items, exclude, "all", time), m)
    decreases |items|
  {
    if items != [] {
      StreamKindsAdd(items[1..], exclude, time, m);
      if items[0].stream != exclude && items[0].stream.None? {
        UnlinkedTotal(items[0].cfs, m);
      } else if items[0].stream != exclude {
        FactorKindsAdd(items[0].cfs, time, items[0].fMass, m);
      }
      TotalConcat(ItemEntries(items[0], exclude, "direct_emission", time),
                  StreamEntries(items[1..], exclude, "direct_emission", time), m);
      TotalConcat(ItemEntries(items[0], exclude, "offset", time),
                  StreamEntries(items[1..], exclude, "offset", time), m);
      TotalConcat(ItemEntries(items[0], exclude, "all", time),
                  StreamEntries(items[1..], exclude, "all", time), m);
    }
  }

  /** An item without a linked stream adds nothing to any total. */
  lemma {:induction false} UnlinkedTotal(cfs: Impacts, m: string)
    ensures Total(UnlinkedEntries(cfs), m) == 0.0
    decreases |cfs|
  {
    if cfs != [] {
      UnlinkedTotal(cfs[1..], m);
      TotalCons(Entry(cfs[0].0, Err(AttributeError)), UnlinkedEntries(cfs[1..]), m);
    }
  }

  lemma {:induction false} StreamEntriesConcat(a: seq<StreamItem>, b: seq<StreamItem>, exclude: Option<string>,
                                               kind: string, time: real)
    ensures StreamEntries(a + b, exclude, kind, time)
            == StreamEntries(a, exclude, kind, time) + StreamEntries(b, exclude, kind, time)
    decreases |a|
  {
    if a == [] {
      assert a + b == b;
    } else {
      assert (a + b)[0] == a[0];
      assert (a + b)[1..] == a[1..] + b;
      StreamEntriesConcat(a[1..], b, exclude, kind, time);
    }
  }

  /** The excluded stream contributes nothing: wherever it stands among the
      items, the entries are those of the other items. */
  lemma ExcludedStreamAddsNothing(a: seq<StreamItem>, item: StreamItem, b: seq<StreamItem>,
                                  kind: string, time: real)
    ensures StreamEntries(a + [item] + b, item.stream, kind, time)
            == StreamEntries(a + b, item.stream, kind, time)
  {
    var alone := StreamEntries([item], item.stream, kind, time);
    assert [item][1..] == [];
    assert alone == ItemEntries(item, item.stream, kind, time) + StreamEntries([], item.stream, kind, time);
    assert alone == [];
    StreamEntriesConcat(a, [item], item.stream, kind, time);
    assert StreamEntries(a + [item], item.stream, kind, time) == StreamEntries(a, item.stream, kind, time) + [];
    StreamEntriesConcat(a + [item], b, item.stream, kind, time);
    StreamEntriesConcat(a, b, item.stream, kind, time);
    assert StreamEntries(a, item.stream, kind, time) + [] == StreamEntries(a, item.stream, kind, time);
  }


  // ---- Indicators ---------------------------------------------------------

  function ImpactKeys(impacts: Impacts): set<string>
    decreases |impacts|
  {
    if impacts == [] then {} else {impacts[0].0} + ImpactKeys(impacts[1..])
  }

  function ConstructionKeys(acts: seq<Impacts>): set<string>
    decreases |acts|
  {
    if acts == [] then {} else ImpactKeys(acts[0]) + ConstructionKeys(acts[1..])
  }

  function UnitsConstructionKeys(units: seq<Unit>): set<string>
    decreases |units|
  {
    if units == [] then {} else ConstructionKeys(units[0].construction) + UnitsConstructionKeys(units[1..])
  }

  function TransportationKeys(trips: seq<Transportation>): set<string>
    decreases |trips|
  {
    if trips == [] then {} else ImpactKeys(trips[0].impacts) + TransportationKeys(trips[1..])
  }

  function UnitsTransportationKeys(units: seq<Unit>): set<string>
    decreases |units|
  {
    if units == [] then {} else TransportationKeys(units[0].transportation) + UnitsTransportationKeys(units[1..])
  }

  function StreamKeys(items: seq<StreamItem>): set<string>
    decreases |items|
  {
    if items == [] then {} else ImpactKeys(items[0].cfs) + StreamKeys(items[1..])
  }

  function OtherKeys(items: seq<OtherItem>): set<string>
    decreases |items|
  {
    if items == [] then {} else ImpactKeys(items[0].cfs) + OtherKeys(items[1..])
  }

  /** The `indicators` property: the union of the indicators of the
      construction, transportation, stream and other inventories (each
      activity's or item's indicators are the keys of its impacts), raising
      ValueError when the union is empty. */
  function IndicatorsOf(construction: seq<Unit>, transportation: seq<Unit>,
                        streams: seq<StreamItem>, others: seq<OtherItem>): (r: Result<set<string>>)
    ensures r.Ok? ==> r.value != {}
    ensures r.Err? ==> r.error == ValueError
  {
    var all := UnitsConstructionKeys(construction) + UnitsTransportationKeys(transportation)
               + StreamKeys(streams) + OtherKeys(others);
    if all == {} then Err(ValueError) else Ok(all)
  }

  /** No trip with impacts has a zero interval. */
  predicate Timed(trips: seq<Transportation>)
    decreases |trips|
  {
    trips == [] || ((trips[0].impacts == [] || trips[0].interval != 0.0) && Timed(trips[1..]))
  }

  predicate UnitsTimed(units: seq<Unit>)
    decreases |units|
  {
    units == [] || (Timed(units[0].transportation) && UnitsTimed(units[1..]))
  }

  lemma {:induction false} ImpactEntriesAccepted(impacts: Impacts, ratio: real, factor: real, keys: set<string>)
    ensures Evaluated(ImpactEntries(impacts, ratio, factor))
    ensures ImpactKeys(impacts) <= keys ==> Named(keys, ImpactEntries(impacts, ratio, factor))
    decreases |impacts|
  {
    if impacts != [] {
      ImpactEntriesAccepted(impacts[1..], ratio, factor, keys);
      AcceptedConcat(keys, [Entry(impacts[0].0, Ok(ConstructionShare(impacts[0].1, ratio, factor)))],
                     ImpactEntries(impacts[1..], ratio, factor));
    }
  }

  lemma {:induction false} ConstructionEntriesAccepted(acts: seq<Impacts>, ratio: real, factor: real, keys: set<string>)
    ensures Evaluated(ConstructionEntries(acts, ratio, factor))
    ensures ConstructionKeys(acts) <= keys ==> Named(keys, ConstructionEntries(acts, ratio, factor))
    decreases |acts|
  {
    if acts != [] {
      ConstructionEntriesAccepted(acts[1..], ratio, factor, keys);
      ImpactEntriesAccepted(acts[0], ratio, factor, keys);
      AcceptedConcat(keys, ImpactEntries(acts[0], ratio, factor), ConstructionEntries(acts[1..], ratio, factor));
    }
  }

  /** Construction amounts always evaluate, and they name only the
      indicators of the units' construction activities. */
  lemma {:induction false} UnitsConstructionAccepted(units: seq<Unit>, lifetime: real, ratio: real, keys: set<string>)
    ensures Evaluated(UnitsConstructionEntries(units, lifetime, ratio))
    ensures UnitsConstructionKeys(units) <= keys ==> Named(keys, UnitsConstructionEntries(units, lifetime, ratio))
    decreases |units|
  {
    if units != [] {
      UnitsConstructionAccepted(units[1..], lifetime, ratio, keys);
      ConstructionEntriesAccepted(units[0].construction, ratio, Factor(lifetime, units[0].lifetime), keys);
      AcceptedConcat(keys, ConstructionEntries(units[0].construction, ratio, Factor(lifetime, units[0].lifetime)),
                     UnitsConstructionEntries(units[1..], lifetime, ratio));
    }
  }

  lemma {:induction false} TripEntriesAccepted(impacts: Impacts, time: real, interval: real, keys: set<string>)
    ensures Evaluated(TripEntries(impacts, time, interval)) <==> (impacts == [] || interval != 0.0)
    ensures ImpactKeys(impacts) <= keys ==> Named(keys, TripEntries(impacts, time, interval))
    decreases |impacts|
  {
    if impacts != [] {
      var head := Entry(impacts[0].0, TripShare(impacts[0].1, time, interval));
      TripEntriesAccepted(impacts[1..], time, interval, keys);
      AcceptedConcat(keys, [head], TripEntries(impacts[1..], time, interval));
      assert [head][0] == head;
    }
  }

  lemma {:induction false} TransportationEntriesAccepted(trips: seq<Transportation>, time: real, keys: set<string>)
    ensures Evaluated(TransportationEntries(trips, time)) <==> Timed(trips)
    ensures TransportationKeys(trips) <= keys ==> Named(keys, TransportationEntries(trips, time))
    decreases |trips|
  {
    if trips != [] {
      TransportationEntriesAccepted(trips[1..], time, keys);
      TripEntriesAccepted(trips[0].impacts, time, trips[0].interval, keys);
      AcceptedConcat(keys, TripEntries(trips[0].impacts, time, trips[0].interval),
                     TransportationEntries(trips[1..], time));
    }
  }

  /** Transportation amounts all evaluate exactly when no trip with impacts
      has a zero interval, and they name only the indicators of the units'
      transportation activities. */
  lemma {:induction false} UnitsTransportationAccepted(units: seq<Unit>, time: real, keys: set<string>)
    ensures Evaluated(UnitsTransportationEntries(units, time)) <==> UnitsTimed(units)
    ensures UnitsTransportationKeys(units) <= keys ==> Named(keys, UnitsTransportationEntries(units, time))
    decreases |units|
  {
    if units != [] {
      UnitsTransportationAccepted(units[1..], time, keys);
      TransportationEntriesAccepted(units[0].transportation, time, keys);
      AcceptedConcat(keys, TransportationEntries(units[0].transportation, time),
                     UnitsTransportationEntries(units[1..], time));
    }
  }

  lemma {:induction false} FactorEntriesAccepted(cfs: Impacts, kind: string, time: real, fMass: real, keys: set<string>)
    ensures Evaluated(FactorEntries(cfs, kind, time, fMass))
    ensures ImpactKeys(cfs) <= keys ==> Named(keys, FactorEntries(cfs, kind, time, fMass))
    decreases |cfs|
  {
    if cfs != [] {
      FactorEntriesAccepted(cfs[1..], kind, time, fMass, keys);
      AcceptedConcat(keys, [Entry(cfs[0].0, Ok(StreamShare(Clamp(kind, cfs[0].1), time, fMass)))],
                     FactorEntries(cfs[1..], kind, time, fMass));
    }
  }

  lemma {:induction false} UnlinkedEntriesAccepted(cfs: Impacts, keys: set<string>)
    ensures Evaluated(UnlinkedEntries(cfs)) <==> cfs == []
    ensures FailsOnlyWith(UnlinkedEntries(cfs), AttributeError)
    ensures ImpactKeys(cfs) <= keys ==> Named(keys, UnlinkedEntries(cfs))
    decreases |cfs|
  {
    if cfs != [] {
      var head := Entry(cfs[0].0, Err(AttributeError));
      UnlinkedEntriesAccepted(cfs[1..], keys);
      AcceptedConcat(keys, [head], UnlinkedEntries(cfs[1..]));
      FailsOnlyWithConcat([head], UnlinkedEntries(cfs[1..]), AttributeError);
      assert UnlinkedEntries(cfs)[0] == head;
    }
  }

  /** Stream amounts evaluate exactly when no unlinked item is reached
      while a stream is excluded, fail otherwise only with AttributeError,
      and name only the indicators of the items' characterization
      factors. */
  lemma {:induction false} StreamEntriesAccepted(items: seq<StreamItem>, exclude: Option<string>, kind: string,
                                                 time: real, keys: set<string>)
    ensures Evaluated(StreamEntries(items, exclude, kind, time)) <==> Linked(items, exclude)
    ensures FailsOnlyWith(StreamEntries(items, exclude, kind, time), AttributeError)
    ensures StreamKeys(items) <= keys ==> Named(keys, StreamEntries(items, exclude, kind, time))
    decreases |items|
  {
    if items != [] {
      var item := items[0];
      StreamEntriesAccepted(items[1..], exclude, kind, time, keys);
      FactorEntriesAccepted(item.cfs, kind, time, item.fMass, keys);
      UnlinkedEntriesAccepted(item.cfs, keys);
      var head := ItemEntries(item, exclude, kind, time);
      assert Evaluated(head) <==> !(item.stream.None? && exclude.Some?) || item.cfs == [];
      AcceptedConcat(keys, head, StreamEntries(items[1..], exclude, kind, time));
      FailsOnlyWithConcat(head, StreamEntries(items[1..], exclude, kind, time), AttributeError);
      LinkedSplit(items, exclude);
    }
  }

  lemma LinkedSplit(items: seq<StreamItem>, exclude: Option<string>)
    requires items != []
    ensures Linked(items, exclude) <==>
            ((items[0].stream.None? && exclude.Some? ==> items[0].cfs == []) && Linked(items[1..], exclude))
  {
    if (items[0].stream.None? && exclude.Some? ==> items[0].cfs == []) && Linked(items[1..], exclude) {
      forall i | 0 <= i < |items| ensures items[i].stream.None? && exclude.Some? ==> items[i].cfs == [] {
        if i > 0 { assert items[i] == items[1..][i - 1]; }
      }
    }
  }

  lemma {:induction false} QuantityEntriesAccepted(cfs: Impacts, quantity: real, keys: set<string>)
    ensures Evaluated(QuantityEntries(cfs, quantity))
    ensures ImpactKeys(cfs) <= keys ==> Named(keys, QuantityEntries(cfs, quantity))
    decreases |cfs|
  {
    if cfs != [] {
      QuantityEntriesAccepted(cfs[1..], quantity, keys);
      AcceptedConcat(keys, [Entry(cfs[0].0, Ok(OtherShare(cfs[0].1, quantity)))], QuantityEntries(cfs[1..], quantity));
    }
  }

  lemma {:induction false} OtherEntriesAccepted(items: seq<OtherItem>, keys: set<string>)
    ensures Evaluated(OtherEntries(items))
    ensures OtherKeys(items) <= keys ==> Named(keys, OtherEntries(items))
    decreases |items|
  {
    if items != [] {
      OtherEntriesAccepted(items[1..], keys);
      QuantityEntriesAccepted(items[0].cfs, items[0].quantity, keys);
      AcceptedConcat(keys, QuantityEntries(items[0].cfs, items[0].quantity), OtherEntries(items[1..]));
    }
  }

  // ---- What each getter returns -------------------------------------------

  /** `get_construction_impacts(units, time)`: the time ratio is computed
      first, then the indicators, then every construction activity of every
      unit adds `impact*ratio*factor`. */
  function ConstructionImpactsOf(inds: Result<set<string>>, lifetime: real, lifetimeHr: real,
                                 units: seq<Unit>, time: Option<real>): Result<map<string, real>>
  {
    var ratio := TimeRatio(time, lifetimeHr);
    if ratio.Err? then Err(ratio.error)
    else if inds.Err? then Err(inds.error)
    else AddAll(Zeros(inds.value), UnitsConstructionEntries(units, lifetime, ratio.value))
  }

  /** `get_transportation_impacts(units, time)`: every trip of every unit
      adds `impact*time/interval`. */
  function TransportationImpactsOf(inds: Result<set<string>>, lifetimeHr: real, units: seq<Unit>,
                                   time: Option<real>): Result<map<string, real>>
  {
    if inds.Err? then Err(inds.error)
    else AddAll(Zeros(inds.value), UnitsTransportationEntries(units, Hours(time, lifetimeHr)))
  }

  /** `get_stream_impacts(items, exclude, kind, time)`: every item but the
      excluded stream's adds `CF*time*F_mass`, the CF clamped by `kind`; an
      unknown kind raises ValueError at the first factor visited. */
  function StreamImpactsOf(inds: Result<set<string>>, lifetimeHr: real, items: seq<StreamItem>,
                           exclude: Option<string>, kind: string, time: Option<real>): Result<map<string, real>>
  {
    if inds.Err? then Err(inds.error)
    else if !ValidKind(kind) && StreamEntries(items, exclude, kind, Hours(time, lifetimeHr)) != [] then Err(ValueError)
    else AddAll(Zeros(inds.value), StreamEntries(items, exclude, kind, Hours(time, lifetimeHr)))
  }

  /** `get_other_impacts`: every other item adds `CF*quantity`. */
  function OtherImpactsOf(inds: Result<set<string>>, items: seq<OtherItem>): Result<map<string, real>>
  {
    if inds.Err? then Err(inds.error) else AddAll(Zeros(inds.value), OtherEntries(items))
  }

  /** `for m, n in d.items(): impacts[m] += n`. */
  function AddMap(acc: map<string, real>, d: map<string, real>): Result<map<string, real>>
  {
    if d.Keys <= acc.Keys then Ok(map m | m in acc :: acc[m] + At(d, m)) else Err(KeyError)
  }

  function AddMapTo(acc: Result<map<string, real>>, d: map<string, real>): Result<map<string, real>>
  {
    if acc.Err? then acc else AddMap(acc.value, d)
  }

  /** `get_total_impacts`: the indicators, then the stream impacts, then the
      construction, transportation and other totals are evaluated, and the
      four dictionaries are added into one: per indicator, the total is the
      sum of the four parts, and it fails with the first error among them,
      or with KeyError when a part holds an indicator outside the LCA's. */
  function TotalImpactsOf(inds: Result<set<string>>, construction: Result<map<string, real>>,
                          transportation: Result<map<string, real>>, streams: Result<map<string, real>>,
                          others: Result<map<string, real>>): Result<map<string, real>>
  {
    if inds.Err? then Err(inds.error)
    else if streams.Err? then Err(streams.error)
    else if construction.Err? then Err(construction.error)
    else if transportation.Err? then Err(transportation.error)
    else if others.Err? then Err(others.error)
    else AddParts(Ok(Zeros(inds.value)), [construction.value, transportation.value, streams.value, others.value])
  }
  /** Per indicator, the total is the sum of the construction,
      transportation, stream and other impacts; it fails with the first
      error among its parts, or with KeyError when a part holds an indicator
      outside the LCA's. */
  lemma TotalIsSumOfParts(inds: Result<set<string>>, construction: Result<map<string, real>>,
                          transportation: Result<map<string, real>>, streams: Result<map<string, real>>,
                          others: Result<map<string, real>>)
    ensures var r := TotalImpactsOf(inds, construction, transportation, streams, others);
            && (r.Ok? <==> inds.Ok? && construction.Ok? && transportation.Ok? && streams.Ok? && others.Ok?
                           && construction.value.Keys <= inds.value && transportation.value.Keys <= inds.value
                           && streams.value.Keys <= inds.value && others.value.Keys <= inds.value)
            && (r.Ok? ==>
                  r.value.Keys == inds.value &&
                  forall m | m in inds.value ::
                    r.value[m] == At(construction.value, m) + At(transportation.value, m)
                                  + At(streams.value, m) + At(others.value, m))
            && (inds.Err? ==> r == Err(inds.error))
  {
    if inds.Ok? && construction.Ok? && transportation.Ok? && streams.Ok? && others.Ok? {
      var parts := [construction.value, transportation.value, streams.value, others.value];
      AddPartsMeaning(Zeros(inds.value), parts);
      assert parts[1..] == [transportation.value, streams.value, others.value];
      assert parts[1..][1..] == [streams.value, others.value];
      assert parts[1..][1..][1..] == [others.value];
      assert parts[1..][1..][1..][1..] == [];
      assert parts[0] == construction.value && parts[1] == transportation.value;
      assert parts[2] == streams.value && parts[3] == others.value;
      forall m | m in inds.value
        ensures PartsAt(parts, m) == At(construction.value, m) + At(transportation.value, m)
                                     + At(streams.value, m) + At(others.value, m)
      {
        assert PartsAt(parts[1..][1..][1..], m) == At(others.value, m);
        assert PartsAt(parts[1..][1..], m) == At(streams.value, m) + At(others.value, m);
        assert PartsAt(parts[1..], m) == At(transportation.value, m) + At(streams.value, m) + At(others.value, m);
      }
    }
  }

  /** The sum of the parts' values for indicator `m`. */
  function PartsAt(parts: seq<map<string, real>>, m: string): real
    decreases |parts|
  {
    if parts == [] then 0.0 else At(parts[0], m) + PartsAt(parts[1..], m)
  }

  predicate PartsWithin(parts: seq<map<string, real>>, keys: set<string>)
  {
    forall k | 0 <= k < |parts| :: parts[k].Keys <= keys
  }

  lemma {:induction false} AddPartsMeaning(acc: map<string, real>, parts: seq<map<string, real>>)
    ensures AddParts(Ok(acc), parts).Ok? <==> PartsWithin(parts, acc.Keys)
    ensures AddParts(Ok(acc), parts).Ok? ==>
              AddParts(Ok(acc), parts).value.Keys == acc.Keys &&
              forall m | m in acc :: AddParts(Ok(acc), parts).value[m] == acc[m] + PartsAt(parts, m)
    ensures AddParts(Ok(acc), parts).Err? ==> AddParts(Ok(acc), parts).error == KeyError
    decreases |parts|
  {
    if parts != [] {
      if parts[0].Keys <= acc.Keys {
        var next := map m | m in acc :: acc[m] + At(parts[0], m);
        AddPartsMeaning(next, parts[1..]);
        assert PartsWithin(parts, acc.Keys) <==> PartsWithin(parts[1..], acc.Keys) by {
          if PartsWithin(parts[1..], acc.Keys) {
            forall k | 0 <= k < |parts| ensures parts[k].Keys <= acc.Keys {
              if k > 0 {
                assert parts[k] == parts[1..][k - 1];
              }
            }
          }
        }
      } else {
        AddPartsFails(KeyError, parts[1..]);
      }
    }
  }

  lemma {:induction false} AddPartsFails(e: Error, parts: seq<map<string, real>>)
    ensures AddParts(Err(e), parts) == Err(e)
    decreases |parts|
  {
    if parts != [] {
      AddPartsFails(e, parts[1..]);
    }
  }




  /** Construction impacts: ZeroDivisionError when a time is given and the
      lifetime in hours is zero; otherwise the indicators' error; otherwise
      KeyError exactly when an activity names an unknown indicator; and on
      success every indicator holds the sum of `impact*ratio*factor` over
      the activities naming it. */
  lemma ConstructionImpactsMeaning(inds: Result<set<string>>, lifetime: real, lifetimeHr: real,
                                   units: seq<Unit>, time: Option<real>)
    ensures var r := ConstructionImpactsOf(inds, lifetime, lifetimeHr, units, time);
            var ratio := TimeRatio(time, lifetimeHr);
            && (ratio.Err? ==> r == Err(ZeroDivisionError))
            && (ratio.Ok? && inds.Err? ==> r == Err(inds.error))
            && (ratio.Ok? && inds.Ok? ==>
                  (r.Ok? <==> Named(inds.value, UnitsConstructionEntries(units, lifetime, ratio.value)))
                  && (r.Err? ==> r.error == KeyError)
                  && (r.Ok? ==>
                        r.value.Keys == inds.value &&
                        forall m | m in inds.value ::
                          r.value[m] == Total(UnitsConstructionEntries(units, lifetime, ratio.value), m)))
  {
    var ratio := TimeRatio(time, lifetimeHr);
    if ratio.Ok? && inds.Ok? {
      UnitsConstructionAccepted(units, lifetime, ratio.value, inds.value);
      AddAllSums(Zeros(inds.value), UnitsConstructionEntries(units, lifetime, ratio.value));
    }
  }

  /** Transportation impacts: the indicators' error; otherwise success
      exactly when every trip names known indicators and no trip with
      impacts has a zero interval, the sum of `impact*time/interval` per
      indicator. */
  lemma TransportationImpactsMeaning(inds: Result<set<string>>, lifetimeHr: real, units: seq<Unit>,
                                     time: Option<real>)
    ensures var r := TransportationImpactsOf(inds, lifetimeHr, units, time);
            var es := UnitsTransportationEntries(units, Hours(time, lifetimeHr));
            && (inds.Err? ==> r == Err(inds.error))
            && (inds.Ok? ==>
                  (r.Ok? <==> Named(inds.value, es) && UnitsTimed(units))
                  && (r.Err? ==> r.error == KeyError || r.error == ZeroDivisionError)
                  && (r.Err? && Named(inds.value, es) ==> r.error == ZeroDivisionError)
                  && (r.Ok? ==>
                        r.value.Keys == inds.value &&
                        forall m | m in inds.value :: r.value[m] == Total(es, m)))
  {
    if inds.Ok? {
      var es := UnitsTransportationEntries(units, Hours(time, lifetimeHr));
      UnitsTransportationAccepted(units, Hours(time, lifetimeHr), inds.value);
      AddAllSums(Zeros(inds.value), es);
      TransportationErrors(Zeros(inds.value), units, Hours(time, lifetimeHr));
    }
  }

  /** When every amount either evaluates or fails with `err`, accumulating
      fails only with KeyError or `err`, and only with `err` when every
      indicator is known. */
  lemma {:induction false} AddAllErrors(acc: map<string, real>, es: seq<Entry>, err: Error)
    requires FailsOnlyWith(es, err)
    ensures AddAll(acc, es).Err? ==> AddAll(acc, es).error == KeyError || AddAll(acc, es).error == err
    ensures AddAll(acc, es).Err? && Named(acc.Keys, es) ==> AddAll(acc, es).error == err
    decreases |es|
  {
    if es != [] {
      assert es[0].amount.Ok? || es[0].amount == Err(err);
      if es[0].indicator in acc && es[0].amount.Ok? {
        var next := acc[es[0].indicator := acc[es[0].indicator] + es[0].amount.value];
        assert next.Keys == acc.Keys;
        assert FailsOnlyWith(es[1..], err) by {
          forall i | 0 <= i < |es[1..]|
            ensures es[1..][i].amount.Ok? || es[1..][i].amount == Err(err)
          {
            assert es[1..][i] == es[i + 1];
          }
        }
        assert Named(acc.Keys, es) ==> Named(acc.Keys, es[1..]) by {
          if Named(acc.Keys, es) {
            forall i | 0 <= i < |es[1..]| ensures es[1..][i].indicator in acc.Keys {
              assert es[1..][i] == es[i + 1];
            }
          }
        }
        AddAllErrors(next, es[1..], err);
      }
    }
  }

  lemma TransportationErrors(acc: map<string, real>, units: seq<Unit>, time: real)
    ensures AddAll(acc, UnitsTransportationEntries(units, time)).Err? ==>
              AddAll(acc, UnitsTransportationEntries(units, time)).error in {KeyError, ZeroDivisionError}
    ensures AddAll(acc, UnitsTransportationEntries(units, time)).Err? &&
            Named(acc.Keys, UnitsTransportationEntries(units, time)) ==>
              AddAll(acc, UnitsTransportationEntries(units, time)).error == ZeroDivisionError
  {
    UnitsTripAmounts(units, time);
    AddAllErrors(acc, UnitsTransportationEntries(units, time), ZeroDivisionError);
  }

  /** Every amount evaluates or fails with `err`. */
  predicate FailsOnlyWith(es: seq<Entry>, err: Error)
  {
    forall i | 0 <= i < |es| :: es[i].amount.Ok? || es[i].amount == Err(err)
  }

  lemma FailsOnlyWithConcat(a: seq<Entry>, b: seq<Entry>, err: Error)
    requires FailsOnlyWith(a, err) && FailsOnlyWith(b, err)
    ensures FailsOnlyWith(a + b, err)
  {
    ConcatIndex(a, b);
    forall i | 0 <= i < |a + b|
      ensures (a + b)[i].amount.Ok? || (a + b)[i].amount == Err(err)
    {
      if i >= |a| {
        assert (a + b)[|a| + (i - |a|)] == b[i - |a|];
      }
    }
  }

  lemma {:induction false} UnitsTripAmounts(units: seq<Unit>, time: real)
    ensures FailsOnlyWith(UnitsTransportationEntries(units, time), ZeroDivisionError)
    decreases |units|
  {
    if units != [] {
      UnitsTripAmounts(units[1..], time);
      TripsAmounts(units[0].transportation, time);
      FailsOnlyWithConcat(TransportationEntries(units[0].transportation, time),
                          UnitsTransportationEntries(units[1..], time), ZeroDivisionError);
    }
  }

  lemma {:induction false} TripsAmounts(trips: seq<Transportation>, time: real)
    ensures FailsOnlyWith(TransportationEntries(trips, time), ZeroDivisionError)
    decreases |trips|
  {
    if trips != [] {
      TripsAmounts(trips[1..], time);
      OneTripAmounts(trips[0].impacts, time, trips[0].interval);
      FailsOnlyWithConcat(TripEntries(trips[0].impacts, time, trips[0].interval),
                          TransportationEntries(trips[1..], time), ZeroDivisionError);
    }
  }

  lemma {:induction false} OneTripAmounts(impacts: Impacts, time: real, interval: real)
    ensures FailsOnlyWith(TripEntries(impacts, time, interval), ZeroDivisionError)
    decreases |impacts|
  {
    if impacts != [] {
      OneTripAmounts(impacts[1..], time, interval);
      FailsOnlyWithConcat([Entry(impacts[0].0, TripShare(impacts[0].1, time, interval))],
                          TripEntries(impacts[1..], time, interval), ZeroDivisionError);
    }
  }

  /** Stream impacts: the indicators' error; ValueError for an unknown kind
      as soon as a factor is visited; otherwise success exactly when every
      visited factor names a known indicator and no unlinked item is
      reached while a stream is excluded, the sum of the clamped
      `CF*time*F_mass` per indicator; the failure is KeyError or
      AttributeError, the latter whenever every indicator is known and the
      former whenever every item is linked. */
  lemma StreamImpactsMeaning(inds: Result<set<string>>, lifetimeHr: real, items: seq<StreamItem>,
                             exclude: Option<string>, kind: string, time: Option<real>)
    ensures var r := StreamImpactsOf(inds, lifetimeHr, items, exclude, kind, time);
            var es := StreamEntries(items, exclude, kind, Hours(time, lifetimeHr));
            && (inds.Err? ==> r == Err(inds.error))
            && (inds.Ok? && !ValidKind(kind) && es != [] ==> r == Err(ValueError))
            && (inds.Ok? && (ValidKind(kind) || es == []) ==>
                  (r.Ok? <==> Named(inds.value, es) && Linked(items, exclude))
                  && (r.Err? ==> r.error == KeyError || r.error == AttributeError)
                  && (r.Err? && Named(inds.value, es) ==> r.error == AttributeError)
                  && (r.Err? && Linked(items, exclude) ==> r.error == KeyError)
                  && (r.Ok? ==>
                        r.value.Keys == inds.value &&
                        forall m | m in inds.value :: r.value[m] == Total(es, m)))
  {
    if inds.Ok? {
      var es := StreamEntries(items, exclude, kind, Hours(time, lifetimeHr));
      StreamEntriesAccepted(items, exclude, kind, Hours(time, lifetimeHr), inds.value);
      AddAllSums(Zeros(inds.value), es);
      AddAllErrors(Zeros(inds.value), es, AttributeError);
    }
  }

  /** Other impacts: success exactly when every item names known
      indicators, the sum of `CF*quantity` per indicator. */
  lemma OtherImpactsMeaning(inds: Result<set<string>>, items: seq<OtherItem>)
    ensures var r := OtherImpactsOf(inds, items);
            && (inds.Err? ==> r == Err(inds.error))
            && (inds.Ok? ==>
                  (r.Ok? <==> Named(inds.value, OtherEntries(items)))
                  && (r.Err? ==> r.error == KeyError)
                  && (r.Ok? ==>
                        r.value.Keys == inds.value &&
                        forall m | m in inds.value :: r.value[m] == Total(OtherEntries(items), m)))
  {
    if inds.Ok? {
      OtherEntriesAccepted(items, inds.value);
      AddAllSums(Zeros(inds.value), OtherEntries(items));
    }
  }



  /** For the LCA's own inventories no indicator is ever unknown: the total
      fails only when there are no indicators (ValueError), when an item
      without a linked stream is reached while a stream is excluded
      (AttributeError, from the stream impacts, which are computed first) or
      when a trip with impacts has a zero interval (ZeroDivisionError), and
      otherwise
      holds, per indicator, the construction impacts over the whole
      lifetime, the transportation impacts over the lifetime in hours, the
      stream impacts over the time given and the other impacts. */
  lemma TotalOfOwnInventories(construction: seq<Unit>, transportation: seq<Unit>, streams: seq<StreamItem>,
                              others: seq<OtherItem>, lifetime: real, lifetimeHr: real,
                              exclude: Option<string>, time: Option<real>)
    ensures var inds := IndicatorsOf(construction, transportation, streams, others);
            var r := TotalImpactsOf(inds, ConstructionImpactsOf(inds, lifetime, lifetimeHr, construction, None),
                                    TransportationImpactsOf(inds, lifetimeHr, transportation, None),
                                    StreamImpactsOf(inds, lifetimeHr, streams, exclude, "all", time),
                                    OtherImpactsOf(inds, others));
            && (inds.Err? ==> r == Err(ValueError))
            && (r.Ok? <==> inds.Ok? && Linked(streams, exclude) && UnitsTimed(transportation))
            && (inds.Ok? && !Linked(streams, exclude) ==> r == Err(AttributeError))
            && (inds.Ok? && Linked(streams, exclude) && r.Err? ==> r == Err(ZeroDivisionError))
            && (r.Ok? ==> r.value.Keys == inds.value && forall m | m in inds.value ::
                  r.value[m] == Total(UnitsConstructionEntries(construction, lifetime, 1.0), m)
                                + Total(UnitsTransportationEntries(transportation, lifetimeHr), m)
                                + Total(StreamEntries(streams, exclude, "all", Hours(time, lifetimeHr)), m)
                                + Total(OtherEntries(others), m))
  {
    var inds := IndicatorsOf(construction, transportation, streams, others);
    var c := ConstructionImpactsOf(inds, lifetime, lifetimeHr, construction, None);
    var t := TransportationImpactsOf(inds, lifetimeHr, transportation, None);
    var st := StreamImpactsOf(inds, lifetimeHr, streams, exclude, "all", time);
    var o := OtherImpactsOf(inds, others);
    TotalIsSumOfParts(inds, c, t, st, o);
    if inds.Ok? {
      var keys := inds.value;
      UnitsConstructionAccepted(construction, lifetime, 1.0, keys);
      UnitsTransportationAccepted(transportation, lifetimeHr, keys);
      StreamEntriesAccepted(streams, exclude, "all", Hours(time, lifetimeHr), keys);
      OtherEntriesAccepted(others, keys);
      ConstructionImpactsMeaning(inds, lifetime, lifetimeHr, construction, None);
      TransportationImpactsMeaning(inds, lifetimeHr, transportation, None);
      StreamImpactsMeaning(inds, lifetimeHr, streams, exclude, "all", time);
      OtherImpactsMeaning(inds, others);
      assert c.Ok? && c.value.Keys == keys;
      assert st.Ok? <==> Linked(streams, exclude);
      assert st.Ok? ==> st.value.Keys == keys;
      assert st.Err? ==> st == Err(AttributeError);
      assert o.Ok? && o.value.Keys == keys;
      assert t.Ok? ==> t.value.Keys == keys;
      assert t.Ok? <==> UnitsTimed(transportation);
      assert t.Err? ==> t == Err(ZeroDivisionError);
    }
  }

  // ---- The assessment object ----------------------------------------------

  /** An LCA of a system: its lifetime (yr) and uptime ratio, which the
      setters change, and its inventories: the units with construction, the
      units with transportation, the stream impact items and the other
      items with their quantities. */
  class LCA {
    var lifetime: real
    var uptimeRatio: real
    const constructionUnits: seq<Unit>
    const transportationUnits: seq<Unit>
    const streamItems: seq<StreamItem>
    const otherItems: seq<OtherItem>

    predicate Valid()
      reads this`uptimeRatio
    {
      0.0 <= uptimeRatio <= 1.0
    }

    /** The assessment once its lifetime and ratio have been accepted. */
    constructor(lifetime: real, uptimeRatio: real, constructionUnits: seq<Unit>,
                transportationUnits: seq<Unit>, streamItems: seq<StreamItem>, otherItems: seq<OtherItem>)
      requires 0.0 <= uptimeRatio <= 1.0
      ensures Valid()
      ensures this.lifetime == lifetime && this.uptimeRatio == uptimeRatio
      ensures this.constructionUnits == constructionUnits && this.transportationUnits == transportationUnits
      ensures this.streamItems == streamItems && this.otherItems == otherItems
    {
      this.lifetime := lifetime;
      this.uptimeRatio := uptimeRatio;
      this.constructionUnits := constructionUnits;
      this.transportationUnits := transportationUnits;
      this.streamItems := streamItems;
      this.otherItems := otherItems;
    }

    /** `__init__`: the lifetime goes through `_update_lifetime` (whose
        `float` fails first), then the ratio through the `uptime_ratio`
        setter, which raises ValueError outside [0, 1]. For a unit other
        than '' or 'yr' the lifetime stored is `converted`, the value in
        years that the unit conversion returns. */
    static method New(lifetime: PyValue, unit: string, converted: real, uptimeRatio: real,
                      constructionUnits: seq<Unit>, transportationUnits: seq<Unit>,
                      streamItems: seq<StreamItem>, otherItems: seq<OtherItem>) returns (r: Result<LCA>)
      ensures r.Ok? <==> FloatOf(lifetime).Ok? && 0.0 <= uptimeRatio <= 1.0
      ensures FloatOf(lifetime).Err? ==> r == Err(FloatOf(lifetime).error)
      ensures FloatOf(lifetime).Ok? && !(0.0 <= uptimeRatio <= 1.0) ==> r == Err(ValueError)
      ensures r.Ok? ==> fresh(r.value) && r.value.Valid()
                        && r.value.lifetime == (if unit == "" || unit == "yr" then FloatOf(lifetime).value else converted)
                        && r.value.uptimeRatio == uptimeRatio
                        && r.value.constructionUnits == constructionUnits
                        && r.value.transportationUnits == transportationUnits
                        && r.value.streamItems == streamItems && r.value.otherItems == otherItems
    {
      var v := FloatOf(lifetime);
      if v.Err? {
        return Err(v.error);
      }
      if !(0.0 <= uptimeRatio <= 1.0) {
        return Err(ValueError);
      }
      var years := if unit == "" || unit == "yr" then v.value else converted;
      var a := new LCA(years, uptimeRatio, constructionUnits, transportationUnits, streamItems, otherItems);
      return Ok(a);
    }

    /** The `lifetime` setter: `float(value)` is stored when the unit is
        empty or 'yr'; for another unit the stored lifetime is `converted`,
        the value in years that the unit conversion returns. */
    method UpdateLifetime(value: PyValue, unit: string, converted: real) returns (out: Outcome)
      modifies this`lifetime
      ensures out.Fail? <==> FloatOf(value).Err?
      ensures out.Fail? ==> out.error == FloatOf(value).error && lifetime == old(lifetime)
      ensures out.Pass? && (unit == "" || unit == "yr") ==> lifetime == FloatOf(value).value
      ensures out.Pass? && unit != "" && unit != "yr" ==> lifetime == converted
    {
      var v := FloatOf(value);
      if v.Err? {
        return Fail(v.error);
      }
      if unit == "" || unit == "yr" {
        lifetime := v.value;
      } else {
        lifetime := converted;
      }
      return Pass;
    }

    /** The `uptime_ratio` setter: values in [0, 1] are stored, anything
        else raises ValueError and keeps the previous ratio. */
    method SetUptimeRatio(i: real) returns (out: Outcome)
      modifies this`uptimeRatio
      ensures out.Pass? <==> 0.0 <= i <= 1.0
      ensures out.Pass? ==> uptimeRatio == i
      ensures out.Fail? ==> out == Fail(ValueError) && uptimeRatio == old(uptimeRatio)
      ensures old(Valid()) ==> Valid()
    {
      if 0.0 <= i <= 1.0 {
        uptimeRatio := i;
        return Pass;
      }
      return Fail(ValueError);
    }

    /** `lifetime_hr`: the hours the plant operates over its lifetime. */
    function LifetimeHr(): (r: real)
      reads this`lifetime, this`uptimeRatio
      ensures Valid() && lifetime >= 0.0 ==> 0.0 <= r <= lifetime * 8760.0
      ensures uptimeRatio == 1.0 ==> r == lifetime * 8760.0
      ensures r == 0.0 <==> lifetime == 0.0 || uptimeRatio == 0.0
    {
      HoursOfBounds(lifetime, uptimeRatio);
      HoursOf(lifetime, uptimeRatio)
    }

    function Indicators(): Result<set<string>>
    {
      IndicatorsOf(constructionUnits, transportationUnits, streamItems, otherItems)
    }

    method ConstructionImpacts(units: seq<Unit>, time: Option<real>) returns (r: Result<map<string, real>>)
      ensures r == ConstructionImpactsOf(Indicators(), lifetime, LifetimeHr(), units, time)
    {
      var ratio := TimeRatio(time, LifetimeHr());
      if ratio.Err? {
        return Err(ratio.error);
      }
      var inds := Indicators();
      if inds.Err? {
        return Err(inds.error);
      }
      ghost var spec := AddAll(Zeros(inds.value), UnitsConstructionEntries(units, lifetime, ratio.value));
      var acc := Zeros(inds.value);
      var i := 0;
      while i < |units|
        invariant 0 <= i <= |units|
        invariant spec == AddAll(acc, UnitsConstructionEntries(units[i..], lifetime, ratio.value))
      {
        assert units[i..][1..] == units[i + 1..];
        var factor := Factor(lifetime, units[i].lifetime);
        AddAllConcat(acc, ConstructionEntries(units[i].construction, ratio.value, factor),
                     UnitsConstructionEntries(units[i + 1..], lifetime, ratio.value));
        var next := AddConstruction(acc, units[i].construction, ratio.value, factor);
        if next.Err? {
          return next;
        }
        acc := next.value;
        i := i + 1;
      }
      assert units[i..] == [];
      return Ok(acc);
    }

    method TransportationImpacts(units: seq<Unit>, time: Option<real>) returns (r: Result<map<string, real>>)
      ensures r == TransportationImpactsOf(Indicators(), LifetimeHr(), units, time)
    {
      var hours := Hours(time, LifetimeHr());
      var inds := Indicators();
      if inds.Err? {
        return Err(inds.error);
      }
      ghost var spec := AddAll(Zeros(inds.value), UnitsTransportationEntries(units, hours));
      var acc := Zeros(inds.value);
      var i := 0;
      while i < |units|
        invariant 0 <= i <= |units|
        invariant spec == AddAll(acc, UnitsTransportationEntries(units[i..], hours))
      {
        assert units[i..][1..] == units[i + 1..];
        AddAllConcat(acc, TransportationEntries(units[i].transportation, hours),
                     UnitsTransportationEntries(units[i + 1..], hours));
        var next := AddTransportation(acc, units[i].transportation, hours);
        if next.Err? {
          return next;
        }
        acc := next.value;
        i := i + 1;
      }
      assert units[i..] == [];
      return Ok(acc);
    }

    method StreamImpacts(items: seq<StreamItem>, exclude: Option<string>, kind: string, time: Option<real>)
      returns (r: Result<map<string, real>>)
      ensures r == StreamImpactsOf(Indicators(), LifetimeHr(), items, exclude, kind, time)
    {
      var inds := Indicators();
      if inds.Err? {
        return Err(inds.error);
      }
      var hours := Hours(time, LifetimeHr());
      r := AddStream(Zeros(inds.value), items, exclude, kind, hours);
    }

    method OtherImpacts(items: seq<OtherItem>) returns (r: Result<map<string, real>>)
      ensures r == OtherImpactsOf(Indicators(), items)
    {
      var inds := Indicators();
      if inds.Err? {
        return Err(inds.error);
      }
      ghost var spec := AddAll(Zeros(inds.value), OtherEntries(items));
      var acc := Zeros(inds.value);
      var i := 0;
      while i < |items|
        invariant 0 <= i <= |items|
        invariant spec == AddAll(acc, OtherEntries(items[i..]))
      {
        assert items[i..][1..] == items[i + 1..];
        AddAllConcat(acc, QuantityEntries(items[i].cfs, items[i].quantity), OtherEntries(items[i + 1..]));
        var next := Accumulate(acc, QuantityEntries(items[i].cfs, items[i].quantity));
        if next.Err? {
          return next;
        }
        acc := next.value;
        i := i + 1;
      }
      assert items[i..] == [];
      return Ok(acc);
    }

    method TotalImpacts(exclude: Option<string>, time: Option<real>) returns (r: Result<map<string, real>>)
      ensures r == TotalImpactsOf(Indicators(),
                                  ConstructionImpactsOf(Indicators(), lifetime, LifetimeHr(), constructionUnits, None),
                                  TransportationImpactsOf(Indicators(), LifetimeHr(), transportationUnits, None),
                                  StreamImpactsOf(Indicators(), LifetimeHr(), streamItems, exclude, "all", time),
                                  OtherImpactsOf(Indicators(), otherItems))
    {
      var inds := Indicators();
      if inds.Err? {
        return Err(inds.error);
      }
      var streams := StreamImpacts(streamItems, exclude, "all", time);
      var construction := ConstructionImpacts(constructionUnits, None);
      var transportation := TransportationImpacts(transportationUnits, None);
      var others := OtherImpacts(otherItems);
      if streams.Err? {
        return streams;
      }
      if construction.Err? {
        return construction;
      }
      if transportation.Err? {
        return transportation;
      }
      if others.Err? {
        return others;
      }
      var parts := [construction.value, transportation.value, streams.value, others.value];
      r := Ok(Zeros(inds.value));
      var k := 0;
      while k < 4
        invariant 0 <= k <= 4
        invariant TotalImpactsOf(inds, construction, transportation, streams, others)
                  == AddParts(r, parts[k..])
      {
        assert parts[k..][1..] == parts[k + 1..];
        if r.Ok? {
          r := AddEach(r.value, parts[k]);
        }
        k := k + 1;
      }
    }
  }

  /** The loop over one unit's construction activities. */
  method AddConstruction(impacts: map<string, real>, acts: seq<Impacts>, ratio: real, factor: real)
    returns (r: Result<map<string, real>>)
    ensures r == AddAll(impacts, ConstructionEntries(acts, ratio, factor))
  {
    var acc := impacts;
    var j := 0;
    while j < |acts|
      invariant 0 <= j <= |acts|
      invariant AddAll(impacts, ConstructionEntries(acts, ratio, factor))
                == AddAll(acc, ConstructionEntries(acts[j..], ratio, factor))
    {
      assert acts[j..][1..] == acts[j + 1..];
      AddAllConcat(acc, ImpactEntries(acts[j], ratio, factor), ConstructionEntries(acts[j + 1..], ratio, factor));
      var next := Accumulate(acc, ImpactEntries(acts[j], ratio, factor));
      if next.Err? {
        return next;
      }
      acc := next.value;
      j := j + 1;
    }
    assert acts[j..] == [];
    return Ok(acc);
  }

  /** The loop over the stream items: every factor of an item that is not
      excluded adds its clamped share; an unknown kind raises ValueError at
      the first factor it meets. */
  method AddStream(impacts: map<string, real>, items: seq<StreamItem>, exclude: Option<string>, kind: string,
                   time: real)
    returns (r: Result<map<string, real>>)
    ensures r == if !ValidKind(kind) && StreamEntries(items, exclude, kind, time) != [] then Err(ValueError)
                 else AddAll(impacts, StreamEntries(items, exclude, kind, time))
  {
    ghost var all := StreamEntries(items, exclude, kind, time);
    ghost var spec := AddAll(impacts, all);
    var acc := impacts;
    var i := 0;
    while i < |items|
      invariant 0 <= i <= |items|
      invariant ValidKind(kind) ==> spec == AddAll(acc, StreamEntries(items[i..], exclude, kind, time))
      invariant !ValidKind(kind) ==> acc == impacts && all == StreamEntries(items[i..], exclude, kind, time)
    {
      StreamEntriesAt(items, i, exclude, kind, time);
      AddAllConcat(acc, ItemEntries(items[i], exclude, kind, time), StreamEntries(items[i + 1..], exclude, kind, time));
      var next := AddItem(acc, items[i], exclude, kind, time);
      if next.Err? {
        return next;
      }
      acc := next.value;
      i := i + 1;
    }
    assert items[i..] == [];
    return Ok(acc);
  }

  lemma StreamEntriesAt(items: seq<StreamItem>, i: int, exclude: Option<string>, kind: string, time: real)
    requires 0 <= i < |items|
    ensures StreamEntries(items[i..], exclude, kind, time)
            == ItemEntries(items[i], exclude, kind, time) + StreamEntries(items[i + 1..], exclude, kind, time)
  {
    assert items[i..][1..] == items[i + 1..];
  }

  /** One stream item of that loop: nothing when it is the excluded stream,
      ValueError for an unknown kind once it has a factor, otherwise its
      factors' shares added. */
  method AddItem(impacts: map<string, real>, item: StreamItem, exclude: Option<string>, kind: string, time: real)
    returns (r: Result<map<string, real>>)
    ensures ValidKind(kind) ==> r == AddAll(impacts, ItemEntries(item, exclude, kind, time))
    ensures !ValidKind(kind) ==>
              if ItemEntries(item, exclude, kind, time) == [] then r == Ok(impacts) else r == Err(ValueError)
  {
    if item.stream == exclude {
      return Ok(impacts);
    }
    if !ValidKind(kind) && item.cfs != [] {
      return Err(ValueError);
    }
    if item.stream.None? {
      r := Accumulate(impacts, UnlinkedEntries(item.cfs));
    } else {
      r := Accumulate(impacts, FactorEntries(item.cfs, kind, time, item.fMass));
    }
  }

  /** The loop over one unit's transportation activities. */
  method AddTransportation(impacts: map<string, real>, trips: seq<Transportation>, time: real)
    returns (r: Result<map<string, real>>)
    ensures r == AddAll(impacts, TransportationEntries(trips, time))
  {
    var acc := impacts;
    var j := 0;
    while j < |trips|
      invariant 0 <= j <= |trips|
      invariant AddAll(impacts, TransportationEntries(trips, time))
                == AddAll(acc, TransportationEntries(trips[j..], time))
    {
      assert trips[j..][1..] == trips[j + 1..];
      AddAllConcat(acc, TripEntries(trips[j].impacts, time, trips[j].interval),
                   TransportationEntries(trips[j + 1..], time));
      var next := Accumulate(acc, TripEntries(trips[j].impacts, time, trips[j].interval));
      if next.Err? {
        return next;
      }
      acc := next.value;
      j := j + 1;
    }
    assert trips[j..] == [];
    return Ok(acc);
  }

  /** The parts added one after the other into the running total. */
  function AddParts(acc: Result<map<string, real>>, parts: seq<map<string, real>>): Result<map<string, real>>
    decreases |parts|
  {
    if parts == [] then acc else AddParts(AddMapTo(acc, parts[0]), parts[1..])
  }

  /** The loop `for m, n in d.items(): impacts[m] += n`; dictionary order is
      not modelled, and the result does not depend on it. */
  method AddEach(impacts: map<string, real>, d: map<string, real>) returns (r: Result<map<string, real>>)
    ensures r == AddMap(impacts, d)
  {
    var acc := impacts;
    var todo := d.Keys;
    while todo != {}
      invariant todo <= d.Keys
      invariant d.Keys - todo <= impacts.Keys
      invariant acc.Keys == impacts.Keys
      invariant forall m | m in acc :: acc[m] == impacts[m] + (if m in d && m !in todo then d[m] else 0.0)
      decreases todo
    {
      var m :| m in todo;
      if m !in acc {
        return Err(KeyError);
      }
      acc := acc[m := acc[m] + d[m]];
      todo := todo - {m};
    }
    assert d.Keys <= impacts.Keys;
    assert acc == map m | m in impacts :: impacts[m] + At(d, m);
    return Ok(acc);
  }

  function HoursOf(lifetime: real, uptimeRatio: real): (r: real)
  {
    lifetime * 365.0 * 24.0 * uptimeRatio
  }

  /** The lifetime hours lie between none and the full `lifetime*8760` for
      a ratio in [0, 1], are all of it at full uptime, and are none exactly
      when the lifetime or the ratio is. */
  lemma HoursOfBounds(lifetime: real, uptimeRatio: real)
    ensures 0.0 <= uptimeRatio <= 1.0 && lifetime >= 0.0 ==>
              0.0 <= HoursOf(lifetime, uptimeRatio) <= lifetime * 8760.0
    ensures uptimeRatio == 1.0 ==> HoursOf(lifetime, uptimeRatio) == lifetime * 8760.0
    ensures HoursOf(lifetime, uptimeRatio) == 0.0 <==> lifetime == 0.0 || uptimeRatio == 0.0
  {
    var full := lifetime * 8760.0;
    assert lifetime * 365.0 * 24.0 == full;
    assert HoursOf(lifetime, uptimeRatio) == full * uptimeRatio;
    if 0.0 <= uptimeRatio <= 1.0 && lifetime >= 0.0 {
      MulNonNegative(full, uptimeRatio);
      MulNonNegative(full, 1.0 - uptimeRatio);
      assert full - full * uptimeRatio == full * (1.0 - uptimeRatio);
    }
    if full * uptimeRatio == 0.0 && uptimeRatio != 0.0 {
      assert full == full * uptimeRatio / uptimeRatio;
    }
  }
}
