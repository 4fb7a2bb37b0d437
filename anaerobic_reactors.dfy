/** Anaerobic reactors: the baffled reactor and the digestion tank, which
    take a fixed fraction of the inlet COD out as methane, and the sludge
    digester, which converts organics to biogas. Streams are mass maps;
    the aggregates of a waste stream are inputs. */
module AnaerobicReactors {
  import opened Common
  import Streams

  /** `waste._COD or waste.COD`: the COD set on the stream unless it is
      unset or zero, else the computed one. */
  function InletCOD(w: Waste): (r: real)
    ensures w.codSlot.Some? && w.codSlot.value != 0.0 ==> r == w.codSlot.value
    ensures w.codSlot.None? || w.codSlot.value == 0.0 ==> r == w.cod
  {
    if w.codSlot.Some? && w.codSlot.value != 0.0 then w.codSlot.value else w.cod
  }

  /** Degraded COD in kg/hr: a concentration in mg/L times a flow in m3/hr,
      over 1e3, times the removed fraction. */
  function CODDegraded(cod: real, fVol: real, removal: real): real
  {
    cod * fVol / 1000.0 * removal
  }

  /** COD mass balance: what is degraded plus what the treated liquid still
      carries at the reduced concentration is the inlet COD load. */
  lemma CODBalance(cod: real, fVol: real, removal: real)
    ensures CODDegraded(cod, fVol, removal) + cod * (1.0 - removal) * fVol / 1000.0 == cod * fVol / 1000.0
  {
  }

  /** Methane produced, kg/hr: the COD degraded from an inlet of the given
      COD (mg/L) and flow times the methane correction factor and the
      maximum methane emission per COD. */
  function MethaneFromCOD(cod: real, fVol: real, removal: real, decay: DecayParams): real
  {
    CODDegraded(cod, fVol, removal) * decay.mcfDecay * decay.maxCH4Emission
  }

  /** Methane produced by the reactors of this file, which take the COD set
      on the inlet and fall back to its computed COD. */
  function MethaneProduced(waste: Waste, removal: real, decay: DecayParams): real
  {
    MethaneFromCOD(InletCOD(waste), waste.fVol, removal, decay)
  }

  /** The nitrogen load of the inlet, kg/hr: total nitrogen in mg/L times
      the flow in m3/hr, over 1e3. */
  function NitrogenLoad(waste: Waste): real
  {
    waste.tn / 1000.0 * waste.fVol
  }

  /** The produced methane goes to the captured-biogas outlet when biogas is
      captured, else to the fugitive-methane outlet; the other one is
      emptied, so never both carry methane. */
  function RouteMethane(capture: bool, produced: real, biogas: Masses, fugitive: Masses): (r: (Masses, Masses))
    ensures At(r.0, "CH4") + At(r.1, "CH4") == produced
    ensures capture ==> r.1 == map[] && forall k :: k != "CH4" ==> At(r.0, k) == At(biogas, k)
    ensures !capture ==> r.0 == map[] && forall k :: k != "CH4" ==> At(r.1, k) == At(fugitive, k)
  {
    if capture then (biogas["CH4" := produced], map[])
    else (map[], fugitive["CH4" := produced])
  }

  /** The fugitive N2O outlet: the lost nitrogen times an emission factor,
      converted from N to N2O by 44/28, when emission is considered; empty
      otherwise. */
  function N2OOutlet(enabled: bool, lostN: real, n2o: Masses): (r: Masses)
    ensures enabled ==> At(r, "N2O") * 28.0 == lostN * 44.0
    ensures enabled ==> forall k :: k != "N2O" ==> At(r, k) == At(n2o, k)
    ensures !enabled ==> r == map[]
  {
    if enabled then n2o["N2O" := lostN * 44.0 / 28.0] else map[]
  }

  /** The treated liquid: the inlet masses with the degraded components
      scaled by `1 - removal`, then, when nitrogen is removed, ammonia and
      other nitrogen set to the inlet's less the removed amounts. */
  function TreatedMasses(imass: Masses, degraded: seq<string>, removal: real, nRemoved: Option<(real, real)>): (r: Masses)
    ensures forall k :: (nRemoved.None? || (k != "NH3" && k != "NonNH3")) ==>
      (At(r, k) == (if k in degraded then At(imass, k) * (1.0 - removal) else At(imass, k)))
    ensures nRemoved.Some? ==> At(r, "NH3") == At(imass, "NH3") - nRemoved.value.0
    ensures nRemoved.Some? ==> At(r, "NonNH3") == At(imass, "NonNH3") - nRemoved.value.1
  {
    var t := Streams.AssignSome(imass, imass, degraded, 1.0 - removal);
    if nRemoved.Some? then
      t["NH3" := At(imass, "NH3") - nRemoved.value.0]["NonNH3" := At(imass, "NonNH3") - nRemoved.value.1]
    else t
  }

  /** The tank sizes of a baffled reactor. */
  datatype Sizing = Sizing(volume: real, concrete: real, gravel: real, excavation: real)

  /** Rectangular-tank sizing of `n` baffled reactors of `l` by `w` by `h`
      with `nb` baffles each: walls of the given thickness on the six faces
      plus one wall per baffle, gravel filling one compartment out of
      `nb + 1`, and the excavation holding every reactor. The gravel
      division raises `ZeroDivisionError` when `nb + 1` is zero. */
  function BaffledSizing(n: real, nb: real, l: real, w: real, h: real,
                         thickness: real, addConcrete: real, density: real): (r: Result<Sizing>)
    ensures r.Err? <==> nb + 1.0 == 0.0
    ensures r.Err? ==> r.error == ZeroDivisionError
    ensures r.Ok? ==> r.value.volume == l * w * h
    ensures r.Ok? ==> r.value.excavation == n * r.value.volume
    ensures r.Ok? ==> r.value.gravel * (nb + 1.0) == r.value.excavation * density
    ensures r.Ok? ==> r.value.concrete == n * thickness * addConcrete * (2.0 * l * w + 2.0 * l * h + 2.0 * w * h + nb * w * h)
  {
    var v := l * w * h;
    if nb + 1.0 == 0.0 then Err(ZeroDivisionError)
    else Ok(Sizing(v, ConcreteFor(n, nb, l, w, h, thickness, addConcrete), n * v / (nb + 1.0) * density, n * v))
  }

  /** Concrete of `n` baffled reactors, as `_design` computes it. */
  function ConcreteFor(n: real, nb: real, l: real, w: real, h: real, thickness: real, addConcrete: real): real
  {
    n * thickness * (2.0 * l * w + 2.0 * l * h + (2.0 + nb) * w * h) * addConcrete
  }

  /** The decay parameters shared by the reactors (read from their data
      tables): methane correction factor, maximum methane emission per COD,
      maximum nitrogen decay and N2O emission factor. */
  datatype DecayParams = DecayParams(mcfDecay: real, maxCH4Emission: real, nMaxDecay: real, n2oEFDecay: real)

  const GravelDensity: real := 1600.0

  class AnaerobicBaffledReactor {
    const degraded: seq<string>
    const captureBiogas: bool
    const n2oEmission: bool
    const decay: DecayParams
    const tau: real
    const codRemoval: real
    const nRemoval: real
    /** Reactor and baffle counts; the table stores them as loaded, the
        setters round them up. */
    var nReactor: real
    var nBaffle: real
    const reactorL: real
    const reactorW: real
    const reactorH: real
    const addConcrete: real
    const concreteThickness: real
    /** Outlets: treated liquid (masses and COD concentration), captured
        biogas, fugitive methane and fugitive N2O. */
    var treated: Masses
    var treatedCOD: Option<real>
    var biogas: Masses
    var ch4: Masses
    var n2o: Masses
    var designResults: map<string, real>
    /** Quantities of the three construction items: concrete, gravel and
        excavation. */
    var concreteQty: real
    var gravelQty: real
    var excavationQty: real

    constructor(degraded: seq<string>, captureBiogas: bool, n2oEmission: bool, decay: DecayParams,
                tau: real, codRemoval: real, nRemoval: real, nReactor: real, nBaffle: real,
                reactorL: real, reactorW: real, reactorH: real, addConcrete: real, concreteThickness: real)
      ensures this.degraded == degraded && this.captureBiogas == captureBiogas
      ensures this.n2oEmission == n2oEmission && this.decay == decay
      ensures this.tau == tau && this.codRemoval == codRemoval && this.nRemoval == nRemoval
      ensures this.nReactor == nReactor && this.nBaffle == nBaffle
      ensures this.reactorL == reactorL && this.reactorW == reactorW && this.reactorH == reactorH
      ensures this.addConcrete == addConcrete && this.concreteThickness == concreteThickness
      ensures treated == map[] && treatedCOD == None && biogas == map[] && ch4 == map[] && n2o == map[]
      ensures designResults == map[] && concreteQty == 0.0 && gravelQty == 0.0 && excavationQty == 0.0
    {
      this.degraded := degraded;
      this.captureBiogas := captureBiogas;
      this.n2oEmission := n2oEmission;
      this.decay := decay;
      this.tau := tau;
      this.codRemoval := codRemoval;
      this.nRemoval := nRemoval;
      this.nReactor := nReactor;
      this.nBaffle := nBaffle;
      this.reactorL := reactorL;
      this.reactorW := reactorW;
      this.reactorH := reactorH;
      this.addConcrete := addConcrete;
      this.concreteThickness := concreteThickness;
      treated, treatedCOD := map[], None;
      biogas, ch4, n2o := map[], map[], map[];
      designResults := map[];
      concreteQty, gravelQty, excavationQty := 0.0, 0.0, 0.0;
    }

    /** The `N_reactor` setter stores the ceiling of the value. */
    method SetNReactor(i: real)
      modifies this`nReactor
      ensures nReactor == Ceil(i) as real
    {
      nReactor := Ceil(i) as real;
    }

    /** The `N_baffle` setter stores the ceiling of the value. */
    method SetNBaffle(i: real)
      modifies this`nBaffle
      ensures nBaffle == Ceil(i) as real
    {
      nBaffle := Ceil(i) as real;
    }

    /** `_run`. The treated liquid starts as a copy of the inlet (masses and
        COD concentration); its COD concentration and the degraded
        components are scaled by `1 - COD_removal`. The degraded COD times
        the decay factors is methane, routed by `if_capture_biogas`. The
        removed nitrogen, split by `allocate` (code outside this model) into
        ammonia and other nitrogen, is taken off the treated liquid, and
        part of it leaves as N2O when emission is considered. Scaling an
        unset COD concentration raises `TypeError`, after the copy. */
    method Run(waste: Waste, allocate: (real, real) -> (real, real)) returns (out: Outcome)
      modifies this`treated, this`treatedCOD, this`biogas, this`ch4, this`n2o
      ensures out == Fail(TypeError) <==> waste.codSlot.None?
      ensures out.Fail? ==> treated == waste.imass && treatedCOD == None
      ensures out.Fail? ==> biogas == old(biogas) && ch4 == old(ch4) && n2o == old(n2o)
      ensures out.Pass? ==> treatedCOD == Some(waste.codSlot.value * (1.0 - codRemoval))
      ensures out.Pass? ==> var lost := NitrogenLoad(waste) * nRemoval;
        treated == TreatedMasses(waste.imass, degraded, codRemoval, Some(allocate(lost, At(waste.imass, "NH3"))))
        && n2o == N2OOutlet(n2oEmission, lost * decay.nMaxDecay * decay.n2oEFDecay, old(n2o))
      ensures out.Pass? ==> (biogas, ch4) == RouteMethane(captureBiogas, MethaneProduced(waste, codRemoval, decay), old(biogas), old(ch4))
    {
      treated, treatedCOD := waste.imass, waste.codSlot;
      if waste.codSlot.None? {
        return Fail(TypeError);
      }
      treatedCOD := Some(waste.codSlot.value * (1.0 - codRemoval));
      var routed := RouteMethane(captureBiogas, MethaneProduced(waste, codRemoval, decay), biogas, ch4);
      biogas, ch4 := routed.0, routed.1;
      var removed := allocate(NitrogenLoad(waste) * nRemoval, At(waste.imass, "NH3"));
      treated := TreatedMasses(waste.imass, degraded, codRemoval, Some(removed));
      n2o := N2OOutlet(n2oEmission, NitrogenLoad(waste) * nRemoval * decay.nMaxDecay * decay.n2oEFDecay, n2o);
      return Pass;
    }

    /** `_design`: records the dimensions, then sets the construction
        quantities from `BaffledSizing` (gravel at 1600 kg/m3). When the
        gravel division raises, the concrete quantity is already set. */
    method Design() returns (out: Outcome)
      modifies this`designResults, this`concreteQty, this`gravelQty, this`excavationQty
      ensures designResults == old(designResults)["Residence time" := tau]["Reactor number" := nReactor]
        ["Baffle number" := nBaffle]["Reactor length" := reactorL]["Reactor width" := reactorW]
        ["Reactor height" := reactorH]["Single reactor volume" := reactorL * reactorW * reactorH]
      ensures var s := BaffledSizing(nReactor, nBaffle, reactorL, reactorW, reactorH, concreteThickness, addConcrete, GravelDensity);
        (out.Pass? <==> s.Ok?) && (s.Err? ==> out == Fail(s.error))
      ensures concreteQty == nReactor * concreteThickness * (2.0 * reactorL * reactorW + 2.0 * reactorL * reactorH + (2.0 + nBaffle) * reactorW * reactorH) * addConcrete
      ensures out.Pass? ==> var s := BaffledSizing(nReactor, nBaffle, reactorL, reactorW, reactorH, concreteThickness, addConcrete, GravelDensity);
        gravelQty == s.value.gravel && excavationQty == s.value.excavation
      ensures out.Fail? ==> gravelQty == old(gravelQty) && excavationQty == old(excavationQty)
    {
      var v := reactorL * reactorW * reactorH;
      designResults := designResults["Residence time" := tau]["Reactor number" := nReactor]
        ["Baffle number" := nBaffle]["Reactor length" := reactorL]["Reactor width" := reactorW]
        ["Reactor height" := reactorH]["Single reactor volume" := v];
      concreteQty := nReactor * concreteThickness * (2.0 * reactorL * reactorW + 2.0 * reactorL * reactorH + (2.0 + nBaffle) * reactorW * reactorH) * addConcrete;
      if nBaffle + 1.0 == 0.0 {
        return Fail(ZeroDivisionError);
      }
      var sizing := BaffledSizing(nReactor, nBaffle, reactorL, reactorW, reactorH, concreteThickness, addConcrete, GravelDensity);
      gravelQty, excavationQty := sizing.value.gravel, sizing.value.excavation;
      return Pass;
    }
  }

  /** `flow_rate` of the digestion tank: the set flow rate unless it is
      unset or zero, else the inlet flow (m3/hr) times 24. */
  function FlowRate(flowRate: Option<real>, fVolIn: real): (r: real)
    ensures flowRate.Some? && flowRate.value != 0.0 ==> r == flowRate.value
    ensures flowRate.None? || flowRate.value == 0.0 ==> r == fVolIn * 24.0
  {
    if flowRate.Some? && flowRate.value != 0.0 then flowRate.value else fVolIn * 24.0
  }

  /** Single reactor volume of the digestion tank: the daily volume `q` over
      `tau` days, grossed up for the headspace and shared among all reactors
      but one, which is a backup. Raises `ZeroDivisionError` when the
      headspace is the whole reactor or there is a single reactor. */
  function SingleVolume(q: real, tau: real, headspace: real, n: real): (r: Result<real>)
    ensures r.Err? <==> headspace == 1.0 || n == 1.0
    ensures r.Err? ==> r.error == ZeroDivisionError
    ensures r.Ok? ==> r.value * (1.0 - headspace) * (n - 1.0) == q * tau * 24.0
  {
    if headspace == 1.0 || n == 1.0 then Err(ZeroDivisionError)
    else Ok(q * tau * 24.0 / (1.0 - headspace) / (n - 1.0))
  }

  /** Given a positive daily volume, reactors that are not all headspace and
      at least two reactors, every working reactor gets a positive share and
      the working reactors together hold at least the total volume. */
  lemma SingleVolumeCovers(q: real, tau: real, headspace: real, n: real)
    requires q * tau > 0.0 && 0.0 <= headspace < 1.0 && n >= 2.0
    ensures SingleVolume(q, tau, headspace, n).Ok?
    ensures SingleVolume(q, tau, headspace, n).value > 0.0
    ensures SingleVolume(q, tau, headspace, n).value * (n - 1.0) >= q * tau * 24.0
  {
    var v := SingleVolume(q, tau, headspace, n).value;
    var total := q * tau * 24.0;
    assert v * (1.0 - headspace) * (n - 1.0) == total;
    assert total > 0.0;
    PositiveFactor(v, (1.0 - headspace) * (n - 1.0), total);
    assert v * (n - 1.0) * (1.0 - headspace) == total;
    ShrinkBound(v * (n - 1.0), 1.0 - headspace, total);
  }

  lemma PositiveFactor(x: real, y: real, p: real)
    requires y > 0.0 && x * y == p && p > 0.0
    ensures x > 0.0
  {
    assert x == p / y;
  }

  lemma ShrinkBound(x: real, f: real, p: real)
    requires 0.0 < f <= 1.0 && x * f == p && p > 0.0
    ensures x >= p
  {
    PositiveFactor(x, f, p);
    assert x - x * f == x * (1.0 - f);
    assert x * (1.0 - f) >= 0.0;
  }

  class AnaerobicDigestion {
    const degraded: seq<string>
    const captureBiogas: bool
    const n2oEmission: bool
    const decay: DecayParams
    const flowRate: Option<real>
    const tau: real
    const codRemoval: real
    var nReactor: real
    const headspaceFrac: real
    var treated: Masses
    var treatedCOD: Option<real>
    var biogas: Masses
    var ch4: Masses
    var n2o: Masses
    var designResults: map<string, real>
    /** Quantity of the excavation construction item. */
    var excavationQty: real

    constructor(flowRate: Option<real>, degraded: seq<string>, captureBiogas: bool, n2oEmission: bool,
                decay: DecayParams, tau: real, codRemoval: real, nReactor: real, headspaceFrac: real)
      ensures this.flowRate == flowRate && this.degraded == degraded
      ensures this.captureBiogas == captureBiogas && this.n2oEmission == n2oEmission && this.decay == decay
      ensures this.tau == tau && this.codRemoval == codRemoval
      ensures this.nReactor == nReactor && this.headspaceFrac == headspaceFrac
      ensures treated == map[] && treatedCOD == None && biogas == map[] && ch4 == map[] && n2o == map[]
      ensures designResults == map[] && excavationQty == 0.0
    {
      this.flowRate := flowRate;
      this.degraded := degraded;
      this.captureBiogas := captureBiogas;
      this.n2oEmission := n2oEmission;
      this.decay := decay;
      this.tau := tau;
      this.codRemoval := codRemoval;
      this.nReactor := nReactor;
      this.headspaceFrac := headspaceFrac;
      treated, treatedCOD := map[], None;
      biogas, ch4, n2o := map[], map[], map[];
      designResults := map[];
      excavationQty := 0.0;
    }

    /** The `N_reactor` setter stores the ceiling of the value. */
    method SetNReactor(i: real)
      modifies this`nReactor
      ensures nReactor == Ceil(i) as real
    {
      nReactor := Ceil(i) as real;
    }

    /** `_run`: as the baffled reactor for COD and methane. Nitrogen is
        touched only when N2O emission is considered: the lost nitrogen is
        the first-order decay fraction `nLoss` (code outside this model) of
        the inlet nitrogen load; it is taken off the treated liquid as split
        by `allocate`, and times the emission factor leaves as N2O.
        Otherwise the N2O outlet is emptied. */
    method Run(waste: Waste, nLoss: real, allocate: (real, real) -> (real, real)) returns (out: Outcome)
      modifies this`treated, this`treatedCOD, this`biogas, this`ch4, this`n2o
      ensures out == Fail(TypeError) <==> waste.codSlot.None?
      ensures out.Fail? ==> treated == waste.imass && treatedCOD == None
      ensures out.Fail? ==> biogas == old(biogas) && ch4 == old(ch4) && n2o == old(n2o)
      ensures out.Pass? ==> treatedCOD == Some(waste.codSlot.value * (1.0 - codRemoval))
      ensures out.Pass? ==> var lost := nLoss * NitrogenLoad(waste);
        var nRemoved := if n2oEmission then Some(allocate(lost, At(waste.imass, "NH3"))) else None;
        treated == TreatedMasses(waste.imass, degraded, codRemoval, nRemoved)
        && n2o == N2OOutlet(n2oEmission, lost * decay.n2oEFDecay, old(n2o))
      ensures out.Pass? ==> (biogas, ch4) == RouteMethane(captureBiogas, MethaneProduced(waste, codRemoval, decay), old(biogas), old(ch4))
    {
      treated, treatedCOD := waste.imass, waste.codSlot;
      if waste.codSlot.None? {
        return Fail(TypeError);
      }
      treatedCOD := Some(waste.codSlot.value * (1.0 - codRemoval));
      var routed := RouteMethane(captureBiogas, MethaneProduced(waste, codRemoval, decay), biogas, ch4);
      biogas, ch4 := routed.0, routed.1;
      var nRemoved := if n2oEmission then Some(allocate(nLoss * NitrogenLoad(waste), At(waste.imass, "NH3"))) else None;
      treated := TreatedMasses(waste.imass, degraded, codRemoval, nRemoved);
      n2o := N2OOutlet(n2oEmission, nLoss * NitrogenLoad(waste) * decay.n2oEFDecay, n2o);
      return Pass;
    }

    /** `_design`, up to the single reactor volume and the excavation (the
        total volume); the cylinder dimensions and concrete are not part of
        this model. */
    method Design(fVolIn: real) returns (out: Outcome)
      modifies this`designResults, this`excavationQty
      ensures var q := FlowRate(flowRate, fVolIn);
        var v := SingleVolume(q, tau, headspaceFrac, nReactor);
        (out.Pass? <==> v.Ok?) && (v.Err? ==> out == Fail(v.error))
        && (v.Ok? ==> designResults == old(designResults)["Volumetric flow rate" := q]["Residence time" := tau]
                        ["Reactor number" := nReactor]["Single reactor volume" := v.value]
                      && excavationQty == q * tau * 24.0)
        && (v.Err? ==> designResults == old(designResults)["Volumetric flow rate" := q]["Residence time" := tau]
                         ["Reactor number" := nReactor] && excavationQty == old(excavationQty))
    {
      var q := FlowRate(flowRate, fVolIn);
      designResults := designResults["Volumetric flow rate" := q]["Residence time" := tau]["Reactor number" := nReactor];
      var total := q * tau * 24.0;
      var v := SingleVolume(q, tau, headspaceFrac, nReactor);
      if v.Err? {
        return Fail(v.error);
      }
      designResults := designResults["Single reactor volume" := v.value];
      excavationQty := total;
      return Pass;
    }
  }

  /** Attribute reads in a constructor: reading an attribute that has not
      been assigned raises `AttributeError`. */
  function GetAttr(present: set<string>, name: string): (r: Outcome)
    ensures r.Pass? <==> name in present
    ensures r.Fail? ==> r.error == AttributeError
  {
    if name in present then Pass else Fail(AttributeError)
  }

  /** The attributes the sludge digester's constructor has assigned when it
      reaches its `methane_fraction` line. */
  const AssignedBeforeMethaneFraction: set<string> :=
    {"HRT", "SRT", "T", "Y", "b", "organics_conversion", "COD_factor", "methane_yield"}

  /** As written, the constructor reads `methane_fraction` instead of
      assigning it, and the attribute is not defined anywhere on the class,
      so every construction raises `AttributeError`. */
  lemma SludgeDigesterInitRaises()
    ensures GetAttr(AssignedBeforeMethaneFraction, "methane_fraction") == Fail(AttributeError)
  {
  }

  /** The biogas of the sludge digester: methane plus the CO2 that makes
      methane the given fraction of the biogas. */
  function BiogasOf(methaneVol: real, methaneFraction: real): (r: Masses)
    requires methaneFraction != 0.0
    ensures r.Keys == {"CH4", "CO2"}
    ensures r["CH4"] == methaneVol
    ensures r["CO2"] * methaneFraction == methaneVol * (1.0 - methaneFraction)
  {
    map["CH4" := methaneVol, "CO2" := methaneVol / methaneFraction * (1.0 - methaneFraction)]
  }

  /** Methane makes up exactly the methane fraction of the biogas volume. */
  lemma MethaneShare(methaneVol: real, methaneFraction: real)
    requires methaneFraction != 0.0
    ensures var b := BiogasOf(methaneVol, methaneFraction);
      b["CH4"] == methaneFraction * (b["CH4"] + b["CO2"])
  {
    var b := BiogasOf(methaneVol, methaneFraction);
    calc {
      methaneFraction * (b["CH4"] + b["CO2"]);
      methaneFraction * methaneVol + b["CO2"] * methaneFraction;
      methaneFraction * methaneVol + methaneVol * (1.0 - methaneFraction);
      methaneVol;
    }
  }

  class SludgeDigester {
    const srt: real
    const y: real
    const b: real
    const organicsConversion: real
    const methaneYield: real
    const methaneFraction: real
    const codFactor: real
    /** Wall and slab thickness, ft; an unset or zero slab thickness falls
        back to the wall thickness plus 2 in. */
    var tWall: real
    var tSlab: real
    /** Pump building length, width and depth, excavation slope and
        construction access, ft. */
    var pbl: real
    var pbw: real
    var pbd: real
    var excavSlope: real
    var constrAccess: real
    var digested: Masses
    /** Biogas volumetric flows. */
    var biogas: Masses

    /** The constructor with `methane_fraction` assigned, which is what its
        parameter list and documentation intend. The class defaults of the
        building dimensions are 6/12 and 8/12 ft, 50, 30 and 10 ft, 1.5 and
        3 ft. */
    constructor(srt: real, y: real, b: real, organicsConversion: real, codFactor: real,
                methaneYield: real, methaneFraction: real)
      ensures this.srt == srt && this.y == y && this.b == b
      ensures this.organicsConversion == organicsConversion && this.codFactor == codFactor
      ensures this.methaneYield == methaneYield && this.methaneFraction == methaneFraction
      ensures tWall == 6.0 / 12.0 && tSlab == 8.0 / 12.0
      ensures pbl == 50.0 && pbw == 30.0 && pbd == 10.0 && excavSlope == 1.5 && constrAccess == 3.0
      ensures digested == map[] && biogas == map[]
    {
      this.srt := srt;
      this.y := y;
      this.b := b;
      this.organicsConversion := organicsConversion;
      this.codFactor := codFactor;
      this.methaneYield := methaneYield;
      this.methaneFraction := methaneFraction;
      tWall, tSlab := 6.0 / 12.0, 8.0 / 12.0;
      pbl, pbw, pbd := 50.0, 30.0, 10.0;
      excavSlope, constrAccess := 1.5, 3.0;
      digested, biogas := map[], map[];
    }

    /** The constructor as written: the digester object exists and its
        parameters are taken, but the `methane_fraction` line then reads an
        attribute that nothing has assigned, so construction raises
        `AttributeError` whatever the arguments. */
    static method NewAsWritten(srt: real, y: real, b: real, organicsConversion: real, codFactor: real,
                               methaneYield: real, methaneFraction: real)
      returns (r: Result<SludgeDigester>)
      ensures r == Err(AttributeError)
    {
      var d := new SludgeDigester(srt, y, b, organicsConversion, codFactor, methaneYield, methaneFraction);
      var read := GetAttr(AssignedBeforeMethaneFraction, "methane_fraction");
      r := if read.Fail? then Err(read.error) else Ok(d);
    }

    /** `t_slab`: the set slab thickness unless it is zero, else two inches
        (2/12 ft) more than the wall. */
    function SlabThickness(): (r: real)
      reads this
      ensures tSlab != 0.0 ==> r == tSlab
      ensures tSlab == 0.0 ==> r == tWall + 2.0 / 12.0
    {
      if tSlab != 0.0 then tSlab else tWall + 2.0 / 12.0
    }

    /** Excavation of the pump building in ft3: a frustum approximated by
        the mean of its bottom area (the building plus construction access
        on each side) and its top area (widened by the slope over the
        building width), times the depth. */
    function ExcavationVolume(): (r: real)
      reads this
      ensures var bottom := (pbl + 2.0 * constrAccess) * (pbw + 2.0 * constrAccess);
        var top := (pbl + 2.0 * constrAccess + pbw * excavSlope) * (pbw + 2.0 * constrAccess + pbw * excavSlope);
        r == 0.5 * (bottom + top) * pbd
    {
      var bottom := (pbl + 2.0 * constrAccess) * (pbw + 2.0 * constrAccess);
      var top := (pbl + 2.0 * constrAccess + pbw * excavSlope) * (pbw + 2.0 * constrAccess + pbw * excavSlope);
      0.5 * (bottom + top) * pbd
    }

    /** With non-negative dimensions and slope the top of the pit is at
        least its bottom, so the excavation is at least a straight pit of
        the bottom area. */
    lemma ExcavationAtLeastStraightPit()
      requires pbl >= 0.0 && pbw >= 0.0 && pbd >= 0.0 && excavSlope >= 0.0 && constrAccess >= 0.0
      ensures ExcavationVolume() >= (pbl + 2.0 * constrAccess) * (pbw + 2.0 * constrAccess) * pbd
    {
      var l := pbl + 2.0 * constrAccess;
      var w := pbw + 2.0 * constrAccess;
      var e := pbw * excavSlope;
      MulNonNegative(pbw, excavSlope);
      assert (l + e) * (w + e) == l * w + e * (l + w + e);
      MulNonNegative(e, l + w + e);
      MulNonNegative(e * (l + w + e), pbd);
      assert ExcavationVolume() == 0.5 * (l * w + (l + e) * (w + e)) * pbd;
      assert ExcavationVolume() == l * w * pbd + 0.5 * (e * (l + w + e)) * pbd;
    }

    /** The methane volume from a total COD load (g/d): the methane yield of
        the converted COD less the COD factor times the biomass grown on it,
        `Y * converted / (1 + b * SRT)`; it is proportional to the COD
        load. */
    function MethaneVolume(totalCOD: real): (r: real)
      requires 1.0 + b * srt != 0.0
      ensures r == totalCOD * organicsConversion * (methaneYield - codFactor * y / (1.0 + b * srt))
    {
      var converted, d := totalCOD * organicsConversion, 1.0 + b * srt;
      var q := y / d;
      assert q * d == y;
      assert (converted * q) * d == y * totalCOD * organicsConversion;
      assert codFactor * y / d == codFactor * q by { assert (codFactor * q) * d == codFactor * y; }
      methaneYield * totalCOD * organicsConversion - codFactor * (y * totalCOD * organicsConversion / (1.0 + b * srt))
    }

    /** `_run`. The biomass COD (g/d) is the inlet's active-biomass mass
        times 1e3 * 24 * 1.42; the substrate COD is the COD load of the
        digested stream after its biomass is zeroed, computed outside this
        model. A share of their total is converted: methane is the methane
        yield of the converted COD less the COD of the new biomass, and the
        biogas is that methane with its CO2. Every substrate and biomass
        component of the digested stream keeps `1 - organics_conversion` of
        the inlet mass; every other component passes through. A zero
        `1 + b * SRT` or methane fraction yields a non-finite value in the
        source and is excluded. */
    method Run(sludge: Masses, activeBiomass: seq<string>, substrates: seq<string>, substrateCOD: real)
      requires 1.0 + b * srt != 0.0 && methaneFraction != 0.0
      modifies this`digested, this`biogas
      ensures forall k :: (At(digested, k) ==
        (if k in activeBiomass || k in substrates then At(sludge, k) * (1.0 - organicsConversion) else At(sludge, k)))
      ensures biogas == BiogasOf(MethaneVolume(MassOf(sludge, activeBiomass) * 1000.0 * 24.0 * 1.42 + substrateCOD), methaneFraction)
    {
      var biomassCOD := MassOf(sludge, activeBiomass) * 1000.0 * 24.0 * 1.42;
      var methaneVol := MethaneVolume(biomassCOD + substrateCOD);
      digested := Digested(sludge, activeBiomass, substrates, organicsConversion);
      biogas := map[];
      biogas := BiogasOf(methaneVol, methaneFraction);
    }
  }

  /** `m[ids].sum()`. */
  function MassOf(m: Masses, ids: seq<string>): real
  {
    Sum(seq(|ids|, i requires 0 <= i < |ids| => At(m, ids[i])))
  }

  /** The digested stream of the sludge digester: a copy of the sludge with
      its biomass zeroed, its substrates scaled by `1 - conversion`, and its
      biomass set to the sludge's biomass scaled the same way. */
  function Digested(sludge: Masses, activeBiomass: seq<string>, substrates: seq<string>, conversion: real): (r: Masses)
    ensures forall k :: (At(r, k) ==
      (if k in activeBiomass || k in substrates then At(sludge, k) * (1.0 - conversion) else At(sludge, k)))
  {
    var zeroed := Streams.AssignSome(sludge, sludge, activeBiomass, 0.0);
    var reduced := Streams.AssignSome(zeroed, zeroed, substrates, 1.0 - conversion);
    var r := Streams.AssignSome(reduced, sludge, activeBiomass, 1.0 - conversion);
    assert forall k :: (At(r, k) ==
      (if k in activeBiomass || k in substrates then At(sludge, k) * (1.0 - conversion) else At(sludge, k))) by {
      forall k ensures At(r, k) ==
        (if k in activeBiomass || k in substrates then At(sludge, k) * (1.0 - conversion) else At(sludge, k)) {
        assert At(r, k) == (if k in activeBiomass then At(sludge, k) * (1.0 - conversion) else At(reduced, k));
        assert At(reduced, k) == (if k in substrates then At(zeroed, k) * (1.0 - conversion) else At(zeroed, k));
      }
    }
    r
  }
}
