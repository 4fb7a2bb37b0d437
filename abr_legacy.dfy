/** The earlier anaerobic baffled reactor of the sanitation package: COD
    removal with all produced methane emitted, optional N2O emission, and
    box-tank sizing; its setters coerce what they are given. */
module LegacyBaffledReactor {
  import opened Common
  import AnaerobicReactors

  /** The attributes whose setters store `float(i)`. */
  datatype FloatAttr = Tau | CODRemoval | NRemoval | ReactorL | ReactorW | ReactorH | AddConcrete | ConcreteThickness

  /** The attributes whose setters store `int(np.ceil(i))`. */
  datatype CountAttr = NReactor | NBaffle

  /** `int(np.ceil(v))`: numbers and booleans round up; None and strings
      raise `TypeError`. */
  function CeilOf(v: PyValue): (r: Result<int>)
    ensures r.Ok? <==> AsFloat(v).Some?
    ensures r.Ok? ==> r.value as real - 1.0 < AsFloat(v).value <= r.value as real
    ensures r.Err? ==> r.error == TypeError
  {
    match AsFloat(v)
    case Some(x) => Ok(Ceil(x))
    case None => Err(TypeError)
  }

  /** `x *= (1 - removal)`. */
  function Reduced(x: real, removal: real): real
  {
    x * (1.0 - removal)
  }

  /** Nitrogen lost, kg/hr: the decayed fraction of the inlet nitrogen load,
      times the removal fraction. */
  function NitrogenLost(nLoss: real, waste: Waste, nRemoval: real): real
  {
    nLoss * AnaerobicReactors.NitrogenLoad(waste) * nRemoval
  }

  /** The nitrogen that leaves as N2O-nitrogen: the lost nitrogen times the
      N2O emission factor. */
  function N2ONitrogen(nLoss: real, waste: Waste, nRemoval: real, decay: AnaerobicReactors.DecayParams): real
  {
    NitrogenLost(nLoss, waste, nRemoval) * decay.n2oEFDecay
  }

  class BaffledReactor {
    const n2oEmission: bool
    const decay: AnaerobicReactors.DecayParams
    var tau: real
    var codRemoval: real
    var nRemoval: real
    /** Reactor and baffle counts as stored: loaded from the data table as
        floats, or rounded up by their setters. */
    var nReactor: real
    var nBaffle: real
    var reactorL: real
    var reactorW: real
    var reactorH: real
    var addConcrete: real
    var concreteThickness: real
    /** Outlets: treated liquid (masses and COD concentration), methane and
        N2O. */
    var treated: Masses
    var treatedCOD: Option<real>
    var ch4: Masses
    var n2o: Masses
    var designResults: map<string, real>

    constructor(n2oEmission: bool, decay: AnaerobicReactors.DecayParams, tau: real, codRemoval: real,
                nRemoval: real, nReactor: real, nBaffle: real, reactorL: real, reactorW: real,
                reactorH: real, addConcrete: real, concreteThickness: real)
      ensures this.n2oEmission == n2oEmission && this.decay == decay
      ensures this.tau == tau && this.codRemoval == codRemoval && this.nRemoval == nRemoval
      ensures this.nReactor == nReactor && this.nBaffle == nBaffle
      ensures this.reactorL == reactorL && this.reactorW == reactorW && this.reactorH == reactorH
      ensures this.addConcrete == addConcrete && this.concreteThickness == concreteThickness
      ensures treated == map[] && treatedCOD == None && ch4 == map[] && n2o == map[] && designResults == map[]
    {
      this.n2oEmission := n2oEmission;
      this.decay := decay;
      this.tau := tau;
      this.codRemoval := codRemoval;
      this.nRemoval := nRemoval;
      this.nReactor := nReactor;
      this.nBaffle := nBaffle;
      this.reactorL := reactorL;
      this.reactorW := reactorW;
      this.reactorH := reactorH;
      this.addConcrete := addConcrete;
      this.concreteThickness := concreteThickness;
      treated, treatedCOD, ch4, n2o := map[], None, map[], map[];
      designResults := map[];
    }

    function Get(a: FloatAttr): real
      reads this
    {
      match a
      case Tau => tau
      case CODRemoval => codRemoval
      case NRemoval => nRemoval
      case ReactorL => reactorL
      case ReactorW => reactorW
      case ReactorH => reactorH
      case AddConcrete => addConcrete
      case ConcreteThickness => concreteThickness
    }

    /** The float setters: the attribute takes `float(v)`; when the
        conversion raises, nothing changes. No other attribute changes. */
    method SetFloat(a: FloatAttr, v: PyValue) returns (out: Outcome)
      modifies this`tau, this`codRemoval, this`nRemoval, this`reactorL, this`reactorW,
               this`reactorH, this`addConcrete, this`concreteThickness
      ensures FloatOf(v).Err? ==> out == Fail(FloatOf(v).error)
      ensures FloatOf(v).Ok? ==> out == Pass && Get(a) == FloatOf(v).value
      ensures forall b :: (b != a || FloatOf(v).Err?) ==> Get(b) == old(Get(b))
    {
      var x := FloatOf(v);
      if x.Err? {
        return Fail(x.error);
      }
      match a {
        case Tau => tau := x.value;
        case CODRemoval => codRemoval := x.value;
        case NRemoval => nRemoval := x.value;
        case ReactorL => reactorL := x.value;
        case ReactorW => reactorW := x.value;
        case ReactorH => reactorH := x.value;
        case AddConcrete => addConcrete := x.value;
        case ConcreteThickness => concreteThickness := x.value;
      }
      return Pass;
    }

    /** The `N_reactor` and `N_baffle` setters: the count takes
        `int(np.ceil(v))`; when that raises, nothing changes. */
    method SetCount(a: CountAttr, v: PyValue) returns (out: Outcome)
      modifies this`nReactor, this`nBaffle
      ensures CeilOf(v).Err? ==> out == Fail(CeilOf(v).error) && nReactor == old(nReactor) && nBaffle == old(nBaffle)
      ensures CeilOf(v).Ok? ==> out == Pass
      ensures CeilOf(v).Ok? && a == NReactor ==> nReactor == CeilOf(v).value as real && nBaffle == old(nBaffle)
      ensures CeilOf(v).Ok? && a == NBaffle ==> nBaffle == CeilOf(v).value as real && nReactor == old(nReactor)
    {
      var n := CeilOf(v);
      if n.Err? {
        return Fail(n.error);
      }
      if a == NReactor {
        nReactor := n.value as real;
      } else {
        nBaffle := n.value as real;
      }
      return Pass;
    }

    /** `_run`. The treated liquid starts as a copy of the inlet; the COD set
        on the inlet (an unset one raises `TypeError`) gives the degraded
        COD, the treated COD concentration and `OtherSS` are scaled by
        `1 - COD_removal`, and all produced methane goes to the methane
        outlet. When N2O emission is considered, the lost nitrogen (the
        first-order decay fraction `nLoss`, computed outside this model, of
        the inlet load, times `N_removal`) is taken off the treated ammonia
        and other nitrogen as split by `allocate`, and part of it leaves as
        N2O; otherwise the N2O outlet is emptied and the nitrogen left
        alone. */
    method Run(waste: Waste, nLoss: real, allocate: (real, real) -> (real, real)) returns (out: Outcome)
      modifies this`treated, this`treatedCOD, this`ch4, this`n2o
      ensures out == Fail(TypeError) <==> waste.codSlot.None?
      ensures out.Fail? ==> treated == waste.imass && treatedCOD == None && ch4 == old(ch4) && n2o == old(n2o)
      ensures out.Pass? ==> treatedCOD == Some(Reduced(waste.codSlot.value, codRemoval))
      ensures out.Pass? ==> var lost := NitrogenLost(nLoss, waste, nRemoval);
        var nRemoved := if n2oEmission then Some(allocate(lost, At(waste.imass, "NH3"))) else None;
        treated == AnaerobicReactors.TreatedMasses(waste.imass, ["OtherSS"], codRemoval, nRemoved)
        && n2o == AnaerobicReactors.N2OOutlet(n2oEmission, N2ONitrogen(nLoss, waste, nRemoval, decay), old(n2o))
      ensures out.Pass? ==> ch4 == old(ch4)["CH4" := AnaerobicReactors.MethaneFromCOD(waste.codSlot.value, waste.fVol, codRemoval, decay)]
    {
      treated, treatedCOD := waste.imass, waste.codSlot;
      if waste.codSlot.None? {
        return Fail(TypeError);
      }
      treatedCOD := Some(Reduced(waste.codSlot.value, codRemoval));
      ch4 := ch4["CH4" := AnaerobicReactors.MethaneFromCOD(waste.codSlot.value, waste.fVol, codRemoval, decay)];
      var lost := NitrogenLost(nLoss, waste, nRemoval);
      var nRemoved := if n2oEmission then Some(allocate(lost, At(waste.imass, "NH3"))) else None;
      treated := AnaerobicReactors.TreatedMasses(waste.imass, ["OtherSS"], codRemoval, nRemoved);
      n2o := AnaerobicReactors.N2OOutlet(n2oEmission, N2ONitrogen(nLoss, waste, nRemoval, decay), n2o);
      return Pass;
    }

    /** The dimensions `_design` records first. */
    function Dimensions(): (r: map<string, real>)
      reads this`tau, this`nReactor, this`nBaffle, this`reactorL, this`reactorW, this`reactorH
      ensures r.Keys == {"Residence time", "Reactor number", "Baffle number", "Reactor length",
                         "Reactor width", "Reactor height", "Single reactor volume"}
      ensures r["Single reactor volume"] == r["Reactor length"] * r["Reactor width"] * r["Reactor height"]
    {
      map["Residence time" := tau, "Reactor number" := nReactor, "Baffle number" := nBaffle,
          "Reactor length" := reactorL, "Reactor width" := reactorW, "Reactor height" := reactorH,
          "Single reactor volume" := reactorL * reactorW * reactorH]
    }

    function Sizing(): Result<AnaerobicReactors.Sizing>
      reads this`nReactor, this`nBaffle, this`reactorL, this`reactorW, this`reactorH, this`concreteThickness, this`addConcrete
    {
      AnaerobicReactors.BaffledSizing(nReactor, nBaffle, reactorL, reactorW, reactorH, concreteThickness, addConcrete, 1.0)
    }

    /** The total concrete of the reactors. */
    function Concrete(): real
      reads this`nReactor, this`nBaffle, this`reactorL, this`reactorW, this`reactorH, this`concreteThickness, this`addConcrete
    {
      AnaerobicReactors.ConcreteFor(nReactor, nBaffle, reactorL, reactorW, reactorH, concreteThickness, addConcrete)
    }

    /** `_design`: the dimensions, the total concrete, then the total gravel
        (one compartment out of `N_baffle + 1`, in m3) and the total
        excavation. The gravel division raises `ZeroDivisionError` when
        `N_baffle + 1` is zero, after the concrete is recorded. */
    method Design() returns (out: Outcome)
      modifies this`designResults
      ensures Sizing().Err? ==> (out == Fail(ZeroDivisionError)
        && designResults == old(designResults) + Dimensions()["Total concrete" := Concrete()])
      ensures Sizing().Ok? ==> (out == Pass
        && designResults == (old(designResults) + Dimensions()["Total concrete" := Concrete()])
             ["Total gravel" := Sizing().value.gravel]["Total excavation" := Sizing().value.excavation])
    {
      designResults := designResults + Dimensions()["Total concrete" := Concrete()];
      var s := Sizing();
      if s.Err? {
        return Fail(s.error);
      }
      designResults := designResults["Total gravel" := s.value.gravel]["Total excavation" := s.value.excavation];
      return Pass;
    }
  }
}
