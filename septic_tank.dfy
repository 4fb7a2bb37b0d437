/** The septic tank: anaerobic COD and nitrogen decay, phosphorus recovery
    as struvite, settling of solids into sludge with the solubles split by
    water content, and user-scaled sizing and costs. */
module SepticTanks {
  import opened Common
  import Streams
  import AnaerobicReactors

  /** Users served by one baseline tank. */
  const BaselinePeople := 100.0
  /** Molar mass of phosphorus, g/mol. */
  const PhosphorusMolarMass := 30.97
  /** The components assumed to settle entirely into the sludge. */
  const Settled: seq<string> := ["Ca", "Mg", "OtherSS"]

  /** `user_scale_up`: users over the baseline, never below a quarter of a
      tank; 1 when the user number is not given (zero). */
  function UserScaleUp(ppl: real): (r: real)
    ensures r >= 0.25
    ensures ppl == 0.0 ==> r == 1.0
    ensures ppl != 0.0 ==> r >= ppl / BaselinePeople && (r == 0.25 || r == ppl / BaselinePeople)
  {
    if ppl != 0.0 then (if 0.25 >= ppl / BaselinePeople then 0.25 else ppl / BaselinePeople) else 1.0
  }

  /** The COD left in the treated liquid as `_run` writes it: the degraded
      COD times `1 - COD_removal`, rather than the inlet COD load. */
  function RemainingCODAsWritten(cod: real, fVol: real, removal: real): (r: real)
    ensures r == removal * RemainingCOD(cod, fVol, removal)
  {
    AnaerobicReactors.CODDegraded(cod, fVol, removal) * (1.0 - removal)
  }

  /** With nothing removed, the as-written remaining COD is zero while the
      inlet carries 1 kg/hr of COD, so degraded and remaining COD do not
      add up to the inlet load. */
  lemma RemainingCODAsWrittenLosesCOD()
    ensures var cod, fVol, removal := 1000.0, 1.0, 0.0;
      AnaerobicReactors.CODDegraded(cod, fVol, removal) + RemainingCODAsWritten(cod, fVol, removal) == 0.0
      && cod * fVol / 1000.0 == 1.0
  {
  }

  /** The COD left in the treated liquid, kg/hr: the inlet COD load less
      what was degraded. */
  function RemainingCOD(cod: real, fVol: real, removal: real): (r: real)
    ensures AnaerobicReactors.CODDegraded(cod, fVol, removal) + r == cod * fVol / 1000.0
  {
    cod * fVol / 1000.0 * (1.0 - removal)
  }

  /** Nitrogen lost by decay, kg/hr: the decayed fraction of the inlet
      nitrogen load. */
  function LostNitrogen(nLoss: real, waste: Waste): real
  {
    nLoss * AnaerobicReactors.NitrogenLoad(waste)
  }

  /** The nitrogen that leaves as N2O-nitrogen: the lost nitrogen times the
      N2O emission factor. */
  function EmittedNitrogen(nLoss: real, waste: Waste, n2oEF: real): real
  {
    LostNitrogen(nLoss, waste) * n2oEF
  }

  /** The Mg(OH)2 molar flow dosed: orthophosphate over the molar mass of
      phosphorus and the Mg dose, spread over the hours of a day. A zero
      dose raises `ZeroDivisionError`. */
  function MgOH2Dose(orthoPPost: real, mgDose: real): (r: Result<real>)
    ensures r.Err? <==> mgDose == 0.0
    ensures r.Err? ==> r.error == ZeroDivisionError
  {
    if mgDose == 0.0 then Err(ZeroDivisionError)
    else Ok(orthoPPost / PhosphorusMolarMass / mgDose / 24.0)
  }

  /** Struvite produced per hour: the recovered phosphorus over the
      phosphorus content of struvite. */
  function StruvitePerHour(p: real, pRecovery: real, iP: real): real
    requires iP != 0.0
  {
    p * pRecovery / iP
  }

  /** A liquid/sludge allocation: the two outlets and the fraction of the
      solubles that stays in the liquid. */
  datatype Split = Split(treated: Masses, sludge: Masses, ratio: real)

  /** The water the sludge carries: its dry mass at the given moisture
      content. */
  function SludgeWater(sludge: Masses, ids: seq<string>, moisture: real): (r: real)
    requires moisture != 1.0
    ensures r * (1.0 - moisture) == AnaerobicReactors.MassOf(sludge, ids)
    ensures moisture < 1.0 && AnaerobicReactors.MassOf(sludge, ids) >= 0.0 ==> r >= 0.0
  {
    Quotient(AnaerobicReactors.MassOf(sludge, ids), 1.0 - moisture)
  }

  function Quotient(x: real, d: real): (r: real)
    requires d != 0.0
    ensures r * d == x
    ensures d > 0.0 && x >= 0.0 ==> r >= 0.0
  {
    x / d
  }

  /** The water left in the liquid: the inlet water less what the sludge
      takes, never negative. */
  function TreatedWater(wasteH2O: real, sludgeWater: real): (r: real)
    ensures r >= 0.0 && r >= wasteH2O - sludgeWater
    ensures r == 0.0 || r == wasteH2O - sludgeWater
  {
    if wasteH2O - sludgeWater > 0.0 then wasteH2O - sludgeWater else 0.0
  }

  /** The share of the solubles that stays in the liquid: its share of the
      inlet water. It lies between none and all when the inlet carries
      water and the sludge water is not negative. */
  function SolubleRatio(wasteH2O: real, sludgeWater: real): (r: real)
    requires wasteH2O != 0.0
    ensures r * wasteH2O == TreatedWater(wasteH2O, sludgeWater)
    ensures wasteH2O > 0.0 && sludgeWater >= 0.0 ==> 0.0 <= r <= 1.0
  {
    var tw := TreatedWater(wasteH2O, sludgeWater);
    var r := tw / wasteH2O;
    assert r * wasteH2O == tw;
    assert wasteH2O > 0.0 && sludgeWater >= 0.0 ==> 0.0 <= r <= 1.0 by {
      if wasteH2O > 0.0 && sludgeWater >= 0.0 {
        if r > 1.0 {
          MulMonotone(r, 1.0, wasteH2O);
        }
        if r < 0.0 {
          MulNegative(r, wasteH2O);
        }
      }
    }
    r
  }

  /** The allocation step of `_run`: the liquid keeps the share `ratio` of
      every soluble and the water it has left, and the sludge gains what
      the liquid gives up, plus the water of its dry mass. */
  function Allocation(treated: Masses, sludge: Masses, wasteH2O: real, moisture: real, ids: seq<string>): (r: Split)
    requires wasteH2O != 0.0 && moisture != 1.0
    ensures r.ratio == SolubleRatio(wasteH2O, SludgeWater(sludge, ids, moisture))
    ensures At(r.treated, "H2O") == TreatedWater(wasteH2O, SludgeWater(sludge, ids, moisture))
    ensures At(r.sludge, "H2O") == SludgeWater(sludge, ids, moisture)
    ensures forall k :: k != "H2O" ==> At(r.treated, k) == Share(At(treated, k), r.ratio)
    ensures forall k :: k != "H2O" ==> At(r.sludge, k) - At(sludge, k) == At(treated, k) - At(r.treated, k)
  {
    var sw := SludgeWater(sludge, ids, moisture);
    var ratio := SolubleRatio(wasteH2O, sw);
    var after := Streams.Scaled(treated, ratio);
    var moved := map k | k in sludge.Keys + treated.Keys :: At(sludge, k) + (At(treated, k) - At(after, k));
    Split(after["H2O" := TreatedWater(wasteH2O, sw)], moved["H2O" := sw], ratio)
  }

  /** Each soluble other than water is conserved by the allocation: what
      the two outlets hold is what liquid and sludge held before. */
  lemma AllocationConserves(treated: Masses, sludge: Masses, wasteH2O: real, moisture: real, ids: seq<string>, k: string)
    requires wasteH2O != 0.0 && moisture != 1.0 && k != "H2O"
    ensures var r := Allocation(treated, sludge, wasteH2O, moisture, ids);
      At(r.treated, k) + At(r.sludge, k) == At(treated, k) + At(sludge, k)
  {
  }

  /** The COD concentration, mg/L, of a COD load in kg/hr in a flow of
      `fVol` m3/hr. */
  function Concentration(load: real, fVol: real): real
    requires fVol != 0.0
  {
    load * 1000.0 / fVol
  }

  /** A concentration times its flow is the load, in g/hr. */
  lemma ConcentrationLoad(load: real, fVol: real)
    requires fVol != 0.0
    ensures Concentration(load, fVol) * fVol == load * 1000.0
  {
    var r := load * 1000.0 / fVol;
    assert r * fVol == load * 1000.0;
  }

  /** The part `ratio` of an amount. */
  function Share(amount: real, ratio: real): real
  {
    amount * ratio
  }

  /** The COD loads behind the treated and sludge concentrations add up to
      the remaining COD, split as `ratio` and `1 - ratio`. */
  lemma CODSplitSums(remaining: real, ratio: real, treatedFVol: real, sludgeFVol: real)
    requires treatedFVol != 0.0 && sludgeFVol != 0.0
    ensures Concentration(Share(remaining, ratio), treatedFVol) * treatedFVol / 1000.0
          + Concentration(Share(remaining, 1.0 - ratio), sludgeFVol) * sludgeFVol / 1000.0 == remaining
  {
    var t := Concentration(Share(remaining, ratio), treatedFVol);
    var s := Concentration(Share(remaining, 1.0 - ratio), sludgeFVol);
    ConcentrationLoad(Share(remaining, ratio), treatedFVol);
    ConcentrationLoad(Share(remaining, 1.0 - ratio), sludgeFVol);
    assert t * treatedFVol / 1000.0 == remaining * ratio;
    assert s * sludgeFVol / 1000.0 == remaining * (1.0 - ratio);
  }

  /** The liquid after decay: a copy of the inlet with phosphorus scaled by
      `1 - P_recovery` and ammonia and other nitrogen reduced by the removed
      amounts. */
  function Decayed(imass: Masses, pRecovery: real, nRemoved: (real, real)): (r: Masses)
    ensures At(r, "P") == At(imass, "P") * (1.0 - pRecovery)
    ensures At(r, "NH3") == At(imass, "NH3") - nRemoved.0 && At(r, "NonNH3") == At(imass, "NonNH3") - nRemoved.1
    ensures forall k :: k != "P" && k != "NH3" && k != "NonNH3" ==> At(r, k) == At(imass, k)
  {
    var r := AnaerobicReactors.TreatedMasses(imass, ["P"], pRecovery, Some(nRemoved));
    assert "P" in ["P"] && "P" != "NH3" && "P" != "NonNH3";
    assert At(r, "P") == At(imass, "P") * (1.0 - pRecovery);
    r
  }

  /** The settling step: the settled components move from the liquid into
      the sludge, replacing what the sludge held of them. */
  function Settle(treated: Masses, sludge: Masses): (r: (Masses, Masses))
    ensures forall k :: k in Settled ==> At(r.0, k) == 0.0 && At(r.1, k) == At(treated, k)
    ensures forall k :: k !in Settled ==> At(r.0, k) == At(treated, k) && At(r.1, k) == At(sludge, k)
  {
    (Streams.ZeroSome(treated, Settled), Streams.AssignSome(sludge, treated, Settled, 1.0))
  }

  /** The outlets of the separation step. */
  datatype Separation = Separation(treated: Masses, sludge: Masses, treatedCOD: real, sludgeCOD: real)

  /** The end of `_run`: the settled components move from the liquid to
      the sludge, the solubles are split by water content, and the
      remaining COD is split between liquid and sludge in the same ratio,
      as concentrations over the outlets' volumetric flows: the COD loads
      behind the two concentrations add up to the remaining COD. */
  function Separated(treated: Masses, sludge: Masses, wasteH2O: real, moisture: real, ids: seq<string>,
                     remaining: real, treatedFVol: real, sludgeFVol: real): (r: Separation)
    requires wasteH2O != 0.0 && moisture != 1.0 && treatedFVol != 0.0 && sludgeFVol != 0.0
    ensures r.treatedCOD * treatedFVol / 1000.0 + r.sludgeCOD * sludgeFVol / 1000.0 == remaining
  {
    var settled := Settle(treated, sludge);
    var split := Allocation(settled.0, settled.1, wasteH2O, moisture, ids);
    CODSplitSums(remaining, split.ratio, treatedFVol, sludgeFVol);
    Separation(split.treated, split.sludge,
               Concentration(Share(remaining, split.ratio), treatedFVol),
               Concentration(Share(remaining, 1.0 - split.ratio), sludgeFVol))
  }

  /** After separation the liquid holds none of the settled components and
      the sludge holds all the liquid had of them. */
  lemma SettledEndInSludge(treated: Masses, sludge: Masses, wasteH2O: real, moisture: real, ids: seq<string>,
                           remaining: real, treatedFVol: real, sludgeFVol: real, k: string)
    requires wasteH2O != 0.0 && moisture != 1.0 && treatedFVol != 0.0 && sludgeFVol != 0.0 && k in Settled
    ensures var r := Separated(treated, sludge, wasteH2O, moisture, ids, remaining, treatedFVol, sludgeFVol);
      At(r.treated, k) == 0.0 && At(r.sludge, k) == At(treated, k)
  {
    var s := Settle(treated, sludge);
    var a := Allocation(s.0, s.1, wasteH2O, moisture, ids);
    var r := Separated(treated, sludge, wasteH2O, moisture, ids, remaining, treatedFVol, sludgeFVol);
    assert r.treated == a.treated && r.sludge == a.sludge;
    assert k != "H2O";
    assert At(s.0, k) == 0.0 && At(s.1, k) == At(treated, k);
    assert At(a.treated, k) == Share(At(s.0, k), a.ratio);
    assert At(a.sludge, k) - At(s.1, k) == At(s.0, k) - At(a.treated, k);
  }

  /** Separation conserves every component that neither settles nor is
      water: the two outlets hold what liquid and sludge held before. */
  lemma SeparatedConserves(treated: Masses, sludge: Masses, wasteH2O: real, moisture: real, ids: seq<string>,
                           remaining: real, treatedFVol: real, sludgeFVol: real, k: string)
    requires wasteH2O != 0.0 && moisture != 1.0 && treatedFVol != 0.0 && sludgeFVol != 0.0
    requires k !in Settled && k != "H2O"
    ensures var r := Separated(treated, sludge, wasteH2O, moisture, ids, remaining, treatedFVol, sludgeFVol);
      At(r.treated, k) + At(r.sludge, k) == At(treated, k) + At(sludge, k)
  {
    var s := Settle(treated, sludge);
    AllocationConserves(s.0, s.1, wasteH2O, moisture, ids, k);
  }

  /** Separation leaves the liquid a non-negative amount of water, the
      inlet's less what the sludge's dry mass takes at its moisture
      content when that is positive, and gives the sludge that water. */
  lemma SeparatedWater(treated: Masses, sludge: Masses, wasteH2O: real, moisture: real, ids: seq<string>,
                       remaining: real, treatedFVol: real, sludgeFVol: real)
    requires wasteH2O != 0.0 && moisture != 1.0 && treatedFVol != 0.0 && sludgeFVol != 0.0
    ensures var r := Separated(treated, sludge, wasteH2O, moisture, ids, remaining, treatedFVol, sludgeFVol);
      var sw := SludgeWater(Settle(treated, sludge).1, ids, moisture);
      At(r.treated, "H2O") >= 0.0 && At(r.treated, "H2O") >= wasteH2O - sw && At(r.sludge, "H2O") == sw
      && (At(r.treated, "H2O") == 0.0 || At(r.treated, "H2O") == wasteH2O - sw)
  {
  }

  /** Where the struvite goes: into the sludge when it is kept in sludge,
      else into the struvite outlet; nowhere when none is generated. The
      pair is (sludge, struvite), both emptied first. */
  function StruviteOutlets(generate: bool, inSludge: bool, produced: real): (r: (Masses, Masses))
    ensures generate && inSludge ==> r.0 == map["Struvite" := produced] && r.1 == map[]
    ensures generate && !inSludge ==> r.0 == map[] && r.1 == map["Struvite" := produced]
    ensures !generate ==> r.0 == map[] && r.1 == map[]
  {
    if !generate then (map[], map[])
    else if inSludge then (map["Struvite" := produced], map[])
    else (map[], map["Struvite" := produced])
  }

  /** The struvite appears in exactly one outlet when generated. */
  lemma StruviteRoutedOnce(generate: bool, inSludge: bool, produced: real)
    ensures var r := StruviteOutlets(generate, inSludge, produced);
      At(r.0, "Struvite") + At(r.1, "Struvite") == (if generate then produced else 0.0)
      && (At(r.0, "Struvite") != 0.0 ==> generate && inSludge)
      && (At(r.1, "Struvite") != 0.0 ==> generate && !inSludge)
  {
  }

  /** The phosphorus the struvite produced carries is the recovered share
      of the inlet's, so it and the phosphorus the decayed liquid keeps add
      up to the inlet's; a recovery between none and all of a non-negative
      load recovers between none and all of it. */
  lemma RecoveredPhosphorus(imass: Masses, pRecovery: real, nRemoved: (real, real), iP: real)
    requires iP != 0.0
    ensures var p := At(imass, "P");
      var carried := StruvitePerHour(p, pRecovery, iP) * iP;
      && carried == p * pRecovery
      && At(Decayed(imass, pRecovery, nRemoved), "P") + carried == p
      && (0.0 <= pRecovery <= 1.0 && p >= 0.0 ==> 0.0 <= carried <= p)
  {
    var p := At(imass, "P");
    var produced := p * pRecovery / iP;
    assert produced * iP == p * pRecovery;
    assert At(Decayed(imass, pRecovery, nRemoved), "P") == p * (1.0 - pRecovery);
    if pRecovery < 1.0 && p > 0.0 {
      MulMonotone(1.0, pRecovery, p);
    }
  }

  /** The phosphorus balance of `_run`: the phosphorus that recovery takes
      out of the liquid is what the struvite produced carries, so after
      separation liquid and sludge hold the inlet's phosphorus less that,
      whether or not the struvite is generated. */
  lemma PhosphorusBalance(imass: Masses, pRecovery: real, nRemoved: (real, real), iP: real,
                          generate: bool, inSludge: bool, wasteH2O: real, moisture: real,
                          ids: seq<string>, remaining: real, treatedFVol: real, sludgeFVol: real)
    requires iP != 0.0
    requires wasteH2O != 0.0 && moisture != 1.0 && treatedFVol != 0.0 && sludgeFVol != 0.0
    ensures var produced := StruvitePerHour(At(imass, "P"), pRecovery, iP);
      var r := Separated(Decayed(imass, pRecovery, nRemoved), StruviteOutlets(generate, inSludge, produced).0,
                         wasteH2O, moisture, ids, remaining, treatedFVol, sludgeFVol);
      At(r.treated, "P") + At(r.sludge, "P") + produced * iP == At(imass, "P")
  {
    var p := At(imass, "P");
    var produced := StruvitePerHour(p, pRecovery, iP);
    var sludge := StruviteOutlets(generate, inSludge, produced).0;
    var decayed := Decayed(imass, pRecovery, nRemoved);
    RecoveredPhosphorus(imass, pRecovery, nRemoved, iP);
    assert "P" !in Settled;
    var r := Separated(decayed, sludge, wasteH2O, moisture, ids, remaining, treatedFVol, sludgeFVol);
    SeparatedConserves(decayed, sludge, wasteH2O, moisture, ids, remaining, treatedFVol, sludgeFVol, "P");
    assert At(sludge, "P") == 0.0;
    assert At(r.treated, "P") + At(r.sludge, "P") == At(decayed, "P");
  }

  /** Where the struvite of `_run` ends: the struvite produced appears,
      with any the inlet carried, in the liquid, the sludge or the struvite
      outlet when it is generated; none is produced when it is not. */
  lemma StruviteBalance(imass: Masses, pRecovery: real, nRemoved: (real, real), iP: real,
                        generate: bool, inSludge: bool, wasteH2O: real, moisture: real,
                        ids: seq<string>, remaining: real, treatedFVol: real, sludgeFVol: real)
    requires iP != 0.0
    requires wasteH2O != 0.0 && moisture != 1.0 && treatedFVol != 0.0 && sludgeFVol != 0.0
    ensures var produced := StruvitePerHour(At(imass, "P"), pRecovery, iP);
      var outlets := StruviteOutlets(generate, inSludge, produced);
      var r := Separated(Decayed(imass, pRecovery, nRemoved), outlets.0, wasteH2O, moisture, ids, remaining, treatedFVol, sludgeFVol);
      At(r.treated, "Struvite") + At(r.sludge, "Struvite") + At(outlets.1, "Struvite")
        == At(imass, "Struvite") + (if generate then produced else 0.0)
  {
    var produced := StruvitePerHour(At(imass, "P"), pRecovery, iP);
    var outlets := StruviteOutlets(generate, inSludge, produced);
    var decayed := Decayed(imass, pRecovery, nRemoved);
    assert "Struvite" !in Settled;
    SeparatedConserves(decayed, outlets.0, wasteH2O, moisture, ids, remaining, treatedFVol, sludgeFVol, "Struvite");
    StruviteRoutedOnce(generate, inSludge, produced);
  }

  /** `price_ratio` applied to a cost table: every entry rescaled. */
  function Rescaled(c: map<string, real>, f: real): (r: map<string, real>)
    ensures r.Keys == c.Keys && forall k :: k in r ==> r[k] == c[k] * f
  {
    map k | k in c :: Priced(c[k], f)
  }

  /** One cost entry times the price ratio. */
  function Priced(cost: real, ratio: real): real
  {
    cost * ratio
  }

  class SepticTank {
    const includeFrontEnd: bool
    const generateStruvite: bool
    const struviteInSludge: bool
    const ppl: real
    const moisture: real
    const codRemoval: real
    const decay: AnaerobicReactors.DecayParams
    const pRecovery: real
    const orthoPPost: real
    const mgDose: real
    /** Phosphorus content of struvite, from the component table. */
    const iPStruvite: real
    const frpPerTank: real
    const qtyPump: real
    const frpTankCost: real
    const pumpCost: real
    const priceRatio: real
    /** Outlets. */
    var treated: Masses
    var treatedCOD: Option<real>
    var ch4: Masses
    var n2o: Masses
    var sludge: Masses
    var sludgeCOD: Option<real>
    var struvite: Masses
    /** The Mg(OH)2 molar flow of the dosing inlet. */
    var mgOH2: real
    var designResults: map<string, real>
    /** Construction item quantities. */
    var construction: map<string, real>
    var purchaseCosts: map<string, real>

    /** The constructor; the default moisture content of the sludge is 0.95
        and the default user number 1. */
    constructor(includeFrontEnd: bool, generateStruvite: bool, struviteInSludge: bool, ppl: real,
                moisture: real, codRemoval: real, decay: AnaerobicReactors.DecayParams, pRecovery: real,
                orthoPPost: real, mgDose: real, iPStruvite: real, frpPerTank: real, qtyPump: real,
                frpTankCost: real, pumpCost: real, priceRatio: real)
      ensures this.includeFrontEnd == includeFrontEnd && this.generateStruvite == generateStruvite
      ensures this.struviteInSludge == struviteInSludge && this.ppl == ppl && this.moisture == moisture
      ensures this.codRemoval == codRemoval && this.decay == decay && this.pRecovery == pRecovery
      ensures this.orthoPPost == orthoPPost && this.mgDose == mgDose && this.iPStruvite == iPStruvite
      ensures this.frpPerTank == frpPerTank && this.qtyPump == qtyPump
      ensures this.frpTankCost == frpTankCost && this.pumpCost == pumpCost && this.priceRatio == priceRatio
      ensures treated == map[] && ch4 == map[] && n2o == map[] && sludge == map[] && struvite == map[]
      ensures mgOH2 == 0.0 && treatedCOD == None && sludgeCOD == None
      ensures designResults == map[] && construction == map[] && purchaseCosts == map[]
    {
      this.includeFrontEnd := includeFrontEnd;
      this.generateStruvite := generateStruvite;
      this.struviteInSludge := struviteInSludge;
      this.ppl := ppl;
      this.moisture := moisture;
      this.codRemoval := codRemoval;
      this.decay := decay;
      this.pRecovery := pRecovery;
      this.orthoPPost := orthoPPost;
      this.mgDose := mgDose;
      this.iPStruvite := iPStruvite;
      this.frpPerTank := frpPerTank;
      this.qtyPump := qtyPump;
      this.frpTankCost := frpTankCost;
      this.pumpCost := pumpCost;
      this.priceRatio := priceRatio;
      treated, ch4, n2o, sludge, struvite, mgOH2 := map[], map[], map[], map[], map[], 0.0;
      treatedCOD, sludgeCOD := None, None;
      designResults, construction, purchaseCosts := map[], map[], map[];
    }

    /** The separation step of `_run`, as `Separated` states. */
    method Separate(wasteH2O: real, remaining: real, ids: seq<string>, treatedFVol: real, sludgeFVol: real)
      requires wasteH2O != 0.0 && moisture != 1.0
      requires treatedFVol != 0.0 && sludgeFVol != 0.0
      modifies this`treated, this`treatedCOD, this`sludge, this`sludgeCOD
      ensures treatedCOD.Some? && sludgeCOD.Some? &&
        Separation(treated, sludge, treatedCOD.value, sludgeCOD.value)
          == Separated(old(treated), old(sludge), wasteH2O, moisture, ids, remaining, treatedFVol, sludgeFVol)
    {
      var r := Separated(treated, sludge, wasteH2O, moisture, ids, remaining, treatedFVol, sludgeFVol);
      treated, sludge := r.treated, r.sludge;
      treatedCOD, sludgeCOD := Some(r.treatedCOD), Some(r.sludgeCOD);
    }

    /** The struvite produced per hour from the inlet's phosphorus. */
    function Produced(waste: Waste): real
      requires iPStruvite != 0.0
    {
      StruvitePerHour(At(waste.imass, "P"), pRecovery, iPStruvite)
    }

    /** The decay step of `_run` on the liquid: a copy of the inlet with its
        phosphorus recovered and its nitrogen reduced by the decayed
        nitrogen, split by `allocate` between ammonia and other nitrogen. */
    method Digest(waste: Waste, nLoss: real, allocate: (real, real) -> (real, real))
      modifies this`treated, this`treatedCOD
      ensures treated == Decayed(waste.imass, pRecovery, allocate(LostNitrogen(nLoss, waste), At(waste.imass, "NH3")))
      ensures treatedCOD == waste.codSlot
    {
      treated, treatedCOD := waste.imass, waste.codSlot;
      treated := Decayed(treated, pRecovery, allocate(LostNitrogen(nLoss, waste), At(waste.imass, "NH3")));
    }

    /** The gas outlets of `_run`: methane from the degraded COD and N2O
        from the decayed nitrogen. */
    method Emit(waste: Waste, nLoss: real)
      modifies this`ch4, this`n2o
      ensures ch4 == old(ch4)["CH4" := AnaerobicReactors.MethaneFromCOD(waste.cod, waste.fVol, codRemoval, decay)]
      ensures n2o == AnaerobicReactors.N2OOutlet(true, EmittedNitrogen(nLoss, waste, decay.n2oEFDecay), old(n2o))
    {
      ch4 := ch4["CH4" := AnaerobicReactors.MethaneFromCOD(waste.cod, waste.fVol, codRemoval, decay)];
      n2o := AnaerobicReactors.N2OOutlet(true, EmittedNitrogen(nLoss, waste, decay.n2oEFDecay), n2o);
    }

    /** The struvite step of `_run`: sludge and struvite are emptied; when
        struvite is generated, Mg(OH)2 is dosed (a zero dose raises
        `ZeroDivisionError`, leaving both emptied) and the struvite goes to
        the sludge or the struvite outlet; otherwise the Mg(OH)2 inlet is
        emptied. */
    method Dose(waste: Waste) returns (out: Outcome)
      requires iPStruvite != 0.0
      modifies this`sludge, this`struvite, this`mgOH2
      ensures out.Fail? <==> generateStruvite && mgDose == 0.0
      ensures out.Fail? ==> out.error == ZeroDivisionError && sludge == map[] && struvite == map[] && mgOH2 == old(mgOH2)
      ensures out.Pass? ==> (sludge, struvite) == StruviteOutlets(generateStruvite, struviteInSludge, Produced(waste))
      ensures out.Pass? ==> mgOH2 == (if generateStruvite then MgOH2Dose(orthoPPost, mgDose).value else 0.0)
    {
      sludge, struvite := map[], map[];
      if generateStruvite {
        var dose := MgOH2Dose(orthoPPost, mgDose);
        if dose.Err? {
          return Fail(dose.error);
        }
        mgOH2 := dose.value;
        var routed := StruviteOutlets(true, struviteInSludge, Produced(waste));
        sludge, struvite := routed.0, routed.1;
      } else {
        mgOH2 := 0.0;
      }
      return Pass;
    }

    /** The liquid and solids of `_run`: the liquid's decay as `Digest`
        states, struvite as `Dose` states (a failure there ends the run),
        then separation as `Separate` states, with the remaining COD. `ids`
        are the registered components, over which the sludge's mass is
        summed, and `treatedFVol` and `sludgeFVol` are the volumetric flows
        of the two outlets as separated. */
    method Treat(waste: Waste, nLoss: real, allocate: (real, real) -> (real, real), ids: seq<string>,
                 treatedFVol: real, sludgeFVol: real)
      returns (out: Outcome)
      requires At(waste.imass, "H2O") != 0.0 && moisture != 1.0 && iPStruvite != 0.0
      requires treatedFVol != 0.0 && sludgeFVol != 0.0
      modifies this`treated, this`treatedCOD, this`sludge, this`sludgeCOD, this`struvite, this`mgOH2
      ensures out.Fail? <==> generateStruvite && mgDose == 0.0
      ensures out.Fail? ==> out.error == ZeroDivisionError
      ensures out.Fail? ==> (treated == Decayed(waste.imass, pRecovery, allocate(LostNitrogen(nLoss, waste), At(waste.imass, "NH3")))
        && treatedCOD == waste.codSlot && sludge == map[] && struvite == map[] && sludgeCOD == old(sludgeCOD) && mgOH2 == old(mgOH2))
      ensures out.Pass? ==> (struvite == StruviteOutlets(generateStruvite, struviteInSludge, Produced(waste)).1
        && mgOH2 == (if generateStruvite then MgOH2Dose(orthoPPost, mgDose).value else 0.0))
      ensures out.Pass? ==>
        treatedCOD.Some? && sludgeCOD.Some? &&
        Separation(treated, sludge, treatedCOD.value, sludgeCOD.value)
          == Separated(Decayed(waste.imass, pRecovery, allocate(LostNitrogen(nLoss, waste), At(waste.imass, "NH3"))),
               StruviteOutlets(generateStruvite, struviteInSludge, Produced(waste)).0, At(waste.imass, "H2O"), moisture, ids,
               RemainingCOD(waste.cod, waste.fVol, codRemoval), treatedFVol, sludgeFVol)
    {
      Digest(waste, nLoss, allocate);
      out := Solids(waste, ids, treatedFVol, sludgeFVol);
    }

    /** Struvite as `Dose` states, then, unless that failed, separation as
        `Separate` states. */
    method Solids(waste: Waste, ids: seq<string>, treatedFVol: real, sludgeFVol: real) returns (out: Outcome)
      requires At(waste.imass, "H2O") != 0.0 && moisture != 1.0 && iPStruvite != 0.0
      requires treatedFVol != 0.0 && sludgeFVol != 0.0
      modifies this`treated, this`treatedCOD, this`sludge, this`sludgeCOD, this`struvite, this`mgOH2
      ensures out.Fail? <==> generateStruvite && mgDose == 0.0
      ensures out.Fail? ==> out.error == ZeroDivisionError
      ensures out.Fail? ==> (treated == old(treated) && treatedCOD == old(treatedCOD) && sludge == map[] && struvite == map[]
        && sludgeCOD == old(sludgeCOD) && mgOH2 == old(mgOH2))
      ensures out.Pass? ==> (struvite == StruviteOutlets(generateStruvite, struviteInSludge, Produced(waste)).1
        && mgOH2 == (if generateStruvite then MgOH2Dose(orthoPPost, mgDose).value else 0.0))
      ensures out.Pass? ==>
        treatedCOD.Some? && sludgeCOD.Some? &&
        Separation(treated, sludge, treatedCOD.value, sludgeCOD.value)
          == Separated(old(treated), StruviteOutlets(generateStruvite, struviteInSludge, Produced(waste)).0,
               At(waste.imass, "H2O"), moisture, ids, RemainingCOD(waste.cod, waste.fVol, codRemoval), treatedFVol, sludgeFVol)
    {
      out := Dose(waste);
      if out.Pass? {
        Separate(At(waste.imass, "H2O"), RemainingCOD(waste.cod, waste.fVol, codRemoval), ids, treatedFVol, sludgeFVol);
      }
    }

    /** `_run`: the liquid and solids as `Treat` states (with the remaining
        COD of `RemainingCOD`) and the gas outlets, which `_run` sets before
        the struvite step and which no other step reads or changes, as
        `Emit` states. */
    method Run(waste: Waste, nLoss: real, allocate: (real, real) -> (real, real), ids: seq<string>,
               treatedFVol: real, sludgeFVol: real)
      returns (out: Outcome)
      requires At(waste.imass, "H2O") != 0.0 && moisture != 1.0 && iPStruvite != 0.0
      requires treatedFVol != 0.0 && sludgeFVol != 0.0
      modifies this`treated, this`treatedCOD, this`ch4, this`n2o, this`sludge, this`sludgeCOD, this`struvite, this`mgOH2
      ensures out.Fail? <==> generateStruvite && mgDose == 0.0
      ensures out.Fail? ==> out.error == ZeroDivisionError
      ensures out.Fail? ==> (treated == Decayed(waste.imass, pRecovery, allocate(LostNitrogen(nLoss, waste), At(waste.imass, "NH3")))
        && treatedCOD == waste.codSlot && sludge == map[] && struvite == map[] && sludgeCOD == old(sludgeCOD) && mgOH2 == old(mgOH2))
      ensures out.Pass? ==> (struvite == StruviteOutlets(generateStruvite, struviteInSludge, Produced(waste)).1
        && mgOH2 == (if generateStruvite then MgOH2Dose(orthoPPost, mgDose).value else 0.0))
      ensures out.Pass? ==>
        treatedCOD.Some? && sludgeCOD.Some? &&
        Separation(treated, sludge, treatedCOD.value, sludgeCOD.value)
          == Separated(Decayed(waste.imass, pRecovery, allocate(LostNitrogen(nLoss, waste), At(waste.imass, "NH3"))),
               StruviteOutlets(generateStruvite, struviteInSludge, Produced(waste)).0, At(waste.imass, "H2O"), moisture, ids,
               RemainingCOD(waste.cod, waste.fVol, codRemoval), treatedFVol, sludgeFVol)
      ensures ch4 == old(ch4)["CH4" := AnaerobicReactors.MethaneFromCOD(waste.cod, waste.fVol, codRemoval, decay)]
      ensures n2o == AnaerobicReactors.N2OOutlet(true, EmittedNitrogen(nLoss, waste, decay.n2oEFDecay), old(n2o))
    {
      Emit(waste, nLoss);
      out := Treat(waste, nLoss, allocate, ids, treatedFVol, sludgeFVol);
    }

    /** `_design`: the fibre-reinforced plastic and the pumps, both scaled by
        the user number, recorded and listed as construction items. */
    method Design()
      modifies this`designResults, this`construction
      ensures designResults == old(designResults)["FRP" := frpPerTank * UserScaleUp(ppl)]["Pump" := qtyPump * UserScaleUp(ppl)]
      ensures construction == map["FRP" := frpPerTank * UserScaleUp(ppl), "Pump" := qtyPump * UserScaleUp(ppl)]
    {
      designResults := designResults["FRP" := frpPerTank * UserScaleUp(ppl)]["Pump" := qtyPump * UserScaleUp(ppl)];
      construction := map["FRP" := frpPerTank * UserScaleUp(ppl), "Pump" := qtyPump * UserScaleUp(ppl)];
    }

    /** `_cost`. With the front end included, the tank and pump costs are
        set from the scaled user number (`scaled` is the user scale-up
        raised to the scaling exponent 0.6) and then every entry of the cost
        table is multiplied by the price ratio; otherwise the table is
        cleared. */
    method Cost(scaled: real)
      modifies this`purchaseCosts
      ensures !includeFrontEnd ==> purchaseCosts == map[]
      ensures includeFrontEnd ==> (purchaseCosts ==
        Rescaled(old(purchaseCosts)["Tanks" := frpTankCost * scaled]["Pump" := pumpCost * scaled], priceRatio))
    {
      if !includeFrontEnd {
        purchaseCosts := map[];
        return;
      }
      var c := purchaseCosts["Tanks" := frpTankCost * scaled]["Pump" := pumpCost * scaled];
      var todo := c.Keys;
      var result := c;
      while todo != {}
        invariant todo <= c.Keys && result.Keys == c.Keys
        invariant forall k :: k in c && k !in todo ==> result[k] == Priced(c[k], priceRatio)
        invariant forall k :: k in todo ==> result[k] == c[k]
        decreases |todo|
      {
        var k :| k in todo;
        result := result[k := Priced(c[k], priceRatio)];
        todo := todo - {k};
      }
      assert result.Keys == Rescaled(c, priceRatio).Keys;
      assert forall k | k in result :: result[k] == Rescaled(c, priceRatio)[k];
      purchaseCosts := result;
    }
  }
}
