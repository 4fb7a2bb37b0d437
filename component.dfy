/** A component: a chemical species with the wastewater-specific attributes
    (element contents `i_*`, COD fractions `f_*`, particle size, degradability,
    organic flag) and the validation its setters apply. */
module ComponentModel {
  import opened Common

  const ParticleSizes: seq<string> := ["Dissolved gas", "Soluble", "Colloidal", "Particulate"]
  const Degradabilities: seq<string> := ["Readily", "Slowly", "Undegradable"]

  /** Standard atomic weights (g/mol) of oxygen and nitrogen. */
  const MW_O: real := 15.9994
  const MW_N: real := 14.0067

  /** Formulas whose nitrogen is ammonia-like or nitrite-like, for the i_NOD default. */
  const AmmoniaFormulas: seq<string> := ["H3N", "NH4", "NH3", "NH4+"]
  const NitriteFormulas: seq<string> := ["NO2-", "HNO2"]
  /** Inorganic formulas that still carry a COD. */
  const CODFormulas: seq<string> := ["H2", "O2", "N2", "NO2-", "NO3-"]

  /** The numeric properties, one private slot each. */
  datatype Prop = IC | IN | IP | IK | IMg | ICa | IMass | ICharge | ICOD | INOD
                | FBOD5 | FuBOD | FVmass

  function PropName(p: Prop): string
  {
    match p
    case IC => "i_C"
    case IN => "i_N"
    case IP => "i_P"
    case IK => "i_K"
    case IMg => "i_Mg"
    case ICa => "i_Ca"
    case IMass => "i_mass"
    case ICharge => "i_charge"
    case ICOD => "i_COD"
    case INOD => "i_NOD"
    case FBOD5 => "f_BOD5_COD"
    case FuBOD => "f_uBOD_COD"
    case FVmass => "f_Vmass_Totmass"
  }

  /** The `i_*` properties in declaration order: the fields a basis change rescales. */
  const IProps: seq<Prop> := [IC, IN, IP, IK, IMg, ICa, IMass, ICharge, ICOD, INOD]

  /** Every numeric property, in declaration order. */
  const NumProps: seq<Prop> := IProps + [FBOD5, FuBOD, FVmass]

  /** The slots of the six element contents, and the element each holds. */
  const ElementProps: seq<Prop> := [IC, IN, IP, IK, IMg, ICa]

  function Symbol(p: Prop): string
  {
    match p
    case IC => "C"
    case IN => "N"
    case IP => "P"
    case IK => "K"
    case IMg => "Mg"
    case ICa => "Ca"
    case _ => ""
  }

  /** The slot that holds the content of an element, for the six elements that have one. */
  function ElementSlot(atom: string): Option<Prop>
  {
    if atom == "C" then Some(IC)
    else if atom == "N" then Some(IN)
    else if atom == "P" then Some(IP)
    else if atom == "K" then Some(IK)
    else if atom == "Mg" then Some(IMg)
    else if atom == "Ca" then Some(ICa)
    else None
  }

  predicate IsNumericName(name: string)
  {
    HasPrefix(name, 'i') || HasPrefix(name, 'f')
  }

  predicate IsEnumName(name: string)
  {
    name in ["particle_size", "degradability", "organic"]
  }

  /** Membership in `allowed_values[name]` under Python's `==`, where
      True == 1 and False == 0. */
  predicate Allowed(name: string, v: PyValue)
  {
    if name == "particle_size" then v.PyStr? && v.s in ParticleSizes
    else if name == "degradability" then v.PyStr? && v.s in Degradabilities
    else name == "organic" && (v.PyBool? || v == PyNum(0.0) || v == PyNum(1.0))
  }

  /** `check_return_property` as written: the [0, 1] range test for `f_*`
      names sits after an unconditional return and never runs. */
  function CheckReturnPropertyAsWritten(name: string, value: PyValue): (r: Result<PyValue>)
    ensures HasPrefix(name, 'f') && AsFloat(value).Some? ==> r == Ok(PyNum(AsFloat(value).value))
  {
    if IsNumericName(name) then
      match AsFloat(value)
      case Some(x) => Ok(PyNum(x))
      case None => if !Truthy(value) then Ok(PyNone) else Err(TypeError)
    else if IsEnumName(name) then
      if Allowed(name, value) then Ok(value) else Err(AssertionError)
    else Ok(PyNone)
  }

  /** The numeric branch of `check_return_property`, with the range test the
      class documentation promises for fractions: a number (or boolean) is
      converted, a falsy non-number becomes None, anything else is a
      TypeError, and a fraction outside [0, 1] is a ValueError. */
  function CheckNumber(value: PyValue, fraction: bool): (r: Result<Option<real>>)
    ensures r == Err(TypeError) <==> AsFloat(value).None? && Truthy(value)
    ensures AsFloat(value).None? && !Truthy(value) ==> r == Ok(None)
    ensures r.Ok? && r.value.Some? ==> AsFloat(value) == Some(r.value.value)
    ensures !fraction && AsFloat(value).Some? ==> r == Ok(AsFloat(value))
    ensures fraction ==>
      (r == Err(ValueError) <==> AsFloat(value).Some? && !(0.0 <= AsFloat(value).value <= 1.0))
    ensures fraction && r.Ok? && r.value.Some? ==> 0.0 <= r.value.value <= 1.0
  {
    match AsFloat(value)
    case Some(x) => if fraction && (x > 1.0 || x < 0.0) then Err(ValueError) else Ok(Some(x))
    case None => if !Truthy(value) then Ok(None) else Err(TypeError)
  }

  /** `check_return_property` corrected: numeric names go through
      `CheckNumber` (fractions range-checked), the three classification names
      must hold an allowed value, every other name yields None. */
  function CheckReturnProperty(name: string, value: PyValue): (r: Result<PyValue>)
    ensures IsNumericName(name) ==>
      (r.Ok? <==> CheckNumber(value, HasPrefix(name, 'f')).Ok?) &&
      (r.Err? ==> r.error == CheckNumber(value, HasPrefix(name, 'f')).error)
    ensures !IsNumericName(name) && IsEnumName(name) ==>
      (r.Ok? <==> Allowed(name, value)) && (r.Ok? ==> r.value == value) &&
      (r.Err? ==> r.error == AssertionError)
    ensures !IsNumericName(name) && !IsEnumName(name) ==> r == Ok(PyNone)
  {
    if IsNumericName(name) then
      match CheckNumber(value, HasPrefix(name, 'f'))
      case Ok(Some(x)) => Ok(PyNum(x))
      case Ok(None) => Ok(PyNone)
      case Err(e) => Err(e)
    else if IsEnumName(name) then
      if Allowed(name, value) then Ok(value) else Err(AssertionError)
    else Ok(PyNone)
  }

  /** The names of the numeric properties: fractions start with `f_`, the
      others with `i_`. */
  predicate IsFraction(p: Prop)
  {
    p == FBOD5 || p == FuBOD || p == FVmass
  }

  lemma PropNamePrefix(p: Prop)
    ensures IsNumericName(PropName(p))
    ensures HasPrefix(PropName(p), 'f') <==> IsFraction(p)
  {
  }

  /** The discrepancy: a COD fraction of 1.5 passes the check as written and
      is refused by the corrected one. */
  lemma FractionRangeCheckIsDead()
    ensures CheckReturnPropertyAsWritten("f_BOD5_COD", PyNum(1.5)) == Ok(PyNum(1.5))
    ensures CheckReturnProperty("f_BOD5_COD", PyNum(1.5)) == Err(ValueError)
  {
  }

  /** The content of an element derived from a formula: its mass fraction
      times i_mass, or 0 for an element the formula lacks. */
  function ContentFromFormula(atoms: map<string, real>, atom: string, iMass: real): (r: real)
    ensures atom !in atoms ==> r == 0.0
    ensures atom in atoms && atoms[atom] > 0.0 && iMass > 0.0 ==> r > 0.0
  {
    if atom in atoms then atoms[atom] * iMass else 0.0
  }

  /** The charge content derived from a formula (`chargePerMass` is its
      charge over its molar mass), or 0 without a formula. */
  function ChargeFromFormula(formula: string, chargePerMass: real, iMass: real): (r: real)
    ensures formula == "" || chargePerMass == 0.0 ==> r == 0.0
    ensures formula != "" && iMass > 0.0 ==> (r > 0.0 <==> chargePerMass > 0.0) && (r < 0.0 <==> chargePerMass < 0.0)
  {
    if formula != "" then chargePerMass * iMass else 0.0
  }

  /** Python truthiness of a stored slot. */
  predicate NonZero(slot: Option<real>)
  {
    slot.Some? && slot.value != 0.0
  }

  /** Python's `x or d` on a stored slot: an unset or zero slot reads as `d`. */
  function OrDefault(slot: Option<real>, d: real): real
  {
    if slot.Some? && slot.value != 0.0 then slot.value else d
  }

  /** The default nitrogenous oxygen demand: ammonia nitrogen takes four
      oxygen atoms per nitrogen atom, nitrite nitrogen one. */
  function DefaultINOD(degradability: Option<string>, formula: string, iN: real): (r: real)
  {
    if degradability == Some("Readily") || degradability == Some("Slowly") || formula in AmmoniaFormulas then
      iN * (4.0 * MW_O) / MW_N
    else if formula in NitriteFormulas then
      iN * MW_O / MW_N
    else 0.0
  }

  /** With the same nitrogen content, an ammonia formula's default i_NOD is four
      times a nitrite formula's, and a component that is neither (and not
      degradable) has none. */
  lemma DefaultINODByFormula(iN: real, ammonia: string, nitrite: string, other: string)
    requires ammonia in AmmoniaFormulas && nitrite in NitriteFormulas
    requires other !in AmmoniaFormulas && other !in NitriteFormulas
    ensures DefaultINOD(None, ammonia, iN) == 4.0 * DefaultINOD(None, nitrite, iN)
    ensures DefaultINOD(Some("Undegradable"), other, iN) == 0.0
    ensures iN >= 0.0 ==> DefaultINOD(Some("Readily"), other, iN) >= 0.0
  {
    assert nitrite !in AmmoniaFormulas;
  }

  /** A property value counts as missing when it is falsy, not equal to 0 and
      not a boolean (or its text). */
  predicate IsMissing(v: PyValue)
  {
    !EqualsZero(v) && !(v.PyBool? || v == PyStr("True") || v == PyStr("False")) && !Truthy(v)
  }

  lemma MissingMeansNoneOrEmpty(v: PyValue)
    ensures IsMissing(v) <==> v == PyNone || v == PyStr("")
  {
  }

  /** The names of the missing properties, in the order given. */
  function MissingNames(props: seq<(string, PyValue)>): (r: seq<string>)
  {
    if props == [] then []
    else
      var rest := MissingNames(props[..|props| - 1]);
      if IsMissing(props[|props| - 1].1) then rest + [props[|props| - 1].0] else rest
  }

  lemma {:induction false} MissingNamesIff(props: seq<(string, PyValue)>, n: string)
    ensures n in MissingNames(props) <==>
      exists k :: 0 <= k < |props| && props[k].0 == n && IsMissing(props[k].1)
  {
    if props != [] {
      var init := props[..|props| - 1];
      MissingNamesIff(init, n);
      if n in MissingNames(init) {
        var k :| 0 <= k < |init| && init[k].0 == n && IsMissing(init[k].1);
        assert props[k] == init[k];
      }
      if exists k :: 0 <= k < |props| && props[k].0 == n && IsMissing(props[k].1) {
        var k :| 0 <= k < |props| && props[k].0 == n && IsMissing(props[k].1);
        if k < |init| {
          assert init[k] == props[k];
        }
      }
    }
  }

  lemma {:induction false} MissingNamesAppend(a: seq<(string, PyValue)>, b: seq<(string, PyValue)>)
    ensures MissingNames(a + b) == MissingNames(a) + MissingNames(b)
  {
    if b == [] {
      assert a + b == a;
    } else {
      var b' := b[..|b| - 1];
      assert (a + b)[..|a + b| - 1] == a + b';
      MissingNamesAppend(a, b');
    }
  }

  lemma {:induction false} MissingNamesOfNumbers(b: seq<(string, PyValue)>)
    requires forall i :: 0 <= i < |b| ==> b[i].1.PyNum?
    ensures MissingNames(b) == []
  {
    if b != [] {
      MissingNamesOfNumbers(b[..|b| - 1]);
    }
  }

  /** `get_missing_properties`: the names whose value is missing, in order. */
  method GetMissingProperties(props: seq<(string, PyValue)>) returns (missing: seq<string>)
    ensures missing == MissingNames(props)
    ensures forall n :: n in missing <==>
      exists k :: 0 <= k < |props| && props[k].0 == n && IsMissing(props[k].1)
  {
    missing := [];
    var k := 0;
    while k < |props|
      invariant 0 <= k <= |props|
      invariant missing == MissingNames(props[..k])
    {
      assert props[..k + 1][..k] == props[..k];
      if IsMissing(props[k].1) {
        missing := missing + [props[k].0];
      }
      k := k + 1;
    }
    assert props[..k] == props;
    forall n ensures n in missing <==>
      exists k :: 0 <= k < |props| && props[k].0 == n && IsMissing(props[k].1)
    {
      MissingNamesIff(props, n);
    }
  }

  /** What the registry needs of a component: its ID and the three
      classification attributes (None when never set). */
  datatype CmpRec = CmpRec(id: string, particleSize: Option<string>,
                           degradability: Option<string>, organic: Option<bool>)

  /** The three classification attributes of a record as their getters
      return them (None when never set). */
  function ClassificationOf(rec: CmpRec): (r: seq<(string, PyValue)>)
    ensures |r| == 3
  {
    [("particle_size", if rec.particleSize.Some? then PyStr(rec.particleSize.value) else PyNone),
     ("degradability", if rec.degradability.Some? then PyStr(rec.degradability.value) else PyNone),
     ("organic", if rec.organic.Some? then PyBool(rec.organic.value) else PyNone)]
  }

  /** Dividing the slots `fs` in order by `d`; a slot that is unset stops nothing
      here (the caller stops at it). */
  function Divided(m: map<Prop, Option<real>>, fs: seq<Prop>, d: real): (r: map<Prop, Option<real>>)
    requires d != 0.0
    ensures r.Keys == m.Keys
  {
    if fs == [] then m
    else
      var prev := Divided(m, fs[..|fs| - 1], d);
      var f := fs[|fs| - 1];
      if f in prev && prev[f].Some? then prev[f := Some(prev[f].value / d)] else prev
  }

  /** Each slot among `fs` is divided by `d` once; every other slot is unchanged. */
  lemma {:induction false} DividedAt(m: map<Prop, Option<real>>, fs: seq<Prop>, d: real, p: Prop)
    requires d != 0.0 && Distinct(fs) && p in m
    ensures p in fs && m[p].Some? ==> Divided(m, fs, d)[p] == Some(m[p].value / d)
    ensures p !in fs || m[p].None? ==> Divided(m, fs, d)[p] == m[p]
  {
    if fs != [] {
      var init := fs[..|fs| - 1];
      assert Distinct(init);
      DividedAt(m, init, d, p);
      if p == fs[|fs| - 1] {
        assert p !in init;
      } else if p in fs {
        assert p in init;
      }
    }
  }

  /** A slot outside `fs` is left alone. */
  lemma {:induction false} DividedOutside(m: map<Prop, Option<real>>, fs: seq<Prop>, d: real, p: Prop)
    requires d != 0.0 && p in m && p !in fs
    ensures Divided(m, fs, d)[p] == m[p]
  {
    if fs != [] {
      DividedOutside(m, fs[..|fs| - 1], d, p);
    }
  }

  lemma IPropsFirstOccurrence(k: int)
    requires 0 <= k < |IProps|
    ensures IProps[k] !in IProps[..k]
  {
  }

  /** Slot `k` is still undivided after the slots before it, and dividing it
      next extends the divided prefix. */
  lemma DivideStep(m: map<Prop, Option<real>>, d: real, k: int)
    requires d != 0.0 && (forall p: Prop :: p in m) && 0 <= k < |IProps|
    ensures Divided(m, IProps[..k], d)[IProps[k]] == m[IProps[k]]
    ensures var prev := Divided(m, IProps[..k], d);
      prev[IProps[k]].Some? ==> Divided(m, IProps[..k + 1], d) == prev[IProps[k] := Some(prev[IProps[k]].value / d)]
  {
    assert IProps[..k + 1][..k] == IProps[..k];
    IPropsFirstOccurrence(k);
    DividedOutside(m, IProps[..k], d, IProps[k]);
  }

  /** The loop of `_convert_i_attr` on the slot map: each `i_*` slot, in
      order, is divided by `d`, stopping with TypeError at the first unset
      slot. */
  method DivideIProps(m: map<Prop, Option<real>>, d: real) returns (out: Outcome, r: map<Prop, Option<real>>)
    requires d != 0.0 && forall p: Prop :: p in m
    ensures r.Keys == m.Keys
    ensures out.Pass? ==> (forall p :: p in IProps ==> m[p].Some?) && r == Divided(m, IProps, d)
    ensures out.Fail? ==>
              && out == Fail(TypeError)
              && exists k :: 0 <= k < |IProps| && m[IProps[k]].None? &&
                   (forall j :: 0 <= j < k ==> m[IProps[j]].Some?) && r == Divided(m, IProps[..k], d)
    ensures (forall p :: p in IProps ==> m[p].Some?) ==> out.Pass?
  {
    r := m;
    var k := 0;
    while k < |IProps|
      invariant 0 <= k <= |IProps|
      invariant forall j :: 0 <= j < k ==> m[IProps[j]].Some?
      invariant r == Divided(m, IProps[..k], d)
    {
      DivideStep(m, d, k);
      if r[IProps[k]].None? {
        return Fail(TypeError), r;
      }
      r := r[IProps[k] := Some(r[IProps[k]].value / d)];
      k := k + 1;
    }
    assert IProps[..k] == IProps;
    return Pass, r;
  }

  /** A change of basis keeps every ratio between two `i_*` contents, and the
      slot that was the denominator becomes exactly 1. */
  lemma BasisChangeRatios(m: map<Prop, Option<real>>, d: real, p: Prop, q: Prop)
    requires d != 0.0 && (forall x: Prop :: x in m) && p in IProps && q in IProps
    requires m[p].Some? && m[q].Some? && m[q].value != 0.0
    ensures var r := Divided(m, IProps, d);
      && r[p].Some? && r[q].Some? && r[q].value != 0.0
      && r[p].value / r[q].value == m[p].value / m[q].value
      && (m[q].value == d ==> r[q] == Some(1.0))
  {
    assert Distinct(IProps);
    DividedAt(m, IProps, d, p);
    DividedAt(m, IProps, d, q);
    QuotientOfScaled(m[p].value, m[q].value, d);
  }

  lemma QuotientOfScaled(a: real, b: real, d: real)
    requires b != 0.0 && d != 0.0
    ensures b / d != 0.0 && (a / d) / (b / d) == a / b
    ensures b == d ==> b / d == 1.0
  {
    var x, y := a / d, b / d;
    assert x * d == a && y * d == b;
    assert y != 0.0;
    assert x * b == x * (y * d) == y * (x * d) == y * a;
  }

  /** The test `_convert_i_attr` puts the chosen denominator to: a zero one
      raises `ValueError`, and an unset one fails the division with
      `TypeError`. */
  function CheckedDenominator(d: Option<real>): (r: Result<real>)
    ensures r.Ok? <==> d.Some? && d.value != 0.0
    ensures r.Ok? ==> r.value == d.value
    ensures d == Some(0.0) ==> r == Err(ValueError)
    ensures d.None? ==> r == Err(TypeError)
  {
    if d == Some(0.0) then Err(ValueError)
    else if d.None? then Err(TypeError)
    else Ok(d.value)
  }

  /** The denominator `_convert_i_attr` divides by when the component is to be
      measured as `basis`: i_mass for itself, i_COD for COD, the element's
      content for one of its atoms. */
  function Denominator(num: map<Prop, Option<real>>, atoms: map<string, real>, basis: Option<string>): (r: Result<real>)
    requires forall x: Prop :: x in num
    ensures r.Ok? ==> r.value != 0.0
    ensures r.Err? ==> r.error == ValueError || r.error == TypeError || r.error == AttributeError
    ensures basis.None? ==> r == CheckedDenominator(num[IMass])
    ensures basis == Some("COD") ==> r == CheckedDenominator(num[ICOD])
    ensures basis.Some? && basis.value != "COD" && basis.value in atoms && ElementSlot(basis.value).Some? ==>
      r == CheckedDenominator(num[ElementSlot(basis.value).value])
    ensures basis.Some? && basis.value != "COD" && basis.value in atoms && ElementSlot(basis.value).None? ==>
      r == (if num[IMass].Some? then CheckedDenominator(Some(atoms[basis.value] * num[IMass].value)) else Err(TypeError))
    ensures basis.Some? && basis.value != "COD" && basis.value !in atoms ==> r == Err(AttributeError)
  {
    var denom: Result<Option<real>> :=
      if basis.None? then Ok(num[IMass])
      else if basis.value == "COD" then Ok(num[ICOD])
      else if basis.value in atoms then
        match ElementSlot(basis.value)
        case Some(slot) => Ok(num[slot])
        case None =>
          if num[IMass].Some? then Ok(Some(atoms[basis.value] * num[IMass].value)) else Err(TypeError)
      else Err(AttributeError);
    if denom.Err? then Err(denom.error)
    else if denom.value == Some(0.0) then Err(ValueError)
    else if denom.value.None? then Err(TypeError)
    else Ok(denom.value.value)
  }

  /** The keyword argument given for a numeric property; an absent one is None. */
  function Arg(given: map<Prop, PyValue>, p: Prop): PyValue
  {
    if p in given then given[p] else PyNone
  }

  /** The slots `_convert_i_attr` leaves, from `before`, given the
      denominator `dn` of the new basis: a denominator error changes nothing;
      otherwise every `i_*` slot is divided, or the loop raises TypeError at
      the first unset slot after dividing the slots before it. */
  ghost predicate Converted(before: map<Prop, Option<real>>, after: map<Prop, Option<real>>, out: Outcome,
                            dn: Result<real>)
    requires forall p: Prop :: p in before
    requires dn.Ok? ==> dn.value != 0.0
  {
    && (dn.Err? ==> out == Fail(dn.error) && after == before)
    && (dn.Ok? && out.Pass? ==>
          (forall p :: p in IProps ==> before[p].Some?) && after == Divided(before, IProps, dn.value))
    && (dn.Ok? && out.Fail? ==>
          && out == Fail(TypeError)
          && exists k :: 0 <= k < |IProps| && before[IProps[k]].None? &&
               (forall j :: 0 <= j < k ==> before[IProps[j]].Some?) &&
               after == Divided(before, IProps[..k], dn.value))
    && (dn.Ok? && (forall p :: p in IProps ==> before[p].Some?) ==> out.Pass?)
  }

  /** The slots of a component before `__new__` sets them: every one None. */
  const Unset: map<Prop, Option<real>> :=
    map[IC := None, IN := None, IP := None, IK := None, IMg := None, ICa := None,
        IMass := None, ICharge := None, ICOD := None, INOD := None,
        FBOD5 := None, FuBOD := None, FVmass := None]

  lemma UnsetCoversEverySlot()
    ensures forall p: Prop :: p in Unset && Unset[p] == None
  {
    forall p: Prop ensures p in Unset && Unset[p] == None {
      match p
      case IC => case IN => case IP => case IK => case IMg => case ICa =>
      case IMass => case ICharge => case ICOD => case INOD =>
      case FBOD5 => case FuBOD => case FVmass =>
    }
  }

  /** The element slots `__new__` leaves in `num`: with no formula each
      given content as the number check accepts it; with a formula none may
      be given and each is derived from the formula and i_mass. */
  ghost predicate ElementsAccepted(given: map<Prop, PyValue>, formula: string, atoms: map<string, real>,
                                   num: map<Prop, Option<real>>)
  {
    forall p :: p in ElementProps ==> ElementAccepted(given, formula, atoms, num, p)
  }

  /** One element slot `p` as `ElementsAccepted` describes it. */
  ghost predicate ElementAccepted(given: map<Prop, PyValue>, formula: string, atoms: map<string, real>,
                                  num: map<Prop, Option<real>>, p: Prop)
  {
    p in num && IMass in num &&
    if formula == "" then CheckNumber(Arg(given, p), false) == Ok(num[p])
    else !Truthy(Arg(given, p))
         && num[p] == Some(ContentFromFormula(atoms, Symbol(p), OrDefault(num[IMass], 1.0)))
  }

  /** The f_BOD5_COD and f_Vmass_Totmass slots `__new__` leaves in `num`:
      each given fraction as the number check accepts it. */
  ghost predicate FractionsAccepted(given: map<Prop, PyValue>, num: map<Prop, Option<real>>)
  {
    && FBOD5 in num && FVmass in num
    && CheckNumber(Arg(given, FBOD5), false) == Ok(num[FBOD5])
    && CheckNumber(Arg(given, FVmass), false) == Ok(num[FVmass])
  }

  /** `ElementsAccepted` reads only the element slots and i_mass, which the
      setters after them in `__new__` leave alone. */
  lemma ElementsAcceptedKept(given: map<Prop, PyValue>, formula: string, atoms: map<string, real>,
                             n: map<Prop, Option<real>>, m: map<Prop, Option<real>>)
    requires ElementsAccepted(given, formula, atoms, n)
    requires forall q :: q != ICharge && q != FBOD5 && q != FuBOD && q != FVmass && q != ICOD && q != INOD ==>
               q in n && q in m && m[q] == n[q]
    ensures ElementsAccepted(given, formula, atoms, m)
  {
  }

  /** `FractionsAccepted` reads only the f_BOD5_COD and f_Vmass_Totmass slots. */
  lemma FractionsAcceptedKept(given: map<Prop, PyValue>, n: map<Prop, Option<real>>, m: map<Prop, Option<real>>)
    requires FractionsAccepted(given, n)
    requires forall q :: q != ICOD && q != INOD ==> q in n && q in m && m[q] == n[q]
    ensures FractionsAccepted(given, m)
  {
  }

  /** `out` and `after` are what the step `s` gives: its slots on success,
      its error on failure. */
  predicate Reaches(out: Outcome, after: map<Prop, Option<real>>, s: Result<map<Prop, Option<real>>>)
  {
    match s
    case Ok(m) => out == Pass && after == m
    case Err(e) => out == Fail(e)
  }

  /** As `Reaches`, and a failing step leaves the slots as they were. */
  predicate Follows(before: map<Prop, Option<real>>, out: Outcome, after: map<Prop, Option<real>>,
                    s: Result<map<Prop, Option<real>>>)
  {
    Reaches(out, after, s) && (s.Err? ==> after == before)
  }

  /** What the i_mass setter does to the slots, as `Component.SetIMass`
      states it. */
  function MassSet(num: map<Prop, Option<real>>, atoms: map<string, real>, measuredAs: Option<string>,
                   i: PyValue, codMassRatio: real): (r: Result<map<Prop, Option<real>>>)
    requires forall p: Prop :: p in num
    requires forall a :: a in atoms ==> atoms[a] > 0.0
    ensures r.Ok? ==> IMass in r.value && r.value == num[IMass := r.value[IMass]]
    ensures measuredAs.None? ==> (r.Ok? <==> !Truthy(i) || (|atoms| == 0 && EqualsOne(i)))
    ensures measuredAs.None? && r.Ok? ==> r.value[IMass] == Some(1.0)
    ensures |atoms| > 0 && Truthy(i) ==> r == Err(AttributeError)
  {
    if |atoms| > 0 && Truthy(i) then Err(AttributeError)
    else if |atoms| > 0 && measuredAs.Some? && measuredAs.value != "" && measuredAs.value != "COD"
            && measuredAs.value !in atoms then Err(AttributeError)
    else
      var v := if |atoms| > 0 && measuredAs.Some? && measuredAs.value in atoms then PyNum(1.0 / atoms[measuredAs.value])
               else if |atoms| > 0 && measuredAs == Some("COD") then PyNum(codMassRatio)
               else i;
      if measuredAs.None? && Truthy(v) && !EqualsOne(v) then Err(AttributeError)
      else
        match CheckNumber(if measuredAs.None? then PyNum(1.0) else v, false)
        case Err(e) => Err(e)
        case Ok(x) => Ok(num[IMass := x])
  }

  /** What the setter of element slot `p` does to the slots. */
  function ElementSet(num: map<Prop, Option<real>>, formula: string, atoms: map<string, real>, p: Prop,
                      frac: PyValue): (r: Result<map<Prop, Option<real>>>)
    requires forall q: Prop :: q in num
    ensures r.Ok? ==> p in r.value && r.value == num[p := r.value[p]]
    ensures formula != "" ==> (r.Ok? <==> !Truthy(frac))
    ensures formula == "" ==> (r.Ok? <==> CheckNumber(frac, false).Ok?)
  {
    if formula != "" then
      if Truthy(frac) then Err(AttributeError)
      else Ok(num[p := Some(ContentFromFormula(atoms, Symbol(p), OrDefault(num[IMass], 1.0)))])
    else
      match CheckNumber(frac, false)
      case Err(e) => Err(e)
      case Ok(x) => Ok(num[p := x])
  }

  /** What the i_charge setter does to the slots. */
  function ChargeSet(num: map<Prop, Option<real>>, formula: string, i: PyValue, chargePerMass: real)
    : (r: Result<map<Prop, Option<real>>>)
    requires forall q: Prop :: q in num
    ensures r.Ok? <==> CheckNumber(i, false).Ok?
    ensures r.Ok? ==> ICharge in r.value && r.value == num[ICharge := r.value[ICharge]] && r.value[ICharge].Some?
  {
    match CheckNumber(i, false)
    case Err(e) => Err(e)
    case Ok(x) =>
      Ok(num[ICharge := if NonZero(x) then x else Some(ChargeFromFormula(formula, chargePerMass, OrDefault(num[IMass], 1.0)))])
  }

  /** What the f_BOD5_COD or f_Vmass_Totmass setter does to the slots. */
  function FractionSet(num: map<Prop, Option<real>>, p: Prop, f: PyValue): (r: Result<map<Prop, Option<real>>>)
    ensures r.Ok? <==> CheckNumber(f, false).Ok?
    ensures r.Ok? ==> p in r.value && r.value == num[p := r.value[p]] && CheckNumber(f, false) == Ok(r.value[p])
  {
    match CheckNumber(f, false)
    case Err(e) => Err(e)
    case Ok(x) => Ok(num[p := x])
  }

  /** What the f_uBOD_COD setter does to the slots. */
  function FuBODSet(num: map<Prop, Option<real>>, f: PyValue): (r: Result<map<Prop, Option<real>>>)
    requires FBOD5 in num
    ensures r.Ok? ==> FuBOD in r.value && r.value == num[FuBOD := r.value[FuBOD]]
    ensures r.Ok? ==> r.value[FuBOD].Some? && OrDefault(num[FBOD5], 0.0) <= r.value[FuBOD].value
  {
    var frac := if Truthy(f) then f else PyNum(0.0);
    if AsFloat(frac).None? then Err(TypeError)
    else if AsFloat(frac).value < OrDefault(num[FBOD5], 0.0) then Err(ValueError)
    else Ok(num[FuBOD := Some(AsFloat(frac).value)])
  }

  /** The COD of a component with a formula: its COD per mass times its
      i_mass. */
  function CODFromMass(codPerMass: real, mass: real): real
  {
    codPerMass * mass
  }

  /** What the i_COD setter does to the slots. */
  function ICODSet(num: map<Prop, Option<real>>, formula: string, atoms: map<string, real>,
                   measuredAs: Option<string>, organic: Option<bool>, i: PyValue, codPerMass: real)
    : (r: Result<map<Prop, Option<real>>>)
    requires IMass in num
    ensures r.Ok? ==> ICOD in r.value && r.value == num[ICOD := r.value[ICOD]]
    ensures Truthy(i) ==> (r.Ok? <==> CheckNumber(i, false).Ok?)
    ensures !Truthy(i) ==> (r.Err? <==> (organic == Some(true) || formula in CODFormulas)
                                         && measuredAs != Some("COD") && |atoms| == 0)
    ensures r.Ok? ==> var bearing := organic == Some(true) || formula in CODFormulas;
      && (Truthy(i) ==> CheckNumber(i, false) == Ok(r.value[ICOD]))
      && (!Truthy(i) && !bearing ==> r.value[ICOD] == Some(0.0))
      && (!Truthy(i) && bearing && measuredAs == Some("COD") ==> r.value[ICOD] == Some(1.0))
      && (!Truthy(i) && bearing && measuredAs != Some("COD") ==>
            |atoms| > 0 && r.value[ICOD] == Some(CODFromMass(codPerMass, OrDefault(num[IMass], 1.0))))
  {
    if Truthy(i) then
      match CheckNumber(i, false)
      case Err(e) => Err(e)
      case Ok(x) => Ok(num[ICOD := x])
    else if organic == Some(true) || formula in CODFormulas then
      if measuredAs == Some("COD") then Ok(num[ICOD := Some(1.0)])
      else if |atoms| == 0 then Err(AttributeError)
      else Ok(num[ICOD := Some(CODFromMass(codPerMass, OrDefault(num[IMass], 1.0)))])
    else Ok(num[ICOD := Some(0.0)])
  }

  /** What the i_NOD setter does to the slots. */
  function INODSet(num: map<Prop, Option<real>>, formula: string, degradability: Option<string>, i: PyValue)
    : (r: Result<map<Prop, Option<real>>>)
    requires IN in num
    ensures r.Ok? ==> INOD in r.value && r.value == num[INOD := r.value[INOD]]
    ensures i == PyNone ==> r.Ok?
  {
    var v := if i == PyNone then PyNum(DefaultINOD(degradability, formula, OrDefault(num[IN], 0.0))) else i;
    match CheckNumber(v, false)
    case Err(e) => Err(e)
    case Ok(x) => Ok(num[INOD := x])
  }

  /** One setter call of `__new__`, with the argument it is given. */
  datatype Setter =
    | MassSetter(i: PyValue, codMassRatio: real)
    | ElementSetter(p: Prop, frac: PyValue)
    | ChargeSetter(i: PyValue, chargePerMass: real)
    | FractionSetter(p: Prop, f: PyValue)
    | UBODSetter(f: PyValue)
    | CODSetter(organic: Option<bool>, i: PyValue, codPerMass: real)
    | NODSetter(degradability: Option<string>, i: PyValue)

  /** The slot a setter writes. */
  function Slot(s: Setter): Prop
  {
    match s
    case MassSetter(_, _) => IMass
    case ElementSetter(p, _) => p
    case ChargeSetter(_, _) => ICharge
    case FractionSetter(p, _) => p
    case UBODSetter(_) => FuBOD
    case CODSetter(_, _, _) => ICOD
    case NODSetter(_, _) => INOD
  }

  /** The errors the setters of `__new__` raise. */
  predicate SetterError(e: Error)
  {
    e == TypeError || e == AttributeError || e == ValueError
  }

  /** What one setter does to the slots of a component with the given
      formula, atoms and basis: it writes its own slot and nothing else, or
      raises. */
  function Apply(s: Setter, formula: string, atoms: map<string, real>, measuredAs: Option<string>,
                 num: map<Prop, Option<real>>): (r: Result<map<Prop, Option<real>>>)
    requires forall q: Prop :: q in num
    requires forall a :: a in atoms ==> atoms[a] > 0.0
    ensures r.Ok? ==> Slot(s) in r.value && r.value == num[Slot(s) := r.value[Slot(s)]]
    ensures r.Err? ==> SetterError(r.error)
  {
    match s
    case MassSetter(i, ratio) => MassSet(num, atoms, measuredAs, i, ratio)
    case ElementSetter(p, frac) => ElementSet(num, formula, atoms, p, frac)
    case ChargeSetter(i, perMass) => ChargeSet(num, formula, i, perMass)
    case FractionSetter(p, f) => FractionSet(num, p, f)
    case UBODSetter(f) => FuBODSet(num, f)
    case CODSetter(organic, i, perMass) => ICODSet(num, formula, atoms, measuredAs, organic, i, perMass)
    case NODSetter(degradability, i) => INODSet(num, formula, degradability, i)
  }

  /** The setters `steps` run in order on the slots; the first that raises
      ends the run with its error. */
  function Run(steps: seq<Setter>, formula: string, atoms: map<string, real>, measuredAs: Option<string>,
               num: map<Prop, Option<real>>): (r: Result<map<Prop, Option<real>>>)
    requires forall q: Prop :: q in num
    requires forall a :: a in atoms ==> atoms[a] > 0.0
    ensures r.Ok? ==> forall q: Prop :: q in r.value
    ensures r.Err? ==> SetterError(r.error)
    decreases |steps|
  {
    if steps == [] then Ok(num)
    else
      match Apply(steps[0], formula, atoms, measuredAs, num)
      case Err(e) => Err(e)
      case Ok(n) => Run(steps[1..], formula, atoms, measuredAs, n)
  }

  /** The six element-content setters of `__new__`, in order. */
  function ElementSetters(given: map<Prop, PyValue>): (r: seq<Setter>)
    ensures |r| == |ElementProps|
    ensures forall j :: 0 <= j < |r| ==> Slot(r[j]) == ElementProps[j]
  {
    seq(|ElementProps|, j requires 0 <= j < |ElementProps| => ElementSetter(ElementProps[j], Arg(given, ElementProps[j])))
  }

  /** The f_BOD5_COD, f_uBOD_COD and f_Vmass_Totmass setters of `__new__`. */
  function FractionSetters(given: map<Prop, PyValue>): seq<Setter>
  {
    [FractionSetter(FBOD5, Arg(given, FBOD5)), UBODSetter(Arg(given, FuBOD)), FractionSetter(FVmass, Arg(given, FVmass))]
  }

  /** The i_charge setter of `__new__`, then the fraction setters. */
  function ChargeAndFractionSetters(given: map<Prop, PyValue>, chargePerMass: real): seq<Setter>
  {
    [ChargeSetter(Arg(given, ICharge), chargePerMass)] + FractionSetters(given)
  }

  /** The numeric setters of `__new__` before the classification: i_mass,
      the element contents, then i_charge and the fractions. */
  function NumberSetters(given: map<Prop, PyValue>, codMassRatio: real, chargePerMass: real): seq<Setter>
  {
    [MassSetter(Arg(given, IMass), codMassRatio)] + (ElementSetters(given) + ChargeAndFractionSetters(given, chargePerMass))
  }

  /** The i_COD and i_NOD setters that end `__new__`; they read the
      classification. */
  function DemandSetters(organic: Option<bool>, degradability: Option<string>, given: map<Prop, PyValue>,
                         codPerMass: real): seq<Setter>
  {
    [CODSetter(organic, Arg(given, ICOD), codPerMass), NODSetter(degradability, Arg(given, INOD))]
  }

  /** Every numeric setter `__new__` calls, in source order. */
  function NewSetters(given: map<Prop, PyValue>, organic: Option<bool>, degradability: Option<string>,
                      codMassRatio: real, chargePerMass: real, codPerMass: real): seq<Setter>
  {
    NumberSetters(given, codMassRatio, chargePerMass) + DemandSetters(organic, degradability, given, codPerMass)
  }

  /** The slots the setters of `__new__` leave when run from `num`: the
      numeric setters, then, if they all passed, i_COD and i_NOD; or the
      error of the first that fails. */
  function ConstructedFrom(num: map<Prop, Option<real>>, formula: string, atoms: map<string, real>,
                           measuredAs: Option<string>, given: map<Prop, PyValue>, organic: Option<bool>,
                           degradability: Option<string>, codMassRatio: real, chargePerMass: real, codPerMass: real)
    : (r: Result<map<Prop, Option<real>>>)
    requires forall q: Prop :: q in num
    requires forall a :: a in atoms ==> atoms[a] > 0.0
    ensures r.Ok? ==> forall q: Prop :: q in r.value
    ensures r.Err? ==> SetterError(r.error)
  {
    var numbers := Run(NumberSetters(given, codMassRatio, chargePerMass), formula, atoms, measuredAs, num);
    if numbers.Err? then Err(numbers.error)
    else Run(DemandSetters(organic, degradability, given, codPerMass), formula, atoms, measuredAs, numbers.value)
  }

  /** The slots `__new__` leaves, or the error of its first failing setter. */
  function Constructed(formula: string, atoms: map<string, real>, measuredAs: Option<string>,
                       given: map<Prop, PyValue>, organic: Option<bool>, degradability: Option<string>,
                       codMassRatio: real, chargePerMass: real, codPerMass: real)
    : (r: Result<map<Prop, Option<real>>>)
    requires forall a :: a in atoms ==> atoms[a] > 0.0
    ensures r.Ok? ==> forall q: Prop :: q in r.value
    ensures r.Err? ==> SetterError(r.error)
  {
    UnsetCoversEverySlot();
    ConstructedFrom(Unset, formula, atoms, measuredAs, given, organic, degradability, codMassRatio, chargePerMass, codPerMass)
  }


  /** `__new__` runs every setter in source order on unset slots, the
      first failure ending it. */
  lemma ConstructedRunsAll(formula: string, atoms: map<string, real>, measuredAs: Option<string>,
                           given: map<Prop, PyValue>, organic: Option<bool>, degradability: Option<string>,
                           codMassRatio: real, chargePerMass: real, codPerMass: real)
    requires forall a :: a in atoms ==> atoms[a] > 0.0
    ensures forall q: Prop :: q in Unset
    ensures Constructed(formula, atoms, measuredAs, given, organic, degradability, codMassRatio, chargePerMass, codPerMass) ==
            Run(NewSetters(given, organic, degradability, codMassRatio, chargePerMass, codPerMass), formula, atoms, measuredAs, Unset)
  {
    UnsetCoversEverySlot();
    RunConcat(NumberSetters(given, codMassRatio, chargePerMass), DemandSetters(organic, degradability, given, codPerMass),
              formula, atoms, measuredAs, Unset);
  }

  /** Running two lists of setters one after the other is running their
      concatenation. */
  lemma {:induction false} RunConcat(a: seq<Setter>, b: seq<Setter>, formula: string, atoms: map<string, real>,
                                     measuredAs: Option<string>, num: map<Prop, Option<real>>)
    requires forall q: Prop :: q in num
    requires forall x :: x in atoms ==> atoms[x] > 0.0
    ensures Run(a + b, formula, atoms, measuredAs, num) ==
            match Run(a, formula, atoms, measuredAs, num)
            case Err(e) => Err(e)
            case Ok(n) => Run(b, formula, atoms, measuredAs, n)
    decreases |a|
  {
    if a == [] {
      assert a + b == b;
    } else {
      assert (a + b)[0] == a[0] && (a + b)[1..] == a[1..] + b;
      match Apply(a[0], formula, atoms, measuredAs, num)
      case Err(_) =>
      case Ok(n) => RunConcat(a[1..], b, formula, atoms, measuredAs, n);
    }
  }

  /** Running two setters is applying the first, then, if it passed, the
      second. */
  lemma RunTwo(a: Setter, b: Setter, formula: string, atoms: map<string, real>,
               measuredAs: Option<string>, num: map<Prop, Option<real>>)
    requires forall q: Prop :: q in num
    requires forall x :: x in atoms ==> atoms[x] > 0.0
    ensures Run([a, b], formula, atoms, measuredAs, num) ==
            match Apply(a, formula, atoms, measuredAs, num)
            case Err(e) => Err(e)
            case Ok(n) => Apply(b, formula, atoms, measuredAs, n)
  {
    assert [a, b][0] == a && [a, b][1..] == [b] && [b][0] == b && [b][1..] == [];
    match Apply(a, formula, atoms, measuredAs, num)
    case Err(_) =>
    case Ok(n) =>
      match Apply(b, formula, atoms, measuredAs, n)
      case Err(_) =>
      case Ok(m) => assert Run([], formula, atoms, measuredAs, m) == Ok(m);
  }

  /** The i_COD and i_NOD setters that end `__new__` run as i_COD's
      setter, then, if it passed, i_NOD's. */
  lemma RunDemands(organic: Option<bool>, degradability: Option<string>, given: map<Prop, PyValue>, codPerMass: real,
                   formula: string, atoms: map<string, real>, measuredAs: Option<string>, num: map<Prop, Option<real>>)
    requires forall q: Prop :: q in num
    requires forall x :: x in atoms ==> atoms[x] > 0.0
    ensures Run(DemandSetters(organic, degradability, given, codPerMass), formula, atoms, measuredAs, num) ==
            match ICODSet(num, formula, atoms, measuredAs, organic, Arg(given, ICOD), codPerMass)
            case Err(e) => Err(e)
            case Ok(n) => INODSet(n, formula, degradability, Arg(given, INOD))
  {
    var cod := CODSetter(organic, Arg(given, ICOD), codPerMass);
    var nod := NODSetter(degradability, Arg(given, INOD));
    assert DemandSetters(organic, degradability, given, codPerMass) == [cod, nod];
    RunTwo(cod, nod, formula, atoms, measuredAs, num);
  }

  /** A slot that no setter of `steps` writes keeps its value. */
  lemma {:induction false} RunKeeps(steps: seq<Setter>, formula: string, atoms: map<string, real>,
                                    measuredAs: Option<string>, num: map<Prop, Option<real>>, q: Prop)
    requires forall x: Prop :: x in num
    requires forall x :: x in atoms ==> atoms[x] > 0.0
    requires forall j :: 0 <= j < |steps| ==> Slot(steps[j]) != q
    requires Run(steps, formula, atoms, measuredAs, num).Ok?
    ensures Run(steps, formula, atoms, measuredAs, num).value[q] == num[q]
    decreases |steps|
  {
    if steps != [] {
      var n := Apply(steps[0], formula, atoms, measuredAs, num).value;
      RunKeeps(steps[1..], formula, atoms, measuredAs, n, q);
    }
  }

  /** A run that succeeds got through its first `k` setters, and a slot
      that none of the setters from the `k`-th on writes ends as those first
      `k` left it. */
  lemma RunKeepsFrom(steps: seq<Setter>, k: nat, formula: string, atoms: map<string, real>,
                     measuredAs: Option<string>, num: map<Prop, Option<real>>, q: Prop)
    requires forall x: Prop :: x in num
    requires forall x :: x in atoms ==> atoms[x] > 0.0
    requires k <= |steps|
    requires forall j :: k <= j < |steps| ==> Slot(steps[j]) != q
    requires Run(steps, formula, atoms, measuredAs, num).Ok?
    ensures Run(steps[..k], formula, atoms, measuredAs, num).Ok?
    ensures Run(steps, formula, atoms, measuredAs, num).value[q] == Run(steps[..k], formula, atoms, measuredAs, num).value[q]
  {
    assert steps == steps[..k] + steps[k..];
    RunConcat(steps[..k], steps[k..], formula, atoms, measuredAs, num);
    var n := Run(steps[..k], formula, atoms, measuredAs, num).value;
    RunKeeps(steps[k..], formula, atoms, measuredAs, n, q);
  }

  /** In a run that succeeds, the slot of the `k`-th setter, which no later
      setter writes, ends as that setter left it. */
  lemma RunSlot(steps: seq<Setter>, k: nat, formula: string, atoms: map<string, real>,
                measuredAs: Option<string>, num: map<Prop, Option<real>>)
    requires forall x: Prop :: x in num
    requires forall x :: x in atoms ==> atoms[x] > 0.0
    requires k < |steps|
    requires forall j :: k < j < |steps| ==> Slot(steps[j]) != Slot(steps[k])
    requires Run(steps, formula, atoms, measuredAs, num).Ok?
    ensures Run(steps[..k], formula, atoms, measuredAs, num).Ok?
    ensures var n := Run(steps[..k], formula, atoms, measuredAs, num).value;
            var m := Apply(steps[k], formula, atoms, measuredAs, n);
            m.Ok? && Run(steps, formula, atoms, measuredAs, num).value[Slot(steps[k])] == m.value[Slot(steps[k])]
  {
    RunKeepsFrom(steps, k + 1, formula, atoms, measuredAs, num, Slot(steps[k]));
    assert steps[..k + 1] == steps[..k] + [steps[k]];
    RunConcat(steps[..k], [steps[k]], formula, atoms, measuredAs, num);
  }

  /** A setter that raises whatever the slots hold makes every run that
      reaches it fail. */
  lemma {:induction false} RunFailsAt(steps: seq<Setter>, k: nat, formula: string, atoms: map<string, real>,
                                      measuredAs: Option<string>, num: map<Prop, Option<real>>)
    requires forall x: Prop :: x in num
    requires forall x :: x in atoms ==> atoms[x] > 0.0
    requires k < |steps|
    requires forall n: map<Prop, Option<real>> :: (forall x: Prop :: x in n) ==>
               Apply(steps[k], formula, atoms, measuredAs, n).Err?
    ensures Run(steps, formula, atoms, measuredAs, num).Err?
    decreases k
  {
    match Apply(steps[0], formula, atoms, measuredAs, num)
    case Err(_) =>
    case Ok(n) =>
      assert k > 0;
      RunFailsAt(steps[1..], k - 1, formula, atoms, measuredAs, n);
  }

  /** The element slots are six distinct slots, none of them i_mass. */
  lemma ElementPropsDistinct()
    ensures forall a, b :: 0 <= a < b < |ElementProps| ==> ElementProps[a] != ElementProps[b]
    ensures IMass !in ElementProps
  {
  }

  /** An element slot that its setter accepted, and that keeps its value and
      the i_mass it was derived from, is as `ElementAccepted` describes. */
  lemma ElementSetAccepted(given: map<Prop, PyValue>, formula: string, atoms: map<string, real>,
                           num: map<Prop, Option<real>>, p: Prop, r: map<Prop, Option<real>>)
    requires forall q: Prop :: q in num && q in r
    requires p != IMass
    requires ElementSet(num, formula, atoms, p, Arg(given, p)).Ok?
    requires r[p] == ElementSet(num, formula, atoms, p, Arg(given, p)).value[p] && r[IMass] == num[IMass]
    ensures ElementAccepted(given, formula, atoms, r, p)
  {
  }

  /** Every element slot the element setters reach from the `k`-th on is
      left as `ElementAccepted` describes it. */
  lemma {:induction false} ElementsRunAccepted(given: map<Prop, PyValue>, formula: string, atoms: map<string, real>,
                                               measuredAs: Option<string>, num: map<Prop, Option<real>>, k: nat)
    requires forall q: Prop :: q in num
    requires forall a :: a in atoms ==> atoms[a] > 0.0
    requires k <= |ElementProps|
    requires Run(ElementSetters(given)[k..], formula, atoms, measuredAs, num).Ok?
    ensures forall j :: k <= j < |ElementProps| ==>
              ElementAccepted(given, formula, atoms, Run(ElementSetters(given)[k..], formula, atoms, measuredAs, num).value,
                              ElementProps[j])
    decreases |ElementProps| - k
  {
    var steps := ElementSetters(given);
    if k < |ElementProps| {
      var p := ElementProps[k];
      var rest := steps[k + 1..];
      assert steps[k..][0] == ElementSetter(p, Arg(given, p)) && steps[k..][1..] == rest;
      var n := ElementSet(num, formula, atoms, p, Arg(given, p)).value;
      var r := Run(rest, formula, atoms, measuredAs, n).value;
      ElementsRunAccepted(given, formula, atoms, measuredAs, n, k + 1);
      ElementPropsDistinct();
      forall i | 0 <= i < |rest| ensures Slot(rest[i]) != p && Slot(rest[i]) != IMass {
        assert Slot(rest[i]) == ElementProps[k + 1 + i];
      }
      RunKeeps(rest, formula, atoms, measuredAs, n, p);
      RunKeeps(rest, formula, atoms, measuredAs, n, IMass);
      ElementSetAccepted(given, formula, atoms, num, p, r);
    }
  }

  /** A successful run of the numeric setters of `__new__`, from any
      slots, leaves the element contents and the fractions as the number
      check and the formula give them. */
  lemma NumbersRunAccepted(given: map<Prop, PyValue>, formula: string, atoms: map<string, real>,
                           measuredAs: Option<string>, codMassRatio: real, chargePerMass: real,
                           num: map<Prop, Option<real>>)
    requires forall q: Prop :: q in num
    requires forall a :: a in atoms ==> atoms[a] > 0.0
    requires Run(NumberSetters(given, codMassRatio, chargePerMass), formula, atoms, measuredAs, num).Ok?
    ensures var r := Run(NumberSetters(given, codMassRatio, chargePerMass), formula, atoms, measuredAs, num).value;
            ElementsAccepted(given, formula, atoms, r) && FractionsAccepted(given, r)
  {
    var es := ElementSetters(given);
    var cf := ChargeAndFractionSetters(given, chargePerMass);
    var steps := NumberSetters(given, codMassRatio, chargePerMass);
    assert steps[0] == MassSetter(Arg(given, IMass), codMassRatio) && steps[1..] == es + cf;
    var n1 := Apply(steps[0], formula, atoms, measuredAs, num).value;
    RunConcat(es, cf, formula, atoms, measuredAs, n1);
    assert es[0..] == es;
    ElementsRunAccepted(given, formula, atoms, measuredAs, n1, 0);
    ChargeAndFractionsRunAccepted(given, formula, atoms, measuredAs, chargePerMass,
                                  Run(es, formula, atoms, measuredAs, n1).value);
  }

  /** A successful run of the i_charge and fraction setters leaves the
      fractions as the number check gives them and keeps the element
      contents. */
  lemma ChargeAndFractionsRunAccepted(given: map<Prop, PyValue>, formula: string, atoms: map<string, real>,
                                      measuredAs: Option<string>, chargePerMass: real, num: map<Prop, Option<real>>)
    requires forall q: Prop :: q in num
    requires forall a :: a in atoms ==> atoms[a] > 0.0
    requires Run(ChargeAndFractionSetters(given, chargePerMass), formula, atoms, measuredAs, num).Ok?
    ensures var r := Run(ChargeAndFractionSetters(given, chargePerMass), formula, atoms, measuredAs, num).value;
            && (ElementsAccepted(given, formula, atoms, num) ==> ElementsAccepted(given, formula, atoms, r))
            && FractionsAccepted(given, r)
  {
    var cf := ChargeAndFractionSetters(given, chargePerMass);
    var r := Run(cf, formula, atoms, measuredAs, num).value;
    forall q | q != ICharge && q != FBOD5 && q != FuBOD && q != FVmass && q != ICOD && q != INOD
      ensures q in num && q in r && r[q] == num[q]
    {
      RunKeeps(cf, formula, atoms, measuredAs, num, q);
    }
    if ElementsAccepted(given, formula, atoms, num) {
      ElementsAcceptedKept(given, formula, atoms, num, r);
    }
    RunSlot(cf, 1, formula, atoms, measuredAs, num);
    RunSlot(cf, 3, formula, atoms, measuredAs, num);
  }

  /** The position of the setter of each slot in `__new__`. */
  function SetterRank(p: Prop): int
  {
    match p
    case IMass => 0
    case IC => 1
    case IN => 2
    case IP => 3
    case IK => 4
    case IMg => 5
    case ICa => 6
    case ICharge => 7
    case FBOD5 => 8
    case FuBOD => 9
    case FVmass => 10
    case ICOD => 11
    case INOD => 12
  }

  /** Each slot is written by exactly one setter of `__new__`: the one at
      its rank. */
  lemma NewSettersRanked(given: map<Prop, PyValue>, organic: Option<bool>, degradability: Option<string>,
                         codMassRatio: real, chargePerMass: real, codPerMass: real)
    ensures var steps := NewSetters(given, organic, degradability, codMassRatio, chargePerMass, codPerMass);
      |steps| == 13 && forall j :: 0 <= j < |steps| ==> SetterRank(Slot(steps[j])) == j
  {
    var steps := NewSetters(given, organic, degradability, codMassRatio, chargePerMass, codPerMass);
    var es := ElementSetters(given);
    var tail := ChargeAndFractionSetters(given, chargePerMass) + DemandSetters(organic, degradability, given, codPerMass);
    assert steps == [steps[0]] + es + tail;
    forall j | 0 <= j < |steps| ensures SetterRank(Slot(steps[j])) == j {
      if j == 0 {
      } else if j <= 6 {
        assert steps[j] == es[j - 1];
        assert ElementProps[j - 1] == [IC, IN, IP, IK, IMg, ICa][j - 1];
      } else {
        assert steps[j] == tail[j - 7];
      }
    }
  }

  /** The setters of `__new__` by position: i_mass first, the six element
      contents, i_charge, the three fractions, i_COD and i_NOD. */
  lemma NewSettersShape(given: map<Prop, PyValue>, organic: Option<bool>, degradability: Option<string>,
                        codMassRatio: real, chargePerMass: real, codPerMass: real)
    ensures var steps := NewSetters(given, organic, degradability, codMassRatio, chargePerMass, codPerMass);
      && |steps| == 13
      && steps[0] == MassSetter(Arg(given, IMass), codMassRatio)
      && steps[7] == ChargeSetter(Arg(given, ICharge), chargePerMass)
      && steps[8] == FractionSetter(FBOD5, Arg(given, FBOD5))
      && steps[9] == UBODSetter(Arg(given, FuBOD))
      && steps[10] == FractionSetter(FVmass, Arg(given, FVmass))
      && steps[11] == CODSetter(organic, Arg(given, ICOD), codPerMass)
      && steps[12] == NODSetter(degradability, Arg(given, INOD))
  {
    var steps := NewSetters(given, organic, degradability, codMassRatio, chargePerMass, codPerMass);
    var tail := ChargeAndFractionSetters(given, chargePerMass) + DemandSetters(organic, degradability, given, codPerMass);
    assert steps == [steps[0]] + ElementSetters(given) + tail;
  }

  /** The element setters of `__new__` sit at positions 1 to 6. */
  lemma NewElementSetterAt(given: map<Prop, PyValue>, organic: Option<bool>, degradability: Option<string>,
                           codMassRatio: real, chargePerMass: real, codPerMass: real, j: nat)
    requires j < |ElementProps|
    ensures var steps := NewSetters(given, organic, degradability, codMassRatio, chargePerMass, codPerMass);
      1 + j < |steps| && steps[1 + j] == ElementSetter(ElementProps[j], Arg(given, ElementProps[j]))
  {
    var steps := NewSetters(given, organic, degradability, codMassRatio, chargePerMass, codPerMass);
    var es := ElementSetters(given);
    var tail := ChargeAndFractionSetters(given, chargePerMass) + DemandSetters(organic, degradability, given, codPerMass);
    assert steps == [steps[0]] + es + tail;
    assert steps[1 + j] == es[j];
  }

  /** Given a formula, i_mass may not be given, and a component measured as
      itself may only be given an i_mass of 1: otherwise construction fails
      at its first setter with AttributeError. */
  lemma ConstructedRefusesGivenMass(formula: string, atoms: map<string, real>, measuredAs: Option<string>,
                                    given: map<Prop, PyValue>, organic: Option<bool>, degradability: Option<string>,
                                    codMassRatio: real, chargePerMass: real, codPerMass: real)
    requires forall a :: a in atoms ==> atoms[a] > 0.0
    requires Truthy(Arg(given, IMass))
    requires |atoms| > 0 || (measuredAs.None? && !EqualsOne(Arg(given, IMass)))
    ensures Constructed(formula, atoms, measuredAs, given, organic, degradability, codMassRatio, chargePerMass, codPerMass)
            == Err(AttributeError)
  {
    NewSettersShape(given, organic, degradability, codMassRatio, chargePerMass, codPerMass);
    ConstructedRunsAll(formula, atoms, measuredAs, given, organic, degradability, codMassRatio, chargePerMass, codPerMass);
  }

  /** Given a formula, no element content may be given: construction fails. */
  lemma ConstructedRefusesGivenContent(formula: string, atoms: map<string, real>, measuredAs: Option<string>,
                                       given: map<Prop, PyValue>, organic: Option<bool>, degradability: Option<string>,
                                       codMassRatio: real, chargePerMass: real, codPerMass: real, p: Prop)
    requires forall a :: a in atoms ==> atoms[a] > 0.0
    requires formula != "" && p in ElementProps && Truthy(Arg(given, p))
    ensures Constructed(formula, atoms, measuredAs, given, organic, degradability, codMassRatio, chargePerMass, codPerMass).Err?
  {
    var steps := NewSetters(given, organic, degradability, codMassRatio, chargePerMass, codPerMass);
    var j :| 0 <= j < |ElementProps| && ElementProps[j] == p;
    NewElementSetterAt(given, organic, degradability, codMassRatio, chargePerMass, codPerMass, j);
    ConstructedRunsAll(formula, atoms, measuredAs, given, organic, degradability, codMassRatio, chargePerMass, codPerMass);
    RunFailsAt(steps, 1 + j, formula, atoms, measuredAs, Unset);
  }

  /** After `__new__`, i_mass is 1 for a component measured as itself, the
      measured atom's inverse mass fraction or the COD mass ratio for one
      with a formula, and the checked given value otherwise. */
  lemma ConstructedMass(formula: string, atoms: map<string, real>, measuredAs: Option<string>,
                        given: map<Prop, PyValue>, organic: Option<bool>, degradability: Option<string>,
                        codMassRatio: real, chargePerMass: real, codPerMass: real)
    requires forall a :: a in atoms ==> atoms[a] > 0.0
    requires Constructed(formula, atoms, measuredAs, given, organic, degradability, codMassRatio, chargePerMass, codPerMass).Ok?
    ensures var r := Constructed(formula, atoms, measuredAs, given, organic, degradability,
                                 codMassRatio, chargePerMass, codPerMass).value;
      && (measuredAs.None? ==> r[IMass] == Some(1.0))
      && (|atoms| > 0 ==> !Truthy(Arg(given, IMass)))
      && (|atoms| > 0 && measuredAs.Some? && measuredAs.value in atoms ==> r[IMass] == Some(1.0 / atoms[measuredAs.value]))
      && (|atoms| > 0 && measuredAs == Some("COD") && "COD" !in atoms ==> r[IMass] == Some(codMassRatio))
      && (|atoms| == 0 && measuredAs.Some? ==> CheckNumber(Arg(given, IMass), false) == Ok(r[IMass]))
  {
    var steps := NewSetters(given, organic, degradability, codMassRatio, chargePerMass, codPerMass);
    NewSettersShape(given, organic, degradability, codMassRatio, chargePerMass, codPerMass);
    NewSettersRanked(given, organic, degradability, codMassRatio, chargePerMass, codPerMass);
    ConstructedRunsAll(formula, atoms, measuredAs, given, organic, degradability, codMassRatio, chargePerMass, codPerMass);
    RunMass(steps, formula, atoms, measuredAs, Unset, Arg(given, IMass), codMassRatio);
  }

  /** After `__new__`, every element content is as `ElementsAccepted`
      describes. */
  lemma ConstructedElements(formula: string, atoms: map<string, real>, measuredAs: Option<string>,
                            given: map<Prop, PyValue>, organic: Option<bool>, degradability: Option<string>,
                            codMassRatio: real, chargePerMass: real, codPerMass: real)
    requires forall a :: a in atoms ==> atoms[a] > 0.0
    requires Constructed(formula, atoms, measuredAs, given, organic, degradability, codMassRatio, chargePerMass, codPerMass).Ok?
    ensures ElementsAccepted(given, formula, atoms,
              Constructed(formula, atoms, measuredAs, given, organic, degradability, codMassRatio, chargePerMass, codPerMass).value)
  {
    var steps := NewSetters(given, organic, degradability, codMassRatio, chargePerMass, codPerMass);
    NewSettersRanked(given, organic, degradability, codMassRatio, chargePerMass, codPerMass);
    ConstructedRunsAll(formula, atoms, measuredAs, given, organic, degradability, codMassRatio, chargePerMass, codPerMass);
    forall j | 0 <= j < |ElementProps|
      ensures steps[1 + j] == ElementSetter(ElementProps[j], Arg(given, ElementProps[j]))
    {
      NewElementSetterAt(given, organic, degradability, codMassRatio, chargePerMass, codPerMass, j);
    }
    RunElements(steps, formula, atoms, measuredAs, Unset, given);
  }

  /** After `__new__`, i_charge is the checked given charge, or, when that
      is unset or zero, the formula's charge per mass times i_mass. */
  lemma ConstructedCharge(formula: string, atoms: map<string, real>, measuredAs: Option<string>,
                          given: map<Prop, PyValue>, organic: Option<bool>, degradability: Option<string>,
                          codMassRatio: real, chargePerMass: real, codPerMass: real)
    requires forall a :: a in atoms ==> atoms[a] > 0.0
    requires Constructed(formula, atoms, measuredAs, given, organic, degradability, codMassRatio, chargePerMass, codPerMass).Ok?
    ensures var r := Constructed(formula, atoms, measuredAs, given, organic, degradability,
                                 codMassRatio, chargePerMass, codPerMass).value;
      var c := CheckNumber(Arg(given, ICharge), false);
      && c.Ok?
      && r[ICharge] == if NonZero(c.value) then c.value
                       else Some(ChargeFromFormula(formula, chargePerMass, OrDefault(r[IMass], 1.0)))
  {
    var steps := NewSetters(given, organic, degradability, codMassRatio, chargePerMass, codPerMass);
    NewSettersShape(given, organic, degradability, codMassRatio, chargePerMass, codPerMass);
    NewSettersRanked(given, organic, degradability, codMassRatio, chargePerMass, codPerMass);
    ConstructedRunsAll(formula, atoms, measuredAs, given, organic, degradability, codMassRatio, chargePerMass, codPerMass);
    RunCharge(steps, formula, atoms, measuredAs, Unset, Arg(given, ICharge), chargePerMass);
  }

  /** After `__new__`, f_BOD5_COD and f_Vmass_Totmass hold the checked given
      values, and f_uBOD_COD holds the given value (0 when falsy), which is
      not below f_BOD5_COD. */
  lemma ConstructedFractions(formula: string, atoms: map<string, real>, measuredAs: Option<string>,
                             given: map<Prop, PyValue>, organic: Option<bool>, degradability: Option<string>,
                             codMassRatio: real, chargePerMass: real, codPerMass: real)
    requires forall a :: a in atoms ==> atoms[a] > 0.0
    requires Constructed(formula, atoms, measuredAs, given, organic, degradability, codMassRatio, chargePerMass, codPerMass).Ok?
    ensures var r := Constructed(formula, atoms, measuredAs, given, organic, degradability,
                                 codMassRatio, chargePerMass, codPerMass).value;
      var u := if Truthy(Arg(given, FuBOD)) then Arg(given, FuBOD) else PyNum(0.0);
      && FractionsAccepted(given, r)
      && AsFloat(u).Some? && r[FuBOD] == AsFloat(u)
      && OrDefault(r[FBOD5], 0.0) <= r[FuBOD].value
  {
    var steps := NewSetters(given, organic, degradability, codMassRatio, chargePerMass, codPerMass);
    NewSettersShape(given, organic, degradability, codMassRatio, chargePerMass, codPerMass);
    NewSettersRanked(given, organic, degradability, codMassRatio, chargePerMass, codPerMass);
    ConstructedRunsAll(formula, atoms, measuredAs, given, organic, degradability, codMassRatio, chargePerMass, codPerMass);
    RunFractions(steps, formula, atoms, measuredAs, Unset, given);
  }

  /** The setters in the order of `__new__`: each slot written once, by
      the setter at its rank. */
  predicate RankedSetters(steps: seq<Setter>)
  {
    |steps| == 13 && forall j :: 0 <= j < |steps| ==> SetterRank(Slot(steps[j])) == j
  }

  /** In a run of ranked setters that succeeds, the slot of the `k`-th
      setter ends as that setter left it, and a slot of lower rank `q` as
      the first `k` setters left it. */
  lemma RankedSlot(steps: seq<Setter>, k: nat, formula: string, atoms: map<string, real>,
                   measuredAs: Option<string>, num: map<Prop, Option<real>>, q: Prop)
    requires forall x: Prop :: x in num
    requires forall x :: x in atoms ==> atoms[x] > 0.0
    requires RankedSetters(steps) && k < |steps| && SetterRank(q) < k
    requires Run(steps, formula, atoms, measuredAs, num).Ok?
    ensures Run(steps[..k], formula, atoms, measuredAs, num).Ok?
    ensures var n := Run(steps[..k], formula, atoms, measuredAs, num).value;
            var m := Apply(steps[k], formula, atoms, measuredAs, n);
            var r := Run(steps, formula, atoms, measuredAs, num).value;
            m.Ok? && r[Slot(steps[k])] == m.value[Slot(steps[k])] && r[q] == n[q]
  {
    RunSlot(steps, k, formula, atoms, measuredAs, num);
    RunKeepsFrom(steps, k, formula, atoms, measuredAs, num, q);
  }

  /** The i_mass a successful run of ranked setters leaves. */
  lemma RunMass(steps: seq<Setter>, formula: string, atoms: map<string, real>, measuredAs: Option<string>,
                num: map<Prop, Option<real>>, i: PyValue, codMassRatio: real)
    requires forall x: Prop :: x in num
    requires forall x :: x in atoms ==> atoms[x] > 0.0
    requires RankedSetters(steps) && steps[0] == MassSetter(i, codMassRatio)
    requires Run(steps, formula, atoms, measuredAs, num).Ok?
    ensures var r := Run(steps, formula, atoms, measuredAs, num).value;
      && (measuredAs.None? ==> r[IMass] == Some(1.0))
      && (|atoms| > 0 ==> !Truthy(i))
      && (|atoms| > 0 && measuredAs.Some? && measuredAs.value in atoms ==> r[IMass] == Some(1.0 / atoms[measuredAs.value]))
      && (|atoms| > 0 && measuredAs == Some("COD") && "COD" !in atoms ==> r[IMass] == Some(codMassRatio))
      && (|atoms| == 0 && measuredAs.Some? ==> CheckNumber(i, false) == Ok(r[IMass]))
  {
    RunSlot(steps, 0, formula, atoms, measuredAs, num);
    assert steps[..0] == [];
    var m := MassSet(num, atoms, measuredAs, i, codMassRatio);
    assert Apply(steps[0], formula, atoms, measuredAs, num) == m;
  }

  /** The i_charge a successful run of ranked setters leaves. */
  lemma RunCharge(steps: seq<Setter>, formula: string, atoms: map<string, real>, measuredAs: Option<string>,
                  num: map<Prop, Option<real>>, i: PyValue, chargePerMass: real)
    requires forall x: Prop :: x in num
    requires forall x :: x in atoms ==> atoms[x] > 0.0
    requires RankedSetters(steps) && steps[7] == ChargeSetter(i, chargePerMass)
    requires Run(steps, formula, atoms, measuredAs, num).Ok?
    ensures var r := Run(steps, formula, atoms, measuredAs, num).value;
      var c := CheckNumber(i, false);
      && c.Ok?
      && r[ICharge] == if NonZero(c.value) then c.value
                       else Some(ChargeFromFormula(formula, chargePerMass, OrDefault(r[IMass], 1.0)))
  {
    RankedSlot(steps, 7, formula, atoms, measuredAs, num, IMass);
    var n := Run(steps[..7], formula, atoms, measuredAs, num).value;
    var m := ChargeSet(n, formula, i, chargePerMass);
    assert Apply(steps[7], formula, atoms, measuredAs, n) == m;
  }

  /** The fractions a successful run of ranked setters leaves. */
  lemma RunFractions(steps: seq<Setter>, formula: string, atoms: map<string, real>, measuredAs: Option<string>,
                     num: map<Prop, Option<real>>, given: map<Prop, PyValue>)
    requires forall x: Prop :: x in num
    requires forall x :: x in atoms ==> atoms[x] > 0.0
    requires RankedSetters(steps)
    requires steps[8] == FractionSetter(FBOD5, Arg(given, FBOD5)) && steps[9] == UBODSetter(Arg(given, FuBOD))
    requires steps[10] == FractionSetter(FVmass, Arg(given, FVmass))
    requires Run(steps, formula, atoms, measuredAs, num).Ok?
    ensures var r := Run(steps, formula, atoms, measuredAs, num).value;
      var u := if Truthy(Arg(given, FuBOD)) then Arg(given, FuBOD) else PyNum(0.0);
      && FractionsAccepted(given, r)
      && AsFloat(u).Some? && r[FuBOD] == AsFloat(u)
      && OrDefault(r[FBOD5], 0.0) <= r[FuBOD].value
  {
    RankedSlot(steps, 8, formula, atoms, measuredAs, num, IMass);
    RankedSlot(steps, 9, formula, atoms, measuredAs, num, FBOD5);
    RankedSlot(steps, 10, formula, atoms, measuredAs, num, IMass);
    var n9 := Run(steps[..9], formula, atoms, measuredAs, num).value;
    var m9 := FuBODSet(n9, Arg(given, FuBOD));
    assert Apply(steps[9], formula, atoms, measuredAs, n9) == m9;
  }

  /** The i_NOD a successful run of ranked setters leaves. */
  lemma RunNOD(steps: seq<Setter>, formula: string, atoms: map<string, real>, measuredAs: Option<string>,
               num: map<Prop, Option<real>>, degradability: Option<string>, i: PyValue)
    requires forall x: Prop :: x in num
    requires forall x :: x in atoms ==> atoms[x] > 0.0
    requires RankedSetters(steps) && steps[12] == NODSetter(degradability, i)
    requires Run(steps, formula, atoms, measuredAs, num).Ok?
    ensures var r := Run(steps, formula, atoms, measuredAs, num).value;
      && (i == PyNone ==> r[INOD] == Some(DefaultINOD(degradability, formula, OrDefault(r[IN], 0.0))))
      && (i != PyNone ==> CheckNumber(i, false) == Ok(r[INOD]))
  {
    RankedSlot(steps, 12, formula, atoms, measuredAs, num, IN);
    var n := Run(steps[..12], formula, atoms, measuredAs, num).value;
    var m := INODSet(n, formula, degradability, i);
    assert Apply(steps[12], formula, atoms, measuredAs, n) == m;
  }

  /** The element contents a successful run of ranked setters leaves. */
  lemma RunElements(steps: seq<Setter>, formula: string, atoms: map<string, real>, measuredAs: Option<string>,
                    num: map<Prop, Option<real>>, given: map<Prop, PyValue>)
    requires forall x: Prop :: x in num
    requires forall x :: x in atoms ==> atoms[x] > 0.0
    requires RankedSetters(steps)
    requires forall j :: 0 <= j < |ElementProps| ==> steps[1 + j] == ElementSetter(ElementProps[j], Arg(given, ElementProps[j]))
    requires Run(steps, formula, atoms, measuredAs, num).Ok?
    ensures ElementsAccepted(given, formula, atoms, Run(steps, formula, atoms, measuredAs, num).value)
  {
    var r := Run(steps, formula, atoms, measuredAs, num).value;
    forall p | p in ElementProps ensures ElementAccepted(given, formula, atoms, r, p) {
      var j :| 0 <= j < |ElementProps| && ElementProps[j] == p;
      RankedSlot(steps, 1 + j, formula, atoms, measuredAs, num, IMass);
      ElementSetAccepted(given, formula, atoms, Run(steps[..1 + j], formula, atoms, measuredAs, num).value, p, r);
    }
  }

  /** The i_COD a successful run of ranked setters leaves. */
  lemma RunCOD(steps: seq<Setter>, formula: string, atoms: map<string, real>, measuredAs: Option<string>,
               num: map<Prop, Option<real>>, organic: Option<bool>, i: PyValue, codPerMass: real)
    requires forall x: Prop :: x in num
    requires forall x :: x in atoms ==> atoms[x] > 0.0
    requires RankedSetters(steps) && steps[11] == CODSetter(organic, i, codPerMass)
    requires Run(steps, formula, atoms, measuredAs, num).Ok?
    ensures var r := Run(steps, formula, atoms, measuredAs, num).value;
      var bearing := organic == Some(true) || formula in CODFormulas;
      && (Truthy(i) ==> CheckNumber(i, false) == Ok(r[ICOD]))
      && (!Truthy(i) && !bearing ==> r[ICOD] == Some(0.0))
      && (!Truthy(i) && bearing && measuredAs == Some("COD") ==> r[ICOD] == Some(1.0))
      && (!Truthy(i) && bearing && measuredAs != Some("COD") ==>
            |atoms| > 0 && r[ICOD] == Some(CODFromMass(codPerMass, OrDefault(r[IMass], 1.0))))
  {
    RankedSlot(steps, 11, formula, atoms, measuredAs, num, IMass);
    var n := Run(steps[..11], formula, atoms, measuredAs, num).value;
    var r := Run(steps, formula, atoms, measuredAs, num).value;
    var m := ICODSet(n, formula, atoms, measuredAs, organic, i, codPerMass);
    assert Apply(steps[11], formula, atoms, measuredAs, n) == m;
    assert r[ICOD] == m.value[ICOD] && r[IMass] == n[IMass];
    assert CODFromMass(codPerMass, OrDefault(r[IMass], 1.0)) == CODFromMass(codPerMass, OrDefault(n[IMass], 1.0));
  }

  /** After `__new__`, i_COD is the checked given value when that is
      truthy; otherwise 0 for a component bearing no COD, 1 for one
      measured as COD, and the COD per mass times i_mass for any other. */
  lemma ConstructedCOD(formula: string, atoms: map<string, real>, measuredAs: Option<string>,
                       given: map<Prop, PyValue>, organic: Option<bool>, degradability: Option<string>,
                       codMassRatio: real, chargePerMass: real, codPerMass: real)
    requires forall a :: a in atoms ==> atoms[a] > 0.0
    requires Constructed(formula, atoms, measuredAs, given, organic, degradability, codMassRatio, chargePerMass, codPerMass).Ok?
    ensures var r := Constructed(formula, atoms, measuredAs, given, organic, degradability,
                                 codMassRatio, chargePerMass, codPerMass).value;
      var i := Arg(given, ICOD);
      var bearing := organic == Some(true) || formula in CODFormulas;
      && (Truthy(i) ==> CheckNumber(i, false) == Ok(r[ICOD]))
      && (!Truthy(i) && !bearing ==> r[ICOD] == Some(0.0))
      && (!Truthy(i) && bearing && measuredAs == Some("COD") ==> r[ICOD] == Some(1.0))
      && (!Truthy(i) && bearing && measuredAs != Some("COD") ==>
            |atoms| > 0 && r[ICOD] == Some(CODFromMass(codPerMass, OrDefault(r[IMass], 1.0))))
  {
    var steps := NewSetters(given, organic, degradability, codMassRatio, chargePerMass, codPerMass);
    NewSettersShape(given, organic, degradability, codMassRatio, chargePerMass, codPerMass);
    NewSettersRanked(given, organic, degradability, codMassRatio, chargePerMass, codPerMass);
    ConstructedRunsAll(formula, atoms, measuredAs, given, organic, degradability, codMassRatio, chargePerMass, codPerMass);
    RunCOD(steps, formula, atoms, measuredAs, Unset, organic, Arg(given, ICOD), codPerMass);
  }

  /** After `__new__`, i_NOD is the checked given value, or, when that is
      None, the default by degradability and formula computed from the
      final i_N. */
  lemma ConstructedNOD(formula: string, atoms: map<string, real>, measuredAs: Option<string>,
                       given: map<Prop, PyValue>, organic: Option<bool>, degradability: Option<string>,
                       codMassRatio: real, chargePerMass: real, codPerMass: real)
    requires forall a :: a in atoms ==> atoms[a] > 0.0
    requires Constructed(formula, atoms, measuredAs, given, organic, degradability, codMassRatio, chargePerMass, codPerMass).Ok?
    ensures var r := Constructed(formula, atoms, measuredAs, given, organic, degradability,
                                 codMassRatio, chargePerMass, codPerMass).value;
      && (Arg(given, INOD) == PyNone ==> r[INOD] == Some(DefaultINOD(degradability, formula, OrDefault(r[IN], 0.0))))
      && (Arg(given, INOD) != PyNone ==> CheckNumber(Arg(given, INOD), false) == Ok(r[INOD]))
  {
    var steps := NewSetters(given, organic, degradability, codMassRatio, chargePerMass, codPerMass);
    NewSettersShape(given, organic, degradability, codMassRatio, chargePerMass, codPerMass);
    NewSettersRanked(given, organic, degradability, codMassRatio, chargePerMass, codPerMass);
    ConstructedRunsAll(formula, atoms, measuredAs, given, organic, degradability, codMassRatio, chargePerMass, codPerMass);
    RunNOD(steps, formula, atoms, measuredAs, Unset, degradability, Arg(given, INOD));
  }

  class Component {
    const id: string
    /** Chemical formula; "" when the component has none. */
    const formula: string
    /** Mass fraction of each atom of the formula, as the chemistry library
        computes it; empty without a formula. */
    const atoms: map<string, real>
    var measuredAs: Option<string>
    /** The private `_i_*` and `_f_*` slots; None is Python's None. */
    var num: map<Prop, Option<real>>
    var particleSize: Option<string>
    var degradability: Option<string>
    var organic: Option<bool>

    ghost predicate Valid()
      reads this
    {
      && (forall p: Prop :: p in num)
      && (forall a :: a in atoms ==> atoms[a] > 0.0)
      && ((formula == "") <==> (|atoms| == 0))
    }

    /** A component whose slots have not been set yet. */
    constructor (id: string, formula: string, atoms: map<string, real>, measuredAs: Option<string>)
      requires forall a :: a in atoms ==> atoms[a] > 0.0
      requires (formula == "") <==> (|atoms| == 0)
      ensures Valid()
      ensures this.id == id && this.formula == formula && this.atoms == atoms
      ensures this.measuredAs == measuredAs
      ensures num == Unset
      ensures particleSize == None && degradability == None && organic == None
    {
      this.id := id;
      this.formula := formula;
      this.atoms := atoms;
      this.measuredAs := measuredAs;
      num := Unset;
      new;
      UnsetCoversEverySlot();
      particleSize := None;
      degradability := None;
      organic := None;
    }

    /** `__new__`: the measured-as basis is stored, then the numeric
        setters run as `SetNumbers` states; particle size, degradability and
        organic are stored without the allowed-values check; i_COD and i_NOD
        are set last. The first setter that fails ends construction. `given`
        holds the keyword arguments of the numeric properties (an absent one
        is None). */
    static method New(id: string, formula: string, atoms: map<string, real>, measuredAs: Option<string>,
                      given: map<Prop, PyValue>, particleSize: Option<string>, degradability: Option<string>,
                      organic: Option<bool>, codMassRatio: real, chargePerMass: real, codPerMass: real)
      returns (r: Result<Component>)
      requires forall a :: a in atoms ==> atoms[a] > 0.0
      requires (formula == "") <==> (|atoms| == 0)
      ensures r.Ok? ==> fresh(r.value) && r.value.Valid()
      ensures r.Ok? ==> r.value.id == id && r.value.formula == formula && r.value.atoms == atoms
                        && r.value.measuredAs == measuredAs
      ensures r.Ok? ==> r.value.particleSize == particleSize && r.value.degradability == degradability
                        && r.value.organic == organic
      ensures r.Ok? ==> ElementsAccepted(given, formula, atoms, r.value.num) && FractionsAccepted(given, r.value.num)
      ensures var s := Constructed(formula, atoms, measuredAs, given, organic, degradability,
                                   codMassRatio, chargePerMass, codPerMass);
        (r.Ok? <==> s.Ok?) && (r.Err? ==> r.error == s.error) && (r.Ok? ==> r.value.num == s.value)
    {
      var c := new Component(id, formula, atoms, measuredAs);
      var out := c.Populate(given, particleSize, degradability, organic, codMassRatio, chargePerMass, codPerMass);
      if out.Fail? { return Err(out.error); }
      ConstructedElements(formula, atoms, measuredAs, given, organic, degradability, codMassRatio, chargePerMass, codPerMass);
      ConstructedFractions(formula, atoms, measuredAs, given, organic, degradability, codMassRatio, chargePerMass, codPerMass);
      return Ok(c);
    }

    /** The part of `__new__` after the measured-as basis is stored, on a
        component whose slots are unset: the numeric setters, then the
        classification, then i_COD and i_NOD. */
    method Populate(given: map<Prop, PyValue>, size: Option<string>, degradable: Option<string>,
                    isOrganic: Option<bool>, codMassRatio: real, chargePerMass: real, codPerMass: real)
      returns (out: Outcome)
      requires Valid()
      modifies this`num, this`particleSize, this`degradability, this`organic
      ensures Valid()
      ensures out.Pass? ==> particleSize == size && degradability == degradable && organic == isOrganic
      ensures Reaches(out, num, ConstructedFrom(old(num), formula, atoms, measuredAs, given, isOrganic, degradable,
                                                codMassRatio, chargePerMass, codPerMass))
    {
      out := SetNumbers(given, codMassRatio, chargePerMass);
      if out.Fail? { return; }
      particleSize, degradability, organic := size, degradable, isOrganic;
      out := SetDemands(given, codPerMass);
    }

    /** The i_COD and i_NOD setters that end `__new__`, in order. */
    method SetDemands(given: map<Prop, PyValue>, codPerMass: real) returns (out: Outcome)
      requires Valid()
      modifies this`num
      ensures Valid()
      ensures forall q :: q != ICOD && q != INOD ==> num[q] == old(num)[q]
      ensures Reaches(out, num, Run(DemandSetters(organic, degradability, given, codPerMass), formula, atoms, measuredAs, old(num)))
    {
      RunDemands(organic, degradability, given, codPerMass, formula, atoms, measuredAs, old(num));
      out := SetICOD(Arg(given, ICOD), codPerMass);
      if out.Pass? {
        out := SetINOD(Arg(given, INOD));
      }
    }

    /** The numeric setters of `__new__` before the classification: i_mass,
        the six element contents, i_charge, f_BOD5_COD, f_uBOD_COD and
        f_Vmass_Totmass, stopping at the first failure. */
    method SetNumbers(given: map<Prop, PyValue>, codMassRatio: real, chargePerMass: real) returns (out: Outcome)
      requires Valid()
      modifies this`num
      ensures Valid()
      ensures Reaches(out, num, Run(NumberSetters(given, codMassRatio, chargePerMass), formula, atoms, measuredAs, old(num)))
    {
      ghost var steps := NumberSetters(given, codMassRatio, chargePerMass);
      out := SetMass(Arg(given, IMass), codMassRatio);
      if out.Fail? { return; }
      assert Run(steps, formula, atoms, measuredAs, old(num)) ==
             Run(ElementSetters(given) + ChargeAndFractionSetters(given, chargePerMass), formula, atoms, measuredAs, num);
      RunConcat(ElementSetters(given), ChargeAndFractionSetters(given, chargePerMass), formula, atoms, measuredAs, num);
      out := SetElements(given);
      if out.Fail? { return; }
      out := SetChargeAndFractions(given, chargePerMass);
    }

    /** The i_mass setter as `SetIMass` states, seen from `__new__`: only
        i_mass changes. */
    method SetMass(i: PyValue, codMassRatio: real) returns (out: Outcome)
      requires Valid()
      modifies this`num
      ensures Valid()
      ensures forall q :: q != IMass ==> num[q] == old(num)[q]
      ensures Follows(old(num), out, num, MassSet(old(num), atoms, measuredAs, i, codMassRatio))
    {
      out := SetIMass(i, codMassRatio);
    }

    /** The i_charge, f_BOD5_COD, f_uBOD_COD and f_Vmass_Totmass setters of
        `__new__`, in order, stopping at the first failure. */
    method SetChargeAndFractions(given: map<Prop, PyValue>, chargePerMass: real) returns (out: Outcome)
      requires Valid()
      modifies this`num
      ensures Valid()
      ensures forall q :: q != ICharge && q != FBOD5 && q != FuBOD && q != FVmass ==> num[q] == old(num)[q]
      ensures out.Pass? ==> FractionsAccepted(given, num)
      ensures Reaches(out, num, Run(ChargeAndFractionSetters(given, chargePerMass), formula, atoms, measuredAs, old(num)))
    {
      ghost var steps := ChargeAndFractionSetters(given, chargePerMass);
      assert steps[0] == ChargeSetter(Arg(given, ICharge), chargePerMass) && steps[1..] == FractionSetters(given);
      out := SetICharge(Arg(given, ICharge), chargePerMass);
      if out.Fail? { return; }
      assert Run(steps, formula, atoms, measuredAs, old(num)) == Run(steps[1..], formula, atoms, measuredAs, num);
      out := SetFractions(given);
    }

    /** The f_BOD5_COD, f_uBOD_COD and f_Vmass_Totmass setters in order,
        stopping at the first that raises. */
    method SetFractions(given: map<Prop, PyValue>) returns (out: Outcome)
      requires Valid()
      modifies this`num
      ensures Valid()
      ensures forall q :: q != FBOD5 && q != FuBOD && q != FVmass ==> num[q] == old(num)[q]
      ensures out.Pass? ==> FractionsAccepted(given, num)
      ensures Reaches(out, num, Run(FractionSetters(given), formula, atoms, measuredAs, old(num)))
    {
      ghost var steps := FractionSetters(given);
      assert steps[1..][0] == steps[1] && steps[1..][1..] == steps[2..];
      assert steps[2..][0] == steps[2] && steps[2..][1..] == [];
      out := SetFraction(FBOD5, Arg(given, FBOD5));
      if out.Fail? { return; }
      assert Run(steps, formula, atoms, measuredAs, old(num)) == Run(steps[1..], formula, atoms, measuredAs, num);
      ghost var n1 := num;
      ghost var bod5 := num[FBOD5];
      out := SetFuBOD(Arg(given, FuBOD));
      if out.Fail? { return; }
      assert Run(steps[1..], formula, atoms, measuredAs, n1) == Run(steps[2..], formula, atoms, measuredAs, num);
      ghost var n2 := num;
      out := SetFraction(FVmass, Arg(given, FVmass));
      assert num[FBOD5] == bod5;
      assert Run(steps[2..], formula, atoms, measuredAs, n2) == if out.Pass? then Ok(num) else Err(out.error);
    }

    /** The six element-content setters of `__new__`, in order. */
    method SetElements(given: map<Prop, PyValue>) returns (out: Outcome)
      requires Valid()
      modifies this`num
      ensures Valid()
      ensures forall p :: p !in ElementProps ==> num[p] == old(num)[p]
      ensures out.Pass? ==> ElementsAccepted(given, formula, atoms, num)
      ensures Reaches(out, num, Run(ElementSetters(given), formula, atoms, measuredAs, old(num)))
    {
      ghost var steps := ElementSetters(given);
      var k := 0;
      while k < |ElementProps|
        invariant 0 <= k <= |ElementProps| && Valid()
        invariant Run(steps, formula, atoms, measuredAs, old(num)) == Run(steps[k..], formula, atoms, measuredAs, num)
        invariant forall p :: p !in ElementProps ==> num[p] == old(num)[p]
      {
        ghost var before := num;
        out := SetElement(ElementProps[k], given);
        assert steps[k..][0] == ElementSetter(ElementProps[k], Arg(given, ElementProps[k]));
        if out.Fail? {
          return;
        }
        assert steps[k..][1..] == steps[k + 1..];
        k := k + 1;
      }
      assert steps[k..] == [];
      ElementsRunAccepted(given, formula, atoms, measuredAs, old(num), 0);
      return Pass;
    }

    /** The setter of one element content as `SetElementContent` states,
        seen from `__new__`: only slot `p` changes, and on success it holds
        what `ElementAccepted` describes. */
    method SetElement(p: Prop, given: map<Prop, PyValue>) returns (out: Outcome)
      requires Valid() && p in ElementProps
      modifies this`num
      ensures Valid()
      ensures forall q :: q != p ==> num[q] == old(num)[q]
      ensures out.Pass? ==> ElementAccepted(given, formula, atoms, num, p)
      ensures Follows(old(num), out, num, ElementSet(old(num), formula, atoms, p, Arg(given, p)))
    {
      out := SetElementContent(p, Arg(given, p));
    }

    /** The public getter of a numeric property: an unset (or zero) slot reads
        as 1 for i_mass and as 0 for every other property. */
    function Get(p: Prop): (r: real)
      reads this
      requires Valid()
      ensures num[p] == None ==> r == (if p == IMass then 1.0 else 0.0)
      ensures p != IMass && num[p].Some? ==> r == num[p].value
      ensures p == IMass ==> r != 0.0
    {
      OrDefault(num[p], if p == IMass then 1.0 else 0.0)
    }

    function Record(): (r: CmpRec)
      reads this
      ensures r.id == id && r.particleSize == particleSize
      ensures r.degradability == degradability && r.organic == organic
    {
      CmpRec(id, particleSize, degradability, organic)
    }

    /** The setter of an element content `i_<atom>` (the slot `p`): with a
        formula the value is derived from it and may not be given; otherwise
        it is checked. */
    method SetElementContent(p: Prop, frac: PyValue) returns (out: Outcome)
      requires Valid() && p in ElementProps
      modifies this`num
      ensures Valid()
      ensures Follows(old(num), out, num, ElementSet(old(num), formula, atoms, p, frac))
      ensures forall q :: q != p ==> num[q] == old(num)[q]
      ensures formula != "" && Truthy(frac) ==> out == Fail(AttributeError) && num == old(num)
      ensures formula != "" && !Truthy(frac) ==>
        out == Pass && num == old(num)[p := Some(ContentFromFormula(atoms, Symbol(p), old(Get(IMass))))]
      ensures formula == "" ==>
        var c := CheckNumber(frac, false);
        (c.Err? ==> out == Fail(c.error) && num == old(num)) &&
        (c.Ok? ==> out == Pass && num == old(num)[p := c.value])
    {
      if formula != "" {
        if Truthy(frac) {
          return Fail(AttributeError);
        }
        num := num[p := Some(ContentFromFormula(atoms, Symbol(p), Get(IMass)))];
        return Pass;
      }
      var c := CheckNumber(frac, false);
      if c.Err? {
        return Fail(c.error);
      }
      num := num[p := c.value];
      return Pass;
    }

    /** The i_mass setter. With a formula, i_mass is derived (from the mass
        fraction of the measured atom, or `codMassRatio`, the formula's mass per
        unit of COD) and may not be given. A component measured as itself
        always ends with i_mass == 1. */
    method SetIMass(i: PyValue, codMassRatio: real) returns (out: Outcome)
      requires Valid()
      modifies this`num
      ensures Valid()
      ensures Follows(old(num), out, num, MassSet(old(num), atoms, measuredAs, i, codMassRatio))
      ensures forall q :: q != IMass ==> num[q] == old(num)[q]
      ensures out.Fail? ==> num == old(num)
      ensures num == old(num)[IMass := num[IMass]]
      ensures |atoms| > 0 && Truthy(i) ==> out == Fail(AttributeError)
      ensures |atoms| == 0 && measuredAs.None? && Truthy(i) && !EqualsOne(i) ==> out == Fail(AttributeError)
      ensures measuredAs.None? && out.Pass? ==> num == old(num)[IMass := Some(1.0)]
      ensures measuredAs.None? && (!Truthy(i) || (|atoms| == 0 && EqualsOne(i))) ==> out.Pass?
      ensures |atoms| > 0 && !Truthy(i) && measuredAs.Some? && measuredAs.value in atoms ==>
        out == Pass && num == old(num)[IMass := Some(1.0 / atoms[measuredAs.value])]
      ensures |atoms| > 0 && !Truthy(i) && measuredAs == Some("COD") && "COD" !in atoms ==>
        out == Pass && num == old(num)[IMass := Some(codMassRatio)]
      ensures |atoms| == 0 && measuredAs.Some? ==>
        var c := CheckNumber(i, false);
        (c.Err? ==> out == Fail(c.error)) && (c.Ok? ==> out == Pass && num == old(num)[IMass := c.value])
    {
      var v := i;
      if |atoms| > 0 {
        if Truthy(i) {
          return Fail(AttributeError);
        }
        if measuredAs.Some? && measuredAs.value in atoms {
          v := PyNum(1.0 / atoms[measuredAs.value]);
        } else if measuredAs == Some("COD") {
          v := PyNum(codMassRatio);
        } else if measuredAs.Some? && measuredAs.value != "" {
          return Fail(AttributeError);
        }
      }
      if measuredAs.None? {
        if Truthy(v) && !EqualsOne(v) {
          return Fail(AttributeError);
        }
        v := PyNum(1.0);
      }
      var c := CheckNumber(v, false);
      if c.Err? {
        return Fail(c.error);
      }
      num := num[IMass := c.value];
      return Pass;
    }

    /** The i_charge setter: an unset or zero charge is derived from the
        formula (`chargePerMass` is the formula's charge over its molar mass)
        or set to 0 without one. */
    method SetICharge(i: PyValue, chargePerMass: real) returns (out: Outcome)
      requires Valid()
      modifies this`num
      ensures Valid()
      ensures Follows(old(num), out, num, ChargeSet(old(num), formula, i, chargePerMass))
      ensures forall q :: q != ICharge ==> num[q] == old(num)[q]
      ensures var c := CheckNumber(i, false);
        && (c.Err? ==> out == Fail(c.error) && num == old(num))
        && (c.Ok? && NonZero(c.value) ==> out == Pass && num == old(num)[ICharge := c.value])
        && (c.Ok? && !NonZero(c.value) ==>
              out == Pass && num == old(num)[ICharge := Some(ChargeFromFormula(formula, chargePerMass, old(Get(IMass))))])
    {
      var c := CheckNumber(i, false);
      if c.Err? {
        return Fail(c.error);
      }
      num := num[ICharge := c.value];
      if !NonZero(c.value) {
        num := num[ICharge := Some(ChargeFromFormula(formula, chargePerMass, Get(IMass)))];
      }
      return Pass;
    }

    /** The setters of f_BOD5_COD and f_Vmass_Totmass: the value goes through
        `check_return_property` as written, whose range test is never reached
        (`FractionRangeCheckIsDead`), so any number is stored. */
    method SetFraction(p: Prop, f: PyValue) returns (out: Outcome)
      requires Valid() && (p == FBOD5 || p == FVmass)
      modifies this`num
      ensures Valid()
      ensures Follows(old(num), out, num, FractionSet(old(num), p, f))
      ensures forall q :: q != p ==> num[q] == old(num)[q]
      ensures var c := CheckNumber(f, false);
        && (c.Err? ==> out == Fail(c.error) && num == old(num))
        && (c.Ok? ==> out == Pass && num == old(num)[p := c.value])
      ensures out.Fail? <==> AsFloat(f).None? && Truthy(f)
      ensures AsFloat(f).Some? ==> num[p] == AsFloat(f)
    {
      var c := CheckNumber(f, false);
      if c.Err? {
        return Fail(c.error);
      }
      num := num[p := c.value];
      return Pass;
    }

    /** The f_uBOD_COD setter: a falsy value means 0, and the ultimate BOD
        fraction may not be below the current BOD5 fraction; as written there
        is no upper bound (`FractionRangeCheckIsDead`). */
    method SetFuBOD(f: PyValue) returns (out: Outcome)
      requires Valid()
      modifies this`num
      ensures Valid()
      ensures Follows(old(num), out, num, FuBODSet(old(num), f))
      ensures forall q :: q != FuBOD ==> num[q] == old(num)[q]
      ensures out.Fail? ==> num == old(num)
      ensures out.Pass? ==> old(Get(FBOD5)) <= Get(FuBOD) && num == old(num)[FuBOD := num[FuBOD]]
      ensures var frac := if Truthy(f) then f else PyNum(0.0);
        && (AsFloat(frac).None? ==> out == Fail(TypeError))
        && (AsFloat(frac).Some? && AsFloat(frac).value < old(Get(FBOD5)) ==> out == Fail(ValueError))
        && (AsFloat(frac).Some? && old(Get(FBOD5)) <= AsFloat(frac).value ==>
              out == Pass && num[FuBOD] == Some(AsFloat(frac).value))
    {
      var frac := if Truthy(f) then f else PyNum(0.0);
      if AsFloat(frac).None? {
        return Fail(TypeError);
      }
      if AsFloat(frac).value < Get(FBOD5) {
        return Fail(ValueError);
      }
      var c := CheckNumber(frac, false);
      num := num[FuBOD := c.value];
      return Pass;
    }

    /** The i_COD setter: an explicit value is checked; otherwise organic
        components and the COD-bearing inorganic gases and ions get 1 when
        measured as COD, or `codPerMass` (COD over molar mass, from the chemistry
        library) times i_mass; every other component gets 0. */
    method SetICOD(i: PyValue, codPerMass: real) returns (out: Outcome)
      requires Valid()
      modifies this`num
      ensures Valid()
      ensures Follows(old(num), out, num, ICODSet(old(num), formula, atoms, measuredAs, organic, i, codPerMass))
      ensures forall q :: q != ICOD ==> num[q] == old(num)[q]
      ensures out.Fail? ==> num == old(num)
      ensures Truthy(i) ==>
        var c := CheckNumber(i, false);
        (c.Err? ==> out == Fail(c.error)) && (c.Ok? ==> out == Pass && num == old(num)[ICOD := c.value])
      ensures !Truthy(i) && (organic == Some(true) || formula in CODFormulas) ==>
        && (measuredAs == Some("COD") ==> out == Pass && num == old(num)[ICOD := Some(1.0)])
        && (measuredAs != Some("COD") && |atoms| == 0 ==> out == Fail(AttributeError))
        && (measuredAs != Some("COD") && |atoms| > 0 ==>
              out == Pass && num == old(num)[ICOD := Some(CODFromMass(codPerMass, old(Get(IMass))))])
      ensures !Truthy(i) && !(organic == Some(true) || formula in CODFormulas) ==>
        out == Pass && num == old(num)[ICOD := Some(0.0)]
    {
      if Truthy(i) {
        var c := CheckNumber(i, false);
        if c.Err? {
          return Fail(c.error);
        }
        num := num[ICOD := c.value];
        return Pass;
      }
      if organic == Some(true) || formula in CODFormulas {
        if measuredAs == Some("COD") {
          num := num[ICOD := Some(1.0)];
        } else if |atoms| == 0 {
          return Fail(AttributeError);
        } else {
          var v := CODFromMass(codPerMass, Get(IMass));
          assert v == CODFromMass(codPerMass, OrDefault(num[IMass], 1.0));
          num := num[ICOD := Some(v)];
        }
      } else {
        num := num[ICOD := Some(0.0)];
      }
      return Pass;
    }

    /** The i_NOD setter: an explicit value wins; None selects the default
        from degradability and formula. */
    method SetINOD(i: PyValue) returns (out: Outcome)
      requires Valid()
      modifies this`num
      ensures Valid()
      ensures Follows(old(num), out, num, INODSet(old(num), formula, degradability, i))
      ensures forall q :: q != INOD ==> num[q] == old(num)[q]
      ensures out.Fail? ==> num == old(num)
      ensures i == PyNone ==>
        out == Pass && num == old(num)[INOD := Some(DefaultINOD(degradability, formula, old(Get(IN))))]
      ensures i != PyNone ==>
        var c := CheckNumber(i, false);
        (c.Err? ==> out == Fail(c.error)) && (c.Ok? ==> out == Pass && num == old(num)[INOD := c.value])
    {
      var v := i;
      if i == PyNone {
        v := PyNum(DefaultINOD(degradability, formula, Get(IN)));
      }
      var c := CheckNumber(v, false);
      if c.Err? {
        return Fail(c.error);
      }
      num := num[INOD := c.value];
      return Pass;
    }

    method SetParticleSize(v: PyValue) returns (out: Outcome)
      modifies this`particleSize
      ensures Allowed("particle_size", v) ==> out == Pass && particleSize == Some(v.s) && particleSize.value in ParticleSizes
      ensures !Allowed("particle_size", v) ==> out == Fail(AssertionError) && particleSize == old(particleSize)
    {
      var c := CheckReturnProperty("particle_size", v);
      if c.Err? {
        return Fail(c.error);
      }
      particleSize := Some(c.value.s);
      return Pass;
    }

    method SetDegradability(v: PyValue) returns (out: Outcome)
      modifies this`degradability
      ensures Allowed("degradability", v) ==> out == Pass && degradability == Some(v.s) && degradability.value in Degradabilities
      ensures !Allowed("degradability", v) ==> out == Fail(AssertionError) && degradability == old(degradability)
    {
      var c := CheckReturnProperty("degradability", v);
      if c.Err? {
        return Fail(c.error);
      }
      degradability := Some(c.value.s);
      return Pass;
    }

    /** The organic setter stores `bool(value)` of an allowed value: True,
        False, 1 or 0. */
    method SetOrganic(v: PyValue) returns (out: Outcome)
      modifies this`organic
      ensures Allowed("organic", v) ==> out == Pass && organic == Some(Truthy(v))
      ensures !Allowed("organic", v) ==> out == Fail(AssertionError) && organic == old(organic)
    {
      var c := CheckReturnProperty("organic", v);
      if c.Err? {
        return Fail(c.error);
      }
      organic := Some(Truthy(c.value));
      return Pass;
    }

    /** `_convert_i_attr`: divide every `i_*` slot, in order, by the
        denominator of the new basis. The loop raises TypeError at the first
        unset slot, after the slots before it have been divided. */
    method ConvertIAttr(basis: Option<string>) returns (out: Outcome)
      requires Valid()
      modifies this`num
      ensures Valid()
      ensures Converted(old(num), num, out, Denominator(old(num), atoms, basis))
    {
      var dn := Denominator(num, atoms, basis);
      if dn.Err? {
        return Fail(dn.error);
      }
      var r;
      out, r := DivideIProps(num, dn.value);
      num := r;
    }

    /** The measured_as setter: the basis must be COD or one of the formula's
        atoms (or empty); a change of basis rescales every `i_*` content. */
    method SetMeasuredAs(m: Option<string>) returns (out: Outcome)
      requires Valid()
      modifies this`num, this`measuredAs
      ensures Valid()
      ensures m.Some? && m.value != "" && m.value != "COD" && m.value !in atoms ==>
        out == Fail(AttributeError) && num == old(num) && measuredAs == old(measuredAs)
      ensures out.Pass? ==> measuredAs == m
      ensures out.Fail? ==> measuredAs == old(measuredAs)
      ensures m == old(measuredAs) && (m.None? || m.value == "" || m.value == "COD" || m.value in atoms) ==>
        out == Pass && num == old(num)
      ensures m != old(measuredAs) && (m.None? || m.value == "" || m.value == "COD" || m.value in atoms) ==>
        Converted(old(num), num, out, Denominator(old(num), atoms, m))
      ensures m != old(measuredAs) && out.Pass? ==>
        var dn := Denominator(old(num), atoms, m);
        dn.Ok? && num == Divided(old(num), IProps, dn.value)
    {
      if m.Some? && m.value != "" && m.value != "COD" && m.value !in atoms {
        return Fail(AttributeError);
      }
      if measuredAs != m {
        out := ConvertIAttr(m);
        if out.Fail? {
          return;
        }
      }
      measuredAs := m;
      return Pass;
    }

    /** The classification attributes as `get_missing_properties` reads them. */
    function ClassificationValues(): (r: seq<(string, PyValue)>)
      reads this
      ensures |r| == 3
    {
      ClassificationOf(Record())
    }

    /** The numeric properties as their public getters return them. */
    function NumericValues(): (r: seq<(string, PyValue)>)
      reads this
      requires Valid()
      ensures forall i :: 0 <= i < |r| ==> r[i].1.PyNum?
    {
      seq(|NumProps|, i requires 0 <= i < |NumProps| && Valid() reads this =>
        (PropName(NumProps[i]), PyNum(Get(NumProps[i]))))
    }

    /** Of the key properties, only the classification attributes can be
        missing: every numeric getter returns a number, which is either 0 or
        truthy. */
    lemma KeyMissingOnlyClassification()
      requires Valid()
      ensures MissingNames(ClassificationValues() + NumericValues()) == MissingNames(ClassificationValues())
      ensures forall n :: n in MissingNames(ClassificationValues() + NumericValues()) ==>
        n in ["particle_size", "degradability", "organic"]
      ensures "organic" in MissingNames(ClassificationValues() + NumericValues()) <==> organic == None
    {
      var cls := ClassificationValues();
      MissingNamesAppend(cls, NumericValues());
      MissingNamesOfNumbers(NumericValues());
      assert cls + [] == cls;
      forall n | n in MissingNames(cls) ensures n in ["particle_size", "degradability", "organic"] {
        MissingNamesIff(cls, n);
      }
      MissingNamesIff(cls, "organic");
      if organic == None {
        assert cls[2].0 == "organic" && IsMissing(cls[2].1);
      }
    }
  }
}
