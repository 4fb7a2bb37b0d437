/** An electrochemical cell for nutrient recovery: the mixed inlet is split,
    chemical by chemical, into a recovered, a removed and a remaining
    stream by fixed fractions. */
module ElectroChemical {
  import opened Common
  import Streams

  /** A piece of equipment the cell is built from. */
  datatype Equipment = Equipment(id: string)

  /** The `equipments` argument: one piece, or a sequence of them. */
  datatype EquipmentArg = Single(e: Equipment) | Several(es: seq<Equipment>)

  /** `(equipments,)` when a single piece was given. */
  function AsSequence(arg: EquipmentArg): (r: seq<Equipment>)
    ensures arg.Single? ==> r == [arg.e]
    ensures arg.Several? ==> r == arg.es
  {
    match arg
    case Single(e) => [e]
    case Several(es) => es
  }

  /** The keys of a dictionary's items, in order. */
  function Keys(items: seq<(string, real)>): (r: seq<string>)
    ensures |r| == |items| && forall i :: 0 <= i < |items| ==> r[i] == items[i].0
  {
    seq(|items|, i requires 0 <= i < |items| => items[i].0)
  }

  /** The fraction a dictionary gives a chemical, 0 when it has none. */
  function Ratio(items: seq<(string, real)>, c: string): real
  {
    if items == [] then 0.0
    else if items[|items| - 1].0 == c then items[|items| - 1].1
    else Ratio(items[..|items| - 1], c)
  }

  lemma {:induction false} RatioAbsent(items: seq<(string, real)>, c: string)
    requires c !in Keys(items)
    ensures Ratio(items, c) == 0.0
  {
    if items != [] {
      var n := |items|;
      assert Keys(items[..n - 1]) == Keys(items)[..n - 1];
      RatioAbsent(items[..n - 1], c);
    }
  }

  /** With distinct keys, the fraction of a listed chemical is the one given
      with it. */
  lemma {:induction false} RatioAt(items: seq<(string, real)>, k: int)
    requires Distinct(Keys(items)) && 0 <= k < |items|
    ensures Ratio(items, items[k].0) == items[k].1
  {
    var n := |items|;
    if k < n - 1 {
      assert Keys(items[..n - 1]) == Keys(items)[..n - 1];
      assert items[n - 1].0 != items[k].0;
      RatioAt(items[..n - 1], k);
    }
  }

  class ElectroChemCell {
    var recovery: seq<(string, real)>
    var removal: seq<(string, real)>
    var equipments: seq<Equipment>
    var opexOverCapex: real
    /** Masses of the three outlets. */
    var recovered: Masses
    var removed: Masses
    var left: Masses
    var addOPEX: real

    /** The two fraction dictionaries have distinct keys. */
    ghost predicate Valid()
      reads this
    {
      Distinct(Keys(recovery)) && Distinct(Keys(removal))
    }

    constructor(recovery: seq<(string, real)>, removal: seq<(string, real)>,
                equipments: EquipmentArg, opexOverCapex: real)
      requires Distinct(Keys(recovery)) && Distinct(Keys(removal))
      ensures Valid()
      ensures this.recovery == recovery && this.removal == removal
      ensures this.equipments == AsSequence(equipments) && this.opexOverCapex == opexOverCapex
      ensures recovered == map[] && removed == map[] && left == map[] && addOPEX == 0.0
    {
      this.recovery := recovery;
      this.removal := removal;
      this.equipments := AsSequence(equipments);
      this.opexOverCapex := opexOverCapex;
      recovered := map[];
      removed := map[];
      left := map[];
      addOPEX := 0.0;
    }

    /** `_run`: `left` starts as the mixture; each recovery (then removal)
        entry sets the recovered (removed) mass of its chemical to the
        mixture's mass times the fraction and takes the same amount off
        `left`. Chemicals without an entry keep their earlier outlet mass. */
    method Run(influent: Masses, cleaner: Masses)
      requires Valid()
      modifies this`recovered, this`removed, this`left
      ensures var mix := Streams.Plus(influent, cleaner);
        forall c :: At(left, c) == At(mix, c) - Taken(mix, recovery, c) - Taken(mix, removal, c)
      ensures var mix := Streams.Plus(influent, cleaner);
        forall c :: At(recovered, c) == (if c in Keys(recovery) then Taken(mix, recovery, c) else At(old(recovered), c))
      ensures var mix := Streams.Plus(influent, cleaner);
        forall c :: At(removed, c) == (if c in Keys(removal) then Taken(mix, removal, c) else At(old(removed), c))
    {
      var mix := Streams.Plus(influent, cleaner);
      var l, rec := Apportion(mix, recovery, mix, recovered);
      var l', rem := Apportion(mix, removal, l, removed);
      recovered, removed, left := rec, rem, l';
    }

    /** `_cost`: the additional operating cost is the equipment purchase
        cost times the operating-to-capital ratio. */
    method Cost(purchaseCosts: seq<real>)
      modifies this`addOPEX
      ensures addOPEX == Sum(purchaseCosts) * opexOverCapex
    {
      addOPEX := Sum(purchaseCosts) * opexOverCapex;
    }
  }

  /** One loop of `_run` over a fraction dictionary: each entry sets the
      outlet mass of its chemical to the mixture's mass times the fraction and
      takes the same amount off `left`. */
  method Apportion(mix: Masses, items: seq<(string, real)>, left0: Masses, out0: Masses)
    returns (left: Masses, out: Masses)
    requires Distinct(Keys(items))
    ensures forall c :: At(left, c) == At(left0, c) - Taken(mix, items, c)
    ensures forall c :: At(out, c) == (if c in Keys(items) then Taken(mix, items, c) else At(out0, c))
  {
    left, out := left0, out0;
    assert Keys(items[..0]) == [];
    var k := 0;
    while k < |items|
      invariant 0 <= k <= |items|
      invariant LeftAccount(mix, items[..k], left0, left)
      invariant OutAccount(mix, items[..k], out0, out)
    {
      left, out := ApportionEntry(mix, items, k, left0, out0, left, out);
      k := k + 1;
    }
    assert items[..|items|] == items;
  }

  /** The body of that loop: entry `k` fills its chemical's outlet and takes
      the same mass off `left`. */
  method ApportionEntry(mix: Masses, items: seq<(string, real)>, k: int, left0: Masses, out0: Masses,
                        left: Masses, out: Masses)
    returns (left': Masses, out': Masses)
    requires Distinct(Keys(items)) && 0 <= k < |items|
    requires LeftAccount(mix, items[..k], left0, left)
    requires OutAccount(mix, items[..k], out0, out)
    ensures LeftAccount(mix, items[..k + 1], left0, left')
    ensures OutAccount(mix, items[..k + 1], out0, out')
  {
    LeftStep(mix, items, k, left0, left);
    OutStep(mix, items, k, out0, out);
    out' := out[items[k].0 := At(mix, items[k].0) * items[k].1];
    left' := left[items[k].0 := At(left, items[k].0) - At(mix, items[k].0) * items[k].1];
  }

  /** `left` is the starting mass less what the entries took. */
  ghost predicate LeftAccount(mix: Masses, items: seq<(string, real)>, base: Masses, left: Masses)
  {
    forall c :: At(left, c) == At(base, c) - Taken(mix, items, c)
  }

  /** A listed chemical's outlet mass is what its entry took; any other
      keeps its earlier outlet mass. */
  ghost predicate OutAccount(mix: Masses, items: seq<(string, real)>, oldOut: Masses, out: Masses)
  {
    forall c :: At(out, c) == (if c in Keys(items) then Taken(mix, items, c) else At(oldOut, c))
  }

  /** One more dictionary entry: its chemical gains its fraction and is
      listed; no other chemical's fraction or listing changes. */
  lemma Step(items: seq<(string, real)>, k: int)
    requires Distinct(Keys(items)) && 0 <= k < |items|
    ensures forall c :: Ratio(items[..k + 1], c) == (if c == items[k].0 then items[k].1 else Ratio(items[..k], c))
    ensures forall c :: c in Keys(items[..k + 1]) <==> c in Keys(items[..k]) || c == items[k].0
    ensures items[k].0 !in Keys(items[..k])
    ensures Ratio(items[..k], items[k].0) == 0.0
  {
    assert items[..k + 1][..k] == items[..k];
    assert Keys(items[..k + 1]) == Keys(items[..k]) + [items[k].0];
    assert items[k].0 !in Keys(items[..k]) by {
      forall i | 0 <= i < k ensures Keys(items[..k])[i] != items[k].0 {
        assert Keys(items)[i] == items[i].0;
      }
    }
    RatioAbsent(items[..k], items[k].0);
  }

  /** The mass of `c` a fraction dictionary takes out of the mixture. */
  function Taken(mix: Masses, items: seq<(string, real)>, c: string): real
  {
    At(mix, c) * Ratio(items, c)
  }

  /** The loop step: the entry's chemical is now taken in full, every other
      chemical as before. */
  lemma TakeStep(mix: Masses, items: seq<(string, real)>, k: int)
    requires Distinct(Keys(items)) && 0 <= k < |items|
    ensures Taken(mix, items[..k + 1], items[k].0) == At(mix, items[k].0) * items[k].1
    ensures Taken(mix, items[..k], items[k].0) == 0.0
    ensures forall c :: c != items[k].0 ==> Taken(mix, items[..k + 1], c) == Taken(mix, items[..k], c)
    ensures forall c :: c in Keys(items[..k + 1]) <==> c in Keys(items[..k]) || c == items[k].0
  {
    Step(items, k);
  }

  /** One loop step of `_run` keeps the loop's account of `left`. */
  lemma LeftStep(mix: Masses, items: seq<(string, real)>, k: int, base: Masses, left: Masses)
    requires Distinct(Keys(items)) && 0 <= k < |items|
    requires LeftAccount(mix, items[..k], base, left)
    ensures LeftAccount(mix, items[..k + 1], base,
                        left[items[k].0 := At(left, items[k].0) - At(mix, items[k].0) * items[k].1])
  {
    TakeStep(mix, items, k);
    var c := items[k].0;
    var left' := left[c := At(left, c) - At(mix, c) * items[k].1];
    forall x ensures At(left', x) == At(base, x) - Taken(mix, items[..k + 1], x) {
      if x == c {
        assert At(left', c) == At(left, c) - Taken(mix, items[..k + 1], c);
        assert At(left, c) == At(base, c) - Taken(mix, items[..k], c);
      } else {
        assert At(left', x) == At(left, x);
      }
    }
  }

  /** One loop step of `_run` keeps the loop's account of the outlet it
      fills. */
  lemma OutStep(mix: Masses, items: seq<(string, real)>, k: int, oldOut: Masses, out: Masses)
    requires Distinct(Keys(items)) && 0 <= k < |items|
    requires OutAccount(mix, items[..k], oldOut, out)
    ensures OutAccount(mix, items[..k + 1], oldOut, out[items[k].0 := At(mix, items[k].0) * items[k].1])
  {
    TakeStep(mix, items, k);
    var c := items[k].0;
    var out' := out[c := At(mix, c) * items[k].1];
    forall x ensures At(out', x) == (if x in Keys(items[..k + 1]) then Taken(mix, items[..k + 1], x) else At(oldOut, x)) {
      if x == c {
        assert x in Keys(items[..k + 1]);
      } else {
        assert At(out', x) == At(out, x);
      }
    }
  }

  /** Mass balance: when the recovered and removed outlets start empty,
      each chemical's three outlet masses add up to its mixture mass. */
  lemma Conservation(recovery: seq<(string, real)>, removal: seq<(string, real)>, mix: Masses,
                     recoveredAt: real, removedAt: real, leftAt: real, c: string)
    requires leftAt == At(mix, c) - Taken(mix, recovery, c) - Taken(mix, removal, c)
    requires recoveredAt == (if c in Keys(recovery) then Taken(mix, recovery, c) else 0.0)
    requires removedAt == (if c in Keys(removal) then Taken(mix, removal, c) else 0.0)
    ensures recoveredAt + removedAt + leftAt == At(mix, c)
  {
    if c !in Keys(recovery) { RatioAbsent(recovery, c); }
    if c !in Keys(removal) { RatioAbsent(removal, c); }
  }

  /** `left` is never negative when the mixture is not and the two fractions
      of a chemical are fractions that add up to at most 1; a chemical with
      no entry passes through unchanged. */
  lemma LeftBounds(recovery: seq<(string, real)>, removal: seq<(string, real)>, mix: Masses, leftAt: real, c: string)
    requires leftAt == At(mix, c) - Taken(mix, recovery, c) - Taken(mix, removal, c)
    ensures (At(mix, c) >= 0.0 && Ratio(recovery, c) >= 0.0 && Ratio(removal, c) >= 0.0
             && Ratio(recovery, c) + Ratio(removal, c) <= 1.0) ==> 0.0 <= leftAt <= At(mix, c)
    ensures c !in Keys(recovery) && c !in Keys(removal) ==> leftAt == At(mix, c)
  {
    var m := At(mix, c);
    var a := Ratio(recovery, c);
    var b := Ratio(removal, c);
    assert leftAt == m - m * a - m * b;
    if m >= 0.0 && a >= 0.0 && b >= 0.0 && a + b <= 1.0 {
      FractionsLeave(m, a, b);
    }
    if c !in Keys(recovery) { RatioAbsent(recovery, c); }
    if c !in Keys(removal) { RatioAbsent(removal, c); }
  }

  /** Taking two fractions that add up to at most 1 leaves between none and
      all of a non-negative mass. */
  lemma FractionsLeave(m: real, a: real, b: real)
    requires m >= 0.0 && a >= 0.0 && b >= 0.0 && a + b <= 1.0
    ensures 0.0 <= m - m * a - m * b <= m
  {
    assert m - m * a - m * b == m * (1.0 - a - b);
    assert m * a + m * b == m * (a + b);
    MulNonNegative(m, 1.0 - a - b);
    MulNonNegative(m, a + b);
  }
}
