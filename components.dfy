/** The component registry: an insertion-ordered collection of components
    keyed by ID, its compilation into per-component 0/1 classification
    vectors, and the ID/mask conversions and category sets of a compiled
    registry. */
module Registry {
  import opened Common
  import opened ComponentModel

  /** An object offered to the registry: a component, a plain chemical that
      was never turned into a component, or anything else. */
  datatype Entry = IsComponent(rec: CmpRec) | IsChemical | Other

  /** The registry's attribute dictionary: component IDs in insertion order
      and the component stored under each. */
  datatype Table = Table(keys: seq<string>, vals: map<string, CmpRec>)
  {
    ghost predicate Valid()
    {
      Distinct(keys)
      && (forall k :: k in vals <==> k in keys)
      && (forall k :: k in vals ==> vals[k].id == k)
    }

    /** `d[c.ID] = c`: an existing key keeps its position and takes the new
        component, a new key goes last. */
    function Put(c: CmpRec): (r: Table)
      ensures Valid() ==> r.Valid()
      ensures r.vals == vals[c.id := c]
      ensures keys <= r.keys
    {
      if c.id in vals then Table(keys, vals[c.id := c]) else Table(keys + [c.id], vals[c.id := c])
    }

    /** `tuple(d.values())`: the components in insertion order. */
    function Values(): (r: seq<CmpRec>)
      requires Valid()
      ensures |r| == |keys|
      ensures forall i :: 0 <= i < |keys| ==> r[i] == vals[keys[i]] && r[i].id == keys[i]
    {
      seq(|keys|, i requires 0 <= i < |keys| && keys[i] in vals => vals[keys[i]])
    }

    /** `d.update(other)`. */
    function Update(other: Table): (r: Table)
      requires Valid() && other.Valid()
      ensures r.Valid()
    {
      PutAll(this, other.Values())
    }

    /** `__getitem__` with a string key. */
    function Lookup(id: string): (r: Result<CmpRec>)
      ensures r.Ok? <==> id in vals
      ensures r.Ok? ==> r.value == vals[id]
      ensures r.Err? ==> r.error == UndefinedComponent(id)
    {
      if id in vals then Ok(vals[id]) else Err(UndefinedComponent(id))
    }

    /** `__getitem__` with a list of keys: the components in key order, or
        the first unknown key as `UndefinedComponent`. */
    function LookupAll(ids: seq<string>): (r: Result<seq<CmpRec>>)
      ensures r.Ok? <==> forall i :: 0 <= i < |ids| ==> ids[i] in vals
      ensures r.Ok? ==> |r.value| == |ids| && forall i :: 0 <= i < |ids| ==> r.value[i] == vals[ids[i]]
      ensures r.Err? ==> exists k :: 0 <= k < |ids| && ids[k] !in vals && r.error == UndefinedComponent(ids[k])
                                     && forall j :: 0 <= j < k ==> ids[j] in vals
    {
      if ids == [] then Ok([])
      else if ids[0] !in vals then Err(UndefinedComponent(ids[0]))
      else
        match LookupAll(ids[1..])
        case Err(e) => Err(e)
        case Ok(rest) => Ok([vals[ids[0]]] + rest)
    }

    /** `__contains__` with a component: whether it is one of the values. */
    predicate ContainsComponent(c: CmpRec)
    {
      c in vals.Values
    }
  }

  /** In a well-formed table a component is among the values exactly when it
      is stored under its own ID. */
  lemma ContainsComponentMeaning(t: Table, c: CmpRec)
    requires t.Valid()
    ensures t.ContainsComponent(c) <==> c.id in t.vals && t.vals[c.id] == c
  {
  }

  const EmptyTable: Table := Table([], map[])

  /** Putting the components `cs` one after another. */
  function PutAll(t: Table, cs: seq<CmpRec>): (r: Table)
    ensures t.Valid() ==> r.Valid()
    ensures t.keys <= r.keys
    decreases |cs|
  {
    if cs == [] then t else PutAll(t.Put(cs[0]), cs[1..])
  }

  /** `append` on a table: only a component is accepted, and only under an ID
      not yet present. */
  function AddEntry(t: Table, e: Entry): (r: Result<Table>)
    ensures !e.IsComponent? ==> r == Err(TypeError)
    ensures e.IsComponent? && e.rec.id in t.vals ==> r == Err(ValueError)
    ensures e.IsComponent? && e.rec.id !in t.vals ==>
      r.Ok? && r.value.keys == t.keys + [e.rec.id] && r.value.vals == t.vals[e.rec.id := e.rec]
    ensures t.Valid() && r.Ok? ==> r.value.Valid()
  {
    match e
    case IsComponent(c) => if c.id in t.vals then Err(ValueError) else Ok(t.Put(c))
    case _ => Err(TypeError)
  }

  /** Appending the entries one after another, stopping at the first one
      refused: the table reached and how it ended. */
  function Extended(t: Table, es: seq<Entry>): (r: (Table, Outcome))
    ensures t.Valid() ==> r.0.Valid()
    decreases |es|
  {
    if es == [] then (t, Pass)
    else
      match AddEntry(t, es[0])
      case Err(e) => (t, Fail(e))
      case Ok(t') => Extended(t', es[1..])
  }

  predicate AllComponents(es: seq<Entry>)
  {
    forall i :: 0 <= i < |es| ==> es[i].IsComponent?
  }

  function Ids(es: seq<Entry>): (r: seq<string>)
    requires AllComponents(es)
    ensures |r| == |es| && forall i :: 0 <= i < |es| ==> r[i] == es[i].rec.id
  {
    seq(|es|, i requires 0 <= i < |es| && es[i].IsComponent? => es[i].rec.id)
  }

  /** Building a registry from a sequence, with the duplicate check the
      constructor intends: it is appending every entry to an empty table. */
  function Build(es: seq<Entry>): (r: Result<Table>)
  {
    var (t, out) := Extended(EmptyTable, es);
    if out.Pass? then Ok(t) else Err(out.error)
  }

  /** The constructor as written: the set of IDs seen is never filled, so a
      repeated ID overwrites the earlier component in its first position. */
  function BuildAsWritten(t: Table, es: seq<Entry>): (r: Result<Table>)
    decreases |es|
  {
    if es == [] then Ok(t)
    else
      match es[0]
      case IsComponent(c) => BuildAsWritten(t.Put(c), es[1..])
      case _ => Err(TypeError)
  }

  /** Every entry is a component, no ID repeats, and none is in `t` yet. */
  predicate Addable(t: Table, es: seq<Entry>)
  {
    AllComponents(es)
    && (forall i, j :: 0 <= i < j < |es| ==> es[i].rec.id != es[j].rec.id)
    && (forall i :: 0 <= i < |es| ==> es[i].rec.id !in t.vals)
  }

  /** Extending never changes or reorders what the table already holds, even
      when it stops at a refused entry. */
  lemma {:induction false} ExtendedKeeps(t: Table, es: seq<Entry>)
    ensures t.keys <= Extended(t, es).0.keys
    ensures forall k :: k in t.vals ==> k in Extended(t, es).0.vals && Extended(t, es).0.vals[k] == t.vals[k]
    decreases |es|
  {
    if es != [] {
      match AddEntry(t, es[0])
      case Err(_) =>
      case Ok(t') => ExtendedKeeps(t', es[1..]);
    }
  }

  /** Extending succeeds exactly when the entries are addable. */
  lemma {:induction false} ExtendedPassIff(t: Table, es: seq<Entry>)
    ensures Extended(t, es).1.Pass? <==> Addable(t, es)
    decreases |es|
  {
    if es != [] {
      var rest := es[1..];
      assert forall i :: 0 <= i < |rest| ==> rest[i] == es[i + 1];
      match AddEntry(t, es[0])
      case Err(_) =>
      case Ok(t') =>
        ExtendedPassIff(t', rest);
        if Addable(t', rest) {
          forall i | 0 <= i < |es| ensures es[i].IsComponent? && es[i].rec.id !in t.vals {
            if i > 0 { assert es[i] == rest[i - 1]; }
          }
          forall i, j | 0 <= i < j < |es| ensures es[i].rec.id != es[j].rec.id {
            assert es[j] == rest[j - 1];
            if i > 0 { assert es[i] == rest[i - 1]; }
          }
        }
        if Addable(t, es) {
          assert Addable(t', rest);
        }
    }
  }

  /** A successful extension appends the entries' IDs in order, each with
      its own component. */
  lemma {:induction false} ExtendedContents(t: Table, es: seq<Entry>)
    requires Addable(t, es)
    ensures Extended(t, es).0.keys == t.keys + Ids(es)
    ensures forall i :: 0 <= i < |es| ==>
      es[i].rec.id in Extended(t, es).0.vals && Extended(t, es).0.vals[es[i].rec.id] == es[i].rec
  {
    ExtendedKeys(t, es);
    ExtendedVals(t, es);
  }

  /** The table left after the first entry of an addable sequence is added
      accepts the rest. */
  lemma AddableRest(t: Table, es: seq<Entry>)
    requires Addable(t, es) && es != []
    ensures AddEntry(t, es[0]).Ok? && Addable(AddEntry(t, es[0]).value, es[1..])
  {
    var rest := es[1..];
    forall i | 0 <= i < |rest| ensures rest[i] == es[i + 1] { }
  }

  lemma {:induction false} ExtendedKeys(t: Table, es: seq<Entry>)
    requires Addable(t, es)
    ensures Extended(t, es).0.keys == t.keys + Ids(es)
    decreases |es|
  {
    if es != [] {
      AddableRest(t, es);
      var t' := AddEntry(t, es[0]).value;
      var rest := es[1..];
      ExtendedKeys(t', rest);
      assert Extended(t, es).0 == Extended(t', rest).0;
      IdsCons(es);
      calc {
        Extended(t, es).0.keys;
        t'.keys + Ids(rest);
        (t.keys + [es[0].rec.id]) + Ids(rest);
        t.keys + ([es[0].rec.id] + Ids(rest));
      }
    }
  }

  lemma IdsCons(es: seq<Entry>)
    requires AllComponents(es) && es != []
    ensures AllComponents(es[1..]) && Ids(es) == [es[0].rec.id] + Ids(es[1..])
  {
    var rest := es[1..];
    forall i | 0 <= i < |rest| ensures rest[i] == es[i + 1] { }
    assert Ids(es) == [es[0].rec.id] + Ids(rest);
  }

  lemma {:induction false} ExtendedVals(t: Table, es: seq<Entry>)
    requires Addable(t, es)
    ensures forall i :: 0 <= i < |es| ==>
      es[i].rec.id in Extended(t, es).0.vals && Extended(t, es).0.vals[es[i].rec.id] == es[i].rec
    decreases |es|
  {
    if es != [] {
      AddableRest(t, es);
      var rest := es[1..];
      var t' := AddEntry(t, es[0]).value;
      ExtendedVals(t', rest);
      ExtendedKeeps(t', rest);
      var r := Extended(t', rest).0;
      assert Extended(t, es).0 == r;
      forall i | 0 <= i < |es| ensures es[i].rec.id in r.vals && r.vals[es[i].rec.id] == es[i].rec {
        if i > 0 { assert es[i] == rest[i - 1]; }
        else { assert es[0].rec.id in t'.vals; }
      }
    }
  }

  /** A sequence builds exactly when it holds only components with pairwise
      distinct IDs; the registry then lists those IDs in order. */
  lemma BuildIff(es: seq<Entry>)
    ensures Build(es).Ok? <==>
      AllComponents(es) && forall i, j :: 0 <= i < j < |es| ==> es[i].rec.id != es[j].rec.id
    ensures Build(es).Ok? ==> AllComponents(es) && Build(es).value.keys == Ids(es)
  {
    ExtendedPassIff(EmptyTable, es);
    if Build(es).Ok? {
      ExtendedContents(EmptyTable, es);
    }
  }

  /** The constructor as written never raises `ValueError`: two components
      with one ID build, and the second replaces the first. */
  lemma {:induction false} AsWrittenAcceptsDuplicates(c: CmpRec, d: CmpRec)
    requires c.id == d.id && c != d
    ensures BuildAsWritten(EmptyTable, [IsComponent(c), IsComponent(d)]) == Ok(Table([c.id], map[c.id := d]))
    ensures Build([IsComponent(c), IsComponent(d)]) == Err(ValueError)
  {
    var es := [IsComponent(c), IsComponent(d)];
    var t1 := Table([c.id], map[c.id := c]);
    var t2 := Table([c.id], map[c.id := d]);
    assert es[1..] == [IsComponent(d)];
    assert es[1..][1..] == [];
    assert EmptyTable.Put(c) == t1;
    assert t1.Put(d) == t2;
    assert BuildAsWritten(t2, []) == Ok(t2);
    assert BuildAsWritten(t1, [IsComponent(d)]) == Ok(t2);
    assert AddEntry(EmptyTable, es[0]) == Ok(t1);
    assert AddEntry(t1, IsComponent(d)) == Err(ValueError);
    assert Extended(t1, [IsComponent(d)]) == (t1, Fail(ValueError));
  }

  /** The constructor's loop, with the intended duplicate check. */
  method BuildTable(es: seq<Entry>) returns (r: Result<Table>)
    ensures r == Build(es)
    ensures r.Ok? ==> r.value.Valid()
  {
    var t := EmptyTable;
    var k := 0;
    while k < |es|
      invariant 0 <= k <= |es|
      invariant t.Valid()
      invariant Extended(EmptyTable, es) == Extended(t, es[k..])
    {
      assert es[k..][1..] == es[k + 1..];
      match es[k]
      case IsComponent(c) =>
        if c.id in t.vals {
          return Err(ValueError);
        }
        t := t.Put(c);
        k := k + 1;
      case IsChemical =>
        return Err(TypeError);
      case Other =>
        return Err(TypeError);
    }
    return Ok(t);
  }

  /** Rebuilding a dictionary from its own values, `{i.ID: i for i in
      components}`, gives it back unchanged. */
  lemma {:induction false} RebuildFromValues(t: Table)
    requires t.Valid()
    ensures PutAll(EmptyTable, t.Values()) == t
  {
    var vs := t.Values();
    var k := 0;
    while k < |vs|
      invariant 0 <= k <= |vs|
      invariant PutAll(EmptyTable, vs) == PutAll(Prefix(t, k), vs[k..])
    {
      assert vs[k..][1..] == vs[k + 1..];
      PrefixStep(t, k);
      k := k + 1;
    }
    assert Prefix(t, |vs|).keys == t.keys;
    assert Prefix(t, |vs|).vals == t.vals;
  }

  /** The table of the first `k` entries of `t`. */
  function Prefix(t: Table, k: nat): (r: Table)
    requires t.Valid() && k <= |t.keys|
  {
    Table(t.keys[..k], map j | j in t.vals && j in t.keys[..k] :: t.vals[j])
  }

  lemma PrefixStep(t: Table, k: nat)
    requires t.Valid() && k < |t.keys|
    ensures Prefix(t, k).Put(t.Values()[k]) == Prefix(t, k + 1)
  {
    var c := t.Values()[k];
    assert c.id == t.keys[k];
    assert c.id !in t.keys[..k] by {
      forall i | 0 <= i < k ensures t.keys[i] != c.id { }
    }
    assert t.keys[..k] + [c.id] == t.keys[..k + 1];
    var m := Prefix(t, k).vals[c.id := c];
    forall j ensures j in m <==> j in Prefix(t, k + 1).vals {
      assert j in t.keys[..k + 1] <==> j in t.keys[..k] || j == t.keys[k];
    }
  }

  /** `d.update(other)` keeps this table's order, adds the other's new IDs
      after it, and every ID of the other table takes the other's component:
      a shared ID is overwritten without error. */
  lemma UpdateMerges(t: Table, o: Table)
    requires t.Valid() && o.Valid()
    ensures var r := t.Update(o);
      t.keys <= r.keys
      && (forall k :: k in r.vals <==> k in t.vals || k in o.vals)
      && (forall k :: k in o.vals ==> r.vals[k] == o.vals[k])
      && (forall k :: k in t.vals && k !in o.vals ==> r.vals[k] == t.vals[k])
  {
    var vs := o.Values();
    PutAllVals(t, vs);
    PutMapDistinct(t.vals, vs);
    ValuesListed(o);
  }

  /** Each key of a valid table is the ID of one of its listed values. */
  lemma ValuesListed(o: Table)
    requires o.Valid()
    ensures forall k :: k in o.vals <==> exists i :: 0 <= i < |o.Values()| && o.Values()[i].id == k
  {
    var vs := o.Values();
    forall k | k in o.vals ensures exists i :: 0 <= i < |vs| && vs[i].id == k {
      var i :| 0 <= i < |o.keys| && o.keys[i] == k;
      assert vs[i].id == k;
    }
  }

  /** The dictionary part of putting `cs` one after another. */
  function PutMap(m: map<string, CmpRec>, cs: seq<CmpRec>): map<string, CmpRec>
    decreases |cs|
  {
    if cs == [] then m else PutMap(m[cs[0].id := cs[0]], cs[1..])
  }

  lemma {:induction false} PutAllVals(t: Table, cs: seq<CmpRec>)
    ensures PutAll(t, cs).vals == PutMap(t.vals, cs)
    decreases |cs|
  {
    if cs != [] {
      PutAllVals(t.Put(cs[0]), cs[1..]);
    }
  }

  /** Putting components with distinct IDs adds exactly their IDs, each
      with its own component, and leaves every other ID alone. */
  lemma {:induction false} PutMapDistinct(m: map<string, CmpRec>, cs: seq<CmpRec>)
    requires forall i, j :: 0 <= i < j < |cs| ==> cs[i].id != cs[j].id
    ensures forall k :: k in PutMap(m, cs) <==> k in m || exists i :: 0 <= i < |cs| && cs[i].id == k
    ensures forall i :: 0 <= i < |cs| ==> PutMap(m, cs)[cs[i].id] == cs[i]
    ensures forall k :: k in m && (forall i :: 0 <= i < |cs| ==> cs[i].id != k) ==> PutMap(m, cs)[k] == m[k]
    decreases |cs|
  {
    if cs != [] {
      var rest := cs[1..];
      assert forall i :: 0 <= i < |rest| ==> rest[i] == cs[i + 1];
      PutMapDistinct(m[cs[0].id := cs[0]], rest);
      var m' := m[cs[0].id := cs[0]];
      var r := PutMap(m, cs);
      assert r == PutMap(m', rest);
      forall k ensures k in r <==> k in m || exists i :: 0 <= i < |cs| && cs[i].id == k {
        if exists i :: 0 <= i < |cs| && cs[i].id == k {
          var i :| 0 <= i < |cs| && cs[i].id == k;
          if i > 0 { assert rest[i - 1].id == k; } else { assert k in m'; }
        }
        if k in r && k !in m' {
          var j :| 0 <= j < |rest| && rest[j].id == k;
          assert cs[j + 1].id == k;
        }
      }
      forall i | 0 <= i < |cs| ensures r[cs[i].id] == cs[i] {
        if i > 0 {
          assert rest[i - 1] == cs[i];
        } else {
          assert forall j :: 0 <= j < |rest| ==> rest[j].id != cs[0].id;
          assert cs[0].id in m' && m'[cs[0].id] == cs[0];
        }
      }
    }
  }

  // ---------------------------------------------------------------------
  // Compilation

  /** The classification vectors a compiled registry holds, one entry per
      component in registry order. */
  datatype Flags = Flags(g: seq<int>, s: seq<int>, c: seq<int>, x: seq<int>,
                         b: seq<int>, rb: seq<int>, org: seq<int>, inorg: seq<int>)

  const NoFlags: Flags := Flags([], [], [], [], [], [], [], [])

  function Bit(p: bool): int
  {
    if p then 1 else 0
  }

  predicate IsOrganic(c: CmpRec)
  {
    c.organic == Some(true)
  }

  predicate IsDegradable(c: CmpRec)
  {
    c.degradability != Some("Undegradable")
  }

  function FlagsOf(cs: seq<CmpRec>): (f: Flags)
    ensures |f.g| == |f.s| == |f.c| == |f.x| == |f.b| == |f.rb| == |f.org| == |f.inorg| == |cs|
    ensures forall i :: 0 <= i < |cs| ==> f.inorg[i] == 1 - f.org[i] && 0 <= f.org[i] <= 1
    ensures forall i :: 0 <= i < |cs| ==> f.rb[i] <= f.b[i]
  {
    var n := |cs|;
    Flags(seq(n, i requires 0 <= i < n => Bit(cs[i].particleSize == Some("Dissolved gas"))),
          seq(n, i requires 0 <= i < n => Bit(cs[i].particleSize == Some("Soluble"))),
          seq(n, i requires 0 <= i < n => Bit(cs[i].particleSize == Some("Colloidal"))),
          seq(n, i requires 0 <= i < n => Bit(cs[i].particleSize == Some("Particulate"))),
          seq(n, i requires 0 <= i < n => Bit(IsDegradable(cs[i]))),
          seq(n, i requires 0 <= i < n => Bit(cs[i].degradability == Some("Readily"))),
          seq(n, i requires 0 <= i < n => Bit(IsOrganic(cs[i]))),
          seq(n, i requires 0 <= i < n => 1 - Bit(IsOrganic(cs[i]))))
  }

  /** The four particle-size flags of a component are exclusive, and one of
      them is set exactly when its particle size is one of the allowed ones. */
  lemma ParticleFlagsPartition(cs: seq<CmpRec>, i: int)
    requires 0 <= i < |cs|
    ensures var f := FlagsOf(cs);
      f.g[i] + f.s[i] + f.c[i] + f.x[i] == Bit(cs[i].particleSize.Some? && cs[i].particleSize.value in ParticleSizes)
  {
  }

  /** Elementwise product of two equally long vectors. */
  function Mul(a: seq<int>, b: seq<int>): (r: seq<int>)
    requires |a| == |b|
    ensures |r| == |a| && forall i :: 0 <= i < |a| ==> r[i] == a[i] * b[i]
  {
    seq(|a|, i requires 0 <= i < |a| == |b| => a[i] * b[i])
  }

  function Add(a: seq<int>, b: seq<int>): (r: seq<int>)
    requires |a| == |b|
    ensures |r| == |a| && forall i :: 0 <= i < |a| ==> r[i] == a[i] + b[i]
  {
    seq(|a|, i requires 0 <= i < |a| == |b| => a[i] + b[i])
  }

  function Sub(a: seq<int>, b: seq<int>): (r: seq<int>)
    requires |a| == |b|
    ensures |r| == |a| && forall i :: 0 <= i < |a| ==> r[i] == a[i] - b[i]
  {
    seq(|a|, i requires 0 <= i < |a| == |b| => a[i] - b[i])
  }

  function IntSum(xs: seq<int>): int
  {
    if xs == [] then 0 else IntSum(xs[..|xs| - 1]) + xs[|xs| - 1]
  }

  /** A sum of 0/1 entries is positive exactly when some entry is 1. */
  lemma {:induction false} SumOfBits(xs: seq<int>)
    requires forall i :: 0 <= i < |xs| ==> 0 <= xs[i] <= 1
    ensures IntSum(xs) > 0 <==> exists i :: 0 <= i < |xs| && xs[i] == 1
    ensures IntSum(xs) >= 0
  {
    if xs != [] {
      var n := |xs|;
      var init := xs[..n - 1];
      SumOfBits(init);
      assert forall i :: 0 <= i < n - 1 ==> init[i] == xs[i];
    }
  }

  /** A component lacks a key property: the classification attributes
      reported missing. */
  predicate MissesKey(c: CmpRec)
  {
    MissingNames(ClassificationOf(c)) != []
  }

  /** A key property is missing exactly when the particle size or the
      degradability is unset or empty, or the organic flag is unset. */
  lemma MissesKeyIff(c: CmpRec)
    ensures MissesKey(c) <==>
      c.particleSize == None || c.particleSize == Some("")
      || c.degradability == None || c.degradability == Some("")
      || c.organic == None
  {
    var cls := ClassificationOf(c);
    MissingNamesIff(cls, "particle_size");
    MissingNamesIff(cls, "degradability");
    MissingNamesIff(cls, "organic");
    if MissesKey(c) {
      var n := MissingNames(cls)[0];
      MissingNamesIff(cls, n);
      var k :| 0 <= k < |cls| && cls[k].0 == n && IsMissing(cls[k].1);
      MissingMeansNoneOrEmpty(cls[k].1);
      if k == 0 {
        assert cls[0].1 == if c.particleSize.Some? then PyStr(c.particleSize.value) else PyNone;
      } else if k == 1 {
        assert cls[1].1 == if c.degradability.Some? then PyStr(c.degradability.value) else PyNone;
      } else {
        assert c.organic == None;
      }
    }
  }

  /** Inorganic but degradable: the combination compilation refuses. */
  predicate InorganicDegradable(c: CmpRec)
  {
    !IsOrganic(c) && IsDegradable(c)
  }

  /** How `_compile` ends for the components `cs`, given how the generic
      chemical compilation it calls first ended. */
  function CompileOutcome(cs: seq<CmpRec>, chemicalCheck: Outcome): Outcome
  {
    if chemicalCheck.Fail? then chemicalCheck
    else if exists i :: 0 <= i < |cs| && MissesKey(cs[i]) then Fail(RuntimeError)
    else
      var f := FlagsOf(cs);
      if IntSum(Mul(f.inorg, f.b)) > 0 then Fail(ValueError) else Pass
  }

  /** Compilation succeeds exactly when the chemical compilation does, no
      component misses a key property and none is inorganic but degradable;
      a missing property is reported before the degradability check. */
  lemma CompileOutcomeIff(cs: seq<CmpRec>, chemicalCheck: Outcome)
    ensures CompileOutcome(cs, chemicalCheck) == Pass <==>
      chemicalCheck == Pass
      && (forall i :: 0 <= i < |cs| ==> !MissesKey(cs[i]))
      && (forall i :: 0 <= i < |cs| ==> !InorganicDegradable(cs[i]))
    ensures chemicalCheck == Pass && (exists i :: 0 <= i < |cs| && MissesKey(cs[i])) ==>
      CompileOutcome(cs, chemicalCheck) == Fail(RuntimeError)
    ensures chemicalCheck == Pass && (forall i :: 0 <= i < |cs| ==> !MissesKey(cs[i]))
            && (exists i :: 0 <= i < |cs| && InorganicDegradable(cs[i])) ==>
      CompileOutcome(cs, chemicalCheck) == Fail(ValueError)
  {
    var f := FlagsOf(cs);
    var ib := Mul(f.inorg, f.b);
    SumOfBits(ib);
    if exists i :: 0 <= i < |cs| && InorganicDegradable(cs[i]) {
      var i :| 0 <= i < |cs| && InorganicDegradable(cs[i]);
      assert ib[i] == 1;
    }
  }

  // ---------------------------------------------------------------------
  // ID/mask conversions

  /** `_index[ID]`: the position of an ID in the compiled ID tuple. */
  function Index(ids: seq<string>, id: string): (r: Result<nat>)
    ensures r.Ok? <==> id in ids
    ensures r.Ok? ==> r.value < |ids| && ids[r.value] == id
    ensures r.Err? ==> r.error == UndefinedComponent(id)
  {
    if ids == [] then Err(UndefinedComponent(id))
    else if ids[0] == id then Ok(0)
    else
      match Index(ids[1..], id)
      case Ok(k) => Ok(k + 1)
      case Err(e) => Err(e)
  }

  /** `indices`: the positions of several IDs, or the first unknown one. */
  function Indices(ids: seq<string>, q: seq<string>): (r: Result<seq<nat>>)
    ensures r.Ok? <==> forall j :: 0 <= j < |q| ==> q[j] in ids
    ensures r.Ok? ==> |r.value| == |q| && forall j :: 0 <= j < |q| ==> r.value[j] < |ids| && ids[r.value[j]] == q[j]
    ensures r.Err? ==> exists k :: 0 <= k < |q| && q[k] !in ids && r.error == UndefinedComponent(q[k])
  {
    if q == [] then Ok([])
    else
      match Index(ids, q[0])
      case Err(e) => Err(e)
      case Ok(k) =>
        match Indices(ids, q[1..])
        case Err(e) => Err(e)
        case Ok(rest) => Ok([k] + rest)
  }

  /** The IDs whose mask entry is nonzero, in registry order. */
  function Select(ids: seq<string>, mask: seq<int>): (r: seq<string>)
    requires |mask| == |ids|
    ensures |r| <= |ids|
  {
    if ids == [] then []
    else
      var n := |ids|;
      Select(ids[..n - 1], mask[..n - 1]) + (if mask[n - 1] != 0 then [ids[n - 1]] else [])
  }

  /** An ID is selected exactly when some position holding it has a nonzero
      mask entry. */
  lemma {:induction false} SelectIff(ids: seq<string>, mask: seq<int>, id: string)
    requires |mask| == |ids|
    ensures id in Select(ids, mask) <==> exists i :: 0 <= i < |ids| && ids[i] == id && mask[i] != 0
  {
    if ids != [] {
      var n := |ids|;
      SelectIff(ids[..n - 1], mask[..n - 1], id);
      if exists i :: 0 <= i < n && ids[i] == id && mask[i] != 0 {
        var i :| 0 <= i < n && ids[i] == id && mask[i] != 0;
        if i < n - 1 { assert ids[..n - 1][i] == id && mask[..n - 1][i] != 0; }
      }
    }
  }

  /** `get_IDs_from_array`: a mask of the registry's length selects IDs; a
      mask of another length is refused as numpy refuses it. */
  function IDsFromArray(ids: seq<string>, mask: seq<int>): (r: Result<seq<string>>)
    ensures r.Err? <==> |mask| != |ids|
    ensures r.Err? ==> r.error == IndexError
    ensures r.Ok? ==> |r.value| <= |ids|
  {
    if |mask| != |ids| then Err(IndexError) else Ok(Select(ids, mask))
  }

  /** The 0/1 vector that marks the IDs of `ids` listed in `q`. */
  function MaskOf(ids: seq<string>, q: seq<string>): (r: seq<int>)
    ensures |r| == |ids|
  {
    seq(|ids|, i requires 0 <= i < |ids| => Bit(ids[i] in q))
  }

  /** The IDs of `ids` listed in `q`, in `ids` order. */
  function KeepIn(ids: seq<string>, q: seq<string>): seq<string>
  {
    if ids == [] then []
    else
      var n := |ids|;
      KeepIn(ids[..n - 1], q) + (if ids[n - 1] in q then [ids[n - 1]] else [])
  }

  /** `get_array_from_IDs`: a zero vector of the registry's length with a 1
      at the index of every given ID; an unknown ID raises before any entry
      is set. */
  method ArrayFromIDs(ids: seq<string>, q: seq<string>) returns (r: Result<seq<int>>)
    requires Distinct(ids)
    ensures r.Ok? <==> forall j :: 0 <= j < |q| ==> q[j] in ids
    ensures r.Ok? ==> r.value == MaskOf(ids, q)
    ensures r.Err? ==> exists k :: 0 <= k < |q| && q[k] !in ids && r.error == UndefinedComponent(q[k])
  {
    var idx := Indices(ids, q);
    if idx.Err? {
      return Err(idx.error);
    }
    var positions := idx.value;
    var arr := new int[|ids|](i => 0);
    var j := 0;
    while j < |positions|
      invariant 0 <= j <= |positions|
      invariant forall i :: 0 <= i < arr.Length ==> arr[i] == Bit(ids[i] in q[..j])
    {
      MarkStep(ids, q, positions, j);
      arr[positions[j]] := 1;
      j := j + 1;
    }
    assert q[..|q|] == q;
    return Ok(arr[..]);
  }

  /** Marking the position of `q[j]` extends the marked prefix of `q` by one. */
  lemma MarkStep(ids: seq<string>, q: seq<string>, positions: seq<nat>, j: int)
    requires Distinct(ids) && 0 <= j < |q| && |positions| == |q|
    requires positions[j] < |ids| && ids[positions[j]] == q[j]
    ensures forall i :: 0 <= i < |ids| ==>
      (ids[i] in q[..j + 1] <==> ids[i] in q[..j] || i == positions[j])
  {
    assert q[..j + 1] == q[..j] + [q[j]];
  }

  /** Round trip: selecting with the mask of some IDs gives back exactly
      those of the registry's IDs that were listed, in registry order. */
  lemma {:induction false} MaskRoundTrip(ids: seq<string>, q: seq<string>)
    ensures IDsFromArray(ids, MaskOf(ids, q)) == Ok(KeepIn(ids, q))
  {
    var k := 0;
    while k < |ids|
      invariant 0 <= k <= |ids|
      invariant Select(ids[..k], MaskOf(ids, q)[..k]) == KeepIn(ids[..k], q)
    {
      assert ids[..k + 1][..k] == ids[..k];
      assert MaskOf(ids, q)[..k + 1][..k] == MaskOf(ids, q)[..k];
      k := k + 1;
    }
    assert ids[..|ids|] == ids;
    assert MaskOf(ids, q)[..|ids|] == MaskOf(ids, q);
  }

  // ---------------------------------------------------------------------
  // Category sets

  datatype Category =
    | Gases | Solids | Inorganics | Substrates | ActiveBiomass | InertBiomass | InorganicSolids

  /** What puts a component in a category. */
  predicate InCategory(cat: Category, c: CmpRec)
  {
    var part := c.particleSize == Some("Particulate");
    match cat
    case Gases => c.particleSize == Some("Dissolved gas")
    case Solids => part
    case Inorganics => !IsOrganic(c)
    case Substrates =>
      (c.particleSize == Some("Soluble") || c.particleSize == Some("Colloidal")) && IsDegradable(c) && IsOrganic(c)
    case ActiveBiomass => part && IsDegradable(c) && IsOrganic(c)
    case InertBiomass => part && !IsDegradable(c) && IsOrganic(c)
    case InorganicSolids => part && !IsOrganic(c)
  }

  /** The vector expression each category property selects with. */
  function CategoryMask(cat: Category, f: Flags): (r: seq<int>)
    requires |f.g| == |f.s| == |f.c| == |f.x| == |f.b| == |f.org| == |f.inorg|
    ensures |r| == |f.g|
  {
    match cat
    case Gases => f.g
    case Solids => f.x
    case Inorganics => f.inorg
    case Substrates => Mul(Mul(Add(f.s, f.c), f.b), f.org)
    case ActiveBiomass => Mul(Mul(f.x, f.b), f.org)
    case InertBiomass => Sub(Mul(f.x, f.org), Mul(Mul(f.x, f.b), f.org))
    case InorganicSolids => Mul(f.x, f.inorg)
  }

  /** Each category's vector is nonzero exactly at the components of that
      category. */
  lemma CategoryMaskAt(cat: Category, cs: seq<CmpRec>, i: int)
    requires 0 <= i < |cs|
    ensures CategoryMask(cat, FlagsOf(cs))[i] != 0 <==> InCategory(cat, cs[i])
  {
    var f := FlagsOf(cs);
    assert f.s[i] + f.c[i] <= 1;
  }

  // ---------------------------------------------------------------------
  // The registry object

  class Components {
    var table: Table
    var compiled: bool
    var flags: Flags
    var idArr: seq<string>

    ghost predicate Valid()
      reads this
    {
      table.Valid()
      && (compiled ==> idArr == table.keys && flags == FlagsOf(table.Values())
                       && forall i :: 0 <= i < |table.keys| ==>
                            !MissesKey(table.Values()[i]) && !InorganicDegradable(table.Values()[i]))
      && (!compiled ==> idArr == [] && flags == NoFlags)
    }

    constructor(t: Table)
      requires t.Valid()
      ensures Valid() && table == t && !compiled
    {
      table := t;
      compiled := false;
      flags := NoFlags;
      idArr := [];
    }

    /** Creating a registry from a sequence of objects. */
    static method New(es: seq<Entry>) returns (r: Result<Components>)
      ensures r.Ok? <==> Build(es).Ok?
      ensures r.Err? ==> r.error == Build(es).error
      ensures r.Ok? ==> fresh(r.value) && r.value.Valid() && r.value.table == Build(es).value
                        && !r.value.compiled
    {
      var t := BuildTable(es);
      if t.Err? {
        return Err(t.error);
      }
      var c := new Components(t.value);
      return Ok(c);
    }

    /** `copy` of a registry that is not compiled: a new registry holding the
        same components under the same IDs in the same order. */
    method Copy() returns (c: Components)
      requires Valid() && !compiled
      ensures fresh(c) && c.Valid() && c.table == table && !c.compiled
    {
      var vs := table.Values();
      var t := EmptyTable;
      var k := 0;
      while k < |vs|
        invariant 0 <= k <= |vs|
        invariant t.Valid()
        invariant PutAll(EmptyTable, vs) == PutAll(t, vs[k..])
      {
        assert vs[k..][1..] == vs[k + 1..];
        t := t.Put(vs[k]);
        k := k + 1;
      }
      RebuildFromValues(table);
      c := new Components(t);
    }

    method Append(e: Entry) returns (out: Outcome)
      requires Valid() && !compiled
      modifies this`table
      ensures Valid() && !compiled
      ensures AddEntry(old(table), e).Ok? ==> out == Pass && table == AddEntry(old(table), e).value
      ensures AddEntry(old(table), e).Err? ==>
        out == Fail(AddEntry(old(table), e).error) && table == old(table)
    {
      match e
      case IsComponent(c) =>
        if c.id in table.vals {
          return Fail(ValueError);
        }
        table := table.Put(c);
        return Pass;
      case IsChemical =>
        return Fail(TypeError);
      case Other =>
        return Fail(TypeError);
    }

    /** `extend` with another (uncompiled) registry: a dictionary update. */
    method ExtendFrom(other: Components)
      requires Valid() && other.Valid() && !compiled && !other.compiled
      modifies this`table
      ensures Valid() && !compiled
      ensures table == old(table).Update(old(other.table))
    {
      table := table.Update(other.table);
    }

    /** `extend` with any other sequence: one `append` per element, so the
        elements before a refused one stay added. */
    method ExtendEntries(es: seq<Entry>) returns (out: Outcome)
      requires Valid() && !compiled
      modifies this`table
      ensures Valid() && !compiled
      ensures (table, out) == Extended(old(table), es)
    {
      var k := 0;
      while k < |es|
        invariant 0 <= k <= |es|
        invariant Valid() && !compiled
        invariant Extended(old(table), es) == Extended(table, es[k..])
      {
        assert es[k..][1..] == es[k + 1..];
        out := Append(es[k]);
        if out.Fail? {
          return;
        }
        k := k + 1;
      }
      return Pass;
    }

    /** `compile`: a compiled registry is left alone; otherwise the
        classification vectors are built, and on any failure the registry
        reverts to an uncompiled one holding exactly its former components. */
    method Compile(chemicalCheck: Outcome) returns (out: Outcome)
      requires Valid()
      modifies this
      ensures Valid() && table == old(table)
      ensures old(compiled) ==> out == Pass && compiled && flags == old(flags)
      ensures !old(compiled) ==> out == CompileOutcome(old(table).Values(), chemicalCheck)
      ensures !old(compiled) && out.Pass? ==> compiled && flags == FlagsOf(table.Values()) && idArr == table.keys
      ensures !old(compiled) && out.Fail? ==> !compiled
    {
      if compiled {
        return Pass;
      }
      var components := table.Values();
      compiled := true;
      out := CompileBody(components, chemicalCheck);
      if out.Fail? {
        compiled := false;
        RebuildFromValues(table);
        table := PutAll(EmptyTable, components);
        flags := NoFlags;
        idArr := [];
      }
    }

    /** `_compile` on the registry's own components. */
    method CompileBody(components: seq<CmpRec>, chemicalCheck: Outcome) returns (out: Outcome)
      requires table.Valid() && components == table.Values() && compiled
      modifies this`flags, this`idArr
      ensures out == CompileOutcome(components, chemicalCheck)
      ensures out.Pass? ==> Valid()
    {
      if chemicalCheck.Fail? {
        return chemicalCheck;
      }
      var k := 0;
      while k < |components|
        invariant 0 <= k <= |components|
        invariant forall j :: 0 <= j < k ==> !MissesKey(components[j])
      {
        if MissesKey(components[k]) {
          return Fail(RuntimeError);
        }
        k := k + 1;
      }
      flags := FlagsOf(components);
      idArr := table.keys;
      if IntSum(Mul(flags.inorg, flags.b)) > 0 {
        return Fail(ValueError);
      }
      CompileOutcomeIff(components, chemicalCheck);
      return Pass;
    }

    /** The category properties (`gases`, `solids`, `inorganics`,
        `substrates`, `active_biomass`, `inert_biomass`, `inorganic_solids`)
        of a compiled registry. */
    function CategoryIDs(cat: Category): (r: seq<string>)
      reads this
      requires Valid() && compiled
      ensures forall id :: id in r <==> id in table.vals && InCategory(cat, table.vals[id])
    {
      var mask := CategoryMask(cat, flags);
      assert forall id :: id in Select(idArr, mask) <==> id in table.vals && InCategory(cat, table.vals[id]) by {
        forall id ensures id in Select(idArr, mask) <==> id in table.vals && InCategory(cat, table.vals[id]) {
          SelectIff(idArr, mask, id);
          if id in table.vals {
            var i :| 0 <= i < |table.keys| && table.keys[i] == id;
            CategoryMaskAt(cat, table.Values(), i);
          }
          if id in Select(idArr, mask) {
            var i :| 0 <= i < |idArr| && idArr[i] == id && mask[i] != 0;
            CategoryMaskAt(cat, table.Values(), i);
          }
        }
      }
      Select(idArr, mask)
    }
  }
}
