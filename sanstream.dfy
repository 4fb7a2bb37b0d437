/** Streams carrying per-component masses, and the stream operations that
    move components between streams, convert plain streams and reset the
    linked impact item. */
module Streams {
  import opened Common

  /** The stream classes: plain streams, sanitation streams, waste streams,
      and the placeholder classes for a missing stream of each. */
  datatype Kind =
    | PlainStream | SanStreamKind | WasteStreamKind
    | MissingStream | MissingSanStream | MissingWasteStream

  function TypeName(k: Kind): string
  {
    match k
    case PlainStream => "Stream"
    case SanStreamKind => "SanStream"
    case WasteStreamKind => "WasteStream"
    case MissingStream => "MissingStream"
    case MissingSanStream => "MissingSanStream"
    case MissingWasteStream => "MissingWasteStream"
  }

  /** `isinstance`: a waste stream is a sanitation stream, which is a plain
      stream; each missing-stream class is a missing stream. */
  predicate IsInstance(k: Kind, cls: Kind)
  {
    k == cls
    || (cls == PlainStream && k in {SanStreamKind, WasteStreamKind})
    || (cls == SanStreamKind && k == WasteStreamKind)
    || (cls == MissingStream && k in {MissingSanStream, MissingWasteStream})
  }

  /** `sub` occurs in `s` at position `i`. */
  predicate OccursAt(s: string, sub: string, i: int)
  {
    0 <= i <= |s| - |sub| && s[i..i + |sub|] == sub
  }

  /** The mixing filter's test: the class name mentions "Missing". */
  predicate NamedMissing(k: Kind)
  {
    exists i :: 0 <= i <= |TypeName(k)| && OccursAt(TypeName(k), "Missing", i)
  }

  /** The name test picks out exactly the missing-stream classes. */
  lemma NamedMissingIff(k: Kind)
    ensures NamedMissing(k) <==> IsInstance(k, MissingStream)
  {
    var t := TypeName(k);
    if IsInstance(k, MissingStream) {
      assert OccursAt(t, "Missing", 0);
    } else {
      assert forall j :: 0 <= j < |t| ==> t[j] != 'M';
      forall i | 0 <= i <= |t| - 7 ensures !OccursAt(t, "Missing", i) {
        assert t[i..i + 7][0] == t[i];
      }
    }
  }

  /** `s[0] == 's' and s[1:].isnumeric()`: an ID the registry hands out by
      default. */
  predicate IsDefaultID(s: string)
    requires s != ""
  {
    s[0] == 's' && IsNumeric(s[1..])
  }

  /** The ID `from_stream` gives the new stream: the given one, else the old
      stream's, dropped to '' when it looks default; indexing an empty ID
      raises. */
  function ChosenID(id: string, oldID: string): (r: Result<string>)
    ensures r.Err? <==> id == "" && oldID == ""
    ensures r.Err? ==> r.error == IndexError
    ensures r.Ok? ==> r.value == "" || r.value == (if id != "" then id else oldID)
    ensures r.Ok? && r.value != "" ==> !IsDefaultID(r.value)
    ensures id != "" && !IsDefaultID(id) ==> r == Ok(id)
    ensures id == "" && oldID != "" && IsDefaultID(oldID) ==> r == Ok("")
  {
    var n := if id != "" then id else oldID;
    if n == "" then Err(IndexError)
    else if IsDefaultID(n) then Ok("")
    else Ok(n)
  }

  /** Elementwise sum of two mass maps; an absent ID carries no mass. */
  function Plus(a: Masses, b: Masses): (r: Masses)
    ensures forall id :: At(r, id) == At(a, id) + At(b, id)
  {
    map id | id in a.Keys + b.Keys :: At(a, id) + At(b, id)
  }

  /** The per-component sum of several mass maps. */
  function MassesSum(ms: seq<Masses>): (r: Masses)
    ensures forall id :: id in r <==> exists i :: 0 <= i < |ms| && id in ms[i]
  {
    if ms == [] then map[] else Plus(MassesSum(ms[..|ms| - 1]), ms[|ms| - 1])
  }

  /** Each component's mass in a sum of streams is the sum of its masses. */
  lemma {:induction false} MassesSumAt(ms: seq<Masses>, id: string)
    ensures At(MassesSum(ms), id) == Sum(seq(|ms|, i requires 0 <= i < |ms| => At(ms[i], id)))
  {
    var col := seq(|ms|, i requires 0 <= i < |ms| => At(ms[i], id));
    if ms != [] {
      var n := |ms|;
      MassesSumAt(ms[..n - 1], id);
      assert col[..n - 1] == seq(n - 1, i requires 0 <= i < n - 1 => At(ms[..n - 1][i], id));
    }
  }

  /** `m[ids] += src[ids]` for the IDs in `ids`. */
  function AddSome(m: Masses, src: Masses, ids: seq<string>): (r: Masses)
    ensures forall id :: At(r, id) == At(m, id) + (if id in ids then At(src, id) else 0.0)
  {
    map id | id in m.Keys + (set i | i in ids) :: At(m, id) + (if id in ids then At(src, id) else 0.0)
  }

  /** `m[ids] = 0` for the IDs in `ids`. */
  function ZeroSome(m: Masses, ids: seq<string>): (r: Masses)
    ensures forall id :: At(r, id) == (if id in ids then 0.0 else At(m, id))
  {
    map id | id in m.Keys + (set i | i in ids) :: if id in ids then 0.0 else At(m, id)
  }

  /** `m[ids] = src[ids] * f` for the IDs in `ids`; with `src == m` this is
      `m[ids] *= f`. */
  function AssignSome(m: Masses, src: Masses, ids: seq<string>, f: real): (r: Masses)
    ensures forall id :: At(r, id) == (if id in ids then At(src, id) * f else At(m, id))
  {
    map id | id in m.Keys + (set i | i in ids) :: if id in ids then At(src, id) * f else At(m, id)
  }

  /** `m * f`: every component's mass scaled by `f`. */
  function Scaled(m: Masses, f: real): (r: Masses)
    ensures forall id :: At(r, id) == At(m, id) * f
  {
    map id | id in m :: m[id] * f
  }

  /** A stream impact item as a stream sees it: its ID and the stream it is
      linked to. */
  class ImpactItem {
    const id: string
    var linkedStream: Stream?

    constructor(id: string)
      ensures this.id == id && linkedStream == null
    {
      this.id := id;
      linkedStream := null;
    }
  }

  class Stream {
    const kind: Kind
    var id: string
    /** Mass flow per component ID. */
    var imass: Masses
    var price: real
    /** The linked stream impact item; null is Python's None. */
    var impactItem: ImpactItem?

    constructor(kind: Kind, id: string, imass: Masses)
      ensures this.kind == kind && this.id == id && this.imass == imass
      ensures price == 0.0 && impactItem == null
    {
      this.kind := kind;
      this.id := id;
      this.imass := imass;
      price := 0.0;
      impactItem := null;
    }

    /** The `stream_impact_item` setter: the item is stored, and an item
        that is given is linked back to this stream. */
    method SetImpactItem(item: ImpactItem?)
      modifies this`impactItem, item
      ensures impactItem == item
      ensures item != null ==> item.linkedStream == this
    {
      impactItem := item;
      if item != null {
        item.linkedStream := this;
      }
    }

    /** `copy_flow`: the generic stream class copies the masses of the
        selected IDs from `other` (`ids` holds the IDs its `IDs` and
        `exclude` arguments select) and, with `remove`, then zeroes them in
        `other`; after that, copying from a sanitation stream unlinks this
        stream's impact item and copying from a plain stream keeps it. */
    method CopyFlow(other: Stream, ids: seq<string>, remove: bool)
      modifies this`imass, this`impactItem, other`imass
      ensures other != this ==> imass == AssignSome(old(imass), old(other.imass), ids, 1.0)
      ensures other != this ==> other.imass == (if remove then ZeroSome(old(other.imass), ids) else old(other.imass))
      ensures other == this ==>
        imass == (if remove then ZeroSome(AssignSome(old(imass), old(imass), ids, 1.0), ids)
                  else AssignSome(old(imass), old(imass), ids, 1.0))
      ensures IsInstance(other.kind, SanStreamKind) ==> impactItem == null
      ensures !IsInstance(other.kind, SanStreamKind) ==> impactItem == old(impactItem)
    {
      imass := AssignSome(imass, other.imass, ids, 1.0);
      if remove {
        other.imass := ZeroSome(other.imass, ids);
      }
      if !IsInstance(other.kind, SanStreamKind) {
        return;
      }
      impactItem := null;
    }

    /** `flow_proxy` (and `proxy`): a new stream of the same class with the
        same flows and no impact item. */
    method FlowProxy(newID: string) returns (s: Stream)
      ensures fresh(s) && s.kind == kind && s.id == newID && s.imass == imass
      ensures s.impactItem == null
    {
      s := new Stream(kind, newID, imass);
      s.SetImpactItem(null);
    }

    /** `mix_from`: the flows become the sum of the given streams' flows,
        streams of a missing class being dropped first; price and impact
        item are left alone. */
    method MixFrom(others: seq<Stream>)
      modifies this`imass
      ensures imass == MassesSum(old(FlowsOf(Present(others))))
    {
      var kept := Present(others);
      imass := MassesSum(FlowsOf(kept));
    }
  }

  /** `[s for s in others if not 'Missing' in type(s).__name__]`. */
  function Present(others: seq<Stream>): (r: seq<Stream>)
    ensures |r| <= |others|
  {
    KeepKinds(others, k => !NamedMissing(k))
  }

  /** The streams whose class passes `keep`, in their order. */
  function KeepKinds(ss: seq<Stream>, keep: Kind -> bool): (r: seq<Stream>)
    ensures |r| <= |ss|
  {
    if ss == [] then []
    else
      var n := |ss|;
      KeepKinds(ss[..n - 1], keep) + (if keep(ss[n - 1].kind) then [ss[n - 1]] else [])
  }

  lemma {:induction false} KeepKindsIff(ss: seq<Stream>, keep: Kind -> bool, s: Stream)
    ensures s in KeepKinds(ss, keep) <==> s in ss && keep(s.kind)
  {
    if ss != [] {
      var n := |ss|;
      var init := ss[..n - 1];
      KeepKindsIff(init, keep, s);
      assert ss == init + [ss[n - 1]];
    }
  }

  /** The filter keeps exactly the streams of a class not named missing,
      that is, of no missing-stream class. */
  lemma PresentIff(others: seq<Stream>, s: Stream)
    ensures s in Present(others) <==> s in others && !IsInstance(s.kind, MissingStream)
  {
    KeepKindsIff(others, k => !NamedMissing(k), s);
    NamedMissingIff(s.kind);
  }

  function FlowsOf(ss: seq<Stream>): (r: seq<Masses>)
    reads set s | s in ss
    ensures |r| == |ss| && forall i :: 0 <= i < |ss| ==> r[i] == ss[i].imass
  {
    seq(|ss|, i requires 0 <= i < |ss| reads set s | s in ss => ss[i].imass)
  }

  /** The shared body of `degassing` and `filtering`: the selected
      components' masses are added to the receiving stream, if any, and then
      zeroed in the original stream. */
  method MoveOut(original: Stream, receiving: Stream?, ids: seq<string>)
    modifies original`imass, (if receiving == null then {} else {receiving})`imass
    ensures forall id :: id in ids ==> At(original.imass, id) == 0.0
    ensures forall id :: id !in ids ==> At(original.imass, id) == At(old(original.imass), id)
    ensures receiving != null && receiving != original ==>
      forall id :: At(receiving.imass, id) == At(old(receiving.imass), id) + (if id in ids then At(old(original.imass), id) else 0.0)
    ensures receiving != null && receiving != original ==>
      forall id :: At(original.imass, id) + At(receiving.imass, id)
                   == At(old(original.imass), id) + At(old(receiving.imass), id)
  {
    if receiving != null {
      receiving.imass := AddSome(receiving.imass, original.imass, ids);
    }
    original.imass := ZeroSome(original.imass, ids);
  }

  /** The IDs `degassing`/`filtering` act on: the given ones, else the
      default (the stream's gaseous or solid components). */
  function SelectedIDs(given: seq<string>, default: seq<string>): (r: seq<string>)
    ensures given != [] ==> r == given
    ensures given == [] ==> r == default
  {
    if given == [] then default else given
  }

  /** `degassing`: moves the gas components (the given IDs, else
      `gasDefault`) out of the original stream. */
  method Degassing(original: Stream, receiving: Stream?, gasIDs: seq<string>, gasDefault: seq<string>)
    modifies original`imass, (if receiving == null then {} else {receiving})`imass
    ensures var ids := SelectedIDs(gasIDs, gasDefault);
      (forall id :: id in ids ==> At(original.imass, id) == 0.0)
      && (forall id :: id !in ids ==> At(original.imass, id) == At(old(original.imass), id))
      && (receiving != null && receiving != original ==>
            forall id :: At(receiving.imass, id) == At(old(receiving.imass), id) + (if id in ids then At(old(original.imass), id) else 0.0))
  {
    MoveOut(original, receiving, SelectedIDs(gasIDs, gasDefault));
  }

  /** `filtering`: moves the solid components (the given IDs, else
      `solidDefault`) out of the original stream. */
  method Filtering(original: Stream, receiving: Stream?, solidIDs: seq<string>, solidDefault: seq<string>)
    modifies original`imass, (if receiving == null then {} else {receiving})`imass
    ensures var ids := SelectedIDs(solidIDs, solidDefault);
      (forall id :: id in ids ==> At(original.imass, id) == 0.0)
      && (forall id :: id !in ids ==> At(original.imass, id) == At(old(original.imass), id))
      && (receiving != null && receiving != original ==>
            forall id :: At(receiving.imass, id) == At(old(receiving.imass), id) + (if id in ids then At(old(original.imass), id) else 0.0))
  {
    MoveOut(original, receiving, SelectedIDs(solidIDs, solidDefault));
  }

  /** `from_stream(cls, stream, ID)`: a missing stream becomes a new missing
      sanitation stream; a stream that already is a `cls` is returned as it
      is; any other becomes a new `cls` with the same flows, price 0, no
      impact item and the ID `ChosenID` picks, after which the `price`
      keyword, when given, is set. */
  method FromStream(cls: Kind, stream: Stream, id: string, price: Option<real>) returns (r: Result<Stream>)
    ensures IsInstance(stream.kind, MissingStream) ==>
      r.Ok? && fresh(r.value) && r.value.kind == MissingSanStream && r.value.imass == map[]
    ensures !IsInstance(stream.kind, MissingStream) && IsInstance(stream.kind, cls) ==> r == Ok(stream)
    ensures !IsInstance(stream.kind, MissingStream) && !IsInstance(stream.kind, cls) ==>
      (r.Err? <==> ChosenID(id, stream.id).Err?)
      && (r.Err? ==> r.error == IndexError)
      && (r.Ok? ==> fresh(r.value) && r.value.kind == cls && r.value.id == ChosenID(id, stream.id).value
                    && r.value.imass == stream.imass && r.value.impactItem == null
                    && r.value.price == (if price.Some? then price.value else 0.0))
  {
    if IsInstance(stream.kind, MissingStream) {
      var m := new Stream(MissingSanStream, "", map[]);
      return Ok(m);
    }
    if IsInstance(stream.kind, cls) {
      return Ok(stream);
    }
    var newID := ChosenID(id, stream.id);
    if newID.Err? {
      return Err(newID.error);
    }
    var s := new Stream(cls, newID.value, stream.imass);
    s.SetImpactItem(null);
    if price.Some? {
      s.price := price.value;
    }
    return Ok(s);
  }
}
