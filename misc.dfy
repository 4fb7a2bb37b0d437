/** Helpers of the utilities package: copying the slot attributes of one
    object onto another (`copy_attr`) and registering an object under a
    prefixed ID (`register_with_prefix`). */
module Misc {
  import opened Common

  // ---------------------------------------------------------------------
  // copy_attr
  // ---------------------------------------------------------------------

  /** An attribute value: an original object, or the result of calling
      `.copy()` on a value. `copyable` says whether the object has a `copy`
      method; a copy has one exactly when its source does. */
  datatype Value = Object(id: int, copyable: bool) | CopyOf(source: Value)

  /** `hasattr(value, 'copy')`. */
  predicate HasCopy(v: Value)
  {
    match v
    case Object(_, c) => c
    case CopyOf(s) => HasCopy(s)
  }

  /** How many `.copy()` calls separate a value from an original object. */
  function Generation(v: Value): nat
  {
    match v
    case Object(_, _) => 0
    case CopyOf(s) => Generation(s) + 1
  }

  /** The value stored for a slot that is neither skipped nor shared: a copy
      when the value has a `copy` method, the value itself otherwise. A copy
      is a new object, never the original one. */
  function CopyValue(v: Value): (r: Value)
    ensures r != v <==> HasCopy(v)
    ensures HasCopy(r) == HasCopy(v)
  {
    if HasCopy(v) then
      assert Generation(CopyOf(v)) != Generation(v);
      CopyOf(v)
    else v
  }

  /** An object with `__slots__`: the slot names of its class and the slots
      that are set (a slot absent from `attrs` raises AttributeError when
      read). */
  class Slotted {
    const slots: seq<string>
    var attrs: map<string, Value>

    constructor (slots: seq<string>, attrs: map<string, Value>)
      ensures this.slots == slots && this.attrs == attrs
    {
      this.slots := slots;
      this.attrs := attrs;
    }
  }

  /** How a copy ended and the attributes of the new object at that point
      (slots assigned before an error stay assigned). */
  datatype Copy = Copy(outcome: Outcome, attrs: map<string, Value>)

  /** The slot loop exactly as written: the first slot listed in `same` is
      assigned and the function returns, leaving every later slot uncopied. */
  function CopiedAsWritten(target: map<string, Value>, source: map<string, Value>,
                           slots: seq<string>, skip: set<string>, same: set<string>): Copy
    decreases |slots|
  {
    if slots == [] then Copy(Pass, target)
    else
      var slot := slots[0];
      if slot in skip then CopiedAsWritten(target, source, slots[1..], skip, same)
      else if slot !in source then Copy(Fail(AttributeError), target)
      else if slot in same then Copy(Pass, target[slot := source[slot]])
      else CopiedAsWritten(target[slot := CopyValue(source[slot])], source, slots[1..], skip, same)
  }

  /** The slot loop as documented: a slot in `same` is shared and the loop
      goes on to the remaining slots. */
  function Copied(target: map<string, Value>, source: map<string, Value>,
                  slots: seq<string>, skip: set<string>, same: set<string>): Copy
    decreases |slots|
  {
    if slots == [] then Copy(Pass, target)
    else
      var slot := slots[0];
      if slot in skip then Copied(target, source, slots[1..], skip, same)
      else if slot !in source then Copy(Fail(AttributeError), target)
      else Copied(target[slot := Transferred(slot, source[slot], same)], source, slots[1..], skip, same)
  }

  /** The value the documentation promises for a copied slot. */
  function Transferred(slot: string, v: Value, same: set<string>): Value
  {
    if slot in same then v else CopyValue(v)
  }

  /** The slots that are copied: those listed and not skipped. */
  function CopiedSlots(slots: seq<string>, skip: set<string>): set<string>
  {
    set s | s in slots && s !in skip
  }

  /** The documented outcome stated directly: every copied slot carries its
      transferred value, every other attribute of the new object is kept. */
  function Expected(target: map<string, Value>, source: map<string, Value>,
                    slots: seq<string>, skip: set<string>, same: set<string>): map<string, Value>
    requires CopiedSlots(slots, skip) <= source.Keys
  {
    map k | k in target.Keys + CopiedSlots(slots, skip) ::
      if k in CopiedSlots(slots, skip) then Transferred(k, source[k], same) else target[k]
  }

  /** The corrected loop succeeds exactly when every copied slot is set on
      the original; it then leaves the new object with the documented
      attributes, and otherwise raises AttributeError. */
  lemma {:induction false} CopiedMeaning(target: map<string, Value>, source: map<string, Value>,
                                         slots: seq<string>, skip: set<string>, same: set<string>)
    ensures Copied(target, source, slots, skip, same).outcome.Pass?
            <==> CopiedSlots(slots, skip) <= source.Keys
    ensures Copied(target, source, slots, skip, same).outcome.Fail?
            ==> Copied(target, source, slots, skip, same).outcome.error == AttributeError
    ensures CopiedSlots(slots, skip) <= source.Keys
            ==> Copied(target, source, slots, skip, same).attrs == Expected(target, source, slots, skip, same)
    decreases |slots|
  {
    if slots == [] {
      assert CopiedSlots(slots, skip) == {};
      assert Expected(target, source, slots, skip, same) == target;
    } else {
      var slot := slots[0];
      var rest := slots[1..];
      assert slots == [slot] + rest;
      if slot in skip {
        assert CopiedSlots(slots, skip) == CopiedSlots(rest, skip);
        CopiedMeaning(target, source, rest, skip, same);
      } else {
        assert CopiedSlots(slots, skip) == {slot} + CopiedSlots(rest, skip);
        if slot in source {
          var t := target[slot := Transferred(slot, source[slot], same)];
          CopiedMeaning(t, source, rest, skip, same);
          if CopiedSlots(slots, skip) <= source.Keys {
            ExpectedStep(target, source, slot, rest, skip, same);
          }
        }
      }
    }
  }

  /** Assigning the first copied slot and then copying the rest yields the
      documented attributes of copying all the slots. */
  lemma ExpectedStep(target: map<string, Value>, source: map<string, Value>, slot: string,
                     rest: seq<string>, skip: set<string>, same: set<string>)
    requires slot !in skip && slot in source
    requires CopiedSlots([slot] + rest, skip) <= source.Keys
    ensures CopiedSlots(rest, skip) <= source.Keys
    ensures Expected(target[slot := Transferred(slot, source[slot], same)], source, rest, skip, same)
            == Expected(target, source, [slot] + rest, skip, same)
  {
    var slots := [slot] + rest;
    var t := target[slot := Transferred(slot, source[slot], same)];
    assert CopiedSlots(slots, skip) == {slot} + CopiedSlots(rest, skip);
    var a := Expected(t, source, rest, skip, same);
    var b := Expected(target, source, slots, skip, same);
    assert a.Keys == b.Keys;
    forall k | k in a.Keys
      ensures a[k] == b[k]
    {
      if k in CopiedSlots(rest, skip) {
        assert a[k] == Transferred(k, source[k], same);
      } else if k == slot {
        assert a[k] == t[k];
      }
    }
  }

  /** When no copied slot is listed in `same`, the code as written copies
      like the documented loop. */
  lemma {:induction false} AsWrittenAgreesWithoutShared(target: map<string, Value>, source: map<string, Value>,
                                                        slots: seq<string>, skip: set<string>, same: set<string>)
    requires CopiedSlots(slots, skip) !! same
    ensures CopiedAsWritten(target, source, slots, skip, same) == Copied(target, source, slots, skip, same)
    decreases |slots|
  {
    if slots != [] {
      var slot := slots[0];
      assert slot in slots;
      assert CopiedSlots(slots[1..], skip) <= CopiedSlots(slots, skip);
      if slot in skip {
        AsWrittenAgreesWithoutShared(target, source, slots[1..], skip, same);
      } else if slot in source {
        assert slot !in same;
        AsWrittenAgreesWithoutShared(target[slot := CopyValue(source[slot])], source, slots[1..], skip, same);
      }
    }
  }

  /** The code as written drops every slot after the first shared one: with
      slots ["a", "b"] and "a" in `same`, "b" is never copied, although the
      documentation promises its copy. */
  lemma AsWrittenStopsAtShared()
    ensures var source := map["a" := Object(1, false), "b" := Object(2, true)];
            var written := CopiedAsWritten(map[], source, ["a", "b"], {}, {"a"});
            var documented := Copied(map[], source, ["a", "b"], {}, {"a"});
            written == Copy(Pass, map["a" := Object(1, false)]) &&
            documented == Copy(Pass, map["a" := Object(1, false), "b" := CopyOf(Object(2, true))])
  {
    var source := map["a" := Object(1, false), "b" := Object(2, true)];
    assert ["a", "b"][1..] == ["b"];
    assert ["b"][1..] == [];
    assert CopyValue(Object(2, true)) == CopyOf(Object(2, true));
    assert Copied(map["a" := Object(1, false)], source, ["b"], {}, {"a"})
        == Copied(map["a" := Object(1, false), "b" := CopyOf(Object(2, true))], source, [], {}, {"a"});
  }

  /** `copy_attr(new, original, skip, same)` as written: the loop returns
      right after assigning the first slot found in `same`. */
  method CopyAttrAsWritten(dest: Slotted, original: Slotted, skip: set<string>, same: set<string>)
    returns (out: Outcome)
    modifies dest
    ensures Copy(out, dest.attrs)
            == CopiedAsWritten(old(dest.attrs), old(original.attrs), original.slots, skip, same)
  {
    var source := original.attrs;
    var slots := original.slots;
    var i := 0;
    while i < |slots|
      invariant 0 <= i <= |slots|
      invariant source == old(original.attrs)
      invariant CopiedAsWritten(dest.attrs, source, slots[i..], skip, same)
                == CopiedAsWritten(old(dest.attrs), source, slots, skip, same)
    {
      var slot := slots[i];
      assert slots[i..][1..] == slots[i + 1..];
      if slot in skip {
        i := i + 1;
        continue;
      }
      if slot !in source {
        return Fail(AttributeError);
      }
      var value := source[slot];
      if slot in same {
        dest.attrs := dest.attrs[slot := value];
        return Pass;
      }
      var newValue := if HasCopy(value) then CopyOf(value) else value;
      dest.attrs := dest.attrs[slot := newValue];
      i := i + 1;
    }
    return Pass;
  }

  /** `copy_attr(new, original, skip, same)` as documented: shared slots are
      assigned and the loop goes on. */
  method CopyAttr(dest: Slotted, original: Slotted, skip: set<string>, same: set<string>)
    returns (out: Outcome)
    modifies dest
    ensures Copy(out, dest.attrs)
            == Copied(old(dest.attrs), old(original.attrs), original.slots, skip, same)
  {
    var source := original.attrs;
    var slots := original.slots;
    var i := 0;
    while i < |slots|
      invariant 0 <= i <= |slots|
      invariant source == old(original.attrs)
      invariant Copied(dest.attrs, source, slots[i..], skip, same)
                == Copied(old(dest.attrs), source, slots, skip, same)
    {
      var slot := slots[i];
      assert slots[i..][1..] == slots[i + 1..];
      if slot in skip {
        i := i + 1;
        continue;
      }
      if slot !in source {
        return Fail(AttributeError);
      }
      var value := source[slot];
      var newValue;
      if slot in same {
        newValue := value;
      } else if HasCopy(value) {
        newValue := CopyOf(value);
      } else {
        newValue := value;
      }
      dest.attrs := dest.attrs[slot := newValue];
      i := i + 1;
    }
    return Pass;
  }

  // ---------------------------------------------------------------------
  // register_with_prefix
  // ---------------------------------------------------------------------

  /** `prefix + '_' + ID if prefix else ID`. */
  function FullID(prefix: string, id: string): string
  {
    if prefix != "" then prefix + "_" + id else id
  }

  /** Distinct IDs under one prefix give distinct full IDs. */
  lemma FullIDInjective(prefix: string, a: string, b: string)
    requires FullID(prefix, a) == FullID(prefix, b)
    ensures a == b
  {
    if prefix != "" {
      var n := |prefix| + 1;
      assert a == FullID(prefix, a)[n..];
      assert b == FullID(prefix, b)[n..];
    }
  }

  /** Ticket names never repeat. */
  ghost predicate Injective(ticket: nat -> string)
  {
    forall i: nat, j: nat :: ticket(i) == ticket(j) ==> i == j
  }

  /** A registry: the registered objects (by handle) under their IDs; the
      None ID is a key like any other. */
  class Registry {
    var data: map<Option<string>, int>

    constructor ()
      ensures data == map[]
    {
      data := map[];
    }
  }

  /** The ticket counter of a class of registered objects; taking a ticket
      advances it. */
  class TicketBook {
    var number: nat

    constructor ()
      ensures number == 0
    {
      number := 0;
    }
  }

  /** `register_with_prefix(obj, prefix, ID)`. `ID == '' or None` holds only
      for the empty string, so a None ID takes the second branch (where a
      non-empty prefix raises TypeError). On the ticket branch, tickets are
      taken until the full ID is free, and the object is registered under
      the first free one; returns the full ID used. */
  method RegisterWithPrefix(registry: Registry, book: TicketBook, ticket: nat -> string,
                            obj: int, prefix: string, id: Option<string>)
    returns (r: Result<Option<string>>)
    requires Injective(ticket)
    modifies registry, book
    ensures id == Some("") ==>
              r.Ok? && r.value == Some(FullID(prefix, ticket(book.number))) &&
              r.value !in old(registry.data) &&
              book.number > old(book.number) &&
              (forall n: nat | old(book.number) < n < book.number ::
                 Some(FullID(prefix, ticket(n))) in old(registry.data)) &&
              registry.data == old(registry.data)[r.value := obj]
    ensures id.Some? && id.value != "" ==>
              r == Ok(Some(FullID(prefix, id.value))) &&
              book.number == old(book.number) &&
              registry.data == old(registry.data)[r.value := obj]
    ensures id.None? && prefix != "" ==>
              r == Err(TypeError) &&
              book.number == old(book.number) && registry.data == old(registry.data)
    ensures id.None? && prefix == "" ==>
              r == Ok(None) &&
              book.number == old(book.number) &&
              registry.data == old(registry.data)[None := obj]
  {
    if id == Some("") {
      var data := registry.data;
      ghost var start := book.number;
      book.number := book.number + 1;
      var full := FullID(prefix, ticket(book.number));
      ghost var tried: set<Option<string>> := {};
      while Some(full) in data
        invariant book.number > start
        invariant full == FullID(prefix, ticket(book.number))
        invariant tried == set n: nat | start < n < book.number :: Some(FullID(prefix, ticket(n)))
        invariant tried <= data.Keys
        decreases data.Keys - tried
      {
        if Some(full) in tried {
          var n: nat :| start < n < book.number && Some(full) == Some(FullID(prefix, ticket(n)));
          FullIDInjective(prefix, ticket(n), ticket(book.number));
          assert false;
        }
        tried := tried + {Some(full)};
        book.number := book.number + 1;
        full := FullID(prefix, ticket(book.number));
      }
      registry.data := data[Some(full) := obj];
      return Ok(Some(full));
    } else if id.Some? {
      var full := FullID(prefix, id.value);
      registry.data := registry.data[Some(full) := obj];
      return Ok(Some(full));
    } else if prefix != "" {
      return Err(TypeError);
    } else {
      registry.data := registry.data[None := obj];
      return Ok(None);
    }
  }
}
