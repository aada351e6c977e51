/**
 * `ExtendingAttribute`, the list descriptor of exptlib/utilities.py (and its
 * identical copy build/lib/exptlib/descriptors.py): every assignment extends
 * a list stored on the instance under `"_" + name`.
 */
module Descriptors {
  import opened Wrappers
  import opened Errors
  import opened Values

  /** A Python list object: its identity matters, because `extend` changes it in place. */
  class PyList {
    var items: seq<Val>

    constructor (items: seq<Val>)
      ensures this.items == items
    {
      this.items := items;
    }
  }

  /** An object, with the attributes that hold lists kept by name. */
  class Instance {
    var slots: map<string, PyList>

    constructor ()
      ensures slots == map[]
    {
      slots := map[];
    }
  }

  /** The objects an assignment may change: the instance and its stored list, if any. */
  function Footprint(inst: Instance, key: string): set<object>
    reads inst
  {
    {inst} + if key in inst.slots then {inst.slots[key]} else {}
  }

  class ExtendingAttribute {
    const privateName: string

    /** A descriptor created in a class body under `name`, which `__set_name__` names. */
    constructor (name: string)
      ensures privateName == "_" + name
    {
      privateName := "_" + name;
    }

    /** `__get__`: the stored list itself, or AttributeError before any assignment. */
    method Get(inst: Instance) returns (r: Result<PyList, Error>)
      ensures r.Success? <==> privateName in inst.slots
      ensures r.Success? ==> r.value == inst.slots[privateName]
      ensures r.Failure? ==> r.error == MissingAttribute(privateName)
    {
      if privateName in inst.slots {
        r := Success(inst.slots[privateName]);
      } else {
        r := Failure(MissingAttribute(privateName));
      }
    }

    /**
     * `__set__`: only a list or a tuple is accepted; it extends the stored
     * list in place, or becomes a new list on the first assignment.
     */
    method Set(inst: Instance, value: Val) returns (r: Result<(), Error>)
      modifies Footprint(inst, privateName)
      ensures r.Success? <==> value.List? || value.Tuple?
      ensures r.Failure? ==> r.error == AssertionFailed && inst.slots == old(inst.slots)
      ensures r.Failure? && privateName in inst.slots ==> inst.slots[privateName].items == old(inst.slots[privateName].items)
      ensures r.Success? && privateName in old(inst.slots) ==>
                inst.slots == old(inst.slots) &&
                inst.slots[privateName].items == old(inst.slots[privateName].items) + value.items
      ensures r.Success? && privateName !in old(inst.slots) ==>
                privateName in inst.slots && fresh(inst.slots[privateName]) &&
                inst.slots == old(inst.slots)[privateName := inst.slots[privateName]] &&
                inst.slots[privateName].items == value.items
    {
      if !(value.List? || value.Tuple?) {
        return Failure(AssertionFailed);
      }
      var values: PyList;
      if privateName in inst.slots {
        values := inst.slots[privateName];
      } else {
        values := new PyList([]);
      }
      values.items := values.items + value.items;
      inst.slots := inst.slots[privateName := values];
      r := Success(());
    }
  }

  /**
   * Runs the assignments of an `__init__` chain on a new instance; every
   * value is a tuple, as in the module's examples.
   */
  method Construct(attr: ExtendingAttribute, assignments: seq<seq<Val>>) returns (inst: Instance)
    requires |assignments| > 0
    ensures fresh(inst)
    ensures attr.privateName in inst.slots && inst.slots.Keys == {attr.privateName}
    ensures inst.slots[attr.privateName].items == Concat(assignments)
  {
    inst := new Instance();
    var r := attr.Set(inst, Tuple(assignments[0]));
    for i := 1 to |assignments|
      invariant attr.privateName in inst.slots && inst.slots.Keys == {attr.privateName}
      invariant fresh(inst) && fresh(inst.slots[attr.privateName])
      invariant inst.slots[attr.privateName].items == Concat(assignments[..i])
    {
      r := attr.Set(inst, Tuple(assignments[i]));
      ConcatSnoc(assignments[..i], assignments[i]);
      assert assignments[..i + 1] == assignments[..i] + [assignments[i]];
    }
    assert assignments[..|assignments|] == assignments;
  }

  function Concat(parts: seq<seq<Val>>): seq<Val>
    decreases |parts|
  {
    if |parts| == 0 then [] else parts[0] + Concat(parts[1..])
  }

  lemma {:induction false} ConcatSnoc(parts: seq<seq<Val>>, last: seq<Val>)
    ensures Concat(parts + [last]) == Concat(parts) + last
    decreases |parts|
  {
    if |parts| == 0 {
      assert Concat([last]) == last + Concat([]);
    } else {
      assert (parts + [last])[1..] == parts[1..] + [last];
      ConcatSnoc(parts[1..], last);
    }
  }

  /** Builds an instance by the assignments and reads the attribute back. */
  method Run(attr: ExtendingAttribute, assignments: seq<seq<Val>>) returns (items: seq<Val>)
    requires |assignments| > 0
    ensures items == Concat(assignments)
  {
    var inst := Construct(attr, assignments);
    var got := attr.Get(inst);
    items := got.value.items;
  }

  lemma ConcatSmall(a: seq<Val>, b: seq<Val>, c: seq<Val>, d: seq<Val>)
    ensures Concat([a]) == a
    ensures Concat([a, b]) == a + b
    ensures Concat([a, b, d]) == a + b + d
    ensures Concat([a, b, c, d]) == a + b + c + d
  {
    assert Concat([d]) == d;
    assert [c, d][1..] == [d];
    assert [b, d][1..] == [d];
    assert [b, c, d][1..] == [c, d];
    assert [a, b, d][1..] == [b, d];
    assert [a, b, c, d][1..] == [b, c, d];
    assert [a, b][1..] == [b];
    assert Concat([b]) == b;
    assert Concat([c, d]) == c + d;
    assert Concat([b, c, d]) == b + (c + d);
    assert Concat([a, b, c, d]) == a + (b + (c + d));
  }

  lemma IntsAppend(xs: seq<int>, ys: seq<int>)
    ensures Ints(xs + ys) == Ints(xs) + Ints(ys)
  {
  }

  function Ints(xs: seq<int>): seq<Val>
  {
    seq(|xs|, i requires 0 <= i < |xs| => Int(xs[i]))
  }

  /**
   * The example outputs: Parent, Child, Sibling, and the `Mixed` and
   * `Complex` classes, whose `__init__` chains run along their MRO from the
   * base: Parent, Child, then Mixin; Parent, Child, Sibling, then Mixin.
   */
  method Examples() returns (parent: seq<Val>, child: seq<Val>, sibling: seq<Val>, mixed: seq<Val>, complex: seq<Val>)
    ensures parent == Ints([0, 1, 2])
    ensures child == Ints([0, 1, 2, 3, 4, 5])
    ensures sibling == Ints([0, 1, 2, 6, 7])
    ensures mixed == Ints([0, 1, 2, 3, 4, 5]) + [Str("a"), Str("b")]
    ensures complex == Ints([0, 1, 2, 3, 4, 5, 6, 7]) + [Str("a"), Str("b")]
  {
    var attr := new ExtendingAttribute("my_attribute");
    var p, c, s, m := Ints([0, 1, 2]), Ints([3, 4, 5]), Ints([6, 7]), [Str("a"), Str("b")];
    ConcatSmall(p, c, s, m);
    ConcatSmall(p, s, c, m);
    IntsAppend([0, 1, 2], [3, 4, 5]);
    IntsAppend([0, 1, 2], [6, 7]);
    IntsAppend([0, 1, 2, 3, 4, 5], [6, 7]);
    assert [0, 1, 2] + [3, 4, 5] == [0, 1, 2, 3, 4, 5];
    assert [0, 1, 2] + [6, 7] == [0, 1, 2, 6, 7];
    assert [0, 1, 2, 3, 4, 5] + [6, 7] == [0, 1, 2, 3, 4, 5, 6, 7];
    parent := Run(attr, [p]);
    child := Run(attr, [p, c]);
    sibling := Run(attr, [p, s]);
    mixed := Run(attr, [p, c, m]);
    complex := Run(attr, [p, c, s, m]);
  }
}
