/**
 * `ExtendedAttribute` of exptlib/helpers.py: a class attribute whose value is
 * the merge, without duplicates, of the private lists `_<name>` of every class
 * along the method resolution order, from the most basic class to the owner.
 */
module Helpers {

  /** `"_" + name` */
  function PrivateName(name: string): string
  {
    "_" + name
  }

  /**
   * The list-valued attributes one class makes visible (its own and those it
   * inherits): `hasattr(cls, k)` is `k in attrs`, `getattr(cls, k)` is `attrs[k]`.
   */
  type ClassAttrs<T> = map<string, seq<T>>

  /** What one class contributes: its visible list, or nothing when it has none. */
  function Contribution<T>(cls: ClassAttrs<T>, key: string): seq<T>
  {
    if key in cls then cls[key] else []
  }

  /** The inner loop: append each item not yet present, in order. */
  function AppendNew<T(==)>(l: seq<T>, items: seq<T>): seq<T>
    decreases |items|
  {
    if |items| == 0 then l
    else AppendNew(if items[0] in l then l else l + [items[0]], items[1..])
  }

  /**
   * The value `__get__` builds for an owner whose MRO is `mro` (the owner
   * first): the classes are visited from the last one back to the owner.
   */
  function Merge<T(==)>(mro: seq<ClassAttrs<T>>, key: string): seq<T>
    decreases |mro|
  {
    if |mro| == 0 then [] else AppendNew(Merge(mro[1..], key), Contribution(mro[0], key))
  }

  /** Every contributed item, duplicates included, in visiting order. */
  function Flat<T>(mro: seq<ClassAttrs<T>>, key: string): seq<T>
    decreases |mro|
  {
    if |mro| == 0 then [] else Flat(mro[1..], key) + Contribution(mro[0], key)
  }

  predicate NoDuplicates<T(==)>(s: seq<T>)
  {
    forall i, j :: 0 <= i < j < |s| ==> s[i] != s[j]
  }

  /** The position of the first occurrence of `x`. */
  function FirstIndex<T(==)>(s: seq<T>, x: T): (i: nat)
    requires x in s
    ensures i < |s| && s[i] == x && x !in s[..i]
  {
    if s[0] == x then 0 else 1 + FirstIndex(s[1..], x)
  }

  /**
   * `r` lists each element of `s` once, in the order of its first occurrence
   * in `s`: this determines `r` from `s`.
   */
  predicate FirstOccurrences<T(==)>(r: seq<T>, s: seq<T>)
  {
    && NoDuplicates(r)
    && (forall i :: 0 <= i < |r| ==> r[i] in s)
    && (forall i :: 0 <= i < |s| ==> s[i] in r)
    && (forall i, j :: 0 <= i < j < |r| ==> r[i] in s && r[j] in s && FirstIndex(s, r[i]) < FirstIndex(s, r[j]))
  }

  lemma {:induction false} FirstIndexAppend<T>(s: seq<T>, x: T, y: T)
    requires y in s
    ensures FirstIndex(s + [x], y) == FirstIndex(s, y)
  {
    if s[0] != y {
      assert (s + [x])[1..] == s[1..] + [x];
      FirstIndexAppend(s[1..], x, y);
    }
  }

  lemma {:induction false} FirstIndexLast<T>(s: seq<T>, x: T)
    requires x !in s
    ensures FirstIndex(s + [x], x) == |s|
  {
    if |s| > 0 {
      assert (s + [x])[1..] == s[1..] + [x];
      FirstIndexLast(s[1..], x);
    }
  }

  /** One step of the inner loop keeps the result the first occurrences of what was seen. */
  lemma StepFirstOccurrences<T>(l: seq<T>, seen: seq<T>, x: T)
    requires FirstOccurrences(l, seen)
    ensures FirstOccurrences(if x in l then l else l + [x], seen + [x])
  {
    var seen' := seen + [x];
    forall y | y in seen ensures FirstIndex(seen', y) == FirstIndex(seen, y) {
      FirstIndexAppend(seen, x, y);
    }
    if x !in l {
      FirstIndexLast(seen, x);
      var l' := l + [x];
      forall i, j | 0 <= i < j < |l'|
        ensures l'[i] in seen' && l'[j] in seen' && FirstIndex(seen', l'[i]) < FirstIndex(seen', l'[j])
      {
        if j < |l| {
          assert l'[i] == l[i] && l'[j] == l[j];
        } else {
          assert l'[i] == l[i] && l[i] in seen;
        }
      }
    }
  }

  lemma {:induction false} AppendNewFirstOccurrences<T>(l: seq<T>, seen: seq<T>, items: seq<T>)
    requires FirstOccurrences(l, seen)
    ensures FirstOccurrences(AppendNew(l, items), seen + items)
    decreases |items|
  {
    if |items| == 0 {
      assert seen + items == seen;
    } else {
      var x := items[0];
      var rest := items[1..];
      var l' := if x in l then l else l + [x];
      var seen' := seen + [x];
      assert seen' + rest == seen + items;
      assert AppendNew(l, items) == AppendNew(l', rest);
      StepFirstOccurrences(l, seen, x);
      AppendNewFirstOccurrences(l', seen', rest);
    }
  }

  /**
   * The merged list holds every contributed item exactly once, ordered by
   * first occurrence when the classes are visited from base to owner.
   */
  lemma {:induction false} MergeIsFirstOccurrences<T>(mro: seq<ClassAttrs<T>>, key: string)
    ensures FirstOccurrences(Merge(mro, key), Flat(mro, key))
    decreases |mro|
  {
    if |mro| > 0 {
      MergeIsFirstOccurrences(mro[1..], key);
      AppendNewFirstOccurrences(Merge(mro[1..], key), Flat(mro[1..], key), Contribution(mro[0], key));
    }
  }

  /** The items contributed along the MRO are exactly those of the classes that have the attribute. */
  lemma {:induction false} FlatMembers<T>(mro: seq<ClassAttrs<T>>, key: string, x: T)
    ensures x in Flat(mro, key) <==> exists i :: 0 <= i < |mro| && key in mro[i] && x in mro[i][key]
    decreases |mro|
  {
    if |mro| > 0 {
      FlatMembers(mro[1..], key, x);
      if x in Flat(mro[1..], key) {
        var i :| 0 <= i < |mro[1..]| && key in mro[1..][i] && x in mro[1..][i][key];
        assert mro[i + 1] == mro[1..][i];
      }
      if exists i :: 0 <= i < |mro| && key in mro[i] && x in mro[i][key] {
        var i :| 0 <= i < |mro| && key in mro[i] && x in mro[i][key];
        if i > 0 {
          assert mro[1..][i - 1] == mro[i];
        }
      }
    }
  }

  /** What `__get__` promises: no duplicates, and every item of every class's list is present. */
  lemma MergeContents<T>(mro: seq<ClassAttrs<T>>, key: string)
    ensures NoDuplicates(Merge(mro, key))
    ensures forall i, x :: 0 <= i < |mro| && key in mro[i] && x in mro[i][key] ==> x in Merge(mro, key)
    ensures forall x :: x in Merge(mro, key) ==> exists i :: 0 <= i < |mro| && key in mro[i] && x in mro[i][key]
  {
    var r, flat := Merge(mro, key), Flat(mro, key);
    MergeIsFirstOccurrences(mro, key);
    forall i, x | 0 <= i < |mro| && key in mro[i] && x in mro[i][key] ensures x in r {
      FlatMembers(mro, key, x);
      var j :| 0 <= j < |flat| && flat[j] == x;
      assert flat[j] in r;
    }
    forall x | x in r ensures exists i :: 0 <= i < |mro| && key in mro[i] && x in mro[i][key] {
      var j :| 0 <= j < |r| && r[j] == x;
      assert r[j] in flat;
      FlatMembers(mro, key, x);
    }
  }

  /** When no class has the private attribute, the result is empty. */
  lemma {:induction false} MergeAbsent<T>(mro: seq<ClassAttrs<T>>, key: string)
    requires forall i :: 0 <= i < |mro| ==> key !in mro[i]
    ensures Merge(mro, key) == []
    decreases |mro|
  {
    if |mro| > 0 {
      MergeAbsent(mro[1..], key);
    }
  }

  lemma {:induction false} AppendNewMembers<T>(l: seq<T>, items: seq<T>)
    ensures forall x :: x in AppendNew(l, items) <==> x in l || x in items
    decreases |items|
  {
    if |items| > 0 {
      AppendNewMembers(if items[0] in l then l else l + [items[0]], items[1..]);
      assert items == [items[0]] + items[1..];
    }
  }

  lemma {:induction false} AppendNewPresent<T>(l: seq<T>, items: seq<T>)
    requires forall x :: x in items ==> x in l
    ensures AppendNew(l, items) == l
    decreases |items|
  {
    if |items| > 0 {
      assert items[0] in l;
      AppendNewPresent(l, items[1..]);
    }
  }

  /**
   * The attributes visible on each class of a single-inheritance chain, given
   * the attributes each class defines itself (owner first): a class sees its
   * own lists and, for the names it does not define, those of its nearest ancestor.
   */
  function View<T>(own: seq<ClassAttrs<T>>): (visible: seq<ClassAttrs<T>>)
    ensures |visible| == |own|
    ensures forall i, k :: 0 <= i < |own| && k in own[i] ==> k in visible[i] && visible[i][k] == own[i][k]
    ensures forall i, k :: 0 <= i < |own| - 1 && k !in own[i] ==>
              (k in visible[i] <==> k in visible[i + 1]) && (k in visible[i] ==> visible[i][k] == visible[i + 1][k])
    ensures |own| > 0 ==> visible[|own| - 1] == own[|own| - 1]
    decreases |own|
  {
    if |own| == 0 then []
    else
      var rest := View(own[1..]);
      [(if |own| == 1 then map[] else rest[0]) + own[0]] + rest
  }

  /**
   * A class that only inherits the private list re-reads its nearest
   * ancestor's list, which is already merged: the inherited lookups add
   * nothing to what the classes' own lists give.
   */
  lemma {:induction false} InheritedAddsNothing<T>(own: seq<ClassAttrs<T>>, key: string)
    ensures Merge(View(own), key) == Merge(own, key)
    decreases |own|
  {
    if |own| > 0 {
      var rest := own[1..];
      var view := View(own);
      assert view[1..] == View(rest);
      InheritedAddsNothing(rest, key);
      if key !in own[0] {
        assert Merge(own, key) == Merge(rest, key);
        if |own| > 1 {
          var v := View(rest);
          assert Contribution(view[0], key) == Contribution(v[0], key);
          AppendNewMembers(Merge(v[1..], key), Contribution(v[0], key));
          AppendNewPresent(Merge(v, key), Contribution(v[0], key));
        } else {
          assert Contribution(view[0], key) == [];
        }
      }
    }
  }

  class ExtendedAttribute<T(==)> {
    var privateName: string

    /** A descriptor created in a class body under `name`, which Python then names through `__set_name__`. */
    constructor (name: string)
      ensures privateName == PrivateName(name)
    {
      privateName := PrivateName(name);
    }

    /** `__get__`: a fresh list, built by visiting the MRO from its end back to the owner. */
    method Get(mro: seq<ClassAttrs<T>>) returns (l: seq<T>)
      ensures l == Merge(mro, privateName)
    {
      l := [];
      var j := |mro|;
      while j > 0
        invariant 0 <= j <= |mro|
        invariant l == Merge(mro[j..], privateName)
      {
        j := j - 1;
        assert mro[j..][1..] == mro[j + 1..];
        if privateName in mro[j] {
          var items := mro[j][privateName];
          ghost var l0 := l;
          for k := 0 to |items|
            invariant AppendNew(l, items[k..]) == AppendNew(l0, items)
          {
            assert items[k..][1..] == items[k + 1..];
            if items[k] !in l {
              l := l + [items[k]];
            }
          }
        }
      }
    }
  }

  /** Items that are new and distinct are all appended, in order. */
  lemma {:induction false} AppendNewFresh<T>(l: seq<T>, items: seq<T>)
    requires NoDuplicates(items)
    requires forall i :: 0 <= i < |items| ==> items[i] !in l
    ensures AppendNew(l, items) == l + items
    decreases |items|
  {
    if |items| > 0 {
      var l' := l + [items[0]];
      var rest := items[1..];
      forall i | 0 <= i < |rest| ensures rest[i] !in l' {
        assert rest[i] == items[i + 1];
      }
      AppendNewFresh(l', rest);
      assert l' + rest == l + items;
    }
  }

  /** A chain of one class with its own list below `object`, and of two such classes. */
  lemma MergeOfChains<T>(k: string, base: seq<T>, derived: seq<T>)
    ensures Merge([map[k := base], map[]], k) == AppendNew([], base)
    ensures Merge([map[k := derived], map[k := base], map[]], k) == AppendNew(AppendNew([], base), derived)
  {
    var chain: seq<ClassAttrs<T>> := [map[k := base], map[]];
    assert chain[1..] == [map[]];
    assert Merge(chain[1..], k) == [];
    var longer: seq<ClassAttrs<T>> := [map[k := derived], map[k := base], map[]];
    assert longer[1..] == chain;
  }

  lemma ParentListAppended()
    ensures AppendNew([], [0, 1, 2]) == [0, 1, 2]
  {
    AppendNewFresh([], [0, 1, 2]);
  }

  lemma ChildListAppended()
    ensures AppendNew([0, 1, 2], [3, 4, 5]) == [0, 1, 2, 3, 4, 5]
  {
    AppendNewFresh([0, 1, 2], [3, 4, 5]);
  }

  /** The example of the docstring: Parent gives [0, 1, 2] and Child gives [0, 1, 2, 3, 4, 5]. */
  lemma DocExample()
    ensures Merge(View([map["_my_attribute" := [0, 1, 2]], map[]]), "_my_attribute") == [0, 1, 2]
    ensures Merge(View([map["_my_attribute" := [3, 4, 5]], map["_my_attribute" := [0, 1, 2]], map[]]), "_my_attribute")
            == [0, 1, 2, 3, 4, 5]
  {
    var k := "_my_attribute";
    InheritedAddsNothing([map[k := [0, 1, 2]], map[]], k);
    InheritedAddsNothing([map[k := [3, 4, 5]], map[k := [0, 1, 2]], map[]], k);
    MergeOfChains(k, [0, 1, 2], [3, 4, 5]);
    ParentListAppended();
    ChildListAppended();
  }
}
