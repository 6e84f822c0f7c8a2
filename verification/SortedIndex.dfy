/**
 Secondary indexes. The chain keeps, for each indexed table, the primary keys ordered by a
 secondary key, ties broken by the primary key.
 */
module SortedIndex {
  import opened Basics

  /** Index order of two rows of a table whose secondary keys are given. */
  predicate Before(keys: map<Name, real>, a: Name, b: Name)
    requires a in keys && b in keys
  {
    keys[a] < keys[b] || (keys[a] == keys[b] && a < b)
  }

  ghost predicate IsFirst(keys: map<Name, real>, a: Name) {
    a in keys && forall b :: b in keys && b != a ==> Before(keys, a, b)
  }

  lemma {:induction false} FirstExists(keys: map<Name, real>)
    requires keys != map[]
    ensures exists a :: IsFirst(keys, a)
    decreases |keys|
  {
    var a :| a in keys;
    var rest := keys - {a};
    if rest == map[] {
      assert forall b :: b in keys && b != a ==> b in rest;
      assert IsFirst(keys, a);
    } else {
      FirstExists(rest);
      var c :| IsFirst(rest, c);
      var d := if Before(keys, a, c) then a else c;
      forall b | b in keys && b != d
        ensures Before(keys, d, b)
      {
        assert b == a || b in rest;
      }
      assert IsFirst(keys, d);
    }
  }

  /** The row an iterator at the beginning of the index points to. */
  function First(keys: map<Name, real>): (a: Name)
    requires keys != map[]
    ensures a in keys
    ensures forall b :: b in keys && b != a ==> Before(keys, a, b)
  {
    FirstExists(keys);
    var a :| a in keys && forall b :: b in keys && b != a ==> Before(keys, a, b);
    a
  }

  /** A sequence of rows in index order. */
  ghost predicate InOrder(keys: map<Name, real>, w: seq<Name>) {
    && (forall i :: 0 <= i < |w| ==> w[i] in keys)
    && (forall i, j :: 0 <= i < j < |w| ==> Before(keys, w[i], w[j]))
  }

  /** The whole index, front to back. */
  function Walk(keys: map<Name, real>): seq<Name>
    decreases |keys|
  {
    if keys == map[] then [] else [First(keys)] + Walk(keys - {First(keys)})
  }

  /** Every row is met, and before every row that comes later in index order. */
  lemma {:induction false} WalkIsIndex(keys: map<Name, real>)
    ensures forall a :: a in Walk(keys) <==> a in keys
    ensures InOrder(keys, Walk(keys))
    decreases |keys|
  {
    if keys != map[] {
      WalkIsIndex(keys - {First(keys)});
      Prepended(keys, First(keys), Walk(keys - {First(keys)}));
    }
  }

  lemma Prepended(keys: map<Name, real>, a: Name, rest: seq<Name>)
    requires IsFirst(keys, a)
    requires forall b :: b in rest <==> b in keys - {a}
    requires InOrder(keys - {a}, rest)
    ensures forall b :: b in [a] + rest <==> b in keys
    ensures InOrder(keys, [a] + rest)
  {
    var w := [a] + rest;
    forall i | 0 <= i < |w|
      ensures w[i] in keys && (i > 0 ==> w[i] == rest[i - 1] && w[i] != a)
    {
      if i > 0 {
        assert rest[i - 1] in rest;
      }
    }
    forall i, j | 0 <= i < j < |w|
      ensures Before(keys, w[i], w[j])
    {
      if i > 0 {
        assert Before(keys - {a}, rest[i - 1], rest[j - 1]);
      }
    }
  }

  lemma SomeName(names: seq<Name>)
    ensures names == [] || exists a :: a in names
  {
    if names != [] {
      assert names[0] in names;
    }
  }

  /** Rows by name: an index whose secondary keys are all equal. */
  function ByName(names: set<Name>): (w: seq<Name>)
    ensures forall a :: a in names <==> a in w
    ensures forall i, j :: 0 <= i < j < |w| ==> w[i] < w[j]
  {
    var keys := map a | a in names :: 0.0;
    WalkIsIndex(keys);
    assert forall i, j :: 0 <= i < j < |Walk(keys)| ==> Before(keys, Walk(keys)[i], Walk(keys)[j]);
    Walk(keys)
  }
}
