/** Vocabulary shared by every other module: names, optional values, and finite sets listed in order. */
module Basics {

  /** Identifiers. Only their equality and their total order matter to the program. */
  type Name = nat

  datatype Option<+T> = None | Some(value: T)

  /** `Err` stands for a raised `ContractError`. */
  datatype Result<+T> = Ok(value: T) | Err

  predicate Distinct<T(==)>(s: seq<T>) {
    forall i, j :: 0 <= i < j < |s| ==> s[i] != s[j]
  }

  function ToSet<T>(s: seq<T>): set<T> {
    set x | x in s
  }

  lemma ToSetSnoc<T>(s: seq<T>, x: T)
    ensures ToSet(s + [x]) == ToSet(s) + {x}
  {
  }

  lemma TakeSnoc<T>(s: seq<T>, k: nat)
    requires k < |s|
    ensures s[..k + 1] == s[..k] + [s[k]]
    ensures ToSet(s[..k + 1]) == ToSet(s[..k]) + {s[k]}
  {
    assert s[..k + 1] == s[..k] + [s[k]];
  }

  lemma {:induction false} ToSetBound<T>(s: seq<T>)
    ensures |ToSet(s)| <= |s|
  {
    if s != [] {
      ToSetBound(s[..|s| - 1]);
      assert s == s[..|s| - 1] + [s[|s| - 1]];
      ToSetSnoc(s[..|s| - 1], s[|s| - 1]);
    }
  }

  /** A list with as many distinct entries as entries has no repetition. */
  lemma {:induction false} FullSizeIsDistinct<T>(s: seq<T>)
    requires |ToSet(s)| == |s|
    ensures Distinct(s)
  {
    if s != [] {
      var front, last := s[..|s| - 1], s[|s| - 1];
      assert s == front + [last];
      ToSetSnoc(front, last);
      ToSetBound(front);
      assert last !in front;
      FullSizeIsDistinct(front);
    }
  }

  lemma {:induction false} DistinctSize<T>(s: seq<T>)
    requires Distinct(s)
    ensures |ToSet(s)| == |s|
  {
    if s != [] {
      var front, last := s[..|s| - 1], s[|s| - 1];
      assert s == front + [last];
      ToSetSnoc(front, last);
      DistinctSize(front);
    }
  }

  lemma SubsetSize<T>(a: set<T>, b: set<T>)
    requires a <= b
    ensures |a| <= |b|
  {
    assert b == a + (b - a);
  }

  predicate IsLeast(s: set<Name>, m: Name) {
    m in s && forall y :: y in s ==> m <= y
  }

  /** Finitely many natural numbers have a least element. */
  lemma {:induction false} LeastExists(s: set<Name>)
    requires s != {}
    ensures exists m :: IsLeast(s, m)
  {
    var x :| x in s;
    var rest := s - {x};
    assert s == rest + {x};
    if rest == {} {
      assert IsLeast(s, x);
    } else {
      LeastExists(rest);
      var m :| IsLeast(rest, m);
      assert IsLeast(s, if x < m then x else m);
    }
  }

  function Least(s: set<Name>): (m: Name)
    requires s != {}
    ensures IsLeast(s, m)
  {
    LeastExists(s);
    var m :| IsLeast(s, m);
    m
  }

  predicate Increasing(s: seq<Name>) {
    forall i, j :: 0 <= i < j < |s| ==> s[i] < s[j]
  }

  /** The elements of a set in increasing order. */
  function Sorted(s: set<Name>): seq<Name> {
    if s == {} then [] else
      var m := Least(s);
      [m] + Sorted(s - {m})
  }

  lemma {:induction false} SortedSpec(s: set<Name>)
    ensures Increasing(Sorted(s)) && |Sorted(s)| == |s|
    ensures forall x :: x in Sorted(s) <==> x in s
    ensures ToSet(Sorted(s)) == s
  {
    if s != {} {
      var m := Least(s);
      var rest := Sorted(s - {m});
      SortedSpec(s - {m});
      forall j | 0 <= j < |rest| ensures m < rest[j] {
        assert rest[j] in rest;
      }
      PrependIncreasing(m, rest);
    }
  }

  lemma PrependIncreasing(m: Name, rest: seq<Name>)
    requires Increasing(rest) && forall j :: 0 <= j < |rest| ==> m < rest[j]
    ensures Increasing([m] + rest)
  {
  }

  /** The members of `s` that are `wanted` (or are not), in order. */
  function Select(s: seq<Name>, wanted: set<Name>, keep: bool): (r: seq<Name>)
    ensures forall n :: n in r <==> n in s && ((n in wanted) == keep)
    ensures Distinct(s) ==> Distinct(r)
    ensures |r| <= |s|
  {
    if s == [] then [] else
      var rest := Select(s[1..], wanted, keep);
      assert Distinct(s) ==> s[0] !in s[1..];
      if (s[0] in wanted) == keep then [s[0]] + rest else rest
  }

  ghost predicate Ascending<T(!new)>(less: (T, T) -> bool, s: seq<T>) {
    forall i, j :: 0 <= i < j < |s| ==> less(s[i], s[j])
  }

  lemma HasMember<T>(s: seq<T>)
    ensures s != [] ==> exists x :: x in s
  {
    if s != [] {
      assert s[0] in s;
    }
  }

  /** An ascending list is determined by its elements. */
  lemma {:induction false} AscendingUnique<T(!new)>(less: (T, T) -> bool, a: seq<T>, b: seq<T>)
    requires forall x, y :: less(x, y) ==> !less(y, x)
    requires Ascending(less, a) && Ascending(less, b)
    requires forall x :: x in a <==> x in b
    ensures a == b
  {
    HasMember(b);
    if a != [] {
      assert a[0] in b && b != [] && b[0] in a;
      var i :| 0 <= i < |a| && a[i] == b[0];
      var j :| 0 <= j < |b| && b[j] == a[0];
      assert i == 0 && j == 0 && a[0] == b[0];
      forall x ensures x in a[1..] <==> x in b[1..] {
        assert x in a[1..] ==> x in b && x != a[0];
        assert x in b[1..] ==> x in a && x != b[0];
      }
      AscendingUnique(less, a[1..], b[1..]);
    }
  }

  /** Nothing but white space. */
  predicate Blank(s: string) {
    forall c :: c in s ==> c in " \t\r\n"
  }
}
