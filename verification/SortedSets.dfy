/** Sorted enumeration of finite sets, as Python's `sorted` gives it. */
module SortedSets {

  predicate Ordered<T(!new)>(xs: seq<T>, le: (T, T) -> bool) {
    forall i, j | 0 <= i < j < |xs| :: le(xs[i], xs[j])
  }

  ghost predicate TotalOrder<T(!new)>(le: (T, T) -> bool) {
    && (forall x, y :: le(x, y) || le(y, x))
    && (forall x, y :: le(x, y) && le(y, x) ==> x == y)
    && (forall x, y, z :: le(x, y) && le(y, z) ==> le(x, z))
  }

  ghost predicate IsMin<T(!new)>(m: T, s: set<T>, le: (T, T) -> bool) {
    m in s && forall x | x in s :: le(m, x)
  }

  lemma {:induction false} MinExists<T(!new)>(s: set<T>, le: (T, T) -> bool) returns (m: T)
    requires s != {} && TotalOrder(le)
    ensures IsMin(m, s, le)
    decreases |s|
  {
    var x :| x in s;
    if s == {x} {
      m := x;
    } else {
      var rest := s - {x};
      assert s == rest + {x};
      var y := MinExists(rest, le);
      m := if le(x, y) then x else y;
      forall z | z in s ensures le(m, z) { if z != x { assert z in rest && le(y, z); } }
    }
  }

  /** The elements of a set in increasing order. */
  ghost function Sorted<T(!new)>(s: set<T>, le: (T, T) -> bool): seq<T>
    decreases |s|
  {
    if m :| IsMin(m, s, le) then [m] + Sorted(s - {m}, le) else []
  }

  lemma {:induction false} SortedIs<T(!new)>(s: set<T>, le: (T, T) -> bool)
    requires TotalOrder(le)
    ensures (set x | x in Sorted(s, le)) == s && Ordered(Sorted(s, le), le) && |Sorted(s, le)| == |s|
    decreases |s|
  {
    if s != {} {
      var w := MinExists(s, le);
      var m := Sorted(s, le)[0];
      assert IsMin(m, s, le);
      SortedIs(s - {m}, le);
      var rest := Sorted(s - {m}, le);
      assert Sorted(s, le) == [m] + rest;
      assert forall x | x in rest :: x in s - {m};
      assert (set x | x in [m] + rest) == {m} + (set x | x in rest);
    }
  }

  predicate NatLe(a: nat, b: nat) { a <= b }

  lemma NatLeTotal()
    ensures TotalOrder(NatLe)
  {
  }

  /** Lexicographic order on code points. */
  predicate TextLe(a: string, b: string)
    decreases |a|
  {
    a == [] || (b != [] && (a[0] < b[0] || (a[0] == b[0] && TextLe(a[1..], b[1..]))))
  }

  lemma {:induction false} TextTotal(a: string, b: string)
    ensures TextLe(a, b) || TextLe(b, a)
    decreases |a|
  {
    if a != [] && b != [] { TextTotal(a[1..], b[1..]); }
  }

  lemma {:induction false} TextAntisymmetric(a: string, b: string)
    requires TextLe(a, b) && TextLe(b, a)
    ensures a == b
    decreases |a|
  {
    if a != [] && b != [] {
      TextAntisymmetric(a[1..], b[1..]);
      assert a == [a[0]] + a[1..] && b == [b[0]] + b[1..];
    }
  }

  lemma {:induction false} TextTransitive(a: string, b: string, c: string)
    requires TextLe(a, b) && TextLe(b, c)
    ensures TextLe(a, c)
    decreases |a|
  {
    if a != [] && a[0] == c[0] { TextTransitive(a[1..], b[1..], c[1..]); }
  }

  lemma TextLeTotal()
    ensures TotalOrder(TextLe)
  {
    forall x, y ensures TextLe(x, y) || TextLe(y, x) { TextTotal(x, y); }
    forall x, y | TextLe(x, y) && TextLe(y, x) ensures x == y { TextAntisymmetric(x, y); }
    forall x, y, z | TextLe(x, y) && TextLe(y, z) ensures TextLe(x, z) { TextTransitive(x, y, z); }
  }
}
