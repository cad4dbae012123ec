// Small vocabulary shared by every module of the model.
module Prelude {
  datatype Option<+T> = None | Some(value: T)

  // A price as JavaScript and PostgreSQL see it: a numeric value, or the
  // not-a-number that `parseFloat(null)` and the numeric column both allow.
  datatype Money = NaN | Amount(value: real)

  const ZERO := Amount(0.0)

  // Addition with the absorbing not-a-number.
  function Add(a: Money, b: Money): Money {
    if a.NaN? || b.NaN? then NaN else Amount(a.value + b.value)
  }

  lemma AddLaws(a: Money, b: Money, c: Money)
    ensures Add(a, b) == Add(b, a)
    ensures Add(Add(a, b), c) == Add(a, Add(b, c))
    ensures Add(a, ZERO) == a
    ensures a.Amount? && b.Amount? ==> Add(a, b) == Amount(a.value + b.value)
  {
  }

  predicate NoDuplicates<T(==)>(s: seq<T>) {
    forall i, j :: 0 <= i < j < |s| ==> s[i] != s[j]
  }

  lemma AppendFresh<T>(s: seq<T>, x: T)
    requires NoDuplicates(s) && x !in s
    ensures NoDuplicates(s + [x])
  {
    forall i, j | 0 <= i < j < |s| + 1
      ensures (s + [x])[i] != (s + [x])[j]
    {
      assert (s + [x])[i] in s;
    }
  }

  function Elements<T>(s: seq<T>): set<T> {
    set x | x in s
  }

  // Two finite sets of equal size, one inside the other, are the same set.
  lemma {:induction false} SubsetOfSameSize<T>(a: set<T>, b: set<T>)
    requires a <= b && |a| == |b|
    ensures a == b
  {
    if a != b {
      var x :| x in b && x !in a;
      SubsetSize(a, b - {x});
    }
  }

  lemma {:induction false} SubsetSize<T>(a: set<T>, b: set<T>)
    requires a <= b
    ensures |a| <= |b|
  {
    if x :| x in a {
      SubsetSize(a - {x}, b - {x});
    }
  }

  method AnyOf<T>(s: set<T>) returns (x: T)
    requires s != {}
    ensures x in s
  {
    x :| x in s;
  }

  lemma Member<T>(s: set<T>) returns (x: T)
    requires s != {}
    ensures x in s
  {
    x :| x in s;
  }
}
