// The shallow comparisons of order.utils.ts and the car comparison that the
// two order patches build on them.
module Records {
  import opened Prelude

  // A property value under ===: numbers, strings and booleans by content,
  // objects and dates by identity, and NaN equal to nothing.
  datatype Value = Undefined | Nil | NotANumber | Num(n: int) | Str(s: string) | Bool(b: bool) | Ref(id: int)

  type Props = map<string, Value>

  predicate StrictEq(a: Value, b: Value) {
    a == b && !a.NotANumber?
  }

  // Reading a property that is not there gives undefined.
  function Read(props: Props, name: string): Value {
    if name in props then props[name] else Undefined
  }

  class JsObject {
    var props: Props

    constructor (props: Props)
      ensures this.props == props
    {
      this.props := props;
    }
  }

  const STAMPS := {"createdAt", "updatedAt"}

  function Strip(props: Props): Props {
    props - STAMPS
  }

  // What the loop of ObjectEqual decides about two distinct objects.
  predicate SameProps(a: Props, b: Props) {
    && |Strip(a).Keys| == |Strip(b).Keys|
    && forall name :: name in Strip(a) ==> StrictEq(Strip(a)[name], Read(Strip(b), name))
  }

  // Both arguments lose their time stamps, but only when they are two objects.
  method ObjectEqual(a: JsObject?, b: JsObject?) returns (equal: bool)
    modifies if a == null || b == null then {} else {a, b}
    ensures a == null || b == null ==> !equal
    ensures a != null && a == b ==> equal && a.props == old(a.props)
    ensures a != null && b != null && a != b ==>
      && equal == SameProps(old(a.props), old(b.props))
      && a.props == Strip(old(a.props)) && b.props == Strip(old(b.props))
  {
    if a == null || b == null {
      return false;
    }
    if a == b {
      return true;
    }
    a.props := a.props - {"createdAt"};
    a.props := a.props - {"updatedAt"};
    b.props := b.props - {"createdAt"};
    b.props := b.props - {"updatedAt"};
    assert a.props == Strip(old(a.props)) && b.props == Strip(old(b.props));
    equal := SameNames(a.props, b.props);
  }

  // The loop over the own property names, in whatever order they are listed.
  method SameNames(a: Props, b: Props) returns (equal: bool)
    ensures equal <==> |a.Keys| == |b.Keys| && forall name :: name in a ==> StrictEq(a[name], Read(b, name))
  {
    var names := a.Keys;
    if |names| != |b.Keys| {
      return false;
    }
    while names != {}
      invariant names <= a.Keys
      invariant forall name :: name in a && name !in names ==> StrictEq(a[name], Read(b, name))
      decreases |names|
    {
      var name :| name in names;
      if !StrictEq(a[name], Read(b, name)) {
        return false;
      }
      names := names - {name};
    }
    return true;
  }

  // ------------------------------------------------------------------------
  // What the comparison means.

  predicate Defined(props: Props) {
    forall name :: name in props ==> !props[name].Undefined?
  }

  predicate HasNaN(props: Props) {
    exists name :: name in props && props[name].NotANumber?
  }

  // Without undefined values in the first record it is equality of the stripped
  // maps, except that a record holding a NaN equals nothing.
  lemma SamePropsIsEquality(a: Props, b: Props)
    requires Defined(Strip(a))
    ensures SameProps(a, b) <==> Strip(a) == Strip(b) && !HasNaN(Strip(a))
  {
    var x, y := Strip(a), Strip(b);
    if SameProps(a, b) {
      forall name | name in x
        ensures name in y
      {
        assert StrictEq(x[name], Read(y, name));
      }
      SubsetOfSameSize(x.Keys, y.Keys);
      assert x == y;
    }
  }

  // So on records without undefined and NaN it is an equivalence.
  lemma SamePropsIsEquivalence(a: Props, b: Props, c: Props)
    requires Defined(Strip(a)) && Defined(Strip(b)) && Defined(Strip(c))
    requires !HasNaN(Strip(a)) && !HasNaN(Strip(b)) && !HasNaN(Strip(c))
    ensures SameProps(a, a)
    ensures SameProps(a, b) <==> SameProps(b, a)
    ensures SameProps(a, b) && SameProps(b, c) ==> SameProps(a, c)
  {
    SamePropsIsEquality(a, a);
    SamePropsIsEquality(a, b);
    SamePropsIsEquality(b, a);
    SamePropsIsEquality(b, c);
    SamePropsIsEquality(a, c);
  }

  // An undefined value is taken for an absent one: moving it to a name that the
  // record does not have goes unnoticed.
  lemma UndefinedIsTakenForAbsent(a: Props, name: string, other: string)
    requires name in Strip(a) && a[name].Undefined? && !HasNaN(Strip(a))
    requires other !in Strip(a) && other !in STAMPS
    ensures SameProps(a, (Strip(a) - {name})[other := Undefined])
    ensures Strip((Strip(a) - {name})[other := Undefined]) != Strip(a)
  {
    var x, b := Strip(a), (Strip(a) - {name})[other := Undefined];
    assert other in Strip(b) && Strip(b) == b;
    assert b.Keys == x.Keys - {name} + {other};
    forall k | k in x
      ensures StrictEq(x[k], Read(b, k))
    {
      assert !x[k].NotANumber?;
    }
  }

  // So a record is compared as a map with every other one exactly when it holds
  // no undefined value, or holds a NaN and equals nothing anyway.
  lemma ComparesAsMapExactlyWhen(a: Props)
    ensures (forall b :: SameProps(a, b) <==> Strip(a) == Strip(b) && !HasNaN(Strip(a)))
      <==> Defined(Strip(a)) || HasNaN(Strip(a))
  {
    if Defined(Strip(a)) {
      forall b
        ensures SameProps(a, b) <==> Strip(a) == Strip(b) && !HasNaN(Strip(a))
      {
        SamePropsIsEquality(a, b);
      }
    } else if !HasNaN(Strip(a)) {
      var name :| name in Strip(a) && Strip(a)[name].Undefined?;
      var other := UnusedName(Strip(a).Keys + STAMPS);
      UndefinedIsTakenForAbsent(a, name, other);
    }
  }

  lemma UnusedName(names: set<string>) returns (name: string)
    ensures name !in names
  {
    var n := LongerThanAll(names);
    name := seq(n, _ => 'x');
  }

  lemma {:induction false} LongerThanAll(names: set<string>) returns (n: nat)
    ensures forall name :: name in names ==> |name| < n
  {
    n := 0;
    if names != {} {
      var one := Member(names);
      n := LongerThanAll(names - {one});
      n := if |one| < n then n else |one| + 1;
    }
  }

  // ------------------------------------------------------------------------
  // A record against its own patched copy.

  // The patch agrees with the record on every key but the ignored ones.
  predicate Agrees(base: Props, patch: Props, ignored: set<string>) {
    forall name :: name in patch && name !in ignored ==> name in base && StrictEq(base[name], patch[name])
  }

  lemma MergeIsNoChange(base: Props, patch: Props)
    requires !HasNaN(base)
    ensures base + patch == base <==> Agrees(base, patch, {})
  {
    if base + patch == base {
      forall name | name in patch
        ensures name in base && StrictEq(base[name], patch[name])
      {
        assert name in base + patch && (base + patch)[name] == patch[name];
      }
    }
  }

  lemma DropFromMerge(base: Props, patch: Props, dropped: set<string>)
    ensures (base + patch) - dropped == (base - dropped) + (patch - dropped)
    ensures Agrees(base - dropped, patch - dropped, {}) <==> Agrees(base, patch, dropped)
  {
    if Agrees(base - dropped, patch - dropped, {}) {
      forall name | name in patch && name !in dropped
        ensures name in base && StrictEq(base[name], patch[name])
      {
        assert name in patch - dropped;
      }
    }
  }

  lemma DropTwice(props: Props, ignored: set<string>)
    ensures Strip(props - ignored) == props - (ignored + STAMPS)
  {
  }

  // Comparing {...old, ...patch} with old, leaving out some keys on both sides.
  lemma PatchedCopy(base: Props, patch: Props, ignored: set<string>)
    requires Defined((base + patch) - (ignored + STAMPS))
    ensures SameProps((base + patch) - ignored, base - ignored)
      <==> Agrees(base, patch, ignored + STAMPS) && !HasNaN(base - (ignored + STAMPS))
  {
    var dropped := ignored + STAMPS;
    DropTwice(base + patch, ignored);
    DropTwice(base, ignored);
    DropFromMerge(base, patch, dropped);
    SamePropsIsEquality((base + patch) - ignored, base - ignored);
    if !HasNaN(base - dropped) {
      MergeIsNoChange(base - dropped, patch - dropped);
    }
  }

  // ------------------------------------------------------------------------
  // carsUpdated of patchInternal and patchExternal.

  ghost predicate CarUnchanged(car: Props, patch: Props) {
    SameProps((car + patch) - {"pricePerMile"}, car - {"pricePerMile"})
  }

  // Two fresh copies are compared, so the rows themselves are not stripped.
  method CompareCar(car: Props, patch: Props) returns (equal: bool)
    ensures equal <==> CarUnchanged(car, patch)
  {
    var a := new JsObject(car + patch);
    var b := new JsObject(car);
    a.props := a.props - {"pricePerMile"};
    b.props := b.props - {"pricePerMile"};
    equal := ObjectEqual(a, b);
  }

  // The patches from position i on change nothing.
  ghost predicate Unchanged(cars: seq<Props>, patches: seq<Props>, i: nat)
    requires i <= |cars| == |patches|
    decreases |cars| - i
  {
    i == |cars| || (CarUnchanged(cars[i], patches[i]) && Unchanged(cars, patches, i + 1))
  }

  method CarsUpdated(cars: seq<Props>, patches: seq<Props>) returns (updated: bool)
    ensures !updated <==> |patches| == |cars| && Unchanged(cars, patches, 0)
  {
    updated := false;
    if |patches| != |cars| {
      updated := true;
    }
    if !updated {
      for i := 0 to |patches|
        invariant Unchanged(cars, patches, 0) == Unchanged(cars, patches, i)
        invariant !updated
      {
        var equal := CompareCar(cars[i], patches[i]);
        if !equal {
          updated := true;
          break;
        }
      }
    }
  }

  const CAR_IGNORED := {"pricePerMile", "createdAt", "updatedAt"}

  // The compared columns of the patched car are all defined.
  predicate Comparable(car: Props, patch: Props) {
    Defined((car + patch) - CAR_IGNORED)
  }

  // The patch leaves every compared column of the car as it is.
  predicate Untouched(car: Props, patch: Props) {
    Agrees(car, patch, CAR_IGNORED) && !HasNaN(car - CAR_IGNORED)
  }

  lemma CarUnchangedMeans(car: Props, patch: Props)
    requires Comparable(car, patch)
    ensures CarUnchanged(car, patch) <==> Untouched(car, patch)
  {
    assert {"pricePerMile"} + STAMPS == CAR_IGNORED;
    PatchedCopy(car, patch, {"pricePerMile"});
  }

  predicate AllComparable(cars: seq<Props>, patches: seq<Props>, i: nat)
    requires i <= |cars| == |patches|
    decreases |cars| - i
  {
    i == |cars| || (Comparable(cars[i], patches[i]) && AllComparable(cars, patches, i + 1))
  }

  predicate AllUntouched(cars: seq<Props>, patches: seq<Props>, i: nat)
    requires i <= |cars| == |patches|
    decreases |cars| - i
  {
    i == |cars| || (Untouched(cars[i], patches[i]) && AllUntouched(cars, patches, i + 1))
  }

  // The cars count as unchanged exactly when there are as many patches as cars
  // (which carsUpdated checks first) and each patch agrees with the car at its
  // own position, price per mile and time stamps aside. Only a NaN in a compared
  // column, which equals nothing, makes an unpatched car count as changed.
  lemma {:induction false} CarsUnchanged(cars: seq<Props>, patches: seq<Props>, i: nat)
    requires i <= |cars| == |patches| && AllComparable(cars, patches, i)
    ensures Unchanged(cars, patches, i) <==> AllUntouched(cars, patches, i)
    decreases |cars| - i
  {
    if i < |cars| {
      CarsUnchanged(cars, patches, i + 1);
      CarUnchangedMeans(cars[i], patches[i]);
    }
  }

  // ------------------------------------------------------------------------
  // PropsChanged

  method PropsChanged(names: seq<string>, a: JsObject, b: JsObject) returns (changed: bool)
    ensures changed
      <==> a != b && exists i :: 0 <= i < |names| && !StrictEq(Read(a.props, names[i]), Read(b.props, names[i]))
  {
    if a == b {
      return false;
    }
    for i := 0 to |names|
      invariant forall j :: 0 <= j < i ==> StrictEq(Read(a.props, names[j]), Read(b.props, names[j]))
    {
      if !StrictEq(Read(a.props, names[i]), Read(b.props, names[i])) {
        return true;
      }
    }
    return false;
  }
}
