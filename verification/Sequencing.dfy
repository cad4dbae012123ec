// optimizeRoute of here.service.ts: the request is cut into labelled stops, the
// routing service answers with labels in an order of its own, and the list of
// places is rebuilt from that answer.
module Sequencing {
  import opened Prelude
  import opened Routing

  // The id of a waypoint in the service's answer.
  datatype WaypointId = StartId | EndId | DestinationId(number: int)

  // A stop of the search list with the label it still carries.
  datatype Labelled = Labelled(place: Place, tag: Option<int>)

  function OriginOf(leg: Leg): Place {
    Place(leg.originPoint, leg.origin, leg.key)
  }

  function DestinationOf(leg: Leg): Place {
    Place(leg.destinationPoint, leg.destination, leg.key)
  }

  // ------------------------------------------------------------------------
  // Which locations leave the list before the search: every one flagged as a
  // start or an end, and the first one when none is flagged as a start.

  predicate IsEnd(leg: Leg) {
    leg.isEndPoint && !leg.isStartPoint
  }

  // The scan keeps the last location it sees with each flag; -1 is none.
  function StartIndex(legs: seq<Leg>): (s: int)
    ensures -1 <= s < |legs|
    ensures 0 <= s ==> legs[s].isStartPoint
    ensures forall i :: s < i < |legs| ==> !legs[i].isStartPoint
  {
    if legs == [] then -1
    else if legs[|legs| - 1].isStartPoint then |legs| - 1
    else StartIndex(legs[..|legs| - 1])
  }

  function EndIndex(legs: seq<Leg>): (e: int)
    ensures -1 <= e < |legs|
    ensures 0 <= e ==> IsEnd(legs[e])
    ensures forall i :: e < i < |legs| ==> !IsEnd(legs[i])
  {
    if legs == [] then -1
    else if IsEnd(legs[|legs| - 1]) then |legs| - 1
    else EndIndex(legs[..|legs| - 1])
  }

  // The location the route starts from. None is the case in which the service
  // reads a field of a hole: nothing to start from, or the first one is the end.
  function ChosenStart(legs: seq<Leg>): (s: Option<int>)
    ensures s.Some? ==> 0 <= s.value < |legs|
  {
    if 0 <= StartIndex(legs) then Some(StartIndex(legs))
    else if legs != [] && !legs[0].isEndPoint then Some(0)
    else None
  }

  function Removed(legs: seq<Leg>): set<int> {
    set i | 0 <= i < |legs| && (legs[i].isStartPoint || legs[i].isEndPoint || (StartIndex(legs) == -1 && i == 0))
  }

  function BothStops(leg: Leg): seq<Place> {
    [OriginOf(leg), DestinationOf(leg)]
  }

  // The two stops of each of the first n locations that stays.
  function KeptStops(legs: seq<Leg>, removed: set<int>, n: nat): seq<Place>
    requires n <= |legs|
  {
    if n == 0 then []
    else if n - 1 in removed then KeptStops(legs, removed, n - 1)
    else KeptStops(legs, removed, n - 1) + BothStops(legs[n - 1])
  }

  // What the start and the end put into the search, and what they put directly
  // into the route. A virtual start is not visited.
  function StartSearched(start: Leg): seq<Place> {
    if start.isVirtual then [] else [DestinationOf(start)]
  }

  function StartFixed(start: Leg): seq<Place> {
    if start.isVirtual then [] else [OriginOf(start)]
  }

  function EndSearched(legs: seq<Leg>): seq<Place> {
    if 0 <= EndIndex(legs) then [OriginOf(legs[EndIndex(legs)])] else []
  }

  function EndFixed(legs: seq<Leg>): seq<Place> {
    if 0 <= EndIndex(legs) then [DestinationOf(legs[EndIndex(legs)])] else []
  }

  function SearchList(legs: seq<Leg>): seq<Place>
    requires ChosenStart(legs).Some?
  {
    StartSearched(legs[ChosenStart(legs).value]) + KeptStops(legs, Removed(legs), |legs|) + EndSearched(legs)
  }

  function RouteOf(legs: seq<Leg>, answer: seq<WaypointId>): seq<Place>
    requires ChosenStart(legs).Some?
  {
    StartFixed(legs[ChosenStart(legs).value]) + Rebuilt(SearchList(legs), {}, answer) + EndFixed(legs)
  }

  // ------------------------------------------------------------------------
  // Rebuilding the list from an arbitrary answer.

  // The places of the search list in the order in which the answer first names
  // their labels; any other id in the answer is passed over.
  function Rebuilt(search: seq<Place>, named: set<int>, answer: seq<WaypointId>): seq<Place>
    decreases answer
  {
    if answer == [] then []
    else (match answer[0]
      case DestinationId(n) =>
        if 1 <= n <= |search| && n !in named
        then [search[n - 1]] + Rebuilt(search, named + {n}, answer[1..])
        else Rebuilt(search, named, answer[1..])
      case _ => Rebuilt(search, named, answer[1..]))
  }

  // The answer names every stop it was sent, in any order and among any other ids.
  ghost predicate NamesAll(size: nat, answer: seq<WaypointId>) {
    forall n :: 1 <= n <= size ==> DestinationId(n) in answer
  }

  // How often a place occurs in a list.
  function Times(places: seq<Place>, p: Place): nat {
    if places == [] then 0 else One(places[0], p) + Times(places[1..], p)
  }

  lemma {:induction false} TimesConcat(a: seq<Place>, b: seq<Place>, p: Place)
    ensures Times(a + b, p) == Times(a, p) + Times(b, p)
  {
    if a == [] {
      assert a + b == b;
    } else {
      TimesConcat(a[1..], b, p);
      assert (a + b)[1..] == a[1..] + b;
    }
  }

  function One(a: Place, p: Place): nat {
    if a == p then 1 else 0
  }

  // The places whose label has not been named.
  function Unnamed(search: seq<Place>, named: set<int>): seq<Place> {
    if search == [] then []
    else if |search| in named then Unnamed(search[..|search| - 1], named)
    else Unnamed(search[..|search| - 1], named) + [search[|search| - 1]]
  }

  lemma {:induction false} NameOne(search: seq<Place>, named: set<int>, n: int, p: Place)
    requires 1 <= n <= |search| && n !in named
    ensures |Unnamed(search, named)| == |Unnamed(search, named + {n})| + 1
    ensures Times(Unnamed(search, named), p) == Times(Unnamed(search, named + {n}), p) + One(search[n - 1], p)
  {
    var front := search[..|search| - 1];
    if n < |search| {
      NameOne(front, named, n, p);
      if |search| !in named {
        TimesConcat(Unnamed(front, named), [search[|search| - 1]], p);
        TimesConcat(Unnamed(front, named + {n}), [search[|search| - 1]], p);
      }
    } else {
      NameBeyond(front, named, n);
      TimesConcat(Unnamed(front, named), [search[|search| - 1]], p);
    }
  }

  lemma {:induction false} NameBeyond(search: seq<Place>, named: set<int>, n: int)
    requires |search| < n
    ensures Unnamed(search, named) == Unnamed(search, named + {n})
  {
    if search != [] {
      NameBeyond(search[..|search| - 1], named, n);
    }
  }

  lemma {:induction false} AllNamed(search: seq<Place>, named: set<int>)
    requires forall n :: 1 <= n <= |search| ==> n in named
    ensures Unnamed(search, named) == []
  {
    if search != [] {
      AllNamed(search[..|search| - 1], named);
    }
  }

  lemma {:induction false} NoneNamed(search: seq<Place>)
    ensures Unnamed(search, {}) == search
  {
    if search != [] {
      NoneNamed(search[..|search| - 1]);
    }
  }

  // The labels named after reading the answer.
  function NamedAfter(size: nat, named: set<int>, answer: seq<WaypointId>): set<int>
    decreases answer
  {
    if answer == [] then named
    else if answer[0].DestinationId? && 1 <= answer[0].number <= size
    then NamedAfter(size, named + {answer[0].number}, answer[1..])
    else NamedAfter(size, named, answer[1..])
  }

  lemma {:induction false} NamedIn(size: nat, named: set<int>, answer: seq<WaypointId>, n: int)
    requires 1 <= n <= size
    ensures n in NamedAfter(size, named, answer) <==> n in named || DestinationId(n) in answer
    decreases answer
  {
    if answer != [] {
      var names := answer[0].DestinationId? && 1 <= answer[0].number <= size;
      var named' := if names then named + {answer[0].number} else named;
      NamedIn(size, named', answer[1..], n);
      assert answer == [answer[0]] + answer[1..];
    }
  }

  // Whatever the service answers, rebuilding conserves the stops: those named
  // are in the list once each, and those not named are missing.
  lemma {:induction false} RebuildingConserves(search: seq<Place>, named: set<int>, answer: seq<WaypointId>, p: Place)
    ensures var rebuilt := Rebuilt(search, named, answer);
      var missing := Unnamed(search, NamedAfter(|search|, named, answer));
      && |rebuilt| + |missing| == |Unnamed(search, named)|
      && Times(rebuilt, p) + Times(missing, p) == Times(Unnamed(search, named), p)
    decreases answer
  {
    if answer != [] {
      var rest := answer[1..];
      if answer[0].DestinationId? && 1 <= answer[0].number <= |search| {
        var n := answer[0].number;
        RebuildingConserves(search, named + {n}, rest, p);
        if n in named {
          assert named + {n} == named;
        } else {
          NameOne(search, named, n, p);
        }
      } else {
        RebuildingConserves(search, named, rest, p);
      }
    }
  }

  // Nothing is missing exactly when the answer names every stop.
  lemma NothingMissingExactlyWhen(search: seq<Place>, answer: seq<WaypointId>)
    ensures Unnamed(search, NamedAfter(|search|, {}, answer)) == [] <==> NamesAll(|search|, answer)
  {
    var named := NamedAfter(|search|, {}, answer);
    if NamesAll(|search|, answer) {
      forall n | 1 <= n <= |search|
        ensures n in named
      {
        NamedIn(|search|, {}, answer, n);
      }
      AllNamed(search, named);
    } else {
      var n :| 1 <= n <= |search| && DestinationId(n) !in answer;
      NamedIn(|search|, {}, answer, n);
      NameOne(search, named, n, search[0]);
    }
  }

  // The rebuilt list holds the stops sent, each as often as it was sent, exactly
  // when the answer names them all; otherwise it is short of stops.
  lemma RebuiltIsPermutation(search: seq<Place>, answer: seq<WaypointId>, p: Place)
    ensures NamesAll(|search|, answer) ==> Times(Rebuilt(search, {}, answer), p) == Times(search, p)
    ensures |Rebuilt(search, {}, answer)| <= |search|
    ensures |Rebuilt(search, {}, answer)| == |search| <==> NamesAll(|search|, answer)
  {
    NoneNamed(search);
    RebuildingConserves(search, {}, answer, p);
    NothingMissingExactlyWhen(search, answer);
  }

  // ------------------------------------------------------------------------
  // Completeness of the whole call.

  // At most one location is flagged as the start and at most one as the end.
  predicate Unambiguous(legs: seq<Leg>) {
    && (forall i, j :: 0 <= i < j < |legs| ==> !(legs[i].isStartPoint && legs[j].isStartPoint))
    && (forall i, j :: 0 <= i < j < |legs| ==> !(IsEnd(legs[i]) && IsEnd(legs[j])))
  }

  // How often p is one of the two stops of location i, if it is among the first n.
  function TimesAt(legs: seq<Leg>, i: int, n: nat, p: Place): nat
    requires n <= |legs|
  {
    if 0 <= i < n then Times(BothStops(legs[i]), p) else 0
  }

  // How often p is a stop of the first n locations.
  function TimesAll(legs: seq<Leg>, n: nat, p: Place): nat
    requires n <= |legs|
  {
    if n == 0 then 0 else TimesAll(legs, n - 1, p) + Times(BothStops(legs[n - 1]), p)
  }

  // When nothing but s and e leaves, the rest is all stops but theirs.
  lemma {:induction false} TwoRemoved(legs: seq<Leg>, removed: set<int>, n: nat, s: int, e: int, p: Place)
    requires n <= |legs| && s != e
    requires forall i :: 0 <= i < n ==> (i in removed <==> i == s || i == e)
    ensures |KeptStops(legs, removed, n)| + Seen(s, n) + Seen(e, n) == 2 * n
    ensures Times(KeptStops(legs, removed, n), p) + TimesAt(legs, s, n, p) + TimesAt(legs, e, n, p)
      == TimesAll(legs, n, p)
  {
    if n > 0 {
      TwoRemoved(legs, removed, n - 1, s, e, p);
      TimesConcat(KeptStops(legs, removed, n - 1), BothStops(legs[n - 1]), p);
    }
  }

  function Seen(i: int, n: nat): nat {
    if 0 <= i < n then 2 else 0
  }

  lemma {:induction false} ThreeRemoved(legs: seq<Leg>, removed: set<int>, n: nat, s: int, e: int, x: int)
    requires n <= |legs| && s != e && s != x && e != x
    requires forall i :: 0 <= i < n && (i == s || i == e || i == x) ==> i in removed
    ensures |KeptStops(legs, removed, n)| + Seen(s, n) + Seen(e, n) + Seen(x, n) <= 2 * n
  {
    if n > 0 {
      ThreeRemoved(legs, removed, n - 1, s, e, x);
    }
  }

  // The number of stops of a virtual start, which no route visits.
  function Skipped(legs: seq<Leg>): nat
    requires ChosenStart(legs).Some?
  {
    if legs[ChosenStart(legs).value].isVirtual then 2 else 0
  }

  function TimesSkipped(legs: seq<Leg>, p: Place): nat
    requires ChosenStart(legs).Some?
  {
    if legs[ChosenStart(legs).value].isVirtual then Times(BothStops(legs[ChosenStart(legs).value]), p) else 0
  }

  // What start and end contribute to the search and to the route together.
  lemma FixedParts(legs: seq<Leg>, p: Place)
    requires ChosenStart(legs).Some?
    ensures var s, e, n := ChosenStart(legs).value, EndIndex(legs), |legs|;
      && Times(StartSearched(legs[s]), p) + Times(StartFixed(legs[s]), p) + TimesSkipped(legs, p)
        == TimesAt(legs, s, n, p)
      && Times(EndSearched(legs), p) + Times(EndFixed(legs), p) == TimesAt(legs, e, n, p)
  {
  }

  lemma Parts(a: seq<Place>, b: seq<Place>, c: seq<Place>, p: Place)
    ensures Times(a + b + c, p) == Times(a, p) + Times(b, p) + Times(c, p)
  {
    TimesConcat(a + b, c, p);
    TimesConcat(a, b, p);
  }

  // With at most one start and one end, and an answer that names every stop it
  // was sent, every place is visited as often as it is a stop, a virtual start's
  // own stops aside.
  lemma RouteVisitsEachStopOnce(legs: seq<Leg>, answer: seq<WaypointId>, p: Place)
    requires ChosenStart(legs).Some? && Unambiguous(legs) && NamesAll(|SearchList(legs)|, answer)
    ensures Times(RouteOf(legs, answer), p) + TimesSkipped(legs, p) == TimesAll(legs, |legs|, p)
  {
    var s, e, search := ChosenStart(legs).value, EndIndex(legs), SearchList(legs);
    RebuiltIsPermutation(search, answer, p);
    Parts(StartSearched(legs[s]), KeptStops(legs, Removed(legs), |legs|), EndSearched(legs), p);
    Parts(StartFixed(legs[s]), Rebuilt(search, {}, answer), EndFixed(legs), p);
    FixedParts(legs, p);
    TwoRemoved(legs, Removed(legs), |legs|, s, e, p);
  }

  // Search and fixed ends have all stops exactly when the flags are unambiguous.
  lemma SearchIsComplete(legs: seq<Leg>)
    requires ChosenStart(legs).Some?
    ensures var fixed := |StartFixed(legs[ChosenStart(legs).value])| + |EndFixed(legs)|;
      && |SearchList(legs)| + fixed + Skipped(legs) <= 2 * |legs|
      && (|SearchList(legs)| + fixed + Skipped(legs) == 2 * |legs| <==> Unambiguous(legs))
  {
    var s, e := ChosenStart(legs).value, EndIndex(legs);
    if Unambiguous(legs) {
      TwoRemoved(legs, Removed(legs), |legs|, s, e, Place("", "", 0));
    } else {
      var x :| 0 <= x < |legs| && x != s && x != e && (legs[x].isStartPoint || legs[x].isEndPoint);
      ThreeRemoved(legs, Removed(legs), |legs|, s, e, x);
    }
  }

  // In every other case the route is short of stops: it has all of them exactly
  // under that condition.
  lemma RouteIsComplete(legs: seq<Leg>, answer: seq<WaypointId>)
    requires ChosenStart(legs).Some?
    ensures |RouteOf(legs, answer)| + Skipped(legs) <= 2 * |legs|
    ensures |RouteOf(legs, answer)| + Skipped(legs) == 2 * |legs|
      <==> Unambiguous(legs) && NamesAll(|SearchList(legs)|, answer)
  {
    RebuiltIsPermutation(SearchList(legs), answer, Place("", "", 0));
    SearchIsComplete(legs);
  }

  // The route starts at the start's origin unless the start is virtual, and
  // ends at the end's destination.
  lemma RouteEnds(legs: seq<Leg>, answer: seq<WaypointId>)
    requires ChosenStart(legs).Some?
    ensures var route, start := RouteOf(legs, answer), legs[ChosenStart(legs).value];
      && (!start.isVirtual ==> route != [] && route[0] == OriginOf(start))
      && (0 <= EndIndex(legs) ==> route != [] && route[|route| - 1] == DestinationOf(legs[EndIndex(legs)]))
  {
  }

  // ------------------------------------------------------------------------
  // Place by place

  lemma StopsAre(leg: Leg)
    ensures OriginOf(leg) == Place(leg.originPoint, leg.origin, leg.key)
    ensures DestinationOf(leg) == Place(leg.destinationPoint, leg.destination, leg.key)
  {
  }

  // The start is the location flagged so, or else the first one; the end is the
  // one flagged as an end and not as the start too.
  lemma EndsAre(legs: seq<Leg>, i: nat)
    requires i < |legs| && Unambiguous(legs)
    ensures legs[i].isStartPoint ==> ChosenStart(legs) == Some(i)
    ensures (forall j :: 0 <= j < |legs| ==> !legs[j].isStartPoint) && !legs[0].isEndPoint ==>
      ChosenStart(legs) == Some(0)
    ensures legs[i].isEndPoint && !legs[i].isStartPoint ==> EndIndex(legs) == i
    ensures (forall j :: 0 <= j < |legs| ==> !(legs[j].isEndPoint && !legs[j].isStartPoint)) ==> EndIndex(legs) == -1
  {
  }

  // The stops sent begin with the start's destination, unless it is virtual, and
  // end with the end's origin.
  lemma SearchEndsAre(legs: seq<Leg>)
    requires ChosenStart(legs).Some?
    ensures var search, start := SearchList(legs), legs[ChosenStart(legs).value];
      && (!start.isVirtual ==>
        search != [] && search[0] == Place(start.destinationPoint, start.destination, start.key))
      && (0 <= EndIndex(legs) ==>
        var end := legs[EndIndex(legs)];
        search != [] && search[|search| - 1] == Place(end.originPoint, end.origin, end.key))
  {
  }

  // An answer that names stops, each once, gives these stops in the order in which
  // it names them.
  lemma {:induction false} RebuiltFollowsTheAnswer(search: seq<Place>, named: set<int>, answer: seq<WaypointId>)
    requires forall i :: 0 <= i < |answer| ==>
      answer[i].DestinationId? && 1 <= answer[i].number <= |search| && answer[i].number !in named
    requires forall i, j :: 0 <= i < j < |answer| ==> answer[i] != answer[j]
    ensures |Rebuilt(search, named, answer)| == |answer|
    ensures forall i :: 0 <= i < |answer| ==> Rebuilt(search, named, answer)[i] == search[answer[i].number - 1]
    decreases answer
  {
    if answer != [] {
      var rest, n := answer[1..], answer[0].number;
      forall i | 0 <= i < |rest|
        ensures rest[i].DestinationId? && 1 <= rest[i].number <= |search| && rest[i].number !in named + {n}
      {
        assert rest[i] == answer[i + 1] && answer[0] != answer[i + 1];
      }
      RebuiltFollowsTheAnswer(search, named + {n}, rest);
      forall i | 0 <= i < |answer|
        ensures Rebuilt(search, named, answer)[i] == search[answer[i].number - 1]
      {
        assert i > 0 ==> answer[i] == rest[i - 1];
      }
    }
  }

  // ------------------------------------------------------------------------
  // The call itself: holes are punched into the list while it is scanned, the
  // remaining stops are labelled and sent, and each label is erased when it is
  // matched so that a repeated id finds nothing.

  function LegAt(legs: seq<Leg>, i: int): Option<Leg>
    requires i < |legs|
  {
    if 0 <= i then Some(legs[i]) else None
  }

  // The scan for flags; the last location with a flag wins, and every flagged
  // one leaves a hole.
  method TakeFlagged(legs: seq<Leg>, slots: array<Option<Leg>>) returns (start: Option<Leg>, end: Option<Leg>)
    requires slots.Length == |legs| && forall j :: 0 <= j < |legs| ==> slots[j] == Some(legs[j])
    modifies slots
    ensures start == LegAt(legs, StartIndex(legs)) && end == LegAt(legs, EndIndex(legs))
    ensures forall j :: 0 <= j < |legs| ==>
      slots[j] == if legs[j].isStartPoint || legs[j].isEndPoint then None else Some(legs[j])
  {
    start, end := None, None;
    for i := 0 to |legs|
      invariant start == LegAt(legs[..i], StartIndex(legs[..i]))
      invariant end == LegAt(legs[..i], EndIndex(legs[..i]))
      invariant forall j :: 0 <= j < |legs| ==>
        slots[j] == if j < i && (legs[j].isStartPoint || legs[j].isEndPoint) then None else Some(legs[j])
    {
      assert legs[..i + 1][..i] == legs[..i];
      if slots[i].value.isStartPoint {
        start := slots[i];
        slots[i] := None;
      }
      if slots[i].Some? && slots[i].value.isEndPoint {
        end := slots[i];
        slots[i] := None;
      }
    }
    assert legs[..|legs|] == legs;
  }

  // Without a flag the first location is the start; a hole there, or an empty
  // list, is where the service reads a field of `undefined`.
  method TakeEnds(legs: seq<Leg>, slots: array<Option<Leg>>) returns (start: Option<Leg>, end: Option<Leg>)
    requires slots.Length == |legs| && forall j :: 0 <= j < |legs| ==> slots[j] == Some(legs[j])
    modifies slots
    ensures end == LegAt(legs, EndIndex(legs))
    ensures start.None? <==> ChosenStart(legs).None?
    ensures start.Some? ==>
      && start == LegAt(legs, ChosenStart(legs).value)
      && forall j :: 0 <= j < |legs| ==> slots[j] == if j in Removed(legs) then None else Some(legs[j])
  {
    start, end := TakeFlagged(legs, slots);
    if start.None? {
      if |legs| == 0 || slots[0].None? {
        return None, end;
      }
      start := slots[0];
      slots[0] := None;
    }
  }

  method OptimizeRoute(legs: seq<Leg>, answer: seq<WaypointId>) returns (route: Option<seq<Place>>, sent: seq<string>)
    ensures route.None? <==> ChosenStart(legs).None?
    ensures route.Some? ==>
      && route.value == RouteOf(legs, answer)
      && |sent| == |SearchList(legs)|
      && forall i :: 0 <= i < |sent| ==> sent[i] == SearchList(legs)[i].point
  {
    sent := [];
    var slots := new Option<Leg>[|legs|](i requires 0 <= i < |legs| => Some(legs[i]));
    var start, end := TakeEnds(legs, slots);
    if start.None? {
      return None, sent;
    }
    var search := CollectStops(legs, slots);
    if !start.value.isVirtual {
      search := [DestinationOf(start.value)] + search;
    }
    if end.Some? {
      search := search + [OriginOf(end.value)];
    }
    assert search == SearchList(legs);
    sent := PointsOf(search);
    var places := MatchAnswer(search, answer);
    if !start.value.isVirtual {
      places := [OriginOf(start.value)] + places;
    }
    if end.Some? {
      places := places + [DestinationOf(end.value)];
    }
    route := Some(places);
  }

  method PointsOf(search: seq<Place>) returns (sent: seq<string>)
    ensures |sent| == |search| && forall i :: 0 <= i < |sent| ==> sent[i] == search[i].point
  {
    sent := [];
    for i := 0 to |search|
      invariant |sent| == i && forall j :: 0 <= j < i ==> sent[j] == search[j].point
    {
      sent := sent + [search[i].point];
    }
  }

  // The reduce over the list, which passes over the holes.
  method CollectStops(legs: seq<Leg>, slots: array<Option<Leg>>) returns (stops: seq<Place>)
    requires slots.Length == |legs|
    requires forall i :: 0 <= i < |legs| ==> slots[i] == if i in Removed(legs) then None else Some(legs[i])
    ensures stops == KeptStops(legs, Removed(legs), |legs|)
  {
    stops := [];
    for i := 0 to slots.Length
      invariant stops == KeptStops(legs, Removed(legs), i)
    {
      if slots[i].Some? {
        stops := stops + [OriginOf(slots[i].value), DestinationOf(slots[i].value)];
      }
    }
  }

  method MatchAnswer(search: seq<Place>, answer: seq<WaypointId>) returns (found: seq<Place>)
    ensures found == Rebuilt(search, {}, answer)
  {
    found := [];
    var stops := new Labelled[|search|](i requires 0 <= i < |search| => Labelled(search[i], Some(i + 1)));
    ghost var named: set<int> := {};
    for w := 0 to |answer|
      invariant forall j :: 0 <= j < |search| ==>
        stops[j] == Labelled(search[j], if j + 1 in named then None else Some(j + 1))
      invariant found + Rebuilt(search, named, answer[w..]) == Rebuilt(search, {}, answer)
    {
      assert answer[w..][1..] == answer[w + 1..];
      if answer[w].DestinationId? {
        var n := answer[w].number;
        var k := 0;
        while k < stops.Length && stops[k].tag != Some(n)
          invariant 0 <= k <= stops.Length
          invariant forall j :: 0 <= j < k ==> stops[j].tag != Some(n)
        {
          k := k + 1;
        }
        if k < stops.Length {
          assert k == n - 1 && n !in named;
          stops[k] := stops[k].(tag := None);
          found := found + [stops[k].place];
          named := named + {n};
        } else {
          assert 1 <= n <= |search| ==> stops[n - 1].tag != Some(n);
        }
      }
    }
  }
}
