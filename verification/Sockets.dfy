// The socket identity index of events.gateway.ts: account -> connection -> mark.
module Sockets {
  import opened Prelude

  const ACTIVE := "active"

  type Index = map<int, map<string, string>>

  datatype Event = Identify(connection: string, accountId: int) | Disconnect(connection: string)

  // ------------------------------------------------------------------------
  // The reference: who is connected as what, read off the event log.

  function Live(log: seq<Event>): set<(int, string)> {
    if log == [] then {}
    else
      var before := Live(log[..|log| - 1]);
      match log[|log| - 1]
      case Identify(c, a) => before + {(a, c)}
      case Disconnect(c) => set p | p in before && p.1 != c
  }

  // ------------------------------------------------------------------------
  // The code on values.

  function Identified(index: Index, c: string, a: int): Index {
    var entry := if a in index then index[a] else map[];
    index[a := entry[c := ACTIVE]]
  }

  // Array.find over the keys, which are in ascending order: the first account
  // that knows the connection.
  ghost predicate FirstAccount(index: Index, c: string, a: Option<int>) {
    && (a.Some? ==> a.value in index && c in index[a.value])
    && forall b :: b in index && c in index[b] ==> a.Some? && a.value <= b
  }

  function Disconnected(index: Index, c: string, a: Option<int>): Index {
    if a.None? || a.value !in index then index
    else if index[a.value] - {c} == map[] then index - {a.value}
    else index[a.value := index[a.value] - {c}]
  }

  class EventsGateway {
    var identities: Index

    constructor ()
      ensures identities == map[]
    {
      identities := map[];
    }

    method Identity(connection: string, accountId: int)
      modifies this
      ensures identities == Identified(old(identities), connection, accountId)
    {
      if accountId !in identities {
        identities := identities[accountId := map[]];
      }
      identities := identities[accountId := identities[accountId][connection := ACTIVE]];
    }

    // The rooms the message is emitted to.
    method SendMessage(accountId: int) returns (rooms: set<string>)
      ensures rooms == if accountId in identities then identities[accountId].Keys else {}
    {
      if accountId !in identities {
        return {};
      }
      return identities[accountId].Keys;
    }

    method FindAccount(connection: string) returns (found: Option<int>)
      ensures FirstAccount(identities, connection, found)
    {
      found := None;
      var left := identities.Keys;
      while left != {}
        invariant left <= identities.Keys
        invariant found.Some? ==> found.value in identities && connection in identities[found.value]
        invariant forall b :: b in identities && b !in left && connection in identities[b] ==>
          found.Some? && found.value <= b
        decreases |left|
      {
        var a := AnyOf(left);
        if connection in identities[a] && (found.None? || a < found.value) {
          found := Some(a);
        }
        left := left - {a};
      }
    }

    method HandleDisconnect(connection: string) returns (ghost found: Option<int>)
      modifies this
      ensures FirstAccount(old(identities), connection, found)
      ensures identities == Disconnected(old(identities), connection, found)
    {
      var accountId := FindAccount(connection);
      found := accountId;
      if accountId.Some? {
        identities := identities[accountId.value := identities[accountId.value] - {connection}];
        if identities[accountId.value] == map[] {
          identities := identities - {accountId.value};
          assert identities == old(identities) - {accountId.value};
        }
      }
    }
  }

  // ------------------------------------------------------------------------
  // Whole runs.

  // The index holds exactly the given pairs and no account without a connection.
  ghost predicate Holds(index: Index, pairs: set<(int, string)>) {
    && (forall a, c :: a in index && c in index[a] <==> (a, c) in pairs)
    && (forall a :: a in index ==> index[a] != map[])
  }

  // The states of the index along a log, one more than there are events; each
  // disconnect removes the first account found.
  ghost predicate Runs(log: seq<Event>, states: seq<Index>) {
    && |states| == |log| + 1
    && states[0] == map[]
    && forall i :: 0 <= i < |log| ==> Step(states[i], log[i], states[i + 1])
  }

  ghost predicate Step(before: Index, event: Event, after: Index) {
    match event
    case Identify(c, a) => after == Identified(before, c, a)
    case Disconnect(c) => exists a :: FirstAccount(before, c, a) && after == Disconnected(before, c, a)
  }

  // No connection goes away while it is identified with two accounts.
  ghost predicate OneAccountAtDisconnect(log: seq<Event>) {
    forall i :: 0 <= i < |log| && log[i].Disconnect? ==> OneAccount(Live(log[..i]), log[i].connection)
  }

  ghost predicate OneAccount(pairs: set<(int, string)>, c: string) {
    forall a, b :: (a, c) in pairs && (b, c) in pairs ==> a == b
  }

  lemma IdentifyHolds(index: Index, pairs: set<(int, string)>, c: string, a: int)
    requires Holds(index, pairs)
    ensures Holds(Identified(index, c, a), pairs + {(a, c)})
  {
    var after := Identified(index, c, a);
    assert c in after[a];
    forall b, d
      ensures b in after && d in after[b] <==> (b, d) in pairs + {(a, c)}
    {
      if b == a && a in index {
        assert d in index[a] <==> (a, d) in pairs;
      }
    }
  }

  function Removed(pairs: set<(int, string)>, c: string): set<(int, string)> {
    set p | p in pairs && p.1 != c
  }

  // One disconnect keeps index and log together exactly when the connection was
  // identified with at most one account.
  lemma DisconnectHolds(index: Index, pairs: set<(int, string)>, c: string, a: Option<int>)
    requires Holds(index, pairs) && FirstAccount(index, c, a)
    ensures Holds(Disconnected(index, c, a), Removed(pairs, c)) <==> OneAccount(pairs, c)
  {
    var after := Disconnected(index, c, a);
    forall b, d
      ensures b in after && d in after[b] <==> (b, d) in pairs && !(a == Some(b) && d == c)
    {
      assert b in index && d in index[b] <==> (b, d) in pairs;
      if a == Some(b) && d in index[b] && d != c {
        assert d in index[b] - {c};
      }
    }
    if OneAccount(pairs, c) {
      forall b, d
        ensures b in after && d in after[b] <==> (b, d) in Removed(pairs, c)
      {
        if (b, d) in pairs && d == c {
          assert b in index && c in index[b];
        }
      }
    } else {
      var x, y :| (x, c) in pairs && (y, c) in pairs && x != y;
      var other := if a == Some(x) then y else x;
      assert other in after && c in after[other];
      assert (other, c) !in Removed(pairs, c);
    }
  }

  lemma LiveStep(log: seq<Event>, i: nat)
    requires i < |log|
    ensures Live(log[..i + 1]) == match log[i]
      case Identify(c, a) => Live(log[..i]) + {(a, c)}
      case Disconnect(c) => Removed(Live(log[..i]), c)
  {
    assert log[..i + 1][..i] == log[..i];
  }

  lemma StepHolds(before: Index, event: Event, after: Index, pairs: set<(int, string)>)
    requires Step(before, event, after) && Holds(before, pairs)
    ensures match event
      case Identify(c, a) => Holds(after, pairs + {(a, c)})
      case Disconnect(c) => (Holds(after, Removed(pairs, c)) <==> OneAccount(pairs, c))
  {
    match event
    case Identify(c, a) => IdentifyHolds(before, pairs, c, a);
    case Disconnect(c) =>
      var a :| FirstAccount(before, c, a) && after == Disconnected(before, c, a);
      DisconnectHolds(before, pairs, c, a);
  }

  // Along a whole run the index equals the live connections after every event,
  // with no empty entry, exactly when no connection ever disconnects while it is
  // identified with two accounts.
  lemma {:induction false} IndexIsLive(log: seq<Event>, states: seq<Index>, n: nat)
    requires Runs(log, states) && n <= |log| && OneAccountAtDisconnect(log)
    ensures Holds(states[n], Live(log[..n]))
  {
    if n > 0 {
      var i := n - 1;
      IndexIsLive(log, states, i);
      LiveStep(log, i);
      StepHolds(states[i], log[i], states[n], Live(log[..i]));
    }
  }

  lemma IndexIsLiveExactlyWhen(log: seq<Event>, states: seq<Index>)
    requires Runs(log, states)
    ensures (forall n :: 0 <= n <= |log| ==> Holds(states[n], Live(log[..n]))) <==> OneAccountAtDisconnect(log)
  {
    if OneAccountAtDisconnect(log) {
      forall n | 0 <= n <= |log|
        ensures Holds(states[n], Live(log[..n]))
      {
        IndexIsLive(log, states, n);
      }
    } else {
      var i :| 0 <= i < |log| && log[i].Disconnect? && !OneAccount(Live(log[..i]), log[i].connection);
      if Holds(states[i], Live(log[..i])) {
        LiveStep(log, i);
        StepHolds(states[i], log[i], states[i + 1], Live(log[..i]));
        assert !Holds(states[i + 1], Live(log[..i + 1]));
      }
    }
  }

  // In particular when every connection identifies with one account for good;
  // then a message reaches exactly the live connections of its account.
  lemma MessagesReachLiveConnections(log: seq<Event>, states: seq<Index>, accountId: int, c: string)
    requires Runs(log, states)
    requires forall c, a, b :: Identify(c, a) in log && Identify(c, b) in log ==> a == b
    ensures var rooms := if accountId in states[|log|] then states[|log|][accountId].Keys else {};
      c in rooms <==> (accountId, c) in Live(log)
  {
    forall i, a, b | 0 <= i < |log| && log[i].Disconnect?
        && (a, log[i].connection) in Live(log[..i]) && (b, log[i].connection) in Live(log[..i])
      ensures a == b
    {
      LiveWasIdentified(log[..i], a, log[i].connection);
      LiveWasIdentified(log[..i], b, log[i].connection);
    }
    IndexIsLive(log, states, |log|);
    assert log[..|log|] == log;
  }

  lemma {:induction false} LiveWasIdentified(log: seq<Event>, a: int, c: string)
    requires (a, c) in Live(log)
    ensures Identify(c, a) in log
  {
    if log[|log| - 1] != Identify(c, a) {
      LiveWasIdentified(log[..|log| - 1], a, c);
    }
  }
}
