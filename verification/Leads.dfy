// The invitation mails to leads, checkSendEmails of lead.service.ts.
module Leads {
  import opened Prelude

  datatype QuoteStatus = NewQuote | AcceptedQuote | Booked | QuoteExpired | QuoteCanceled | Lead | Quoted

  // `typedCar`: the lead's first car exists and has a type.
  datatype Quote = Quote(
    status: QuoteStatus,
    email: string,
    typedCar: bool,
    sentCount: int,
    sentDate: int,
    createdById: Option<int>,
    customerId: Option<int>)

  // Times are in milliseconds.
  const DAY := 86_400_000
  const MAX_SENT := 3

  // getLeadsForSend: the row filter of a batch that is asked for at `now`.
  predicate Eligible(quote: Quote, now: int) {
    quote.sentCount < MAX_SENT && (quote.status == Lead || quote.status == Quoted) && quote.sentDate <= now - DAY
  }

  // A lead from a file or a form starts 25 hours in the past, so that a batch
  // may write to it at once; it has three, respectively two, mails to go.
  function Imported(email: string, typedCar: bool, now: int, accountId: int): (q: Quote)
    ensures Eligible(q, now) && MAX_SENT - q.sentCount == 3
  {
    Quote(Lead, email, typedCar, 0, now - 90_000_000, Some(accountId), None)
  }

  function FromTemporaryLead(email: string, typedCar: bool, now: int): (q: Quote)
    ensures Eligible(q, now) && MAX_SENT - q.sentCount == 2
  {
    Quote(Lead, email, typedCar, 1, now - 90_000_000, None, None)
  }

  // What the outside answers for one lead: the account already registered with
  // the customer's email, whether linking the quote to it worked, whether the
  // mail went out, whether the hash and the counter were written, and the clock.
  datatype Turn = Turn(account: Option<int>, linked: bool, mailed: bool, hashed: bool, counted: bool, now: int)

  // One increment of a lead's counter.
  datatype Sent = Sent(lead: int, time: int)

  // A batch in progress. `greeted` are the emails of the leads kept in
  // unikeyLeads, `mails` the invitations that went out, and `running` turns
  // false when an error ends the call: what was written before stays.
  datatype Batch = Batch(
    quotes: map<int, Quote>,
    greeted: set<string>,
    mails: seq<string>,
    sent: seq<Sent>,
    running: bool)

  // The invitation part of a turn: at most one for each email.
  function Invite(b: Batch, quote: Quote, turn: Turn): Batch {
    if quote.email in b.greeted || !quote.typedCar then b
    else b.(
      greeted := b.greeted + {quote.email},
      mails := if turn.mailed then b.mails + [quote.email] else b.mails,
      running := turn.mailed && turn.hashed)
  }

  function Count(b: Batch, id: int, quote: Quote, turn: Turn): Batch {
    if !b.running || !quote.typedCar then b
    else if !turn.counted then b.(running := false)
    else b.(
      quotes := b.quotes[id := quote.(sentDate := turn.now, sentCount := quote.sentCount + 1, status := Quoted)],
      sent := b.sent + [Sent(id, turn.now)])
  }

  // The turn of one lead; `quote` is its row as the batch loaded it.
  function TakeTurn(b: Batch, id: int, quote: Quote, turn: Turn): Batch {
    if !b.running then b
    else if turn.account.Some? then
      (if turn.linked
       then b.(quotes := b.quotes[id := quote.(createdById := turn.account, status := NewQuote, customerId := None)])
       else b)
    else Count(Invite(b, quote, turn), id, quote, turn)
  }

  function RunTurns(start: map<int, Quote>, ids: seq<int>, turns: seq<Turn>): Batch
    requires |ids| == |turns| && forall i :: 0 <= i < |ids| ==> ids[i] in start
  {
    if ids == [] then Batch(start, {}, [], [], true)
    else
      var n := |ids| - 1;
      TakeTurn(RunTurns(start, ids[..n], turns[..n]), ids[n], start[ids[n]], turns[n])
  }

  class LeadService {
    var quotes: map<int, Quote>

    constructor (quotes: map<int, Quote>)
      ensures this.quotes == quotes
    {
      this.quotes := quotes;
    }

    // `leads` is the order in which the query returns the eligible rows.
    method CheckSendEmails(leads: seq<int>, turns: seq<Turn>)
      returns (mails: seq<string>, ghost sent: seq<Sent>, success: bool)
      requires |leads| == |turns| && forall i :: 0 <= i < |leads| ==> leads[i] in quotes
      modifies this
      ensures RunTurns(old(quotes), leads, turns)
        == Batch(quotes, RunTurns(old(quotes), leads, turns).greeted, mails, sent, success)
    {
      var loaded := quotes;
      var unikeyLeads: seq<string> := [];
      mails, sent, success := [], [], true;
      for i := 0 to |leads|
        invariant |leads| == |turns| && forall j :: 0 <= j < |leads| ==> leads[j] in loaded
        invariant RunTurns(loaded, leads[..i], turns[..i]) == Batch(quotes, Elements(unikeyLeads), mails, sent, success)
      {
        assert leads[..i + 1][..i] == leads[..i] && turns[..i + 1][..i] == turns[..i];
        if success {
          var lead, turn := loaded[leads[i]], turns[i];
          if turn.account.Some? {
            if turn.linked {
              quotes := quotes[leads[i] := lead.(createdById := turn.account, status := NewQuote, customerId := None)];
            }
          } else {
            if lead.email !in unikeyLeads {
              if lead.typedCar {
                unikeyLeads := unikeyLeads + [lead.email];
                if turn.mailed {
                  mails := mails + [lead.email];
                }
                success := turn.mailed && turn.hashed;
              }
            }
            if success && lead.typedCar {
              if turn.counted {
                quotes := quotes[leads[i] :=
                  lead.(sentDate := turn.now, sentCount := lead.sentCount + 1, status := Quoted)];
                sent := sent + [Sent(leads[i], turn.now)];
              } else {
                success := false;
              }
            }
          }
        }
      }
      assert leads[..|leads|] == leads && turns[..|turns|] == turns;
    }
  }

  // ------------------------------------------------------------------------
  // One invitation for each email of a batch.

  lemma {:induction false} OneInvitationEach(start: map<int, Quote>, ids: seq<int>, turns: seq<Turn>)
    requires |ids| == |turns| && forall i :: 0 <= i < |ids| ==> ids[i] in start
    ensures var b := RunTurns(start, ids, turns);
      && NoDuplicates(b.mails)
      && (forall m :: m in b.mails ==> m in b.greeted)
      && (b.running ==> forall m :: m in b.greeted ==> m in b.mails)
  {
    if ids != [] {
      var n := |ids| - 1;
      OneInvitationEach(start, ids[..n], turns[..n]);
      var b, quote := RunTurns(start, ids[..n], turns[..n]), start[ids[n]];
      if quote.email !in b.greeted {
        AppendFresh(b.mails, quote.email);
      }
    }
  }

  // A batch that ends well has invited every customer without an account whose
  // lead has a typed car; with the lemma above, exactly once.
  lemma {:induction false} EveryCustomerInvited(start: map<int, Quote>, ids: seq<int>, turns: seq<Turn>, i: nat)
    requires |ids| == |turns| && forall k :: 0 <= k < |ids| ==> ids[k] in start
    requires RunTurns(start, ids, turns).running
    requires i < |ids| && turns[i].account.None? && start[ids[i]].typedCar
    ensures start[ids[i]].email in RunTurns(start, ids, turns).mails
  {
    var n := |ids| - 1;
    if i < n {
      EveryCustomerInvited(start, ids[..n], turns[..n], i);
    } else {
      OneInvitationEach(start, ids[..n], turns[..n]);
    }
  }

  // ------------------------------------------------------------------------
  // Runs of batches.

  // A batch asked for at `asked`: the leads in the order of the query, and what
  // the outside answered for each.
  datatype Call = Call(asked: int, leads: seq<int>, turns: seq<Turn>)

  ghost predicate Proper(quotes: map<int, Quote>, call: Call) {
    && |call.leads| == |call.turns| && NoDuplicates(call.leads)
    && (forall i :: 0 <= i < |call.leads| ==> call.leads[i] in quotes && Eligible(quotes[call.leads[i]], call.asked))
    && (forall i :: 0 <= i < |call.turns| ==> call.asked <= call.turns[i].now)
  }

  function Times(sent: seq<Sent>, id: int): nat {
    if sent == [] then 0
    else Times(sent[..|sent| - 1], id) + if sent[|sent| - 1].lead == id then 1 else 0
  }

  // The history of increments agrees with the rows it started from and led to:
  // counters are exact and at most three, and the entries of one lead are a day
  // apart and not later than its sentDate.
  ghost predicate Consistent(first: map<int, Quote>, quotes: map<int, Quote>, history: seq<Sent>) {
    && quotes.Keys == first.Keys
    && (forall id :: id in quotes ==>
      quotes[id].sentCount == first[id].sentCount + Times(history, id) && quotes[id].sentCount <= MAX_SENT)
    && (forall i :: 0 <= i < |history| ==>
      history[i].lead in quotes && history[i].time <= quotes[history[i].lead].sentDate)
    && Spaced(history)
  }

  ghost predicate Spaced(history: seq<Sent>) {
    forall i, j :: 0 <= i < j < |history| && history[i].lead == history[j].lead ==>
      history[j].time - history[i].time >= DAY
  }

  lemma {:induction false} TimesConcat(a: seq<Sent>, b: seq<Sent>, id: int)
    ensures Times(a + b, id) == Times(a, id) + Times(b, id)
  {
    if b == [] {
      assert a + b == a;
    } else {
      assert (a + b)[..|a + b| - 1] == a + b[..|b| - 1];
      TimesConcat(a, b[..|b| - 1], id);
    }
  }

  // One more increment of an eligible lead.
  lemma CountOne(first: map<int, Quote>, quotes: map<int, Quote>, history: seq<Sent>, id: int, asked: int, now: int)
    requires Consistent(first, quotes, history) && id in quotes
    requires Eligible(quotes[id], asked) && asked <= now
    ensures Consistent(first,
      quotes[id := quotes[id].(sentDate := now, sentCount := quotes[id].sentCount + 1, status := Quoted)],
      history + [Sent(id, now)])
  {
    var longer := history + [Sent(id, now)];
    assert longer[..|longer| - 1] == history;
    forall i | 0 <= i < |history| && history[i].lead == id
      ensures now - history[i].time >= DAY
    {
    }
  }

  lemma LinkOne(first: map<int, Quote>, quotes: map<int, Quote>, history: seq<Sent>, id: int, account: Option<int>)
    requires Consistent(first, quotes, history) && id in quotes
    ensures Consistent(first,
      quotes[id := quotes[id].(createdById := account, status := NewQuote, customerId := None)], history)
  {
  }

  // The rows of leads whose turn has not come are as the batch loaded them.
  lemma {:induction false} UntouchedBeforeTurn(start: map<int, Quote>, ids: seq<int>, turns: seq<Turn>, id: int)
    requires |ids| == |turns| && forall i :: 0 <= i < |ids| ==> ids[i] in start
    requires id in start && id !in ids
    ensures var b := RunTurns(start, ids, turns);
      id in b.quotes && b.quotes[id] == start[id]
  {
    if ids != [] {
      var n := |ids| - 1;
      UntouchedBeforeTurn(start, ids[..n], turns[..n], id);
    }
  }

  lemma TurnIsConsistent(first: map<int, Quote>, b: Batch, history: seq<Sent>, id: int, asked: int, turn: Turn)
    requires Consistent(first, b.quotes, history + b.sent) && id in b.quotes
    requires Eligible(b.quotes[id], asked) && asked <= turn.now
    ensures var after := TakeTurn(b, id, b.quotes[id], turn);
      Consistent(first, after.quotes, history + after.sent)
  {
    LinkOne(first, b.quotes, history + b.sent, id, turn.account);
    CountOne(first, b.quotes, history + b.sent, id, asked, turn.now);
    assert history + (b.sent + [Sent(id, turn.now)]) == history + b.sent + [Sent(id, turn.now)];
  }

  lemma {:induction false} BatchIsConsistent(first: map<int, Quote>, start: map<int, Quote>, history: seq<Sent>,
    call: Call, n: nat)
    requires Consistent(first, start, history) && Proper(start, call) && n <= |call.leads|
    ensures var b := RunTurns(start, call.leads[..n], call.turns[..n]);
      Consistent(first, b.quotes, history + b.sent)
  {
    if n == 0 {
      assert history + [] == history;
    } else {
      BatchIsConsistent(first, start, history, call, n - 1);
      var ids, turns := call.leads[..n], call.turns[..n];
      assert ids[..n - 1] == call.leads[..n - 1] && turns[..n - 1] == call.turns[..n - 1];
      var b, id := RunTurns(start, call.leads[..n - 1], call.turns[..n - 1]), call.leads[n - 1];
      UntouchedBeforeTurn(start, call.leads[..n - 1], call.turns[..n - 1], id);
      TurnIsConsistent(first, b, history, id, call.asked, call.turns[n - 1]);
    }
  }

  // A run: each batch starts from the rows the one before left behind.
  function Rows(first: map<int, Quote>, calls: seq<Call>): (quotes: map<int, Quote>) {
    if calls == [] then first
    else
      var before, call := Rows(first, calls[..|calls| - 1]), calls[|calls| - 1];
      if |call.leads| == |call.turns| && forall i :: 0 <= i < |call.leads| ==> call.leads[i] in before
      then RunTurns(before, call.leads, call.turns).quotes else before
  }

  function History(first: map<int, Quote>, calls: seq<Call>): seq<Sent> {
    if calls == [] then []
    else
      var front := calls[..|calls| - 1];
      var before, call := Rows(first, front), calls[|calls| - 1];
      if |call.leads| == |call.turns| && forall i :: 0 <= i < |call.leads| ==> call.leads[i] in before
      then History(first, front) + RunTurns(before, call.leads, call.turns).sent else History(first, front)
  }

  ghost predicate ProperRun(first: map<int, Quote>, calls: seq<Call>) {
    calls == []
    || (ProperRun(first, calls[..|calls| - 1]) && Proper(Rows(first, calls[..|calls| - 1]), calls[|calls| - 1]))
  }

  lemma CallIsConsistent(first: map<int, Quote>, start: map<int, Quote>, history: seq<Sent>, call: Call)
    requires Consistent(first, start, history) && Proper(start, call)
    ensures var b := RunTurns(start, call.leads, call.turns);
      Consistent(first, b.quotes, history + b.sent)
  {
    BatchIsConsistent(first, start, history, call, |call.leads|);
    assert call.leads[..|call.leads|] == call.leads && call.turns[..|call.turns|] == call.turns;
  }

  // Over every run of batches, with mail, link and database failing as they
  // please: every counter is the number of increments and never exceeds three,
  // and two increments of one lead are at least a day apart. Nothing is assumed
  // about the clock between batches: the row's own sentDate enforces the pause.
  lemma {:induction false} RunsAreConsistent(first: map<int, Quote>, calls: seq<Call>)
    requires forall id :: id in first ==> first[id].sentCount <= MAX_SENT
    requires ProperRun(first, calls)
    ensures Consistent(first, Rows(first, calls), History(first, calls))
  {
    if calls != [] {
      var front, call := calls[..|calls| - 1], calls[|calls| - 1];
      RunsAreConsistent(first, front);
      CallIsConsistent(first, Rows(first, front), History(first, front), call);
    }
  }

  // A lead is counted at most as often as it had mails to go when it came in.
  lemma InvitationsLeft(first: map<int, Quote>, calls: seq<Call>, id: int)
    requires forall id :: id in first ==> first[id].sentCount <= MAX_SENT
    requires ProperRun(first, calls) && id in first
    ensures Times(History(first, calls), id) <= MAX_SENT - first[id].sentCount
  {
    RunsAreConsistent(first, calls);
  }

  // A batch takes exactly the leads and quoted leads with fewer than three mails,
  // the last one at least 24 hours ago.
  lemma EligibleExactlyWhen(quote: Quote, now: int)
    ensures Eligible(quote, now) <==>
      quote.status in {Lead, Quoted} && quote.sentCount <= 2 && now - quote.sentDate >= 24 * 60 * 60 * 1000
  {
  }

  // In hours and mails: over every run no lead is counted more than three times, and
  // two of its mails are counted at least 24 hours apart.
  lemma LeadsAreThrottled(first: map<int, Quote>, calls: seq<Call>, id: int, i: nat, j: nat)
    requires forall id :: id in first ==> 0 <= first[id].sentCount <= 3
    requires ProperRun(first, calls) && id in first
    ensures id in Rows(first, calls) && Rows(first, calls)[id].sentCount <= 3
    ensures Rows(first, calls)[id].sentCount == first[id].sentCount + Times(History(first, calls), id)
    ensures var history := History(first, calls);
      i < j < |history| && history[i].lead == history[j].lead ==>
        history[j].time - history[i].time >= 24 * 60 * 60 * 1000
  {
    RunsAreConsistent(first, calls);
  }

  // What one turn does to its lead: a registered customer takes the quote over; else
  // a lead with a typed car is counted once its mail, if it is due one, went out.
  lemma TurnWrites(b: Batch, id: int, quote: Quote, turn: Turn)
    requires b.running
    ensures var after := TakeTurn(b, id, quote, turn);
      var mailDue := turn.account.None? && quote.typedCar && quote.email !in b.greeted;
      && after.mails == (if mailDue && turn.mailed then b.mails + [quote.email] else b.mails)
      && after.greeted == (if mailDue then b.greeted + {quote.email} else b.greeted)
      && after.quotes == (
        if turn.account.Some? && turn.linked
        then b.quotes[id := quote.(createdById := turn.account, status := NewQuote, customerId := None)]
        else if turn.account.None? && quote.typedCar && (mailDue ==> turn.mailed && turn.hashed) && turn.counted
        then b.quotes[id := quote.(sentDate := turn.now, sentCount := quote.sentCount + 1, status := Quoted)]
        else b.quotes)
  {
  }
}
