/**
 * A run in which one order is credited twice. A fill of q is hedged by an order of q. A second fill
 * of q is submitted while that order is still in the search window, but the request never reaches the
 * exchange; after a restart the search finds the first order, binds it a second time and credits it
 * again (hedge_worker.py:890-922). Every answer is complete, so the run is safe.
 */
module DoubleCredit {
  import opened Domain
  import opened Sums
  import opened Store
  import opened Allocation
  import opened Ledger
  import opened HedgeProtocol
  import opened HedgeInvariant
  import opened HedgeVenue
  import opened HedgeAccount
  import opened HedgeSafety
  import opened OverHedgeWitness
  import OrphanMatch
  import OrphanSearch

  // ----- the first fill is hedged -----

  function Hedged1(c: Case): Intent
  {
    Credited(c, c.q).(status := Hedged)
  }

  function First(c: Case): State
  {
    Recovered(c, Settled(c, SOK, c.q), Hedged1(c), Live(c.q, c.q, true))
  }

  function FirstEvents(c: Case): seq<Event>
  {
    FillEvents(c) + (SubmitEvents(0, 0, SOK, 0) + (ACKNOWLEDGE + ([Venue(0, Execute(c.q, true))] + ReportEvents(c, c.q))))
  }

  lemma FirstLeads(c: Case)
    requires 0.0 < c.q && 1 <= c.limit
    ensures Leads(Init(c.limit), FirstEvents(c), First(c), true)
  {
    var begin := During(c, Sent(c, SOK, Submitting, None), InFlight, None, Sending(0));
    var working, full := Working(c, SOK, Live(0.0, 0.0, true), 1), Working(c, SOK, Live(c.q, c.q, true), 1);
    Fills(c);
    FirstSubmit(c, SOK);
    Acknowledges(c, SOK);
    Works(c, SOK, Live(0.0, 0.0, true), c.q);
    Reports(c, SOK, c.q, true);
    hide Step, Leads, Working, During, FillEvents, SubmitEvents, ReportEvents, ACKNOWLEDGE, OneFill, Recovered, Settled, Credited;
    OneStep(working, Venue(0, Execute(c.q, true)), full, true);
    Then(working, [Venue(0, Execute(c.q, true))], full, ReportEvents(c, c.q), First(c), true);
    Then(begin, ACKNOWLEDGE, working, [Venue(0, Execute(c.q, true))] + ReportEvents(c, c.q), First(c), true);
    Then(OneFill(c), SubmitEvents(0, 0, SOK, 0), begin,
         ACKNOWLEDGE + ([Venue(0, Execute(c.q, true))] + ReportEvents(c, c.q)), First(c), true);
    Then(Init(c.limit), FillEvents(c), OneFill(c),
         SubmitEvents(0, 0, SOK, 0) + (ACKNOWLEDGE + ([Venue(0, Execute(c.q, true))] + ReportEvents(c, c.q))), First(c), true);
  }

  // ----- the second fill is submitted and lost -----

  function SecondFill(c: Case, trade: string): FillEvent
  {
    FillEvent(c.client, c.order, VenueTrade(trade), c.symbol, Buy, 2.0 * c.q, c.p, 0.0)
  }

  function Asked2(c: Case, status: HedgeStatus, attempts: nat): Intent
  {
    Intent(1, c.Key(), c.q, 0.0, 0.0, 0.0, status, attempts, None)
  }

  function Tables2(c: Case, trade: string, second: Intent, subs: seq<Submission>): Tables
  {
    Tables(map[c.client := ClientOrder(c, OrderState.Filled, 2.0 * c.q)],
           [FillRow(FirstFill(c), c.q), FillRow(SecondFill(c, trade), c.q)], [Hedged1(c), second], subs)
  }

  /** Both fills are recorded; `subs` and `orders` say what was submitted for them. */
  function Both(c: Case, trade: string, second: Intent, subs: seq<Submission>, orders: seq<XOrder>): State
  {
    State(Tables2(c, trade, second, subs), orders, [], map[], false, None, map[], c.limit)
  }

  function Own1(c: Case): Submission
  {
    Settled(c, SOK, c.q)
  }

  function Own2(c: Case, status: SubmissionStatus, orderId: Option<nat>): Submission
  {
    Submission(c.Key(), c.q, SOK, status, [1], 1, orderId, 0.0, 0.0, 0.0)
  }

  function Filled2(c: Case, trade: string): State
  {
    Both(c, trade, Asked2(c, Pending, 0), [Own1(c)], [Live(c.q, c.q, true)])
  }

  lemma FillsAgain(c: Case, trade: string)
    requires 0.0 < c.q && trade != c.trade
    ensures Step(First(c), Client(Fill(SecondFill(c, trade))), Filled2(c, trade), true)
  {
    hide Credited, Worth;
    var s := First(c).store;
    assert s.orders[c.client := ClientOrder(c, OrderState.Filled, 2.0 * c.q)]
        == map[c.client := ClientOrder(c, OrderState.Filled, 2.0 * c.q)];
    assert s.fills + [FillRow(SecondFill(c, trade), c.q)] == [FillRow(FirstFill(c), c.q), FillRow(SecondFill(c, trade), c.q)];
    assert s.intents + [Asked2(c, Pending, 0)] == [Hedged1(c), Asked2(c, Pending, 0)];
  }

  function Working2(c: Case, trade: string, order: XOrder, stage: Stage): State
  {
    Both(c, trade, Asked2(c, Hedging, 1), [Own1(c), Own2(c, Submitting, None)], [Live(c.q, c.q, true), order])
      .(groups := map[1 := Group(c.Key(), [1], [1], c.q, None, stage)])
  }

  lemma SubmitsAgain(c: Case, trade: string)
    requires 0.0 < c.q && 1 <= c.limit
    ensures Leads(Filled2(c, trade), SubmitEvents(1, 1, SOK, 1), Working2(c, trade, InFlight, Sending(1)), true)
  {
    var row, s := Asked2(c, Pending, 0), Filled2(c, trade);
    SecondPlaced(c, trade);
    assert Idle(s, 1, row);
    hide Credited, Leads, Step, Idle, Placed, Filled2, Working2;
    Submits(s, 1, 1, row, SOK, 1);
  }

  lemma SecondPlaced(c: Case, trade: string)
    requires 0.0 < c.q
    ensures Placed(Filled2(c, trade), 1, 1, Asked2(c, Pending, 0), SOK, 1, InFlight) == Working2(c, trade, InFlight, Sending(1))
  {
    var row, s := Asked2(c, Pending, 0), Filled2(c, trade);
    hide Credited;
    assert s.store.intents[1 := Asked2(c, Hedging, 1)] == [Hedged1(c), Asked2(c, Hedging, 1)];
    assert s.store.submissions + [Own2(c, Submitting, None)] == [Own1(c), Own2(c, Submitting, None)];
    assert s.orders + [InFlight] == [Live(c.q, c.q, true), InFlight];
    assert Placed(s, 1, 1, row, SOK, 1, InFlight) == Working2(c, trade, InFlight, Sending(1));
  }

  const LOSE_AGAIN := [Venue(1, Refuse), Task(1, ResponseLost), Restart(Crash)]

  function Lost2(c: Case, trade: string, second: Intent, sub: Submission, found: map<nat, OrphanMatch.Search>): State
  {
    Both(c, trade, second, [Own1(c), sub], [Live(c.q, c.q, true), Refused]).(recovering := true, found := found)
  }

  lemma LosesAgain(c: Case, trade: string)
    ensures Leads(Working2(c, trade, InFlight, Sending(1)), LOSE_AGAIN,
                  Lost2(c, trade, Asked2(c, Hedging, 1), Own2(c, Submitting, None), map[]), true)
  {
    hide Credited, Worth;
    var s, t := Working2(c, trade, InFlight, Sending(1)), Working2(c, trade, Refused, Sending(1));
    var u := Working2(c, trade, Refused, Settling(HedgeProtocol.Lost, 0));
    var w := Lost2(c, trade, Asked2(c, Hedging, 1), Own2(c, Submitting, None), map[]);
    assert s.orders[1 := Refused] == t.orders;
    assert Step(s, LOSE_AGAIN[0], t, true);
    assert t.groups[1 := u.groups[1]] == u.groups;
    assert Step(t, LOSE_AGAIN[1], u, true);
    assert Step(u, LOSE_AGAIN[2], w, true);
    hide Step, Leads;
    PathLeads([s, t, u, w], LOSE_AGAIN, true);
  }

  // ----- the first order is found for it -----

  function Listed2(c: Case): Listing
  {
    Listing([ListedRow(c, c.q)], [], map[0 := OrphanSearch.Detail(Some(0), c.symbol, Sell, c.q, Some(SOK))], true)
  }

  lemma OnlyFirst(c: Case, id: nat)
    requires 0.0 < c.q
    ensures var l, sub := Listed2(c), Own2(c, Submitting, None);
      && (OrphanMatch.Candidate(l.executions, l.active, l.details, sub, id) <==> id == 0)
      && OrphanMatch.RowsOf(l.executions, sub, id) == (if id == 0 then [ListedRow(c, c.q)] else [])
      && !OrphanMatch.ActiveCandidate(l.active, sub, id)
  {
    OrphanMatch.OneRow(ListedRow(c, c.q), Own2(c, Submitting, None), id);
    OrphanMatch.OneSum(ListedRow(c, c.q));
  }

  /** The executions are read, which are those of the first order. */
  function Searching2(c: Case, trade: string): State
  {
    Lost2(c, trade, Asked2(c, Hedging, 1), Own2(c, Submitting, None), map[])
      .(search := Some(Reading(1, Listed2(c).executions, true)))
  }

  function ReadFirst(c: Case): Event
  {
    Restart(ReadExecutions(1, Listed2(c).executions, true))
  }

  lemma ReadsFirst(c: Case, trade: string)
    requires 0.0 < c.q
    ensures Step(Lost2(c, trade, Asked2(c, Hedging, 1), Own2(c, Submitting, None), map[]), ReadFirst(c), Searching2(c, trade), true)
  {
    ExecutionsFirst(c, trade);
    hide ShowsExecutions, Credited, Worth, ListedRow;
  }

  lemma ExecutionsFirst(c: Case, trade: string)
    requires 0.0 < c.q
    ensures ShowsExecutions(Lost2(c, trade, Asked2(c, Hedging, 1), Own2(c, Submitting, None), map[]), 1, Listed2(c).executions, true)
  {
    var s := Lost2(c, trade, Asked2(c, Hedging, 1), Own2(c, Submitting, None), map[]);
    var rows, sub := Listed2(c).executions, Own2(c, Submitting, None);
    OrphanMatch.OneSum(ListedRow(c, c.q));
    OnlyFirst(c, 2);
    hide OrphanMatch.RowsOf, Credited, Worth;
    forall id | OrphanMatch.RowsOf(rows, sub, id) != []
      ensures Known(s, id) && KeyOf(s, id) == sub.key && Total(OrphanMatch.SizeOf, OrphanMatch.RowsOf(rows, sub, id)) <= ExecutedBy(s, id)
    {
      OnlyFirst(c, id);
    }
  }

  lemma ShowsFirst(c: Case, trade: string)
    requires 0.0 < c.q
    ensures Shows(Searching2(c, trade), 1, Listed2(c))
  {
    var s := Searching2(c, trade);
    var l, sub := Listed2(c), Own2(c, Submitting, None);
    OrphanMatch.OneSum(ListedRow(c, c.q));
    OnlyFirst(c, 2);
    hide OrphanMatch.Candidate, OrphanMatch.ActiveCandidate, OrphanMatch.RowsOf;
    forall id | OrphanMatch.Candidate(l.executions, l.active, l.details, sub, id)
      ensures Known(s, id) && KeyOf(s, id) == sub.key
        && Total(OrphanMatch.SizeOf, OrphanMatch.RowsOf(l.executions, sub, id)) <= ExecutedBy(s, id)
    {
      OnlyFirst(c, id);
    }
  }

  lemma DecidesFirst(c: Case)
    requires 0.0 < c.q
    ensures var l := Listed2(c);
      OrphanMatch.Decided(Answer(c, c.q), l.executions, l.active, l.details, Own2(c, Submitting, None), true)
  {
    var l, sub := Listed2(c), Own2(c, Submitting, None);
    OrphanMatch.OneSum(ListedRow(c, c.q));
    OnlyFirst(c, 0);
    hide OrphanMatch.Candidate, OrphanMatch.RowsOf;
    assert OrphanMatch.RowsOf(l.executions, sub, 0) == [ListedRow(c, c.q)];
    assert OrphanMatch.Summed([ListedRow(c, c.q)]) == OrphanMatch.Execution(c.q, Worth(c, c.q), 0.0);
    assert Answer(c, c.q).execution.value == OrphanMatch.Execution(c.q, Worth(c, c.q), 0.0);
    forall id | OrphanMatch.Candidate(l.executions, l.active, l.details, sub, id) ensures id == 0 {
      OnlyFirst(c, id);
    }
  }

  lemma FindsFirst(c: Case, trade: string)
    requires 0.0 < c.q
    ensures Step(Searching2(c, trade), Restart(Find(1, Listed2(c), Answer(c, c.q))),
                 Lost2(c, trade, Asked2(c, Hedging, 1), Own2(c, Submitting, None), map[1 := Answer(c, c.q)]), true)
  {
    ShowsFirst(c, trade);
    DecidesFirst(c);
    OnlyFirst(c, 2);
    hide Shows, OrphanMatch.Decided, Credited, Worth;
  }

  function Credited2(c: Case): Intent
  {
    Credit(Asked2(c, Hedging, 1), c.q, Rate(Worth(c, c.q), c.q), Rate(0.0, c.q), 0)
  }

  function Settled2(c: Case): Submission
  {
    Own2(c, Resolved, Some(0)).(filled := c.q, notional := Worth(c, c.q))
  }

  lemma BindsFirst(c: Case, trade: string)
    ensures Step(Lost2(c, trade, Asked2(c, Hedging, 1), Own2(c, Submitting, None), map[1 := Answer(c, c.q)]),
                 Restart(RecoverBind(1)),
                 Lost2(c, trade, Asked2(c, Hedging, 1), Own2(c, SubmissionStatus.Acked, Some(0)), map[1 := Answer(c, c.q)]), true)
  {
    hide Credited, Worth;
    assert [Own1(c), Own2(c, Submitting, None)][1 := Own2(c, SubmissionStatus.Acked, Some(0))]
        == [Own1(c), Own2(c, SubmissionStatus.Acked, Some(0))];
  }

  lemma SecondCredit(a: Intent, row: Intent, x: real, price: real, rate: real, id: nat)
    ensures Allocate([a, row], [1], x, price, rate, id) == [a, Credit(row, x, price, rate, id)]
  {
    hide Credit;
    var ids: seq<nat> := [1];
    assert ids[1..] == [];
    assert [a, row][1 := Credit(row, x, price, rate, id)] == [a, Credit(row, x, price, rate, id)];
  }

  lemma CreditsFirst(c: Case, trade: string)
    requires 0.0 < c.q
    ensures Step(Lost2(c, trade, Asked2(c, Hedging, 1), Own2(c, SubmissionStatus.Acked, Some(0)), map[1 := Answer(c, c.q)]),
                 Restart(RecoverRows(1)), Lost2(c, trade, Credited2(c), Settled2(c), map[1 := Answer(c, c.q)]), true)
  {
    var s := Lost2(c, trade, Asked2(c, Hedging, 1), Own2(c, SubmissionStatus.Acked, Some(0)), map[1 := Answer(c, c.q)]);
    var t := Lost2(c, trade, Credited2(c), Settled2(c), map[1 := Answer(c, c.q)]);
    SecondCredit(Hedged1(c), Asked2(c, Hedging, 1), c.q, Rate(Worth(c, c.q), c.q), Rate(0.0, c.q), 0);
    hide Credit, Rate, Allocate, Worth, Hedged1;
    assert [Own1(c), Own2(c, SubmissionStatus.Acked, Some(0))][1 := Settled2(c)] == [Own1(c), Settled2(c)];
    assert Finish(s.store, 1, c.q, Worth(c, c.q), 0.0, Some(0)) == Ok(t.store);
  }

  lemma Credited2Full(c: Case)
    requires 0.0 < c.q
    ensures Credited2(c).key == c.Key() && Credited2(c).qty == c.q && Credited2(c).filled == c.q
    ensures Credited2(c).status == Hedging && Credited2(c).orderId == Some(0)
  {
  }

  function Final(c: Case, trade: string): State
  {
    Lost2(c, trade, Credited2(c).(status := Hedged), Settled2(c), map[]).(recovering := false)
  }

  lemma EndsAgain(c: Case, trade: string)
    requires 0.0 < c.q
    ensures Leads(Lost2(c, trade, Credited2(c), Settled2(c), map[1 := Answer(c, c.q)]),
                  [Restart(RecoverSettle(1, 1)), Restart(Resume)], Final(c, trade), true)
  {
    var s := Lost2(c, trade, Credited2(c), Settled2(c), map[1 := Answer(c, c.q)]);
    var t := Lost2(c, trade, Credited2(c).(status := Hedged), Settled2(c), map[1 := Answer(c, c.q)]);
    Credited2Full(c);
    hide Credited2, Worth, Credited, Hedged1;
    assert s.store.intents[1 := Credited2(c).(status := Hedged)] == t.store.intents;
    assert Step(s, Restart(RecoverSettle(1, 1)), t, true);
    Resumes(t, Final(c, trade));
    hide Step, Leads;
    TwoSteps(s, Restart(RecoverSettle(1, 1)), t, Restart(Resume), Final(c, trade), true);
  }

  function FindAgainEvents(c: Case): seq<Event>
  {
    [ReadFirst(c), Restart(Find(1, Listed2(c), Answer(c, c.q))), Restart(RecoverBind(1)), Restart(RecoverRows(1))]
    + [Restart(RecoverSettle(1, 1)), Restart(Resume)]
  }

  lemma FindLeads(c: Case, trade: string)
    requires 0.0 < c.q
    ensures Leads(Lost2(c, trade, Asked2(c, Hedging, 1), Own2(c, Submitting, None), map[]), FindAgainEvents(c), Final(c, trade), true)
  {
    var found := map[1 := Answer(c, c.q)];
    var s := Lost2(c, trade, Asked2(c, Hedging, 1), Own2(c, Submitting, None), map[]);
    var t := Lost2(c, trade, Asked2(c, Hedging, 1), Own2(c, Submitting, None), found);
    var u := Lost2(c, trade, Asked2(c, Hedging, 1), Own2(c, SubmissionStatus.Acked, Some(0)), found);
    var w := Lost2(c, trade, Credited2(c), Settled2(c), found);
    ReadsFirst(c, trade);
    FindsFirst(c, trade);
    BindsFirst(c, trade);
    CreditsFirst(c, trade);
    EndsAgain(c, trade);
    hide Step, Leads, Lost2, Searching2, ReadFirst, Final, Credited2, Settled2, Own2, Asked2, Listed2, Answer;
    FourSteps(s, ReadFirst(c), Searching2(c, trade), Restart(Find(1, Listed2(c), Answer(c, c.q))), t, Restart(RecoverBind(1)), u, Restart(RecoverRows(1)), w, true);
    Then(s, [ReadFirst(c), Restart(Find(1, Listed2(c), Answer(c, c.q))), Restart(RecoverBind(1)), Restart(RecoverRows(1))], w,
         [Restart(RecoverSettle(1, 1)), Restart(Resume)], Final(c, trade), true);
  }

  // ----- the run -----

  function Run(c: Case, trade: string): seq<Event>
  {
    FirstEvents(c) + ([Client(Fill(SecondFill(c, trade)))] + (SubmitEvents(1, 1, SOK, 1) + (LOSE_AGAIN + FindAgainEvents(c))))
  }

  lemma RunLeads(c: Case, trade: string)
    requires 0.0 < c.q && 1 <= c.limit && trade != c.trade
    ensures Leads(Init(c.limit), Run(c, trade), Final(c, trade), true)
  {
    var working := Working2(c, trade, InFlight, Sending(1));
    var lost := Lost2(c, trade, Asked2(c, Hedging, 1), Own2(c, Submitting, None), map[]);
    FirstLeads(c);
    FillsAgain(c, trade);
    SubmitsAgain(c, trade);
    LosesAgain(c, trade);
    FindLeads(c, trade);
    hide Step, Leads, Lost2, Working2, Final, First, Filled2, FirstEvents, FindAgainEvents, SubmitEvents, LOSE_AGAIN;
    OneStep(First(c), Client(Fill(SecondFill(c, trade))), Filled2(c, trade), true);
    Then(working, LOSE_AGAIN, lost, FindAgainEvents(c), Final(c, trade), true);
    Then(Filled2(c, trade), SubmitEvents(1, 1, SOK, 1), working, LOSE_AGAIN + FindAgainEvents(c), Final(c, trade), true);
    Then(First(c), [Client(Fill(SecondFill(c, trade)))], Filled2(c, trade),
         SubmitEvents(1, 1, SOK, 1) + (LOSE_AGAIN + FindAgainEvents(c)), Final(c, trade), true);
    Then(Init(c.limit), FirstEvents(c), First(c),
         [Client(Fill(SecondFill(c, trade)))] + (SubmitEvents(1, 1, SOK, 1) + (LOSE_AGAIN + FindAgainEvents(c))), Final(c, trade), true);
  }

  /** The intents are credited 2q in a safe run in which the account executed q, all on one order bound twice. */
  lemma CreditedTwice(c: Case, trade: string)
    requires 0.0 < c.q && 1 <= c.limit && trade != c.trade
    ensures Feasible(Init(c.limit), Run(c, trade)) && SafeRun(Init(c.limit), Run(c, trade))
    ensures !CheckedRun(Init(c.limit), Run(c, trade))
    ensures var s := After(Init(c.limit), Run(c, trade));
      && |s.orders| == |s.store.submissions| && s.outside == []
      && Total(FilledAt(c.Key()), s.store.intents) == 2.0 * c.q
      && Total(ExecutedAt(c.Key()), Pairs(s)) == c.q
  {
    var s := Final(c, trade);
    RunLeads(c, trade);
    FinalTotals(c, trade);
    if CheckedRun(Init(c.limit), Run(c, trade)) {
      NeverOverCredited(c.limit, Run(c, trade), c.Key());
    }
  }

  lemma FinalTotals(c: Case, trade: string)
    requires 0.0 < c.q
    ensures var s := Final(c, trade);
      && |s.orders| == |s.store.submissions| && s.outside == []
      && Total(FilledAt(c.Key()), s.store.intents) == 2.0 * c.q
      && Total(ExecutedAt(c.Key()), Pairs(s)) == c.q
      && Total(StrangerAt(c.Key()), s.outside) == 0.0
  {
    var s := Final(c, trade);
    CreditedPartly(c, c.q);
    Credited2Full(c);
    hide Credited, Credited2, Worth;
    assert s.store.intents[1..][1..] == [];
    assert Total(FilledAt(c.Key()), s.store.intents[1..]) == c.q;
    assert Pairs(s)[1..][1..] == [];
    assert Total(ExecutedAt(c.Key()), Pairs(s)[1..]) == 0.0;
  }
}
