/** What can still happen to a settled submission: when its record is final, and when it is not. */
module HedgeFutures {
  import opened Domain
  import opened Store
  import opened Ledger
  import opened HedgeProtocol
  import opened HedgeInvariant
  import opened HedgeVenue
  import OrphanMatch

  predicate SettledAt(s: State, k: nat)
  {
    SubAt(s, k) && !s.store.submissions[k].Unresolved()
  }

  /** A settled row never changes, and its order changes only on the exchange. */
  predicate Kept(s: State, t: State, k: nat)
  {
    SettledAt(s, k) && SettledAt(t, k) && t.store.submissions[k] == s.store.submissions[k] && t.orders[k] == s.orders[k]
  }

  lemma TaskKeepsRow(s: State, task: nat, step: TaskStep, k: nat)
    requires Inv(s) && SettledAt(s, k) && task in s.groups && TaskEnabled(s, s.groups[task], step)
    ensures Kept(s, DoTask(s, task, step), k)
  {
    assert GroupOk(s.store, s.groups[task]);
    hide StoreOk, ForeignKeys;
  }

  lemma RestartKeepsRow(s: State, step: RestartStep, k: nat)
    requires Inv(s) && SettledAt(s, k) && (step.Crash? || s.recovering) && RestartEnabled(s, step)
    ensures Kept(s, DoRestart(s, step), k)
  {
    hide StoreOk, Shows, OrphanMatch.Decided;
  }

  lemma StepKeepsRow(s: State, e: Event, k: nat)
    requires Inv(s) && SettledAt(s, k) && Enabled(s, e) && !(e.Venue? && e.order == k)
    ensures Kept(s, Do(s, e), k)
  {
    match e
    case Task(task, step) => TaskKeepsRow(s, task, step, k);
    case Restart(step) => RestartKeepsRow(s, step, k);
    case _ =>
  }

  /** What a settled order has executed, once it can execute no more, is final. */
  lemma {:induction false} SpentStays(s: State, k: nat, events: seq<Event>)
    requires Inv(s) && SettledAt(s, k) && Spent(s.orders[k], s.store.submissions[k].qty) && Feasible(s, events)
    ensures SettledAt(After(s, events), k)
    ensures After(s, events).store.submissions[k] == s.store.submissions[k]
    ensures After(s, events).orders[k].Quantity() == s.orders[k].Quantity()
    decreases |events|
  {
    if events != [] {
      var t := Do(s, events[0]);
      StepInv(s, events[0]);
      if !(events[0].Venue? && events[0].order == k) {
        StepKeepsRow(s, events[0], k);
      }
      SpentStays(t, k, events[1..]);
    }
  }

  /** The venue events by which an order that can still execute is completely executed. */
  function Completion(order: XOrder, qty: real, k: nat): seq<Event>
  {
    if order == InFlight then [Venue(k, Accept(true)), Venue(k, Execute(qty, true))]
    else [Venue(k, Execute(qty - order.Quantity(), true))]
  }

  /** An order that is not spent can be executed to its full quantity, with every answer complete. */
  lemma UnspentCompletes(s: State, k: nat)
    requires Inv(s) && SubAt(s, k) && !Spent(s.orders[k], s.store.submissions[k].qty)
    ensures var events := Completion(s.orders[k], s.store.submissions[k].qty, k);
      && Feasible(s, events) && SafeRun(s, events) && SubAt(After(s, events), k)
      && After(s, events).orders[k].Quantity() == s.store.submissions[k].qty
  {
    SubmissionQty(s, k);
    var qty := s.store.submissions[k].qty;
    var events := Completion(s.orders[k], qty, k);
    var t := Do(s, events[0]);
    if s.orders[k] == InFlight {
      assert events[1..] == [Venue(k, Execute(qty, true))];
      var rest := events[1..];
      var u := Do(t, rest[0]);
      assert rest[1..] == [] && After(u, rest[1..]) == u;
      assert After(t, rest) == u && u.orders[k].Quantity() == qty;
    } else {
      assert events[1..] == [];
    }
  }

  ghost predicate AlwaysAs(s: State, k: nat, events: seq<Event>)
    requires Feasible(s, events) && SubAt(s, k)
  {
    var t := After(s, events);
    SubAt(t, k) && t.orders[k].Quantity() == s.store.submissions[k].filled
  }

  /**
   * What a settled submission was credited is what its order executes in every future if and only if
   * the order can execute nothing more and the credit is all it executed. Complete answers in the
   * future do not help: the same condition decides for those futures alone.
   */
  lemma CreditIsFinalIff(s: State, k: nat)
    requires Inv(s) && SettledAt(s, k)
    ensures (forall events :: Feasible(s, events) ==> AlwaysAs(s, k, events))
       <==> Spent(s.orders[k], s.store.submissions[k].qty) && s.orders[k].Quantity() == s.store.submissions[k].filled
    ensures (forall events :: Feasible(s, events) && SafeRun(s, events) ==> AlwaysAs(s, k, events))
       <==> Spent(s.orders[k], s.store.submissions[k].qty) && s.orders[k].Quantity() == s.store.submissions[k].filled
  {
    var sub, order := s.store.submissions[k], s.orders[k];
    if Spent(order, sub.qty) && order.Quantity() == sub.filled {
      forall events | Feasible(s, events) ensures AlwaysAs(s, k, events) {
        SpentStays(s, k, events);
      }
    } else {
      assert Feasible(s, []) && SafeRun(s, []) && After(s, []) == s;
      if AlwaysAs(s, k, []) {
        UnspentCompletes(s, k);
        var events := Completion(order, sub.qty, k);
        assert Feasible(s, events) && SafeRun(s, events) && !AlwaysAs(s, k, events) by {
          UnspentPartly(s, k);
        }
      }
    }
  }

  /** An order that can still execute has not executed its whole quantity. */
  lemma UnspentPartly(s: State, k: nat)
    requires Inv(s) && SubAt(s, k) && !Spent(s.orders[k], s.store.submissions[k].qty)
    ensures s.orders[k].Quantity() < s.store.submissions[k].qty
  {
    SubmissionQty(s, k);
  }
}
