/**
 * Deciding which exchange order, if any, belongs to a submission without a known order id
 * (hedge_worker.py:828-943), on the histories described in OrphanSearch.
 */
module OrphanMatch {
  import opened Domain
  import opened Sums
  import opened Store
  import opened OrphanSearch

  datatype Execution = Execution(filled: real, notional: real, fee: real)

  datatype Search = Refusal | NoOrder | Match(orderId: nat, execution: Option<Execution>)

  /** An execution that could belong to the submission, whatever its order. */
  predicate Relevant(row: Row, sub: Submission)
  {
    row.side == sub.key.side && InWindow(row.timestamp, WindowOf(sub.submittedAt))
  }

  /** The executions listed for one order, oldest listing position first. */
  function RowsOf(rows: seq<Row>, sub: Submission, id: nat): (own: seq<Row>)
    ensures forall row :: row in own ==> row.orderId == id && Relevant(row, sub)
  {
    if rows == [] then []
    else
      var last := rows[|rows| - 1];
      RowsOf(rows[..|rows| - 1], sub, id) + if last.orderId == id && Relevant(last, sub) then [last] else []
  }

  lemma {:induction false} RowsFrom(rows: seq<Row>, sub: Submission, id: nat)
    ensures forall row :: row in RowsOf(rows, sub, id) ==> row in rows
  {
    if rows != [] {
      RowsFrom(rows[..|rows| - 1], sub, id);
    }
  }

  const SizeOf := (row: Row) => row.size
  const NotionalOf := (row: Row) => row.size * row.price
  const FeeOf := (row: Row) => row.fee

  function Summed(rows: seq<Row>): Execution
  {
    Execution(Total(SizeOf, rows), Total(NotionalOf, rows), Total(FeeOf, rows))
  }

  /** A row of the book that could be the submission's order (hedge_worker.py:874-886). */
  predicate OnBook(row: Row, sub: Submission)
  {
    && InWindow(row.timestamp, WindowOf(sub.submittedAt))
    && row.side == sub.key.side && row.size == sub.qty && row.kind == Some(sub.kind)
  }

  predicate DetailFits(details: map<nat, Detail>, id: nat, sub: Submission)
  {
    && id in details
    && InWindow(details[id].timestamp, WindowOf(sub.submittedAt))
    && details[id].symbol == sub.key.symbol && details[id].side == sub.key.side
    && details[id].size == sub.qty && details[id].kind == Some(sub.kind)
  }

  predicate ActiveCandidate(active: seq<Row>, sub: Submission, id: nat)
  {
    exists k :: 0 <= k < |active| && active[k].orderId == id && OnBook(active[k], sub)
  }

  predicate ExecutedCandidate(executions: seq<Row>, details: map<nat, Detail>, sub: Submission, id: nat)
  {
    && RowsOf(executions, sub, id) != []
    && Total(SizeOf, RowsOf(executions, sub, id)) <= sub.qty
    && DetailFits(details, id, sub)
  }

  predicate Candidate(executions: seq<Row>, active: seq<Row>, details: map<nat, Detail>, sub: Submission, id: nat)
  {
    ActiveCandidate(active, sub, id) || ExecutedCandidate(executions, details, sub, id)
  }

  /** The answer for the rows actually read; `covered` says both listings reached the window start. */
  ghost predicate Decided(
    r: Search, executions: seq<Row>, active: seq<Row>, details: map<nat, Detail>, sub: Submission, covered: bool)
  {
    match r
    case Match(id, execution) =>
      && Candidate(executions, active, details, sub, id)
      && (forall other :: Candidate(executions, active, details, sub, other) ==> other == id)
      && execution == (if RowsOf(executions, sub, id) == [] then None else Some(Summed(RowsOf(executions, sub, id))))
    case NoOrder => covered && forall id :: !Candidate(executions, active, details, sub, id)
    case Refusal =>
      if exists id :: Candidate(executions, active, details, sub, id)
      then exists a, b :: Candidate(executions, active, details, sub, a) && Candidate(executions, active, details, sub, b) && a != b
      else !covered
  }

  // ----- the search itself -----

  /** hedge_worker.py:863-872. */
  method Group(executions: seq<Row>, sub: Submission) returns (grouped: map<nat, seq<Row>>)
    ensures forall id :: id in grouped <==> RowsOf(executions, sub, id) != []
    ensures forall id :: id in grouped ==> grouped[id] == RowsOf(executions, sub, id)
  {
    grouped := map[];
    for k := 0 to |executions|
      invariant forall id :: id in grouped <==> RowsOf(executions[..k], sub, id) != []
      invariant forall id :: id in grouped ==> grouped[id] == RowsOf(executions[..k], sub, id)
    {
      var row := executions[k];
      assert executions[..k + 1][..k] == executions[..k];
      if Relevant(row, sub) {
        grouped := grouped[row.orderId := (if row.orderId in grouped then grouped[row.orderId] else []) + [row]];
      }
    }
    assert executions[..|executions|] == executions;
  }

  /** hedge_worker.py:873-889. */
  method ActiveCandidates(active: seq<Row>, sub: Submission) returns (ids: set<nat>)
    ensures forall id :: id in ids <==> ActiveCandidate(active, sub, id)
  {
    ids := {};
    for k := 0 to |active|
      invariant forall id :: id in ids <==> exists j :: 0 <= j < k && active[j].orderId == id && OnBook(active[j], sub)
    {
      if OnBook(active[k], sub) {
        ids := ids + {active[k].orderId};
      }
    }
  }

  /** hedge_worker.py:890-896; the order in which groups are looked up does not matter. */
  method ExecutedCandidates(grouped: map<nat, seq<Row>>, executions: seq<Row>, details: map<nat, Detail>, sub: Submission)
      returns (ids: set<nat>)
    requires forall id :: id in grouped <==> RowsOf(executions, sub, id) != []
    requires forall id :: id in grouped ==> grouped[id] == RowsOf(executions, sub, id)
    ensures forall id :: id in ids <==> ExecutedCandidate(executions, details, sub, id)
  {
    ids := {};
    var rest := grouped.Keys;
    while rest != {}
      invariant rest <= grouped.Keys
      invariant forall id :: id in ids <==> id !in rest && ExecutedCandidate(executions, details, sub, id)
      decreases |rest|
    {
      var id :| id in rest;
      rest := rest - {id};
      var total := 0.0;
      for k := 0 to |grouped[id]|
        invariant total == Total(SizeOf, grouped[id][..k])
      {
        TotalAppend(SizeOf, grouped[id][..k], grouped[id][k]);
        assert grouped[id][..k + 1] == grouped[id][..k] + [grouped[id][k]];
        total := total + grouped[id][k].size;
      }
      assert grouped[id][..|grouped[id]|] == grouped[id];
      if total <= sub.qty && DetailFits(details, id, sub) {
        ids := ids + {id};
      }
    }
  }

  lemma TwoMembers(s: set<nat>)
    requires |s| > 1
    ensures exists a, b :: a in s && b in s && a != b
  {
    var a :| a in s;
    assert |s - {a}| >= 1;
    var b :| b in s - {a};
  }

  /** hedge_worker.py:897-922. */
  method Decide(executions: seq<Row>, active: seq<Row>, details: map<nat, Detail>, sub: Submission, covered: bool)
      returns (r: Search)
    ensures Decided(r, executions, active, details, sub, covered)
  {
    var grouped := Group(executions, sub);
    var onBook := ActiveCandidates(active, sub);
    var executed := ExecutedCandidates(grouped, executions, details, sub);
    var candidates := executed + onBook;
    assert forall id :: id in candidates <==> Candidate(executions, active, details, sub, id);
    if |candidates| > 1 {
      TwoMembers(candidates);
      return Refusal;
    }
    if candidates == {} {
      return if covered then NoOrder else Refusal;
    }
    var id :| id in candidates;
    assert candidates == {id} by {
      assert |candidates - {id}| == 0;
    }
    r := Match(id, if id in grouped then Some(Summed(grouped[id])) else None);
  }

  /**
   * What the exchange shows of an accepted order `id`: still on the book, or executed in part.
   * The order and its executions are stamped inside the window, strictly after its start.
   */
  ghost predicate Visible(executions: seq<Row>, active: seq<Row>, details: map<nat, Detail>, sub: Submission, id: nat)
  {
    || (exists k :: 0 <= k < |active| && active[k].orderId == id && OnBook(active[k], sub)
          && active[k].timestamp.value > WindowOf(sub.submittedAt).lower)
    || (&& OwnRows(executions, sub, id) && DetailFits(details, id, sub)
        && exists k :: 0 <= k < |executions| && executions[k].orderId == id)
  }

  /** Every execution of the order is the submission's, inside the window, and within its quantity. */
  ghost predicate OwnRows(executions: seq<Row>, sub: Submission, id: nat)
  {
    && (forall k :: 0 <= k < |executions| && executions[k].orderId == id ==>
          Relevant(executions[k], sub) && executions[k].timestamp.value > WindowOf(sub.submittedAt).lower)
    && (forall k :: 0 <= k < |executions| ==> executions[k].size >= 0.0)
    && Total(SizeOf, RowsOf(executions, sub, id)) <= sub.qty
  }

  lemma {:induction false} RowsOfKept(rows: seq<Row>, sub: Submission, id: nat)
    ensures RowsOf(Keep(rows, WindowOf(sub.submittedAt)), sub, id) == RowsOf(rows, sub, id)
  {
    if rows != [] {
      var w := WindowOf(sub.submittedAt);
      var front, last := rows[..|rows| - 1], rows[|rows| - 1];
      RowsOfKept(front, sub, id);
      if InWindow(last.timestamp, w) {
        assert Keep(rows, w) == Keep(front, w) + [last];
        assert Keep(rows, w)[..|Keep(rows, w)| - 1] == Keep(front, w);
      } else {
        assert Keep(rows, w) == Keep(front, w);
      }
    }
  }

  /** Rows beyond the part read are too old to be the order's own. */
  lemma {:induction false} UnreadRows(history: seq<Row>, read: nat, sub: Submission, id: nat)
    requires read <= |history| && NothingNewer(history, read, WindowOf(sub.submittedAt).lower)
    requires forall k :: 0 <= k < |history| && history[k].orderId == id ==>
               Relevant(history[k], sub) && history[k].timestamp.value > WindowOf(sub.submittedAt).lower
    ensures RowsOf(history, sub, id) == RowsOf(history[..read], sub, id)
  {
    if read == |history| {
      assert history[..read] == history;
    } else {
      var front := history[..|history| - 1];
      assert history[|history| - 1].orderId != id;
      assert front[..read] == history[..read];
      UnreadRows(front, read, sub, id);
    }
  }

  lemma {:induction false} HasRows(rows: seq<Row>, sub: Submission, id: nat, k: nat)
    requires k < |rows| && rows[k].orderId == id && Relevant(rows[k], sub)
    ensures RowsOf(rows, sub, id) != []
  {
    if k < |rows| - 1 {
      assert rows[..|rows| - 1][k] == rows[k];
      HasRows(rows[..|rows| - 1], sub, id, k);
    }
  }

  /** A visible order is a candidate once both listings were read back to the window start. */
  lemma VisibleIsCandidate(executions: seq<Row>, active: seq<Row>, details: map<nat, Detail>, sub: Submission, id: nat,
                           read: nat, listed: nat)
    requires read <= |executions| && NothingNewer(executions, read, WindowOf(sub.submittedAt).lower)
    requires listed <= |active| && NothingNewer(active, listed, WindowOf(sub.submittedAt).lower)
    requires Visible(executions, active, details, sub, id)
    ensures Candidate(Keep(executions[..read], WindowOf(sub.submittedAt)), active[..listed], details, sub, id)
  {
    if k :| 0 <= k < |active| && active[k].orderId == id && OnBook(active[k], sub)
            && active[k].timestamp.value > WindowOf(sub.submittedAt).lower {
      assert k < listed;
      assert active[..listed][k] == active[k];
    } else {
      var k :| 0 <= k < |executions| && executions[k].orderId == id;
      HasRows(executions, sub, id, k);
      UnreadRows(executions, read, sub, id);
      RowsOfKept(executions[..read], sub, id);
    }
  }

  /** The listings do not change while they are paged, and list newest first. */
  ghost predicate Steady(executions: seq<Row>, active: seq<Row>)
  {
    NewestFirst(executions) && NewestFirst(active)
  }

  /**
   * hedge_worker.py:828-943. On steady listings: an answer of "no order" proves that no accepted order
   * of the submission is on the book or has executed; an answer with an id is the submission's own
   * order whenever that order is visible at all. The sums returned with an id miss nothing that the
   * listing shows of it, provided the executions were read back to the window start.
   */
  method FindOrphan(executions: seq<Row>, active: seq<Row>, details: map<nat, Detail>, sub: Submission, now: int)
      returns (r: Search, ghost covered: bool, ghost read: nat, ghost listed: nat)
    ensures now - sub.submittedAt > RETENTION ==> r == Refusal
    ensures read <= |executions| && listed <= |active|
    ensures now - sub.submittedAt <= RETENTION ==>
              Decided(r, Keep(executions[..read], WindowOf(sub.submittedAt)), active[..listed], details, sub, covered)
    ensures r == NoOrder && Steady(executions, active) ==>
              forall id :: !Visible(executions, active, details, sub, id)
    ensures r.Match? && covered && Steady(executions, active) ==>
              forall id :: Visible(executions, active, details, sub, id) ==> id == r.orderId
    ensures r.Match? && covered && Steady(executions, active) && OwnRows(executions, sub, r.orderId) ==>
              r.execution == (if RowsOf(executions, sub, r.orderId) == [] then None
                              else Some(Summed(RowsOf(executions, sub, r.orderId))))
    ensures covered && Steady(executions, active) ==>
              && NothingNewer(executions, read, WindowOf(sub.submittedAt).lower)
              && NothingNewer(active, listed, WindowOf(sub.submittedAt).lower)
    ensures r == NoOrder ==> covered
  {
    covered, read, listed := false, 0, 0;
    if now - sub.submittedAt > RETENTION {
      return Refusal, false, 0, 0;
    }
    var w := WindowOf(sub.submittedAt);
    var matches, executionsCovered;
    matches, executionsCovered, read := ExecutionsByWindow(executions, w, PAGE, MAX_PAGES);
    var rows, activeCovered := PagedRows(active, w.lower);
    r := Decide(matches, rows, details, sub, executionsCovered && activeCovered);
    covered, listed := executionsCovered && activeCovered, |rows|;
    assert rows == active[..listed];
    if covered && Steady(executions, active) {
      forall id | Visible(executions, active, details, sub, id)
        ensures Candidate(matches, rows, details, sub, id)
      {
        VisibleIsCandidate(executions, active, details, sub, id, read, |rows|);
      }
      if r.Match? && OwnRows(executions, sub, r.orderId) {
        UnreadRows(executions, read, sub, r.orderId);
        RowsOfKept(executions[..read], sub, r.orderId);
      }
    }
  }

  // ----- where the answer is wrong -----

  /**
   * The candidates are compared with this submission only, never with order ids other submissions
   * already own. If another order of the account has the same symbol, side, quantity and type and is
   * stamped in the window while the submission's own order was never accepted, the other order is
   * the only possible answer.
   */
  lemma ForeignOrderTaken(executions: seq<Row>, active: seq<Row>, details: map<nat, Detail>, sub: Submission,
                          foreign: nat, covered: bool, r: Search)
    requires Candidate(executions, active, details, sub, foreign)
    requires forall other :: Candidate(executions, active, details, sub, other) ==> other == foreign
    requires Decided(r, executions, active, details, sub, covered)
    ensures r.Match? && r.orderId == foreign
  {
    if r.Match? {
      assert Candidate(executions, active, details, sub, r.orderId);
    }
  }

  function LostHedge(symbol: string): Submission
  {
    Submission(Key(symbol, Sell), 2.0, SOK, Submitting, [0], 1000, None, 0.0, 0.0, 0.0)
  }

  lemma OneRow(row: Row, sub: Submission, id: nat)
    requires Relevant(row, sub)
    ensures RowsOf([row], sub, id) == if row.orderId == id then [row] else []
  {
    assert [row][..0] == [];
  }

  /** Order 7 finished a hedge of the same size a minute earlier; the lost submission never reached the exchange. */
  lemma ForeignExample(symbol: string, row: Row, details: map<nat, Detail>, r: Search)
    requires row == Row(Some(1010), 7, Sell, 2.0, 100.0, 0.0, None)
    requires details == map[7 := Detail(Some(1000), symbol, Sell, 2.0, Some(SOK))]
    requires Decided(r, [row], [], details, LostHedge(symbol), true)
    ensures r == Match(7, Some(Execution(2.0, 200.0, 0.0)))
  {
    var sub := LostHedge(symbol);
    OneRow(row, sub, 7);
    OneSum(row);
    assert ExecutedCandidate([row], details, sub, 7);
    forall other | Candidate([row], [], details, sub, other) ensures other == 7 {
      OneRow(row, sub, other);
    }
    ForeignOrderTaken([row], [], details, sub, 7, true, r);
  }

  lemma OneSum(row: Row)
    ensures Summed([row]) == Execution(row.size, row.size * row.price, row.fee) && Total(SizeOf, [row]) == row.size
  {
    assert [row][1..] == [];
    assert Total(SizeOf, []) == Total(NotionalOf, []) == Total(FeeOf, []) == 0.0;
    assert Total(SizeOf, [row]) == SizeOf(row) && Total(NotionalOf, [row]) == NotionalOf(row) && Total(FeeOf, [row]) == FeeOf(row);
  }

  /**
   * An order that waits on the book and executes after the window is invisible once it has left the
   * book: its executions are stamped too late, so the search answers "no order".
   */
  lemma LateExecutionMissed(symbol: string, row: Row, details: map<nat, Detail>, r: Search)
    requires row == Row(Some(1301), 8, Sell, 2.0, 100.0, 0.0, None)
    requires details == map[8 := Detail(Some(1000), symbol, Sell, 2.0, Some(SOK))]
    requires Decided(r, Keep([row], WindowOf(1000)), [], details, LostHedge(symbol), true)
    ensures r == NoOrder
  {
    assert [row][..0] == [];
    assert Keep([row], WindowOf(1000)) == [];
    assert forall id :: RowsOf([], LostHedge(symbol), id) == [];
  }
}
