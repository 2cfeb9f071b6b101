/**
 * From the search itself to the protocol: what the search reads of true histories, first of the
 * executions and later of the book, is what the protocol's two search steps take of the submission's
 * own order.
 */
module HedgeSearch {
  import opened Domain
  import opened Sums
  import opened Store
  import opened HedgeProtocol
  import opened OrphanSearch
  import M = OrphanMatch

  /**
   * The executions the exchange holds when they are read are true of an order: those inside the window,
   * stamped after its start, are the ones the order has had so far.
   */
  ghost predicate TrueExecutions(order: XOrder, sub: Submission, id: nat, executions: seq<Row>)
  {
    var lower := WindowOf(sub.submittedAt).lower;
    && (forall k :: 0 <= k < |executions| ==> executions[k].size > 0.0)
    && (forall k :: 0 <= k < |executions| && executions[k].orderId == id && M.Relevant(executions[k], sub) ==>
          executions[k].timestamp.value > lower)
    && Total(M.SizeOf, M.RowsOf(executions, sub, id)) == order.Seen()
  }

  /** The book and the records are true of an order: it is on the book while it can still execute. */
  ghost predicate TrueBook(order: XOrder, sub: Submission, id: nat, active: seq<Row>, details: map<nat, Detail>)
  {
    var lower := WindowOf(sub.submittedAt).lower;
    && (order.Accepted() ==> (M.DetailFits(details, id, sub) <==> order.stamped))
    && (forall k :: 0 <= k < |active| && active[k].orderId == id && M.OnBook(active[k], sub) ==>
          order.Live? && order.stamped && active[k].timestamp.value > lower)
    && (order.Live? && order.executed < sub.qty && order.stamped ==> M.ActiveCandidate(active, sub, id))
  }

  /** What can happen to an order between two requests: it executes, or closes, or both. */
  predicate Later(first: XOrder, second: XOrder)
  {
    && (first.Accepted() ==> second.Accepted() && second.stamped == first.stamped)
    && first.Seen() <= second.Seen()
  }

  /** Of an order's relevant rows the part read is a prefix: it has no more of them, and they add up to no more. */
  lemma {:induction false} ReadTotal(history: seq<Row>, read: nat, sub: Submission, id: nat)
    requires read <= |history| && forall k :: 0 <= k < |history| ==> history[k].size > 0.0
    ensures Total(M.SizeOf, M.RowsOf(history[..read], sub, id)) <= Total(M.SizeOf, M.RowsOf(history, sub, id))
    ensures M.RowsOf(history[..read], sub, id) != [] ==> M.RowsOf(history, sub, id) != []
  {
    if read == |history| {
      assert history[..read] == history;
    } else {
      var front, last := history[..|history| - 1], history[|history| - 1];
      assert front[..read] == history[..read];
      ReadTotal(front, read, sub, id);
      if last.orderId == id && M.Relevant(last, sub) {
        assert M.SizeOf(last) == last.size > 0.0;
        TotalAppend(M.SizeOf, M.RowsOf(front, sub, id), last);
      } else {
        assert M.RowsOf(history, sub, id) == M.RowsOf(front, sub, id);
      }
    }
  }

  /** Rows beyond the part read are too old to be relevant. */
  lemma {:induction false} ReadAll(history: seq<Row>, read: nat, sub: Submission, id: nat)
    requires read <= |history| && NothingNewer(history, read, WindowOf(sub.submittedAt).lower)
    requires forall k :: 0 <= k < |history| && history[k].orderId == id && M.Relevant(history[k], sub) ==>
               history[k].timestamp.value > WindowOf(sub.submittedAt).lower
    ensures M.RowsOf(history[..read], sub, id) == M.RowsOf(history, sub, id)
  {
    if read == |history| {
      assert history[..read] == history;
    } else {
      var front := history[..|history| - 1];
      assert front[..read] == history[..read];
      assert !(history[|history| - 1].orderId == id && M.Relevant(history[|history| - 1], sub));
      ReadAll(front, read, sub, id);
    }
  }

  /** The listing that a search of these histories reads. */
  function ReadListing(
    sub: Submission, executions: seq<Row>, active: seq<Row>, details: map<nat, Detail>,
    read: nat, listed: nat, covered: bool): Listing
    requires read <= |executions| && listed <= |active|
  {
    Listing(Keep(executions[..read], WindowOf(sub.submittedAt)), active[..listed], details, covered)
  }

  lemma ReadOnBook(sub: Submission, id: nat, active: seq<Row>, listed: nat)
    requires listed <= |active|
    ensures M.ActiveCandidate(active[..listed], sub, id) ==> M.ActiveCandidate(active, sub, id)
    ensures NothingNewer(active, listed, WindowOf(sub.submittedAt).lower)
         && (forall k :: 0 <= k < |active| && active[k].orderId == id && M.OnBook(active[k], sub) ==>
               active[k].timestamp.value > WindowOf(sub.submittedAt).lower)
         ==> (M.ActiveCandidate(active[..listed], sub, id) <==> M.ActiveCandidate(active, sub, id))
  {
    if k :| 0 <= k < |active| && active[k].orderId == id && M.OnBook(active[k], sub) && k < listed {
      assert active[..listed][k] == active[k];
    }
    if k :| 0 <= k < listed && active[..listed][k].orderId == id && M.OnBook(active[..listed][k], sub) {
      assert active[k] == active[..listed][k];
    }
  }

  /** Whatever a search reads of true executions shows the own order as the first search step assumes. */
  lemma SearchShowsRows(order: XOrder, sub: Submission, id: nat, executions: seq<Row>, read: nat, covered: bool)
    requires TrueExecutions(order, sub, id, executions) && read <= |executions|
    requires covered ==> NothingNewer(executions, read, WindowOf(sub.submittedAt).lower)
    ensures ShowsRows(order, sub, id, Keep(executions[..read], WindowOf(sub.submittedAt)), covered)
  {
    M.RowsOfKept(executions[..read], sub, id);
    ReadTotal(executions, read, sub, id);
    if covered {
      ReadAll(executions, read, sub, id);
    }
    hide M.RowsOf, Keep;
  }

  /**
   * Executions that were true of the order as it was then, and a book that is true of it as it is now,
   * show the own order as the second search step assumes, whatever happened in between.
   */
  lemma SearchShowsOwn(
      first: XOrder, second: XOrder, sub: Submission, id: nat, executions: seq<Row>, active: seq<Row>, details: map<nat, Detail>,
      read: nat, listed: nat, covered: bool)
    requires TrueExecutions(first, sub, id, executions) && TrueBook(second, sub, id, active, details) && Later(first, second)
    requires read <= |executions| && listed <= |active|
    requires covered ==> NothingNewer(active, listed, WindowOf(sub.submittedAt).lower)
    ensures ShowsOwn(second, sub, id, ReadListing(sub, executions, active, details, read, listed, covered))
  {
    M.RowsOfKept(executions[..read], sub, id);
    ReadTotal(executions, read, sub, id);
    ReadOnBook(sub, id, active, listed);
    PositiveRows(executions, sub, id);
    hide M.RowsOf, M.DetailFits, M.OnBook, Keep;
  }

  /** An order with executions listed has executed. */
  lemma {:induction false} PositiveRows(executions: seq<Row>, sub: Submission, id: nat)
    requires forall k :: 0 <= k < |executions| ==> executions[k].size > 0.0
    ensures Total(M.SizeOf, M.RowsOf(executions, sub, id)) >= 0.0
    ensures M.RowsOf(executions, sub, id) != [] ==> Total(M.SizeOf, M.RowsOf(executions, sub, id)) > 0.0
  {
    if executions != [] {
      var front, last := executions[..|executions| - 1], executions[|executions| - 1];
      PositiveRows(front, sub, id);
      if last.orderId == id && M.Relevant(last, sub) {
        assert M.SizeOf(last) == last.size > 0.0;
        TotalAppend(M.SizeOf, M.RowsOf(front, sub, id), last);
      } else {
        assert M.RowsOf(executions, sub, id) == M.RowsOf(front, sub, id);
      }
    }
  }

  /**
   * The search of an order nobody knows the id of: the executions are read while the order is as
   * `first`, the book once it is as `second`. What it reads and answers are those of a `ReadExecutions`
   * step and a `Find` step, as far as the submission's own order is concerned; if the order did not
   * execute in between and the listings were covered, the executions read are all it has executed.
   */
  method Search(
      ghost first: XOrder, ghost second: XOrder, id: nat,
      executions: seq<Row>, active: seq<Row>, details: map<nat, Detail>, sub: Submission, now: int)
      returns (answer: M.Search, ghost listing: Listing)
    requires TrueExecutions(first, sub, id, executions) && TrueBook(second, sub, id, active, details) && Later(first, second)
    requires M.Steady(executions, active) && now - sub.submittedAt <= RETENTION
    ensures ShowsRows(first, sub, id, listing.executions, listing.covered) && ShowsOwn(second, sub, id, listing)
    ensures M.Decided(answer, listing.executions, listing.active, listing.details, sub, listing.covered)
    ensures listing.covered ==>
              (Total(M.SizeOf, M.RowsOf(listing.executions, sub, id)) == second.Seen() <==> second.Seen() == first.Seen())
  {
    ghost var covered, read, listed;
    answer, covered, read, listed := M.FindOrphan(executions, active, details, sub, now);
    listing := ReadListing(sub, executions, active, details, read, listed, covered);
    SearchShowsRows(first, sub, id, executions, read, covered);
    SearchShowsOwn(first, second, sub, id, executions, active, details, read, listed, covered);
  }
}
