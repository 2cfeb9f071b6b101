/**
 * Looking for the exchange order behind a submission whose response was lost
 * (hedge_worker.py:828-965, adapters.py:112-145). Times are in seconds; an unreadable
 * timestamp is None. Histories are what the venue lists while the search runs.
 */
module OrphanSearch {
  import opened Domain
  import opened Sums
  import opened Store

  /** One row of a history page: an execution, or an order on the book. */
  datatype Row = Row(timestamp: Option<int>, orderId: nat, side: Side, size: real, price: real, fee: real, kind: Option<Kind>)

  /** The order record a lookup by id returns. */
  datatype Detail = Detail(timestamp: Option<int>, symbol: string, side: Side, size: real, kind: Option<Kind>)

  datatype Window = Window(lower: int, upper: int)

  const PAGE := 100
  const MAX_PAGES := 10
  const RETENTION := 23 * 3600

  function WindowOf(submittedAt: int): Window
  {
    Window(submittedAt - 15, submittedAt + 300)
  }

  predicate InWindow(timestamp: Option<int>, w: Window)
  {
    timestamp.Some? && w.lower <= timestamp.value <= w.upper
  }

  // ----- paging -----

  /** Readable timestamps never increase along the listing. */
  predicate NewestFirst(history: seq<Row>)
  {
    forall j, k :: 0 <= j < k < |history| && history[j].timestamp.Some? && history[k].timestamp.Some? ==>
      history[k].timestamp.value <= history[j].timestamp.value
  }

  function PageOf(history: seq<Row>, page: nat, count: nat): seq<Row>
    requires page >= 1
  {
    var from := (page - 1) * count;
    if from >= |history| then [] else if from + count >= |history| then history[from..] else history[from..from + count]
  }

  /** A page reaches back to `lower` when it is short, or lists a row that old. */
  predicate Reaches(batch: seq<Row>, count: nat, lower: int)
  {
    |batch| < count || exists k :: 0 <= k < |batch| && batch[k].timestamp.Some? && batch[k].timestamp.value <= lower
  }

  function Keep(rows: seq<Row>, w: Window): seq<Row>
  {
    if rows == [] then []
    else Keep(rows[..|rows| - 1], w) + if InWindow(rows[|rows| - 1].timestamp, w) then [rows[|rows| - 1]] else []
  }

  lemma {:induction false} KeepConcat(a: seq<Row>, b: seq<Row>, w: Window)
    ensures Keep(a + b, w) == Keep(a, w) + Keep(b, w)
    decreases |b|
  {
    if b == [] {
      assert a + b == a;
    } else {
      assert (a + b)[..|a + b| - 1] == a + b[..|b| - 1];
      KeepConcat(a, b[..|b| - 1], w);
    }
  }

  lemma {:induction false} KeepMembers(rows: seq<Row>, w: Window)
    ensures forall row :: row in Keep(rows, w) <==> row in rows && InWindow(row.timestamp, w)
  {
    if rows != [] {
      KeepMembers(rows[..|rows| - 1], w);
      assert rows == rows[..|rows| - 1] + [rows[|rows| - 1]];
    }
  }

  /** The pages read so far, put together. */
  function Prefix(history: seq<Row>, pages: nat, count: nat): seq<Row>
  {
    if pages * count >= |history| then history else history[..pages * count]
  }

  lemma PrefixGrows(history: seq<Row>, pages: nat, count: nat)
    requires count > 0
    ensures Prefix(history, pages + 1, count) == Prefix(history, pages, count) + PageOf(history, pages + 1, count)
  {
    assert (pages + 1) * count == pages * count + count;
  }

  /** Everything after a page that reaches back to `lower` is no newer than `lower`. */
  lemma RestIsOld(history: seq<Row>, pages: nat, count: nat, lower: int, k: nat)
    requires count > 0 && NewestFirst(history) && Reaches(PageOf(history, pages + 1, count), count, lower)
    requires |Prefix(history, pages + 1, count)| <= k < |history|
    ensures history[k].timestamp.Some? ==> history[k].timestamp.value <= lower
  {
    var from := pages * count;
    var batch := PageOf(history, pages + 1, count);
    assert (pages + 1) * count == from + count;
    assert |batch| == count;
    var j :| 0 <= j < |batch| && batch[j].timestamp.Some? && batch[j].timestamp.value <= lower;
    assert batch[j] == history[from + j];
  }

  /** What a covered search of a history guarantees about the rows it did not read. */
  predicate NothingNewer(history: seq<Row>, read: nat, lower: int)
  {
    forall k :: read <= k < |history| && history[k].timestamp.Some? ==> history[k].timestamp.value <= lower
  }

  lemma ReachedBack(history: seq<Row>, page: nat, count: nat, lower: int)
    requires count > 0 && page >= 1 && Reaches(PageOf(history, page, count), count, lower)
    ensures NewestFirst(history) ==> NothingNewer(history, |Prefix(history, page, count)|, lower)
  {
    if NewestFirst(history) {
      forall k | |Prefix(history, page, count)| <= k < |history| && history[k].timestamp.Some?
        ensures history[k].timestamp.value <= lower
      {
        RestIsOld(history, page - 1, count, lower, k);
      }
    }
  }

  /** hedge_worker.py:945-965. */
  method PagedRows(history: seq<Row>, lower: int) returns (rows: seq<Row>, covered: bool)
    ensures rows <= history
    ensures covered && NewestFirst(history) ==> NothingNewer(history, |rows|, lower)
  {
    rows, covered := [], false;
    for page := 1 to MAX_PAGES + 1
      invariant rows == Prefix(history, page - 1, PAGE) && !covered
    {
      var batch := PageOf(history, page, PAGE);
      PrefixGrows(history, page - 1, PAGE);
      rows := rows + batch;
      if Reaches(batch, PAGE, lower) {
        covered := true;
        ReachedBack(history, page, PAGE, lower);
        return;
      }
    }
  }

  lemma PrefixIsPrefix(history: seq<Row>, pages: nat, count: nat)
    ensures |Prefix(history, pages, count)| <= |history|
    ensures history[..|Prefix(history, pages, count)|] == Prefix(history, pages, count)
  {
  }

  lemma CoveredKeepsAll(history: seq<Row>, read: nat, w: Window)
    requires read <= |history| && NothingNewer(history, read, w.lower)
    ensures forall row :: row in history && InWindow(row.timestamp, w) && row.timestamp.value > w.lower ==>
              row in Keep(history[..read], w)
  {
    KeepMembers(history[..read], w);
    forall row | row in history && InWindow(row.timestamp, w) && row.timestamp.value > w.lower
      ensures row in Keep(history[..read], w)
    {
      var k :| 0 <= k < |history| && history[k] == row;
      assert k < read;
      assert history[..read][k] == row;
    }
  }

  /** adapters.py:112-145: only the rows inside the window, and whether the window was covered. */
  method ExecutionsByWindow(history: seq<Row>, w: Window, count: nat, maxPages: nat)
      returns (matches: seq<Row>, covered: bool, ghost read: nat)
    requires count > 0
    ensures read <= |history| && matches == Keep(history[..read], w)
    ensures covered && NewestFirst(history) ==> NothingNewer(history, read, w.lower)
    ensures covered && NewestFirst(history) ==>
              forall row :: row in history && InWindow(row.timestamp, w) && row.timestamp.value > w.lower ==> row in matches
  {
    matches, covered := [], false;
    ghost var rows := [];
    var last := if maxPages > 1 then maxPages else 1;
    for page := 1 to last + 1
      invariant rows == Prefix(history, page - 1, count) && matches == Keep(rows, w) && !covered
    {
      var batch := PageOf(history, page, count);
      PrefixGrows(history, page - 1, count);
      KeepConcat(rows, batch, w);
      rows := rows + batch;
      var kept := KeepLoop(batch, w);
      matches := matches + kept;
      if Reaches(batch, count, w.lower) {
        covered := true;
        ReachedBack(history, page, count, w.lower);
        PrefixIsPrefix(history, page, count);
        read := |rows|;
        if NewestFirst(history) {
          CoveredKeepsAll(history, read, w);
        }
        return;
      }
    }
    PrefixIsPrefix(history, last, count);
    read := |rows|;
  }

  method KeepLoop(batch: seq<Row>, w: Window) returns (kept: seq<Row>)
    ensures kept == Keep(batch, w)
  {
    kept := [];
    for k := 0 to |batch|
      invariant kept == Keep(batch[..k], w)
    {
      assert batch[..k + 1][..k] == batch[..k];
      if InWindow(batch[k].timestamp, w) {
        kept := kept + [batch[k]];
      }
    }
    assert batch[..|batch|] == batch;
  }
}
