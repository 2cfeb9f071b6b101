/** The visible volume ahead of a paper order (backend/engine/paper_queue.py). */
module PaperQueue {
  import opened Domain

  datatype Level = Level(price: real, size: real)

  /** The value of a queue position, and what its updates make of it. */
  datatype Queue = Queue(better: real, same: real) {
    function Ahead(): real { better + same }

    predicate Ok() { better >= 0.0 && same >= 0.0 }

    predicate Within(other: Queue) { better <= other.better && same <= other.same }

    /** The part of `available` that stands in front, same price first. */
    function Taken(available: real): real
    {
      var fromSame := Min(same, available);
      fromSame + Min(better, available - fromSame)
    }

    function After(available: real): Queue
    {
      var fromSame := Min(same, available);
      Queue(better - Min(better, available - fromSame), same - fromSame)
    }

    function Resynced(snapshot: Queue): Queue
    {
      Queue(Min(better, snapshot.better), Min(same, snapshot.same))
    }
  }

  const Front := Queue(0.0, 0.0)

  function SizeWhere(levels: seq<Level>, counts: Level -> bool): (total: real)
    ensures (forall k :: 0 <= k < |levels| ==> levels[k].size >= 0.0) ==> total >= 0.0
  {
    if levels == [] then 0.0
    else (if counts(levels[0]) then levels[0].size else 0.0) + SizeWhere(levels[1..], counts)
  }

  function FromLevels(levels: seq<Level>, side: Side, price: real): Queue
  {
    Queue(
      SizeWhere(levels, (l: Level) => if side == Sell then l.price < price else l.price > price),
      SizeWhere(levels, (l: Level) => l.price == price))
  }

  predicate LevelsOk(levels: seq<Level>)
  {
    forall k :: 0 <= k < |levels| ==> levels[k].size >= 0.0
  }

  /** All of the volume that fits in front is taken, the better-priced part only once the rest is gone. */
  lemma TakenLaw(q: Queue, available: real)
    requires q.Ok() && available >= 0.0
    ensures q.Taken(available) == Min(q.Ahead(), available)
    ensures q.After(available).Ok() && q.After(available).Within(q)
    ensures q.After(available).Ahead() == q.Ahead() - q.Taken(available)
    ensures q.After(available).better < q.better ==> q.After(available).same == 0.0
  {
  }

  class QueuePosition {
    var aheadBetter: real
    var aheadSame: real

    ghost function Value(): Queue
      reads this
    {
      Queue(aheadBetter, aheadSame)
    }

    constructor (levels: seq<Level>, side: Side, price: real)
      ensures Value() == FromLevels(levels, side, price)
    {
      var q := FromLevels(levels, side, price);
      aheadBetter, aheadSame := q.better, q.same;
    }

    method Clear()
      modifies this
      ensures Value() == Front
    {
      aheadBetter, aheadSame := 0.0, 0.0;
    }

    method Consume(available: real) returns (consumed: real)
      modifies this
      ensures consumed == old(Value()).Taken(available)
      ensures Value() == old(Value()).After(available)
    {
      var rest := available;
      var consumedSame := Min(aheadSame, rest);
      aheadSame := aheadSame - consumedSame;
      rest := rest - consumedSame;
      var consumedBetter := Min(aheadBetter, rest);
      aheadBetter := aheadBetter - consumedBetter;
      consumed := consumedSame + consumedBetter;
    }

    method Resync(levels: seq<Level>, side: Side, price: real)
      modifies this
      ensures Value() == old(Value()).Resynced(FromLevels(levels, side, price))
    {
      var snapshot := FromLevels(levels, side, price);
      aheadBetter := Min(aheadBetter, snapshot.better);
      aheadSame := Min(aheadSame, snapshot.same);
    }
  }
}
