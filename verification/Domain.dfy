/** Enumerations and transition tables shared by every component (backend/engine/domain.py). */
module Domain {

  datatype Option<+T> = None | Some(value: T)

  datatype Error = KeyError | ValueError

  datatype Result<+T> = Ok(value: T) | Err(error: Error)

  datatype Side = Buy | Sell {
    function Opposite(): Side { if this == Buy then Sell else Buy }

    /** A signed quantity is positive when it adds to the base-asset position. */
    function Sign(): real { if this == Buy then 1.0 else -1.0 }
  }

  /** The pair under which hedges are grouped and exposures are added up. */
  datatype Key = Key(symbol: string, side: Side)

  function Min(a: real, b: real): real { if a <= b then a else b }

  function Max(a: real, b: real): real { if a >= b then a else b }

  datatype OrderState =
    New | Placing | Open | Partial | Canceling | Canceled | Filled | Failed | Unknown

  function OrderTransitions(from: OrderState): set<OrderState>
  {
    match from
    case New => {Placing, Failed}
    case Placing => {Open, Partial, Filled, Failed, Unknown}
    case Open => {Partial, Filled, Canceling, Unknown}
    case Partial => {Partial, Filled, Canceling, Unknown}
    case Canceling => {Canceled, Filled, Partial, Unknown}
    case Unknown => {Open, Partial, Filled, Canceled, Failed}
    case Canceled => {}
    case Filled => {}
    case Failed => {}
  }

  /** A write may repeat the current state or follow the table. */
  predicate OrderMove(from: OrderState, to: OrderState)
  {
    to == from || to in OrderTransitions(from)
  }

  predicate Terminal(state: OrderState)
  {
    state == Filled || state == Canceled || state == Failed
  }

  /** The states the table of open orders lists: neither ended nor still a draft. */
  predicate Listed(state: OrderState)
  {
    !Terminal(state) && state != New
  }

  /** No item occurs twice. */
  predicate Distinct<T(==)>(items: seq<T>)
  {
    forall a, b :: 0 <= a < b < |items| ==> items[a] != items[b]
  }

  datatype HedgeStatus = Pending | Hedging | Hedged | Retry | Escalate

  function HedgeTransitions(from: HedgeStatus): set<HedgeStatus>
  {
    match from
    case Pending => {Hedging, Escalate}
    case Hedging => {Hedged, Retry, Escalate}
    case Retry => {Hedging, Escalate}
    case Hedged => {}
    case Escalate => {}
  }

  predicate HedgeMove(from: HedgeStatus, to: HedgeStatus)
  {
    to == from || to in HedgeTransitions(from)
  }

  /** Statuses the worker still picks up and the exposure report still counts. */
  predicate IsPending(status: HedgeStatus)
  {
    status == Pending || status == Retry || status == Hedging
  }
}
