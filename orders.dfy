/**
 * The records the tracking engine works on: orders, their milestones and
 * their audit history, as stored in the `expressia_orders` array.
 */
module Orders {
  import opened Wrappers

  /** The coarse status of an order as the stored string spells it. */
  datatype StatusValue = Pendiente | EnTransito | Entregado | Cancelado | Other(name: string)

  predicate IsStatusName(s: string) {
    s == "pendiente" || s == "en-transito" || s == "entregado" || s == "cancelado"
  }

  /** `Other` carries only strings that are not one of the four status names. */
  type Status = s: StatusValue | s.Other? ==> !IsStatusName(s.name) witness Pendiente

  /** The string stored in an order's `status` field. */
  function StatusName(s: Status): string {
    match s
    case Pendiente => "pendiente"
    case EnTransito => "en-transito"
    case Entregado => "entregado"
    case Cancelado => "cancelado"
    case Other(name) => name
  }

  /** The status a stored `status` string denotes. */
  function ParseStatus(raw: string): Status {
    if raw == "pendiente" then Pendiente
    else if raw == "en-transito" then EnTransito
    else if raw == "entregado" then Entregado
    else if raw == "cancelado" then Cancelado
    else Other(raw)
  }

  /** Every stored string reads back as itself: the encoding loses nothing. */
  lemma StatusNameOfParse(raw: string)
    ensures StatusName(ParseStatus(raw)) == raw
  {
  }

  /** Every status is written as a string that denotes it. */
  lemma ParseOfStatusName(s: Status)
    ensures ParseStatus(StatusName(s)) == s
  {
  }

  /**
   * One milestone of a shipment: `stage` is the stage name held in the
   * source's `status` key, `time` is a clock time or a note such as `Estimado`.
   */
  datatype Milestone = Milestone(stage: string, location: string, date: string, time: string, completed: bool)

  type Timeline = seq<Milestone>

  /** The owner of an order: `id` is absent on orders the seed writes. */
  datatype Owner = Owner(id: Option<string>, name: string, email: string)

  /** One entry of an order's append-only audit history; `at` is an ISO timestamp. */
  datatype HistoryEvent =
    | StatusEvent(at: string, value: Status)
    | TrackingEvent(at: string, status: Status, snapshot: Timeline)

  /**
   * An order. `tracking` is the `tracking.timeline` array, None when either
   * `tracking` or its `timeline` is missing; a missing `history` is the empty
   * history. Money and weight are the numbers the order was created with.
   */
  datatype Order = Order(
    id: string,
    orderNumber: string,
    owner: Option<Owner>,
    origin: string,
    destination: string,
    status: Status,
    date: string,
    cost: real,
    weight: real,
    modalidad: Option<string>,
    description: Option<string>,
    tracking: Option<Timeline>,
    history: seq<HistoryEvent>)

  /**
   * Calendar arithmetic on ISO dates: `addDays(date, n)` is the `YYYY-MM-DD`
   * date n days after `date`, as the builders compute it with JavaScript's Date.
   */
  type Calendar = (string, int) -> string
}
