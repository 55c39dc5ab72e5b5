/**
 * The customer panel: the tracking projection a customer sees when looking
 * up a shipment, and the intake of a new order from the order form.
 */
module Entrada {
  import opened Wrappers
  import opened Strings
  import opened Orders
  import TimelineEngine

  // ---------------------------------------------------------------------
  // Tracking projection
  // ---------------------------------------------------------------------

  /** The customer view names the second stage differently from the administrator's timeline. */
  const PreparingLabel := "Preparando Envío"

  const CustomerLabels: seq<string> :=
    [TimelineEngine.ConfirmedLabel, PreparingLabel, TimelineEngine.InTransitLabel,
     TimelineEngine.LocalDistributionLabel, TimelineEngine.DeliveredLabel]

  /** The five milestones shown to the customer, completed up to the order's status. */
  function BuildTimeline(o: Order, addDays: Calendar): (r: Timeline)
    ensures |r| == 5
    ensures forall k :: 0 <= k < 5 ==> r[k].stage == CustomerLabels[k]
    ensures forall k :: 0 <= k < 5 ==> r[k].date == addDays(o.date, TimelineEngine.DayOffsets[k])
    ensures forall k :: 0 <= k < 5 ==> r[k].completed == TimelineEngine.StageCompleted(o.status, k)
  {
    [ Milestone(TimelineEngine.ConfirmedLabel, o.origin, addDays(o.date, 0), "09:00", true),
      Milestone(PreparingLabel, o.origin, addDays(o.date, 0), "12:00", o.status != Pendiente),
      Milestone(TimelineEngine.InTransitLabel, "En ruta hacia " + o.destination, addDays(o.date, 1), "08:00",
                o.status == EnTransito || o.status == Entregado),
      Milestone(TimelineEngine.LocalDistributionLabel, o.destination, addDays(o.date, 2), "Estimado", o.status == Entregado),
      Milestone(TimelineEngine.DeliveredLabel, o.destination, addDays(o.date, 2), "Estimado", o.status == Entregado) ]
  }

  /**
   * The customer timeline is the administrator's default timeline with the
   * second label renamed and other clock times: same locations, dates and
   * completion, milestone by milestone.
   */
  lemma {:induction false} CustomerTimelineMatchesAdmin(o: Order, addDays: Calendar)
    ensures var c := BuildTimeline(o, addDays);
            var a := TimelineEngine.BuildInitialTimeline(o, addDays);
            && |c| == |a|
            && (forall k :: 0 <= k < |c| ==> c[k].(stage := a[k].stage, time := a[k].time) == a[k])
            && (forall k :: 0 <= k < |c| && k != 1 ==> c[k].stage == a[k].stage)
  {
    var c := BuildTimeline(o, addDays);
    var a := TimelineEngine.BuildInitialTimeline(o, addDays);
    assert c[0].location == a[0].location && c[1].location == a[1].location;
    assert c[2].location == a[2].location && c[3].location == a[3].location && c[4].location == a[4].location;
  }

  /** The progress percentage shown for a status. */
  function Progress(s: Status): (r: int)
    ensures s == Pendiente ==> r == 25
    ensures s == EnTransito ==> r == 60
    ensures s == Entregado ==> r == 100
    ensures s != Pendiente && s != EnTransito && s != Entregado ==> r == 15
  {
    if s == Pendiente then 25
    else if s == EnTransito then 60
    else if s == Entregado then 100
    else 15
  }

  /** The display label: the three progress statuses get names, anything else shows as stored. */
  function StatusLabel(s: Status): (r: string)
    ensures s == Pendiente ==> r == "Pendiente"
    ensures s == EnTransito ==> r == TimelineEngine.InTransitLabel
    ensures s == Entregado ==> r == TimelineEngine.DeliveredLabel
    ensures s != Pendiente && s != EnTransito && s != Entregado ==> r == StatusName(s)
  {
    if s == Pendiente then "Pendiente"
    else if s == EnTransito then TimelineEngine.InTransitLabel
    else if s == Entregado then TimelineEngine.DeliveredLabel
    else StatusName(s)
  }

  /** The index of the first milestone not yet completed. */
  function FirstIncomplete(tl: Timeline): (r: Option<nat>)
    ensures r.None? <==> forall k :: 0 <= k < |tl| ==> tl[k].completed
    ensures r.Some? ==> r.value < |tl| && !tl[r.value].completed
    ensures r.Some? ==> forall k :: 0 <= k < r.value ==> tl[k].completed
  {
    if |tl| == 0 then None
    else if !tl[0].completed then Some(0)
    else match FirstIncomplete(tl[1..]) {
      case None => None
      case Some(i) => Some(i + 1)
    }
  }

  /** The location of the first incomplete milestone, or the destination when there is none or it is empty. */
  function CurrentLocation(tl: Timeline, destination: string): (r: string)
    ensures FirstIncomplete(tl).Some? && tl[FirstIncomplete(tl).value].location != "" ==>
      r == tl[FirstIncomplete(tl).value].location
    ensures FirstIncomplete(tl).None? || tl[FirstIncomplete(tl).value].location == "" ==>
      r == destination
  {
    match FirstIncomplete(tl) {
      case None => destination
      case Some(i) => if tl[i].location != "" then tl[i].location else destination
    }
  }

  datatype TrackingInfo = TrackingInfo(
    orderNumber: string,
    status: string,
    currentLocation: string,
    estimatedDelivery: string,
    progress: int,
    timeline: Timeline)

  /** The tracking record of a stored order. */
  function Project(o: Order, addDays: Calendar): (r: TrackingInfo)
    ensures r.orderNumber == o.orderNumber
    ensures r.status == StatusLabel(o.status) && r.progress == Progress(o.status)
    ensures r.timeline == BuildTimeline(o, addDays)
    ensures r.estimatedDelivery == addDays(o.date, 2)
    ensures r.currentLocation == CurrentLocation(r.timeline, o.destination)
  {
    var tl := BuildTimeline(o, addDays);
    TrackingInfo(o.orderNumber, StatusLabel(o.status), CurrentLocation(tl, o.destination),
                 tl[4].date, Progress(o.status), tl)
  }

  /**
   * Where the customer is told the parcel is: at the origin while pending
   * (the destination if the origin is empty), on the road once picked up
   * but not in transit, at the destination from transit on.
   */
  lemma CurrentLocationByStatus(o: Order, addDays: Calendar)
    ensures var loc := Project(o, addDays).currentLocation;
      && (o.status == Pendiente ==> loc == if o.origin != "" then o.origin else o.destination)
      && (o.status == EnTransito || o.status == Entregado ==> loc == o.destination)
      && (o.status != Pendiente && o.status != EnTransito && o.status != Entregado ==>
            loc == "En ruta hacia " + o.destination)
  {
    var tl := BuildTimeline(o, addDays);
    if o.status == Pendiente {
      assert FirstIncomplete(tl) == Some(1);
    } else if o.status == EnTransito {
      assert tl[0].completed && tl[1].completed && tl[2].completed && !tl[3].completed;
      assert FirstIncomplete(tl) == Some(3);
    } else if o.status == Entregado {
      assert FirstIncomplete(tl) == None;
    } else {
      assert tl[0].completed && tl[1].completed && !tl[2].completed;
      assert FirstIncomplete(tl) == Some(2);
      assert tl[2].location[0] == 'E';
    }
  }

  /** The demonstration shipment shown for the demo code. */
  const DemoCode := "EXP2024002"

  const DemoMock := TrackingInfo(
    DemoCode, TimelineEngine.InTransitLabel,
    "Centro de Distribución - Tegucigalpa, Honduras", "2025-09-30", 65,
    [ Milestone(TimelineEngine.ConfirmedLabel, "San Salvador, El Salvador", "2025-09-24", "09:30", true),
      Milestone(TimelineEngine.PickedUpLabel, "San Salvador, El Salvador", "2025-09-24", "14:15", true),
      Milestone(TimelineEngine.InTransitLabel, "Tegucigalpa, Honduras", "2025-09-25", "11:45", true),
      Milestone(TimelineEngine.LocalDistributionLabel, "Tegucigalpa, Honduras", "2025-09-30", "Estimado", false),
      Milestone(TimelineEngine.DeliveredLabel, "Dirección de Destino", "2025-09-30", "Estimado", false) ])

  /** The outcome of a lookup; blank input does no lookup at all. */
  datatype TrackResult = BlankInput | Demo(demo: TrackingInfo) | Found(info: TrackingInfo) | NotFound

  /** The index of the first order whose number is exactly `number`. */
  function FirstByNumber(orders: seq<Order>, number: string): (r: Option<nat>)
    ensures r.None? <==> forall k :: 0 <= k < |orders| ==> orders[k].orderNumber != number
    ensures r.Some? ==> r.value < |orders| && orders[r.value].orderNumber == number
    ensures r.Some? ==> forall k :: 0 <= k < r.value ==> orders[k].orderNumber != number
  {
    if |orders| == 0 then None
    else if orders[0].orderNumber == number then Some(0)
    else match FirstByNumber(orders[1..], number) {
      case None => None
      case Some(i) => Some(i + 1)
    }
  }

  /** The lookup decision: the code as typed, upper-cased, is the demo code or an order number. */
  function Track(input: string, orders: seq<Order>, addDays: Calendar): (r: TrackResult)
    ensures IsBlank(input) <==> r.BlankInput?
    ensures !IsBlank(input) && ToUpper(input) == DemoCode ==> r == Demo(DemoMock)
    ensures !IsBlank(input) && ToUpper(input) != DemoCode ==>
      match FirstByNumber(orders, ToUpper(input)) {
        case None => r == NotFound
        case Some(i) => r == Found(Project(orders[i], addDays))
      }
  {
    if IsBlank(input) then BlankInput
    else
      var numberUp := ToUpper(input);
      if numberUp == DemoCode then Demo(DemoMock)
      else match FirstByNumber(orders, numberUp) {
        case None => NotFound
        case Some(i) => Found(Project(orders[i], addDays))
      }
  }

  /** Only all-whitespace input is refused; an order number never is. */
  lemma {:induction false} NonSpaceStartIsNotBlank(s: string)
    requires |s| > 0 && !IsSpace(s[0])
    ensures !IsBlank(s)
  {
    IsBlankAllSpace(s);
  }

  lemma ToUpperAppend(a: string, b: string)
    ensures ToUpper(a + b) == ToUpper(a) + ToUpper(b)
  {
    assert forall k :: 0 <= k < |a + b| ==> ToUpper(a + b)[k] == (ToUpper(a) + ToUpper(b))[k];
  }

  /** The demo code shows the demo shipment even when a stored order carries that number. */
  lemma {:induction false} DemoShadowsStoredOrder(orders: seq<Order>, addDays: Calendar)
    ensures Track(DemoCode, orders, addDays) == Demo(DemoMock)
  {
    ToUpperAppend("EXP", "2024002");
    NonSpaceStartIsNotBlank(DemoCode);
  }

  // ---------------------------------------------------------------------
  // Order intake
  // ---------------------------------------------------------------------

  /** The order form's fields, as typed. */
  datatype OrderForm = OrderForm(origin: string, destination: string, weight: string,
                                 modalidad: string, description: string)

  /** The signed-in customer; an empty field stands for one that is absent. */
  datatype User = User(id: string, firstName: string, lastName: string, email: string)

  predicate MissingRequired(form: OrderForm) {
    form.origin == "" || form.destination == "" || form.weight == "" || form.modalidad == ""
  }

  function OwnerOf(u: User): (r: Owner)
    ensures r.id == (if u.id == "" then None else Some(u.id))
    ensures r.email == u.email
    ensures r.name == (if IsBlank(u.firstName + " " + u.lastName) then u.email else Trim(u.firstName + " " + u.lastName))
  {
    var full := Trim(u.firstName + " " + u.lastName);
    Owner(if u.id == "" then None else Some(u.id), if full != "" then full else u.email, u.email)
  }

  /**
   * Submitting the form: nothing when a required field is empty, otherwise a
   * pending order without timeline. `token` is the random base-36 draw,
   * `id` the creation timestamp, `today` the creation date,
   * `estimatedCost` the last computed estimate and `parsedWeight` the
   * weight as a number (None where parsing fails).
   */
  function HandleSubmit(form: OrderForm, token: string, id: string, today: string,
                        estimatedCost: Option<real>, parsedWeight: Option<real>,
                        currentUser: Option<User>): (r: Option<Order>)
    ensures r.None? <==> MissingRequired(form)
    ensures r.Some? ==>
      && r.value.id == id
      && r.value.orderNumber == "EXP" + ToUpper(token)
      && r.value.origin == form.origin && r.value.destination == form.destination
      && r.value.status == Pendiente && r.value.date == today
      && r.value.cost == estimatedCost.GetOr(0.0) && r.value.weight == parsedWeight.GetOr(0.0)
      && r.value.modalidad == Some(form.modalidad) && r.value.description == Some(form.description)
      && r.value.tracking.None? && r.value.history == []
      && (r.value.owner.None? <==> currentUser.None?)
      && (currentUser.Some? ==> r.value.owner == Some(OwnerOf(currentUser.value)))
  {
    if MissingRequired(form) then None
    else Some(Order(
      id, "EXP" + ToUpper(token),
      if currentUser.Some? then Some(OwnerOf(currentUser.value)) else None,
      form.origin, form.destination, Pendiente, today,
      estimatedCost.GetOr(0.0), parsedWeight.GetOr(0.0),
      Some(form.modalidad), Some(form.description), None, []))
  }

  /** The new order goes first; the existing orders follow in their order. */
  function HandleCreateOrder(orders: seq<Order>, order: Order): (r: seq<Order>)
    ensures |r| == |orders| + 1 && r[0] == order && r[1..] == orders
  {
    [order] + orders
  }

  /** Looking up the first order's number, typed in any letter case, finds that order. */
  lemma {:induction false} TrackFindsFirstOrder(input: string, o: Order, orders: seq<Order>, addDays: Calendar)
    requires !IsBlank(input) && ToUpper(input) == o.orderNumber && o.orderNumber != DemoCode
    ensures Track(input, HandleCreateOrder(orders, o), addDays) == Found(Project(o, addDays))
  {
    assert FirstByNumber(HandleCreateOrder(orders, o), o.orderNumber) == Some(0);
  }

  /** The number of an order created from the random draw `token`. */
  lemma {:induction false} OrderNumberCase(token: string)
    ensures ToUpper("EXP" + ToUpper(token)) == "EXP" + ToUpper(token)
    ensures ToUpper("exp" + token) == "EXP" + ToUpper(token)
    ensures !IsBlank("EXP" + ToUpper(token)) && !IsBlank("exp" + token)
  {
    ToUpperAppend("EXP", ToUpper(token));
    ToUpperIdempotent(token);
    ToUpperAppend("exp", token);
    assert ToUpper("exp") == "EXP" && ToUpper("EXP") == "EXP";
    NonSpaceStartIsNotBlank("EXP" + ToUpper(token));
    NonSpaceStartIsNotBlank("exp" + token);
  }

  /** An order number differs from the demo code when its random part does. */
  lemma NotDemoNumber(token: string)
    requires ToUpper(token) != "2024002"
    ensures "EXP" + ToUpper(token) != DemoCode
  {
    var n := "EXP" + ToUpper(token);
    assert n[3..] == ToUpper(token);
    assert DemoCode[3..] == "2024002";
  }

  /**
   * A freshly created order can be looked up at once by its number, in any
   * letter case, unless its random part is the demo's.
   */
  lemma {:induction false} CreatedOrderIsTrackable(
    orders: seq<Order>, form: OrderForm, token: string, id: string, today: string,
    estimatedCost: Option<real>, parsedWeight: Option<real>, currentUser: Option<User>,
    addDays: Calendar)
    requires !MissingRequired(form)
    requires ToUpper(token) != "2024002"
    ensures var o := HandleSubmit(form, token, id, today, estimatedCost, parsedWeight, currentUser).value;
      && Track(o.orderNumber, HandleCreateOrder(orders, o), addDays) == Found(Project(o, addDays))
      && Track("exp" + token, HandleCreateOrder(orders, o), addDays) == Found(Project(o, addDays))
  {
    var o := HandleSubmit(form, token, id, today, estimatedCost, parsedWeight, currentUser).value;
    OrderNumberCase(token);
    NotDemoNumber(token);
    TrackFindsFirstOrder(o.orderNumber, o, orders, addDays);
    TrackFindsFirstOrder("exp" + token, o, orders, addDays);
  }
}
