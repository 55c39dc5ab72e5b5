/**
 * The administrator's order table: the load-time fill-in of missing
 * timelines, the search and status filter, and the lifecycle controller
 * that edits, validates and commits timelines and overrides statuses.
 */
module Admin {
  import opened Wrappers
  import opened Strings
  import opened Orders
  import opened TimelineEngine
  import Chronology
  import Storage

  // ---------------------------------------------------------------------
  // Load-time fill-in of missing timelines
  // ---------------------------------------------------------------------

  /** An order keeps its timeline; an order without one gets the default timeline. */
  function WithTimeline(o: Order, addDays: Calendar): (r: Order)
    ensures r.tracking.Some?
    ensures o.tracking.Some? ==> r == o
    ensures o.tracking.None? ==> r == o.(tracking := Some(BuildInitialTimeline(o, addDays)))
  {
    if o.tracking.Some? then o else o.(tracking := Some(BuildInitialTimeline(o, addDays)))
  }

  /** Every order has a timeline afterwards; orders that had one are untouched. */
  function FillMissingTimelines(orders: seq<Order>, addDays: Calendar): (r: seq<Order>)
    ensures |r| == |orders|
    ensures forall k :: 0 <= k < |r| ==> r[k].tracking.Some?
    ensures forall k :: 0 <= k < |r| && orders[k].tracking.Some? ==> r[k] == orders[k]
    ensures forall k :: 0 <= k < |r| && orders[k].tracking.None? ==>
      r[k] == orders[k].(tracking := Some(BuildInitialTimeline(orders[k], addDays)))
  {
    seq(|orders|, k requires 0 <= k < |orders| => WithTimeline(orders[k], addDays))
  }

  /** An order whose status is the one its timeline derives. */
  predicate Synced(o: Order) {
    o.tracking.Some? && DeriveStatusFromTimeline(o.tracking.value, o.status) == o.status
  }

  /** A filled-in timeline agrees with its order's status, whatever canonical status that is. */
  lemma FilledOrdersAreSynced(orders: seq<Order>, addDays: Calendar, k: nat)
    requires k < |orders| && orders[k].tracking.None? && !orders[k].status.Other?
    ensures Synced(FillMissingTimelines(orders, addDays)[k])
  {
    BuilderDeriverAgree(orders[k], addDays);
  }

  /** Filling in twice is filling in once. */
  lemma FillMissingIdempotent(orders: seq<Order>, addDays: Calendar)
    ensures FillMissingTimelines(FillMissingTimelines(orders, addDays), addDays) ==
            FillMissingTimelines(orders, addDays)
  {
  }

  // ---------------------------------------------------------------------
  // Search and status filter
  // ---------------------------------------------------------------------

  /** `o.owner?.name || ''`. */
  function OwnerName(o: Order): string {
    if o.owner.Some? then o.owner.value.name else ""
  }

  /** The search term, lower-cased, occurs in the lower-cased order number or owner name. */
  predicate MatchesSearch(o: Order, searchTerm: string) {
    var search := ToLower(searchTerm);
    Contains(ToLower(o.orderNumber), search) || Contains(ToLower(OwnerName(o)), search)
  }

  /** The status filter is "all" or the order's stored status string. */
  predicate MatchesStatus(o: Order, statusFilter: string) {
    statusFilter == "all" || StatusName(o.status) == statusFilter
  }

  predicate Shown(o: Order, searchTerm: string, statusFilter: string) {
    MatchesSearch(o, searchTerm) && MatchesStatus(o, statusFilter)
  }

  /** The orders the table lists, in their stored order. */
  function Filtered(orders: seq<Order>, searchTerm: string, statusFilter: string): (r: seq<Order>)
    ensures |r| <= |orders|
    ensures forall o :: o in r <==> o in orders && Shown(o, searchTerm, statusFilter)
  {
    if |orders| == 0 then []
    else (if Shown(orders[0], searchTerm, statusFilter) then [orders[0]] else [])
         + Filtered(orders[1..], searchTerm, statusFilter)
  }

  /** Filtering distributes over concatenation, so the relative order of the orders is kept. */
  lemma {:induction false} FilteredConcat(a: seq<Order>, b: seq<Order>, searchTerm: string, statusFilter: string)
    ensures Filtered(a + b, searchTerm, statusFilter) ==
            Filtered(a, searchTerm, statusFilter) + Filtered(b, searchTerm, statusFilter)
    decreases |a|
  {
    if |a| > 0 {
      assert (a + b)[1..] == a[1..] + b;
      FilteredConcat(a[1..], b, searchTerm, statusFilter);
    } else {
      assert a + b == b;
    }
  }

  /** An empty search with status "all" lists every order. */
  lemma {:induction false} FilteredEverything(orders: seq<Order>)
    ensures Filtered(orders, "", "all") == orders
    decreases |orders|
  {
    if |orders| > 0 {
      ContainsEmpty(ToLower(orders[0].orderNumber));
      FilteredEverything(orders[1..]);
    }
  }

  // ---------------------------------------------------------------------
  // Order-list transformations of the controller
  // ---------------------------------------------------------------------

  /** The direct status override: the matching orders take the new status and record it. */
  function SetStatus(orders: seq<Order>, id: string, newStatus: Status, at: string): (r: seq<Order>)
    ensures |r| == |orders|
    ensures forall k :: 0 <= k < |r| && orders[k].id != id ==> r[k] == orders[k]
    ensures forall k :: 0 <= k < |r| && orders[k].id == id ==>
      && r[k].status == newStatus
      && r[k].history == orders[k].history + [StatusEvent(at, newStatus)]
      && r[k].tracking == orders[k].tracking
      && r[k].(status := orders[k].status, history := orders[k].history) == orders[k]
  {
    seq(|orders|, k requires 0 <= k < |orders| =>
      if orders[k].id == id
      then orders[k].(status := newStatus, history := orders[k].history + [StatusEvent(at, newStatus)])
      else orders[k])
  }

  /**
   * The committed edit: the matching orders take the draft as timeline, the
   * status derived from it and their prior status, and one tracking entry.
   */
  function CommitTracking(orders: seq<Order>, id: string, draft: Timeline, at: string): (r: seq<Order>)
    ensures |r| == |orders|
    ensures forall k :: 0 <= k < |r| && orders[k].id != id ==> r[k] == orders[k]
    ensures forall k :: 0 <= k < |r| && orders[k].id == id ==>
      && r[k].status == DeriveStatusFromTimeline(draft, orders[k].status)
      && r[k].tracking == Some(draft)
      && r[k].history == orders[k].history + [TrackingEvent(at, r[k].status, draft)]
      && r[k].(status := orders[k].status, tracking := orders[k].tracking, history := orders[k].history) == orders[k]
  {
    seq(|orders|, k requires 0 <= k < |orders| =>
      if orders[k].id == id
      then
        var newStatus := DeriveStatusFromTimeline(draft, orders[k].status);
        orders[k].(status := newStatus, tracking := Some(draft),
                   history := orders[k].history + [TrackingEvent(at, newStatus, draft)])
      else orders[k])
  }

  /** After a commit every edited order's status is the one its timeline derives. */
  lemma CommittedOrdersAreSynced(orders: seq<Order>, id: string, draft: Timeline, at: string, k: nat)
    requires k < |orders| && orders[k].id == id
    ensures Synced(CommitTracking(orders, id, draft, at)[k])
  {
    DeriveIdempotent(draft, orders[k].status);
  }

  /** `prev.map(o => o.id === id ? withTracking : o)`. */
  function ReplaceById(orders: seq<Order>, id: string, replacement: Order): (r: seq<Order>)
    ensures |r| == |orders|
    ensures forall k :: 0 <= k < |r| ==> r[k] == if orders[k].id == id then replacement else orders[k]
  {
    seq(|orders|, k requires 0 <= k < |orders| => if orders[k].id == id then replacement else orders[k])
  }

  predicate HasOrder(orders: seq<Order>, id: string) {
    exists k :: 0 <= k < |orders| && orders[k].id == id
  }

  /** A save followed by a broadcast advances the revision by one, as a save alone does. */
  lemma RevisionAfterBroadcast(items: map<string, string>, now: string)
    ensures Storage.RevisionOf(items[Storage.RevisionKey := Storage.NextRevision(items)][Storage.RefreshKey := now]) ==
      match Storage.RevisionOf(items) case Some(n) => Some(n + 1) case None => None
  {
    var saved := items[Storage.RevisionKey := Storage.NextRevision(items)];
    Storage.NextRevisionIncrements(items);
    assert Storage.RevisionText(saved[Storage.RefreshKey := now]) == Storage.RevisionText(saved);
  }

  /** The result of pressing "save" in the tracking editor. */
  datatype SaveOutcome = Saved | Rejected(index: nat, message: string)

  // ---------------------------------------------------------------------
  // The controller
  // ---------------------------------------------------------------------

  class OrdersTable {
    const store: Storage.OrderStore
    /** The JavaScript date arithmetic the timeline builder uses. */
    const addDays: Calendar
    var orders: seq<Order>
    /** The order whose timeline is being edited, None while the editor is closed. */
    var trackingEditOrder: Option<Order>
    var draftTimeline: Timeline
    var savingTracking: bool

    constructor (store: Storage.OrderStore, addDays: Calendar)
      ensures this.store == store && this.addDays == addDays
      ensures orders == [] && trackingEditOrder == None && draftTimeline == [] && !savingTracking
    {
      this.store := store;
      this.addDays := addDays;
      orders := [];
      trackingEditOrder := None;
      draftTimeline := [];
      savingTracking := false;
    }

    /** The mount effect: seed the store once, then show its orders with every timeline filled in. */
    method Mount()
      modifies this, store
      ensures orders == FillMissingTimelines(store.LoadOrders(), addDays)
      ensures old(store.LoadOrders()) != [] ==> unchanged(store)
      ensures old(store.LoadOrders()) == [] && old(store.Seeded()) ==> unchanged(store) && orders == []
      ensures old(store.LoadOrders()) == [] && !old(store.Seeded()) ==>
        && store.Seeded()
        && store.LoadOrders() == orders
        && store.items ==
           old(store.items)[Storage.RevisionKey := Storage.NextRevision(old(store.items))][Storage.SeedFlagKey := "1"]
        && |orders| == |Storage.SeedOrders|
        && forall k :: 0 <= k < |orders| ==>
             orders[k] == Storage.SeedOrders[k].(tracking := Some(BuildInitialTimeline(Storage.SeedOrders[k], addDays)))
      ensures trackingEditOrder == old(trackingEditOrder) && draftTimeline == old(draftTimeline)
      ensures savingTracking == old(savingTracking)
    {
      var cal := addDays;
      var seeded := store.EnsureSeedOrders(Some((o: Order) => BuildInitialTimeline(o, cal)));
      var source := if |seeded| > 0 then seeded else store.LoadOrders();
      orders := FillMissingTimelines(source, addDays);
      assert forall k :: 0 <= k < |source| ==> source[k].tracking.Some? ==> orders[k] == source[k];
    }

    /** A storage event from another viewer: reload the store's orders, filling in timelines. */
    method OnStorageEvent()
      modifies this
      ensures orders == FillMissingTimelines(store.LoadOrders(), addDays)
      ensures trackingEditOrder == old(trackingEditOrder) && draftTimeline == old(draftTimeline)
      ensures savingTracking == old(savingTracking)
    {
      orders := FillMissingTimelines(store.LoadOrders(), addDays);
    }

    /** Replace the order list, save it and signal other viewers with timestamp text `now`. */
    method PersistOrders(updated: seq<Order>, now: string)
      modifies this, store
      ensures orders == updated
      ensures store.payload == Storage.Arr(updated) && store.LoadOrders() == updated
      ensures store.items ==
        old(store.items)[Storage.RevisionKey := Storage.NextRevision(old(store.items))][Storage.RefreshKey := now]
      ensures trackingEditOrder == old(trackingEditOrder) && draftTimeline == old(draftTimeline)
      ensures savingTracking == old(savingTracking)
    {
      store.SaveOrders(updated);
      store.BroadcastOrdersChange(now);
      orders := updated;
    }

    /** The effect that saves a non-empty order list whenever it changes. */
    method OrdersChangedEffect(now: string)
      modifies store
      ensures orders == [] ==> unchanged(store)
      ensures orders != [] ==>
        && store.LoadOrders() == orders
        && store.items ==
           old(store.items)[Storage.RevisionKey := Storage.NextRevision(old(store.items))][Storage.RefreshKey := now]
    {
      if |orders| > 0 {
        store.SaveOrders(orders);
        store.BroadcastOrdersChange(now);
      }
    }

    /** The status dropdown: overrides the status of order `id` and records the change, at time `at`. */
    method UpdateStatus(id: string, newStatus: Status, at: string, now: string)
      modifies this, store
      ensures orders == SetStatus(old(orders), id, newStatus, at)
      ensures store.LoadOrders() == orders
      ensures store.items ==
        old(store.items)[Storage.RevisionKey := Storage.NextRevision(old(store.items))][Storage.RefreshKey := now]
      ensures trackingEditOrder == old(trackingEditOrder) && draftTimeline == old(draftTimeline)
      ensures savingTracking == old(savingTracking)
    {
      PersistOrders(SetStatus(orders, id, newStatus, at), now);
    }

    /**
     * A status change as the page runs it: the handler saves the new list,
     * and the effect on `orders` then saves it a second time, so the
     * revision advances by two.
     */
    method UpdateStatusRendered(id: string, newStatus: Status, at: string, now: string, later: string)
      modifies this, store
      ensures orders == SetStatus(old(orders), id, newStatus, at)
      ensures store.LoadOrders() == orders
      ensures old(orders) != [] ==>
        store.Revision() == (match old(store.Revision()) case Some(n) => Some(n + 2) case None => None)
      ensures old(orders) == [] ==>
        store.Revision() == (match old(store.Revision()) case Some(n) => Some(n + 1) case None => None)
      ensures store.items.Keys == old(store.items).Keys + {Storage.RevisionKey, Storage.RefreshKey}
      ensures forall k :: k in old(store.items) && k != Storage.RevisionKey && k != Storage.RefreshKey ==>
        store.items[k] == old(store.items)[k]
      ensures store.items[Storage.RefreshKey] == if old(orders) != [] then later else now
      ensures store.Seeded() == old(store.Seeded())
      ensures trackingEditOrder == old(trackingEditOrder) && draftTimeline == old(draftTimeline)
      ensures savingTracking == old(savingTracking)
    {
      var before := store.items;
      UpdateStatus(id, newStatus, at, now);
      RevisionAfterBroadcast(before, now);
      var middle := store.items;
      OrdersChangedEffect(later);
      if |orders| > 0 {
        RevisionAfterBroadcast(middle, later);
      }
    }

    /**
     * A storage event as the page runs it: the reload changes `orders`, and
     * the effect writes the reloaded list back with a new revision and
     * refresh timestamp, which other viewers see as storage events again.
     */
    method OnStorageEventRendered(now: string)
      modifies this, store
      ensures orders == FillMissingTimelines(old(store.LoadOrders()), addDays)
      ensures orders != [] ==>
        && store.LoadOrders() == orders
        && store.Revision() == (match old(store.Revision()) case Some(n) => Some(n + 1) case None => None)
        && store.items ==
           old(store.items)[Storage.RevisionKey := Storage.NextRevision(old(store.items))][Storage.RefreshKey := now]
      ensures orders == [] ==> unchanged(store)
      ensures trackingEditOrder == old(trackingEditOrder) && draftTimeline == old(draftTimeline)
      ensures savingTracking == old(savingTracking)
    {
      var before := store.items;
      OnStorageEvent();
      OrdersChangedEffect(now);
      if |orders| > 0 {
        RevisionAfterBroadcast(before, now);
      }
    }

    /**
     * A press of "save" as the page runs it: a rejected draft changes no
     * order, so no effect runs; a commit replaces `orders`, so the effect
     * saves the committed list a second time.
     */
    method SaveTrackingRendered(at: string, now: string, later: string) returns (outcome: SaveOutcome)
      requires trackingEditOrder.Some?
      modifies this, store
      ensures outcome.Rejected? <==>
        HasOrder(old(orders), old(trackingEditOrder).value.id) && Chronology.Validate(old(draftTimeline)).Fail?
      ensures outcome.Rejected? ==>
        && outcome == Rejected(Chronology.Validate(old(draftTimeline)).index, Chronology.Validate(old(draftTimeline)).message)
        && orders == old(orders) && unchanged(store)
        && trackingEditOrder == old(trackingEditOrder) && draftTimeline == old(draftTimeline)
      ensures outcome.Saved? ==>
        && orders == CommitTracking(old(orders), old(trackingEditOrder).value.id, old(draftTimeline), at)
        && store.LoadOrders() == orders
        && store.items.Keys == old(store.items).Keys + {Storage.RevisionKey, Storage.RefreshKey}
        && (forall k :: k in old(store.items) && k != Storage.RevisionKey && k != Storage.RefreshKey ==>
              store.items[k] == old(store.items)[k])
        && store.items[Storage.RefreshKey] == (if old(orders) != [] then later else now)
        && (old(orders) != [] ==>
              store.Revision() == (match old(store.Revision()) case Some(n) => Some(n + 2) case None => None))
        && (old(orders) == [] ==>
              store.Revision() == (match old(store.Revision()) case Some(n) => Some(n + 1) case None => None))
        && trackingEditOrder == None && draftTimeline == []
      ensures !savingTracking
    {
      var before := store.items;
      outcome := SaveTracking(at, now);
      if outcome.Saved? {
        RevisionAfterBroadcast(before, now);
        var middle := store.items;
        OrdersChangedEffect(later);
        if |orders| > 0 {
          RevisionAfterBroadcast(middle, later);
        }
      }
    }

    /**
     * Opens the editor on a copy of the order's timeline, building and
     * storing one first if it has none; a delivered order is refused.
     */
    method OpenTrackingEditor(order: Order) returns (accepted: bool)
      modifies this
      ensures accepted <==> order.status != Entregado
      ensures !accepted ==> unchanged(this)
      ensures accepted ==>
        && trackingEditOrder == Some(WithTimeline(order, addDays))
        && draftTimeline == WithTimeline(order, addDays).tracking.value
        && orders == (if order.tracking.None? then ReplaceById(old(orders), order.id, WithTimeline(order, addDays))
                      else old(orders))
        && savingTracking == old(savingTracking)
    {
      if order.status == Entregado {
        return false;
      }
      var withTracking := order;
      if withTracking.tracking.None? {
        withTracking := order.(tracking := Some(BuildInitialTimeline(order, addDays)));
        orders := ReplaceById(orders, order.id, withTracking);
      }
      draftTimeline := withTracking.tracking.value;
      trackingEditOrder := Some(withTracking);
      return true;
    }

    /** Closes the editor and discards the draft; orders and store are untouched. */
    method CloseTrackingEditor()
      modifies this
      ensures trackingEditOrder == None && draftTimeline == []
      ensures orders == old(orders) && savingTracking == old(savingTracking)
    {
      trackingEditOrder := None;
      draftTimeline := [];
    }

    method UpdateDraftEvent(index: int, field: Field, value: string)
      modifies this
      ensures draftTimeline == TimelineEngine.UpdateDraftEvent(old(draftTimeline), index, field, value)
      ensures orders == old(orders) && trackingEditOrder == old(trackingEditOrder)
      ensures savingTracking == old(savingTracking)
    {
      draftTimeline := TimelineEngine.UpdateDraftEvent(draftTimeline, index, field, value);
    }

    method ToggleCompleted(index: int, value: bool)
      modifies this
      ensures draftTimeline == TimelineEngine.ToggleCompleted(old(draftTimeline), index, value)
      ensures orders == old(orders) && trackingEditOrder == old(trackingEditOrder)
      ensures savingTracking == old(savingTracking)
    {
      draftTimeline := TimelineEngine.ToggleCompleted(draftTimeline, index, value);
    }

    /**
     * Validates the draft, then commits it to the edited order with the
     * derived status and one history entry, saves and closes the editor, all
     * at once; a draft that fails validation changes no order and no storage.
     * Validation runs only when the edited order is still in the list.
     */
    method SaveTracking(at: string, now: string) returns (outcome: SaveOutcome)
      requires trackingEditOrder.Some?
      modifies this, store
      ensures outcome.Rejected? <==>
        HasOrder(old(orders), old(trackingEditOrder).value.id) && Chronology.Validate(old(draftTimeline)).Fail?
      ensures outcome.Rejected? ==>
        && outcome.index == Chronology.Validate(old(draftTimeline)).index
        && outcome.message == Chronology.Validate(old(draftTimeline)).message
        && orders == old(orders) && unchanged(store)
        && trackingEditOrder == old(trackingEditOrder) && draftTimeline == old(draftTimeline)
      ensures outcome.Saved? ==>
        && orders == CommitTracking(old(orders), old(trackingEditOrder).value.id, old(draftTimeline), at)
        && store.LoadOrders() == orders
        && store.items ==
           old(store.items)[Storage.RevisionKey := Storage.NextRevision(old(store.items))][Storage.RefreshKey := now]
        && trackingEditOrder == None && draftTimeline == []
      ensures !savingTracking
    {
      savingTracking := true;
      var id := trackingEditOrder.value.id;
      if HasOrder(orders, id) {
        var validation := Chronology.ValidateTimelineChronology(draftTimeline);
        if validation.Fail? {
          savingTracking := false;
          return Rejected(validation.index, validation.message);
        }
      }
      PersistOrders(CommitTracking(orders, id, draftTimeline, at), now);
      savingTracking := false;
      CloseTrackingEditor();
      return Saved;
    }
  }
}
