/**
 * The order store: the browser's key-value storage holding the orders
 * payload, a revision counter and a one-time seed flag, plus the key filter
 * that decides which storage events make a viewer reload.
 */
module Storage {
  import opened Wrappers
  import opened Strings
  import opened Orders

  const OrdersKey := "expressia_orders"
  const SeedFlagKey := "expressia_orders_seeded"
  const RevisionKey := "expressia_orders_rev"
  const RefreshKey := "storage_manual_refresh"

  /**
   * What `JSON.parse` makes of the text under the orders key: Missing when the
   * key is absent or holds the empty string, Malformed when parsing throws,
   * NonArray for a document that is not an array, Arr for an array of orders.
   */
  datatype Payload = Missing | Malformed | NonArray | Arr(orders: seq<Order>)

  /** The demo orders written the first time the store is found empty. */
  const SeedOrders: seq<Order> := [
    Order("1", "EXP2024001", Some(Owner(None, "María González", "maria@example.com")),
          "Guatemala", "Costa Rica", Entregado, "2025-09-18", 45.50, 2.5, None, None, None, []),
    Order("2", "EXP2024002", Some(Owner(None, "Carlos Rodríguez", "carlos@example.com")),
          "El Salvador", "Honduras", EnTransito, "2025-09-22", 32.00, 1.8, None, None, None, []),
    Order("3", "EXP2024003", Some(Owner(None, "Ana Martínez", "ana@example.com")),
          "Nicaragua", "Panamá", Pendiente, "2025-09-23", 67.25, 4.2, None, None, None, [])
  ]

  /** The seed orders, each given a timeline by the builder when there is one. */
  function WithTracking(seed: seq<Order>, build: Option<Order -> Timeline>): (r: seq<Order>)
    ensures |r| == |seed|
    ensures forall k :: 0 <= k < |seed| ==>
      r[k] == (if build.Some? then seed[k].(tracking := Some(build.value(seed[k]))) else seed[k])
  {
    match build
    case Some(f) => seq(|seed|, k requires 0 <= k < |seed| => seed[k].(tracking := Some(f(seed[k]))))
    case None => seed
  }

  /** The revision text `getItem(REV_KEY) || '0'` reads: a missing or empty value reads as "0". */
  function RevisionText(items: map<string, string>): string {
    if RevisionKey in items && items[RevisionKey] != "" then items[RevisionKey] else "0"
  }

  /** The revision number stored, None when its text does not parse (NaN). */
  function RevisionOf(items: map<string, string>): Option<int> {
    ParseInt(RevisionText(items))
  }

  /** The text a save writes under the revision key: the stored revision plus one, or "NaN". */
  function NextRevision(items: map<string, string>): string {
    match RevisionOf(items)
    case Some(n) => IntToString(n + 1)
    case None => "NaN"
  }

  /** Writing the next revision increments the counter by one; NaN stays NaN. */
  lemma NextRevisionIncrements(items: map<string, string>)
    ensures RevisionOf(items[RevisionKey := NextRevision(items)]) ==
      match RevisionOf(items)
      case Some(n) => Some(n + 1)
      case None => None
  {
    match RevisionOf(items) {
      case Some(n) =>
        ParseIntToString(n + 1);
        assert IntToString(n + 1) != "" by {
          assert |NatToString(if n + 1 < 0 then -(n + 1) else n + 1)| > 0;
        }
      case None =>
        assert DigitPrefix("NaN") == "";
    }
  }

  /** A store that was never written starts its revision at 0, so the first save writes "1". */
  lemma FirstRevisionIsOne(items: map<string, string>)
    requires RevisionKey !in items
    ensures NextRevision(items) == "1"
  {
    assert DigitPrefix("0") == "0";
    assert DigitChar(1) == '1';
  }

  /** Which storage events make a viewer reload: `e.key` is None when the whole storage was cleared. */
  predicate ReloadsOn(key: Option<string>) {
    key == Some(RefreshKey) || key == Some(RevisionKey) || key == Some(OrdersKey)
  }

  class OrderStore {
    /** The value stored under `expressia_orders`. */
    var payload: Payload
    /**
     * Every other key of the storage and its text; `expressia_orders` is
     * never among them, and no method writes it here.
     */
    var items: map<string, string>

    constructor (payload: Payload, items: map<string, string>)
      requires OrdersKey !in items
      ensures this.payload == payload && this.items == items
    {
      this.payload := payload;
      this.items := items;
    }

    /** The orders a reader sees: corruption of any kind reads as no orders. */
    function LoadOrders(): (r: seq<Order>)
      reads this
      ensures payload.Arr? ==> r == payload.orders
      ensures !payload.Arr? ==> r == []
    {
      if payload.Arr? then payload.orders else []
    }

    function Revision(): Option<int>
      reads this
    {
      RevisionOf(items)
    }

    predicate Seeded()
      reads this
    {
      SeedFlagKey in items && items[SeedFlagKey] == "1"
    }

    /** Stores the orders and bumps the revision by exactly one write. */
    method SaveOrders(orders: seq<Order>)
      modifies this
      ensures payload == Arr(orders)
      ensures items == old(items)[RevisionKey := NextRevision(old(items))]
      ensures LoadOrders() == orders
      ensures Revision() == (match old(Revision()) case Some(n) => Some(n + 1) case None => None)
      ensures Seeded() == old(Seeded())
    {
      payload := Arr(orders);
      NextRevisionIncrements(items);
      var rev := NextRevision(items);
      items := items[RevisionKey := rev];
    }

    /**
     * Writes the demo orders once: never when orders exist, and never again
     * once the seed flag is set, so a store emptied by its user stays empty.
     */
    method EnsureSeedOrders(build: Option<Order -> Timeline>) returns (r: seq<Order>)
      modifies this
      ensures old(LoadOrders()) != [] ==> r == old(LoadOrders()) && unchanged(this)
      ensures old(LoadOrders()) == [] && old(Seeded()) ==> r == [] && unchanged(this)
      ensures old(LoadOrders()) == [] && !old(Seeded()) ==>
        && r == WithTracking(SeedOrders, build)
        && payload == Arr(r)
        && items == old(items)[RevisionKey := NextRevision(old(items))][SeedFlagKey := "1"]
      ensures LoadOrders() == r
      ensures r != [] || Seeded()
    {
      var already := LoadOrders();
      if |already| > 0 {
        return already;
      }
      if SeedFlagKey in items && items[SeedFlagKey] == "1" {
        return already;
      }
      var withTracking := WithTracking(SeedOrders, build);
      SaveOrders(withTracking);
      items := items[SeedFlagKey := "1"];
      return withTracking;
    }

    /** Seeding twice is seeding once: the second call writes nothing and returns the same orders. */
    method SeedTwice(build: Option<Order -> Timeline>) returns (first: seq<Order>, second: seq<Order>)
      modifies this
      ensures second == first
      ensures old(LoadOrders()) != [] || old(Seeded()) ==> payload == old(payload) && items == old(items)
      ensures old(LoadOrders()) == [] && !old(Seeded()) ==>
        && first == WithTracking(SeedOrders, build)
        && payload == Arr(first)
        && items == old(items)[RevisionKey := NextRevision(old(items))][SeedFlagKey := "1"]
    {
      first := EnsureSeedOrders(build);
      second := EnsureSeedOrders(build);
    }

    /** What the change listener passes to its callback for a storage event, if it calls back at all. */
    function OrdersChangeHandler(key: Option<string>): (r: Option<seq<Order>>)
      reads this
      ensures r.Some? <==> ReloadsOn(key)
      ensures r.Some? ==> r.value == LoadOrders()
    {
      if ReloadsOn(key) then Some(LoadOrders()) else None
    }

    /** Signals other viewers by writing the timestamp text `now` under the refresh key only. */
    method BroadcastOrdersChange(now: string)
      modifies this
      ensures payload == old(payload)
      ensures items == old(items)[RefreshKey := now]
      ensures LoadOrders() == old(LoadOrders()) && Revision() == old(Revision()) && Seeded() == old(Seeded())
    {
      items := items[RefreshKey := now];
    }
  }
}
