/**
 * The in-memory CRUD store of the order manager: records are open field
 * maps, keyed by name, and orders are matched by their "id" field.
 */
module OrderContext {

  /** A field value: the store holds numeric ids and text fields. */
  datatype Value = Num(n: int) | Text(s: string)

  type Record = map<string, Value>

  const IdKey := "id"

  const InitialOrders: seq<Record> := [
    map["id" := Num(1), "cliente" := Text("Juan Perez"), "destino" := Text("Guatemala"),
        "estado" := Text("Pendiente"), "fecha" := Text("2025-09-05"),
        "descripcion" := Text("Paquete pequeño")]
  ]

  /** `record.id === id`; a record without an id matches no value. */
  predicate HasId(r: Record, id: Value) {
    IdKey in r && r[IdKey] == id
  }

  /** Appends the order with `freshId` as its id, replacing any id it had. */
  function AddOrder(orders: seq<Record>, order: Record, freshId: Value): (r: seq<Record>)
    ensures |r| == |orders| + 1 && r[..|orders|] == orders
    ensures HasId(r[|orders|], freshId)
    ensures r[|orders|].Keys == order.Keys + {IdKey}
    ensures forall f :: f in order && f != IdKey ==> r[|orders|][f] == order[f]
  {
    orders + [order[IdKey := freshId]]
  }

  /** Every record with the id takes the fields of `updates` over its own; the others are kept. */
  function UpdateOrder(orders: seq<Record>, id: Value, updates: Record): (r: seq<Record>)
    ensures |r| == |orders|
    ensures forall k :: 0 <= k < |r| && !HasId(orders[k], id) ==> r[k] == orders[k]
    ensures forall k :: 0 <= k < |r| && HasId(orders[k], id) ==>
      && r[k].Keys == orders[k].Keys + updates.Keys
      && (forall f :: f in updates ==> r[k][f] == updates[f])
      && (forall f :: f in orders[k] && f !in updates ==> r[k][f] == orders[k][f])
  {
    seq(|orders|, k requires 0 <= k < |orders| =>
      if HasId(orders[k], id) then orders[k] + updates else orders[k])
  }

  /** Updating twice with the same fields is updating once, even when the update renames the id. */
  lemma {:induction false} UpdateOrderIdempotent(orders: seq<Record>, id: Value, updates: Record)
    ensures UpdateOrder(UpdateOrder(orders, id, updates), id, updates) == UpdateOrder(orders, id, updates)
  {
    var once := UpdateOrder(orders, id, updates);
    var twice := UpdateOrder(once, id, updates);
    forall k | 0 <= k < |orders|
      ensures twice[k] == once[k]
    {
      if HasId(once[k], id) {
        assert once[k] + updates == once[k];
      }
    }
  }

  /** An update for an id no record has changes nothing. */
  lemma {:induction false} UpdateAbsentIsIdentity(orders: seq<Record>, id: Value, updates: Record)
    requires forall k :: 0 <= k < |orders| ==> !HasId(orders[k], id)
    ensures UpdateOrder(orders, id, updates) == orders
  {
    assert forall k :: 0 <= k < |orders| ==> UpdateOrder(orders, id, updates)[k] == orders[k];
  }

  /** Keeps the records without the id, in their order. */
  function DeleteOrder(orders: seq<Record>, id: Value): (r: seq<Record>)
    ensures |r| <= |orders|
    ensures forall k :: 0 <= k < |r| ==> !HasId(r[k], id)
    ensures forall o :: o in r <==> o in orders && !HasId(o, id)
  {
    if |orders| == 0 then []
    else (if HasId(orders[0], id) then [] else [orders[0]]) + DeleteOrder(orders[1..], id)
  }

  /** Deleting from a concatenation deletes from each part, so the survivors keep their order. */
  lemma {:induction false} DeleteOrderConcat(a: seq<Record>, b: seq<Record>, id: Value)
    ensures DeleteOrder(a + b, id) == DeleteOrder(a, id) + DeleteOrder(b, id)
    decreases |a|
  {
    if |a| == 0 {
      assert a + b == b;
    } else {
      assert (a + b)[1..] == a[1..] + b;
      DeleteOrderConcat(a[1..], b, id);
    }
  }

  /** Deleting an id no record has changes nothing. */
  lemma {:induction false} DeleteAbsentIsIdentity(orders: seq<Record>, id: Value)
    requires forall k :: 0 <= k < |orders| ==> !HasId(orders[k], id)
    ensures DeleteOrder(orders, id) == orders
    decreases |orders|
  {
    if |orders| > 0 {
      DeleteAbsentIsIdentity(orders[1..], id);
    }
  }

  /** Deleting removes exactly the records with the id: every other record keeps its multiplicity. */
  lemma {:induction false} DeleteOrderCounts(orders: seq<Record>, id: Value, o: Record)
    ensures multiset(DeleteOrder(orders, id))[o] == if HasId(o, id) then 0 else multiset(orders)[o]
    decreases |orders|
  {
    if |orders| > 0 {
      DeleteOrderCounts(orders[1..], id, o);
      assert orders == [orders[0]] + orders[1..];
    }
  }

  /** Deleting is idempotent. */
  lemma {:induction false} DeleteOrderIdempotent(orders: seq<Record>, id: Value)
    ensures DeleteOrder(DeleteOrder(orders, id), id) == DeleteOrder(orders, id)
  {
    DeleteAbsentIsIdentity(DeleteOrder(orders, id), id);
  }
}
