/** The tables, with the schema's constraints. A statement that a constraint rejects yields None. */
module Postgres {
  import opened Types
  import opened Counting

  datatype SaleStatus = SalePending | SaleActive | SalePaused | SaleEnded
  datatype Sale = Sale(total: int, status: SaleStatus)

  datatype Status = Reserved | Confirmed | Released | Expired
  datatype Row = Row(user: UserId, sale: SaleId, status: Status, confirmedAt: Option<int>,
                     expiresAt: int, promoted: bool)

  datatype OrderStatus = OrderPending | Paid | Failed | Refunded
  datatype Order = Order(reservation: ResId, user: UserId, sale: SaleId, status: OrderStatus, key: Key)

  datatype Db = Db(sales: map<SaleId, Sale>, rows: map<ResId, Row>, orders: map<OrderId, Order>)

  /** CHECK valid_confirmation. */
  predicate ValidConfirmation(row: Row) {
    || (row.status == Confirmed && row.confirmedAt.Some?)
    || (row.status != Confirmed && row.confirmedAt.None?)
  }

  ghost predicate RowsValid(db: Db) {
    forall id | id in db.rows :: ValidConfirmation(db.rows[id])
  }

  /** UNIQUE orders.idempotency_key. */
  ghost predicate KeysUnique(db: Db) {
    forall a, b | a in db.orders && b in db.orders && db.orders[a].key == db.orders[b].key :: a == b
  }

  predicate KeyUsed(db: Db, key: Key) {
    exists o | o in db.orders :: db.orders[o].key == key
  }

  /** SELECT ... FROM orders WHERE idempotency_key = $1. */
  ghost function OrderWithKey(db: Db, key: Key): (r: Option<OrderId>)
    ensures r.Some? <==> KeyUsed(db, key)
    ensures r.Some? ==> r.value in db.orders && db.orders[r.value].key == key
  {
    if KeyUsed(db, key) then
      var o :| o in db.orders && db.orders[o].key == key;
      Some(o)
    else None
  }

  function InsertRow(db: Db, id: ResId, row: Row): Option<Db> {
    if id in db.rows || !ValidConfirmation(row) then None
    else Some(db.(rows := db.rows[id := row]))
  }

  /** UPDATE reservations SET status = st WHERE id: updating no row is not an error. */
  function SetStatus(db: Db, id: ResId, st: Status): Option<Db> {
    if id !in db.rows then Some(db)
    else
      var row := db.rows[id].(status := st);
      if ValidConfirmation(row) then Some(db.(rows := db.rows[id := row])) else None
  }

  function MarkConfirmed(db: Db, id: ResId, now: int): Db
    requires id in db.rows
  {
    db.(rows := db.rows[id := db.rows[id].(status := Confirmed, confirmedAt := Some(now))])
  }

  function InsertOrder(db: Db, oid: OrderId, order: Order): Option<Db> {
    if oid in db.orders || KeyUsed(db, order.key) then None
    else Some(db.(orders := db.orders[oid := order]))
  }

  /** Confirm's transaction: mark the row confirmed and insert its order, or neither. */
  function ConfirmTx(db: Db, id: ResId, sale: SaleId, oid: OrderId, key: Key, now: int): Option<Db> {
    if id !in db.rows then None
    else InsertOrder(MarkConfirmed(db, id, now), oid, Order(id, db.rows[id].user, sale, OrderPending, key))
  }

  function HeldBy(k: SaleId): Row -> bool {
    (row: Row) => row.sale == k && row.status == Reserved
  }

  function ActiveFor(k: SaleId, now: int): Row -> bool {
    (row: Row) => row.sale == k && row.status == Reserved && row.expiresAt > now
  }

  function LiveFor(k: SaleId): Order -> bool {
    (o: Order) => o.sale == k && (o.status == OrderPending || o.status == Paid)
  }

  function OrderOf(k: SaleId): Order -> bool {
    (o: Order) => o.sale == k
  }

  /** Rows of a sale in status reserved. */
  ghost function Held(db: Db, k: SaleId): nat {
    Count(db.rows, HeldBy(k))
  }

  /** The reconcilers' first count: reserved and not past their deadline. */
  ghost function ActiveRows(db: Db, k: SaleId, now: int): nat {
    Count(db.rows, ActiveFor(k, now))
  }

  /** The reconcilers' second count: orders pending or paid. */
  ghost function LiveOrders(db: Db, k: SaleId): nat {
    Count(db.orders, LiveFor(k))
  }

  ghost function Orders(db: Db, k: SaleId): nat {
    Count(db.orders, OrderOf(k))
  }

  /** What `available` should be: total stock less active reservations and live orders. */
  ghost function Expected(db: Db, k: SaleId, now: int): int
    requires k in db.sales
  {
    db.sales[k].total - ActiveRows(db, k, now) - LiveOrders(db, k)
  }
  // ---- what the counts mean, row by row

  /** Reserved rows of a sale whose deadline has passed. */
  ghost function Overdue(db: Db, k: SaleId, now: int): nat {
    |set id | id in db.rows && db.rows[id].sale == k && db.rows[id].status == Reserved
              && db.rows[id].expiresAt <= now|
  }

  lemma ActiveRowsAre(db: Db, k: SaleId, now: int)
    ensures ActiveRows(db, k, now)
         == |set id | id in db.rows && db.rows[id].sale == k && db.rows[id].status == Reserved
                      && db.rows[id].expiresAt > now|
  {
    var found := set id | id in db.rows && db.rows[id].sale == k && db.rows[id].status == Reserved
                          && db.rows[id].expiresAt > now;
    assert Matching(db.rows, ActiveFor(k, now)) == found;
  }

  lemma LiveOrdersAre(db: Db, k: SaleId)
    ensures LiveOrders(db, k)
         == |set o | o in db.orders && db.orders[o].sale == k
                     && (db.orders[o].status == OrderPending || db.orders[o].status == Paid)|
  {
    var found := set o | o in db.orders && db.orders[o].sale == k
                         && (db.orders[o].status == OrderPending || db.orders[o].status == Paid);
    assert Matching(db.orders, LiveFor(k)) == found;
  }

  /** A row that leaves status reserved leaves the count exactly if its deadline was still to come. */
  lemma LeavingTheCount(db: Db, id: ResId, st: Status, now: int)
    requires id in db.rows && db.rows[id].status == Reserved && st != Reserved
    ensures var k := db.rows[id].sale;
      ActiveRows(db.(rows := db.rows[id := db.rows[id].(status := st)]), k, now)
        == ActiveRows(db, k, now) - (if db.rows[id].expiresAt > now then 1 else 0)
  {
    CountPut(db.rows, id, db.rows[id].(status := st), ActiveFor(db.rows[id].sale, now));
  }

  /** A new order enters the count exactly if it is pending or paid, whatever the row it is for. */
  lemma EnteringTheCount(db: Db, oid: OrderId, order: Order)
    requires oid !in db.orders
    ensures LiveOrders(db.(orders := db.orders[oid := order]), order.sale)
         == LiveOrders(db, order.sale) + (if order.status == OrderPending || order.status == Paid then 1 else 0)
  {
    CountPut(db.orders, oid, order, LiveFor(order.sale));
  }

  /** Every reserved row is either counted or overdue. */
  lemma HeldSplits(db: Db, k: SaleId, now: int)
    ensures Held(db, k) == ActiveRows(db, k, now) + Overdue(db, k, now)
  {
    var late := (row: Row) => row.sale == k && row.status == Reserved && row.expiresAt <= now;
    CountSplit(db.rows, ActiveFor(k, now), late, HeldBy(k));
    assert Matching(db.rows, late) == set id | id in db.rows && db.rows[id].sale == k
                                               && db.rows[id].status == Reserved && db.rows[id].expiresAt <= now;
  }
}
