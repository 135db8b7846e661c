/** The two stores as objects, and each Lua script as the commands it runs. */
module Stores {
  import opened Types
  import opened SortedSet
  import opened RedisKeys
  import opened Postgres
  import opened Protocol

  class RedisClient {
    var available: map<SaleId, int>
    var reserved: map<SaleId, int>
    var waitlist: map<SaleId, Line>
    var idem: map<(SaleId, Key), (ResId, int)>
    var ttls: set<ResId>

    ghost function Value(): Redis
      reads this
    {
      Redis(available, reserved, waitlist, idem, ttls)
    }

    constructor ()
      ensures Value() == Redis(map[], map[], map[], map[], {})
    {
      available, reserved, waitlist, idem, ttls := map[], map[], map[], map[], {};
    }

    // ---- reserve.lua, release.lua, confirm.lua, waitlist_join.lua, waitlist_promote.lua

    method EvalReserve(k: SaleId) returns (n: int)
      modifies this`available, this`reserved
      ensures (Value(), n) == ReserveLua(old(Value()), k)
    {
      if k !in available || available[k] <= 0 { return -1; }
      available := available[k := available[k] - 1];
      reserved := reserved[k := Num(reserved, k) + 1];
      return 1;
    }

    method EvalRelease(k: SaleId) returns (n: int)
      modifies this`available, this`reserved
      ensures Value() == ReleaseLua(old(Value()), k) && n == 1
    {
      available := available[k := Num(available, k) + 1];
      reserved := reserved[k := Num(reserved, k) - 1];
      return 1;
    }

    method EvalConfirm(k: SaleId) returns (n: int)
      modifies this`reserved
      ensures (Value(), n) == ConfirmLua(old(Value()), k)
    {
      if k !in reserved || reserved[k] <= 0 { return -1; }
      reserved := reserved[k := reserved[k] - 1];
      return 1;
    }

    method EvalJoin(k: SaleId, u: UserId, score: int) returns (n: int)
      modifies this`waitlist
      ensures (Value(), n) == JoinLua(old(Value()), k, u, score)
    {
      if k in available && available[k] > 0 { return -1; }
      var w := if k in waitlist then waitlist[k] else map[];
      if u in w { return -2; }
      w := w[u := score];
      waitlist := waitlist[k := w];
      return Rank(w, u);
    }

    method EvalPromote(k: SaleId) returns (user: Option<UserId>)
      modifies this`available, this`reserved, this`waitlist
      ensures (Value(), user) == PromoteLua(old(Value()), k)
    {
      if k !in available || available[k] <= 0 { return None; }
      var w := if k in waitlist then waitlist[k] else map[];
      if w == map[] { return None; }
      HeadExists(w);
      var u :| u in w && IsHead(w, u);
      HeadUnique(w, u, Head(w));
      waitlist := waitlist[k := w - {u}];
      available := available[k := available[k] - 1];
      reserved := reserved[k := Num(reserved, k) + 1];
      return Some(u);
    }

    // ---- the client's calls, which may fail before or after the script ran

    method Reserve(k: SaleId, d: Delivery) returns (n: int, err: bool)
      modifies this`available, this`reserved
      ensures Value() == if d.NotRun? then old(Value()) else ReserveLua(old(Value()), k).0
      ensures err <==> !d.Answered?
      ensures !err ==> n == ReserveLua(old(Value()), k).1
    {
      n := 0;
      if !d.NotRun? { n := EvalReserve(k); }
      err := !d.Answered?;
    }

    method Release(k: SaleId, d: Delivery) returns (err: bool)
      modifies this`available, this`reserved
      ensures Value() == if d.NotRun? then old(Value()) else ReleaseLua(old(Value()), k)
      ensures err <==> !d.Answered?
    {
      if !d.NotRun? { var _ := EvalRelease(k); }
      err := !d.Answered?;
    }

    method Confirm(k: SaleId, d: Delivery) returns (n: int, err: bool)
      modifies this`reserved
      ensures Value() == if d.NotRun? then old(Value()) else ConfirmLua(old(Value()), k).0
      ensures err <==> !d.Answered?
      ensures !err ==> n == ConfirmLua(old(Value()), k).1
    {
      n := 0;
      if !d.NotRun? { n := EvalConfirm(k); }
      err := !d.Answered?;
    }

    method WaitlistJoin(k: SaleId, u: UserId, score: int, d: Delivery) returns (rank: int, err: bool)
      modifies this`waitlist
      ensures Value() == if d.NotRun? then old(Value()) else JoinLua(old(Value()), k, u, score).0
      ensures err <==> !d.Answered?
      ensures !err ==> rank == JoinLua(old(Value()), k, u, score).1
    {
      rank := 0;
      if !d.NotRun? { rank := EvalJoin(k, u, score); }
      err := !d.Answered?;
    }

    method ZRem(k: SaleId, u: UserId, d: Delivery) returns (removed: int, err: bool)
      modifies this`waitlist
      ensures Value() == if d.NotRun? then old(Value()) else Zrem(old(Value()), k, u).0
      ensures err <==> !d.Answered?
      ensures !err ==> removed == Zrem(old(Value()), k, u).1
    {
      removed := 0;
      if !d.NotRun? && k in waitlist && u in waitlist[k] {
        waitlist := waitlist[k := waitlist[k] - {u}];
        removed := 1;
      }
      err := !d.Answered?;
    }

    method WaitlistPromote(k: SaleId, d: Delivery) returns (user: Option<UserId>, err: bool)
      modifies this`available, this`reserved, this`waitlist
      ensures Value() == if d.NotRun? then old(Value()) else PromoteLua(old(Value()), k).0
      ensures err <==> !d.Answered?
      ensures !err ==> user == PromoteLua(old(Value()), k).1
    {
      user := None;
      if !d.NotRun? { user := EvalPromote(k); }
      err := !d.Answered?;
    }
  }

  class Database {
    var sales: map<SaleId, Sale>
    var rows: map<ResId, Row>
    var orders: map<OrderId, Order>

    ghost function Value(): Db
      reads this
    {
      Db(sales, rows, orders)
    }

    method InsertReservation(id: ResId, row: Row, w: Write) returns (err: bool)
      modifies this`rows
      ensures var t := InsertRow(old(Value()), id, row);
        && Value() == (if w.Rejected? || t.None? then old(Value()) else t.value)
        && (err <==> !w.Applied? || t.None?)
    {
      if w.Rejected? || id in rows || !ValidConfirmation(row) { return true; }
      rows := rows[id := row];
      return !w.Applied?;
    }

    method UpdateStatus(id: ResId, st: Status, w: Write) returns (err: bool)
      modifies this`rows
      ensures var t := SetStatus(old(Value()), id, st);
        && Value() == (if w.Rejected? || t.None? then old(Value()) else t.value)
        && (err <==> !w.Applied? || t.None?)
    {
      if w.Rejected? { return true; }
      if id in rows {
        var row := rows[id].(status := st);
        if !ValidConfirmation(row) { return true; }
        rows := rows[id := row];
      }
      return !w.Applied?;
    }

    method OrderByKey(key: Key) returns (o: Option<OrderId>)
      requires KeysUnique(Value())
      ensures o == OrderWithKey(Value(), key)
    {
      if exists x | x in orders :: orders[x].key == key {
        var x :| x in orders && orders[x].key == key;
        return Some(x);
      }
      return None;
    }

    /** Make a transaction's buffered writes visible. */
    method Commit(scratch: Db)
      requires scratch.sales == sales
      modifies this`rows, this`orders
      ensures Value() == scratch
    {
      rows, orders := scratch.rows, scratch.orders;
    }
  }
}
