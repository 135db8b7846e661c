/** The most orders that a sale can come to without a reconcile, from any state whatever. */
module Capacity {
  import opened Types
  import opened Counting
  import opened RedisKeys
  import opened Postgres
  import opened Protocol
  import opened Ledger
  import opened Integrity
  import opened Legs

  /** A confirm of the sale between script and commit whose transaction could still succeed. */
  ghost predicate Pending(s: System, k: SaleId, p: Pid) {
    p in s.procs && InflightOf(k)(s.procs[p]) && s.procs[p].job.ConfirmJob? && !KeyUsed(s.db, s.procs[p].job.key)
  }

  /** The keys of such confirms; of several with one key only one can commit. */
  ghost function FreeKeys(s: System, k: SaleId): set<Key> {
    set p | p in s.procs && Pending(s, k, p) :: s.procs[p].job.key
  }

  /** How many more times confirm.lua can be made to succeed. */
  function Stock(r: Redis, k: SaleId): nat {
    var a := Num(r.available, k);
    var n := Num(r.reserved, k) + (if a > 0 then a else 0);
    if n > 0 then n else 0
  }

  ghost function Ceiling(s: System, k: SaleId): nat {
    LiveOrders(s.db, k) + |FreeKeys(s, k)| + Stock(s.redis, k)
  }

  // ---- no step other than a reconcile of the sale raises it

  lemma OrdersStay(s: System, l: Label)
    requires Enabled(s, l)
    ensures forall o | o in s.db.orders :: o in NextDb(s, l).orders && NextDb(s, l).orders[o] == s.db.orders[o]
    ensures !l.Commit? ==> NextDb(s, l).orders == s.db.orders
  {
  }

  lemma KeysStay(a: Db, b: Db, key: Key)
    requires forall o | o in a.orders :: o in b.orders && b.orders[o] == a.orders[o]
    ensures KeyUsed(a, key) ==> KeyUsed(b, key)
  {
    if KeyUsed(a, key) {
      var o :| o in a.orders && a.orders[o].key == key;
      assert o in b.orders;
    }
  }

  lemma OnlyScriptsGetInflight(s: System, l: Label)
    requires Enabled(s, l) && HasPid(l) && !l.Script?
    ensures !Next(s, l).phase.Committing?
  {
  }

  lemma ConfirmsGetInflight(r: Redis, p: Proc, d: Delivery)
    requires p.sale.Some? && ScriptStep(r, p, d).1.phase.Committing?
    ensures p.job.ConfirmJob? && d.Answered? && ConfirmLua(r, p.sale.value).1 == 1
    ensures ScriptStep(r, p, d).1.sale == p.sale && ScriptStep(r, p, d).1.job == p.job
  {
  }

  /** Only a confirm's script brings a confirm between script and commit. */
  lemma NewlyInflight(s: System, l: Label, k: SaleId, p: Pid)
    requires Enabled(s, l) && p in Step(s, l).procs && InflightOf(k)(Step(s, l).procs[p])
    ensures p in s.procs && s.procs[p].job == Step(s, l).procs[p].job
    ensures InflightOf(k)(s.procs[p]) || (l == Script(p, Answered) && s.procs[p].sale == Some(k)
              && s.procs[p].job.ConfirmJob? && ConfirmLua(s.redis, k).1 == 1)
  {
    if HasPid(l) && p == l.pid {
      if l.Script? { ConfirmsGetInflight(s.redis, s.procs[p], l.d); } else { OnlyScriptsGetInflight(s, l); }
    }
  }

  lemma PendingBefore(s: System, l: Label, k: SaleId, p: Pid)
    requires Enabled(s, l) && Pending(Step(s, l), k, p)
    ensures p in s.procs && s.procs[p].job == Step(s, l).procs[p].job && !KeyUsed(s.db, s.procs[p].job.key)
    ensures Pending(s, k, p) || (l == Script(p, Answered) && s.procs[p].sale == Some(k)
              && s.procs[p].job.ConfirmJob? && ConfirmLua(s.redis, k).1 == 1)
  {
    NewlyInflight(s, l, k, p);
    OrdersStay(s, l);
    KeysStay(s.db, NextDb(s, l), s.procs[p].job.key);
  }

  ghost function Gained(s: System, l: Label, k: SaleId): set<Key>
    requires Enabled(s, l)
  {
    if l.Script? && s.procs[l.pid].job.ConfirmJob? && s.procs[l.pid].sale == Some(k) && !l.d.NotRun?
       && ConfirmLua(s.redis, k).1 == 1
    then {s.procs[l.pid].job.key} else {}
  }

  lemma FreeKeysStep(s: System, l: Label, k: SaleId)
    requires Enabled(s, l)
    ensures FreeKeys(Step(s, l), k) <= FreeKeys(s, k) + Gained(s, l, k)
  {
    var t := Step(s, l);
    forall key | key in FreeKeys(t, k) ensures key in FreeKeys(s, k) + Gained(s, l, k) {
      var p :| p in t.procs && Pending(t, k, p) && t.procs[p].job.key == key;
      PendingBefore(s, l, k, p);
    }
  }

  /** A commit uses its key up and makes one order. */
  lemma CommitUsesKey(s: System, l: Label, k: SaleId)
    requires Enabled(s, l) && l.Commit? && NextDb(s, l) != s.db
    ensures var p := s.procs[l.pid];
      && LiveOrders(NextDb(s, l), k) == LiveOrders(s.db, k) + (if p.sale == Some(k) then 1 else 0)
      && (p.sale == Some(k) ==> p.job.key in FreeKeys(s, k))
      && p.job.key !in FreeKeys(Step(s, l), k)
  {
    var p, d := s.procs[l.pid], NextDb(s, l);
    assert l.oid in d.orders && d.orders[l.oid].key == p.job.key;
    CountPut(s.db.orders, l.oid, d.orders[l.oid], LiveFor(k));
    assert KeyUsed(d, p.job.key);
    if p.sale == Some(k) { assert Pending(s, k, l.pid); }
  }

  lemma CommitCeiling(s: System, l: Label, k: SaleId)
    requires Enabled(s, l) && l.Commit?
    ensures Ceiling(Step(s, l), k) <= Ceiling(s, k)
  {
    FreeKeysStep(s, l, k);
    var t, key := Step(s, l), s.procs[l.pid].job.key;
    if NextDb(s, l) != s.db {
      CommitUsesKey(s, l, k);
      SubsetSize(FreeKeys(t, k), FreeKeys(s, k) - {key});
    } else {
      SubsetSize(FreeKeys(t, k), FreeKeys(s, k));
    }
  }

  lemma StockMoves(r: Redis, k: SaleId, job: Job, j: SaleId)
    ensures var n := RunScript(r, k, job);
      Stock(n.0, j) <= Stock(r, j) - (if job.ConfirmJob? && n.1 == 1 && j == k then 1 else 0)
  {
  }

  lemma ScriptCeiling(s: System, l: Label, k: SaleId)
    requires Enabled(s, l) && l.Script?
    ensures Ceiling(Step(s, l), k) <= Ceiling(s, k)
  {
    FreeKeysStep(s, l, k);
    var p := s.procs[l.pid];
    StockMoves(s.redis, p.sale.value, p.job, k);
    SubsetSize(FreeKeys(Step(s, l), k), FreeKeys(s, k) + Gained(s, l, k));
  }

  lemma OtherStock(s: System, l: Label, k: SaleId)
    requires Enabled(s, l) && !l.Script? && (l.Reconcile? ==> l.k != k)
    ensures Stock(NextRedis(s, l), k) <= Stock(s.redis, k)
  {
  }

  lemma CeilingStep(s: System, l: Label, k: SaleId)
    requires Enabled(s, l) && (l.Reconcile? ==> l.k != k)
    ensures Ceiling(Step(s, l), k) <= Ceiling(s, k)
  {
    if l.Script? { ScriptCeiling(s, l, k); }
    else if l.Commit? { CommitCeiling(s, l, k); }
    else {
      FreeKeysStep(s, l, k);
      SubsetSize(FreeKeys(Step(s, l), k), FreeKeys(s, k));
      OtherStock(s, l, k);
      OrdersStay(s, l);
    }
  }

  lemma {:induction false} CeilingRun(s: System, ls: seq<Label>, k: SaleId)
    requires Runs(s, ls) && Quiet(ls)
    ensures Ceiling(Run(s, ls), k) <= Ceiling(s, k)
    decreases |ls|
  {
    if ls != [] {
      assert Quiet(ls[1..]);
      CeilingStep(s, ls[0], k);
      CeilingRun(Step(s, ls[0]), ls[1..], k);
    }
  }

  // ---- and it is reached

  /** The rows that pending confirms would confirm exist. */
  ghost predicate Backed(s: System, k: SaleId) {
    forall p | Pending(s, k, p) :: s.procs[p].job.res in s.db.rows
  }

  lemma WellFormedIsBacked(s: System, k: SaleId)
    requires WellFormed(s)
    ensures Backed(s, k)
  {
    forall p | Pending(s, k, p) ensures s.procs[p].job.res in s.db.rows {
      assert SaleOk(s.db, s.procs[p]);
    }
  }

  lemma SameFreeKeys(s: System, t: System, k: SaleId)
    requires t.db.orders == s.db.orders && s.db.rows.Keys <= t.db.rows.Keys && Backed(s, k)
    requires forall p :: Pending(t, k, p) <==> Pending(s, k, p)
    requires forall p | p in s.procs && Pending(s, k, p) :: p in t.procs && t.procs[p].job == s.procs[p].job
    ensures FreeKeys(t, k) == FreeKeys(s, k) && Backed(t, k)
  {
    forall key ensures key in FreeKeys(t, k) <==> key in FreeKeys(s, k) {
      if key in FreeKeys(s, k) {
        var p :| p in s.procs && Pending(s, k, p) && s.procs[p].job.key == key;
        assert Pending(t, k, p);
      }
      if key in FreeKeys(t, k) {
        var p :| p in t.procs && Pending(t, k, p) && t.procs[p].job.key == key;
        assert Pending(s, k, p);
      }
    }
  }

  lemma ReserveOne(s: System, k: SaleId) returns (t: System)
    requires Num(s.redis.available, k) > 0 && Backed(s, k)
    ensures Leads(s, t) && Backed(t, k) && t.db.orders == s.db.orders && FreeKeys(t, k) == FreeKeys(s, k)
    ensures Num(t.redis.available, k) == Num(s.redis.available, k) - 1
    ensures Num(t.redis.reserved, k) == Num(s.redis.reserved, k) + 1
    ensures Held(t.db, k) == Held(s.db, k) + 1
  {
    var p := FreshId(s.procs.Keys);
    var id := FreshId(s.db.rows.Keys);
    ReserveLeg(s, k, p, 0, id, 0);
    t := AfterReserve(s, k, p, 0, id, 0);
    CountPut(s.db.rows, id, t.db.rows[id], HeldBy(k));
    SameFreeKeys(s, t, k);
  }

  lemma {:induction false} ReserveMany(s: System, k: SaleId, n: nat) returns (t: System)
    requires (n > 0 ==> Num(s.redis.available, k) >= n) && Backed(s, k)
    ensures Leads(s, t) && Backed(t, k) && t.db.orders == s.db.orders && FreeKeys(t, k) == FreeKeys(s, k)
    ensures Num(t.redis.reserved, k) == Num(s.redis.reserved, k) + n
    ensures Held(t.db, k) == Held(s.db, k) + n
    decreases n
  {
    LeadsHere(s);
    t := s;
    if n > 0 {
      var a := ReserveOne(s, k);
      t := ReserveMany(a, k, n - 1);
      LeadsTrans(s, a, t);
    }
  }

  lemma OneKeyMore(s: System, t: System, k: SaleId, p: Pid)
    requires t.db == s.db && p !in s.procs && p in t.procs && t.procs - {p} == s.procs && Backed(s, k)
    requires Pending(t, k, p) && t.procs[p].job.res in t.db.rows && t.procs[p].job.key !in FreeKeys(s, k)
    ensures |FreeKeys(t, k)| == |FreeKeys(s, k)| + 1 && Backed(t, k)
  {
    var own := t.procs[p].job.key;
    forall q | q in s.procs ensures q in t.procs && t.procs[q] == s.procs[q] && Pending(t, k, q) == Pending(s, k, q) {
      assert q in t.procs - {p};
    }
    forall q | q in t.procs && q != p ensures q in s.procs {
      assert q in t.procs - {p};
    }
    forall key ensures key in FreeKeys(t, k) <==> key in FreeKeys(s, k) + {own} {
      if key in FreeKeys(s, k) {
        var q :| q in s.procs && Pending(s, k, q) && s.procs[q].job.key == key;
        assert Pending(t, k, q) && t.procs[q].job.key == key;
      }
      if key in FreeKeys(t, k) {
        var q :| q in t.procs && Pending(t, k, q) && t.procs[q].job.key == key;
        assert q == p || Pending(s, k, q);
      }
    }
    assert FreeKeys(t, k) == FreeKeys(s, k) + {own};
  }

  /** Any number of confirms of one and the same reservation get past confirm.lua. */
  lemma {:induction false} ScriptMany(s: System, k: SaleId, n: nat) returns (t: System)
    requires (n > 0 ==> Num(s.redis.reserved, k) >= n && Held(s.db, k) > 0) && Backed(s, k)
    ensures Leads(s, t) && Backed(t, k) && t.db == s.db
    ensures |FreeKeys(t, k)| == |FreeKeys(s, k)| + n
    decreases n
  {
    LeadsHere(s);
    t := s;
    if n > 0 {
      var id :| id in Matching(s.db.rows, HeldBy(k));
      var p := FreshId(s.procs.Keys);
      var key := FreshKey(s.db, FreeKeys(s, k));
      ConfirmLeg(s, k, p, id, key);
      var a := AfterConfirmLua(s, k, p, id, key);
      assert Pending(a, k, p) && a.procs - {p} == s.procs;
      OneKeyMore(s, a, k, p);
      t := ScriptMany(a, k, n - 1);
      LeadsTrans(s, a, t);
    }
  }

  lemma CommitWrites(s: System, k: SaleId, p: Pid, oid: OrderId)
    requires Pending(s, k, p) && s.procs[p].job.res in s.db.rows && oid !in s.db.orders
    ensures var l := Commit(p, oid, 0, Committed);
      && Enabled(s, l) && NextDb(s, l) != s.db && NextDb(s, l).rows.Keys == s.db.rows.Keys
      && (forall x | KeyUsed(NextDb(s, l), x) :: x == s.procs[p].job.key || KeyUsed(s.db, x))
      && NextProcs(s, l) - {p} == s.procs - {p}
  {
    var l := Commit(p, oid, 0, Committed);
    assert oid in NextDb(s, l).orders;
  }

  lemma OtherKeysStay(s: System, t: System, k: SaleId, p: Pid, x: Key)
    requires Pending(s, k, p) && t.procs - {p} == s.procs - {p}
    requires KeyUsed(t.db, x) ==> KeyUsed(s.db, x)
    requires x in FreeKeys(s, k) && x != s.procs[p].job.key
    ensures x in FreeKeys(t, k)
  {
    var q :| q in s.procs && Pending(s, k, q) && s.procs[q].job.key == x;
    assert q in s.procs - {p};
    assert q in t.procs - {p} && Pending(t, k, q);
  }

  lemma StillBacked(s: System, l: Label, k: SaleId)
    requires Enabled(s, l) && !l.Script? && Backed(s, k) && s.db.rows.Keys <= NextDb(s, l).rows.Keys
    ensures Backed(Step(s, l), k)
  {
    var t := Step(s, l);
    forall q | Pending(t, k, q) ensures t.procs[q].job.res in t.db.rows {
      PendingBefore(s, l, k, q);
    }
  }

  lemma CommitOne(s: System, k: SaleId, p: Pid) returns (t: System)
    requires Pending(s, k, p) && Backed(s, k)
    ensures Leads(s, t) && Backed(t, k) && LiveOrders(t.db, k) == LiveOrders(s.db, k) + 1
    ensures FreeKeys(t, k) == FreeKeys(s, k) - {s.procs[p].job.key}
  {
    var oid := FreshId(s.db.orders.Keys);
    var l := Commit(p, oid, 0, Committed);
    CommitWrites(s, k, p, oid);
    t := Step(s, l);
    LeadsStep(s, l);
    CommitUsesKey(s, l, k);
    FreeKeysStep(s, l, k);
    StillBacked(s, l, k);
    forall x | x in FreeKeys(s, k) && x != s.procs[p].job.key ensures x in FreeKeys(t, k) {
      OtherKeysStay(s, t, k, p, x);
    }
  }

  /** One confirm for every free key commits. */
  lemma {:induction false} CommitAll(s: System, k: SaleId) returns (t: System)
    requires Backed(s, k)
    ensures Leads(s, t) && LiveOrders(t.db, k) == LiveOrders(s.db, k) + |FreeKeys(s, k)|
    decreases |FreeKeys(s, k)|
  {
    LeadsHere(s);
    t := s;
    if FreeKeys(s, k) != {} {
      var key :| key in FreeKeys(s, k);
      var p :| p in s.procs && Pending(s, k, p) && s.procs[p].job.key == key;
      var a := CommitOne(s, k, p);
      t := CommitAll(a, k);
      LeadsTrans(s, a, t);
    }
  }

  /** There is a reservation to confirm, or a unit to reserve. */
  ghost predicate Stocked(s: System, k: SaleId) {
    Num(s.redis.available, k) > 0 || Held(s.db, k) > 0
  }

  lemma CeilingIsReached(s: System, k: SaleId) returns (t: System)
    requires Backed(s, k) && (Stocked(s, k) || Stock(s.redis, k) == 0)
    ensures Leads(s, t) && LiveOrders(t.db, k) == Ceiling(s, k)
  {
    var n := if Num(s.redis.available, k) > 0 then Num(s.redis.available, k) else 0;
    var a := ReserveMany(s, k, n);
    var b := ScriptMany(a, k, Stock(s.redis, k));
    t := CommitAll(b, k);
    LeadsTrans(s, a, b);
    LeadsTrans(s, b, t);
  }

  /** Whatever the counters, the rows and the handlers are: no run without reconciles ends with more
      live orders than the ceiling, and one ends with exactly as many, provided that there is something
      to confirm or to reserve or that confirm.lua can take nothing. */
  lemma MostOrders(s: System, k: SaleId)
    ensures forall t | Leads(s, t) :: LiveOrders(t.db, k) <= Ceiling(s, k)
    ensures WellFormed(s) && (Stocked(s, k) || Stock(s.redis, k) == 0) ==>
              exists t :: Leads(s, t) && LiveOrders(t.db, k) == Ceiling(s, k)
  {
    if WellFormed(s) && (Stocked(s, k) || Stock(s.redis, k) == 0) {
      WellFormedIsBacked(s, k);
      var u := CeilingIsReached(s, k);
    }
    forall t | Leads(s, t) ensures LiveOrders(t.db, k) <= Ceiling(s, k) {
      var ls :| Quiet(ls) && Runs(s, ls) && Run(s, ls) == t;
      CeilingRun(s, ls, k);
    }
  }
}
