/** The stock ledger, in every interleaving with every failure, and the zero-oversell guarantee. */
module Ledger {
  import opened Types
  import opened Counting
  import opened RedisKeys
  import opened Postgres
  import opened Protocol

  ghost function InflightOf(k: SaleId): Proc -> bool {
    (p: Proc) => p.phase.Committing? && p.sale == Some(k)
  }

  ghost function LostOf(k: SaleId): Proc -> bool {
    (p: Proc) => p.lost && p.sale == Some(k)
  }

  /** Confirms between their script and the end of their transaction. */
  ghost function Inflight(s: System, k: SaleId): nat { Count(s.procs, InflightOf(k)) }

  /** Confirms whose script took a unit and that produced no order. */
  ghost function Lost(s: System, k: SaleId): nat { Count(s.procs, LostOf(k)) }

  ghost function Spoken(s: System, k: SaleId): nat {
    LiveOrders(s.db, k) + Inflight(s, k) + Lost(s, k)
  }

  /** The ledger of one sale. `reserved` may be negative; every other term may not. */
  ghost predicate Balanced(s: System, k: SaleId) {
    && k in s.db.sales
    && Num(s.redis.available, k) >= 0
    && Num(s.redis.available, k) + Num(s.redis.reserved, k) + Spoken(s, k) == s.db.sales[k].total
    && Spoken(s, k) <= s.db.sales[k].total
  }

  /** Only a handler that is past its transaction has lost a unit. */
  ghost predicate HistoryOk(s: System) {
    forall p | p in s.procs && s.procs[p].lost :: s.procs[p].phase.Undoing? || s.procs[p].phase.Ended?
  }

  /** Counters of a sale as they were. */
  predicate SameStock(a: Redis, b: Redis, k: SaleId) {
    Num(a.available, k) == Num(b.available, k) && Num(a.reserved, k) == Num(b.reserved, k)
  }

  /** The reconcile leaves both counters as it recomputed them, by its writes or because they were. */
  ghost predicate Settles(s: System, k: SaleId, now: int, c: Calls) {
    && k in s.db.sales
    && !Drifts(ReconcileRedis(s.redis, s.db, k, now, c), k, Expected(s.db, k, now), ActiveRows(s.db, k, now))
  }

  /** The reconcile changes neither counter. */
  ghost predicate Idles(s: System, k: SaleId, now: int, c: Calls) {
    k in s.db.sales && SameStock(ReconcileRedis(s.redis, s.db, k, now, c), s.redis, k)
  }

  /** When a reconciler may overwrite the counters of a sale. */
  ghost predicate ReconcileSafe(s: System, k: SaleId, now: int) {
    && k in s.db.sales
    && Inflight(s, k) == 0
    && ActiveRows(s.db, k, now) + LiveOrders(s.db, k) <= s.db.sales[k].total
  }

  ghost predicate Guarded(s: System, l: Label) {
    l.Reconcile? ==>
      || Idles(s, l.k, l.now, l.c)
      || (Settles(s, l.k, l.now, l.c) && ReconcileSafe(s, l.k, l.now))
  }

  lemma HistoryStep(s: System, l: Label)
    requires HistoryOk(s) && Enabled(s, l)
    ensures HistoryOk(Step(s, l))
  {
  }

  /** What handler `pid` weighs in a count. */
  ghost function Weight(procs: map<Pid, Proc>, pid: Pid, f: Proc -> bool): nat {
    if pid in procs && f(procs[pid]) then 1 else 0
  }

  /** A handler's step moves a count by what that handler alone changes. */
  lemma CountMoves(s: System, l: Label, f: Proc -> bool)
    requires Enabled(s, l) && HasPid(l)
    ensures Count(Step(s, l).procs, f)
         == Count(s.procs, f) - Weight(s.procs, l.pid, f) + Weight(Step(s, l).procs, l.pid, f)
  {
    CountPut(s.procs, l.pid, Next(s, l), f);
  }

  /** What one handler counts for in `Spoken`. */
  ghost function Speaks(p: Proc, k: SaleId): nat {
    (if InflightOf(k)(p) then 1 else 0) + (if LostOf(k)(p) then 1 else 0)
  }

  function Shelf(r: Redis, k: SaleId): int {
    Num(r.available, k) + Num(r.reserved, k)
  }

  lemma SpokenMoves(s: System, l: Label, k: SaleId)
    requires Enabled(s, l) && HasPid(l)
    ensures Spoken(Step(s, l), k) - LiveOrders(NextDb(s, l), k) == Spoken(s, k) - LiveOrders(s.db, k)
              - (if l.pid in s.procs then Speaks(s.procs[l.pid], k) else 0) + Speaks(Next(s, l), k)
  {
    CountMoves(s, l, InflightOf(k));
    CountMoves(s, l, LostOf(k));
  }

  /** Only confirm.lua takes a unit off the shelf, and only one that `reserved` shows. */
  lemma RunMoves(r: Redis, k: SaleId, job: Job, j: SaleId)
    ensures var n := RunScript(r, k, job);
      && (n.1 == 1 || n.1 == -1)
      && Shelf(n.0, j) == Shelf(r, j) - (if job.ConfirmJob? && n.1 == 1 && j == k then 1 else 0)
      && (Num(r.available, j) >= 0 ==> Num(n.0.available, j) >= 0)
      && (job.ConfirmJob? ==> (n.1 == 1 <==> Num(r.reserved, k) > 0))
  {
  }

  lemma ScriptSpeaks(p: Proc, n: int, d: Delivery, k: SaleId)
    requires p.phase.Scripting? && !p.lost && (n == 1 || n == -1)
    ensures Speaks(AfterScript(p, n, d), k) == if p.job.ConfirmJob? && n == 1 && p.sale == Some(k) then 1 else 0
  {
  }

  lemma ScriptBalances(s: System, l: Label, k: SaleId)
    requires Balanced(s, k) && HistoryOk(s) && Enabled(s, l) && l.Script?
    ensures Balanced(Step(s, l), k)
  {
    var p := s.procs[l.pid];
    if !l.d.NotRun? {
      RunMoves(s.redis, p.sale.value, p.job, k);
      ScriptSpeaks(p, RunScript(s.redis, p.sale.value, p.job).1, l.d, k);
    }
    SpokenMoves(s, l, k);
  }

  /** A confirm's unit becomes an order or is lost. */
  lemma CommitMoves(db: Db, p: Proc, oid: OrderId, now: int, tx: Tx, k: SaleId)
    requires p.sale.Some? && p.job.ConfirmJob? && p.phase.Committing? && !p.lost
    ensures var n := CommitStep(db, p, oid, now, tx);
      LiveOrders(n.0, k) + Speaks(n.1, k) == LiveOrders(db, k) + Speaks(p, k)
  {
    var n := CommitStep(db, p, oid, now, tx);
    if n.0 != db {
      CountPut(db.orders, oid, n.0.orders[oid], LiveFor(k));
    }
  }

  lemma CommitBalances(s: System, l: Label, k: SaleId)
    requires Balanced(s, k) && HistoryOk(s) && Enabled(s, l) && l.Commit?
    ensures Balanced(Step(s, l), k)
  {
    CommitMoves(s.db, s.procs[l.pid], l.oid, l.now, l.tx, k);
    SpokenMoves(s, l, k);
  }

  /** No other step changes what the shelf and the handlers hold together. */
  lemma OtherMoves(s: System, l: Label, k: SaleId)
    requires HistoryOk(s) && Enabled(s, l) && HasPid(l) && !l.Script? && !l.Commit?
    ensures var n := NextRedis(s, l);
      && Shelf(n, k) == Shelf(s.redis, k)
      && (Num(s.redis.available, k) >= 0 ==> Num(n.available, k) >= 0)
    ensures NextDb(s, l).orders == s.db.orders && NextDb(s, l).sales == s.db.sales
  {
  }

  lemma OtherSpeaks(s: System, l: Label, k: SaleId)
    requires HistoryOk(s) && Enabled(s, l) && HasPid(l) && !l.Script? && !l.Commit?
    ensures Speaks(Next(s, l), k) == if l.pid in s.procs then Speaks(s.procs[l.pid], k) else 0
  {
  }

  lemma OtherBalances(s: System, l: Label, k: SaleId)
    requires Balanced(s, k) && HistoryOk(s) && Enabled(s, l) && HasPid(l) && !l.Script? && !l.Commit?
    ensures Balanced(Step(s, l), k)
  {
    OtherMoves(s, l, k);
    OtherSpeaks(s, l, k);
    SpokenMoves(s, l, k);
  }

  lemma Forgiven(s: System, k: SaleId, j: SaleId)
    ensures Count(Forgive(s.procs, k), InflightOf(j)) == Inflight(s, j)
    ensures Count(Forgive(s.procs, k), LostOf(j)) == if j == k then 0 else Lost(s, j)
  {
    var f := Forgive(s.procs, k);
    assert Matching(f, InflightOf(j)) == Matching(s.procs, InflightOf(j));
    if j == k {
      assert Matching(f, LostOf(j)) == {};
    } else {
      assert Matching(f, LostOf(j)) == Matching(s.procs, LostOf(j));
    }
  }

  /** A guarded reconcile balances its sale whatever the counters held, and touches no other. */
  lemma ReconcileBalances(s: System, k: SaleId, now: int, c: Calls)
    requires ReconcileSafe(s, k, now) && Settles(s, k, now, c)
    ensures Balanced(Step(s, Reconcile(k, now, c)), k)
    ensures Lost(Step(s, Reconcile(k, now, c)), k) == 0
  {
    Forgiven(s, k, k);
  }

  lemma IdleBalances(s: System, k: SaleId, now: int, c: Calls)
    requires Balanced(s, k) && Idles(s, k, now, c)
    ensures Balanced(Step(s, Reconcile(k, now, c)), k)
  {
    Forgiven(s, k, k);
  }

  lemma ElsewhereBalances(s: System, j: SaleId, now: int, c: Calls, k: SaleId)
    requires Balanced(s, k) && j in s.db.sales && j != k
    ensures Balanced(Step(s, Reconcile(j, now, c)), k)
  {
    Forgiven(s, j, k);
  }

  lemma BalancedStep(s: System, l: Label, k: SaleId)
    requires Balanced(s, k) && HistoryOk(s) && Enabled(s, l) && Guarded(s, l)
    ensures Balanced(Step(s, l), k)
  {
    if HasPid(l) {
      if l.Script? { ScriptBalances(s, l, k); }
      else if l.Commit? { CommitBalances(s, l, k); }
      else { OtherBalances(s, l, k); }
    } else if l.Reconcile? {
      if l.k != k { ElsewhereBalances(s, l.k, l.now, l.c, k); }
      else if Idles(s, k, l.now, l.c) { IdleBalances(s, k, l.now, l.c); }
      else { ReconcileBalances(s, k, l.now, l.c); }
    }
  }
}
