/** What Postgres keeps under every interleaving, failure and reconcile. */
module Integrity {
  import opened Types
  import opened RedisKeys
  import opened Postgres
  import opened Protocol

  /** A phase only ever belongs to the jobs that have it, with the sale known when it is needed. */
  predicate PhaseOk(p: Proc) {
    match p.phase
    case Recalling => p.job.ReserveJob? || p.job.ConfirmJob?
    case Loading => p.job.Terminal()
    case Scripting => p.sale.Some?
    case Inserting(_) => p.sale.Some? && (p.job.ReserveJob? || p.job.ExpireJob?)
    case SettingTtl(_) => p.job.ReserveJob? || p.job.ExpireJob?
    case Remembering(_) => p.job.ReserveJob?
    case Committing => p.sale.Some? && p.job.ConfirmJob?
    case Updating => p.sale.Some? && (p.job.ReleaseJob? || p.job.ExpireJob?)
    case Promoting => p.sale.Some? && p.job.ExpireJob?
    case Undoing(_) => p.sale.Some? && !p.job.ReleaseJob?
    case Ended(_) => true
  }

  /** A handler's sale is its own argument, or its reservation's. */
  predicate SaleOk(db: Db, p: Proc) {
    match p.job
    case ReserveJob(_, k, _) => p.sale == Some(k)
    case _ => p.sale.Some? ==> p.job.res in db.rows && db.rows[p.job.res].sale == p.sale.value
  }

  ghost predicate WellFormed(s: System) {
    forall p | p in s.procs :: PhaseOk(s.procs[p]) && SaleOk(s.db, s.procs[p])
  }

  /** Orders belong to confirmed reservations of the same sale. */
  ghost predicate OrdersBacked(db: Db) {
    forall o | o in db.orders ::
      && db.orders[o].status == OrderPending
      && db.orders[o].reservation in db.rows
      && db.rows[db.orders[o].reservation].status == Confirmed
      && db.rows[db.orders[o].reservation].sale == db.orders[o].sale
  }

  ghost predicate HasOrder(db: Db, id: ResId) {
    exists o :: o in db.orders && db.orders[o].reservation == id
  }

  ghost predicate ConfirmedHasOrder(db: Db) {
    forall id | id in db.rows && db.rows[id].status == Confirmed :: HasOrder(db, id)
  }

  ghost predicate DbOk(db: Db) {
    RowsValid(db) && KeysUnique(db) && OrdersBacked(db) && ConfirmedHasOrder(db)
  }

  /** What one statement may do to the tables: rows and orders are never deleted, orders never
      change, a row keeps its sale, and a confirmed row stays confirmed. */
  ghost predicate Evolves(a: Db, b: Db) {
    && a.sales == b.sales
    && (forall o | o in a.orders :: o in b.orders && b.orders[o] == a.orders[o])
    && (forall id | id in a.rows ::
          && id in b.rows && b.rows[id].sale == a.rows[id].sale
          && (a.rows[id].status == Confirmed ==> b.rows[id].status == Confirmed))
  }

  lemma InsertOk(db: Db, id: ResId, row: Row)
    requires DbOk(db) && InsertRow(db, id, row).Some? && row.status == Reserved
    ensures DbOk(InsertRow(db, id, row).value) && Evolves(db, InsertRow(db, id, row).value)
  {
    var b := InsertRow(db, id, row).value;
    forall r | r in b.rows && b.rows[r].status == Confirmed ensures HasOrder(b, r) {
      assert HasOrder(db, r);
    }
  }

  /** The CHECK is what stops a late UPDATE: a confirmed row has confirmed_at set. */
  lemma SetStatusOk(db: Db, id: ResId, st: Status)
    requires DbOk(db) && SetStatus(db, id, st).Some? && (st == Released || st == Expired)
    ensures DbOk(SetStatus(db, id, st).value) && Evolves(db, SetStatus(db, id, st).value)
    ensures id in db.rows ==> db.rows[id].status != Confirmed
  {
    var b := SetStatus(db, id, st).value;
    forall r | r in b.rows && b.rows[r].status == Confirmed ensures HasOrder(b, r) {
      assert HasOrder(db, r);
    }
  }

  lemma ConfirmTxOk(db: Db, id: ResId, k: SaleId, oid: OrderId, key: Key, now: int)
    requires DbOk(db) && ConfirmTx(db, id, k, oid, key, now).Some? && db.rows[id].sale == k
    ensures DbOk(ConfirmTx(db, id, k, oid, key, now).value)
    ensures Evolves(db, ConfirmTx(db, id, k, oid, key, now).value)
  {
    var b := ConfirmTx(db, id, k, oid, key, now).value;
    forall r | r in b.rows && b.rows[r].status == Confirmed ensures HasOrder(b, r) {
      if r == id {
        assert oid in b.orders && b.orders[oid].reservation == r;
      } else {
        assert HasOrder(db, r);
        var o :| o in db.orders && db.orders[o].reservation == r;
        assert o in b.orders && b.orders[o].reservation == r;
      }
    }
  }

  lemma InsertKeeps(db: Db, p: Proc, id: ResId, e: int, w: Write)
    requires DbOk(db) && p.phase.Inserting? && p.sale.Some?
    ensures DbOk(InsertStep(db, p, id, e, w).0) && Evolves(db, InsertStep(db, p, id, e, w).0)
  {
    var row := Row(p.phase.user, p.sale.value, Reserved, None, e, p.job.Terminal());
    if InsertRow(db, id, row).Some? { InsertOk(db, id, row); }
  }

  lemma CommitKeeps(db: Db, p: Proc, oid: OrderId, now: int, tx: Tx)
    requires DbOk(db) && SaleOk(db, p) && p.job.ConfirmJob? && p.sale.Some?
    ensures DbOk(CommitStep(db, p, oid, now, tx).0) && Evolves(db, CommitStep(db, p, oid, now, tx).0)
  {
    var k := p.sale.value;
    if ConfirmTx(db, p.job.res, k, oid, p.job.key, now).Some? {
      ConfirmTxOk(db, p.job.res, k, oid, p.job.key, now);
    }
  }

  lemma UpdateKeeps(db: Db, p: Proc, w: Write)
    requires DbOk(db) && (p.job.ReleaseJob? || p.job.ExpireJob?)
    ensures DbOk(UpdateStep(db, p, w).0) && Evolves(db, UpdateStep(db, p, w).0)
  {
    var st := if p.job.ReleaseJob? then Released else Expired;
    if SetStatus(db, p.job.res, st).Some? { SetStatusOk(db, p.job.res, st); }
  }

  lemma DbStep(s: System, l: Label)
    requires DbOk(s.db) && WellFormed(s) && Enabled(s, l)
    ensures DbOk(NextDb(s, l)) && Evolves(s.db, NextDb(s, l))
  {
    match l
    case Insert(pid, id, e, w) => InsertKeeps(s.db, s.procs[pid], id, e, w);
    case Commit(pid, oid, now, tx) => CommitKeeps(s.db, s.procs[pid], oid, now, tx);
    case Update(pid, w) => UpdateKeeps(s.db, s.procs[pid], w);
    case _ =>
  }

  lemma StartingPhaseOk(s: System, l: Label)
    requires Enabled(s, l) && (l.Start? || l.Recall? || l.Load? || l.Crash?)
    requires !l.Start? ==> PhaseOk(s.procs[l.pid]) && SaleOk(s.db, s.procs[l.pid])
    ensures PhaseOk(Next(s, l))
  {
  }

  lemma ScriptPhaseOk(r: Redis, p: Proc, d: Delivery)
    requires p.phase.Scripting? && PhaseOk(p)
    ensures PhaseOk(ScriptStep(r, p, d).1)
  {
  }

  lemma CommitPhaseOk(db: Db, p: Proc, oid: OrderId, now: int, tx: Tx)
    requires p.phase.Committing? && PhaseOk(p)
    ensures PhaseOk(CommitStep(db, p, oid, now, tx).1)
  {
  }

  lemma MiddlePhaseOk(s: System, l: Label)
    requires Enabled(s, l) && (l.Script? || l.Commit? || l.Update?) && PhaseOk(s.procs[l.pid])
    ensures PhaseOk(Next(s, l))
  {
    match l
    case Script(pid, d) => ScriptPhaseOk(s.redis, s.procs[pid], d);
    case Commit(pid, oid, now, tx) => CommitPhaseOk(s.db, s.procs[pid], oid, now, tx);
    case _ =>
  }

  lemma ClosingPhaseOk(s: System, l: Label)
    requires Enabled(s, l) && (l.Insert? || l.SetTtl? || l.Remember? || l.Promote? || l.Undo?)
    requires PhaseOk(s.procs[l.pid])
    ensures PhaseOk(Next(s, l))
  {
  }

  lemma CommitSaleOk(db: Db, p: Proc, oid: OrderId, now: int, tx: Tx)
    requires p.sale.Some? && p.job.ConfirmJob? && SaleOk(db, p)
    ensures SaleOk(db, CommitStep(db, p, oid, now, tx).1)
  {
  }

  lemma ScriptSaleOk(r: Redis, db: Db, p: Proc, d: Delivery)
    requires p.sale.Some? && SaleOk(db, p)
    ensures SaleOk(db, ScriptStep(r, p, d).1)
  {
  }

  lemma NextSaleOk(s: System, l: Label)
    requires Enabled(s, l) && HasPid(l)
    requires !l.Start? ==> SaleOk(s.db, s.procs[l.pid])
    ensures SaleOk(s.db, Next(s, l))
  {
    match l
    case Script(pid, d) => ScriptSaleOk(s.redis, s.db, s.procs[pid], d);
    case Commit(pid, oid, now, tx) => CommitSaleOk(s.db, s.procs[pid], oid, now, tx);
    case _ =>
  }

  lemma WellFormedStep(s: System, l: Label)
    requires DbOk(s.db) && WellFormed(s) && Enabled(s, l)
    ensures WellFormed(Step(s, l)) && DbOk(Step(s, l).db) && Evolves(s.db, Step(s, l).db)
  {
    DbStep(s, l);
    if HasPid(l) {
      if l.Start? || l.Recall? || l.Load? || l.Crash? { StartingPhaseOk(s, l); }
      else if l.Script? || l.Commit? || l.Update? { MiddlePhaseOk(s, l); }
      else { ClosingPhaseOk(s, l); }
      NextSaleOk(s, l);
    }
    var d := NextDb(s, l);
    forall p | p in s.procs ensures PhaseOk(s.procs[p]) && SaleOk(d, s.procs[p]) {
      assert PhaseOk(s.procs[p]) && SaleOk(s.db, s.procs[p]);
    }
    forall p | p in Step(s, l).procs
      ensures PhaseOk(Step(s, l).procs[p]) && SaleOk(d, Step(s, l).procs[p])
    {
      if !HasPid(l) && l.Reconcile? {
        assert p in s.procs;
      }
    }
  }

  lemma InitOk(s: System)
    requires Init(s)
    ensures DbOk(s.db) && WellFormed(s)
  {
  }

  /** Over any run: what was confirmed stays confirmed with its order, and orders are never lost. */
  lemma {:induction false} ConfirmedForever(s: System, ls: seq<Label>)
    requires DbOk(s.db) && WellFormed(s) && Runs(s, ls)
    ensures DbOk(Run(s, ls).db) && WellFormed(Run(s, ls)) && Evolves(s.db, Run(s, ls).db)
    decreases |ls|
  {
    if ls != [] {
      WellFormedStep(s, ls[0]);
      ConfirmedForever(Step(s, ls[0]), ls[1..]);
    }
  }

  // ---- idempotent confirmation

  lemma ReplayNow(t: System, o: OrderId, pid: Pid)
    requires KeysUnique(t.db) && o in t.db.orders
    requires Live(t, pid) && t.procs[pid].phase.Recalling? && t.procs[pid].job.ConfirmJob?
    requires t.procs[pid].job.key == t.db.orders[o].key
    ensures var u := Step(t, Recall(pid, true));
      u.redis == t.redis && u.db == t.db && u.procs[pid].phase == Ended(Replayed(o))
  {
    assert KeyUsed(t.db, t.procs[pid].job.key);
  }

  /** Once an order with this key exists, a Confirm whose lookup works answers with that very order,
      in every later state of every run, and writes nothing. */
  lemma ReplayReturnsTheOrder(s: System, ls: seq<Label>, o: OrderId, pid: Pid)
    requires DbOk(s.db) && WellFormed(s) && Runs(s, ls) && o in s.db.orders
    requires var t := Run(s, ls);
      Live(t, pid) && t.procs[pid].phase.Recalling? && t.procs[pid].job.ConfirmJob?
      && t.procs[pid].job.key == s.db.orders[o].key
    ensures var t := Run(s, ls);
            var u := Step(t, Recall(pid, true));
      u.redis == t.redis && u.db == t.db && u.procs[pid].phase == Ended(Replayed(o))
  {
    ConfirmedForever(s, ls);
    ReplayNow(Run(s, ls), o, pid);
  }

  lemma RefusedNow(t: System, pid: Pid, w: Write)
    requires RowsValid(t.db) && WellFormed(t) && Enabled(t, Update(pid, w))
    requires t.db.rows[t.procs[pid].job.res].status == Confirmed
    ensures var u := Step(t, Update(pid, w));
      u.db == t.db && u.redis == t.redis && u.procs[pid].phase == Ended(Failure(UpdateFailed))
  {
    assert ValidConfirmation(t.db.rows[t.procs[pid].job.res]);
  }

  /** A release or expiry that raced with a confirm and lost: however long ago the row was confirmed
      and whatever has happened since, its UPDATE is refused. */
  lemma LateUpdateIsRefused(s: System, ls: seq<Label>, pid: Pid, w: Write)
    requires DbOk(s.db) && WellFormed(s) && Runs(s, ls) && Enabled(Run(s, ls), Update(pid, w))
    requires var id := Run(s, ls).procs[pid].job.res; id in s.db.rows && s.db.rows[id].status == Confirmed
    ensures var t := Run(s, ls);
            var u := Step(t, Update(pid, w));
      u.db == t.db && u.redis == t.redis && u.procs[pid].phase == Ended(Failure(UpdateFailed))
  {
    ConfirmedForever(s, ls);
    RefusedNow(Run(s, ls), pid, w);
  }

  // ---- sales do not disturb each other

  /** The sale whose counters, line, rows or orders a step may change. */
  ghost function Touches(s: System, l: Label): Option<SaleId>
    requires Enabled(s, l)
  {
    match l
    case Join(k, _, _) => Some(k)
    case Leave(k, _) => Some(k)
    case Reconcile(k, _, _) => Some(k)
    case Start(_, _) => None
    case _ => s.procs[l.pid].sale
  }

  ghost predicate SameCache(a: Redis, b: Redis, k: SaleId) {
    SameCounters(a, b, k) && Waiting(a, k) == Waiting(b, k)
  }

  ghost predicate SameTables(a: Db, b: Db, k: SaleId) {
    && (forall id | id in a.rows && a.rows[id].sale == k :: id in b.rows && b.rows[id] == a.rows[id])
    && (forall id | id in b.rows && b.rows[id].sale == k :: id in a.rows && b.rows[id] == a.rows[id])
    && (forall o | o in a.orders && a.orders[o].sale == k :: o in b.orders && b.orders[o] == a.orders[o])
    && (forall o | o in b.orders && b.orders[o].sale == k :: o in a.orders && b.orders[o] == a.orders[o])
  }

  lemma StepFramesCache(s: System, l: Label, k: SaleId)
    requires Enabled(s, l) && Touches(s, l) != Some(k)
    ensures SameCache(s.redis, NextRedis(s, l), k)
  {
  }

  lemma CommitFrames(db: Db, p: Proc, oid: OrderId, now: int, tx: Tx, k: SaleId)
    requires SaleOk(db, p) && p.job.ConfirmJob? && p.sale.Some? && p.sale.value != k
    ensures SameTables(db, CommitStep(db, p, oid, now, tx).0, k)
  {
  }

  lemma UpdateFrames(db: Db, p: Proc, w: Write, k: SaleId)
    requires SaleOk(db, p) && (p.job.ReleaseJob? || p.job.ExpireJob?) && p.sale.Some? && p.sale.value != k
    ensures SameTables(db, UpdateStep(db, p, w).0, k)
  {
  }

  lemma StepFramesTables(s: System, l: Label, k: SaleId)
    requires WellFormed(s) && Enabled(s, l) && Touches(s, l) != Some(k)
    ensures SameTables(s.db, NextDb(s, l), k)
  {
    match l
    case Commit(pid, oid, now, tx) =>
      assert PhaseOk(s.procs[pid]) && SaleOk(s.db, s.procs[pid]);
      CommitFrames(s.db, s.procs[pid], oid, now, tx, k);
    case Update(pid, w) =>
      assert PhaseOk(s.procs[pid]) && SaleOk(s.db, s.procs[pid]);
      UpdateFrames(s.db, s.procs[pid], w, k);
    case _ =>
  }

  ghost predicate NeverTouches(s: System, ls: seq<Label>, k: SaleId)
    requires Runs(s, ls)
    decreases |ls|
  {
    ls == [] || (Touches(s, ls[0]) != Some(k) && NeverTouches(Step(s, ls[0]), ls[1..], k))
  }

  /** Any traffic on other sales leaves a sale's counters, line, reservations and orders alone. */
  lemma {:induction false} OtherSalesUndisturbed(s: System, ls: seq<Label>, k: SaleId)
    requires DbOk(s.db) && WellFormed(s) && Runs(s, ls) && NeverTouches(s, ls, k)
    ensures SameCache(s.redis, Run(s, ls).redis, k) && SameTables(s.db, Run(s, ls).db, k)
    decreases |ls|
  {
    if ls != [] {
      StepFramesCache(s, ls[0], k);
      StepFramesTables(s, ls[0], k);
      WellFormedStep(s, ls[0]);
      OtherSalesUndisturbed(Step(s, ls[0]), ls[1..], k);
    }
  }
}
