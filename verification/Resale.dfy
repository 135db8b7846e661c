/** When a reconcile lets a sale be oversold, however its calls go: exactly the condition, and zero
    oversell under it. */
module Resale {
  import opened Types
  import opened Counting
  import opened RedisKeys
  import opened Postgres
  import opened Protocol
  import opened Ledger
  import opened Integrity
  import opened Legs
  import opened Capacity

  ghost predicate Oversold(db: Db, k: SaleId) {
    k in db.sales && Orders(db, k) > db.sales[k].total
  }

  /** Without any further reconcile, some run oversells the sale. */
  ghost predicate CanOversell(s: System, k: SaleId) {
    exists t :: Leads(s, t) && Oversold(t.db, k)
  }

  /** The reconcile leaves `available` as it recomputed it: it wrote it, or found it so. */
  ghost predicate Resets(s: System, k: SaleId, now: int, c: Calls) {
    && k in s.db.sales
    && Num(ReconcileRedis(s.redis, s.db, k, now, c).available, k) == Expected(s.db, k, now)
  }

  /** The counters after the reconcile; the tables and the handlers as they are. */
  ghost function Reset(s: System, k: SaleId, now: int, c: Calls): System
    requires k in s.db.sales
  {
    s.(redis := ReconcileRedis(s.redis, s.db, k, now, c))
  }

  /** The handler can neither bring a row or a unit back nor put a last confirm through. */
  predicate Spent(db: Db, p: Proc, reserved: int) {
    && !p.phase.Inserting? && !p.phase.Undoing? && !p.phase.Committing?
    && (p.phase.Scripting? ==>
          p.job.ReserveJob? || (p.job.ConfirmJob? && KeyUsed(db, p.job.key) && reserved <= 1))
  }

  /** Nothing on sale, nothing reserved and no handler to change that: `reserved` then shows units
      that nobody can confirm. */
  ghost predicate Dry(s: System, k: SaleId) {
    && k in s.db.sales && LiveOrders(s.db, k) <= s.db.sales[k].total
    && Num(s.redis.available, k) <= 0
    && (forall id | id in s.db.rows :: !HeldBy(k)(s.db.rows[id]))
    && (forall p | p in s.procs && s.procs[p].sale == Some(k) :: Spent(s.db, s.procs[p], Num(s.redis.reserved, k)))
  }

  /** The reconcile would put on sale, or leave reserved, what is not there. */
  ghost predicate Resells(s: System, k: SaleId, now: int, c: Calls) {
    && Resets(s, k, now, c)
    && Ceiling(Reset(s, k, now, c), k) > s.db.sales[k].total && !Dry(Reset(s, k, now, c), k)
  }

  // ---- what the condition comes to

  lemma FreeKeysExist(s: System, k: SaleId)
    ensures |FreeKeys(s, k)| > 0 <==> exists p :: Pending(s, k, p)
  {
    if p :| Pending(s, k, p) {
      assert s.procs[p].job.key in FreeKeys(s, k);
    }
    if FreeKeys(s, k) != {} {
      var key :| key in FreeKeys(s, k);
      var p :| p in s.procs && Pending(s, k, p) && s.procs[p].job.key == key;
    }
  }

  lemma ActiveIsHeld(db: Db, k: SaleId, now: int)
    ensures ActiveRows(db, k, now) <= Held(db, k)
  {
    CountMonotone(db.rows, ActiveFor(k, now), HeldBy(k));
  }

  lemma DryHoldsNothing(s: System, k: SaleId)
    requires Dry(s, k)
    ensures Held(s.db, k) == 0
  {
    assert Matching(s.db.rows, HeldBy(k)) == {};
  }

  lemma SameKeys(s: System, r: Redis, k: SaleId)
    ensures FreeKeys(s.(redis := r), k) == FreeKeys(s, k)
  {
    var t := s.(redis := r);
    forall p ensures Pending(t, k, p) == Pending(s, k, p) {}
  }

  /** When both writes get through, or neither was needed: a confirm with a free key is between script
      and commit, or reservations and orders exceed the stock. */
  lemma FullWriteResells(s: System, k: SaleId, now: int, c: Calls)
    requires Settles(s, k, now, c)
    ensures Resells(s, k, now, c) <==>
      (exists p :: Pending(s, k, p)) || ActiveRows(s.db, k, now) + LiveOrders(s.db, k) > s.db.sales[k].total
  {
    var t := Reset(s, k, now, c);
    SameKeys(s, t.redis, k);
    FreeKeysExist(s, k);
    ActiveIsHeld(s.db, k, now);
    if Dry(t, k) { DryHoldsNothing(t, k); }
  }

  function Larger(a: int, b: int): int { if a >= b then a else b }

  /** When only `available` is written, `reserved` being what it was, and the sale is not sold out:
      the confirms that can still commit and the units that confirm.lua can still take exceed the
      active reservations; or, where the database is overcommitted, the stock with the orders. */
  lemma HalfWriteResells(s: System, k: SaleId, now: int, c: Calls)
    requires Resets(s, k, now, c) && LiveOrders(s.db, k) < s.db.sales[k].total
    requires Num(ReconcileRedis(s.redis, s.db, k, now, c).reserved, k) == Num(s.redis.reserved, k)
    ensures var expected, r, free := Expected(s.db, k, now), Num(s.redis.reserved, k), |FreeKeys(s, k)|;
      Resells(s, k, now, c) <==>
        if expected >= 0 then free + Larger(r, -expected) > ActiveRows(s.db, k, now)
        else free + Larger(r, 0) > s.db.sales[k].total - LiveOrders(s.db, k)
  {
    var t := Reset(s, k, now, c);
    SameKeys(s, t.redis, k);
    ActiveIsHeld(s.db, k, now);
    if Dry(t, k) { DryHoldsNothing(t, k); }
  }

  // ---- a reconcile that resells leads to more orders than stock

  lemma LiveIsOversold(db: Db, k: SaleId)
    requires k in db.sales && LiveOrders(db, k) > db.sales[k].total
    ensures Oversold(db, k)
  {
    CountMonotone(db.orders, LiveFor(k), OrderOf(k));
  }

  /** The step differs from the reset in history flags only. */
  lemma StepIsReset(s: System, k: SaleId, now: int, c: Calls)
    requires k in s.db.sales
    ensures var t, u := Step(s, Reconcile(k, now, c)), Reset(s, k, now, c);
      && t.redis == u.redis && t.db == u.db && t.procs.Keys == u.procs.Keys
      && (forall p | p in t.procs :: t.procs[p].job == u.procs[p].job && t.procs[p].phase == u.procs[p].phase
                                  && t.procs[p].sale == u.procs[p].sale)
  {
  }

  lemma SameCeiling(s: System, k: SaleId, now: int, c: Calls)
    requires k in s.db.sales
    ensures var t, u := Step(s, Reconcile(k, now, c)), Reset(s, k, now, c);
      && FreeKeys(t, k) == FreeKeys(u, k) && Ceiling(t, k) == Ceiling(u, k)
      && (Dry(t, k) <==> Dry(u, k))
  {
    var t, u := Step(s, Reconcile(k, now, c)), Reset(s, k, now, c);
    StepIsReset(s, k, now, c);
    forall p ensures Pending(t, k, p) == Pending(u, k, p) {}
    forall key ensures key in FreeKeys(t, k) <==> key in FreeKeys(u, k) {
      if key in FreeKeys(t, k) {
        var p :| p in t.procs && Pending(t, k, p) && t.procs[p].job.key == key;
        assert Pending(u, k, p);
      }
      if key in FreeKeys(u, k) {
        var p :| p in u.procs && Pending(u, k, p) && u.procs[p].job.key == key;
        assert Pending(t, k, p);
      }
    }
  }

  lemma CeilingOversells(s: System, k: SaleId)
    requires WellFormed(s) && k in s.db.sales && Ceiling(s, k) > s.db.sales[k].total
    requires Stocked(s, k) || Stock(s.redis, k) == 0
    ensures CanOversell(s, k)
  {
    WellFormedIsBacked(s, k);
    var t := CeilingIsReached(s, k);
    LeadsKeepsSales(s, t);
    LiveIsOversold(t.db, k);
  }

  lemma LeadsKeepsSales(s: System, t: System)
    requires Leads(s, t)
    ensures t.db.sales == s.db.sales
  {
    var ls :| Quiet(ls) && Runs(s, ls) && Run(s, ls) == t;
    RunKeepsSales(s, ls);
  }

  lemma {:induction false} RunKeepsSales(s: System, ls: seq<Label>)
    requires Runs(s, ls)
    ensures Run(s, ls).db.sales == s.db.sales
    decreases |ls|
  {
    if ls != [] { RunKeepsSales(Step(s, ls[0]), ls[1..]); }
  }

  lemma OversellLater(s: System, t: System, k: SaleId)
    requires Leads(s, t) && CanOversell(t, k)
    ensures CanOversell(s, k)
  {
    var u :| Leads(t, u) && Oversold(u.db, k);
    LeadsTrans(s, t, u);
  }

  // ---- nothing on sale and nothing reserved, but a handler that can change that

  /** Sold out, with units in `reserved` that no reservation and no order accounts for. */
  ghost predicate Hollow(s: System, k: SaleId) {
    && DbOk(s.db) && WellFormed(s) && k in s.db.sales
    && LiveOrders(s.db, k) == s.db.sales[k].total
    && Num(s.redis.available, k) == 0 && Num(s.redis.reserved, k) > 0
  }

  /** A handler inserts its row: it can be confirmed. */
  lemma InsertRefills(s: System, k: SaleId, p: Pid)
    requires Hollow(s, k) && p in s.procs && s.procs[p].sale == Some(k) && s.procs[p].phase.Inserting?
    ensures CanOversell(s, k)
  {
    var id := FreshId(s.db.rows.Keys);
    var l := Insert(p, id, 0, Applied);
    var t := Step(s, l);
    LeadsStep(s, l);
    WellFormedStep(s, l);
    CountPut(s.db.rows, id, t.db.rows[id], HeldBy(k));
    CeilingOversells(t, k);
    OversellLater(s, t, k);
  }

  /** release.lua is run: its unit can be reserved and confirmed. */
  lemma ReleaseRefills(s: System, k: SaleId, l: Label)
    requires Hollow(s, k) && Enabled(s, l) && (l.Undo? || l.Script?) && NextRedis(s, l) == ReleaseLua(s.redis, k)
    ensures CanOversell(s, k)
  {
    var t := Step(s, l);
    LeadsStep(s, l);
    WellFormedStep(s, l);
    CeilingOversells(t, k);
    OversellLater(s, t, k);
  }

  /** A confirm between script and commit commits, or fails and is compensated. */
  lemma InflightRefills(s: System, k: SaleId, p: Pid)
    requires Hollow(s, k) && p in s.procs && InflightOf(k)(s.procs[p])
    ensures CanOversell(s, k)
  {
    assert PhaseOk(s.procs[p]);
    var l := Commit(p, 0, 0, NoUpdate);
    var t := Step(s, l);
    LeadsStep(s, l);
    WellFormedStep(s, l);
    ReleaseRefills(t, k, Undo(p, true));
    OversellLater(s, t, k);
  }

  /** A confirm runs its script and gets between script and commit with one order more to make, or
      with a unit left in `reserved`. */
  lemma ConfirmRefills(s: System, k: SaleId, p: Pid)
    requires Hollow(s, k) && p in s.procs && s.procs[p].sale == Some(k)
    requires s.procs[p].phase.Scripting? && s.procs[p].job.ConfirmJob?
    requires !KeyUsed(s.db, s.procs[p].job.key) || Num(s.redis.reserved, k) > 1
    ensures CanOversell(s, k)
  {
    var l := Script(p, Answered);
    var t := Step(s, l);
    LeadsStep(s, l);
    WellFormedStep(s, l);
    if Num(s.redis.reserved, k) > 1 {
      InflightRefills(t, k, p);
    } else {
      assert Pending(t, k, p);
      FreeKeysExist(t, k);
      CeilingOversells(t, k);
    }
    OversellLater(s, t, k);
  }

  lemma HollowOversells(s: System, k: SaleId)
    requires Hollow(s, k) && !Dry(s, k)
    ensures CanOversell(s, k)
  {
    if id :| id in s.db.rows && HeldBy(k)(s.db.rows[id]) {
      assert id in Matching(s.db.rows, HeldBy(k));
      CeilingOversells(s, k);
    } else {
      var p :| p in s.procs && s.procs[p].sale == Some(k) && !Spent(s.db, s.procs[p], Num(s.redis.reserved, k));
      if s.procs[p].phase.Inserting? { InsertRefills(s, k, p); }
      else if s.procs[p].phase.Undoing? { ReleaseRefills(s, k, Undo(p, true)); }
      else if s.procs[p].phase.Committing? { InflightRefills(s, k, p); }
      else if s.procs[p].job.ConfirmJob? { ConfirmRefills(s, k, p); }
      else { ReleaseRefills(s, k, Script(p, Answered)); }
    }
  }

  lemma ResaleOversells(s: System, k: SaleId, now: int, c: Calls)
    requires DbOk(s.db) && WellFormed(s) && Resells(s, k, now, c)
    ensures CanOversell(Step(s, Reconcile(k, now, c)), k)
  {
    var t := Step(s, Reconcile(k, now, c));
    SameCeiling(s, k, now, c);
    WellFormedStep(s, Reconcile(k, now, c));
    ActiveIsHeld(s.db, k, now);
    if LiveOrders(t.db, k) > t.db.sales[k].total {
      LiveIsOversold(t.db, k);
      LeadsHere(t);
    } else if Stocked(t, k) || Stock(t.redis, k) == 0 {
      CeilingOversells(t, k);
    } else {
      HollowOversells(t, k);
    }
  }

  // ---- a sale that is contained stays so

  ghost predicate Contained(s: System, k: SaleId) {
    k in s.db.sales && (Ceiling(s, k) <= s.db.sales[k].total || Dry(s, k))
  }

  /** Reconciles of the sale happen only where they do not resell. */
  ghost predicate Cautious(s: System, l: Label, k: SaleId) {
    l.Reconcile? && l.k == k ==> !Resells(s, k, l.now, l.c)
  }

  lemma DryRows(s: System, l: Label, k: SaleId)
    requires Dry(s, k) && Enabled(s, l)
    ensures forall id | id in NextDb(s, l).rows :: !HeldBy(k)(NextDb(s, l).rows[id])
    ensures NextDb(s, l).sales == s.db.sales
  {
  }

  lemma DryOrders(s: System, l: Label, k: SaleId)
    requires Dry(s, k) && Enabled(s, l)
    ensures LiveOrders(NextDb(s, l), k) == LiveOrders(s.db, k)
  {
    OrdersStay(s, l);
    if l.Commit? && NextDb(s, l) != s.db {
      CommitUsesKey(s, l, k);
    }
  }

  /** The step is a last confirm.lua on the sale, by a confirm whose key is taken. */
  ghost predicate LastConfirm(s: System, l: Label, k: SaleId)
    requires Enabled(s, l)
  {
    l.Script? && !l.d.NotRun? && s.procs[l.pid].job.ConfirmJob? && s.procs[l.pid].sale == Some(k)
    && ConfirmLua(s.redis, k).1 == 1
  }

  lemma DryStock(s: System, l: Label, k: SaleId)
    requires Dry(s, k) && Enabled(s, l) && (l.Reconcile? ==> l.k != k) && !LastConfirm(s, l, k)
    ensures SameStock(NextRedis(s, l), s.redis, k)
  {
  }

  lemma DryScript(r: Redis, db: Db, p: Proc, d: Delivery, k: SaleId)
    requires p.phase.Scripting? && p.sale == Some(k) && Spent(db, p, Num(r.reserved, k)) && Num(r.available, k) <= 0
    requires p.job.ConfirmJob? && !d.NotRun? ==> ConfirmLua(r, k).1 != 1
    ensures ScriptStep(r, p, d).1.phase.Ended?
  {
  }

  predicate Opening(l: Label) { l.Start? || l.Recall? || l.Load? || l.Script? }

  lemma SaleIsKept(s: System, l: Label)
    requires Enabled(s, l) && HasPid(l) && !Opening(l)
    ensures Next(s, l).sale == s.procs[l.pid].sale
  {
  }

  lemma DryClosing(s: System, l: Label, k: SaleId)
    requires Enabled(s, l) && HasPid(l) && !Opening(l) && s.procs[l.pid].sale == Some(k)
    requires Spent(s.db, s.procs[l.pid], Num(s.redis.reserved, k)) && Num(s.redis.available, k) <= 0
    ensures var f := Next(s, l).phase; f.Ended? || f.Remembering? || f.Promoting?
  {
  }

  lemma DryHandler(s: System, l: Label, k: SaleId)
    requires Dry(s, k) && Enabled(s, l) && HasPid(l) && !LastConfirm(s, l, k)
    requires Next(s, l).sale == Some(k)
    ensures Spent(s.db, Next(s, l), Num(s.redis.reserved, k))
  {
    if l.Script? { DryScript(s.redis, s.db, s.procs[l.pid], l.d, k); }
    else if !Opening(l) {
      SaleIsKept(s, l);
      DryClosing(s, l, k);
    }
  }

  lemma DryAfterLast(s: System, l: Label, k: SaleId)
    requires Dry(s, k) && Enabled(s, l) && LastConfirm(s, l, k)
    ensures Ceiling(Step(s, l), k) <= s.db.sales[k].total
  {
    var t := Step(s, l);
    forall p ensures !Pending(t, k, p) {
      if p == l.pid { assert KeyUsed(s.db, s.procs[p].job.key); }
    }
    FreeKeysExist(t, k);
  }

  lemma DryStep(s: System, l: Label, k: SaleId)
    requires Dry(s, k) && Enabled(s, l) && (l.Reconcile? ==> l.k != k) && !LastConfirm(s, l, k)
    ensures Dry(Step(s, l), k)
  {
    var t := Step(s, l);
    DryRows(s, l, k);
    DryOrders(s, l, k);
    DryStock(s, l, k);
    OrdersStay(s, l);
    forall p | p in t.procs && t.procs[p].sale == Some(k)
      ensures Spent(t.db, t.procs[p], Num(t.redis.reserved, k))
    {
      if HasPid(l) && p == l.pid { DryHandler(s, l, k); }
      if t.procs[p].job.ConfirmJob? { KeysStay(s.db, t.db, t.procs[p].job.key); }
    }
  }

  lemma ReconcileContains(s: System, k: SaleId, now: int, c: Calls)
    requires Resets(s, k, now, c) && !Resells(s, k, now, c)
    ensures Contained(Step(s, Reconcile(k, now, c)), k)
  {
    SameCeiling(s, k, now, c);
  }

  /** A reconcile that does not get as far as `available` does nothing. */
  lemma NoResetNoStep(s: System, k: SaleId, now: int, c: Calls)
    requires k in s.db.sales && !Resets(s, k, now, c)
    ensures Step(s, Reconcile(k, now, c)) == s
  {
  }

  lemma ContainedStep(s: System, l: Label, k: SaleId)
    requires Contained(s, k) && Enabled(s, l) && Cautious(s, l, k)
    ensures Contained(Step(s, l), k)
  {
    if l.Reconcile? && l.k == k {
      if Resets(s, k, l.now, l.c) { ReconcileContains(s, k, l.now, l.c); } else { NoResetNoStep(s, k, l.now, l.c); }
    } else if Ceiling(s, k) <= s.db.sales[k].total {
      CeilingStep(s, l, k);
    } else if LastConfirm(s, l, k) {
      DryAfterLast(s, l, k);
    } else {
      DryStep(s, l, k);
    }
  }

  lemma ContainedIsNotOversold(s: System, k: SaleId)
    requires Contained(s, k) && DbOk(s.db)
    ensures !Oversold(s.db, k)
  {
    CountSame(s.db.orders, LiveFor(k), OrderOf(k));
  }

  ghost predicate CautiousRuns(s: System, ls: seq<Label>, k: SaleId)
    decreases |ls|
  {
    ls == [] || (Enabled(s, ls[0]) && Cautious(s, ls[0], k) && CautiousRuns(Step(s, ls[0]), ls[1..], k))
  }

  lemma {:induction false} CautiousRunsStayContained(s: System, ls: seq<Label>, k: SaleId)
    requires Contained(s, k) && CautiousRuns(s, ls, k)
    ensures Runs(s, ls) && Contained(Run(s, ls), k)
    decreases |ls|
  {
    if ls != [] {
      ContainedStep(s, ls[0], k);
      CautiousRunsStayContained(Step(s, ls[0]), ls[1..], k);
    }
  }

  lemma {:induction false} QuietIsCautious(s: System, ls: seq<Label>, k: SaleId)
    requires Runs(s, ls) && Quiet(ls)
    ensures CautiousRuns(s, ls, k)
    decreases |ls|
  {
    if ls != [] {
      assert Quiet(ls[1..]);
      QuietIsCautious(Step(s, ls[0]), ls[1..], k);
    }
  }

  lemma ContainedCannotOversell(s: System, k: SaleId)
    requires DbOk(s.db) && WellFormed(s) && Contained(s, k)
    ensures !CanOversell(s, k)
  {
    forall t | Leads(s, t) ensures !Oversold(t.db, k) {
      var ls :| Quiet(ls) && Runs(s, ls) && Run(s, ls) == t;
      QuietIsCautious(s, ls, k);
      CautiousRunsStayContained(s, ls, k);
      ConfirmedForever(s, ls);
      ContainedIsNotOversold(t, k);
    }
  }

  // ---- the guard, exactly

  /** From any counters, and however its calls go: a reconcile that gets as far as `available` lets
      the sale be oversold without any further reconcile if and only if it resells; one that does not
      is no step at all. */
  lemma ReconcileOversellsExactly(s: System, k: SaleId, now: int, c: Calls)
    requires DbOk(s.db) && WellFormed(s) && k in s.db.sales
    ensures Resets(s, k, now, c) ==> (CanOversell(Step(s, Reconcile(k, now, c)), k) <==> Resells(s, k, now, c))
    ensures !Resets(s, k, now, c) ==> Step(s, Reconcile(k, now, c)) == s
  {
    if Resells(s, k, now, c) {
      ResaleOversells(s, k, now, c);
    } else if Resets(s, k, now, c) {
      ReconcileContains(s, k, now, c);
      WellFormedStep(s, Reconcile(k, now, c));
      ContainedCannotOversell(Step(s, Reconcile(k, now, c)), k);
    } else {
      NoResetNoStep(s, k, now, c);
    }
  }

  /** So the guard is exact wherever a run from provisioned sales has got to, reconciles of every
      kind included. */
  lemma GuardIsExactInEveryRun(s: System, ls: seq<Label>, k: SaleId, now: int, c: Calls)
    requires Init(s) && k in s.db.sales && Runs(s, ls) && Resets(Run(s, ls), k, now, c)
    ensures CanOversell(Step(Run(s, ls), Reconcile(k, now, c)), k) <==> Resells(Run(s, ls), k, now, c)
  {
    InitOk(s);
    ConfirmedForever(s, ls);
    ReconcileOversellsExactly(Run(s, ls), k, now, c);
  }

  lemma ContainedInit(s: System, k: SaleId)
    requires Init(s) && k in s.db.sales
    ensures Contained(s, k)
  {
    FreeKeysExist(s, k);
    assert Matching(s.db.orders, LiveFor(k)) == {};
  }

  /** Zero oversell in every run whose reconciles of the sale do not resell, however the calls of any
      reconcile go. */
  lemma ZeroOversellExactlyGuarded(s: System, ls: seq<Label>, k: SaleId)
    requires Init(s) && k in s.db.sales && CautiousRuns(s, ls, k)
    ensures Runs(s, ls) && !Oversold(Run(s, ls).db, k)
  {
    InitOk(s);
    ContainedInit(s, k);
    CautiousRunsStayContained(s, ls, k);
    ConfirmedForever(s, ls);
    ContainedIsNotOversold(Run(s, ls), k);
  }
}
