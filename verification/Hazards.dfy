/** Interleavings that show which hypotheses of the theorems are needed, exactly when the counters
    leave their bounds, and what the compensation paths do not give back. */
module Hazards {
  import opened Types
  import opened Counting
  import opened SortedSet
  import opened RedisKeys
  import opened Postgres
  import opened Protocol
  import opened Ledger
  import opened Integrity
  import opened Legs
  import opened Capacity
  import opened Resale

  // ---- the hypotheses are needed, for every sale that has stock

  lemma PendingAfterDeadline(s: System, k: SaleId, b: System)
    requires Init(s) && k in s.db.sales && s.db.sales[k].total > 0
    requires b == AfterConfirmLua(AfterReserve(s, k, 1, 7, 10, 100), k, 2, 10, "a")
    ensures DbOk(b.db) && WellFormed(b) && Pending(b, k, 2) && Settles(b, k, 200, ALL_WELL)
  {
  }

  lemma Resold(s: System, b: System, k: SaleId, now: int, c: Calls)
    requires Reachable(s, b) && DbOk(b.db) && WellFormed(b) && Resells(b, k, now, c)
    ensures exists t :: Reachable(s, t) && Oversold(t.db, k)
  {
    ResaleOversells(b, k, now, c);
    var a := Step(b, Reconcile(k, now, c));
    var t :| Leads(a, t) && Oversold(t.db, k);
    ReachStep(b, Reconcile(k, now, c));
    ReachTrans(s, b, a);
    LeadsIsReachable(a, t);
    ReachTrans(s, a, t);
  }

  /** The guard on reconcile cannot be dropped: a handler confirms a reservation, a reconcile after
      its deadline puts the unit back on sale, and in the end there are more orders than stock. */
  lemma UnguardedReconcileOversells(s: System, k: SaleId)
    requires Init(s) && k in s.db.sales && s.db.sales[k].total > 0
    ensures exists t :: Reachable(s, t) && Oversold(t.db, k)
  {
    ReserveLeg(s, k, 1, 7, 10, 100);
    var a := AfterReserve(s, k, 1, 7, 10, 100);
    ConfirmLeg(a, k, 2, 10, "a");
    var b := AfterConfirmLua(a, k, 2, 10, "a");
    LeadsTrans(s, a, b);
    LeadsIsReachable(s, b);
    PendingAfterDeadline(s, k, b);
    FullWriteResells(b, k, 200, ALL_WELL);
    Resold(s, b, k, 200, ALL_WELL);
  }

  /** Every call succeeds but the second SET. */
  const HALF := ALL_WELL.(setReserved := Rejected)

  /** A Reserve whose insert was rejected and whose compensation did not run. */
  ghost function AfterLeak(s: System, k: SaleId): System {
    s.(redis := ReserveLua(s.redis, k).0,
       procs := s.procs[1 := Unmarked(ReserveJob(7, k, ""), Ended(Failure(InsertFailed)), Some(k)).(held := true)])
  }

  lemma LeakSteps(s: System, k: SaleId)
    requires 1 !in s.procs
    ensures var b := AfterTake(s, k, 1, 7);
            var c := Insert(1, 10, 100, Rejected);
      && Enabled(b, c) && Enabled(Step(b, c), Undo(1, false))
      && Step(Step(b, c), Undo(1, false)) == AfterLeak(s, k)
  {
    var c := Step(AfterTake(s, k, 1, 7), Insert(1, 10, 100, Rejected));
    assert Step(c, Undo(1, false)).procs == AfterLeak(s, k).procs;
  }

  lemma LeakLeg(s: System, k: SaleId)
    requires 1 !in s.procs && Num(s.redis.available, k) > 0
    ensures Leads(s, AfterLeak(s, k))
  {
    TakeLeg(s, k, 1, 7);
    LeakSteps(s, k);
    var b := AfterTake(s, k, 1, 7);
    ThenStep(s, b, Insert(1, 10, 100, Rejected));
    ThenStep(s, Step(b, Insert(1, 10, 100, Rejected)), Undo(1, false));
  }

  lemma LeakIsReset(s: System, k: SaleId, b: System)
    requires Init(s) && k in s.db.sales && s.db.sales[k].total > 0 && b == AfterLeak(s, k)
    ensures ReconcileSafe(b, k, 0) && Expected(b.db, k, 0) == s.db.sales[k].total
    ensures Resets(b, k, 0, HALF) && Num(b.redis.reserved, k) == 1 && ActiveRows(b.db, k, 0) == 0
    ensures Num(ReconcileRedis(b.redis, b.db, k, 0, HALF).reserved, k) == 1
  {
    assert Matching(b.procs, InflightOf(k)) == {};
    assert Matching(b.db.rows, ActiveFor(k, 0)) == {} == Matching(b.db.orders, LiveFor(k));
  }

  /** Nor is it enough that a reconcile which gets all its writes through would be safe: one whose
      second SET fails puts a unit on sale that `reserved` still shows. */
  lemma HalfWriteOversells(s: System, k: SaleId)
    requires Init(s) && k in s.db.sales && s.db.sales[k].total > 0
    ensures exists b, t :: Reachable(s, b) && ReconcileSafe(b, k, 0) && !Resells(b, k, 0, ALL_WELL)
                        && Reachable(b, t) && Oversold(t.db, k)
  {
    LeakLeg(s, k);
    var b := AfterLeak(s, k);
    LeadsIsReachable(s, b);
    LeakIsReset(s, k, b);
    InitOk(s);
    var ls :| Runs(s, ls) && Run(s, ls) == b;
    ConfirmedForever(s, ls);
    HalfWriteResells(b, k, 0, HALF);
    NothingPending(b, k);
    FullWriteResells(b, k, 0, ALL_WELL);
    Here(b);
    Resold(b, b, k, 0, HALF);
  }

  lemma Here(s: System)
    ensures Reachable(s, s)
  {
    LeadsHere(s);
    LeadsIsReachable(s, s);
  }

  lemma NothingPending(s: System, k: SaleId)
    requires Inflight(s, k) == 0
    ensures !exists p :: Pending(s, k, p)
  {
    assert Matching(s.procs, InflightOf(k)) == {};
    forall p ensures !Pending(s, k, p) {
      assert p !in Matching(s.procs, InflightOf(k));
    }
  }

  lemma BothRelease(s: System, k: SaleId, c: System)
    requires Init(s) && k in s.db.sales && s.db.sales[k].total > 0
    requires c == AfterLoad(AfterLoad(AfterReserve(s, k, 1, 7, 10, 100), k, 2, 10), k, 3, 10)
    ensures Enabled(c, Script(2, Answered)) && Enabled(Step(c, Script(2, Answered)), Script(3, Answered))
    ensures var r := Step(Step(c, Script(2, Answered)), Script(3, Answered)).redis;
      Num(r.reserved, k) == -1 && Num(r.available, k) == s.db.sales[k].total + 1
  {
    assert Num(c.redis.reserved, k) == 1 && Num(c.redis.available, k) == s.db.sales[k].total - 1;
  }

  /** Two releases of one reservation, both past the status check: `reserved` ends below zero and
      `available` above the stock, so neither bound is an invariant of the system. */
  lemma ReservedCanGoNegative(s: System, k: SaleId)
    requires Init(s) && k in s.db.sales && s.db.sales[k].total > 0
    ensures exists t :: Leads(s, t) && Num(t.redis.reserved, k) == -1
                     && Num(t.redis.available, k) == s.db.sales[k].total + 1
  {
    ReserveLeg(s, k, 1, 7, 10, 100);
    var a := AfterReserve(s, k, 1, 7, 10, 100);
    ReleaseLeg(a, k, 2, 10);
    var b := AfterLoad(a, k, 2, 10);
    ReleaseLeg(b, k, 3, 10);
    var c := AfterLoad(b, k, 3, 10);
    LeadsTrans(s, a, b);
    LeadsTrans(s, b, c);
    BothRelease(s, k, c);
    ThenStep(s, c, Script(2, Answered));
    ThenStep(s, Step(c, Script(2, Answered)), Script(3, Answered));
  }

  // ---- exactly when `reserved` goes below zero and `available` above the stock

  /** The step executes release.lua on the sale: a Release, an expiry or a compensation. */
  ghost predicate Releases(s: System, l: Label, k: SaleId)
    requires Enabled(s, l)
  {
    match l
    case Script(pid, d) =>
      !d.NotRun? && (s.procs[pid].job.ReleaseJob? || s.procs[pid].job.ExpireJob?) && s.procs[pid].sale == Some(k)
    case Undo(pid, ran) => ran && s.procs[pid].sale == Some(k)
    case _ => false
  }

  /** What release.lua does to the counters is all that can take them past their bounds. */
  lemma ScriptWithin(r: Redis, j: SaleId, job: Job, k: SaleId)
    ensures var n := RunScript(r, j, job).0;
            var releases := job.Terminal() && !job.ConfirmJob? && j == k;
      && Num(n.available, k) <= Num(r.available, k) + (if releases then 1 else 0)
      && (releases ==> Num(n.available, k) == Num(r.available, k) + 1)
      && (releases ==> Num(n.reserved, k) == Num(r.reserved, k) - 1)
      && (!releases && Num(r.reserved, k) >= 0 ==> Num(n.reserved, k) >= 0)
  {
  }

  lemma ReservedAfterStep(s: System, l: Label, k: SaleId)
    requires Enabled(s, l) && Num(s.redis.reserved, k) >= 0
    ensures Num(Step(s, l).redis.reserved, k) >= 0 <==> !(Releases(s, l, k) && Num(s.redis.reserved, k) == 0)
  {
    if l.Script? { ScriptWithin(s.redis, s.procs[l.pid].sale.value, s.procs[l.pid].job, k); }
  }

  lemma AvailableAfterStep(s: System, l: Label, k: SaleId)
    requires Enabled(s, l) && k in s.db.sales && Num(s.redis.available, k) <= s.db.sales[k].total
    ensures Num(Step(s, l).redis.available, k) <= s.db.sales[k].total <==>
              !(Releases(s, l, k) && Num(s.redis.available, k) == s.db.sales[k].total)
  {
    if l.Script? { ScriptWithin(s.redis, s.procs[l.pid].sale.value, s.procs[l.pid].job, k); }
  }

  /** `reserved` is at or above zero, and `available` within the stock, in every state of the run. */
  ghost predicate NeverNegative(s: System, ls: seq<Label>, k: SaleId)
    requires Runs(s, ls)
    decreases |ls|
  {
    Num(s.redis.reserved, k) >= 0 && (ls == [] || NeverNegative(Step(s, ls[0]), ls[1..], k))
  }

  ghost predicate NeverAbove(s: System, ls: seq<Label>, k: SaleId)
    requires Runs(s, ls) && k in s.db.sales
    decreases |ls|
  {
    Num(s.redis.available, k) <= s.db.sales[k].total && (ls == [] || NeverAbove(Step(s, ls[0]), ls[1..], k))
  }

  /** No step of the run executes release.lua where `reserved` is zero, or where all stock is on sale. */
  ghost predicate NeverReleasesNothing(s: System, ls: seq<Label>, k: SaleId)
    requires Runs(s, ls)
    decreases |ls|
  {
    ls == [] ||
    (!(Releases(s, ls[0], k) && Num(s.redis.reserved, k) == 0) && NeverReleasesNothing(Step(s, ls[0]), ls[1..], k))
  }

  ghost predicate NeverReleasesPast(s: System, ls: seq<Label>, k: SaleId)
    requires Runs(s, ls) && k in s.db.sales
    decreases |ls|
  {
    ls == [] ||
    (!(Releases(s, ls[0], k) && Num(s.redis.available, k) == s.db.sales[k].total)
     && NeverReleasesPast(Step(s, ls[0]), ls[1..], k))
  }

  /** In every run: `reserved` stays at or above zero exactly as long as release.lua is not executed
      at zero. The script, unlike confirm.lua, does not look. */
  lemma {:induction false} ReservedStaysExactly(s: System, ls: seq<Label>, k: SaleId)
    requires Runs(s, ls) && Num(s.redis.reserved, k) >= 0
    ensures NeverNegative(s, ls, k) <==> NeverReleasesNothing(s, ls, k)
    decreases |ls|
  {
    if ls != [] {
      ReservedAfterStep(s, ls[0], k);
      if Num(Step(s, ls[0]).redis.reserved, k) >= 0 { ReservedStaysExactly(Step(s, ls[0]), ls[1..], k); }
    }
  }

  /** And `available` stays within the stock exactly as long as release.lua is not executed with all
      of it on sale: no reserve, promotion or reconcile, whatever fails in it, goes past the stock. */
  lemma {:induction false} AvailableStaysExactly(s: System, ls: seq<Label>, k: SaleId)
    requires Runs(s, ls) && k in s.db.sales && Num(s.redis.available, k) <= s.db.sales[k].total
    ensures NeverAbove(s, ls, k) <==> NeverReleasesPast(s, ls, k)
    decreases |ls|
  {
    if ls != [] {
      var t := Step(s, ls[0]);
      AvailableAfterStep(s, ls[0], k);
      if Num(t.redis.available, k) <= t.db.sales[k].total { AvailableStaysExactly(t, ls[1..], k); }
    }
  }

  // ---- what the compensation paths do not give back, in every state

  /** The transaction's writes are kept: it is not stopped, and the UNIQUE constraints let it pass. */
  ghost predicate Keeps(db: Db, res: ResId, key: Key, oid: OrderId, tx: Tx) {
    (tx.Committed? || tx.CommitUnheard?) && res in db.rows && oid !in db.orders && !KeyUsed(db, key)
  }

  lemma CommitOrLose(db: Db, p: Proc, oid: OrderId, now: int, tx: Tx)
    requires p.sale.Some? && p.job.ConfirmJob? && p.phase.Committing? && !p.lost
    ensures var n := CommitStep(db, p, oid, now, tx);
            var keeps := Keeps(db, p.job.res, p.job.key, oid, tx);
      && n.1.sale == p.sale
      && (if tx.NoBegin? || (keeps && tx.Committed?) then n.1.phase.Ended? else n.1.phase.Undoing?)
      && (n.0 == db <==> !keeps) && (n.1.lost <==> !keeps)
      && (keeps ==> oid in n.0.orders && n.0.orders[oid].sale == p.sale.value)
  {
  }

  /** A Confirm past its script, whatever its transaction does and whether or not its compensation
      runs: its unit is lost exactly when the tables did not change. Every failure but that of Begin is
      compensated with release.lua, which does not restore what confirm.lua took: `reserved` ends down
      by two and `available` up by one. */
  lemma FailedConfirmLosesTheUnit(s: System, pid: Pid, oid: OrderId, now: int, tx: Tx, ran: bool)
    requires HistoryOk(s) && Live(s, pid) && s.procs[pid].phase.Scripting? && s.procs[pid].job.ConfirmJob?
    requires s.procs[pid].sale.Some? && Num(s.redis.reserved, s.procs[pid].sale.value) > 0
    ensures var k := s.procs[pid].sale.value;
            var keeps := Keeps(s.db, s.procs[pid].job.res, s.procs[pid].job.key, oid, tx);
            var failed := !tx.NoBegin? && !(keeps && tx.Committed?);
            var a := Step(s, Script(pid, Answered));
            var b := Step(a, Commit(pid, oid, now, tx));
      && (failed <==> Enabled(b, Undo(pid, ran)))
      && var c := if failed then Step(b, Undo(pid, ran)) else b;
         && c.procs[pid].phase.Ended?
         && (c.procs[pid].lost <==> c.db == s.db) && (c.db == s.db <==> !keeps)
         && (keeps ==> oid in c.db.orders && c.db.orders[oid].sale == k)
         && Num(c.redis.available, k) == Num(s.redis.available, k) + (if failed && ran then 1 else 0)
         && Num(c.redis.reserved, k) == Num(s.redis.reserved, k) - (if failed && ran then 2 else 1)
  {
    var p := Step(s, Script(pid, Answered)).procs[pid];
    CommitOrLose(s.db, p, oid, now, tx);
  }

  lemma KeyStaysUsed(s: System, ls: seq<Label>, key: Key)
    requires DbOk(s.db) && WellFormed(s) && Runs(s, ls) && KeyUsed(s.db, key)
    ensures KeyUsed(Run(s, ls).db, key)
  {
    ConfirmedForever(s, ls);
    var o :| o in s.db.orders && s.db.orders[o].key == key;
    assert Run(s, ls).db.orders[o].key == key;
  }

  /** Orders must have distinct keys, and "" is a key: once any order carries a key, no Confirm with
      that key commits in any later state of any run, and a Confirm that gets past its script loses
      its unit. After one keyless order this befalls every keyless Confirm. */
  lemma UsedKeyNeverCommits(s: System, ls: seq<Label>, pid: Pid, oid: OrderId, now: int, tx: Tx)
    requires DbOk(s.db) && WellFormed(s) && Runs(s, ls)
    requires Enabled(Run(s, ls), Commit(pid, oid, now, tx)) && KeyUsed(s.db, Run(s, ls).procs[pid].job.key)
    ensures var t := Run(s, ls);
            var u := Step(t, Commit(pid, oid, now, tx));
      u.db == t.db && u.procs[pid].lost && !u.procs[pid].phase.Committing?
  {
    KeyStaysUsed(s, ls, Run(s, ls).procs[pid].job.key);
  }

  /** A promotion whose insert is rejected gives the unit back but not the user's place. */
  lemma FailedPromotionDropsTheUser(s: System, pid: Pid, id: ResId, e: int)
    requires Enabled(s, Promote(pid, Answered)) && s.procs[pid].job.ExpireJob?
    requires var k := s.procs[pid].sale.value;
      Num(s.redis.available, k) > 0 && Waiting(s.redis, k) != map[]
    ensures var k := s.procs[pid].sale.value;
            var u := Head(Waiting(s.redis, k));
            var a := Step(s, Promote(pid, Answered));
            var b := Step(a, Insert(pid, id, e, Rejected));
            var c := Step(b, Undo(pid, true));
      && Num(c.redis.available, k) == Num(s.redis.available, k)
      && Num(c.redis.reserved, k) == Num(s.redis.reserved, k)
      && Waiting(c.redis, k) == Waiting(s.redis, k) - {u} && c.db == s.db
  {
  }
}
