/** Zero oversell, recovery, and where they stop. */
module Oversell {
  import opened Types
  import opened Counting
  import opened RedisKeys
  import opened Postgres
  import opened Protocol
  import opened Ledger
  import opened Integrity
  import opened Handlers

  ghost predicate GuardedRuns(s: System, ls: seq<Label>)
    decreases |ls|
  {
    ls == [] || (Enabled(s, ls[0]) && Guarded(s, ls[0]) && GuardedRuns(Step(s, ls[0]), ls[1..]))
  }

  lemma {:induction false} BalancedRun(s: System, ls: seq<Label>, k: SaleId)
    requires Balanced(s, k) && HistoryOk(s) && GuardedRuns(s, ls)
    ensures Runs(s, ls) && Balanced(Run(s, ls), k) && HistoryOk(Run(s, ls))
    decreases |ls|
  {
    if ls != [] {
      BalancedStep(s, ls[0], k);
      HistoryStep(s, ls[0]);
      BalancedRun(Step(s, ls[0]), ls[1..], k);
    }
  }

  lemma BalancedInit(s: System, k: SaleId)
    requires Init(s) && k in s.db.sales
    ensures Balanced(s, k) && HistoryOk(s)
  {
    assert Matching(s.procs, InflightOf(k)) == {} == Matching(s.procs, LostOf(k));
    assert Matching(s.db.orders, LiveFor(k)) == {};
  }

  /** Every interleaving, every failure, double releases and guarded reconciles included: the
      ledger holds and no sale has more orders than stock. */
  lemma ZeroOversell(s: System, ls: seq<Label>, k: SaleId)
    requires Init(s) && k in s.db.sales && GuardedRuns(s, ls)
    ensures Runs(s, ls)
    ensures var t := Run(s, ls);
      && Num(t.redis.available, k) >= 0
      && Num(t.redis.available, k) + Num(t.redis.reserved, k)
           + Orders(t.db, k) + Inflight(t, k) + Lost(t, k) == s.db.sales[k].total
      && Orders(t.db, k) <= s.db.sales[k].total
  {
    BalancedInit(s, k);
    BalancedRun(s, ls, k);
    InitOk(s);
    ConfirmedForever(s, ls);
    CountSame(Run(s, ls).db.orders, LiveFor(k), OrderOf(k));
  }

  lemma {:induction false} UnreconciledIsGuarded(s: System, ls: seq<Label>)
    requires Runs(s, ls) && Quiet(ls)
    ensures GuardedRuns(s, ls)
    decreases |ls|
  {
    if ls != [] { UnreconciledIsGuarded(Step(s, ls[0]), ls[1..]); }
  }

  /** Without reconciles no hypothesis on the run is left at all. */
  lemma ZeroOversellUnconditionally(s: System, ls: seq<Label>, k: SaleId)
    requires Init(s) && k in s.db.sales && Runs(s, ls) && Quiet(ls)
    ensures Orders(Run(s, ls).db, k) <= s.db.sales[k].total
  {
    UnreconciledIsGuarded(s, ls);
    ZeroOversell(s, ls, k);
  }

  /** Whatever the counters held, and whatever the handlers were doing, a guarded reconcile that gets
      its writes through starts a stretch in which every run keeps the ledger. */
  lemma SelfStabilising(s: System, k: SaleId, now: int, c: Calls, ls: seq<Label>)
    requires HistoryOk(s) && ReconcileSafe(s, k, now) && Settles(s, k, now, c)
    requires GuardedRuns(Step(s, Reconcile(k, now, c)), ls)
    ensures Runs(s, [Reconcile(k, now, c)] + ls)
    ensures var t := Run(s, [Reconcile(k, now, c)] + ls);
      Balanced(t, k) && LiveOrders(t.db, k) <= t.db.sales[k].total
  {
    var u := Step(s, Reconcile(k, now, c));
    ReconcileBalances(s, k, now, c);
    HistoryStep(s, Reconcile(k, now, c));
    BalancedRun(u, ls, k);
    assert ([Reconcile(k, now, c)] + ls)[1..] == ls;
  }

  /** The guard is exact for the ledger equation. From any counters, a reconcile that gets its writes
      through balances its sale if and only if no confirm is between script and commit and the
      database is not overcommitted; from a balanced state, a reconcile whose calls go in any way
      keeps the balance if and only if it is guarded. */
  lemma ReconcileGuardIsExact(s: System, k: SaleId, now: int, c: Calls)
    requires k in s.db.sales
    ensures Settles(s, k, now, c) ==>
      (Balanced(Step(s, Reconcile(k, now, c)), k) <==> ReconcileSafe(s, k, now))
    ensures Balanced(s, k) ==>
      (Balanced(Step(s, Reconcile(k, now, c)), k) <==> Guarded(s, Reconcile(k, now, c)))
  {
    Forgiven(s, k, k);
  }

  ghost predicate Sane(s: System, k: SaleId) {
    Balanced(s, k) && HistoryOk(s) && DbOk(s.db) && WellFormed(s)
  }

  lemma AdvanceKeepsTheLedger(s: System, pid: Pid, o: Oracle, k: SaleId)
    requires Sane(s, k) && Live(s, pid) && PhaseOk(s.procs[pid])
    ensures Sane(Within(s, pid, Advance(Alone(s.redis, s.db, s.procs[pid]), o)), k)
  {
    var l := LabelOf(pid, s.procs[pid], o);
    AdvanceIsAStep(s, pid, o);
    BalancedStep(s, l, k);
    HistoryStep(s, l);
    WellFormedStep(s, l);
  }

  /** A handler run from start to end by itself, with any failures, keeps every sale's ledger; the
      service methods do to the stores exactly what `Solo` does. */
  lemma {:induction false} SoloKeepsTheLedger(s: System, pid: Pid, o: Oracle, k: SaleId)
    requires Sane(s, k) && pid in s.procs
    ensures Sane(Within(s, pid, Solo(Alone(s.redis, s.db, s.procs[pid]), o)), k)
    decreases StepsLeft(s.procs[pid].phase)
  {
    var a := Alone(s.redis, s.db, s.procs[pid]);
    assert PhaseOk(a.p);
    if a.p.phase.Ended? {
      assert Within(s, pid, a) == s;
    } else {
      var b := Advance(a, o);
      var t := Within(s, pid, b);
      AdvanceShortens(a, o);
      AdvanceKeepsTheLedger(s, pid, o, k);
      WithinTwice(s, pid, b, Solo(b, o));
      SoloKeepsTheLedger(t, pid, o, k);
      assert Solo(a, o) == Solo(b, o);
    }
  }
}
