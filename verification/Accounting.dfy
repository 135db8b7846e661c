/** When no confirm or release write fails and a reservation is in the hands of at most one of
    Confirm, Release and expiry at a time, `reserved` counts rows, program counters and the units
    given back in error exactly. */
module Accounting {
  import opened Types
  import opened Counting
  import opened RedisKeys
  import opened Postgres
  import opened Protocol
  import opened Ledger
  import opened Integrity

  /** Confirm, Release or expiry up to and including its write to the row. */
  predicate Terminating(p: Proc) {
    && p.job.Terminal()
    && (p.phase.Recalling? || p.phase.Loading? || p.phase.Scripting? || p.phase.Committing? || p.phase.Updating?)
  }

  predicate Settled(p: Proc) { p.phase.Committing? || p.phase.Updating? }

  /** The steps of an orderly run. Reserve and promotion may still fail in every way: lose replies,
      crash, have their insert rejected or applied unheard, compensate or fail to. */
  ghost predicate Orderly(s: System, l: Label)
    requires Enabled(s, l)
  {
    match l
    case Start(_, job) =>
      job.Terminal() ==> forall q | q in s.procs && Terminating(s.procs[q]) :: s.procs[q].job.res != job.res
    case Script(pid, d) => s.procs[pid].job.Terminal() ==> !d.Unheard?
    case Commit(pid, oid, now, tx) =>
      var p := s.procs[pid];
      tx.Committed? && ConfirmTx(s.db, p.job.res, p.sale.value, oid, p.job.key, now).Some?
    case Update(_, w) => !w.Rejected?
    case Crash(pid) => !Settled(s.procs[pid])
    case Reconcile(_, _, _) => false
    case _ => true
  }

  ghost predicate OrderlyRuns(s: System, ls: seq<Label>)
    decreases |ls|
  {
    ls == [] || (Enabled(s, ls[0]) && Orderly(s, ls[0]) && OrderlyRuns(Step(s, ls[0]), ls[1..]))
  }

  ghost function HoldsFor(k: SaleId): Proc -> bool {
    (p: Proc) => p.held && p.sale == Some(k)
  }

  ghost function SettlesFor(k: SaleId): Proc -> bool {
    (p: Proc) => Settled(p) && p.sale == Some(k)
  }

  ghost function PhantomFor(k: SaleId): Proc -> bool {
    (p: Proc) => p.phantom && p.sale == Some(k)
  }

  ghost function UpdatesFor(k: SaleId): Proc -> bool {
    (p: Proc) => p.phase.Updating? && p.sale == Some(k)
  }

  /** Reserves and promotions between their script and their insert or compensation. */
  ghost function Holding(s: System, k: SaleId): nat { Count(s.procs, HoldsFor(k)) }

  /** Confirms, releases and expiries between their script and their write. */
  ghost function Settling(s: System, k: SaleId): nat { Count(s.procs, SettlesFor(k)) }

  /** Reserves and promotions that inserted their row unheard and then gave its unit back. */
  ghost function Phantoms(s: System, k: SaleId): nat { Count(s.procs, PhantomFor(k)) }

  ghost predicate Exact(s: System, k: SaleId) {
    Num(s.redis.reserved, k) == Held(s.db, k) + Holding(s, k) - Settling(s, k) - Phantoms(s, k)
  }

  predicate FlagsOk(p: Proc) {
    && !p.lost
    && (p.held ==> p.phase.Inserting? || p.phase.Undoing? || p.phase.Ended?)
    && (p.phase.Inserting? ==> p.held)
    && (p.phase.Undoing? ==> !p.job.ConfirmJob?)
    && (p.phantom ==> p.phase.Ended?)
  }

  /** Past its status check, a terminating handler's row is still reserved. */
  predicate RowLive(db: Db, p: Proc) {
    (Terminating(p) && !p.phase.Recalling? && !p.phase.Loading?) ==>
      && p.job.res in db.rows && db.rows[p.job.res].status == Reserved
      && p.sale == Some(db.rows[p.job.res].sale)
  }

  ghost predicate Exclusive(s: System) {
    && (forall p | p in s.procs :: FlagsOk(s.procs[p]) && RowLive(s.db, s.procs[p]))
    && (forall p, q | p in s.procs && q in s.procs && Terminating(s.procs[p]) && Terminating(s.procs[q])
          && s.procs[p].job.res == s.procs[q].job.res :: p == q)
  }

  // ---- every orderly step keeps the exclusion

  lemma FlagsStep(s: System, l: Label)
    requires Enabled(s, l) && HasPid(l) && Orderly(s, l)
    requires !l.Start? ==> FlagsOk(s.procs[l.pid]) && PhaseOk(s.procs[l.pid])
    ensures FlagsOk(Next(s, l))
  {
  }

  predicate Opens(l: Label) { l.Start? || l.Recall? || l.Load? || l.Script? }

  lemma OpeningTerminating(s: System, l: Label)
    requires Enabled(s, l) && Opens(l) && !l.Start?
    ensures Next(s, l).job == s.procs[l.pid].job
    ensures Terminating(Next(s, l)) ==> Terminating(s.procs[l.pid])
  {
  }

  lemma TerminatingStep(s: System, l: Label)
    requires Enabled(s, l) && HasPid(l) && !l.Start?
    requires PhaseOk(s.procs[l.pid])
    ensures Next(s, l).job == s.procs[l.pid].job
    ensures Terminating(Next(s, l)) ==> Terminating(s.procs[l.pid])
  {
    if Opens(l) { OpeningTerminating(s, l); }
  }

  lemma OpeningRowLive(s: System, l: Label)
    requires Enabled(s, l) && Opens(l)
    requires !l.Start? ==> RowLive(s.db, s.procs[l.pid]) && PhaseOk(s.procs[l.pid])
    ensures RowLive(s.db, Next(s, l))
  {
  }

  lemma OwnRowLive(s: System, l: Label)
    requires Enabled(s, l) && HasPid(l) && Orderly(s, l)
    requires !l.Start? ==> RowLive(s.db, s.procs[l.pid]) && PhaseOk(s.procs[l.pid])
    ensures RowLive(NextDb(s, l), Next(s, l))
  {
    if Opens(l) { OpeningRowLive(s, l); }
  }

  /** Only the one handler terminating a row can change the row's status. */
  lemma OtherRowLive(s: System, l: Label, q: Pid)
    requires Enabled(s, l) && Exclusive(s) && WellFormed(s)
    requires q in s.procs && (HasPid(l) ==> q != l.pid)
    ensures RowLive(NextDb(s, l), s.procs[q])
  {
    var p := s.procs[q];
    assert RowLive(s.db, p);
    if Terminating(p) && !p.phase.Recalling? && !p.phase.Loading? && (l.Commit? || l.Update?) {
      assert Terminating(s.procs[l.pid]);
      assert s.procs[l.pid].job.res != p.job.res;
    }
  }

  lemma ExclusiveStep(s: System, l: Label)
    requires Exclusive(s) && WellFormed(s) && Enabled(s, l) && Orderly(s, l)
    ensures Exclusive(Step(s, l))
  {
    var t := Step(s, l);
    if HasPid(l) {
      if !l.Start? { assert PhaseOk(s.procs[l.pid]); TerminatingStep(s, l); }
      FlagsStep(s, l);
      OwnRowLive(s, l);
    }
    forall p | p in t.procs ensures FlagsOk(t.procs[p]) && RowLive(t.db, t.procs[p]) {
      if !(HasPid(l) && p == l.pid) { OtherRowLive(s, l, p); }
    }
  }

  // ---- every orderly step keeps the count exact

  /** What handler state `p` adds to `reserved` beyond the rows. */
  ghost function Owes(p: Proc, k: SaleId): int {
    (if HoldsFor(k)(p) then 1 else 0) - (if SettlesFor(k)(p) then 1 else 0) - (if PhantomFor(k)(p) then 1 else 0)
  }

  ghost function OwedBefore(s: System, l: Label, k: SaleId): int
    requires HasPid(l)
  {
    if l.pid in s.procs then Owes(s.procs[l.pid], k) else 0
  }

  /** How many reserved rows a step adds to a sale. */
  ghost function RowDelta(s: System, l: Label, k: SaleId): int
    requires Enabled(s, l)
  {
    if !HasPid(l) || l.Start? || s.procs[l.pid].sale != Some(k) then 0
    else match l
      case Insert(_, id, _, w) => if !w.Rejected? && id !in s.db.rows then 1 else 0
      case Commit(_, _, _, _) => -1
      case Update(_, _) => -1
      case _ => 0
  }

  lemma HeldMoves(s: System, l: Label, k: SaleId)
    requires Enabled(s, l) && Orderly(s, l) && HasPid(l)
    requires RowsValid(s.db)
    requires !l.Start? ==> RowLive(s.db, s.procs[l.pid]) && PhaseOk(s.procs[l.pid])
    ensures Held(NextDb(s, l), k) == Held(s.db, k) + RowDelta(s, l, k)
  {
    match l
    case Insert(pid, id, _, _) =>
      if id in NextDb(s, l).rows { CountPut(s.db.rows, id, NextDb(s, l).rows[id], HeldBy(k)); }
    case Commit(pid, _, _, _) =>
      var id := s.procs[pid].job.res;
      CountPut(s.db.rows, id, NextDb(s, l).rows[id], HeldBy(k));
    case Update(pid, _) =>
      var id := s.procs[pid].job.res;
      CountPut(s.db.rows, id, NextDb(s, l).rows[id], HeldBy(k));
    case _ =>
  }

  lemma ScriptOwes(r: Redis, p: Proc, d: Delivery, k: SaleId)
    requires p.sale.Some? && p.phase.Scripting? && FlagsOk(p) && (p.job.Terminal() ==> !d.Unheard?)
    ensures var n := ScriptStep(r, p, d);
      Num(n.0.reserved, k) - Num(r.reserved, k) == Owes(n.1, k) - Owes(p, k)
  {
    if !d.NotRun? {
      var n := RunScript(r, p.sale.value, p.job);
      assert n.1 == 1 || n.1 == -1;
    }
  }

  lemma ReservedMoves(s: System, l: Label, k: SaleId)
    requires Enabled(s, l) && Orderly(s, l) && HasPid(l)
    requires !l.Start? ==> FlagsOk(s.procs[l.pid]) && PhaseOk(s.procs[l.pid])
    ensures Num(NextRedis(s, l).reserved, k) - Num(s.redis.reserved, k)
         == RowDelta(s, l, k) + Owes(Next(s, l), k) - OwedBefore(s, l, k)
  {
    if l.Script? { ScriptOwes(s.redis, s.procs[l.pid], l.d, k); }
  }

  lemma OwedMoves(s: System, l: Label, k: SaleId)
    requires Enabled(s, l) && HasPid(l)
    ensures var t := Step(s, l);
      Holding(t, k) - Settling(t, k) - Phantoms(t, k)
        == Holding(s, k) - Settling(s, k) - Phantoms(s, k) + Owes(Next(s, l), k) - OwedBefore(s, l, k)
  {
    CountMoves(s, l, PhantomFor(k));
    CountMoves(s, l, HoldsFor(k));
    CountMoves(s, l, SettlesFor(k));
  }

  lemma ExactStep(s: System, l: Label, k: SaleId)
    requires Exact(s, k) && Exclusive(s) && WellFormed(s) && RowsValid(s.db) && Enabled(s, l) && Orderly(s, l)
    ensures Exact(Step(s, l), k)
  {
    if HasPid(l) {
      if !l.Start? {
        var p := s.procs[l.pid];
        assert FlagsOk(p) && RowLive(s.db, p) && PhaseOk(p);
      }
      HeldMoves(s, l, k);
      ReservedMoves(s, l, k);
      OwedMoves(s, l, k);
    }
  }

  // ---- over orderly runs

  ghost predicate Good(s: System, k: SaleId) {
    Balanced(s, k) && HistoryOk(s) && DbOk(s.db) && WellFormed(s) && Exclusive(s) && Exact(s, k)
  }

  lemma GoodInit(s: System, k: SaleId)
    requires Init(s) && k in s.db.sales
    ensures Good(s, k)
  {
    InitOk(s);
    assert Matching(s.procs, HoldsFor(k)) == {} == Matching(s.procs, SettlesFor(k));
    assert Matching(s.procs, PhantomFor(k)) == {};
  }

  lemma {:induction false} OrderlyRunsStayGood(s: System, ls: seq<Label>, k: SaleId)
    requires Good(s, k) && OrderlyRuns(s, ls)
    ensures Runs(s, ls) && Good(Run(s, ls), k)
    decreases |ls|
  {
    if ls != [] {
      BalancedStep(s, ls[0], k);
      HistoryStep(s, ls[0]);
      WellFormedStep(s, ls[0]);
      ExclusiveStep(s, ls[0]);
      ExactStep(s, ls[0], k);
      OrderlyRunsStayGood(Step(s, ls[0]), ls[1..], k);
    }
  }

  ghost function ResOf(s: System): Pid -> ResId {
    (p: Pid) => if p in s.procs && s.procs[p].job.Terminal() then s.procs[p].job.res else 0
  }

  /** Handlers past their status check sit on distinct reserved rows. */
  lemma DistinctRows(s: System, k: SaleId, ps: set<Pid>)
    requires Good(s, k)
    requires forall p | p in ps :: p in s.procs && s.procs[p].sale == Some(k) && Terminating(s.procs[p])
               && (s.procs[p].phase.Scripting? || Settled(s.procs[p]))
    ensures |ps| <= Held(s.db, k)
  {
    var rows := Matching(s.db.rows, HeldBy(k));
    forall p | p in ps ensures ResOf(s)(p) in rows { assert RowLive(s.db, s.procs[p]); }
    InjectionSize(ps, rows, ResOf(s));
  }

  lemma SettledIsTerminating(s: System, k: SaleId)
    requires Good(s, k)
    ensures forall p | p in Matching(s.procs, SettlesFor(k)) :: Terminating(s.procs[p])
  {
    forall p | p in Matching(s.procs, SettlesFor(k)) ensures Terminating(s.procs[p]) {
      assert PhaseOk(s.procs[p]);
    }
  }

  /** `reserved` is below zero by at most the units given back in error. */
  lemma ReservedLowerBound(s: System, k: SaleId)
    requires Good(s, k)
    ensures Num(s.redis.reserved, k) + Phantoms(s, k) >= 0
  {
    SettledIsTerminating(s, k);
    DistinctRows(s, k, Matching(s.procs, SettlesFor(k)));
  }

  lemma RowsForSettlingAndOne(s: System, k: SaleId, pid: Pid)
    requires Good(s, k) && pid in s.procs
    requires s.procs[pid].job.ConfirmJob? && s.procs[pid].phase.Scripting? && s.procs[pid].sale == Some(k)
    ensures |Matching(s.procs, SettlesFor(k)) + {pid}| <= Held(s.db, k)
  {
    SettledIsTerminating(s, k);
    DistinctRows(s, k, Matching(s.procs, SettlesFor(k)) + {pid});
  }

  lemma RoomToConfirm(s: System, k: SaleId, pid: Pid)
    requires Good(s, k) && pid in s.procs
    requires s.procs[pid].job.ConfirmJob? && s.procs[pid].phase.Scripting? && s.procs[pid].sale == Some(k)
    ensures Num(s.redis.reserved, k) + Phantoms(s, k) > 0
  {
    var settling := Matching(s.procs, SettlesFor(k));
    RowsForSettlingAndOne(s, k, pid);
    assert pid !in settling;
    assert |settling + {pid}| == |settling| + 1;
  }

  /** A Confirm that found its reservation reserved is refused by confirm.lua only if units were
      given back in error. */
  lemma RefusalNeedsAPhantom(s: System, k: SaleId, pid: Pid)
    requires Good(s, k) && Live(s, pid)
    requires s.procs[pid].job.ConfirmJob? && s.procs[pid].phase.Scripting? && s.procs[pid].sale == Some(k)
    ensures ConfirmLua(s.redis, k).1 == -1 ==> Phantoms(s, k) > 0
    ensures Phantoms(s, k) == 0 ==> Step(s, Script(pid, Answered)).procs[pid].phase.Committing?
  {
    RoomToConfirm(s, k, pid);
  }

  lemma SettlingSplits(s: System, k: SaleId)
    ensures Settling(s, k) == Inflight(s, k) + Count(s.procs, UpdatesFor(k))
  {
    CountSplit(s.procs, InflightOf(k), UpdatesFor(k), SettlesFor(k));
  }

  lemma NothingLost(s: System, k: SaleId)
    requires Exclusive(s)
    ensures Lost(s, k) == 0
  {
    assert Matching(s.procs, LostOf(k)) == {};
  }

  /** Postgres alone is overcommitted by at most the releases and expiries that have given their
      unit back but not yet written their row, and the units given back in error. */
  lemma OvercommitBound(s: System, k: SaleId)
    requires Good(s, k)
    ensures Held(s.db, k) + LiveOrders(s.db, k)
         <= s.db.sales[k].total + Count(s.procs, UpdatesFor(k)) + Phantoms(s, k)
  {
    SettlingSplits(s, k);
    NothingLost(s, k);
  }

  /** With no unit in a handler's hands, a reconcile puts exactly the overdue rows' units back on
      sale and takes exactly the units given back in error off it; with as many of one as of the
      other it finds no drift and writes nothing. */
  lemma CacheIsRedundant(s: System, k: SaleId, now: int)
    requires Good(s, k) && Holding(s, k) == 0 && Settling(s, k) == 0
    ensures var r := Step(s, Reconcile(k, now, ALL_WELL)).redis;
            var moved := Overdue(s.db, k, now) - Phantoms(s, k);
      && Num(r.available, k) == Num(s.redis.available, k) + moved
      && Num(r.reserved, k) == Num(s.redis.reserved, k) - moved
      && Num(r.available, k) + Num(r.reserved, k) + LiveOrders(s.db, k) == s.db.sales[k].total
      && (r == s.redis <==> moved == 0)
  {
    SettlingSplits(s, k);
    NothingLost(s, k);
    HeldSplits(s.db, k, now);
  }

  /** Every state of every orderly run from provisioned sales. */
  lemma OrderlyRunsCountExactly(s: System, ls: seq<Label>, k: SaleId)
    requires Init(s) && k in s.db.sales && OrderlyRuns(s, ls)
    ensures Runs(s, ls)
    ensures var t := Run(s, ls);
      && Num(t.redis.reserved, k) == Held(t.db, k) + Holding(t, k) - Settling(t, k) - Phantoms(t, k)
      && Num(t.redis.reserved, k) + Phantoms(t, k) >= 0
      && Held(t.db, k) + LiveOrders(t.db, k)
           <= s.db.sales[k].total + Count(t.procs, UpdatesFor(k)) + Phantoms(t, k)
  {
    GoodInit(s, k);
    OrderlyRunsStayGood(s, ls, k);
    ReservedLowerBound(Run(s, ls), k);
    OvercommitBound(Run(s, ls), k);
    SalesFixed(s, ls);
  }

  lemma SalesFixed(s: System, ls: seq<Label>)
    requires Init(s) && Runs(s, ls)
    ensures Run(s, ls).db.sales == s.db.sales
  {
    InitOk(s);
    ConfirmedForever(s, ls);
  }

  /** At rest, a reconcile after any orderly run writes nothing if and only if as many rows are
      overdue as units were given back in error; Redis then equals the Postgres recomputation. */
  lemma CacheAgreesAtRest(s: System, ls: seq<Label>, k: SaleId, now: int)
    requires Init(s) && k in s.db.sales && OrderlyRuns(s, ls) && Runs(s, ls)
    requires Holding(Run(s, ls), k) == 0 && Settling(Run(s, ls), k) == 0
    ensures var t := Run(s, ls);
      && k in t.db.sales
      && (Step(t, Reconcile(k, now, ALL_WELL)).redis == t.redis <==> Overdue(t.db, k, now) == Phantoms(t, k))
      && (Overdue(t.db, k, now) == Phantoms(t, k) ==>
            && Num(t.redis.available, k) == Expected(t.db, k, now)
            && Num(t.redis.reserved, k) == ActiveRows(t.db, k, now))
  {
    GoodInit(s, k);
    OrderlyRunsStayGood(s, ls, k);
    CacheIsRedundant(Run(s, ls), k, now);
    HeldSplits(Run(s, ls).db, k, now);
  }

  /** Where the phantoms come from: an insert applied and yet reported as failed, and then a
      compensation that gives back a unit whose row exists. */
  lemma UnheardInsertMakesAPhantom(s: System, pid: Pid, id: ResId, e: int, k: SaleId)
    requires Enabled(s, Insert(pid, id, e, AppliedUnheard)) && id !in s.db.rows
    requires s.procs[pid].sale == Some(k) && FlagsOk(s.procs[pid]) && PhaseOk(s.procs[pid])
    ensures var b := Step(Step(s, Insert(pid, id, e, AppliedUnheard)), Undo(pid, true));
      && Phantoms(b, k) == Phantoms(s, k) + 1
      && Num(b.redis.reserved, k) == Num(s.redis.reserved, k) - 1 && Held(b.db, k) == Held(s.db, k) + 1
  {
    var l := Insert(pid, id, e, AppliedUnheard);
    var a := Step(s, l);
    CountMoves(s, l, PhantomFor(k));
    CountMoves(a, Undo(pid, true), PhantomFor(k));
    CountPut(s.db.rows, id, a.db.rows[id], HeldBy(k));
  }
}
