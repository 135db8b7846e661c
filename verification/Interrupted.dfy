/** A reconciler whose calls are separate moments, with other handlers running in between. */
module Interrupted {
  import opened Types
  import opened Counting
  import opened RedisKeys
  import opened Postgres
  import opened Protocol
  import opened Ledger
  import opened Integrity
  import opened Legs
  import opened Capacity
  import opened Resale

  function SetAvailable(s: System, k: SaleId, n: int): System {
    s.(redis := s.redis.(available := s.redis.available[k := n]))
  }

  function SetReserved(s: System, k: SaleId, n: int): System {
    s.(redis := s.redis.(reserved := s.redis.reserved[k := n]))
  }

  /** The reservations are counted in `first`, the orders in `second`; `before` runs from there to the
      SET of `available`, and `between` from that to the SET of `reserved`. */
  datatype Pass = Pass(first: System, second: System, before: seq<Label>, between: seq<Label>)

  ghost predicate Interleaved(p: Pass, k: SaleId) {
    && k in p.second.db.sales && Leads(p.first, p.second)
    && Quiet(p.before) && Runs(p.second, p.before)
  }

  ghost function Recomputed(p: Pass, k: SaleId, now: int): int
    requires k in p.second.db.sales
  {
    p.second.db.sales[k].total - ActiveRows(p.first.db, k, now) - LiveOrders(p.second.db, k)
  }

  /** After the SET of `available`. */
  ghost function Halfway(p: Pass, k: SaleId, now: int): System
    requires Interleaved(p, k)
  {
    SetAvailable(Run(p.second, p.before), k, Recomputed(p, k, now))
  }

  ghost predicate Complete(p: Pass, k: SaleId, now: int) {
    Interleaved(p, k) && Quiet(p.between) && Runs(Halfway(p, k, now), p.between)
  }

  ghost function Later(p: Pass, k: SaleId, now: int): System
    requires Complete(p, k, now)
  {
    Run(Halfway(p, k, now), p.between)
  }

  /** After the SET of `reserved`. */
  ghost function Done(p: Pass, k: SaleId, now: int): System
    requires Complete(p, k, now)
  {
    SetReserved(Later(p, k, now), k, ActiveRows(p.first.db, k, now))
  }

  // ---- what confirms take while the reconciler is at work

  /** The step is a confirm.lua that takes a unit of the sale. */
  ghost predicate Takes(s: System, l: Label, k: SaleId)
    requires Enabled(s, l)
  {
    && l.Script? && !l.d.NotRun? && s.procs[l.pid].job.ConfirmJob? && s.procs[l.pid].sale == Some(k)
    && Num(s.redis.reserved, k) > 0
  }

  ghost function Taken(s: System, ls: seq<Label>, k: SaleId): nat
    requires Runs(s, ls)
    decreases |ls|
  {
    if ls == [] then 0
    else (if Takes(s, ls[0], k) then 1 else 0) + Taken(Step(s, ls[0]), ls[1..], k)
  }

  lemma ScriptTakes(s: System, l: Label, k: SaleId)
    requires HistoryOk(s) && Enabled(s, l) && l.Script?
    ensures Speaks(Next(s, l), k) - Speaks(s.procs[l.pid], k) == if Takes(s, l, k) then 1 else 0
  {
    var p := s.procs[l.pid];
    if !l.d.NotRun? {
      RunMoves(s.redis, p.sale.value, p.job, k);
      ScriptSpeaks(p, RunScript(s.redis, p.sale.value, p.job).1, l.d, k);
    }
  }

  lemma SpokenStep(s: System, l: Label, k: SaleId)
    requires HistoryOk(s) && Enabled(s, l) && !l.Reconcile?
    ensures Spoken(Step(s, l), k) == Spoken(s, k) + (if Takes(s, l, k) then 1 else 0)
  {
    if HasPid(l) {
      SpokenMoves(s, l, k);
      if l.Script? { ScriptTakes(s, l, k); }
      else if l.Commit? { CommitMoves(s.db, s.procs[l.pid], l.oid, l.now, l.tx, k); }
      else {
        OtherMoves(s, l, k);
        OtherSpeaks(s, l, k);
      }
    }
  }

  lemma {:induction false} SpokenRun(s: System, ls: seq<Label>, k: SaleId)
    requires HistoryOk(s) && Runs(s, ls) && Quiet(ls)
    ensures HistoryOk(Run(s, ls)) && Spoken(Run(s, ls), k) == Spoken(s, k) + Taken(s, ls, k)
    ensures Run(s, ls).db.sales == s.db.sales
    decreases |ls|
  {
    if ls != [] {
      assert Quiet(ls[1..]);
      SpokenStep(s, ls[0], k);
      HistoryStep(s, ls[0]);
      SpokenRun(Step(s, ls[0]), ls[1..], k);
    }
  }

  /** Everything is accounted for, what handlers have lost being written off. */
  ghost predicate Accounted(s: System, k: SaleId) {
    && k in s.db.sales
    && Num(s.redis.available, k) + Num(s.redis.reserved, k) + LiveOrders(s.db, k) + Inflight(s, k)
         == s.db.sales[k].total
  }

  /** The pass restores the ledger if and only if what confirms had taken and not yet ordered when the
      orders were counted, with what they took from then on and did not lose, equals what was reserved
      net between the two SETs. */
  lemma PassRestoresExactly(p: Pass, k: SaleId, now: int)
    requires Complete(p, k, now) && HistoryOk(p.second)
    ensures var u, v := Halfway(p, k, now), Later(p, k, now);
      Accounted(Done(p, k, now), k) <==>
        Inflight(p.second, k) + Taken(p.second, p.before, k) + Taken(u, p.between, k)
          - (Lost(v, k) - Lost(p.second, k))
          == Num(u.redis.available, k) - Num(v.redis.available, k)
  {
    var s, u := Run(p.second, p.before), Halfway(p, k, now);
    SpokenRun(p.second, p.before, k);
    assert Spoken(u, k) == Spoken(s, k);
    SpokenRun(u, p.between, k);
  }

  /** And the sale can then be oversold, given something to confirm or to reserve, if and only if the
      ceiling of what the pass leaves is above the stock. */
  lemma PassOversellsExactly(p: Pass, k: SaleId, now: int)
    requires Complete(p, k, now) && DbOk(p.second.db) && WellFormed(p.second)
    requires Stocked(Done(p, k, now), k) || Stock(Done(p, k, now).redis, k) == 0
    ensures var t := Done(p, k, now);
      k in t.db.sales && (CanOversell(t, k) <==> Ceiling(t, k) > t.db.sales[k].total)
  {
    var s, u, t := Run(p.second, p.before), Halfway(p, k, now), Done(p, k, now);
    ConfirmedForever(p.second, p.before);
    assert DbOk(u.db) && WellFormed(u);
    ConfirmedForever(u, p.between);
    assert DbOk(t.db) && WellFormed(t);
    if Ceiling(t, k) > t.db.sales[k].total { CeilingOversells(t, k); } else { ContainedCannotOversell(t, k); }
  }

  // ---- a confirm that comes and goes unseen

  /** One reservation, made by handler 1, and nothing else yet. */
  ghost predicate OneReserved(a: System, k: SaleId) {
    && k in a.db.sales && a.db.orders == map[]
    && a.db.rows == map[10 := Row(7, k, Reserved, None, 100, false)]
    && a.procs == map[1 := Unmarked(ReserveJob(7, k, ""), SettingTtl(10), Some(k))]
    && Num(a.redis.reserved, k) == 1
  }

  lemma NothingOrdered(a: System, k: SaleId)
    requires OneReserved(a, k)
    ensures ActiveRows(a.db, k, 0) == 1 && LiveOrders(a.db, k) == 0 && Inflight(a, k) == 0
    ensures DbOk(a.db) && WellFormed(a)
  {
    assert Matching(a.db.rows, ActiveFor(k, 0)) == {10};
    assert Matching(a.db.orders, LiveFor(k)) == {} == Matching(a.procs, InflightOf(k));
  }

  lemma OneOrdered(a: System, k: SaleId)
    requires OneReserved(a, k)
    ensures var b, l := AfterConfirmLua(a, k, 2, 10, "a"), Commit(2, 50, 0, Committed);
      && Enabled(b, l) && Inflight(Step(b, l), k) == 0 && LiveOrders(NextDb(b, l), k) == 1
  {
    var b, l := AfterConfirmLua(a, k, 2, 10, "a"), Commit(2, 50, 0, Committed);
    var t := Step(b, l);
    assert Matching(t.procs, InflightOf(k)) == {};
    assert Matching(t.db.orders, LiveFor(k)) == {50};
  }

  lemma ComesAndGoes(a: System, k: SaleId) returns (ls: seq<Label>)
    requires OneReserved(a, k)
    ensures Quiet(ls) && Runs(a, ls) && Inflight(Run(a, ls), k) == 0 && LiveOrders(Run(a, ls).db, k) == 1
  {
    ConfirmLeg(a, k, 2, 10, "a");
    OneOrdered(a, k);
    var b := AfterConfirmLua(a, k, 2, 10, "a");
    ThenStep(a, b, Commit(2, 50, 0, Committed));
    ls :| Quiet(ls) && Runs(a, ls) && Run(a, ls) == Step(b, Commit(2, 50, 0, Committed));
  }

  /** A pass over that state with the confirm between its counts and its SETs. */
  lemma UnseenPass(a: System, k: SaleId, ls: seq<Label>)
    requires OneReserved(a, k) && a.db.sales[k].total > 1
    requires Quiet(ls) && Runs(a, ls) && Inflight(Run(a, ls), k) == 0 && LiveOrders(Run(a, ls).db, k) == 1
    ensures var p := Pass(a, a, ls, []);
      Complete(p, k, 0) && Inflight(Halfway(p, k, 0), k) == 0 && CanOversell(Done(p, k, 0), k)
  {
    var p := Pass(a, a, ls, []);
    LeadsHere(a);
    NothingOrdered(a, k);
    var t := Done(p, k, 0);
    ConfirmedForever(a, ls);
    assert WellFormed(t);
    CeilingOversells(t, k);
  }

  /** A Confirm that starts after the orders are counted and commits before the SETs: no confirm is in
      flight when the orders are counted nor when anything is written, and still every sale of more
      than one unit can come to more orders than stock. */
  lemma UnseenConfirmOversells(s: System, k: SaleId)
    requires Init(s) && k in s.db.sales && s.db.sales[k].total > 1
    ensures exists p: Pass ::
      && Leads(s, p.first) && Complete(p, k, 0) && p.between == [] && Inflight(p.second, k) == 0
      && Inflight(Halfway(p, k, 0), k) == 0 && CanOversell(Done(p, k, 0), k)
  {
    var a := AfterReserve(s, k, 1, 7, 10, 100);
    ReserveLeg(s, k, 1, 7, 10, 100);
    assert OneReserved(a, k);
    NothingOrdered(a, k);
    var ls := ComesAndGoes(a, k);
    UnseenPass(a, k, ls);
    var p := Pass(a, a, ls, []);
    assert p.first == a;
  }
}
