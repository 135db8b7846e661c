/** The periodic and the startup reconciler, as loops over the active sales. */
module Reconcilers {
  import opened Types
  import opened Counting
  import opened RedisKeys
  import opened Postgres
  import opened Protocol
  import opened Stores

  predicate IsActive(db: Db, k: SaleId) {
    k in db.sales && db.sales[k].status == SaleActive
  }

  /** What SELECT ... FROM sales WHERE status = 'active' answers: those sales, each once. */
  ghost predicate ActiveSales(db: Db, ks: seq<SaleId>) {
    && (forall i | 0 <= i < |ks| :: IsActive(db, ks[i]))
    && (forall k | IsActive(db, k) :: k in ks)
    && (forall i, j | 0 <= i < j < |ks| :: ks[i] != ks[j])
  }

  ghost predicate Drifted(r: Redis, db: Db, k: SaleId, now: int)
    requires k in db.sales
  {
    Drifts(r, k, Expected(db, k, now), ActiveRows(db, k, now))
  }

  /** One sale: the counters after it, and whether it was corrected; None is an error. */
  ghost function One(r: Redis, db: Db, k: SaleId, now: int, c: Calls): (Redis, Option<bool>)
    requires k in db.sales
  {
    Overwrite(r, k, Expected(db, k, now), ActiveRows(db, k, now), c)
  }

  /** One sale, call by call: nothing is written before the comparison, which sees zero where a GET
      failed; `available` is written first; and the sale counts as corrected exactly when both SETs
      are acknowledged. */
  lemma OneDoesExactly(r: Redis, db: Db, k: SaleId, now: int, c: Calls)
    requires k in db.sales
    ensures var (r', answer) := One(r, db, k, now, c);
            var active := |set id | id in db.rows && db.rows[id].sale == k && db.rows[id].status == Reserved
                                    && db.rows[id].expiresAt > now|;
            var live := |set o | o in db.orders && db.orders[o].sale == k
                                 && (db.orders[o].status == OrderPending || db.orders[o].status == Paid)|;
            var expected := db.sales[k].total - active - live;
            var first := r.(available := r.available[k := expected]);
      if !c.scan || !c.count then r' == r && answer == None
      else if (if c.getAvailable then Num(r.available, k) else 0) == expected
              && (if c.getReserved then Num(r.reserved, k) else 0) == active
      then r' == r && answer == Some(false)
      else if c.setAvailable.Rejected? then r' == r && answer == None
      else if c.setAvailable.AppliedUnheard? || c.setReserved.Rejected? then r' == first && answer == None
      else
        && r' == first.(reserved := r.reserved[k := active])
        && answer == if c.setReserved.AppliedUnheard? then None else Some(true)
  {
    ActiveRowsAre(db, k, now);
    LiveOrdersAre(db, k);
  }

  /** The first n sales of a pass: the counters, how many were processed, how many corrected. */
  ghost function Pass(r: Redis, db: Db, ks: seq<SaleId>, cs: seq<Calls>, now: int, n: nat): (Redis, nat, nat)
    requires n <= |ks| == |cs| && ActiveSales(db, ks)
    decreases n
  {
    if n == 0 then (r, 0, 0)
    else
      var (r', done, fixed) := Pass(r, db, ks, cs, now, n - 1);
      var (r'', c) := One(r', db, ks[n - 1], now, cs[n - 1]);
      (r'', if c.Some? then done + 1 else done, if c == Some(true) then fixed + 1 else fixed)
  }

  /** A pass is one of the runs of the interleaved system. */
  lemma {:induction false} PassIsARun(s: System, ks: seq<SaleId>, cs: seq<Calls>, now: int, n: nat)
    requires n <= |ks| == |cs| && ActiveSales(s.db, ks)
    ensures exists t :: Reachable(s, t) && t.db == s.db && t.redis == Pass(s.redis, s.db, ks, cs, now, n).0
    decreases n
  {
    if n == 0 {
      assert Runs(s, []) && Run(s, []) == s;
    } else {
      PassIsARun(s, ks, cs, now, n - 1);
      var t :| Reachable(s, t) && t.db == s.db && t.redis == Pass(s.redis, s.db, ks, cs, now, n - 1).0;
      var l := Reconcile(ks[n - 1], now, cs[n - 1]);
      ReachStep(t, l);
      ReachTrans(s, t, Step(t, l));
    }
  }

  // ---- whatever goes wrong, sales do not disturb each other

  lemma OneTouches(r: Redis, db: Db, k: SaleId, now: int, c: Calls, j: SaleId)
    requires k in db.sales && j != k
    ensures var r' := One(r, db, k, now, c).0;
      && SameCounters(r', r, j)
      && r'.waitlist == r.waitlist && r'.idem == r.idem && r'.ttls == r.ttls
  {
  }

  lemma OverwriteAnswers(a: Redis, b: Redis, k: SaleId, e: int, n: int, c: Calls)
    requires SameCounters(a, b, k)
    ensures Overwrite(a, k, e, n, c).1 == Overwrite(b, k, e, n, c).1
  {
  }

  lemma OverwriteAvailable(a: Redis, b: Redis, k: SaleId, e: int, n: int, c: Calls)
    requires SameCounters(a, b, k)
    ensures SameCounter(Overwrite(a, k, e, n, c).0.available, Overwrite(b, k, e, n, c).0.available, k)
  {
  }

  lemma OverwriteReserved(a: Redis, b: Redis, k: SaleId, e: int, n: int, c: Calls)
    requires SameCounters(a, b, k)
    ensures SameCounter(Overwrite(a, k, e, n, c).0.reserved, Overwrite(b, k, e, n, c).0.reserved, k)
  {
  }

  lemma OneSame(a: Redis, b: Redis, db: Db, k: SaleId, now: int, c: Calls)
    requires k in db.sales && SameCounters(a, b, k)
    ensures SameCounters(One(a, db, k, now, c).0, One(b, db, k, now, c).0, k)
    ensures One(a, db, k, now, c).1 == One(b, db, k, now, c).1
  {
    var e, n := Expected(db, k, now), ActiveRows(db, k, now);
    OverwriteAnswers(a, b, k, e, n, c);
    OverwriteAvailable(a, b, k, e, n, c);
    OverwriteReserved(a, b, k, e, n, c);
  }

  /** A pass writes no key but the counters of the sales it has reached. */
  lemma {:induction false} PassTouches(
      r: Redis, db: Db, ks: seq<SaleId>, cs: seq<Calls>, now: int, n: nat, k: SaleId)
    requires n <= |ks| == |cs| && ActiveSales(db, ks) && k !in ks[..n]
    ensures var r' := Pass(r, db, ks, cs, now, n).0;
      SameCounters(r', r, k) && r'.waitlist == r.waitlist && r'.idem == r.idem && r'.ttls == r.ttls
    decreases n
  {
    if n > 0 {
      assert ks[..n] == ks[..n - 1] + [ks[n - 1]];
      PassTouches(r, db, ks, cs, now, n - 1, k);
      OneTouches(Pass(r, db, ks, cs, now, n - 1).0, db, ks[n - 1], now, cs[n - 1], k);
    }
  }

  lemma NotReachedYet(r: Redis, db: Db, ks: seq<SaleId>, cs: seq<Calls>, now: int, n: nat)
    requires 0 < n <= |ks| == |cs| && ActiveSales(db, ks)
    ensures ks[n - 1] !in ks[..n - 1]
    ensures SameCounters(Pass(r, db, ks, cs, now, n - 1).0, r, ks[n - 1])
  {
    PassTouches(r, db, ks, cs, now, n - 1, ks[n - 1]);
  }

  /** After a pass every sale it has reached is as if that sale alone had been reconciled: whatever
      fails for one sale changes nothing for another. */
  lemma {:induction false} PassIsPerSale(
      r: Redis, db: Db, ks: seq<SaleId>, cs: seq<Calls>, now: int, n: nat, i: nat)
    requires i < n <= |ks| == |cs| && ActiveSales(db, ks)
    ensures SameCounters(Pass(r, db, ks, cs, now, n).0, One(r, db, ks[i], now, cs[i]).0, ks[i])
    decreases n
  {
    var r1 := Pass(r, db, ks, cs, now, n - 1).0;
    if i == n - 1 {
      NotReachedYet(r, db, ks, cs, now, n);
      OneSame(r1, r, db, ks[i], now, cs[i]);
    } else {
      PassIsPerSale(r, db, ks, cs, now, n - 1, i);
      OneTouches(r1, db, ks[n - 1], now, cs[n - 1], ks[i]);
    }
  }

  /** A drift that the comparison does not see: a counter that could not be read counts as zero, and
      zero is what it ought to be. */
  ghost predicate Hidden(r: Redis, db: Db, k: SaleId, now: int, c: Calls)
    requires k in db.sales
  {
    && Drifted(r, db, k, now)
    && (if c.getAvailable then Num(r.available, k) else 0) == Expected(db, k, now)
    && (if c.getReserved then Num(r.reserved, k) else 0) == ActiveRows(db, k, now)
  }

  /** A sale whose row, counts and SETs go well agrees with the recomputation after the pass unless
      its drift was hidden before it, whatever happens to the other sales. */
  lemma PassMisses(r: Redis, db: Db, ks: seq<SaleId>, cs: seq<Calls>, now: int, n: nat, i: nat)
    requires i < n <= |ks| == |cs| && ActiveSales(db, ks)
    requires cs[i].scan && cs[i].count && cs[i].setAvailable.Applied? && !cs[i].setReserved.Rejected?
    ensures Drifted(Pass(r, db, ks, cs, now, n).0, db, ks[i], now) <==> Hidden(r, db, ks[i], now, cs[i])
  {
    PassIsPerSale(r, db, ks, cs, now, n, i);
  }

  // ---- a pass in which nothing goes wrong

  ghost predicate Smooth(db: Db, ks: seq<SaleId>, cs: seq<Calls>) {
    |cs| == |ks| && ActiveSales(db, ks) && forall i | 0 <= i < |cs| :: cs[i] == ALL_WELL
  }

  ghost function Drifting(r: Redis, db: Db, ks: seq<SaleId>, now: int): set<SaleId>
    requires forall i | 0 <= i < |ks| :: ks[i] in db.sales
  {
    set k | k in ks && Drifted(r, db, k, now)
  }

  lemma OneDoes(r: Redis, db: Db, k: SaleId, now: int)
    requires k in db.sales
    ensures var (r', c) := One(r, db, k, now, ALL_WELL);
      c == Some(Drifted(r, db, k, now)) && !Drifted(r', db, k, now) && (!Drifted(r, db, k, now) ==> r' == r)
  {
  }

  lemma OneMore(a: set<SaleId>, b: set<SaleId>, k: SaleId, yes: bool)
    requires k !in a && forall x :: x in b <==> x in a || (x == k && yes)
    ensures |b| == |a| + (if yes then 1 else 0)
  {
    assert b == if yes then a + {k} else a;
  }

  lemma DriftingGrows(r: Redis, db: Db, ks: seq<SaleId>, now: int, n: nat)
    requires 0 < n <= |ks| && ks[n - 1] !in ks[..n - 1]
    requires forall i | 0 <= i < |ks| :: ks[i] in db.sales
    ensures |Drifting(r, db, ks[..n], now)|
         == |Drifting(r, db, ks[..n - 1], now)| + (if Drifted(r, db, ks[n - 1], now) then 1 else 0)
  {
    var k := ks[n - 1];
    var some, more := ks[..n - 1], ks[..n];
    assert more == some + [k];
    forall x ensures x in Drifting(r, db, more, now)
                <==> x in Drifting(r, db, some, now) || (x == k && Drifted(r, db, k, now))
    {
      assert x in more <==> x in some || x == k;
    }
    OneMore(Drifting(r, db, some, now), Drifting(r, db, more, now), k, Drifted(r, db, k, now));
  }

  /** It has corrected exactly those that had drifted before it began. */
  lemma {:induction false} PassCounts(r: Redis, db: Db, ks: seq<SaleId>, cs: seq<Calls>, now: int, n: nat)
    requires Smooth(db, ks, cs) && n <= |ks|
    ensures var p := Pass(r, db, ks, cs, now, n); p.1 == n && p.2 == |Drifting(r, db, ks[..n], now)|
    decreases n
  {
    if n == 0 {
      assert Drifting(r, db, ks[..0], now) == {};
    } else {
      PassCounts(r, db, ks, cs, now, n - 1);
      NotReachedYet(r, db, ks, cs, now, n);
      DriftingGrows(r, db, ks, now, n);
      OneDoes(Pass(r, db, ks, cs, now, n - 1).0, db, ks[n - 1], now);
    }
  }

  lemma {:induction false} PassIdle(r: Redis, db: Db, ks: seq<SaleId>, cs: seq<Calls>, now: int, n: nat)
    requires Smooth(db, ks, cs) && n <= |ks| && forall i | 0 <= i < n :: !Drifted(r, db, ks[i], now)
    ensures Pass(r, db, ks, cs, now, n).0 == r && Pass(r, db, ks, cs, now, n).2 == 0
    decreases n
  {
    if n > 0 { PassIdle(r, db, ks, cs, now, n - 1); }
  }

  /** A sale's counters are what the tables say: its stock less the reservations that are not past
      their deadline and the pending and paid orders, and those reservations. */
  ghost predicate Right(r: Redis, db: Db, k: SaleId, now: int)
    requires k in db.sales
  {
    var active := |set id | id in db.rows && db.rows[id].sale == k && db.rows[id].status == Reserved
                            && db.rows[id].expiresAt > now|;
    var live := |set o | o in db.orders && db.orders[o].sale == k
                         && (db.orders[o].status == OrderPending || db.orders[o].status == Paid)|;
    Num(r.available, k) == db.sales[k].total - active - live && Num(r.reserved, k) == active
  }

  lemma RightIsNotDrifted(r: Redis, db: Db, k: SaleId, now: int)
    requires k in db.sales
    ensures Right(r, db, k, now) <==> !Drifted(r, db, k, now)
  {
    ActiveRowsAre(db, k, now);
    LiveOrdersAre(db, k);
  }

  /** Every active sale's are. */
  ghost predicate Agrees(r: Redis, db: Db, now: int) {
    forall k | k in db.sales && db.sales[k].status == SaleActive :: Right(r, db, k, now)
  }

  lemma PassAgrees(r: Redis, db: Db, ks: seq<SaleId>, cs: seq<Calls>, now: int)
    requires Smooth(db, ks, cs)
    ensures Agrees(Pass(r, db, ks, cs, now, |ks|).0, db, now)
  {
    var r' := Pass(r, db, ks, cs, now, |ks|).0;
    forall k | k in db.sales && db.sales[k].status == SaleActive ensures Right(r', db, k, now) {
      assert IsActive(db, k);
      var i :| 0 <= i < |ks| && ks[i] == k;
      PassMisses(r, db, ks, cs, now, |ks|, i);
      RightIsNotDrifted(r', db, k, now);
    }
  }

  lemma DriftingIsOfActive(r: Redis, db: Db, ks: seq<SaleId>, now: int)
    requires ActiveSales(db, ks)
    ensures Drifting(r, db, ks, now)
         == set k | k in db.sales && db.sales[k].status == SaleActive && Drifted(r, db, k, now)
  {
  }

  /** A whole pass: every active sale agrees with the recomputation, the counters of every other sale
      are untouched, the corrections are the active sales that differed, and a second pass corrects
      nothing. */
  lemma WholePass(r: Redis, db: Db, ks: seq<SaleId>, cs: seq<Calls>, now: int)
    requires Smooth(db, ks, cs)
    ensures var (r', done, fixed) := Pass(r, db, ks, cs, now, |ks|);
      && Agrees(r', db, now)
      && (forall k | !(k in db.sales && db.sales[k].status == SaleActive) :: SameCounters(r', r, k))
      && done == |ks|
      && fixed == |set k | k in db.sales && db.sales[k].status == SaleActive && Drifted(r, db, k, now)|
      && Pass(r', db, ks, cs, now, |ks|).0 == r' && Pass(r', db, ks, cs, now, |ks|).2 == 0
  {
    forall k | !IsActive(db, k) ensures SameCounters(Pass(r, db, ks, cs, now, |ks|).0, r, k) {
      PassTouches(r, db, ks, cs, now, |ks|, k);
    }
    PassAgrees(r, db, ks, cs, now);
    PassCounts(r, db, ks, cs, now, |ks|);
    assert ks[..|ks|] == ks;
    DriftingIsOfActive(r, db, ks, now);
    forall i | 0 <= i < |ks| ensures !Drifted(Pass(r, db, ks, cs, now, |ks|).0, db, ks[i], now) {
      PassMisses(r, db, ks, cs, now, |ks|, i);
    }
    PassIdle(Pass(r, db, ks, cs, now, |ks|).0, db, ks, cs, now, |ks|);
  }

  /** When the counters agreed at one time and only time has passed, a pass puts the units of exactly
      the reservations that have fallen due since back on sale and out of `reserved`. */
  lemma PassFreesTheOverdue(r: Redis, db: Db, ks: seq<SaleId>, cs: seq<Calls>, was: int, now: int, k: SaleId)
    requires Smooth(db, ks, cs) && Agrees(r, db, was) && k in db.sales && db.sales[k].status == SaleActive
    ensures var r' := Pass(r, db, ks, cs, now, |ks|).0;
            var due := Overdue(db, k, now) - Overdue(db, k, was);
      Num(r'.available, k) == Num(r.available, k) + due && Num(r'.reserved, k) == Num(r.reserved, k) - due
  {
    PassAgrees(r, db, ks, cs, now);
    assert Right(r, db, k, was) && Right(Pass(r, db, ks, cs, now, |ks|).0, db, k, now);
    HeldSplits(db, k, was);
    HeldSplits(db, k, now);
    ActiveRowsAre(db, k, was);
    ActiveRowsAre(db, k, now);
  }

  // ---- the tallies, whatever goes wrong

  /** What the i-th sale of the pass answers when it alone is reconciled. */
  ghost function Answers(r: Redis, db: Db, ks: seq<SaleId>, cs: seq<Calls>, now: int): seq<Option<bool>>
    requires |ks| == |cs| && ActiveSales(db, ks)
  {
    seq(|ks|, i requires 0 <= i < |ks| => One(r, db, ks[i], now, cs[i]).1)
  }

  function Those(answers: seq<Option<bool>>, n: nat, a: Option<bool>): set<nat>
    requires n <= |answers|
  {
    set i | 0 <= i < n && answers[i] == a
  }

  lemma ThoseGrow(answers: seq<Option<bool>>, n: nat, a: Option<bool>)
    requires 0 < n <= |answers|
    ensures |Those(answers, n, a)| == |Those(answers, n - 1, a)| + (if answers[n - 1] == a then 1 else 0)
  {
    var fewer := Those(answers, n - 1, a);
    assert Those(answers, n, a) == if answers[n - 1] == a then fewer + {n - 1} else fewer;
  }

  /** Sales processed are those that answered without an error, corrections those that were corrected,
      each as if it alone had been reconciled. */
  lemma {:induction false} PassTallies(r: Redis, db: Db, ks: seq<SaleId>, cs: seq<Calls>, now: int, n: nat)
    requires n <= |ks| == |cs| && ActiveSales(db, ks)
    ensures var p, answers := Pass(r, db, ks, cs, now, n), Answers(r, db, ks, cs, now);
      p.1 == n - |Those(answers, n, None)| && p.2 == |Those(answers, n, Some(true))|
    decreases n
  {
    var answers := Answers(r, db, ks, cs, now);
    if n > 0 {
      PassTallies(r, db, ks, cs, now, n - 1);
      NotReachedYet(r, db, ks, cs, now, n);
      OneSame(Pass(r, db, ks, cs, now, n - 1).0, r, db, ks[n - 1], now, cs[n - 1]);
      ThoseGrow(answers, n, None);
      ThoseGrow(answers, n, Some(true));
    }
  }

  /** Of m rows delivered, the first n can be read, and no more. */
  predicate StopsAt(cs: seq<Calls>, m: nat, n: nat) {
    n <= m <= |cs| && (forall i | 0 <= i < n :: cs[i].scan) && (n == m || !cs[n].scan)
  }

  class Reconciler {
    const redis: RedisClient
    const db: Database

    constructor (redis: RedisClient, db: Database)
      ensures this.redis == redis && this.db == db
    {
      this.redis, this.db := redis, db;
    }

    /** SELECT COUNT(*) FROM reservations: reserved and not yet expired. */
    method CountReserved(k: SaleId, now: int) returns (n: nat)
      ensures n == |set id | id in db.rows && db.rows[id].sale == k && db.rows[id].status == Reserved
                             && db.rows[id].expiresAt > now|
      ensures n == ActiveRows(db.Value(), k, now)
    {
      var found := set id | id in db.rows && db.rows[id].sale == k && db.rows[id].status == Reserved
                            && db.rows[id].expiresAt > now;
      assert Matching(db.rows, ActiveFor(k, now)) == found;
      n := |found|;
    }

    /** SELECT COUNT(*) FROM orders: pending or paid. */
    method CountOrders(k: SaleId) returns (n: nat)
      ensures n == |set o | o in db.orders && db.orders[o].sale == k
                            && (db.orders[o].status == OrderPending || db.orders[o].status == Paid)|
      ensures n == LiveOrders(db.Value(), k)
    {
      var found := set o | o in db.orders && db.orders[o].sale == k
                           && (db.orders[o].status == OrderPending || db.orders[o].status == Paid);
      assert Matching(db.orders, LiveFor(k)) == found;
      n := |found|;
    }

    method ReconcileSingleSale(k: SaleId, totalStock: int, now: int, c: Calls) returns (corrected: Option<bool>)
      requires k in db.sales && totalStock == db.sales[k].total && c.scan
      modifies redis`available, redis`reserved
      ensures (redis.Value(), corrected) == One(old(redis.Value()), db.Value(), k, now, c)
    {
      if !c.count { return None; }
      var pgReserved := CountReserved(k, now);
      var pgConfirmed := CountOrders(k);
      var expectedAvailable := totalStock - pgReserved - pgConfirmed;
      var redisAvailable := Get(redis.available, k, c.getAvailable);
      var redisReserved := Get(redis.reserved, k, c.getReserved);
      if redisAvailable != expectedAvailable || redisReserved != pgReserved {
        if c.setAvailable.Rejected? { return None; }
        redis.available := redis.available[k := expectedAvailable];
        if c.setAvailable.AppliedUnheard? || c.setReserved.Rejected? { return None; }
        redis.reserved := redis.reserved[k := pgReserved];
        return if c.setReserved.Applied? then Some(true) else None;
      }
      return Some(false);
    }

    /** The periodic pass: a sale that fails is skipped. `active` is the query's answer, of which
        `delivered` rows arrive; None is a query that fails. */
    method ReconcileAllSales(active: seq<SaleId>, delivered: Option<nat>, cs: seq<Calls>, now: int)
      returns (corrections: nat, ok: bool)
      requires |cs| == |active| && ActiveSales(db.Value(), active)
      requires delivered.Some? ==> delivered.value <= |active|
      modifies redis`available, redis`reserved
      ensures ok <==> delivered == Some(|active|)
      ensures var n := if delivered.Some? then delivered.value else 0;
              var p := Pass(old(redis.Value()), db.Value(), active, cs, now, n);
        redis.Value() == p.0 && corrections == p.2
      ensures ok && (forall i | 0 <= i < |cs| :: cs[i] == ALL_WELL) ==> Agrees(redis.Value(), db.Value(), now)
    {
      corrections := 0;
      var rows := if delivered.Some? then delivered.value else 0;
      for i := 0 to rows
        invariant var p := Pass(old(redis.Value()), db.Value(), active, cs, now, i);
          redis.Value() == p.0 && corrections == p.2
      {
        if cs[i].scan {
          var corrected := ReconcileSingleSale(active[i], db.sales[active[i]].total, now, cs[i]);
          if corrected == Some(true) { corrections := corrections + 1; }
        }
      }
      ok := delivered == Some(|active|);
      if ok && forall i | 0 <= i < |cs| :: cs[i] == ALL_WELL {
        PassAgrees(old(redis.Value()), db.Value(), active, cs, now);
      }
    }

    /** The startup pass: a row that cannot be read ends it with an error. */
    method ReconcileOnStartup(active: seq<SaleId>, delivered: Option<nat>, cs: seq<Calls>, now: int)
      returns (salesProcessed: nat, corrections: nat, ok: bool)
      requires |cs| == |active| && ActiveSales(db.Value(), active)
      requires delivered.Some? ==> delivered.value <= |active|
      modifies redis`available, redis`reserved
      ensures ok <==> delivered == Some(|active|) && forall i | 0 <= i < |cs| :: cs[i].scan
      ensures var m := if delivered.Some? then delivered.value else 0;
        exists n | StopsAt(cs, m, n) ::
          (redis.Value(), salesProcessed, corrections) == Pass(old(redis.Value()), db.Value(), active, cs, now, n)
      ensures ok && (forall i | 0 <= i < |cs| :: cs[i] == ALL_WELL) ==> Agrees(redis.Value(), db.Value(), now)
    {
      salesProcessed, corrections := 0, 0;
      var rows := if delivered.Some? then delivered.value else 0;
      for i := 0 to rows
        invariant forall j | 0 <= j < i :: cs[j].scan
        invariant (redis.Value(), salesProcessed, corrections)
               == Pass(old(redis.Value()), db.Value(), active, cs, now, i)
      {
        if !cs[i].scan {
          assert StopsAt(cs, rows, i);
          return salesProcessed, corrections, false;
        }
        var corrected := ReconcileSingleSale(active[i], db.sales[active[i]].total, now, cs[i]);
        if corrected.Some? {
          salesProcessed := salesProcessed + 1;
          if corrected == Some(true) { corrections := corrections + 1; }
        }
      }
      assert StopsAt(cs, rows, rows);
      ok := delivered == Some(|active|);
      if ok && forall i | 0 <= i < |cs| :: cs[i] == ALL_WELL {
        PassAgrees(old(redis.Value()), db.Value(), active, cs, now);
      }
    }
  }
}
