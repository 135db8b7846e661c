/** Serial expiries, each followed by a promotion whose insert may fail. */
module Batches {
  import opened Types
  import opened SortedSet
  import opened RedisKeys
  import opened Postgres
  import opened Protocol
  import opened Handlers
  import opened Outcomes
  import opened Waitlist

  /** The waitlist as the sequence in which it would be popped. */
  ghost function Queue(w: Line): (q: seq<UserId>)
    ensures |q| == |w|
    decreases |w|
  {
    if w == map[] then []
    else
      assert (w - {Head(w)}).Keys == w.Keys - {Head(w)};
      [Head(w)] + Queue(w - {Head(w)})
  }

  /** The queue lists everybody, at the index that ZRANK gives. */
  lemma {:induction false} QueueIsRank(w: Line, u: UserId)
    requires u in w
    ensures Rank(w, u) < |Queue(w)| && Queue(w)[Rank(w, u)] == u
    decreases |w|
  {
    RankBound(w, u);
    var h := Head(w);
    if u == h {
      assert Ahead(w, u) == {};
    } else {
      assert (w - {h}).Keys == w.Keys - {h};
      PopMovesUp(w, u);
      QueueIsRank(w - {h}, u);
    }
  }

  /** One expiry event: the row; the id and deadline of the reservation a promotion would make; how
      the promotion's insert goes, whether the compensation for a failed one runs, and whether the SET
      of the new reservation's TTL key goes through. */
  datatype Expiry = Expiry(res: ResId, id: ResId, expiresAt: int, insert: Write, undo: bool, ttl: bool)
  {
    /** The promotion keeps the unit it took: its insert was acknowledged, or nothing undid it. */
    predicate Keeps() { insert.Applied? || !undo }

    /** The promoted reservation will expire in its turn. */
    predicate Arms() { insert.Applied? && ttl }
  }

  /** Nothing else goes wrong. */
  function OracleOf(e: Expiry): Oracle {
    Oracle(true, true, Answered, e.insert, e.id, 0, e.expiresAt, e.ttl, true, Committed, 0,
           Applied, Answered, e.undo)
  }

  ghost function Expire(r: Redis, db: Db, e: Expiry): Alone {
    Solo(Alone(r, db, Spawn(ExpireJob(e.res))), OracleOf(e))
  }

  function NewRow(e: Expiry, k: SaleId, u: UserId): Row {
    Row(u, k, Reserved, None, e.expiresAt, true)
  }

  lemma PromoteDoes(r: Redis, db: Db, e: Expiry, k: SaleId)
    requires e.id !in db.rows
    ensures var a := Solo(Alone(r, db, Unmarked(ExpireJob(e.res), Promoting, Some(k))), OracleOf(e));
            var n := PromoteLua(r, k);
            var back := if n.1.None? || e.Keeps() then 0 else 1;
      && Num(a.redis.available, k) == Num(n.0.available, k) + back
      && Num(a.redis.reserved, k) == Num(n.0.reserved, k) - back
      && a.redis.waitlist == n.0.waitlist
      && a.redis.ttls == r.ttls + (if n.1.Some? && e.Arms() then {e.id} else {})
      && a.db == if n.1.None? || e.insert.Rejected? then db
                 else db.(rows := db.rows[e.id := NewRow(e, k, n.1.value)])
  {
    PromotionDoes(r, db, e.res, k, OracleOf(e));
  }

  /** Handling an expiry: mark the row, and hand its unit to the head of the line if there is one. */
  lemma ExpireDoes(r: Redis, db: Db, e: Expiry)
    requires e.res in db.rows && db.rows[e.res].status == Reserved && ValidConfirmation(db.rows[e.res])
    requires e.id !in db.rows
    ensures var a := Expire(r, db, e);
            var k := db.rows[e.res].sale;
            var db1 := db.(rows := db.rows[e.res := db.rows[e.res].(status := Expired)]);
            var n := PromoteLua(ReleaseLua(r, k), k);
            var back := if n.1.None? || e.Keeps() then 0 else 1;
      && Num(a.redis.available, k) == Num(n.0.available, k) + back
      && Num(a.redis.reserved, k) == Num(n.0.reserved, k) - back
      && a.redis.waitlist == n.0.waitlist
      && a.redis.ttls == r.ttls + (if n.1.Some? && e.Arms() then {e.id} else {})
      && a.db == if n.1.None? || e.insert.Rejected? then db1
                 else db1.(rows := db1.rows[e.id := NewRow(e, k, n.1.value)])
  {
    var k := db.rows[e.res].sale;
    var db1 := db.(rows := db.rows[e.res := db.rows[e.res].(status := Expired)]);
    assert ReleaseLua(r, k) == Shift(r, k, 1, -1);
    ExpiryDoes(r, db, e.res, OracleOf(e));
    PromoteDoes(ReleaseLua(r, k), db1, e, k);
  }

  /** With stock at zero or above, a freed unit goes to the head of a non-empty line. */
  lemma FreedUnitGoesToHead(r: Redis, k: SaleId)
    requires Num(r.available, k) >= 0
    ensures var n := PromoteLua(ReleaseLua(r, k), k);
            var w := Waiting(r, k);
      && (n.1.None? <==> w == map[])
      && (n.1.Some? ==> n.1.value == Head(w) && Waiting(n.0, k) == w - {Head(w)})
      && (n.1.None? ==> Waiting(n.0, k) == w)
      && Num(n.0.available, k) == Num(r.available, k) + (if w == map[] then 1 else 0)
      && Num(n.0.reserved, k) == Num(r.reserved, k) - (if w == map[] then 1 else 0)
  {
  }

  ghost function ExpireAll(r: Redis, db: Db, es: seq<Expiry>): (Redis, Db)
    decreases |es|
  {
    if es == [] then (r, db)
    else var a := Expire(r, db, es[0]); ExpireAll(a.redis, a.db, es[1..])
  }

  ghost predicate Expirable(db: Db, k: SaleId, es: seq<Expiry>) {
    && RowsValid(db)
    && (forall i | 0 <= i < |es| ::
          && es[i].res in db.rows && db.rows[es[i].res].status == Reserved && db.rows[es[i].res].sale == k
          && es[i].id !in db.rows)
    && (forall i, j | 0 <= i < j < |es| :: es[i].res != es[j].res && es[i].id != es[j].id)
  }

  function Min(a: nat, b: nat): nat { if a <= b then a else b }

  /** What one expiry adds to `available`: its unit, unless a promotion keeps it. */
  function Freed(w: Line, e: Expiry): int {
    if w == map[] || !e.Keeps() then 1 else 0
  }

  /** One expiry changes only its own two rows. */
  lemma ExpireOneRows(r: Redis, db: Db, k: SaleId, es: seq<Expiry>)
    requires es != [] && Expirable(db, k, es) && Num(r.available, k) >= 0
    ensures var a := Expire(r, db, es[0]);
            var w := Waiting(r, k);
      && es[0].res in a.db.rows && a.db.rows[es[0].res] == db.rows[es[0].res].(status := Expired)
      && (es[0].id in a.db.rows <==> w != map[] && !es[0].insert.Rejected?)
      && (es[0].id in a.db.rows ==> a.db.rows[es[0].id] == NewRow(es[0], k, Head(w)))
      && (forall x | x != es[0].res && x != es[0].id ::
            (x in a.db.rows <==> x in db.rows) && (x in db.rows ==> a.db.rows[x] == db.rows[x]))
  {
    ExpireDoes(r, db, es[0]);
    FreedUnitGoesToHead(r, k);
  }

  /** After it the rest are still expirable. */
  lemma StillExpirable(r: Redis, db: Db, k: SaleId, es: seq<Expiry>)
    requires es != [] && Expirable(db, k, es) && Num(r.available, k) >= 0
    ensures Expirable(Expire(r, db, es[0]).db, k, es[1..])
  {
    ExpireOneRows(r, db, k, es);
    var db' := Expire(r, db, es[0]).db;
    assert ValidConfirmation(db.rows[es[0].res]);
    forall i | 0 <= i < |es[1..]| ensures es[1..][i] == es[i + 1] && es[i + 1].res != es[0].id {
    }
  }

  lemma ExpireOneCounters(r: Redis, db: Db, k: SaleId, es: seq<Expiry>)
    requires es != [] && Expirable(db, k, es) && Num(r.available, k) >= 0
    ensures var a := Expire(r, db, es[0]);
            var w := Waiting(r, k);
      && Num(a.redis.available, k) == Num(r.available, k) + Freed(w, es[0])
      && Num(a.redis.reserved, k) == Num(r.reserved, k) - Freed(w, es[0])
      && Waiting(a.redis, k) == (if w == map[] then w else w - {Head(w)})
  {
    ExpireDoes(r, db, es[0]);
    FreedUnitGoesToHead(r, k);
  }

  /** Pop the line n times, or until it is empty. */
  ghost function PopMany(w: Line, n: nat): Line
    decreases n
  {
    if n == 0 || w == map[] then w else PopMany(w - {Head(w)}, n - 1)
  }

  ghost function PopList(w: Line, n: nat): seq<UserId>
    decreases n
  {
    if n == 0 || w == map[] then [] else [Head(w)] + PopList(w - {Head(w)}, n - 1)
  }

  lemma {:induction false} PopListLength(w: Line, n: nat)
    ensures |PopList(w, n)| == Min(n, |w|)
    decreases n
  {
    if n > 0 && w != map[] {
      var rest := w - {Head(w)};
      assert rest.Keys == w.Keys - {Head(w)};
      PopListLength(rest, n - 1);
    }
  }

  /** Popping n takes a prefix of the queue and leaves the rest of it. */
  ghost predicate TakesPrefix(w: Line, n: nat) {
    Queue(w) == PopList(w, n) + Queue(PopMany(w, n))
  }

  lemma TakesPrefixStep(w: Line, n: nat, rest: Line)
    requires n > 0 && w != map[] && rest == w - {Head(w)} && TakesPrefix(rest, n - 1)
    ensures TakesPrefix(w, n)
  {
    var tail := Queue(PopMany(rest, n - 1));
    var list := PopList(rest, n - 1);
    assert Queue(w) == [Head(w)] + Queue(rest);
    assert [Head(w)] + (list + tail) == ([Head(w)] + list) + tail;
  }

  lemma TakesNothing(w: Line, n: nat)
    requires n == 0 || w == map[]
    ensures TakesPrefix(w, n)
  {
    assert PopList(w, n) == [] && PopMany(w, n) == w;
  }

  lemma {:induction false} TakesSome(w: Line, n: nat)
    requires n > 0 && w != map[]
    ensures TakesPrefix(w, n)
  {
    var rest := w - {Head(w)};
    if n > 1 && rest != map[] { TakesSome(rest, n - 1); } else { TakesNothing(rest, n - 1); }
    TakesPrefixStep(w, n, rest);
  }

  lemma PopManyDropsQueue(w: Line, n: nat)
    ensures Queue(PopMany(w, n)) == Queue(w)[Min(n, |w|)..]
  {
    PopListLength(w, n);
    if n > 0 && w != map[] { TakesSome(w, n); } else { TakesNothing(w, n); }
    assert TakesPrefix(w, n);
  }

  lemma {:induction false} BatchLine(r: Redis, db: Db, k: SaleId, es: seq<Expiry>)
    requires Expirable(db, k, es) && Num(r.available, k) >= 0
    ensures Waiting(ExpireAll(r, db, es).0, k) == PopMany(Waiting(r, k), |es|)
    decreases |es|
  {
    if es != [] {
      StillExpirable(r, db, k, es);
      ExpireOneCounters(r, db, k, es);
      var a := Expire(r, db, es[0]);
      BatchLine(a.redis, a.db, k, es[1..]);
    }
  }

  /** n expiries take exactly the first min(n, length) users off the line, whatever their inserts do. */
  lemma BatchQueue(r: Redis, db: Db, k: SaleId, es: seq<Expiry>)
    requires Expirable(db, k, es) && Num(r.available, k) >= 0
    ensures var q := Queue(Waiting(r, k));
      Queue(Waiting(ExpireAll(r, db, es).0, k)) == q[Min(|es|, |q|)..]
  {
    BatchLine(r, db, k, es);
    PopManyDropsQueue(Waiting(r, k), |es|);
  }

  /** How many of the first m promotions keep their unit. */
  function Kept(es: seq<Expiry>, m: nat): nat
    requires m <= |es|
    decreases m
  {
    if m == 0 then 0 else (if es[0].Keeps() then 1 else 0) + Kept(es[1..], m - 1)
  }

  lemma ExpireOneLength(r: Redis, db: Db, k: SaleId, es: seq<Expiry>)
    requires es != [] && Expirable(db, k, es) && Num(r.available, k) >= 0
    ensures var n := |Waiting(r, k)|; |Waiting(Expire(r, db, es[0]).redis, k)| == if n == 0 then 0 else n - 1
  {
    ExpireOneCounters(r, db, k, es);
    var w := Waiting(r, k);
    assert w != map[] ==> (w - {Head(w)}).Keys == w.Keys - {Head(w)};
  }

  /** They free exactly the units that found nobody waiting or whose promotion gave them back. */
  lemma {:induction false} BatchCounters(r: Redis, db: Db, k: SaleId, es: seq<Expiry>)
    requires Expirable(db, k, es) && Num(r.available, k) >= 0
    ensures var r' := ExpireAll(r, db, es).0;
            var freed := |es| - Kept(es, Min(|es|, |Waiting(r, k)|));
      && Num(r'.available, k) == Num(r.available, k) + freed
      && Num(r'.reserved, k) == Num(r.reserved, k) - freed
    decreases |es|
  {
    if es != [] {
      StillExpirable(r, db, k, es);
      ExpireOneCounters(r, db, k, es);
      ExpireOneLength(r, db, k, es);
      var a := Expire(r, db, es[0]);
      BatchCounters(a.redis, a.db, k, es[1..]);
    }
  }

  /** The ids of those of the first m promotions whose TTL key is armed. */
  function Armed(es: seq<Expiry>, m: nat): set<ResId>
    requires m <= |es|
  {
    set i | 0 <= i < m && es[i].Arms() :: es[i].id
  }

  lemma ArmedFirst(es: seq<Expiry>, m: nat)
    requires 0 < m <= |es|
    ensures Armed(es, m) == (if es[0].Arms() then {es[0].id} else {}) + Armed(es[1..], m - 1)
  {
    var rest := es[1..];
    forall x | x in Armed(es, m) && !(es[0].Arms() && x == es[0].id) ensures x in Armed(rest, m - 1) {
      var i :| 0 <= i < m && es[i].Arms() && es[i].id == x;
      assert rest[i - 1] == es[i];
    }
    forall x | x in Armed(rest, m - 1) ensures x in Armed(es, m) {
      var i :| 0 <= i < m - 1 && rest[i].Arms() && rest[i].id == x;
      assert es[i + 1] == rest[i];
    }
  }

  lemma ArmedBehind(es: seq<Expiry>, n: nat)
    requires es != []
    ensures Armed(es, Min(|es|, n)) == (if n > 0 && es[0].Arms() then {es[0].id} else {})
                                     + Armed(es[1..], Min(|es| - 1, if n == 0 then 0 else n - 1))
  {
    if n > 0 { ArmedFirst(es, Min(|es|, n)); }
  }

  lemma ExpireOneTtls(r: Redis, db: Db, k: SaleId, es: seq<Expiry>, n: nat)
    requires es != [] && Expirable(db, k, es) && Num(r.available, k) >= 0 && |Waiting(r, k)| == n
    ensures var a := Expire(r, db, es[0]);
      && a.redis.ttls == r.ttls + (if n > 0 && es[0].Arms() then {es[0].id} else {})
      && Num(a.redis.available, k) >= 0 && |Waiting(a.redis, k)| == if n == 0 then 0 else n - 1
  {
    ExpireDoes(r, db, es[0]);
    FreedUnitGoesToHead(r, k);
    ExpireOneCounters(r, db, k, es);
    ExpireOneLength(r, db, k, es);
    assert Waiting(r, k) == map[] <==> n == 0;
  }

  lemma {:induction false} ExpireAllTtls(r: Redis, db: Db, k: SaleId, es: seq<Expiry>, n: nat)
    requires Expirable(db, k, es) && Num(r.available, k) >= 0 && |Waiting(r, k)| == n
    ensures ExpireAll(r, db, es).0.ttls == r.ttls + Armed(es, Min(|es|, n))
    decreases |es|
  {
    if es != [] {
      StillExpirable(r, db, k, es);
      ExpireOneTtls(r, db, k, es, n);
      var a := Expire(r, db, es[0]);
      ExpireAllTtls(a.redis, a.db, k, es[1..], if n == 0 then 0 else n - 1);
      ArmedBehind(es, n);
    }
  }

  /** The TTL keys gained are exactly those of the promotions acknowledged and armed. */
  lemma BatchTtls(r: Redis, db: Db, k: SaleId, es: seq<Expiry>)
    requires Expirable(db, k, es) && Num(r.available, k) >= 0
    ensures ExpireAll(r, db, es).0.ttls == r.ttls + Armed(es, Min(|es|, |Waiting(r, k)|))
  {
    ExpireAllTtls(r, db, k, es, |Waiting(r, k)|);
  }

  predicate Named(es: seq<Expiry>, x: ResId) {
    exists i | 0 <= i < |es| :: es[i].res == x || es[i].id == x
  }

  predicate SameRow(a: Db, b: Db, x: ResId) {
    (x in a.rows <==> x in b.rows) && (x in a.rows ==> a.rows[x] == b.rows[x])
  }

  lemma {:induction false} OtherRowsUntouched(r: Redis, db: Db, k: SaleId, es: seq<Expiry>, x: ResId)
    requires Expirable(db, k, es) && Num(r.available, k) >= 0 && !Named(es, x)
    ensures SameRow(db, ExpireAll(r, db, es).1, x)
    decreases |es|
  {
    if es != [] {
      assert es[0].res != x && es[0].id != x;
      ExpireOneRows(r, db, k, es);
      StillExpirable(r, db, k, es);
      ExpireOneCounters(r, db, k, es);
      var a := Expire(r, db, es[0]);
      assert forall i | 0 <= i < |es[1..]| :: es[1..][i] == es[i + 1];
      OtherRowsUntouched(a.redis, a.db, k, es[1..], x);
    }
  }

  lemma FirstIsNotNamedAgain(db: Db, k: SaleId, es: seq<Expiry>)
    requires es != [] && Expirable(db, k, es)
    ensures !Named(es[1..], es[0].res) && !Named(es[1..], es[0].id)
  {
    var rest := es[1..];
    forall j | 0 <= j < |rest| ensures rest[j] == es[j + 1] {}
  }

  lemma FirstRow(r: Redis, db: Db, k: SaleId, es: seq<Expiry>)
    requires es != [] && Expirable(db, k, es) && Num(r.available, k) >= 0
    ensures var a, db' := Expire(r, db, es[0]), ExpireAll(r, db, es).1;
      SameRow(a.db, db', es[0].res) && SameRow(a.db, db', es[0].id)
  {
    FirstIsNotNamedAgain(db, k, es);
    StillExpirable(r, db, k, es);
    ExpireOneCounters(r, db, k, es);
    var a := Expire(r, db, es[0]);
    OtherRowsUntouched(a.redis, a.db, k, es[1..], es[0].res);
    OtherRowsUntouched(a.redis, a.db, k, es[1..], es[0].id);
  }

  lemma QueueAfterOne(r: Redis, db: Db, k: SaleId, es: seq<Expiry>)
    requires es != [] && Expirable(db, k, es) && Num(r.available, k) >= 0
    ensures var q := Queue(Waiting(r, k));
      Queue(Waiting(Expire(r, db, es[0]).redis, k)) == if q == [] then [] else q[1..]
  {
    ExpireOneCounters(r, db, k, es);
  }

  /** What becomes of one expiry's two rows: the first ends expired, and the second is the reservation
      of the user in the queue at its place, if there is one and the insert is not rejected. */
  ghost predicate RowsEnd(db: Db, k: SaleId, e: Expiry, q: seq<UserId>, i: nat) {
    && e.res in db.rows && db.rows[e.res].status == Expired
    && (e.id in db.rows <==> i < |q| && !e.insert.Rejected?)
    && (e.id in db.rows ==> db.rows[e.id] == Row(q[i], k, Reserved, None, e.expiresAt, true))
  }

  lemma FirstRowsEnd(r: Redis, db: Db, k: SaleId, es: seq<Expiry>)
    requires es != [] && Expirable(db, k, es) && Num(r.available, k) >= 0
    ensures RowsEnd(ExpireAll(r, db, es).1, k, es[0], Queue(Waiting(r, k)), 0)
  {
    ExpireOneRows(r, db, k, es);
    FirstRow(r, db, k, es);
  }

  /** The i-th expiry's row ends expired, and the i-th waiting user, if any, gets its new row unless
      the insert was rejected. */
  lemma {:induction false} BatchRow(r: Redis, db: Db, k: SaleId, es: seq<Expiry>, i: nat)
    requires Expirable(db, k, es) && Num(r.available, k) >= 0 && i < |es|
    ensures RowsEnd(ExpireAll(r, db, es).1, k, es[i], Queue(Waiting(r, k)), i)
    decreases |es|
  {
    if i == 0 {
      FirstRowsEnd(r, db, k, es);
    } else {
      StillExpirable(r, db, k, es);
      ExpireOneCounters(r, db, k, es);
      QueueAfterOne(r, db, k, es);
      var a := Expire(r, db, es[0]);
      BatchRow(a.redis, a.db, k, es[1..], i - 1);
    }
  }

  lemma {:induction false} KeptNone(es: seq<Expiry>, m: nat)
    requires m <= |es| && forall i | 0 <= i < |es| :: !es[i].Keeps()
    ensures Kept(es, m) == 0
    decreases m
  {
    if m > 0 {
      assert forall i | 0 <= i < |es[1..]| :: es[1..][i] == es[i + 1];
      KeptNone(es[1..], m - 1);
    }
  }

  /** When every insert is rejected and undone, a batch puts all its units back on sale, makes no
      reservation, and yet takes as many users off the line as if it had. */
  lemma RejectedBatchDrainsTheLine(r: Redis, db: Db, k: SaleId, es: seq<Expiry>)
    requires Expirable(db, k, es) && Num(r.available, k) >= 0
    requires forall i | 0 <= i < |es| :: es[i].insert.Rejected? && es[i].undo
    ensures var (r', db') := ExpireAll(r, db, es);
            var q := Queue(Waiting(r, k));
      && Num(r'.available, k) == Num(r.available, k) + |es|
      && Num(r'.reserved, k) == Num(r.reserved, k) - |es|
      && Queue(Waiting(r', k)) == q[Min(|es|, |q|)..]
      && forall i | 0 <= i < |es| :: es[i].id !in db'.rows
  {
    KeptNone(es, Min(|es|, |Waiting(r, k)|));
    BatchCounters(r, db, k, es);
    BatchQueue(r, db, k, es);
    forall i | 0 <= i < |es| ensures es[i].id !in ExpireAll(r, db, es).1.rows {
      BatchRow(r, db, k, es, i);
    }
  }

  lemma {:induction false} QueueMembers(w: Line, i: nat)
    requires i < |w|
    ensures Queue(w)[i] in w
    decreases |w|
  {
    var h := Head(w);
    assert (w - {h}).Keys == w.Keys - {h};
    if i > 0 { QueueMembers(w - {h}, i - 1); }
  }

  lemma {:induction false} QueueDistinct(w: Line)
    ensures forall i, j | 0 <= i < j < |w| :: Queue(w)[i] != Queue(w)[j]
    decreases |w|
  {
    if w != map[] {
      var h := Head(w);
      var rest := w - {h};
      assert rest.Keys == w.Keys - {h};
      QueueDistinct(rest);
      forall j | 0 <= j < |rest| ensures Queue(rest)[j] != h { QueueMembers(rest, j); }
    }
  }

  /** Exactly the users beyond the first min(n, length) still wait, and each has moved up by exactly
      that many places: a rejected insert costs the promoted user its place and nobody else. */
  lemma BatchMovesEveryoneUp(r: Redis, db: Db, k: SaleId, es: seq<Expiry>, u: UserId)
    requires Expirable(db, k, es) && Num(r.available, k) >= 0
    ensures var w, w' := Waiting(r, k), Waiting(ExpireAll(r, db, es).0, k);
            var m := Min(|es|, |w|);
      && (u in w' <==> u in w && Rank(w, u) >= m)
      && (u in w' ==> Rank(w', u) == Rank(w, u) - m)
  {
    BatchQueue(r, db, k, es);
    StillWaiting(Waiting(r, k), Waiting(ExpireAll(r, db, es).0, k), Min(|es|, |Waiting(r, k)|), u);
  }

  lemma StillWaiting(w: Line, w': Line, m: nat, u: UserId)
    requires m <= |w| && Queue(w') == Queue(w)[m..]
    ensures u in w' <==> u in w && Rank(w, u) >= m
    ensures u in w' ==> Rank(w', u) == Rank(w, u) - m
  {
    var q, q' := Queue(w), Queue(w');
    if u in w' {
      QueueIsRank(w', u);
      assert q[m + Rank(w', u)] == u;
      QueueMembers(w, m + Rank(w', u));
      QueueIsRank(w, u);
      QueueDistinct(w);
    }
    if u in w && Rank(w, u) >= m {
      QueueIsRank(w, u);
      assert q'[Rank(w, u) - m] == u;
      QueueMembers(w', Rank(w, u) - m);
    }
  }
}
