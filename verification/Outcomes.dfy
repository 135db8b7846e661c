/** What the handlers answer when they run alone, and what they have then written, for every way in
    which their calls can go: read off the tables, the counters and the outcomes of the calls alone. */
module Outcomes {
  import opened Types
  import opened SortedSet
  import opened RedisKeys
  import opened Postgres
  import opened Protocol
  import opened Handlers

  /** `available` moved by da and `reserved` by dr; a missing counter counts as zero. */
  function Shift(r: Redis, k: SaleId, da: int, dr: int): Redis {
    r.(available := r.available[k := Num(r.available, k) + da],
       reserved := r.reserved[k := Num(r.reserved, k) + dr])
  }

  lemma ShiftTwice(r: Redis, k: SaleId, a: int, b: int, c: int, d: int)
    ensures Shift(Shift(r, k, a, b), k, c, d) == Shift(r, k, a + c, b + d)
  {
  }

  lemma TakeThenShift(r: Redis, k: SaleId)
    ensures Shift(r.(reserved := r.reserved[k := Num(r.reserved, k) - 1]), k, 1, -1) == Shift(r, k, 1, -2)
  {
  }

  /** The handler has given this answer and left these stores. */
  ghost predicate Ends(a: Alone, answer: Reply, r: Redis, db: Db) {
    a == Alone(r, db, a.p) && a.p.phase == Ended(answer)
  }

  /** Every compensation is release.lua, which may fail to run. */
  lemma UndoDoes(r: Redis, db: Db, p: Proc, e: Error, k: SaleId, o: Oracle)
    requires p.phase == Undoing(e) && p.sale == Some(k) && !p.job.ReleaseJob?
    ensures Ends(Solo(Alone(r, db, p), o), Failure(e), if o.undo then Shift(r, k, 1, -1) else r, db)
  {
    var a := Alone(r, db, p);
    assert Solo(a, o) == Advance(a, o);
  }

  // ---- Reserve

  lemma TrackingDoes(r: Redis, db: Db, user: UserId, k: SaleId, key: Key, o: Oracle)
    ensures var a := Solo(Alone(r, db, Unmarked(ReserveJob(user, k, key), SettingTtl(o.id), Some(k))), o);
            var told := if key != "" && o.remember then r.idem[(k, key) := (o.id, o.now + 86400)] else r.idem;
      if !o.ttl then Ends(a, Failure(TtlFailed), r, db)
      else Ends(a, Made(o.id), r.(ttls := r.ttls + {o.id}, idem := told), db)
  {
    var a2 := Alone(r, db, Unmarked(ReserveJob(user, k, key), SettingTtl(o.id), Some(k)));
    var a3 := Advance(a2, o);
    assert Solo(a2, o) == Solo(a3, o);
    if a3.p.phase.Remembering? { assert Solo(a3, o) == Advance(a3, o); }
  }

  ghost function Reserving(r: Redis, db: Db, user: UserId, k: SaleId, key: Key, o: Oracle): Alone {
    Solo(Alone(r, db, Spawn(ReserveJob(user, k, key))), o)
  }

  /** A unit is taken; from the insert on. */
  lemma ReserveFromInsert(r: Redis, db: Db, user: UserId, k: SaleId, key: Key, o: Oracle)
    ensures var p := Unmarked(ReserveJob(user, k, key), Inserting(user), Some(k)).(held := true);
            var a := Solo(Alone(r, db, p), o);
            var made := db.(rows := db.rows[o.id := Row(user, k, Reserved, None, o.expiresAt, false)]);
            var undone := if o.undo then Shift(r, k, 1, -1) else r;
            var told := if key != "" && o.remember then r.idem[(k, key) := (o.id, o.now + 86400)] else r.idem;
      if o.insert.Rejected? || o.id in db.rows then Ends(a, Failure(InsertFailed), undone, db)
      else if o.insert.AppliedUnheard? then Ends(a, Failure(InsertFailed), undone, made)
      else if !o.ttl then Ends(a, Failure(TtlFailed), r, made)
      else Ends(a, Made(o.id), r.(ttls := r.ttls + {o.id}, idem := told), made)
  {
    var a1 := Alone(r, db, Unmarked(ReserveJob(user, k, key), Inserting(user), Some(k)).(held := true));
    var a2 := Advance(a1, o);
    assert Solo(a1, o) == Solo(a2, o);
    if a2.p.phase.Undoing? { UndoDoes(r, a2.db, a2.p, InsertFailed, k, o); }
    else { TrackingDoes(r, a2.db, user, k, key, o); }
  }

  /** From the script on. */
  lemma ReserveFromScript(r: Redis, db: Db, user: UserId, k: SaleId, key: Key, o: Oracle)
    ensures var a := Solo(Alone(r, db, Unmarked(ReserveJob(user, k, key), Scripting, Some(k))), o);
            var made := db.(rows := db.rows[o.id := Row(user, k, Reserved, None, o.expiresAt, false)]);
            var took := Shift(r, k, -1, 1);
            var undone := if o.undo then Shift(r, k, 0, 0) else took;
            var told := if key != "" && o.remember then r.idem[(k, key) := (o.id, o.now + 86400)] else r.idem;
      if o.script.NotRun? then Ends(a, Failure(RedisFailed), r, db)
      else if Num(r.available, k) <= 0 then
        Ends(a, Failure(if o.script.Unheard? then RedisFailed else SoldOut), r, db)
      else if o.script.Unheard? then Ends(a, Failure(RedisFailed), took, db)
      else if o.insert.Rejected? || o.id in db.rows then Ends(a, Failure(InsertFailed), undone, db)
      else if o.insert.AppliedUnheard? then Ends(a, Failure(InsertFailed), undone, made)
      else if !o.ttl then Ends(a, Failure(TtlFailed), took, made)
      else Ends(a, Made(o.id), took.(ttls := r.ttls + {o.id}, idem := told), made)
  {
    var a0 := Alone(r, db, Unmarked(ReserveJob(user, k, key), Scripting, Some(k)));
    var a1 := Advance(a0, o);
    assert Solo(a0, o) == Solo(a1, o);
    if a1.p.phase.Inserting? {
      ReserveFromInsert(a1.redis, db, user, k, key, o);
      ShiftTwice(r, k, -1, 1, 1, -1);
    }
  }

  /** A key is remembered with a reservation that still loads: it is the answer, and nothing is
      written. Otherwise, and without a key, everything is as from the script on. */
  lemma ReserveDoes(r: Redis, db: Db, user: UserId, k: SaleId, key: Key, o: Oracle)
    ensures var a := Reserving(r, db, user, k, key, o);
      if key != "" && o.recall && (k, key) in r.idem && r.idem[(k, key)].0 in db.rows
      then Ends(a, Existing(r.idem[(k, key)].0), r, db)
      else a == Solo(Alone(r, db, Unmarked(ReserveJob(user, k, key), Scripting, Some(k))), o)
  {
    var a0 := Alone(r, db, Spawn(ReserveJob(user, k, key)));
    if key != "" {
      assert Solo(a0, o) == Solo(Advance(a0, o), o);
    }
  }

  // ---- Confirm

  ghost function Confirming(r: Redis, db: Db, id: ResId, key: Key, o: Oracle): Alone {
    Solo(Alone(r, db, Spawn(ConfirmJob(id, key))), o)
  }

  /** The unit is out of `reserved`; from the transaction on. Whatever fails after Begin is
      compensated with release.lua, a commit that is applied but not heard of included. */
  lemma ConfirmFromCommit(r: Redis, db: Db, id: ResId, k: SaleId, key: Key, o: Oracle)
    requires id in db.rows
    ensures var a := Solo(Alone(r, db, Unmarked(ConfirmJob(id, key), Committing, Some(k))), o);
            var undone := if o.undo then Shift(r, k, 1, -1) else r;
            var sold := db.(rows := db.rows[id := db.rows[id].(status := Confirmed, confirmedAt := Some(o.now))],
                            orders := db.orders[o.oid := Order(id, db.rows[id].user, k, OrderPending, key)]);
      if o.tx.NoBegin? then Ends(a, Failure(BeginFailed), r, db)
      else if o.tx.NoUpdate? then Ends(a, Failure(UpdateFailed), undone, db)
      else if o.tx.NoInsert? || o.oid in db.orders || KeyUsed(db, key)
      then Ends(a, Failure(OrderFailed), undone, db)
      else if o.tx.NoAudit? then Ends(a, Failure(AuditFailed), undone, db)
      else if o.tx.NoCommit? then Ends(a, Failure(CommitFailed), undone, db)
      else if o.tx.CommitUnheard? then Ends(a, Failure(CommitFailed), undone, sold)
      else Ends(a, Ordered(o.oid), r, sold)
  {
    var a1 := Alone(r, db, Unmarked(ConfirmJob(id, key), Committing, Some(k)));
    var a2 := Advance(a1, o);
    assert Solo(a1, o) == Solo(a2, o);
    if a2.p.phase.Undoing? { UndoDoes(r, a2.db, a2.p, a2.p.phase.error, k, o); }
  }

  /** From the script on, for a loaded row of sale k. A compensated failure leaves `available` up by
      one and `reserved` down by two; without compensation, and when Begin fails, `reserved` is down
      by one. */
  lemma ConfirmFromScript(r: Redis, db: Db, id: ResId, k: SaleId, key: Key, o: Oracle)
    requires id in db.rows
    ensures var a := Solo(Alone(r, db, Unmarked(ConfirmJob(id, key), Scripting, Some(k))), o);
            var took := r.(reserved := r.reserved[k := Num(r.reserved, k) - 1]);
            var undone := if o.undo then Shift(r, k, 1, -2) else took;
            var sold := db.(rows := db.rows[id := db.rows[id].(status := Confirmed, confirmedAt := Some(o.now))],
                            orders := db.orders[o.oid := Order(id, db.rows[id].user, k, OrderPending, key)]);
      if o.script.NotRun? then Ends(a, Failure(RedisFailed), r, db)
      else if Num(r.reserved, k) <= 0 then
        Ends(a, Failure(if o.script.Unheard? then RedisFailed else InvalidState), r, db)
      else if o.script.Unheard? then Ends(a, Failure(RedisFailed), took, db)
      else if o.tx.NoBegin? then Ends(a, Failure(BeginFailed), took, db)
      else if o.tx.NoUpdate? then Ends(a, Failure(UpdateFailed), undone, db)
      else if o.tx.NoInsert? || o.oid in db.orders || KeyUsed(db, key)
      then Ends(a, Failure(OrderFailed), undone, db)
      else if o.tx.NoAudit? then Ends(a, Failure(AuditFailed), undone, db)
      else if o.tx.NoCommit? then Ends(a, Failure(CommitFailed), undone, db)
      else if o.tx.CommitUnheard? then Ends(a, Failure(CommitFailed), undone, sold)
      else Ends(a, Ordered(o.oid), took, sold)
  {
    var a0 := Alone(r, db, Unmarked(ConfirmJob(id, key), Scripting, Some(k)));
    var a1 := Advance(a0, o);
    assert Solo(a0, o) == Solo(a1, o);
    if a1.p.phase.Committing? {
      ConfirmFromCommit(a1.redis, db, id, k, key, o);
      TakeThenShift(r, k);
    }
  }

  /** Confirm: answered from its key; refused because the row does not load, or because it is not
      reserved; or as from the script on. Nothing is written before the script. */
  lemma ConfirmDoes(r: Redis, db: Db, id: ResId, key: Key, o: Oracle)
    ensures var a := Confirming(r, db, id, key, o);
      if key != "" && o.recall && KeyUsed(db, key) then
        var order := OrderWithKey(db, key).value;
        order in db.orders && db.orders[order].key == key && Ends(a, Replayed(order), r, db)
      else if !o.load || id !in db.rows then Ends(a, Failure(NotFound), r, db)
      else if db.rows[id].status != Reserved then Ends(a, Failure(NotReserved), r, db)
      else a == Solo(Alone(r, db, Unmarked(ConfirmJob(id, key), Scripting, Some(db.rows[id].sale))), o)
  {
    var a0 := Alone(r, db, Spawn(ConfirmJob(id, key)));
    var a1 := if key != "" then Advance(a0, o) else a0;
    assert Solo(a0, o) == Solo(a1, o);
    if a1.p.phase.Loading? {
      var a2 := Advance(a1, o);
      assert Solo(a1, o) == Solo(a2, o);
    }
  }

  // ---- Release

  lemma ReleaseDoes(r: Redis, db: Db, id: ResId, o: Oracle)
    requires id in db.rows ==> ValidConfirmation(db.rows[id])
    ensures var a := Solo(Alone(r, db, Spawn(ReleaseJob(id))), o);
      if !o.load || id !in db.rows then Ends(a, Failure(NotFound), r, db)
      else if db.rows[id].status != Reserved then Ends(a, Failure(NotReserved), r, db)
      else
        var freed := Shift(r, db.rows[id].sale, 1, -1);
        var released := db.(rows := db.rows[id := db.rows[id].(status := Released)]);
        if o.script.NotRun? then Ends(a, Failure(RedisFailed), r, db)
        else if o.script.Unheard? then Ends(a, Failure(RedisFailed), freed, db)
        else if o.update.Rejected? then Ends(a, Failure(UpdateFailed), freed, db)
        else if o.update.AppliedUnheard? then Ends(a, Failure(UpdateFailed), freed, released)
        else Ends(a, Freed, freed, released)
  {
    var a0 := Alone(r, db, Spawn(ReleaseJob(id)));
    var a1 := Advance(a0, o);
    assert Solo(a0, o) == Solo(a1, o);
    if a1.p.phase.Scripting? {
      var a2 := Advance(a1, o);
      assert Solo(a1, o) == Solo(a2, o);
      if a2.p.phase.Updating? { assert Solo(a2, o) == Advance(a2, o); }
    }
  }

  // ---- expiry and promotion

  /** A unit and the head of the line are taken; from the insert on. The reservation's TTL key is
      armed when the insert is acknowledged and the SET goes through, which decides nothing else. */
  lemma PromotionFromInsert(r: Redis, db: Db, id: ResId, k: SaleId, u: UserId, o: Oracle)
    ensures var p := Unmarked(ExpireJob(id), Inserting(u), Some(k)).(held := true);
            var a := Solo(Alone(r, db, p), o);
            var made := db.(rows := db.rows[o.id := Row(u, k, Reserved, None, o.expiresAt, true)]);
            var undone := if o.undo then Shift(r, k, 1, -1) else r;
      if o.insert.Rejected? || o.id in db.rows then Ends(a, Failure(InsertFailed), undone, db)
      else if o.insert.AppliedUnheard? then Ends(a, Failure(InsertFailed), undone, made)
      else Ends(a, Promoted(o.id), r.(ttls := r.ttls + if o.ttl then {o.id} else {}), made)
  {
    var a1 := Alone(r, db, Unmarked(ExpireJob(id), Inserting(u), Some(k)).(held := true));
    var a2 := Advance(a1, o);
    assert Solo(a1, o) == Solo(a2, o);
    if a2.p.phase.Undoing? { UndoDoes(r, a2.db, a2.p, InsertFailed, k, o); }
    else { assert Solo(a2, o) == Advance(a2, o); }
  }

  /** Whom a promotion takes: the waiting user with the least (second, id). */
  lemma HeadIsLeast(w: Line, v: UserId)
    requires v in w
    ensures var u := Head(w); u in w && (v == u || w[u] < w[v] || (w[u] == w[v] && u < v))
  {
    assert v != Head(w) ==> Before(w, Head(w), v);
  }

  /** A row is expired and its unit free; from the promotion on. */
  lemma PromotionDoes(r: Redis, db: Db, id: ResId, k: SaleId, o: Oracle)
    ensures var a := Solo(Alone(r, db, Unmarked(ExpireJob(id), Promoting, Some(k))), o);
            var w := Waiting(r, k);
      if o.promote.NotRun? then Ends(a, Failure(RedisFailed), r, db)
      else if Num(r.available, k) <= 0 || w == map[] then
        Ends(a, if o.promote.Unheard? then Failure(RedisFailed) else Freed, r, db)
      else
        var popped := Shift(r, k, -1, 1).(waitlist := r.waitlist[k := w - {Head(w)}]);
        var undone := if o.undo then Shift(popped, k, 1, -1) else popped;
        var made := db.(rows := db.rows[o.id := Row(Head(w), k, Reserved, None, o.expiresAt, true)]);
        if o.promote.Unheard? then Ends(a, Failure(RedisFailed), popped, db)
        else if o.insert.Rejected? || o.id in db.rows then Ends(a, Failure(InsertFailed), undone, db)
        else if o.insert.AppliedUnheard? then Ends(a, Failure(InsertFailed), undone, made)
        else Ends(a, Promoted(o.id), popped.(ttls := r.ttls + if o.ttl then {o.id} else {}), made)
  {
    var a1 := Alone(r, db, Unmarked(ExpireJob(id), Promoting, Some(k)));
    var a2 := Advance(a1, o);
    assert Solo(a1, o) == Solo(a2, o);
    if a2.p.phase.Inserting? { PromotionFromInsert(a2.redis, db, id, k, Head(Waiting(r, k)), o); }
  }

  /** Expiry: refused like Release; or the row is marked, its unit freed and the promotion made. */
  lemma ExpiryDoes(r: Redis, db: Db, id: ResId, o: Oracle)
    requires id in db.rows ==> ValidConfirmation(db.rows[id])
    ensures var a := Solo(Alone(r, db, Spawn(ExpireJob(id))), o);
      if !o.load || id !in db.rows then Ends(a, Failure(NotFound), r, db)
      else if db.rows[id].status != Reserved then Ends(a, Failure(NotReserved), r, db)
      else
        var k := db.rows[id].sale;
        var freed := Shift(r, k, 1, -1);
        var expired := db.(rows := db.rows[id := db.rows[id].(status := Expired)]);
        if o.script.NotRun? then Ends(a, Failure(RedisFailed), r, db)
        else if o.script.Unheard? then Ends(a, Failure(RedisFailed), freed, db)
        else if o.update.Rejected? then Ends(a, Failure(UpdateFailed), freed, db)
        else if o.update.AppliedUnheard? then Ends(a, Failure(UpdateFailed), freed, expired)
        else a == Solo(Alone(freed, expired, Unmarked(ExpireJob(id), Promoting, Some(k))), o)
  {
    var a0 := Alone(r, db, Spawn(ExpireJob(id)));
    var a1 := Advance(a0, o);
    assert Solo(a0, o) == Solo(a1, o);
    if a1.p.phase.Scripting? {
      var a2 := Advance(a1, o);
      assert Solo(a1, o) == Solo(a2, o);
      if a2.p.phase.Updating? { assert Solo(a2, o) == Solo(Advance(a2, o), o); }
    }
  }
}
