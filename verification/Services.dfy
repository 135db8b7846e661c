/** The reservation service, the expiry handler and the waitlist service. Each handler is proved to
    do to both stores, and to answer, what it does alone in the interleaved system. */
module Services {
  import opened Types
  import opened SortedSet
  import opened RedisKeys
  import opened Postgres
  import opened Protocol
  import opened Handlers
  import opened Outcomes
  import opened Stores

  class ReservationService {
    const redis: RedisClient
    const db: Database
    const reservationTTL: int

    constructor (redis: RedisClient, db: Database, reservationTTL: int)
      ensures this.redis == redis && this.db == db && this.reservationTTL == reservationTTL
    {
      this.redis, this.db, this.reservationTTL := redis, db, reservationTTL;
    }

    ghost function Start(job: Job): Alone
      reads redis, db
    {
      Alone(redis.Value(), db.Value(), Spawn(job))
    }

    function Timed(o: Oracle): Oracle {
      o.(expiresAt := o.now + reservationTTL)
    }

    method CheckIdempotency(k: SaleId, key: Key, ok: bool) returns (res: Option<ResId>)
      ensures res == if ok && (k, key) in redis.idem && redis.idem[(k, key)].0 in db.rows
                     then Some(redis.idem[(k, key)].0) else None
      ensures res == if ok then Remembered(redis.Value(), db.Value(), k, key) else None
    {
      if !ok || (k, key) !in redis.idem { return None; }
      var id := redis.idem[(k, key)].0;
      if id !in db.rows { return None; }
      return Some(id);
    }

    method SetIdempotency(k: SaleId, key: Key, id: ResId, now: int, ok: bool)
      modifies redis`idem
      ensures redis.Value() == old(redis.Value()).(idem :=
        if ok then old(redis.idem)[(k, key) := (id, now + 86400)] else old(redis.idem))
    {
      if ok { redis.idem := redis.idem[(k, key) := (id, now + IDEMPOTENCY_TTL)]; }
    }

    /** The stores and the answer are those of the handler alone. A reservation made, acknowledged or
        not, is for this user and sale, and due reservationTTL after now. */
    method Reserve(user: UserId, k: SaleId, key: Key, o: Oracle) returns (reply: Reply)
      modifies redis, db
      ensures var a := Solo(old(Start(ReserveJob(user, k, key))), Timed(o));
        redis.Value() == a.redis && db.Value() == a.db && Ended(reply) == a.p.phase
      ensures reply == Made(o.id) ==> o.id in db.rows && o.id !in old(db.rows)
      ensures forall id | id in db.rows && id !in old(db.rows) ::
                id == o.id && db.rows[id] == Row(user, k, Reserved, None, o.now + reservationTTL, false)
    {
      ghost var a := Start(ReserveJob(user, k, key));
      ghost var end := Solo(a, Timed(o));
      if key != "" {
        var existing := CheckIdempotency(k, key, o.recall);
        a := Advance(a, Timed(o));
        if existing.Some? { return Existing(existing.value); }
      }
      assert end == Solo(a, Timed(o)) && a.p.phase.Scripting? && a.p == Spawn(a.p.job).(phase := Scripting);
      reply := ReserveUnit(user, k, key, o, a);
      ReserveFromScript(a.redis, a.db, user, k, key, Timed(o));
    }

    method ReserveUnit(user: UserId, k: SaleId, key: Key, o: Oracle, ghost a0: Alone) returns (reply: Reply)
      requires a0 == Alone(redis.Value(), db.Value(),
                           Unmarked(ReserveJob(user, k, key), Scripting, Some(k)))
      modifies redis, db
      ensures var a := Solo(a0, Timed(o));
        redis.Value() == a.redis && db.Value() == a.db && Ended(reply) == a.p.phase
    {
      ghost var a := Advance(a0, Timed(o));
      var result, err := redis.Reserve(k, o.script);
      if err { return Failure(RedisFailed); }
      if result == -1 { return Failure(SoldOut); }
      assert Solo(a0, Timed(o)) == Solo(a, Timed(o));

      var row := Row(user, k, Reserved, None, o.now + reservationTTL, false);
      a := Advance(a, Timed(o));
      err := db.InsertReservation(o.id, row, o.insert);
      assert Solo(a0, Timed(o)) == Solo(a, Timed(o));
      if err {
        a := Advance(a, Timed(o));
        assert Solo(a0, Timed(o)) == Solo(a, Timed(o));
        var _ := redis.Release(k, if o.undo then Answered else NotRun);
        return Failure(InsertFailed);
      }

      reply := TrackReservation(user, k, key, o, a);
    }

    /** The row is in; arm its expiry and remember the idempotency key. */
    method TrackReservation(user: UserId, k: SaleId, key: Key, o: Oracle, ghost a0: Alone) returns (reply: Reply)
      requires a0 == Alone(redis.Value(), db.Value(),
                           Unmarked(ReserveJob(user, k, key), SettingTtl(o.id), Some(k)))
      modifies redis
      ensures var a := Solo(a0, Timed(o));
        redis.Value() == a.redis && db.Value() == a.db && Ended(reply) == a.p.phase
    {
      ghost var a := Advance(a0, Timed(o));
      assert Solo(a0, Timed(o)) == Solo(a, Timed(o));
      if !o.ttl { return Failure(TtlFailed); }
      redis.ttls := redis.ttls + {o.id};
      if key != "" {
        a := Advance(a, Timed(o));
        assert Solo(a0, Timed(o)) == Solo(a, Timed(o));
        SetIdempotency(k, key, o.id, o.now, o.remember);
      }
      return Made(o.id);
    }

    method GetOrderByIdempotencyKey(key: Key, ok: bool) returns (order: Option<OrderId>)
      requires KeysUnique(db.Value())
      ensures order == if ok then OrderWithKey(db.Value(), key) else None
    {
      if !ok { return None; }
      order := db.OrderByKey(key);
    }

    method Confirm(id: ResId, key: Key, o: Oracle) returns (reply: Reply)
      requires KeysUnique(db.Value())
      modifies redis, db
      ensures var a := Solo(old(Start(ConfirmJob(id, key))), Timed(o));
        redis.Value() == a.redis && db.Value() == a.db && Ended(reply) == a.p.phase
    {
      ghost var a := Start(ConfirmJob(id, key));
      ghost var end := Solo(a, Timed(o));
      if key != "" {
        var existing := GetOrderByIdempotencyKey(key, o.recall);
        a := Advance(a, Timed(o));
        if existing.Some? { return Replayed(existing.value); }
      }
      assert end == Solo(a, Timed(o));
      a := Advance(a, Timed(o));
      assert end == Solo(a, Timed(o));
      if !o.load || id !in db.rows { return Failure(NotFound); }
      if db.rows[id].status != Reserved { return Failure(NotReserved); }
      reply := ConfirmUnit(id, db.rows[id].sale, key, o, a);
    }

    method ConfirmUnit(id: ResId, k: SaleId, key: Key, o: Oracle, ghost a0: Alone) returns (reply: Reply)
      requires a0 == Alone(redis.Value(), db.Value(),
                           Unmarked(ConfirmJob(id, key), Scripting, Some(k)))
      modifies redis, db
      ensures var a := Solo(a0, Timed(o));
        redis.Value() == a.redis && db.Value() == a.db && Ended(reply) == a.p.phase
    {
      ghost var a := Advance(a0, Timed(o));
      var result, err := redis.Confirm(k, o.script);
      if err { return Failure(RedisFailed); }
      if result == -1 { return Failure(InvalidState); }
      assert Solo(a0, Timed(o)) == Solo(a, Timed(o));
      reply := ConfirmInTx(id, k, key, o, a);
    }

    /** From Begin to Commit; every failure after Begin compensates with release.lua. */
    method ConfirmInTx(id: ResId, k: SaleId, key: Key, o: Oracle, ghost a0: Alone) returns (reply: Reply)
      requires a0 == Alone(redis.Value(), db.Value(),
                           Unmarked(ConfirmJob(id, key), Committing, Some(k)))
      modifies redis, db
      ensures var a := Solo(a0, Timed(o));
        redis.Value() == a.redis && db.Value() == a.db && Ended(reply) == a.p.phase
    {
      ghost var a := Advance(a0, Timed(o));
      if o.tx.NoBegin? { return Failure(BeginFailed); }
      var scratch := Db(db.sales, db.rows, db.orders);
      var failed: Option<Error> := None;
      if o.tx.NoUpdate? {
        failed := Some(UpdateFailed);
      } else if id !in scratch.rows {
        failed := Some(OrderFailed);
      } else {
        var order := Order(id, scratch.rows[id].user, k, OrderPending, key);
        var inserted := InsertOrder(MarkConfirmed(scratch, id, o.now), o.oid, order);
        if o.tx.NoInsert? || inserted.None? {
          failed := Some(OrderFailed);
        } else if o.tx.NoAudit? {
          failed := Some(AuditFailed);
        } else if o.tx.NoCommit? {
          failed := Some(CommitFailed);
        } else {
          db.Commit(inserted.value);
          if o.tx.CommitUnheard? { failed := Some(CommitFailed); }
        }
      }
      assert Solo(a0, Timed(o)) == Solo(a, Timed(o));
      if failed.Some? {
        a := Advance(a, Timed(o));
        assert Solo(a0, Timed(o)) == Solo(a, Timed(o));
        var _ := redis.Release(k, if o.undo then Answered else NotRun);
        return Failure(failed.value);
      }
      return Ordered(o.oid);
    }

    method Release(id: ResId, o: Oracle) returns (reply: Reply)
      modifies redis, db
      ensures var a := Solo(old(Start(ReleaseJob(id))), Timed(o));
        redis.Value() == a.redis && db.Value() == a.db && Ended(reply) == a.p.phase
    {
      ghost var a := Start(ReleaseJob(id));
      ghost var end := Solo(a, Timed(o));
      a := Advance(a, Timed(o));
      assert end == Solo(a, Timed(o));
      if !o.load || id !in db.rows { return Failure(NotFound); }
      if db.rows[id].status != Reserved { return Failure(NotReserved); }

      a := Advance(a, Timed(o));
      var err := redis.Release(db.rows[id].sale, o.script);
      assert end == Solo(a, Timed(o));
      if err { return Failure(RedisFailed); }

      a := Advance(a, Timed(o));
      err := db.UpdateStatus(id, Released, o.update);
      assert end == Solo(a, Timed(o));
      if err { return Failure(UpdateFailed); }
      return Freed;
    }
  }

  class ExpiryHandler {
    const redis: RedisClient
    const db: Database
    const reservationTTL: int

    constructor (redis: RedisClient, db: Database, reservationTTL: int)
      ensures this.redis == redis && this.db == db && this.reservationTTL == reservationTTL
    {
      this.redis, this.db, this.reservationTTL := redis, db, reservationTTL;
    }

    function Timed(o: Oracle): Oracle {
      o.(expiresAt := o.now + reservationTTL)
    }

    /** The stores and the answer are those of the handler alone. A promoted reservation, acknowledged
        or not, is due reservationTTL after now. */
    method HandleExpiredReservation(id: ResId, o: Oracle) returns (reply: Reply)
      modifies redis, db
      ensures var a := Solo(Alone(old(redis.Value()), old(db.Value()), Spawn(ExpireJob(id))), Timed(o));
        redis.Value() == a.redis && db.Value() == a.db && Ended(reply) == a.p.phase
      ensures reply == Promoted(o.id) ==> o.id in db.rows && o.id !in old(db.rows)
      ensures forall x | x in db.rows && x !in old(db.rows) ::
                x == o.id && db.rows[x].promoted && db.rows[x].expiresAt == o.now + reservationTTL
    {
      ghost var a := Alone(redis.Value(), db.Value(), Spawn(ExpireJob(id)));
      ghost var end := Solo(a, Timed(o));
      a := Advance(a, Timed(o));
      assert end == Solo(a, Timed(o));
      if !o.load || id !in db.rows { return Failure(NotFound); }
      if db.rows[id].status != Reserved { return Failure(NotReserved); }
      var k := db.rows[id].sale;

      a := Advance(a, Timed(o));
      var err := redis.Release(k, o.script);
      assert end == Solo(a, Timed(o));
      if err { return Failure(RedisFailed); }

      a := Advance(a, Timed(o));
      err := db.UpdateStatus(id, Expired, o.update);
      assert end == Solo(a, Timed(o));
      if err { return Failure(UpdateFailed); }
      reply := PromoteNextUser(id, k, o, a);
      PromotionDoes(a.redis, a.db, id, k, Timed(o));
    }

    method PromoteNextUser(id: ResId, k: SaleId, o: Oracle, ghost a0: Alone) returns (reply: Reply)
      requires a0 == Alone(redis.Value(), db.Value(), Unmarked(ExpireJob(id), Promoting, Some(k)))
      modifies redis, db
      ensures var a := Solo(a0, Timed(o));
        redis.Value() == a.redis && db.Value() == a.db && Ended(reply) == a.p.phase
    {
      ghost var a := Advance(a0, Timed(o));
      var user, err := redis.WaitlistPromote(k, o.promote);
      assert Solo(a0, Timed(o)) == Solo(a, Timed(o));
      if err { return Failure(RedisFailed); }
      if user.None? { return Freed; }
      reply := CreatePromoted(id, k, user.value, o, a);
    }

    /** The next user is off the line; insert its reservation or give the unit back. */
    method CreatePromoted(id: ResId, k: SaleId, user: UserId, o: Oracle, ghost a0: Alone) returns (reply: Reply)
      requires a0 == Alone(redis.Value(), db.Value(),
                           Unmarked(ExpireJob(id), Inserting(user), Some(k)).(held := true))
      modifies redis, db
      ensures var a := Solo(a0, Timed(o));
        redis.Value() == a.redis && db.Value() == a.db && Ended(reply) == a.p.phase
    {
      var row := Row(user, k, Reserved, None, o.now + reservationTTL, true);
      ghost var a := Advance(a0, Timed(o));
      var err := db.InsertReservation(o.id, row, o.insert);
      assert Solo(a0, Timed(o)) == Solo(a, Timed(o));
      if err {
        a := Advance(a, Timed(o));
        assert Solo(a0, Timed(o)) == Solo(a, Timed(o));
        var _ := redis.Release(k, if o.undo then Answered else NotRun);
        return Failure(InsertFailed);
      }
      a := Advance(a, Timed(o));
      assert Solo(a0, Timed(o)) == Solo(a, Timed(o));
      if o.ttl { redis.ttls := redis.ttls + {o.id}; }
      return Promoted(o.id);
    }
  }

  datatype WaitlistError = StockAvailable | AlreadyWaiting | NotWaiting | CallFailed

  class WaitlistService {
    const redis: RedisClient

    constructor (redis: RedisClient)
      ensures this.redis == redis
    {
      this.redis := redis;
    }

    /** The answer is the 1-based place the user then has in the line. A failed call may still have
        put the user there. */
    method Join(k: SaleId, u: UserId, timestamp: int, d: Delivery)
      returns (position: int, err: Option<WaitlistError>)
      modifies redis
      ensures redis.Value()
           == if d.NotRun? then old(redis.Value()) else JoinLua(old(redis.Value()), k, u, timestamp).0
      ensures err == (if !d.Answered? then Some(CallFailed)
                      else if Num(old(redis.available), k) > 0 then Some(StockAvailable)
                      else if u in Waiting(old(redis.Value()), k) then Some(AlreadyWaiting) else None)
      ensures err.None? ==> var w := Waiting(redis.Value(), k);
        && w == Waiting(old(redis.Value()), k)[u := timestamp]
        && position == Rank(w, u) + 1 && 1 <= position <= |w|
    {
      var rank, failed := redis.WaitlistJoin(k, u, timestamp, d);
      if failed { return 0, Some(CallFailed); }
      if rank == -1 { return 0, Some(StockAvailable); }
      if rank == -2 { return 0, Some(AlreadyWaiting); }
      RankBound(Waiting(redis.Value(), k), u);
      return rank + 1, None;
    }

    /** A ZRANK that fails is answered like a user who does not wait. */
    method GetPosition(k: SaleId, u: UserId, ranked: bool, counted: bool)
      returns (position: int, total: nat, err: Option<WaitlistError>)
      ensures err == (if !ranked || u !in Waiting(redis.Value(), k) then Some(NotWaiting)
                      else if !counted then Some(CallFailed) else None)
      ensures err.None? ==> var w := Waiting(redis.Value(), k);
        position == Rank(w, u) + 1 && total == |w| && 1 <= position <= total
    {
      var w := if k in redis.waitlist then redis.waitlist[k] else map[];
      if !ranked || u !in w { return 0, 0, Some(NotWaiting); }
      if !counted { return 0, 0, Some(CallFailed); }
      RankBound(w, u);
      return Rank(w, u) + 1, |w|, None;
    }

    /** A failed call may still have removed the user. */
    method Leave(k: SaleId, u: UserId, d: Delivery) returns (err: Option<WaitlistError>)
      modifies redis
      ensures redis.Value() == if d.NotRun? then old(redis.Value()) else Zrem(old(redis.Value()), k, u).0
      ensures err == (if !d.Answered? then Some(CallFailed)
                      else if u in Waiting(old(redis.Value()), k) then None else Some(NotWaiting))
      ensures !d.NotRun? ==> Waiting(redis.Value(), k) == Waiting(old(redis.Value()), k) - {u}
    {
      var removed, failed := redis.ZRem(k, u, d);
      if failed { return Some(CallFailed); }
      if removed == 0 { return Some(NotWaiting); }
      return None;
    }
  }
}
