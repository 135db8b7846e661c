/** Serial, failure-free use of the reservation handlers: retrying a Reserve whose key is still
    remembered changes nothing. */
module Retries {
  import opened Types
  import opened RedisKeys
  import opened Postgres
  import opened Protocol
  import opened Integrity
  import opened Handlers

  /** A request, when it is served, and the fresh ids it may use. */
  datatype Call = Call(job: Job, now: int, id: ResId, oid: OrderId, expiresAt: int)

  datatype Stores = Stores(redis: Redis, db: Db)

  /** Nothing fails; an idempotency key is found while it lives. */
  function Healthy(r: Redis, c: Call): Oracle {
    var alive := c.job.ReserveJob? ==>
      (c.job.sale, c.job.key) in r.idem && c.now < r.idem[(c.job.sale, c.job.key)].1;
    Oracle(alive, true, Answered, Applied, c.id, c.now, c.expiresAt, true, true, Committed, c.oid,
           Applied, Answered, true)
  }

  ghost function Serve(st: Stores, c: Call): Alone {
    Solo(Alone(st.redis, st.db, Spawn(c.job)), Healthy(st.redis, c))
  }

  ghost function After(st: Stores, c: Call): Stores {
    Stores(Serve(st, c).redis, Serve(st, c).db)
  }

  ghost function ServeAll(st: Stores, cs: seq<Call>): Stores
    decreases |cs|
  {
    if cs == [] then st else ServeAll(After(st, cs[0]), cs[1..])
  }

  /** What clients have been told: the reservation made for each (sale, key), and until when a
      repetition is promised the same answer. */
  type Told = map<(SaleId, Key), (ResId, int)>

  function Tell(told: Told, c: Call, answer: Phase): Told {
    if c.job.ReserveJob? && c.job.key != "" && answer.Ended? && answer.reply.Made?
    then told[(c.job.sale, c.job.key) := (answer.reply.res, c.now + IDEMPOTENCY_TTL)]
    else told
  }

  predicate IsRetry(told: Told, c: Call) {
    && c.job.ReserveJob? && c.job.key != ""
    && (c.job.sale, c.job.key) in told && c.now < told[(c.job.sale, c.job.key)].1
  }

  /** The calls that remain when every retry is deleted. */
  ghost function Erase(st: Stores, told: Told, cs: seq<Call>): seq<Call>
    decreases |cs|
  {
    if cs == [] then []
    else if IsRetry(told, cs[0]) then Erase(After(st, cs[0]), told, cs[1..])
    else [cs[0]] + Erase(After(st, cs[0]), Tell(told, cs[0], Serve(st, cs[0]).p.phase), cs[1..])
  }

  /** Redis remembers what clients were told, and the rows are there. */
  ghost predicate Remembers(st: Stores, told: Told) {
    forall x | x in told :: x in st.redis.idem && st.redis.idem[x] == told[x] && told[x].0 in st.db.rows
  }

  /** A retry is answered with the reservation its client was told of, and writes nothing. */
  lemma RetryIsFree(st: Stores, told: Told, c: Call)
    requires Remembers(st, told) && IsRetry(told, c)
    ensures After(st, c) == st
    ensures Serve(st, c).p.phase == Ended(Existing(told[(c.job.sale, c.job.key)].0))
  {
    var o := Healthy(st.redis, c);
    var a := Alone(st.redis, st.db, Spawn(c.job));
    assert Solo(a, o) == Advance(a, o);
  }

  /** A handler in progress: the store agrees with what has been told once its answer is counted. */
  ghost predicate InStep(a: Alone, told: Told, c: Call) {
    && a.p.job == c.job
    && Remembers(Stores(a.redis, a.db), Tell(told, c, a.p.phase))
    && (a.p.phase.SettingTtl? || a.p.phase.Remembering? ==> a.p.phase.res in a.db.rows)
    && (a.p.phase.Remembering? ==> c.job.ReserveJob? && c.job.key != "")
  }

  /** Only the last step of a keyed Reserve writes an idempotency key. */
  lemma AdvanceWrites(a: Alone, o: Oracle)
    requires PhaseOk(a.p) && !a.p.phase.Ended? && !a.p.phase.Remembering?
    ensures var b := Advance(a, o);
      && b.p.job == a.p.job && b.redis.idem == a.redis.idem
      && (b.p.phase.Ended? && b.p.phase.reply.Made? && a.p.job.ReserveJob? ==> a.p.job.key == "")
  {
    if Midway(a.p.phase) { MidwayForward(a, o); }
  }

  /** No row is ever deleted. */
  lemma AdvanceRows(a: Alone, o: Oracle)
    requires PhaseOk(a.p) && !a.p.phase.Ended?
    requires a.p.phase.SettingTtl? || a.p.phase.Remembering? ==> a.p.phase.res in a.db.rows
    ensures var b := Advance(a, o);
      && (forall id | id in a.db.rows :: id in b.db.rows)
      && (b.p.phase.SettingTtl? || b.p.phase.Remembering? ==> b.p.phase.res in b.db.rows)
      && (b.p.phase.Remembering? ==> b.p.job.ReserveJob? && b.p.job.key != "")
  {
    if Midway(a.p.phase) { MidwayForward(a, o); }
  }

  lemma AdvanceInStep(a: Alone, told: Told, c: Call, o: Oracle)
    requires InStep(a, told, c) && PhaseOk(a.p) && !a.p.phase.Ended?
    requires o.remember && o.now == c.now
    ensures InStep(Advance(a, o), told, c)
  {
    AdvanceRows(a, o);
    if !a.p.phase.Remembering? { AdvanceWrites(a, o); }
  }

  lemma {:induction false} SoloInStep(a: Alone, told: Told, c: Call, o: Oracle)
    requires InStep(a, told, c) && o.remember && o.now == c.now
    ensures InStep(Solo(a, o), told, c)
    decreases StepsLeft(a.p.phase)
  {
    if !a.p.phase.Ended? && PhaseOk(a.p) {
      AdvanceShortens(a, o);
      AdvanceInStep(a, told, c, o);
      SoloInStep(Advance(a, o), told, c, o);
    }
  }

  /** Every call leaves Redis remembering what clients have been told by then. */
  lemma ServingRemembers(st: Stores, told: Told, c: Call)
    requires Remembers(st, told)
    ensures Remembers(After(st, c), Tell(told, c, Serve(st, c).p.phase))
  {
    var a := Alone(st.redis, st.db, Spawn(c.job));
    SoloInStep(a, told, c, Healthy(st.redis, c));
  }

  ghost predicate RetriesAnswered(st: Stores, told: Told, cs: seq<Call>)
    decreases |cs|
  {
    cs == [] ||
    var answer := Serve(st, cs[0]).p.phase;
    && (IsRetry(told, cs[0]) ==> answer == Ended(Existing(told[(cs[0].job.sale, cs[0].job.key)].0)))
    && RetriesAnswered(After(st, cs[0]), Tell(told, cs[0], answer), cs[1..])
  }

  /** Deleting every retry from a serial run leaves the counters and the tables as they were, and
      every deleted call had been answered with the original reservation. */
  lemma {:induction false} RetryErasure(st: Stores, told: Told, cs: seq<Call>)
    requires Remembers(st, told)
    ensures ServeAll(st, Erase(st, told, cs)) == ServeAll(st, cs)
    ensures RetriesAnswered(st, told, cs)
    decreases |cs|
  {
    if cs != [] {
      var c := cs[0];
      var rest := cs[1..];
      if IsRetry(told, c) {
        RetryIsFree(st, told, c);
        assert Tell(told, c, Serve(st, c).p.phase) == told;
        RetryErasure(st, told, rest);
      } else {
        var t := Tell(told, c, Serve(st, c).p.phase);
        ServingRemembers(st, told, c);
        RetryErasure(After(st, c), t, rest);
        var kept := Erase(After(st, c), t, rest);
        assert ([c] + kept)[0] == c && ([c] + kept)[1..] == kept;
      }
    }
  }

  lemma {:induction false} KeptWhileAlive(st: Stores, x: (SaleId, Key), y: (ResId, int), cs: seq<Call>)
    requires Remembers(st, map[x := y]) && forall i | 0 <= i < |cs| :: cs[i].now < y.1
    ensures Remembers(ServeAll(st, cs), map[x := y])
    decreases |cs|
  {
    if cs != [] {
      var c, told := cs[0], map[x := y];
      if IsRetry(told, c) { RetryIsFree(st, told, c); } else { ServingRemembers(st, told, c); }
      KeptWhileAlive(After(st, c), x, y, cs[1..]);
    }
  }

  /** Once a keyed Reserve has made a reservation, a Reserve with that sale and key less than 24 hours
      later is answered with it and writes nothing, whatever has been served in between. */
  lemma AnsweredForADay(st: Stores, first: Call, cs: seq<Call>, again: Call)
    requires first.job.ReserveJob? && first.job.key != ""
    requires Serve(st, first).p.phase == Ended(Made(first.id))
    requires again.job.ReserveJob? && again.job.sale == first.job.sale && again.job.key == first.job.key
    requires again.now < first.now + 86400 && forall i | 0 <= i < |cs| :: cs[i].now < first.now + 86400
    ensures var t := ServeAll(After(st, first), cs);
      After(t, again) == t && Serve(t, again).p.phase == Ended(Existing(first.id))
  {
    var x, y := (first.job.sale, first.job.key), (first.id, first.now + 86400);
    ServingRemembers(st, map[], first);
    assert Tell(map[], first, Ended(Made(first.id))) == map[x := y];
    KeptWhileAlive(After(st, first), x, y, cs);
    RetryIsFree(ServeAll(After(st, first), cs), map[x := y], again);
  }

  /** From the start nobody has been told anything, so the theorem holds of every serial run. */
  lemma SerialRetries(st: Stores, cs: seq<Call>)
    ensures ServeAll(st, Erase(st, map[], cs)) == ServeAll(st, cs) && RetriesAnswered(st, map[], cs)
  {
    RetryErasure(st, map[], cs);
  }
}
