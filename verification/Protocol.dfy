/** The interleaved system. Every Lua script, every SQL statement outside a transaction and every
    transaction is one atomic step of some handler; a label names the handler, the step and what
    went wrong in it, so a sequence of enabled labels is one interleaving with its failures. A
    handler whose server dies either stops taking steps or takes a Crash step. */
module Protocol {
  import opened Types
  import opened RedisKeys
  import opened Postgres

  const IDEMPOTENCY_TTL := 24 * 60 * 60

  datatype Job =
    | ReserveJob(user: UserId, sale: SaleId, key: Key)
    | ConfirmJob(res: ResId, key: Key)
    | ReleaseJob(res: ResId)
    | ExpireJob(res: ResId)
  {
    predicate Terminal() { !ReserveJob? }
  }

  datatype Error =
    | RedisFailed | SoldOut | InsertFailed | TtlFailed | NotFound | NotReserved | InvalidState
    | BeginFailed | UpdateFailed | OrderFailed | AuditFailed | CommitFailed | Crashed

  datatype Reply =
    | Failure(error: Error)
    | Existing(res: ResId)      // Reserve answered from its idempotency key
    | Made(res: ResId)          // Reserve made a reservation
    | Replayed(order: OrderId)  // Confirm answered from its idempotency key
    | Ordered(order: OrderId)   // Confirm made an order
    | Freed                     // Release succeeded, or expiry with nobody to promote
    | Promoted(res: ResId)      // expiry promoted the next waiting user

  /** What a handler does next. */
  datatype Phase =
    | Recalling                               // look the idempotency key up
    | Loading                                 // SELECT the reservation
    | Scripting                               // run reserve.lua, confirm.lua or release.lua
    | Inserting(user: UserId)                 // took a unit; INSERT the reservation
    | SettingTtl(res: ResId)
    | Remembering(res: ResId)                 // store the idempotency key
    | Committing                              // confirm.lua ran; run the transaction
    | Updating                                // release.lua ran; UPDATE the row's status
    | Promoting                               // run waitlist_promote.lua
    | Undoing(error: Error)                   // compensate with release.lua
    | Ended(reply: Reply)

  /** A handler invocation. `sale` is known from the start for Reserve and once the row is loaded
      for the others. Three history flags serve the accounting only: `held`, the handler took a unit
      from `available` that it has neither put into a row nor given back; `lost`, its confirm.lua
      took a unit out of `reserved` and no order came of it; `phantom`, it gave a unit back whose
      row it had inserted without hearing of it. */
  datatype Proc = Proc(job: Job, phase: Phase, sale: Option<SaleId>, held: bool, lost: bool, phantom: bool)

  datatype System = System(redis: Redis, db: Db, procs: map<Pid, Proc>)

  /** A script call: not executed; executed, but the handler sees an error; executed and answered. */
  datatype Delivery = NotRun | Unheard | Answered

  /** How Confirm's transaction went, by the first call that returned an error. */
  datatype Tx = NoBegin | NoUpdate | NoInsert | NoAudit | NoCommit | CommitUnheard | Committed

  datatype Label =
    | Start(pid: Pid, job: Job)
    | Recall(pid: Pid, ok: bool)
    | Load(pid: Pid, ok: bool)
    | Script(pid: Pid, d: Delivery)
    | Insert(pid: Pid, id: ResId, expiresAt: int, w: Write)
    | SetTtl(pid: Pid, ok: bool)
    | Remember(pid: Pid, ok: bool, now: int)
    | Commit(pid: Pid, oid: OrderId, now: int, tx: Tx)
    | Update(pid: Pid, w: Write)
    | Promote(pid: Pid, d: Delivery)
    | Undo(pid: Pid, ran: bool)
    | Crash(pid: Pid)
    | Join(k: SaleId, user: UserId, score: int)
    | Leave(k: SaleId, user: UserId)
    | Reconcile(k: SaleId, now: int, c: Calls)

  predicate Live(s: System, pid: Pid) {
    pid in s.procs && !s.procs[pid].phase.Ended?
  }

  ghost predicate Enabled(s: System, l: Label) {
    match l
    case Start(pid, _) => pid !in s.procs
    case Recall(pid, _) => Live(s, pid) && s.procs[pid].phase.Recalling?
    case Load(pid, _) => Live(s, pid) && s.procs[pid].phase.Loading? && s.procs[pid].job.Terminal()
    case Script(pid, _) => Live(s, pid) && s.procs[pid].phase.Scripting? && s.procs[pid].sale.Some?
    case Insert(pid, _, _, _) =>
      Live(s, pid) && s.procs[pid].phase.Inserting? && s.procs[pid].sale.Some?
    case SetTtl(pid, _) => Live(s, pid) && s.procs[pid].phase.SettingTtl?
    case Remember(pid, _, _) => Live(s, pid) && s.procs[pid].phase.Remembering? && s.procs[pid].job.ReserveJob?
    case Commit(pid, _, _, _) =>
      Live(s, pid) && s.procs[pid].phase.Committing? && s.procs[pid].sale.Some? && s.procs[pid].job.ConfirmJob?
    case Update(pid, _) =>
      Live(s, pid) && s.procs[pid].phase.Updating? && (s.procs[pid].job.ReleaseJob? || s.procs[pid].job.ExpireJob?)
    case Promote(pid, _) => Live(s, pid) && s.procs[pid].phase.Promoting? && s.procs[pid].sale.Some?
    case Undo(pid, _) => Live(s, pid) && s.procs[pid].phase.Undoing? && s.procs[pid].sale.Some?
    case Crash(pid) => Live(s, pid)
    case Join(_, _, _) => true
    case Leave(_, _) => true
    case Reconcile(k, _, _) => k in s.db.sales
  }

  ghost predicate HasPid(l: Label) { !l.Join? && !l.Leave? && !l.Reconcile? }

  // ---- one function a label: what the stores become, and what the handler becomes

  /** A handler with no history. */
  function Unmarked(job: Job, phase: Phase, sale: Option<SaleId>): Proc {
    Proc(job, phase, sale, false, false, false)
  }

  function Spawn(job: Job): Proc {
    match job
    case ReserveJob(_, k, key) =>
      Unmarked(job, if key == "" then Scripting else Recalling, Some(k))
    case ConfirmJob(_, key) =>
      Unmarked(job, if key == "" then Loading else Recalling, None)
    case _ => Unmarked(job, Loading, None)
  }

  function Fail(p: Proc, e: Error): Proc {
    p.(phase := Ended(Failure(e)))
  }

  /** checkIdempotency: the key must still be there and its row must load. */
  function Remembered(r: Redis, db: Db, k: SaleId, key: Key): Option<ResId> {
    if (k, key) in r.idem && r.idem[(k, key)].0 in db.rows then Some(r.idem[(k, key)].0) else None
  }

  ghost function RecallStep(r: Redis, db: Db, p: Proc, ok: bool): Proc {
    match p.job
    case ReserveJob(_, k, key) =>
      var hit := Remembered(r, db, k, key);
      if ok && hit.Some? then p.(phase := Ended(Existing(hit.value))) else p.(phase := Scripting)
    case ConfirmJob(_, key) =>
      var hit := OrderWithKey(db, key);
      if ok && hit.Some? then p.(phase := Ended(Replayed(hit.value))) else p.(phase := Loading)
    case _ => p.(phase := Loading)
  }

  function LoadStep(db: Db, p: Proc, ok: bool): Proc
    requires p.job.Terminal()
  {
    if !ok || p.job.res !in db.rows then Fail(p, NotFound)
    else if db.rows[p.job.res].status != Reserved then Fail(p, NotReserved)
    else p.(phase := Scripting, sale := Some(db.rows[p.job.res].sale))
  }

  function RunScript(r: Redis, k: SaleId, job: Job): (Redis, int) {
    match job
    case ReserveJob(_, _, _) => ReserveLua(r, k)
    case ConfirmJob(_, _) => ConfirmLua(r, k)
    case _ => (ReleaseLua(r, k), 1)
  }

  function AfterScript(p: Proc, n: int, d: Delivery): Proc {
    match p.job
    case ReserveJob(user, _, _) =>
      if d.Unheard? then Fail(p, RedisFailed).(held := n == 1)
      else if n == -1 then Fail(p, SoldOut)
      else p.(phase := Inserting(user), held := true)
    case ConfirmJob(_, _) =>
      if d.Unheard? then Fail(p, RedisFailed).(lost := n == 1)
      else if n == -1 then Fail(p, InvalidState)
      else p.(phase := Committing)
    case _ => if d.Unheard? then Fail(p, RedisFailed) else p.(phase := Updating)
  }

  function ScriptStep(r: Redis, p: Proc, d: Delivery): (Redis, Proc)
    requires p.sale.Some?
  {
    if d.NotRun? then (r, Fail(p, RedisFailed))
    else
      var (r', n) := RunScript(r, p.sale.value, p.job);
      (r', AfterScript(p, n, d))
  }

  function InsertStep(db: Db, p: Proc, id: ResId, expiresAt: int, w: Write): (Db, Proc)
    requires p.phase.Inserting? && p.sale.Some?
  {
    var row := Row(p.phase.user, p.sale.value, Reserved, None, expiresAt, p.job.Terminal());
    var db' := InsertRow(db, id, row);
    if w.Rejected? || db'.None? then (db, p.(phase := Undoing(InsertFailed)))
    else (db'.value, p.(phase := if w.Applied? then SettingTtl(id) else Undoing(InsertFailed), held := false))
  }

  function SetTtlStep(r: Redis, p: Proc, ok: bool): (Redis, Proc)
    requires p.phase.SettingTtl?
  {
    var id := p.phase.res;
    var r' := if ok then r.(ttls := r.ttls + {id}) else r;
    (r', if p.job.Terminal() then p.(phase := Ended(Promoted(id)))
         else if !ok then Fail(p, TtlFailed)
         else if p.job.key == "" then p.(phase := Ended(Made(id)))
         else p.(phase := Remembering(id)))
  }

  function RememberStep(r: Redis, p: Proc, ok: bool, now: int): (Redis, Proc)
    requires p.phase.Remembering? && p.job.ReserveJob?
  {
    (if ok then r.(idem := r.idem[(p.job.sale, p.job.key) := (p.phase.res, now + IDEMPOTENCY_TTL)]) else r,
     p.(phase := Ended(Made(p.phase.res))))
  }

  /** Begin, UPDATE, INSERT, audit and commit, in that order; a constraint rejects the INSERT. */
  function CommitStep(db: Db, p: Proc, oid: OrderId, now: int, tx: Tx): (Db, Proc)
    requires p.sale.Some? && p.job.ConfirmJob?
  {
    var db' := ConfirmTx(db, p.job.res, p.sale.value, oid, p.job.key, now);
    if tx.NoBegin? then (db, Fail(p, BeginFailed).(lost := true))
    else if tx.NoUpdate? then (db, p.(phase := Undoing(UpdateFailed), lost := true))
    else if tx.NoInsert? || db'.None? then (db, p.(phase := Undoing(OrderFailed), lost := true))
    else if tx.NoAudit? then (db, p.(phase := Undoing(AuditFailed), lost := true))
    else if tx.NoCommit? then (db, p.(phase := Undoing(CommitFailed), lost := true))
    else if tx.CommitUnheard? then (db'.value, p.(phase := Undoing(CommitFailed)))
    else (db'.value, p.(phase := Ended(Ordered(oid))))
  }

  function UpdateStep(db: Db, p: Proc, w: Write): (Db, Proc)
    requires p.job.ReleaseJob? || p.job.ExpireJob?
  {
    var db' := SetStatus(db, p.job.res, if p.job.ReleaseJob? then Released else Expired);
    if w.Rejected? || db'.None? then (db, Fail(p, UpdateFailed))
    else (db'.value,
          if w.AppliedUnheard? then Fail(p, UpdateFailed)
          else if p.job.ReleaseJob? then p.(phase := Ended(Freed))
          else p.(phase := Promoting))
  }

  ghost function PromoteStep(r: Redis, p: Proc, d: Delivery): (Redis, Proc)
    requires p.sale.Some?
  {
    if d.NotRun? then (r, Fail(p, RedisFailed))
    else
      var (r', u) := PromoteLua(r, p.sale.value);
      (r', if d.Unheard? then Fail(p, RedisFailed).(held := u.Some?)
           else if u.None? then p.(phase := Ended(Freed))
           else p.(phase := Inserting(u.value), held := true))
  }

  function UndoStep(r: Redis, p: Proc, ran: bool): (Redis, Proc)
    requires p.sale.Some? && p.phase.Undoing?
  {
    if ran then
      (ReleaseLua(r, p.sale.value),
       Fail(p, p.phase.error).(held := false, phantom := !p.held && !p.job.ConfirmJob?))
    else (r, Fail(p, p.phase.error))
  }

  function CrashStep(p: Proc): Proc {
    Fail(p, Crashed).(lost := p.lost || p.phase.Committing?)
  }

  /** One pass of a reconciler over one sale: recompute both counters and overwrite them, as far as
      its calls succeed. */
  ghost function ReconcileRedis(r: Redis, db: Db, k: SaleId, now: int, c: Calls): Redis
    requires k in db.sales
  {
    Overwrite(r, k, Expected(db, k, now), ActiveRows(db, k, now), c).0
  }

  /** Once both counters of a sale equal the recomputation, what its handlers lost is history. */
  function Forgive(procs: map<Pid, Proc>, k: SaleId): map<Pid, Proc> {
    map p | p in procs ::
      if procs[p].sale == Some(k) then procs[p].(lost := false, phantom := false) else procs[p]
  }

  ghost function ReconcileProcs(s: System, k: SaleId, now: int, c: Calls): map<Pid, Proc>
    requires k in s.db.sales
  {
    var r := ReconcileRedis(s.redis, s.db, k, now, c);
    if Drifts(r, k, Expected(s.db, k, now), ActiveRows(s.db, k, now)) then s.procs else Forgive(s.procs, k)
  }

  /** What handler `pid` becomes. */
  ghost function Next(s: System, l: Label): Proc
    requires HasPid(l) && Enabled(s, l)
  {
    match l
    case Start(pid, job) => Spawn(job)
    case Recall(pid, ok) => RecallStep(s.redis, s.db, s.procs[pid], ok)
    case Load(pid, ok) => LoadStep(s.db, s.procs[pid], ok)
    case Script(pid, d) => ScriptStep(s.redis, s.procs[pid], d).1
    case Insert(pid, id, e, w) => InsertStep(s.db, s.procs[pid], id, e, w).1
    case SetTtl(pid, ok) => SetTtlStep(s.redis, s.procs[pid], ok).1
    case Remember(pid, ok, now) => RememberStep(s.redis, s.procs[pid], ok, now).1
    case Commit(pid, oid, now, tx) => CommitStep(s.db, s.procs[pid], oid, now, tx).1
    case Update(pid, w) => UpdateStep(s.db, s.procs[pid], w).1
    case Promote(pid, d) => PromoteStep(s.redis, s.procs[pid], d).1
    case Undo(pid, ran) => UndoStep(s.redis, s.procs[pid], ran).1
    case Crash(pid) => CrashStep(s.procs[pid])
  }

  ghost function NextRedis(s: System, l: Label): Redis
    requires Enabled(s, l)
  {
    match l
    case Script(pid, d) => ScriptStep(s.redis, s.procs[pid], d).0
    case SetTtl(pid, ok) => SetTtlStep(s.redis, s.procs[pid], ok).0
    case Remember(pid, ok, now) => RememberStep(s.redis, s.procs[pid], ok, now).0
    case Promote(pid, d) => PromoteStep(s.redis, s.procs[pid], d).0
    case Undo(pid, ran) => UndoStep(s.redis, s.procs[pid], ran).0
    case Join(k, u, score) => JoinLua(s.redis, k, u, score).0
    case Leave(k, u) => Zrem(s.redis, k, u).0
    case Reconcile(k, now, c) => ReconcileRedis(s.redis, s.db, k, now, c)
    case _ => s.redis
  }

  function NextDb(s: System, l: Label): Db
    requires Enabled(s, l)
  {
    match l
    case Insert(pid, id, e, w) => InsertStep(s.db, s.procs[pid], id, e, w).0
    case Commit(pid, oid, now, tx) => CommitStep(s.db, s.procs[pid], oid, now, tx).0
    case Update(pid, w) => UpdateStep(s.db, s.procs[pid], w).0
    case _ => s.db
  }

  ghost function NextProcs(s: System, l: Label): map<Pid, Proc>
    requires Enabled(s, l)
  {
    if HasPid(l) then s.procs[l.pid := Next(s, l)]
    else if l.Reconcile? then ReconcileProcs(s, l.k, l.now, l.c)
    else s.procs
  }

  ghost function Step(s: System, l: Label): System
    requires Enabled(s, l)
  {
    System(NextRedis(s, l), NextDb(s, l), NextProcs(s, l))
  }

  // ---- runs

  ghost predicate Runs(s: System, ls: seq<Label>)
    decreases |ls|
  {
    ls == [] || (Enabled(s, ls[0]) && Runs(Step(s, ls[0]), ls[1..]))
  }

  ghost function Run(s: System, ls: seq<Label>): System
    requires Runs(s, ls)
    decreases |ls|
  {
    if ls == [] then s else Run(Step(s, ls[0]), ls[1..])
  }

  lemma {:induction false} RunConcat(s: System, a: seq<Label>, b: seq<Label>)
    requires Runs(s, a) && Runs(Run(s, a), b)
    ensures Runs(s, a + b) && Run(s, a + b) == Run(Run(s, a), b)
    decreases |a|
  {
    if a == [] {
      assert a + b == b;
    } else {
      RunConcat(Step(s, a[0]), a[1..], b);
      assert (a + b)[1..] == a[1..] + b;
    }
  }

  /** A run without reconciles. */
  ghost predicate Quiet(ls: seq<Label>) {
    forall i | 0 <= i < |ls| :: !ls[i].Reconcile?
  }

  ghost predicate Reachable(s: System, t: System) {
    exists ls :: Runs(s, ls) && Run(s, ls) == t
  }

  lemma ReachStep(s: System, l: Label)
    requires Enabled(s, l)
    ensures Reachable(s, Step(s, l))
  {
    var ls := [l];
    assert ls[1..] == [];
    assert Runs(Step(s, l), ls[1..]) && Run(s, ls) == Step(s, l);
  }

  lemma ReachTrans(s: System, t: System, u: System)
    requires Reachable(s, t) && Reachable(t, u)
    ensures Reachable(s, u)
  {
    var a :| Runs(s, a) && Run(s, a) == t;
    var b :| Runs(t, b) && Run(t, b) == u;
    RunConcat(s, a, b);
  }

  /** CreateSale has provisioned every sale and nothing else has happened. */
  ghost predicate Init(s: System) {
    && s.procs == map[] && s.db.rows == map[] && s.db.orders == map[]
    && forall k | k in s.db.sales ::
         && s.db.sales[k].total >= 0
         && k in s.redis.available && s.redis.available[k] == s.db.sales[k].total
         && k in s.redis.reserved && s.redis.reserved[k] == 0
  }
}
