/** One handler running alone from start to end. `Solo` is what the services' methods are proved
    against, and every solo execution is a run of the interleaved system. */
module Handlers {
  import opened Types
  import opened RedisKeys
  import opened Postgres
  import opened Protocol
  import opened Integrity

  /** How each call a handler may make goes, and the fresh ids and times it uses. */
  datatype Oracle = Oracle(
    recall: bool, load: bool, script: Delivery,
    insert: Write, id: ResId, now: int, expiresAt: int, ttl: bool, remember: bool,
    tx: Tx, oid: OrderId, update: Write, promote: Delivery, undo: bool)

  datatype Alone = Alone(redis: Redis, db: Db, p: Proc)

  function StepsLeft(f: Phase): nat {
    match f
    case Recalling => 9
    case Loading => 8
    case Scripting => 7
    case Committing => 6
    case Updating => 6
    case Promoting => 5
    case Inserting(_) => 4
    case SettingTtl(_) => 3
    case Remembering(_) => 2
    case Undoing(_) => 1
    case Ended(_) => 0
  }

  /** The handler's next step, as the oracle says it goes. */
  ghost function Advance(a: Alone, o: Oracle): Alone
    requires PhaseOk(a.p) && !a.p.phase.Ended?
  {
    var Alone(r, db, p) := a;
    match p.phase
    case Recalling => Alone(r, db, RecallStep(r, db, p, o.recall))
    case Loading => Alone(r, db, LoadStep(db, p, o.load))
    case Scripting => var n := ScriptStep(r, p, o.script); Alone(n.0, db, n.1)
    case Inserting(_) => var n := InsertStep(db, p, o.id, o.expiresAt, o.insert); Alone(r, n.0, n.1)
    case SettingTtl(_) => var n := SetTtlStep(r, p, o.ttl); Alone(n.0, db, n.1)
    case Remembering(_) => var n := RememberStep(r, p, o.remember, o.now); Alone(n.0, db, n.1)
    case Committing => var n := CommitStep(db, p, o.oid, o.now, o.tx); Alone(r, n.0, n.1)
    case Updating => var n := UpdateStep(db, p, o.update); Alone(r, n.0, n.1)
    case Promoting => var n := PromoteStep(r, p, o.promote); Alone(n.0, db, n.1)
    case Undoing(_) => var n := UndoStep(r, p, o.undo); Alone(n.0, db, n.1)
  }

  predicate Midway(f: Phase) { f.Scripting? || f.Committing? || f.Updating? || f.Promoting? }

  /** From p to q no reservation has been made, and the end is nearer. */
  predicate Forward(p: Proc, q: Proc) {
    && q.job == p.job && StepsLeft(q.phase) < StepsLeft(p.phase)
    && !q.phase.SettingTtl? && !q.phase.Remembering? && !(q.phase.Ended? && q.phase.reply.Made?)
  }

  lemma ScriptForward(r: Redis, p: Proc, d: Delivery)
    requires p.phase.Scripting? && p.sale.Some?
    ensures var n := ScriptStep(r, p, d); Forward(p, n.1) && n.0.idem == r.idem
  {
  }

  lemma CommitForward(db: Db, p: Proc, oid: OrderId, now: int, tx: Tx)
    requires p.phase.Committing? && p.job.ConfirmJob? && p.sale.Some?
    ensures var n := CommitStep(db, p, oid, now, tx); Forward(p, n.1) && db.rows.Keys <= n.0.rows.Keys
  {
  }

  lemma UpdateForward(db: Db, p: Proc, w: Write)
    requires p.phase.Updating? && (p.job.ReleaseJob? || p.job.ExpireJob?)
    ensures var n := UpdateStep(db, p, w); Forward(p, n.1) && db.rows.Keys <= n.0.rows.Keys
  {
  }

  lemma PromoteForward(r: Redis, p: Proc, d: Delivery)
    requires p.phase.Promoting? && p.sale.Some?
    ensures var n := PromoteStep(r, p, d); Forward(p, n.1) && n.0.idem == r.idem
  {
  }

  lemma MidwayForward(a: Alone, o: Oracle)
    requires PhaseOk(a.p) && Midway(a.p.phase)
    ensures var b := Advance(a, o);
      Forward(a.p, b.p) && b.redis.idem == a.redis.idem && a.db.rows.Keys <= b.db.rows.Keys
  {
    match a.p.phase
    case Scripting => ScriptForward(a.redis, a.p, o.script);
    case Committing => CommitForward(a.db, a.p, o.oid, o.now, o.tx);
    case Updating => UpdateForward(a.db, a.p, o.update);
    case Promoting => PromoteForward(a.redis, a.p, o.promote);
    case _ =>
  }

  lemma AdvanceShortens(a: Alone, o: Oracle)
    requires PhaseOk(a.p) && !a.p.phase.Ended?
    ensures StepsLeft(Advance(a, o).p.phase) < StepsLeft(a.p.phase)
  {
    if Midway(a.p.phase) { MidwayForward(a, o); }
  }

  /** Run to the end. */
  ghost function Solo(a: Alone, o: Oracle): Alone
    decreases StepsLeft(a.p.phase)
  {
    if a.p.phase.Ended? || !PhaseOk(a.p) then a
    else
      AdvanceShortens(a, o);
      Solo(Advance(a, o), o)
  }

  ghost function LabelOf(pid: Pid, p: Proc, o: Oracle): Label {
    match p.phase
    case Recalling => Recall(pid, o.recall)
    case Loading => Load(pid, o.load)
    case Scripting => Script(pid, o.script)
    case Inserting(_) => Insert(pid, o.id, o.expiresAt, o.insert)
    case SettingTtl(_) => SetTtl(pid, o.ttl)
    case Remembering(_) => Remember(pid, o.remember, o.now)
    case Committing => Commit(pid, o.oid, o.now, o.tx)
    case Updating => Update(pid, o.update)
    case Promoting => Promote(pid, o.promote)
    case Undoing(_) => Undo(pid, o.undo)
    case Ended(_) => Crash(pid)
  }

  ghost function Within(s: System, pid: Pid, a: Alone): System {
    System(a.redis, a.db, s.procs[pid := a.p])
  }

  lemma WithinTwice(s: System, pid: Pid, a: Alone, b: Alone)
    ensures Within(Within(s, pid, a), pid, b) == Within(s, pid, b)
    ensures var t := Within(s, pid, a); pid in t.procs && Alone(t.redis, t.db, t.procs[pid]) == a
  {
  }

  lemma AdvanceIsAStep(s: System, pid: Pid, o: Oracle)
    requires Live(s, pid) && PhaseOk(s.procs[pid])
    ensures Enabled(s, LabelOf(pid, s.procs[pid], o))
    ensures var a := Alone(s.redis, s.db, s.procs[pid]);
      Step(s, LabelOf(pid, s.procs[pid], o)) == Within(s, pid, Advance(a, o))
  {
  }

  /** The guards of `Enabled` never block a handler that has not ended: its next step is enabled,
      however that step goes. */
  lemma HandlersAreNeverStuck(s: System, pid: Pid, o: Oracle)
    requires WellFormed(s) && Live(s, pid)
    ensures Enabled(s, LabelOf(pid, s.procs[pid], o)) && !LabelOf(pid, s.procs[pid], o).Crash?
  {
    assert PhaseOk(s.procs[pid]);
  }

  /** A handler running alone is one of the interleavings, and it runs to its end. */
  lemma {:induction false} SoloIsARun(s: System, pid: Pid, o: Oracle)
    requires DbOk(s.db) && WellFormed(s) && pid in s.procs
    ensures var a := Solo(Alone(s.redis, s.db, s.procs[pid]), o);
      a.p.phase.Ended? && Reachable(s, Within(s, pid, a))
    decreases StepsLeft(s.procs[pid].phase)
  {
    var a := Alone(s.redis, s.db, s.procs[pid]);
    assert PhaseOk(a.p);
    if a.p.phase.Ended? {
      assert Within(s, pid, a) == s;
      assert Runs(s, []) && Run(s, []) == s;
    } else {
      var l := LabelOf(pid, a.p, o);
      AdvanceShortens(a, o);
      AdvanceIsAStep(s, pid, o);
      var t := Step(s, l);
      WellFormedStep(s, l);
      SoloIsARun(t, pid, o);
      var b := Solo(a, o);
      WithinTwice(s, pid, Advance(a, o), b);
      ReachStep(s, l);
      ReachTrans(s, t, Within(s, pid, b));
    }
  }

  /** Any handler, for any job and at any moment, may be started and run to its end, whatever its
      calls do, from every well-formed state. */
  lemma AnyHandlerRuns(s: System, pid: Pid, job: Job, o: Oracle)
    requires DbOk(s.db) && WellFormed(s) && pid !in s.procs
    ensures var a := Solo(Alone(s.redis, s.db, Spawn(job)), o);
      a.p.phase.Ended? && Reachable(s, Within(s, pid, a))
  {
    var l := Start(pid, job);
    var t := Step(s, l);
    ReachStep(s, l);
    WellFormedStep(s, l);
    SoloIsARun(t, pid, o);
    var a := Solo(Alone(s.redis, s.db, Spawn(job)), o);
    assert Within(t, pid, a).procs == Within(s, pid, a).procs;
    ReachTrans(s, t, Within(t, pid, a));
  }

  /** So may users join and leave the line, and a handler that has not ended may die. */
  lemma LineMovesAndCrashes(s: System, k: SaleId, u: UserId, score: int, pid: Pid)
    ensures Reachable(s, s.(redis := JoinLua(s.redis, k, u, score).0))
    ensures Reachable(s, s.(redis := Zrem(s.redis, k, u).0))
    ensures Live(s, pid) ==> Reachable(s, s.(procs := s.procs[pid := CrashStep(s.procs[pid])]))
  {
    ReachStep(s, Join(k, u, score));
    ReachStep(s, Leave(k, u));
    if Live(s, pid) { ReachStep(s, Crash(pid)); }
  }
}
