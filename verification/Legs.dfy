/** Pieces of runs without reconciles, from any state: what one handler can do up to a given point. */
module Legs {
  import opened Types
  import opened RedisKeys
  import opened Postgres
  import opened Protocol

  /** Some run without reconciles goes from s to t. */
  ghost predicate Leads(s: System, t: System) {
    exists ls :: Quiet(ls) && Runs(s, ls) && Run(s, ls) == t
  }

  lemma LeadsHere(s: System)
    ensures Leads(s, s)
  {
    assert Quiet([]) && Runs(s, []) && Run(s, []) == s;
  }

  lemma LeadsTrans(s: System, t: System, u: System)
    requires Leads(s, t) && Leads(t, u)
    ensures Leads(s, u)
  {
    var a :| Quiet(a) && Runs(s, a) && Run(s, a) == t;
    var b :| Quiet(b) && Runs(t, b) && Run(t, b) == u;
    RunConcat(s, a, b);
    assert Quiet(a + b);
  }

  lemma LeadsStep(s: System, l: Label)
    requires Enabled(s, l) && !l.Reconcile?
    ensures Leads(s, Step(s, l))
  {
    var ls := [l];
    assert ls[1..] == [];
    assert Runs(Step(s, l), ls[1..]) && Run(s, ls) == Step(s, l) && Quiet(ls);
  }

  lemma ThenStep(s: System, t: System, l: Label)
    requires Leads(s, t) && Enabled(t, l) && !l.Reconcile?
    ensures Leads(s, Step(t, l))
  {
    LeadsStep(t, l);
    LeadsTrans(s, t, Step(t, l));
  }

  lemma LeadsIsReachable(s: System, t: System)
    requires Leads(s, t)
    ensures Reachable(s, t)
  {
  }

  // ---- one handler

  /** A keyless Reserve up to its script. */
  ghost function AfterTake(s: System, k: SaleId, pid: Pid, user: UserId): System {
    System(ReserveLua(s.redis, k).0, s.db,
           s.procs[pid := Unmarked(ReserveJob(user, k, ""), Inserting(user), Some(k)).(held := true)])
  }

  lemma TakeLeg(s: System, k: SaleId, pid: Pid, user: UserId)
    requires pid !in s.procs && Num(s.redis.available, k) > 0
    ensures Leads(s, AfterTake(s, k, pid, user))
  {
    LeadsHere(s);
    var a := Step(s, Start(pid, ReserveJob(user, k, "")));
    ThenStep(s, s, Start(pid, ReserveJob(user, k, "")));
    var b := Step(a, Script(pid, Answered));
    ThenStep(s, a, Script(pid, Answered));
    assert b.procs == AfterTake(s, k, pid, user).procs;
    assert b == AfterTake(s, k, pid, user);
  }

  /** A keyless Reserve up to its insert. */
  ghost function AfterReserve(s: System, k: SaleId, pid: Pid, user: UserId, id: ResId, e: int): System {
    System(ReserveLua(s.redis, k).0,
           s.db.(rows := s.db.rows[id := Row(user, k, Reserved, None, e, false)]),
           s.procs[pid := Unmarked(ReserveJob(user, k, ""), SettingTtl(id), Some(k))])
  }

  lemma ReserveLeg(s: System, k: SaleId, pid: Pid, user: UserId, id: ResId, e: int)
    requires pid !in s.procs && id !in s.db.rows && Num(s.redis.available, k) > 0
    ensures Leads(s, AfterReserve(s, k, pid, user, id, e))
  {
    TakeLeg(s, k, pid, user);
    var b := AfterTake(s, k, pid, user);
    var c := Step(b, Insert(pid, id, e, Applied));
    ThenStep(s, b, Insert(pid, id, e, Applied));
    assert c.procs == AfterReserve(s, k, pid, user, id, e).procs;
    assert c == AfterReserve(s, k, pid, user, id, e);
  }

  ghost function AfterMiss(s: System, pid: Pid, id: ResId, key: Key): System {
    s.(procs := s.procs[pid := Unmarked(ConfirmJob(id, key), Loading, None)])
  }

  lemma MissLeg(s: System, pid: Pid, id: ResId, key: Key)
    requires pid !in s.procs && key != ""
    ensures Leads(s, AfterMiss(s, pid, id, key))
  {
    LeadsHere(s);
    var a := Step(s, Start(pid, ConfirmJob(id, key)));
    ThenStep(s, s, Start(pid, ConfirmJob(id, key)));
    var b := Step(a, Recall(pid, false));
    ThenStep(s, a, Recall(pid, false));
    assert b.procs == AfterMiss(s, pid, id, key).procs;
    assert b == AfterMiss(s, pid, id, key);
  }

  /** A Confirm up to its script. */
  ghost function AfterConfirmLua(s: System, k: SaleId, pid: Pid, id: ResId, key: Key): System {
    System(ConfirmLua(s.redis, k).0, s.db,
           s.procs[pid := Unmarked(ConfirmJob(id, key), Committing, Some(k))])
  }

  lemma ConfirmLeg(s: System, k: SaleId, pid: Pid, id: ResId, key: Key)
    requires pid !in s.procs && key != "" && Num(s.redis.reserved, k) > 0
    requires id in s.db.rows && HeldBy(k)(s.db.rows[id])
    ensures Leads(s, AfterConfirmLua(s, k, pid, id, key))
  {
    MissLeg(s, pid, id, key);
    var b := AfterMiss(s, pid, id, key);
    var c := Step(b, Load(pid, true));
    ThenStep(s, b, Load(pid, true));
    var d := Step(c, Script(pid, Answered));
    ThenStep(s, c, Script(pid, Answered));
    assert d.procs == AfterConfirmLua(s, k, pid, id, key).procs;
    assert d == AfterConfirmLua(s, k, pid, id, key);
  }

  /** A Release up to its script. */
  ghost function AfterLoad(s: System, k: SaleId, pid: Pid, id: ResId): System {
    s.(procs := s.procs[pid := Unmarked(ReleaseJob(id), Scripting, Some(k))])
  }

  lemma ReleaseLeg(s: System, k: SaleId, pid: Pid, id: ResId)
    requires pid !in s.procs && id in s.db.rows && HeldBy(k)(s.db.rows[id])
    ensures Leads(s, AfterLoad(s, k, pid, id))
  {
    LeadsHere(s);
    var a := Step(s, Start(pid, ReleaseJob(id)));
    ThenStep(s, s, Start(pid, ReleaseJob(id)));
    var b := Step(a, Load(pid, true));
    ThenStep(s, a, Load(pid, true));
    assert b.procs == AfterLoad(s, k, pid, id).procs;
    assert b == AfterLoad(s, k, pid, id);
  }

  // ---- ids and keys not in use

  lemma {:induction false} FreshId(xs: set<nat>) returns (n: nat)
    ensures forall x | x in xs :: x < n
    decreases xs
  {
    n := 0;
    if xs != {} {
      var y :| y in xs;
      var m := FreshId(xs - {y});
      n := m + y + 1;
      assert forall x | x in xs :: x == y || x in xs - {y};
    }
  }

  /** A key longer than every key in use and every key to avoid. */
  lemma FreshKey(db: Db, avoid: set<Key>) returns (key: Key)
    ensures key != "" && key !in avoid && !KeyUsed(db, key)
  {
    var lengths := (set o | o in db.orders :: |db.orders[o].key|) + (set x | x in avoid :: |x|);
    var n := FreshId(lengths);
    key := seq(n + 1, _ => 'k');
    forall o | o in db.orders ensures db.orders[o].key != key {
      assert |db.orders[o].key| in lengths;
    }
    assert key in avoid ==> |key| in lengths;
  }
}
