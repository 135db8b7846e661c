/** A missing counter and a counter holding zero cannot be told apart by any sequence of scripts. */
module MissingKeys {
  import opened Types
  import opened RedisKeys

  datatype Op =
    | DoReserve(k: SaleId)
    | DoRelease(k: SaleId)
    | DoConfirm(k: SaleId)
    | DoJoin(k: SaleId, user: UserId, score: int)
    | DoLeave(k: SaleId, user: UserId)
    | DoPromote(k: SaleId)
    | DoReconcile(k: SaleId, expected: int, active: int, calls: Calls)

  datatype Answer = Number(n: int) | User(u: Option<UserId>) | Corrected(yes: Option<bool>)

  ghost function Do(r: Redis, op: Op): (Redis, Answer) {
    match op
    case DoReserve(k) => var (r', n) := ReserveLua(r, k); (r', Number(n))
    case DoRelease(k) => (ReleaseLua(r, k), Number(1))
    case DoConfirm(k) => var (r', n) := ConfirmLua(r, k); (r', Number(n))
    case DoJoin(k, u, score) => var (r', n) := JoinLua(r, k, u, score); (r', Number(n))
    case DoLeave(k, u) => var (r', n) := Zrem(r, k, u); (r', Number(n))
    case DoPromote(k) => var (r', u) := PromoteLua(r, k); (r', User(u))
    case DoReconcile(k, e, a, c) => var (r', yes) := Overwrite(r, k, e, a, c); (r', Corrected(yes))
  }

  ghost function Answers(r: Redis, ops: seq<Op>): seq<Answer>
    decreases |ops|
  {
    if ops == [] then [] else [Do(r, ops[0]).1] + Answers(Do(r, ops[0]).0, ops[1..])
  }

  predicate SameAt(a: Redis, b: Redis, k: SaleId) {
    Num(a.available, k) == Num(b.available, k) && Num(a.reserved, k) == Num(b.reserved, k)
  }

  /** The stores differ at most in whether a zero counter has a key. */
  ghost predicate Alike(a: Redis, b: Redis) {
    && (forall k :: SameAt(a, b, k))
    && a.waitlist == b.waitlist
  }

  predicate OnLine(op: Op) { op.DoJoin? || op.DoLeave? || op.DoPromote? }

  lemma OverwriteAt(a: Redis, b: Redis, j: SaleId, e: int, n: int, c: Calls, k: SaleId)
    requires SameAt(a, b, k) && SameAt(a, b, j)
    ensures var (a', x) := Overwrite(a, j, e, n, c);
            var (b', y) := Overwrite(b, j, e, n, c);
      SameAt(a', b', k) && x == y && a'.waitlist == a.waitlist && b'.waitlist == b.waitlist
  {
  }

  lemma StockOpAt(a: Redis, b: Redis, op: Op, k: SaleId)
    requires SameAt(a, b, k) && SameAt(a, b, op.k) && !OnLine(op)
    ensures SameAt(Do(a, op).0, Do(b, op).0, k)
  {
    if op.DoReconcile? { OverwriteAt(a, b, op.k, op.expected, op.active, op.calls, k); }
  }

  lemma PromoteAt(a: Redis, b: Redis, j: SaleId, k: SaleId)
    requires SameAt(a, b, k) && SameAt(a, b, j) && a.waitlist == b.waitlist
    ensures SameAt(PromoteLua(a, j).0, PromoteLua(b, j).0, k)
  {
  }

  lemma LineOpAt(a: Redis, b: Redis, op: Op, k: SaleId)
    requires SameAt(a, b, k) && SameAt(a, b, op.k) && a.waitlist == b.waitlist && OnLine(op)
    ensures SameAt(Do(a, op).0, Do(b, op).0, k)
  {
    if op.DoPromote? { PromoteAt(a, b, op.k, k); }
  }

  lemma StockAnswers(a: Redis, b: Redis, op: Op)
    requires SameAt(a, b, op.k) && a.waitlist == b.waitlist && !OnLine(op)
    ensures Do(a, op).1 == Do(b, op).1 && Do(a, op).0.waitlist == Do(b, op).0.waitlist
  {
    if op.DoReconcile? { OverwriteAt(a, b, op.k, op.expected, op.active, op.calls, op.k); }
  }

  lemma LineAnswers(a: Redis, b: Redis, op: Op)
    requires SameAt(a, b, op.k) && a.waitlist == b.waitlist && OnLine(op)
    ensures Do(a, op).1 == Do(b, op).1 && Do(a, op).0.waitlist == Do(b, op).0.waitlist
  {
  }

  lemma OpAlike(a: Redis, b: Redis, op: Op)
    requires Alike(a, b)
    ensures Alike(Do(a, op).0, Do(b, op).0) && Do(a, op).1 == Do(b, op).1
  {
    assert SameAt(a, b, op.k);
    if OnLine(op) { LineAnswers(a, b, op); } else { StockAnswers(a, b, op); }
    forall k ensures SameAt(Do(a, op).0, Do(b, op).0, k) {
      assert SameAt(a, b, k);
      if OnLine(op) { LineOpAt(a, b, op, k); } else { StockOpAt(a, b, op, k); }
    }
  }

  /** Every sequence of operations gets the same answers from both. */
  lemma {:induction false} MissingEqualsZero(a: Redis, b: Redis, ops: seq<Op>)
    requires Alike(a, b)
    ensures Answers(a, ops) == Answers(b, ops)
    decreases |ops|
  {
    if ops != [] {
      OpAlike(a, b, ops[0]);
      MissingEqualsZero(Do(a, ops[0]).0, Do(b, ops[0]).0, ops[1..]);
    }
  }

  /** In particular, deleting the keys of counters that are zero. */
  lemma DroppingZeroesIsInvisible(r: Redis, ks: set<SaleId>, ops: seq<Op>)
    requires forall k | k in ks :: Num(r.available, k) == 0 && Num(r.reserved, k) == 0
    ensures Answers(r.(available := r.available - ks, reserved := r.reserved - ks), ops) == Answers(r, ops)
  {
    MissingEqualsZero(r.(available := r.available - ks, reserved := r.reserved - ks), r, ops);
  }
}
