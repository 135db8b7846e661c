/** The vocabulary shared by every part of the model. UUIDs are numbers: the canonical text of a
    UUID has a fixed width, so Redis's byte order on it is the order of the 128-bit values. */
module Types {
  type SaleId = nat
  type UserId = nat
  type ResId = nat
  type OrderId = nat
  type Pid = nat
  type Key = string

  datatype Option<+T> = None | Some(value: T)

  /** A write: rejected; applied, but the caller sees an error; applied and acknowledged. */
  datatype Write = Rejected | AppliedUnheard | Applied
}

/** Sorted sets: members ordered by (score, member). */
module SortedSet {
  import opened Types
  import opened Counting

  type Line = map<UserId, int>

  predicate Before(w: Line, u: UserId, v: UserId)
    requires u in w && v in w
  {
    w[u] < w[v] || (w[u] == w[v] && u < v)
  }

  predicate IsHead(w: Line, u: UserId) {
    u in w && forall v | v in w && v != u :: Before(w, u, v)
  }

  lemma {:induction false} HeadExists(w: Line)
    requires w != map[]
    ensures exists u :: IsHead(w, u)
    decreases |w|
  {
    var x :| x in w;
    var rest := w - {x};
    assert forall v | v in w && v != x :: v in rest && rest[v] == w[v];
    if rest == map[] {
      assert forall v | v in w && v != x :: v in rest;
      assert IsHead(w, x);
    } else {
      assert rest.Keys == w.Keys - {x};
      HeadExists(rest);
      var u :| IsHead(rest, u);
      assert forall v | v in w && v != x && v != u :: Before(rest, u, v);
      assert IsHead(w, u) || IsHead(w, x);
    }
  }

  lemma HeadUnique(w: Line, u: UserId, v: UserId)
    requires IsHead(w, u) && IsHead(w, v)
    ensures u == v
  {
  }

  /** ZPOPMIN's member. */
  ghost function Head(w: Line): (u: UserId)
    requires w != map[]
    ensures IsHead(w, u)
  {
    HeadExists(w);
    var u :| IsHead(w, u);
    u
  }

  function Ahead(w: Line, u: UserId): set<UserId>
    requires u in w
  {
    set v | v in w && Before(w, v, u)
  }

  /** ZRANK. */
  function Rank(w: Line, u: UserId): nat
    requires u in w
  {
    |Ahead(w, u)|
  }

  lemma RankBound(w: Line, u: UserId)
    requires u in w
    ensures Rank(w, u) < |w|
  {
    SubsetSize(Ahead(w, u), w.Keys - {u});
  }
}

/** The Redis keys the service uses and the Lua scripts over them. A missing counter is a missing
    map entry; INCR and DECR treat it as zero and the scripts' GET as nil. */
module RedisKeys {
  import opened Types
  import opened SortedSet

  datatype Redis = Redis(
    available: map<SaleId, int>,
    reserved: map<SaleId, int>,
    waitlist: map<SaleId, Line>,
    idem: map<(SaleId, Key), (ResId, int)>,   // reservation remembered, and when the key expires
    ttls: set<ResId>)

  function Num(m: map<SaleId, int>, k: SaleId): int {
    if k in m then m[k] else 0
  }

  function Incr(m: map<SaleId, int>, k: SaleId, d: int): map<SaleId, int> {
    m[k := Num(m, k) + d]
  }

  function Waiting(r: Redis, k: SaleId): Line {
    if k in r.waitlist then r.waitlist[k] else map[]
  }

  function ReserveLua(r: Redis, k: SaleId): (Redis, int) {
    if k !in r.available || r.available[k] <= 0 then (r, -1)
    else (r.(available := Incr(r.available, k, -1), reserved := Incr(r.reserved, k, 1)), 1)
  }

  function ReleaseLua(r: Redis, k: SaleId): Redis {
    r.(available := Incr(r.available, k, 1), reserved := Incr(r.reserved, k, -1))
  }

  function ConfirmLua(r: Redis, k: SaleId): (Redis, int) {
    if k !in r.reserved || r.reserved[k] <= 0 then (r, -1)
    else (r.(reserved := Incr(r.reserved, k, -1)), 1)
  }

  function JoinLua(r: Redis, k: SaleId, u: UserId, score: int): (Redis, int) {
    if k in r.available && r.available[k] > 0 then (r, -1)
    else if u in Waiting(r, k) then (r, -2)
    else
      var w := Waiting(r, k)[u := score];
      (r.(waitlist := r.waitlist[k := w]), Rank(w, u) as int)
  }

  ghost function PromoteLua(r: Redis, k: SaleId): (Redis, Option<UserId>) {
    if k !in r.available || r.available[k] <= 0 || Waiting(r, k) == map[] then (r, None)
    else
      var u := Head(Waiting(r, k));
      (r.(waitlist := r.waitlist[k := Waiting(r, k) - {u}],
          available := Incr(r.available, k, -1),
          reserved := Incr(r.reserved, k, 1)), Some(u))
  }

  /** ZREM; the reply is how many members it removed. */
  function Zrem(r: Redis, k: SaleId, u: UserId): (Redis, int) {
    if u in Waiting(r, k) then (r.(waitlist := r.waitlist[k := Waiting(r, k) - {u}]), 1) else (r, 0)
  }

  predicate SameCounter(a: map<SaleId, int>, b: map<SaleId, int>, k: SaleId) {
    (k in a <==> k in b) && (k in a ==> a[k] == b[k])
  }

  predicate SameCounters(a: Redis, b: Redis, k: SaleId) {
    SameCounter(a.available, b.available, k) && SameCounter(a.reserved, b.reserved, k)
  }

  /** A counter that differs from the recomputation; a missing key reads as zero. */
  predicate Drifts(r: Redis, k: SaleId, expected: int, active: int) {
    Num(r.available, k) != expected || Num(r.reserved, k) != active
  }

  /** How a reconciler's calls for one sale go: reading its row, the two counts, the two GETs and the
      two SETs. A GET that fails is ignored and reads as zero. */
  datatype Calls = Calls(scan: bool, count: bool, getAvailable: bool, getReserved: bool,
                         setAvailable: Write, setReserved: Write)

  const ALL_WELL := Calls(true, true, true, true, Applied, Applied)

  function Get(m: map<SaleId, int>, k: SaleId, ok: bool): int {
    if ok then Num(m, k) else 0
  }

  /** The reconcilers' reads and writes for one sale, given what the counters ought to be: both are
      overwritten, `available` first, if either reads differently. The answer says whether the sale
      was corrected; None is an error. */
  function Overwrite(r: Redis, k: SaleId, expected: int, active: int, c: Calls): (Redis, Option<bool>) {
    if !c.scan || !c.count then (r, None)
    else if Get(r.available, k, c.getAvailable) == expected && Get(r.reserved, k, c.getReserved) == active
    then (r, Some(false))
    else if c.setAvailable.Rejected? then (r, None)
    else
      var first := r.(available := r.available[k := expected]);
      var both := first.(reserved := r.reserved[k := active]);
      if c.setAvailable.AppliedUnheard? || c.setReserved.Rejected? then (first, None)
      else (both, if c.setReserved.Applied? then Some(true) else None)
  }
}
