/** The order of the waitlist, in every interleaving of the whole system. */
module Waitlist {
  import opened Types
  import opened Counting
  import opened SortedSet
  import opened RedisKeys
  import opened Protocol

  /** Taking the head moves everyone else up by exactly one place. */
  lemma PopMovesUp(w: Line, u: UserId)
    requires u in w && u != Head(w)
    ensures Rank(w - {Head(w)}, u) == Rank(w, u) - 1
  {
    assert Ahead(w - {Head(w)}, u) == Ahead(w, u) - {Head(w)};
  }

  lemma RemovalMovesNobodyBack(w: Line, v: UserId, u: UserId)
    requires u in w && u != v
    ensures Rank(w - {v}, u) <= Rank(w, u)
  {
    assert Ahead(w - {v}, u) == Ahead(w, u) - {v};
  }

  lemma LaterJoinChangesNothing(w: Line, v: UserId, score: int, u: UserId)
    requires u in w && v !in w && score > w[u]
    ensures Rank(w[v := score], u) == Rank(w, u)
  {
    assert Ahead(w[v := score], u) == Ahead(w, u);
  }

  /** A joiner is placed behind everyone exactly when (score, id) is past everyone's; joining in
      the same second as somebody with a larger id does not. */
  lemma JoinIsLastExactly(w: Line, u: UserId, score: int)
    requires u !in w
    ensures Rank(w[u := score], u) == |w| <==> forall v | v in w :: w[v] < score || (w[v] == score && v < u)
  {
    var w' := w[u := score];
    assert Ahead(w', u) == set v | v in w && (w[v] < score || (w[v] == score && v < u));
    assert Ahead(w', u) <= w.Keys;
    if Rank(w', u) == |w| {
      FullSubset(Ahead(w', u), w.Keys);
    }
    if forall v | v in w :: w[v] < score || (w[v] == score && v < u) {
      assert Ahead(w', u) == w.Keys;
    }
  }

  /** The step promotes somebody from sale k's waitlist: its head. */
  ghost predicate Pops(s: System, l: Label, k: SaleId)
    requires Enabled(s, l)
  {
    l.Promote? && !l.d.NotRun? && s.procs[l.pid].sale == Some(k) && PromoteLua(s.redis, k).1.Some?
  }

  /** The step leaves u waiting in its place unless it promotes: u does not leave, and nobody joins
      with a score that is not past u's. Once u's joining second is over, no join can. */
  ghost predicate Behind(l: Label, k: SaleId, u: UserId, score: int) {
    && l != Leave(k, u)
    && (l.Join? && l.k == k ==> l.score > score)
  }

  lemma OtherSteps(s: System, l: Label, k: SaleId)
    requires Enabled(s, l) && !l.Promote? && !l.Join? && !l.Leave?
    ensures Waiting(Step(s, l).redis, k) == Waiting(s.redis, k)
  {
  }

  lemma PromoteSteps(s: System, l: Label, k: SaleId)
    requires Enabled(s, l) && l.Promote?
    ensures Waiting(Step(s, l).redis, k)
         == if Pops(s, l, k) then Waiting(s.redis, k) - {Head(Waiting(s.redis, k))} else Waiting(s.redis, k)
    ensures Pops(s, l, k) && l.d.Answered? ==>
              Step(s, l).procs[l.pid].phase == Inserting(Head(Waiting(s.redis, k)))
  {
  }

  /** One step of any kind: u is promoted, or keeps its score and moves up by every promotion. */
  lemma PlaceAfterStep(s: System, l: Label, k: SaleId, u: UserId)
    requires Enabled(s, l) && u in Waiting(s.redis, k) && Behind(l, k, u, Waiting(s.redis, k)[u])
    requires !(Pops(s, l, k) && Head(Waiting(s.redis, k)) == u)
    ensures var w, w' := Waiting(s.redis, k), Waiting(Step(s, l).redis, k);
      u in w' && w'[u] == w[u] && Rank(w', u) <= Rank(w, u) - (if Pops(s, l, k) then 1 else 0)
  {
    var w := Waiting(s.redis, k);
    match l
    case Promote(_, _) =>
      PromoteSteps(s, l, k);
      if Pops(s, l, k) { PopMovesUp(w, u); }
    case Join(j, v, score) => if j == k && v !in w { LaterJoinChangesNothing(w, v, score, u); }
    case Leave(j, v) => if j == k { RemovalMovesNobodyBack(w, v, u); }
    case _ => OtherSteps(s, l, k);
  }

  ghost function PopCount(s: System, ls: seq<Label>, k: SaleId): nat
    requires Runs(s, ls)
    decreases |ls|
  {
    if ls == [] then 0
    else (if Pops(s, ls[0], k) then 1 else 0) + PopCount(Step(s, ls[0]), ls[1..], k)
  }

  /** Among the first n successful promotions of the run, one is u's. */
  ghost predicate PromotedWithin(s: System, ls: seq<Label>, k: SaleId, u: UserId, n: nat)
    requires Runs(s, ls)
    decreases |ls|
  {
    if ls == [] then false
    else if Pops(s, ls[0], k) then
      n > 0 && (Head(Waiting(s.redis, k)) == u || PromotedWithin(Step(s, ls[0]), ls[1..], k, u, n - 1))
    else PromotedWithin(Step(s, ls[0]), ls[1..], k, u, n)
  }

  lemma {:induction false} PromotedWithinMore(s: System, ls: seq<Label>, k: SaleId, u: UserId, m: nat, n: nat)
    requires Runs(s, ls) && m <= n && PromotedWithin(s, ls, k, u, m)
    ensures PromotedWithin(s, ls, k, u, n)
    decreases |ls|
  {
    if Pops(s, ls[0], k) {
      if Head(Waiting(s.redis, k)) != u { PromotedWithinMore(Step(s, ls[0]), ls[1..], k, u, m - 1, n - 1); }
    } else {
      PromotedWithinMore(Step(s, ls[0]), ls[1..], k, u, m, n);
    }
  }

  /** Over any run: u at position Rank + 1 is promoted among the first Rank + 1 promotions, or is
      still waiting, ahead of where it was by every promotion made. */
  lemma {:induction false} PlaceOverRuns(s: System, ls: seq<Label>, k: SaleId, u: UserId)
    requires Runs(s, ls) && u in Waiting(s.redis, k)
    requires forall i | 0 <= i < |ls| :: Behind(ls[i], k, u, Waiting(s.redis, k)[u])
    ensures var w, w' := Waiting(s.redis, k), Waiting(Run(s, ls).redis, k);
      || PromotedWithin(s, ls, k, u, Rank(w, u) + 1)
      || (u in w' && w'[u] == w[u] && Rank(w', u) + PopCount(s, ls, k) <= Rank(w, u))
    decreases |ls|
  {
    if ls != [] && !(Pops(s, ls[0], k) && Head(Waiting(s.redis, k)) == u) {
      var t := Step(s, ls[0]);
      PlaceAfterStep(s, ls[0], k, u);
      PlaceOverRuns(t, ls[1..], k, u);
      var n := Rank(Waiting(t.redis, k), u) + 1;
      if PromotedWithin(t, ls[1..], k, u, n) {
        var m := Rank(Waiting(s.redis, k), u) + (if Pops(s, ls[0], k) then 0 else 1);
        PromotedWithinMore(t, ls[1..], k, u, n, m);
      }
    }
  }

  /** Fairness: after as many promotions as u's position, u has been promoted. */
  lemma PromotedByPosition(s: System, ls: seq<Label>, k: SaleId, u: UserId)
    requires Runs(s, ls) && u in Waiting(s.redis, k)
    requires forall i | 0 <= i < |ls| :: Behind(ls[i], k, u, Waiting(s.redis, k)[u])
    requires PopCount(s, ls, k) >= Rank(Waiting(s.redis, k), u) + 1
    ensures PromotedWithin(s, ls, k, u, Rank(Waiting(s.redis, k), u) + 1)
  {
    PlaceOverRuns(s, ls, k, u);
  }
}
