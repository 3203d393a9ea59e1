/** A measure of the work left: the steps the handlers have still to take and the
    messages in flight. */
module Measure {
  import opened Types
  import opened Sections
  import opened Machine
  import opened World

  // ----- sums over finite maps -----

  ghost function Sum<K(!new)>(m: map<K, nat>): nat {
    if m == map[] then 0
    else
      var k :| k in m;
      m[k] + Sum(m - {k})
  }

  lemma {:induction false} SumSplit<K(!new)>(m: map<K, nat>, k: K)
    requires k in m
    ensures Sum(m) == m[k] + Sum(m - {k})
    decreases |m|
  {
    var j :| j in m && Sum(m) == m[j] + Sum(m - {j});
    if j != k {
      SumSplit(m - {j}, k);
      SumSplit(m - {k}, j);
      assert m - {j} - {k} == m - {k} - {j};
    }
  }

  lemma SumUpdate<K(!new)>(m: map<K, nat>, k: K, n: nat)
    requires k in m
    ensures Sum(m[k := n]) + m[k] == Sum(m) + n
  {
    SumSplit(m, k);
    SumSplit(m[k := n], k);
    assert m[k := n] - {k} == m - {k};
  }

  // ----- the measure -----

  /** The sections a handler has still to go through. Steps that send a message count double. */
  function Stage(pc: Pc): nat {
    match pc
    case MAlloc => 12
    case MHost(_) => 11
    case MCreate(_) => 10
    case MDiscard(_, _) => 10
    case MReadQpn(_) => 9
    case MSrc(_) => 8
    case MSend(_) => 7
    case MSpin(_) => 5
    case MHost2(_) => 4
    case MConn(_, _) => 3
    case ULkey => 4
    case USrc(_) => 3
    case UHost(_) => 2
    case UConn(_, _) => 1
    case DSrc => 5
    case DHost => 4
    case DConn(_) => 2
    case RegShm => 2
    case RegLkey(_, _) => 1
    case DeLkey => 2
    case DeHw => 1
    case Done(_) => 0
    case Fault => 0
  }

  /** Waiting for the mutex of a section counts as well, except in the loop that polls dst_qp_map. */
  function Rank(th: Thread): nat {
    2 * Stage(th.pc) + if Active(th) && !th.inside && !th.pc.MSpin? then 1 else 0
  }

  ghost function Ranks(threads: map<Tid, Thread>): map<Tid, nat> {
    map t | t in threads :: Rank(threads[t])
  }

  ghost function Loads(w: World): map<Gid, nat> {
    map g | g in w.routers :: Sum(Ranks(w.routers[g].threads))
  }

  ghost function Left(w: World): nat {
    Sum(Loads(w)) + |w.net|
  }

  /** The event is work done: a delivery, or a handler entering or leaving a section or the loop. */
  predicate Works(w: World, e: Event) {
    match e
    case Deliver(_) => true
    case Local(g, a) =>
      && g in w.routers
      && match a {
           case Lock(t) => t in w.routers[g].threads && !w.routers[g].threads[t].pc.MSpin?
           case Run(t, _) => t in w.routers[g].threads && LeavesLoop(w.routers[g].d, w.routers[g].threads[t])
           case _ => false
         }
  }

  /** The handler is not in the loop, or finds the number it waits for. */
  predicate LeavesLoop(d: Shared, th: Thread) {
    th.pc.MSpin? ==> th.req.Modify? && th.req.dst in d.dstQpMap
  }

  lemma ThreadsUpdate(threads: map<Tid, Thread>, t: Tid, th: Thread)
    requires t in threads
    ensures Sum(Ranks(threads[t := th])) + Rank(threads[t]) == Sum(Ranks(threads)) + Rank(th)
  {
    SumUpdate(Ranks(threads), t, Rank(th));
    assert Ranks(threads[t := th]) == Ranks(threads)[t := Rank(th)];
  }

  lemma LoadsUpdate(w: World, g: Gid, r: Router)
    requires g in w.routers
    ensures Sum(Loads(Update(w, g, r))) + Sum(Ranks(w.routers[g].threads)) == Sum(Loads(w)) + Sum(Ranks(r.threads))
  {
    SumUpdate(Loads(w), g, Sum(Ranks(r.threads)));
    assert Loads(Update(w, g, r)) == Loads(w)[g := Sum(Ranks(r.threads))];
  }

  predicate SendsOne(d: Shared, th: Thread, c: Choice) { Sends(d, th, c).Some? }

  lemma ModifyRank(d: Shared, th: Thread, c: Choice)
    requires th.req.Modify? && ModifyMove(d, th, c).Go? && (th.inside || Wants(th.pc).None?)
    ensures var pc := ModifyMove(d, th, c).pc;
      || 2 * Stage(pc) + 1 + (if SendsOne(d, th, c) then 1 else 0) <= Rank(th)
      || (th.pc.MSpin? && pc == th.pc && !LeavesLoop(d, th) && !SendsOne(d, th, c))
  {
  }

  lemma DestroyRank(d: Shared, th: Thread, c: Choice)
    requires th.req.Destroy? && DestroyMove(d, th).Go? && (th.inside || Wants(th.pc).None?)
    ensures 2 * Stage(DestroyMove(d, th).pc) + 1 + (if SendsOne(d, th, c) then 1 else 0) <= Rank(th)
  {
  }

  lemma OtherRank(d: Shared, th: Thread, c: Choice)
    requires !th.req.Destroy? && !th.req.Modify? && MoveOf(d, th, c).Go? && (th.inside || Wants(th.pc).None?)
    ensures 2 * Stage(MoveOf(d, th, c).pc) + 1 <= Rank(th) && !SendsOne(d, th, c)
  {
  }

  lemma GoRank(d: Shared, th: Thread, c: Choice)
    requires MoveOf(d, th, c).Go? && (th.inside || Wants(th.pc).None?)
    ensures var mv := MoveOf(d, th, c);
      var m, after := if SendsOne(d, th, c) then 1 else 0, Rank(Thread(th.req, mv.key, mv.pc, false));
      after + m <= Rank(th) && (LeavesLoop(d, th) ==> after + m < Rank(th))
  {
    if th.req.Modify? { ModifyRank(d, th, c); }
    else if th.req.Destroy? { DestroyRank(d, th, c); }
    else { OtherRank(d, th, c); }
  }

  /** A handler that is gone sends nothing and has nothing left. */
  lemma GoneRank(d: Shared, th: Thread, c: Choice)
    requires Active(th) && !MoveOf(d, th, c).Go?
    ensures !SendsOne(d, th, c) && Rank(th) > 0
  {
  }

  lemma RunRank(r: Router, t: Tid, c: Choice)
    requires CanRun(r, t, c)
    ensures var th, th' := r.threads[t], RunStep(r, t, c).threads[t];
      var m := if SendsOne(r.d, th, c) then 1 else 0;
      Rank(th') + m <= Rank(th) && (LeavesLoop(r.d, th) ==> Rank(th') + m < Rank(th))
  {
    if MoveOf(r.d, r.threads[t], c).Go? { GoRank(r.d, r.threads[t], c); } else { GoneRank(r.d, r.threads[t], c); }
  }

  lemma LockRank(r: Router, t: Tid)
    requires CanLock(r, t)
    ensures var th, th' := r.threads[t], LockStep(r, t).threads[t];
      Rank(th') <= Rank(th) && (!th.pc.MSpin? ==> Rank(th') < Rank(th))
  {
  }

  /** What one action does to the load of its router. */
  lemma ActionLoad(r: Router, a: Action)
    requires Enabled(r, a) && !a.Start?
    ensures var before, after := Sum(Ranks(r.threads)), Sum(Ranks(Next(r, a).threads));
      var m := if Message(r, a).Some? then 1 else 0;
      && after + m <= before
      && ((a.Lock? && !r.threads[a.t].pc.MSpin?) || (a.Run? && LeavesLoop(r.d, r.threads[a.t])) ==> after + m < before)
  {
    match a
    case Lock(t) =>
      LockRank(r, t);
      ThreadsUpdate(r.threads, t, LockStep(r, t).threads[t]);
    case Run(t, c) =>
      RunRank(r, t, c);
      ThreadsUpdate(r.threads, t, RunStep(r, t, c).threads[t]);
    case Hardware(p, kind, ok) =>
    case Receive(m) =>
  }

  /** No event but the start of a handler adds to the measure, and every event that does
      work takes from it. What does neither is a fruitless look at dst_qp_map, the lock
      for it, or a completion by the device. */
  lemma MeasureDecreases(w: World, e: Event)
    requires Happens(w, e) && !(e.Local? && e.a.Start?)
    ensures Left(Then(w, e)) <= Left(w)
    ensures Works(w, e) ==> Left(Then(w, e)) < Left(w)
  {
    match e
    case Local(g, a) =>
      var r := w.routers[g];
      ActionLoad(r, a);
      LoadsUpdate(w, g, Next(r, a));
      assert Then(w, e).routers == Update(w, g, Next(r, a)).routers;
      assert Loads(Then(w, e)) == Loads(Update(w, g, Next(r, a)));
    case Deliver(i) =>
      var m := w.net[i];
      var r := RecvStep(w.routers[m.dst], m);
      var w1 := w.(net := w.net[..i] + w.net[i + 1..]);
      LoadsUpdate(w1, m.dst, r);
      assert Loads(w1) == Loads(w);
  }

  /** How many of the events up to `j` do work. */
  ghost function WorkDone(ws: seq<World>, es: seq<Event>, i: nat, j: nat): nat
    requires i <= j <= |es| && |ws| == |es| + 1
  {
    if i == j then 0 else WorkDone(ws, es, i, j - 1) + if Works(ws[j - 1], es[j - 1]) then 1 else 0
  }

  predicate StartsNothing(e: Event) { !(e.Local? && e.a.Start?) }

  /** While no handler is started, the work done is bounded by the measure: the handlers
      and the messages run out after finitely many steps. */
  lemma {:induction false} WorkBounded(ws: seq<World>, es: seq<Event>, i: nat, j: nat)
    requires |ws| == |es| + 1 && i <= j <= |es|
    requires forall k :: i <= k < j ==> HappensAt(ws, es, k)
    requires forall k {:trigger StartsNothing(es[k])} :: i <= k < j ==> StartsNothing(es[k])
    ensures WorkDone(ws, es, i, j) + Left(ws[j]) <= Left(ws[i])
  {
    if i < j {
      WorkBounded(ws, es, i, j - 1);
      assert HappensAt(ws, es, j - 1) && StartsNothing(es[j - 1]);
      MeasureDecreases(ws[j - 1], es[j - 1]);
    }
  }
}
