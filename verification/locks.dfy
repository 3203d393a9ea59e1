/** Lock discipline and freedom from deadlock of the handlers of one router. */
module Locks {
  import opened Types
  import opened Sections
  import opened Machine
  import opened References
  import opened Safety

  /** The thread is blocked on a mutex another thread holds. */
  predicate Waits(r: Router, t: Tid) {
    && t in r.threads && Active(r.threads[t]) && !r.threads[t].inside
    && Wants(r.threads[t].pc).Some? && Wants(r.threads[t].pc).value in r.owner
  }

  predicate Unfilled(d: Shared, k: HostKey) {
    k in d.hostMap && !HasQp(d, d.hostMap[k])
  }

  /** The handler that published the connection of `k` is filling it. */
  ghost predicate BeingFilled(r: Router, k: HostKey)
    requires k in r.d.hostMap
  {
    var m := ConnM(r.d.hostMap[k]);
    m in r.owner && r.owner[m] in r.threads && r.threads[r.owner[m]].pc == MCreate(r.d.hostMap[k])
  }

  ghost predicate FillOk(r: Router) {
    forall k :: Unfilled(r.d, k) ==> BeingFilled(r, k)
  }

  lemma JoinFill(d: Shared, key: HostKey, p: Ptr, k: HostKey)
    requires HostOk(d) && Private(d, p) && Unfilled(JoinHost(d, key, p).0, k)
    ensures var (d', joined) := JoinHost(d, key, p);
      || (joined == NULL && d'.hostMap[k] == p)
      || (Unfilled(d, k) && d'.hostMap[k] == d.hostMap[k])
  {
  }

  lemma ModifyFill(d: Shared, th: Thread, c: Choice, k: HostKey)
    requires HostOk(d) && ThreadOk(d, th) && th.req.Modify? && Admits(d, th, c) && ModifyMove(d, th, c).Go?
    requires Unfilled(ModifyMove(d, th, c).d, k)
    ensures var mv := ModifyMove(d, th, c);
      || mv.pc == MCreate(mv.d.hostMap[k])
      || (Unfilled(d, k) && mv.d.hostMap[k] == d.hostMap[k] && th.pc != MCreate(d.hostMap[k]))
  {
    if th.pc.MHost? { JoinFill(d, th.key, th.pc.newConn, k); }
    else if th.pc.MConn? { SetQpQuiet(d, th.pc.conn, d.conns[th.pc.conn].qp.value); }
  }

  lemma DestroyFill(d: Shared, th: Thread, k: HostKey)
    requires HostOk(d) && ThreadOk(d, th) && RequestOk(d.gid, th) && th.req.Destroy? && DestroyMove(d, th).Go?
    requires Unfilled(DestroyMove(d, th).d, k)
    ensures Unfilled(d, k) && DestroyMove(d, th).d.hostMap[k] == d.hostMap[k] && !th.pc.MCreate?
  {
    if th.pc.DHost? { DropShape(d, th.key); }
  }

  lemma OtherFill(d: Shared, th: Thread, c: Choice, k: HostKey)
    requires RequestOk(d.gid, th) && !th.req.Modify? && !th.req.Destroy? && MoveOf(d, th, c).Go?
    requires Unfilled(MoveOf(d, th, c).d, k)
    ensures Unfilled(d, k) && MoveOf(d, th, c).d.hostMap[k] == d.hostMap[k] && !th.pc.MCreate?
  {
  }

  lemma StillFilled(r: Router, t: Tid, mv: Move, k: HostKey)
    requires t in r.threads && HoldingOk(r, t) && mv.Go? && (r.threads[t].inside || Wants(r.threads[t].pc).None?)
    requires Unfilled(r.d, k) && BeingFilled(r, k) && Unfilled(mv.d, k) && mv.d.hostMap[k] == r.d.hostMap[k]
    requires HostOk(r.d) && r.threads[t].pc != MCreate(r.d.hostMap[k])
    requires NewConn(mv.pc).Some? && NewConn(r.threads[t].pc).None? ==> NewConn(mv.pc).value !in r.d.conns
    ensures BeingFilled(Apply(r, t, mv), k)
  {
  }

  lemma NewIsFresh(d: Shared, th: Thread, c: Choice)
    requires RequestOk(d.gid, th) && Admits(d, th, c) && MoveOf(d, th, c).Go?
    ensures var mv := MoveOf(d, th, c);
      NewConn(mv.pc).Some? && NewConn(th.pc).None? ==> NewConn(mv.pc).value !in d.conns
  {
  }

  lemma RunFill(r: Router, t: Tid, c: Choice)
    requires Inv(r) && FillOk(r) && CanRun(r, t, c) && MoveOf(r.d, r.threads[t], c).Go?
    requires LocksOk(RunStep(r, t, c))
    ensures FillOk(RunStep(r, t, c))
  {
    var th := r.threads[t];
    var r' := RunStep(r, t, c);
    var mv := MoveOf(r.d, th, c);
    assert ThreadOk(r.d, th) && HoldingOk(r, t) && RequestOk(r.d.gid, th);
    forall k | Unfilled(r'.d, k) ensures BeingFilled(r', k) {
      if th.req.Modify? { ModifyFill(r.d, th, c, k); }
      else if th.req.Destroy? { DestroyFill(r.d, th, k); }
      else { OtherFill(r.d, th, c, k); }
      if mv.pc == MCreate(mv.d.hostMap[k]) { assert HoldingOk(r', t); }
      else { NewIsFresh(r.d, th, c); StillFilled(r, t, mv, k); }
    }
  }

  lemma LockFill(r: Router, t: Tid)
    requires FillOk(r) && CanLock(r, t) && LockStep(r, t).threads[t].inside
    ensures FillOk(LockStep(r, t))
  {
    var r' := LockStep(r, t);
    forall k | Unfilled(r'.d, k) ensures BeingFilled(r', k) { assert BeingFilled(r, k); }
  }

  lemma StepFills(r: Router, a: Action)
    requires Inv(r) && Safe(r) && FillOk(r) && Enabled(r, a) && Inv(Next(r, a))
    ensures FillOk(Next(r, a))
  {
    match a
    case Run(t, c) =>
      assert ThreadOk(r.d, r.threads[t]) && RequestOk(r.d.gid, r.threads[t]) && ThreadSafe(r.d, r.threads[t]);
      AllMoveSafely(r.d, r.threads[t], c);
      RunFill(r, t, c);
    case Lock(t) => LockSafe(r, t); LockFill(r, t);
    case _ => QuietFill(r, Next(r, a));
  }

  lemma FillsNext(rs: seq<Router>, acts: seq<Action>, i: nat)
    requires IsPoliteRun(rs, acts) && i < |acts| && FillOk(rs[i])
    ensures FillOk(rs[i + 1])
  {
    RunIsSafe(rs, acts, i);
    RunIsSafe(rs, acts, i + 1);
    assert StepAt(rs, acts, i);
    StepFills(rs[i], acts[i]);
  }

  lemma {:induction false} RunFills(rs: seq<Router>, acts: seq<Action>, i: nat)
    requires IsPoliteRun(rs, acts) && i < |rs|
    ensures FillOk(rs[i])
  {
    if i > 0 {
      RunFills(rs, acts, i - 1);
      FillsNext(rs, acts, i - 1);
    }
  }

  lemma QuietFill(r: Router, r': Router)
    requires FillOk(r) && r'.owner == r.owner && r'.d.hostMap == r.d.hostMap
    requires forall t :: t in r.threads ==> t in r'.threads && r'.threads[t] == r.threads[t]
    requires forall p :: HasQp(r.d, p) ==> HasQp(r'.d, p)
    ensures FillOk(r')
  {
    forall k | Unfilled(r'.d, k) ensures BeingFilled(r', k) { assert Unfilled(r.d, k); }
  }

  // ----- the theorems -----

  /** A thread that waits for the mutex of a map holds nothing but the mutex of a
      connection it allocated and has not published; a thread that waits for the
      mutex of a connection holds nothing; a handler that has ended holds nothing. */
  lemma LockDiscipline(rs: seq<Router>, acts: seq<Action>, i: nat, t: Tid, m: Mutex)
    requires IsPoliteRun(rs, acts) && i < |rs| && t in rs[i].threads && Holds(rs[i], m, t)
    ensures var r, th := rs[i], rs[i].threads[t];
      && Active(th)
      && (Waits(r, t) ==> !Wants(th.pc).value.ConnM? && m.ConnM? && NewConn(th.pc) == Some(m.conn)
                          && forall k :: k in r.d.hostMap ==> r.d.hostMap[k] != m.conn)
  {
    RunIsSafe(rs, acts, i);
    var r := rs[i];
    assert OwnerOk(r, m) && ThreadOk(r.d, r.threads[t]);
  }

  lemma BlockerRuns(r: Router, t: Tid)
    requires Inv(r) && Safe(r) && Waits(r, t)
    ensures var u := r.owner[Wants(r.threads[t].pc).value];
      && u in r.threads && u != t && Active(r.threads[u]) && !Waits(r, u) && !r.threads[u].pc.MSend?
      && (r.threads[u].pc.MSpin? ==> r.threads[t].pc.MSpin?)
  {
    var m := Wants(r.threads[t].pc).value;
    assert OwnerOk(r, m);
    var u := r.owner[m];
    assert ThreadOk(r.d, r.threads[u]) && ThreadOk(r.d, r.threads[t]) && ThreadSafe(r.d, r.threads[t])
      && HoldingOk(r, t);
    if OnBehalf(r.threads[t].pc) { assert KeyReady(r.d, r.threads[t].key); }
  }

  /** Every mutex a thread waits for is held by a thread that itself waits for
      nothing, so no cycle of threads, of any length, can wait for one another. */
  lemma NoWaitingCycle(rs: seq<Router>, acts: seq<Action>, i: nat, t: Tid)
    requires IsPoliteRun(rs, acts) && i < |rs| && Waits(rs[i], t)
    ensures var r := rs[i];
      var u := r.owner[Wants(r.threads[t].pc).value];
      u in r.threads && u != t && Active(r.threads[u]) && !Waits(r, u)
  {
    RunIsSafe(rs, acts, i);
    BlockerRuns(rs[i], t);
  }

  /** A number outside a finite set of numbers. */
  lemma Unused(s: set<nat>) returns (n: nat)
    ensures n > 0 && forall x :: x in s ==> x < n
  {
    var rest := s;
    n := 1;
    while rest != {}
      invariant n > 0 && rest <= s
      invariant forall x :: x in s && x !in rest ==> x < n
      decreases |rest|
    {
      var x :| x in rest;
      rest := rest - {x};
      n := if x < n then n else x + 1;
    }
  }

  ghost function QpnsInUse(d: Shared): set<Qpn> {
    set p | p in d.conns && d.conns[p].qp.Some? :: d.conns[p].qp.value.qpn
  }

  lemma UnusedQpn(d: Shared) returns (qpn: Qpn)
    ensures forall p :: p in d.conns && d.conns[p].qp.Some? ==> d.conns[p].qp.value.qpn != qpn
  {
    qpn := Unused(QpnsInUse(d));
    forall p | p in d.conns && d.conns[p].qp.Some? ensures d.conns[p].qp.value.qpn != qpn {
      var n := d.conns[p].qp.value.qpn;
      assert n in QpnsInUse(d);
      assert n < qpn;
    }
  }

  /** A handler that waits for nothing can run, unless it reads a queue pair number
      another handler has still to produce. */
  lemma RunsNow(r: Router, t: Tid, reach: nat, ok: bool) returns (c: Choice)
    requires t in r.threads && Active(r.threads[t]) && (r.threads[t].inside || Wants(r.threads[t].pc).None?)
    requires r.threads[t].pc.MReadQpn? ==> HasQp(r.d, r.threads[t].pc.oldConn)
    requires r.threads[t].pc.RegShm? ==> !ok
    ensures CanRun(r, t, c) && c.reach == reach && c.ok == ok
  {
    var ptr := Unused(r.d.conns.Keys);
    var qpn := UnusedQpn(r.d);
    c := Choice(ptr, qpn, 0, reach, ok);
  }

  /** An unfinished handler, or one it depends on, can take its mutex or run. */
  lemma Unblocked(r: Router, t: Tid) returns (u: Tid)
    requires Inv(r) && Safe(r) && FillOk(r) && t in r.threads && Active(r.threads[t])
    ensures u in r.threads && Active(r.threads[u]) && (r.threads[u].pc.MSpin? ==> r.threads[t].pc.MSpin?)
    ensures CanLock(r, u) || r.threads[u].inside || Wants(r.threads[u].pc).None?
    ensures !CanLock(r, u) && r.threads[u].pc.MReadQpn? ==> HasQp(r.d, r.threads[u].pc.oldConn)
    ensures u == t || !r.threads[u].pc.MSend?
  {
    u := t;
    if Waits(r, t) {
      BlockerRuns(r, t);
      u := r.owner[Wants(r.threads[t].pc).value];
    }
    if !CanLock(r, u) && r.threads[u].pc.MReadQpn? && !HasQp(r.d, r.threads[u].pc.oldConn) {
      assert ThreadOk(r.d, r.threads[u]);
      assert Unfilled(r.d, r.threads[u].key);
      u := r.owner[ConnM(r.threads[u].pc.oldConn)];
    }
  }

  /** Freedom from deadlock: while any handler is unfinished, some handler can take
      its mutex or run. */
  lemma NoDeadlock(rs: seq<Router>, acts: seq<Action>, i: nat, t: Tid) returns (a: Action)
    requires IsPoliteRun(rs, acts) && i < |rs| && t in rs[i].threads && Active(rs[i].threads[t])
    ensures Enabled(rs[i], a) && (a.Lock? || a.Run?)
  {
    RunIsSafe(rs, acts, i);
    RunFills(rs, acts, i);
    var u := Unblocked(rs[i], t);
    if CanLock(rs[i], u) { return Lock(u); }
    var c := RunsNow(rs[i], u, 0, false);
    a := Run(u, c);
  }
}
