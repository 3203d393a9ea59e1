/** No use after release, under the one premise that a client has at most one
    request outstanding per virtual queue pair handle. */
module Safety {
  import opened Types
  import opened Sections
  import opened Machine
  import opened References

  predicate HasHandle(req: Request) {
    req.Modify? || req.Post? || req.Poll? || req.Destroy?
  }

  /** The premise: a request on a handle starts only when the handle's previous one has ended. */
  ghost predicate Polite(r: Router, a: Action) {
    a.Start? && HasHandle(a.req) ==>
      forall t :: t in r.threads && Active(r.threads[t]) && HasHandle(r.threads[t].req) ==>
        r.threads[t].req.h != a.req.h
  }

  ghost predicate OneEach(r: Router) {
    forall t, u :: t in r.threads && u in r.threads && t != u
      && Active(r.threads[t]) && Active(r.threads[u]) && HasHandle(r.threads[t].req) && HasHandle(r.threads[u].req)
      ==> r.threads[t].req.h != r.threads[u].req.h
  }

  /** The handler works for a handle mapped to the key it holds. */
  predicate OnBehalf(pc: Pc) {
    pc.MSend? || pc.MSpin? || pc.MHost2? || pc.MConn? || pc.UHost? || pc.UConn?
  }

  ghost predicate Mapped(d: Shared, th: Thread) {
    HasHandle(th.req) && th.req.h in d.srcQpMap && d.srcQpMap[th.req.h] == th.key
  }

  ghost predicate ThreadSafe(d: Shared, th: Thread) {
    && (OnBehalf(th.pc) ==> Mapped(d, th))
    && (th.pc.MConn? || th.pc.UConn? ==> Published(d, th.key, th.pc.conn))
    && !th.pc.Fault?
  }

  /** Only a handler inside the section of a mutex holds it, or the one that allocated the connection. */
  ghost predicate OwnerOk(r: Router, m: Mutex)
    requires m in r.owner
  {
    var t := r.owner[m];
    && t in r.threads
    && ((r.threads[t].inside && Wants(r.threads[t].pc) == Some(m))
        || (m.ConnM? && NewConn(r.threads[t].pc) == Some(m.conn)))
  }

  ghost predicate OwnersOk(r: Router) {
    forall m :: m in r.owner ==> OwnerOk(r, m)
  }

  ghost predicate Safe(r: Router) {
    && OneEach(r)
    && (forall t :: t in r.threads ==> ThreadSafe(r.d, r.threads[t]))
    && OwnersOk(r)
  }

  // ----- one step -----

  /** No step changes the connection of a key that stays, or the mapping of another handle. */
  ghost predicate Stays(d: Shared, d': Shared, req: Request) {
    && (forall k :: k in d.hostMap && k in d'.hostMap ==> d'.hostMap[k] == d.hostMap[k])
    && (forall h :: h in d.srcQpMap && !(HasHandle(req) && h == req.h) ==>
      h in d'.srcQpMap && d'.srcQpMap[h] == d.srcQpMap[h])
  }

  lemma OthersSafe(d: Shared, d': Shared, req: Request, th: Thread)
    requires ThreadSafe(d, th) && HandlesOk(d) && HandlesOk(d') && Stays(d, d', req)
    requires OnBehalf(th.pc) ==> !(HasHandle(req) && th.req.h == req.h)
    ensures ThreadSafe(d', th)
  {
  }

  /** The moving handler follows no dangling pointer and leaves no section locked. */
  ghost predicate MovesSafely(d: Shared, th: Thread, mv: Move) {
    && mv.Go?
    && ThreadSafe(mv.d, Thread(th.req, mv.key, mv.pc, false))
    && Stays(d, mv.d, th.req)
  }

  lemma JoinMovesSafely(d: Shared, th: Thread, c: Choice)
    requires HostOk(d) && th.req.Modify? && th.pc.MHost?
    ensures MovesSafely(d, th, ModifyMove(d, th, c))
  {
  }

  lemma LaterMovesSafely(d: Shared, th: Thread, c: Choice)
    requires HandlesOk(d) && HostOk(d) && ThreadSafe(d, th) && th.req.Modify? && OnBehalf(th.pc)
    requires RequestOk(d.gid, th)
    ensures MovesSafely(d, th, ModifyMove(d, th, c))
  {
    assert KeyReady(d, d.srcQpMap[th.req.h]);
  }

  lemma ModifyMovesSafely(d: Shared, th: Thread, c: Choice)
    requires HostOk(d) && HandlesOk(d) && ThreadOk(d, th) && RequestOk(d.gid, th) && ThreadSafe(d, th)
    requires th.req.Modify? && Active(th) && Admits(d, th, c)
    ensures MovesSafely(d, th, ModifyMove(d, th, c))
  {
    if th.pc.MHost? { JoinMovesSafely(d, th, c); } else if OnBehalf(th.pc) { LaterMovesSafely(d, th, c); }
  }

  lemma UseMovesSafely(d: Shared, th: Thread, c: Choice)
    requires HostOk(d) && HandlesOk(d) && ThreadOk(d, th) && RequestOk(d.gid, th) && ThreadSafe(d, th)
    requires (th.req.Post? || th.req.Poll?) && Active(th)
    ensures MovesSafely(d, th, UseMove(d, th, c))
  {
    if OnBehalf(th.pc) { assert KeyReady(d, d.srcQpMap[th.req.h]); }
  }

  lemma DestroyMovesSafely(d: Shared, th: Thread)
    requires HostOk(d) && HandlesOk(d) && ThreadOk(d, th) && RequestOk(d.gid, th) && ThreadSafe(d, th)
    requires th.req.Destroy? && Active(th)
    ensures MovesSafely(d, th, DestroyMove(d, th))
  {
  }

  lemma MemoryMovesSafely(d: Shared, th: Thread, c: Choice)
    requires RequestOk(d.gid, th) && (th.req.RegMr? || th.req.DeregMr?) && Active(th)
    ensures MovesSafely(d, th, MoveOf(d, th, c))
  {
  }

  lemma AllMoveSafely(d: Shared, th: Thread, c: Choice)
    requires HostOk(d) && HandlesOk(d) && ThreadOk(d, th) && RequestOk(d.gid, th) && ThreadSafe(d, th)
    requires Active(th) && Admits(d, th, c)
    ensures MovesSafely(d, th, MoveOf(d, th, c))
  {
    if th.req.Modify? { ModifyMovesSafely(d, th, c); }
    else if th.req.Destroy? { DestroyMovesSafely(d, th); }
    else if th.req.Post? || th.req.Poll? { UseMovesSafely(d, th, c); }
    else { MemoryMovesSafely(d, th, c); }
  }

  lemma OwnersAfterGo(r: Router, t: Tid, mv: Move)
    requires OwnersOk(r) && LocksOk(r) && t in r.threads && mv.Go?
    requires r.threads[t].inside || Wants(r.threads[t].pc).None?
    requires NewConn(mv.pc).Some? && NewConn(r.threads[t].pc).Some? ==> NewConn(mv.pc) == NewConn(r.threads[t].pc)
    ensures OwnersOk(Apply(r, t, mv))
  {
    var r' := Apply(r, t, mv);
    assert HoldingOk(r, t);
    forall m | m in r'.owner ensures OwnerOk(r', m) {
      if m in r.owner { assert OwnerOk(r, m); }
    }
  }

  lemma NewConnKept(d: Shared, th: Thread, c: Choice)
    requires RequestOk(d.gid, th) && MoveOf(d, th, c).Go?
    ensures var mv := MoveOf(d, th, c);
      NewConn(mv.pc).Some? && NewConn(th.pc).Some? ==> NewConn(mv.pc) == NewConn(th.pc)
  {
  }

  lemma RunSafe(r: Router, t: Tid, c: Choice)
    requires Inv(r) && Safe(r) && CanRun(r, t, c) && Inv(RunStep(r, t, c))
    ensures Safe(RunStep(r, t, c))
  {
    var th := r.threads[t];
    var r' := RunStep(r, t, c);
    assert ThreadOk(r.d, th) && RequestOk(r.d.gid, th) && ThreadSafe(r.d, th);
    AllMoveSafely(r.d, th, c);
    var mv := MoveOf(r.d, th, c);
    NewConnKept(r.d, th, c);
    OwnersAfterGo(r, t, mv);
    GoKeepsThreadsSafe(r, t, mv);
  }

  lemma GoKeepsThreadsSafe(r: Router, t: Tid, mv: Move)
    requires Safe(r) && HandlesOk(r.d) && t in r.threads && MovesSafely(r.d, r.threads[t], mv) && HandlesOk(mv.d)
    requires Active(r.threads[t])
    ensures forall u :: u in Apply(r, t, mv).threads ==> ThreadSafe(mv.d, Apply(r, t, mv).threads[u])
  {
    var r' := Apply(r, t, mv);
    forall u | u in r'.threads ensures ThreadSafe(mv.d, r'.threads[u]) {
      if u != t {
        assert ThreadSafe(r.d, r.threads[u]);
        OthersSafe(r.d, mv.d, r.threads[t].req, r.threads[u]);
      }
    }
  }

  lemma LockSafe(r: Router, t: Tid)
    requires Inv(r) && Safe(r) && CanLock(r, t)
    ensures Safe(LockStep(r, t)) && LockStep(r, t).threads[t].inside
  {
    var th := r.threads[t];
    var r' := LockStep(r, t);
    assert ThreadSafe(r.d, th) && ThreadOk(r.d, th);
    if OnBehalf(th.pc) { assert KeyReady(r.d, r.d.srcQpMap[th.req.h]); }
    forall m | m in r'.owner ensures OwnerOk(r', m) {
      if m in r.owner { assert OwnerOk(r, m); }
    }
  }

  lemma StartSafe(r: Router, t: Tid, req: Request)
    requires Safe(r) && t !in r.threads && Polite(r, Start(t, req))
    ensures Safe(StartStep(r, t, req))
  {
    var r' := StartStep(r, t, req);
    assert OwnersOk(r') by {
      forall m | m in r'.owner ensures OwnerOk(r', m) { assert OwnerOk(r, m); }
    }
    assert OneEach(r') by { assert OneEach(r); }
    forall u | u in r'.threads ensures ThreadSafe(r'.d, r'.threads[u]) {
      if u != t { assert ThreadSafe(r.d, r.threads[u]); }
    }
  }

  lemma DataSafe(r: Router, r': Router)
    requires Safe(r) && r'.threads == r.threads && r'.owner == r.owner
    requires r'.d.hostMap == r.d.hostMap && r'.d.srcQpMap == r.d.srcQpMap
    ensures Safe(r')
  {
    forall m | m in r'.owner ensures OwnerOk(r', m) { assert OwnerOk(r, m); }
    forall u | u in r'.threads ensures ThreadSafe(r'.d, r'.threads[u]) { assert ThreadSafe(r.d, r.threads[u]); }
  }

  lemma StepSafe(r: Router, a: Action)
    requires Inv(r) && Safe(r) && Enabled(r, a) && Polite(r, a) && Inv(Next(r, a))
    ensures Safe(Next(r, a))
  {
    match a
    case Start(t, req) => StartSafe(r, t, req);
    case Lock(t) => LockSafe(r, t);
    case Run(t, c) => RunSafe(r, t, c);
    case Hardware(p, kind, ok) => DataSafe(r, CompleteStep(r, p, kind, ok));
    case Receive(m) => DataSafe(r, RecvStep(r, m));
  }

  // ----- the theorem -----

  /** Runs in which clients keep to one request per handle and no count overflows. */
  ghost predicate IsPoliteRun(rs: seq<Router>, acts: seq<Action>) {
    && IsRun(rs, acts)
    && (forall i {:trigger Fits(rs[i])} :: 0 <= i < |rs| ==> Fits(rs[i]))
    && (forall i {:trigger Polite(rs[i], acts[i])} :: 0 <= i < |acts| ==> Polite(rs[i], acts[i]))
  }

  lemma SafeNext(rs: seq<Router>, acts: seq<Action>, i: nat)
    requires IsPoliteRun(rs, acts) && i < |acts| && Inv(rs[i]) && Safe(rs[i]) && Inv(rs[i + 1])
    ensures Safe(rs[i + 1])
  {
    assert Polite(rs[i], acts[i]) && StepAt(rs, acts, i);
    StepSafe(rs[i], acts[i]);
  }

  lemma {:induction false} RunIsSafe(rs: seq<Router>, acts: seq<Action>, i: nat)
    requires IsPoliteRun(rs, acts) && i < |rs|
    ensures Inv(rs[i]) && Safe(rs[i])
  {
    RunKeeps(rs, acts, i);
    if i > 0 {
      RunIsSafe(rs, acts, i - 1);
      SafeNext(rs, acts, i - 1);
    }
  }

  /** The connections a handler holds a pointer to. */
  function Pointers(pc: Pc): set<Ptr> {
    match pc
    case MHost(p) => {p}
    case MCreate(p) => {p}
    case MDiscard(p, joined) => {p, joined}
    case MReadQpn(joined) => {joined}
    case MConn(_, p) => {p}
    case UConn(_, p) => {p}
    case DConn(p) => {p}
    case _ => {}
  }

  lemma PointersDiffer(r: Router, t: Tid, u: Tid)
    requires Inv(r) && Safe(r) && t in r.threads && u in r.threads && t != u && r.threads[t].pc.DConn?
    ensures r.threads[t].pc.conn !in Pointers(r.threads[u].pc)
  {
    assert ThreadOk(r.d, r.threads[t]) && ThreadOk(r.d, r.threads[u]) && ThreadSafe(r.d, r.threads[u]);
  }

  /** No use after release. Every pointer a handler holds is to a live connection;
      a handler that serves a mapped handle finds the handle's key in `host_map`,
      and the connection it locks is the one of that key; and the connection a
      handler is about to free is out of `host_map` and no other handler points to it. */
  lemma NoUseAfterRelease(rs: seq<Router>, acts: seq<Action>, i: nat, t: Tid)
    requires IsPoliteRun(rs, acts) && i < |rs| && t in rs[i].threads
    ensures var d, th := rs[i].d, rs[i].threads[t];
      && !th.pc.Fault?
      && (forall p :: p in Pointers(th.pc) ==> p != NULL && p in d.conns)
      && (th.pc.MHost2? || th.pc.UHost? || th.pc.DHost? ==> LookupHost(d, th.key).Found?)
      && (th.pc.MConn? || th.pc.UConn? ==>
            && HasHandle(th.req) && th.req.h in d.srcQpMap && d.srcQpMap[th.req.h] in d.hostMap
            && d.hostMap[d.srcQpMap[th.req.h]] == th.pc.conn && HasQp(d, th.pc.conn))
      && (th.pc.DConn? ==>
            && HasQp(d, th.pc.conn)
            && (forall k :: k in d.hostMap ==> d.hostMap[k] != th.pc.conn)
            && (forall u :: u in rs[i].threads && u != t ==> th.pc.conn !in Pointers(rs[i].threads[u].pc)))
  {
    RunIsSafe(rs, acts, i);
    var r := rs[i];
    var th := r.threads[t];
    assert ThreadOk(r.d, th) && ThreadSafe(r.d, th) && RequestOk(r.d.gid, th);
    if OnBehalf(th.pc) { assert KeyReady(r.d, r.d.srcQpMap[th.req.h]); }
    if th.pc.DConn? {
      forall u | u in r.threads && u != t ensures th.pc.conn !in Pointers(r.threads[u].pc) { PointersDiffer(r, t, u); }
    }
  }
}
