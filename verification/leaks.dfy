/** No connection leaks: each one is in host_map, private to a handler that will publish or
    free it, or about to be freed by a handler. */
module Leaks {
  import opened Types
  import opened Sections
  import opened Machine
  import opened References

  /** The handler has the connection to itself and will publish or free it. */
  predicate Keeps(pc: Pc, p: Ptr) {
    pc == MHost(p) || (pc.MDiscard? && pc.newConn == p) || pc == DConn(p)
  }

  predicate InHostMap(d: Shared, p: Ptr) {
    p in d.conns && d.conns[p].key in d.hostMap && d.hostMap[d.conns[p].key] == p
  }

  ghost predicate Kept(r: Router, p: Ptr) {
    exists t :: t in r.threads && Keeps(r.threads[t].pc, p)
  }

  predicate KeptBy(r: Router, p: Ptr, t: Tid) {
    t in r.threads && Keeps(r.threads[t].pc, p)
  }

  ghost predicate Accounted(r: Router, p: Ptr) {
    p in r.d.conns ==> InHostMap(r.d, p) || Kept(r, p)
  }

  lemma StillKept(r: Router, r': Router, t: Tid, p: Ptr)
    requires Kept(r, p) && t in r.threads && t in r'.threads && r'.threads == r.threads[t := r'.threads[t]]
    requires Keeps(r.threads[t].pc, p) ==> Keeps(r'.threads[t].pc, p)
    ensures Kept(r', p)
  {
    var u :| u in r.threads && Keeps(r.threads[u].pc, p);
    assert Keeps(r'.threads[u].pc, p);
  }

  lemma JoinPlace(d: Shared, key: HostKey, q: Ptr, p: Ptr)
    requires HostOk(d) && Private(d, q) && d.conns[q].key == key && p in d.conns
    ensures var (d', joined) := JoinHost(d, key, q);
      && (InHostMap(d, p) ==> InHostMap(d', p)) && (p == q ==> InHostMap(d', p) || joined != NULL)
  {
  }

  /** What a handler of IBV_MODIFY_QP does to the place of a connection. */
  lemma ModifyPlace(d: Shared, th: Thread, c: Choice, p: Ptr)
    requires HostOk(d) && ThreadOk(d, th) && th.req.Modify? && Admits(d, th, c) && ModifyMove(d, th, c).Go?
    requires p in ModifyMove(d, th, c).d.conns
    ensures var mv := ModifyMove(d, th, c);
      if p !in d.conns then Keeps(mv.pc, p)
      else (InHostMap(d, p) ==> InHostMap(mv.d, p)) && (Keeps(th.pc, p) ==> InHostMap(mv.d, p) || Keeps(mv.pc, p))
  {
    if th.pc.MHost? && p in d.conns { JoinPlace(d, th.key, th.pc.newConn, p); }
  }

  lemma DropPlace(d: Shared, key: HostKey, p: Ptr)
    requires HostOk(d) && KeyReady(d, key) && InHostMap(d, p)
    ensures InHostMap(DropRef(d, key).0, p) || DropRef(d, key).1 == Erased(p)
  {
  }

  lemma DestroyPlace(d: Shared, th: Thread, p: Ptr)
    requires HostOk(d) && ThreadOk(d, th) && RequestOk(d.gid, th) && th.req.Destroy? && DestroyMove(d, th).Go?
    requires p in DestroyMove(d, th).d.conns
    ensures var mv := DestroyMove(d, th);
      p in d.conns && !Keeps(th.pc, p) && (InHostMap(d, p) ==> InHostMap(mv.d, p) || Keeps(mv.pc, p))
  {
    if th.pc.DHost? {
      DropShape(d, th.key);
      if InHostMap(d, p) { DropPlace(d, th.key, p); }
    }
  }

  lemma OtherPlace(d: Shared, th: Thread, c: Choice, p: Ptr)
    requires RequestOk(d.gid, th) && !th.req.Modify? && !th.req.Destroy? && MoveOf(d, th, c).Go?
    ensures var d' := MoveOf(d, th, c).d;
      (p in d'.conns ==> p in d.conns) && !Keeps(th.pc, p) && (InHostMap(d, p) ==> InHostMap(d', p))
  {
    if th.req.Post? || th.req.Poll? { UsePlace(d, th, c, p); }
  }

  lemma UsePlace(d: Shared, th: Thread, c: Choice, p: Ptr)
    requires (th.req.Post? || th.req.Poll?) && UseMove(d, th, c).Go?
    ensures var d' := UseMove(d, th, c).d;
      (p in d'.conns ==> p in d.conns) && (InHostMap(d, p) ==> InHostMap(d', p))
  {
  }

  /** A handler that has a connection to itself is never lost. */
  lemma KeeperGoes(d: Shared, th: Thread, c: Choice, p: Ptr)
    requires HostOk(d) && ThreadOk(d, th) && RequestOk(d.gid, th) && Keeps(th.pc, p)
    ensures MoveOf(d, th, c).Go?
  {
  }

  /** Where a connection is after a move, by where it was. */
  lemma MovePlace(d: Shared, th: Thread, c: Choice, p: Ptr)
    requires HostOk(d) && ThreadOk(d, th) && RequestOk(d.gid, th) && Admits(d, th, c) && MoveOf(d, th, c).Go?
    requires p in MoveOf(d, th, c).d.conns
    ensures var mv := MoveOf(d, th, c);
      if p !in d.conns then Keeps(mv.pc, p)
      else InHostMap(d, p) || Keeps(th.pc, p) ==> InHostMap(mv.d, p) || Keeps(mv.pc, p)
  {
    if th.req.Modify? { ModifyPlace(d, th, c, p); }
    else if th.req.Destroy? { DestroyPlace(d, th, p); }
    else { OtherPlace(d, th, c, p); }
  }

  lemma RunAccounts(r: Router, t: Tid, c: Choice, p: Ptr)
    requires Inv(r) && CanRun(r, t, c) && Accounted(r, p)
    ensures Accounted(RunStep(r, t, c), p)
  {
    var th, r' := r.threads[t], RunStep(r, t, c);
    assert ThreadOk(r.d, th) && RequestOk(r.d.gid, th);
    if Keeps(th.pc, p) { KeeperGoes(r.d, th, c, p); }
    if p in r'.d.conns && MoveOf(r.d, th, c).Go? { MovePlace(r.d, th, c, p); }
    if Keeps(r'.threads[t].pc, p) { assert Kept(r', p); }
    else if Kept(r, p) && !Keeps(th.pc, p) { StillKept(r, r', t, p); }
  }

  lemma LockAccounts(r: Router, t: Tid, p: Ptr)
    requires Inv(r) && CanLock(r, t) && Accounted(r, p)
    ensures Accounted(LockStep(r, t), p)
  {
    assert ThreadOk(r.d, r.threads[t]) && RequestOk(r.d.gid, r.threads[t]);
    if Kept(r, p) { StillKept(r, LockStep(r, t), t, p); }
  }

  lemma StepAccounts(r: Router, a: Action, p: Ptr)
    requires Inv(r) && Enabled(r, a) && Accounted(r, p)
    ensures Accounted(Next(r, a), p)
  {
    match a
    case Run(t, c) => RunAccounts(r, t, c, p);
    case Lock(t) => LockAccounts(r, t, p);
    case Start(t, req) => SameKeepers(r, Next(r, a), p);
    case Hardware(q, kind, ok) => SameKeepers(r, Next(r, a), p);
    case Receive(m) => SameKeepers(r, Next(r, a), p);
  }

  lemma SameKeepers(r: Router, r': Router, p: Ptr)
    requires Accounted(r, p) && r'.d.hostMap == r.d.hostMap && r'.d.conns.Keys == r.d.conns.Keys
    requires forall q :: q in r.d.conns ==> r'.d.conns[q].key == r.d.conns[q].key
    requires forall t :: t in r.threads ==> t in r'.threads && r'.threads[t] == r.threads[t]
    ensures Accounted(r', p)
  {
    if Kept(r, p) {
      var t :| t in r.threads && Keeps(r.threads[t].pc, p);
      assert Keeps(r'.threads[t].pc, p);
    }
  }

  lemma {:induction false} RunAccountsAll(rs: seq<Router>, acts: seq<Action>, i: nat, p: Ptr)
    requires IsRun(rs, acts) && i < |rs|
    requires forall m {:trigger Fits(rs[m])} :: 0 <= m < |rs| ==> Fits(rs[m])
    ensures Accounted(rs[i], p)
  {
    if i > 0 {
      RunAccountsAll(rs, acts, i - 1, p);
      RunKeeps(rs, acts, i - 1);
      assert StepAt(rs, acts, i - 1);
      StepAccounts(rs[i - 1], acts[i - 1], p);
    }
  }

  lemma OneKeeper(r: Router, p: Ptr, t: Tid, u: Tid)
    requires Inv(r) && t in r.threads && u in r.threads && Keeps(r.threads[t].pc, p) && Keeps(r.threads[u].pc, p)
    ensures t == u
  {
    assert ThreadOk(r.d, r.threads[t]) && ThreadOk(r.d, r.threads[u]);
    if t != u && NewConn(r.threads[t].pc).Some? { NewConnsDiffer(r, t, u); }
  }

  lemma KeeperAlone(r: Router, p: Ptr, t: Tid)
    requires Inv(r) && t in r.threads && Keeps(r.threads[t].pc, p)
    ensures p in r.d.conns && !InHostMap(r.d, p)
  {
    assert ThreadOk(r.d, r.threads[t]);
  }

  /** In every run: a live connection is in host_map under its own key, or exactly one handler has
      it to itself, as the one that allocated it and will publish or free it, or as the one that
      erased its key and will free it. It is never both. */
  lemma NoConnectionLeaks(rs: seq<Router>, acts: seq<Action>, i: nat, p: Ptr)
    requires IsRun(rs, acts) && i < |rs| && p in rs[i].d.conns
    requires forall m {:trigger Fits(rs[m])} :: 0 <= m < |rs| ==> Fits(rs[m])
    ensures InHostMap(rs[i].d, p) <==> !Kept(rs[i], p)
    ensures forall t, u :: KeptBy(rs[i], p, t) && KeptBy(rs[i], p, u) ==> t == u
  {
    RunAccountsAll(rs, acts, i, p);
    RunKeeps(rs, acts, i);
    var r := rs[i];
    if Kept(r, p) {
      var t :| t in r.threads && Keeps(r.threads[t].pc, p);
      KeeperAlone(r, p, t);
    }
    forall t, u | KeptBy(r, p, t) && KeptBy(r, p, u) ensures t == u {
      OneKeeper(r, p, t, u);
    }
  }
}
