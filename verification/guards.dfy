/** Every section touches only what its mutex protects, which is why `Machine` may take a section as
    one step. */
module Guards {
  import opened Types
  import opened Sections
  import opened Machine
  import opened References
  import opened Frames

  // ----- writes -----

  /** The handler runs a section of this mutex. */
  predicate Under(th: Thread, m: Mutex) { Wants(th.pc) == Some(m) }

  /** The handler runs a section of the connection's mutex, or has held it since it allocated it. */
  predicate OwnsConn(th: Thread, p: Ptr) { Under(th, ConnM(p)) || NewConn(th.pc) == Some(p) }

  /** What one step may write. */
  ghost predicate WritesOwn(d: Shared, d': Shared, th: Thread) {
    && (d'.hostMap != d.hostMap ==> Under(th, HostMapM))
    && (d'.srcQpMap != d.srcQpMap ==> Under(th, SrcQpM))
    && (d'.lkeyOffsetMap != d.lkeyOffsetMap ==> Under(th, LkeyM))
    && d'.dstQpMap == d.dstQpMap
    && (forall p :: p in d.conns && p in d'.conns ==>
          && (d'.conns[p].refCnt != d.conns[p].refCnt ==> Under(th, HostMapM))
          && (d'.conns[p].qp != d.conns[p].qp || d'.conns[p].status != d.conns[p].status ==> OwnsConn(th, p))
          && d'.conns[p].key == d.conns[p].key)
    && (forall p :: p in d.conns && p !in d'.conns ==> OwnsConn(th, p))
  }

  lemma SetWrites(d: Shared, th: Thread, p: Ptr, conn: Conn)
    requires p in d.conns && conn.key == d.conns[p].key && conn.refCnt == d.conns[p].refCnt && OwnsConn(th, p)
    ensures WritesOwn(d, SetConn(d, p, conn), th)
  {
  }

  lemma CountWrites(d: Shared, th: Thread, p: Ptr, n: nat, hosts: map<HostKey, Ptr>)
    requires p in d.conns && Under(th, HostMapM)
    ensures WritesOwn(d, SetCount(d, p, n).(hostMap := hosts), th)
  {
  }

  lemma PublishWrites(d: Shared, th: Thread, hosts: map<HostKey, Ptr>)
    requires Under(th, HostMapM)
    ensures WritesOwn(d, d.(hostMap := hosts), th)
  {
  }

  lemma FreeWrites(d: Shared, th: Thread, p: Ptr)
    requires OwnsConn(th, p)
    ensures WritesOwn(d, FreeConn(d, p), th)
  {
  }

  lemma JoinWrites(d: Shared, th: Thread, p: Ptr)
    requires LiveOrNull(d, th.key) && Under(th, HostMapM)
    ensures WritesOwn(d, JoinHost(d, th.key, p).0, th)
  {
    if th.key in d.hostMap && d.hostMap[th.key] != NULL {
      var q := d.hostMap[th.key];
      CountWrites(d, th, q, Incremented(d.conns[q].refCnt), d.hostMap);
    } else {
      PublishWrites(d, th, d.hostMap[th.key := p]);
    }
  }

  lemma CreateWrites(d: Shared, th: Thread, p: Ptr, qpn: Qpn)
    requires p in d.conns && OwnsConn(th, p)
    ensures WritesOwn(d, CreateQp(d, p, qpn), th)
  {
    SetWrites(d, th, p, CreateQp(d, p, qpn).conns[p]);
  }

  lemma ModifyWrites(d: Shared, th: Thread, c: Choice)
    requires th.req.Modify? && Admits(d, th, c) && ModifyMove(d, th, c).Go?
    ensures WritesOwn(d, ModifyMove(d, th, c).d, th)
  {
    match th.pc
    case MHost(p) => JoinWrites(d, th, p);
    case MCreate(p) => CreateWrites(d, th, p, c.qpn);
    case MDiscard(p, joined) => FreeWrites(d, th, p);
    case MConn(q, p) => SetWrites(d, th, p, MakeReady(d.conns[p], q, c.reach));
    case _ =>
  }

  lemma DropWrites(d: Shared, th: Thread)
    requires LiveOrNull(d, th.key) && Under(th, HostMapM)
    ensures WritesOwn(d, DropRef(d, th.key).0, th)
  {
    if th.key in d.hostMap && d.hostMap[th.key] != NULL {
      var p := d.hostMap[th.key];
      CountWrites(d, th, p, Decremented(d.conns[p].refCnt), DropRef(d, th.key).0.hostMap);
    }
  }

  lemma DestroyWrites(d: Shared, th: Thread)
    requires th.req.Destroy? && DestroyMove(d, th).Go?
    ensures WritesOwn(d, DestroyMove(d, th).d, th)
  {
    match th.pc
    case DHost => DropWrites(d, th);
    case DConn(p) => FreeWrites(d, th, p);
    case _ =>
  }

  lemma UseWrites(d: Shared, th: Thread, c: Choice)
    requires (th.req.Post? || th.req.Poll?) && UseMove(d, th, c).Go?
    ensures WritesOwn(d, UseMove(d, th, c).d, th)
  {
    if th.pc.UConn? {
      var p := th.pc.conn;
      var q := UseQp(d.conns[p].qp.value, th.pc.use, th.req, c.ok).0;
      SetWrites(d, th, p, d.conns[p].(qp := Some(q)));
    } else {
      UseFrame(d, th, c);
    }
  }

  lemma MemoryWrites(d: Shared, th: Thread, c: Choice)
    requires (th.req.RegMr? || th.req.DeregMr?) && MoveOf(d, th, c).Go?
    ensures WritesOwn(d, MoveOf(d, th, c).d, th)
  {
    MemoryFrame(d, th, c);
  }

  lemma MoveWrites(d: Shared, th: Thread, c: Choice)
    requires Admits(d, th, c) && MoveOf(d, th, c).Go?
    ensures WritesOwn(d, MoveOf(d, th, c).d, th)
  {
    if th.req.Modify? { ModifyWrites(d, th, c); }
    else if th.req.Destroy? { DestroyWrites(d, th); }
    else if th.req.Post? || th.req.Poll? { UseWrites(d, th, c); }
    else { MemoryWrites(d, th, c); }
  }

  /** In every run a handler writes a map only while it holds the map's mutex, and the queue pair and
      status of a connection only while it holds the connection's; it counts references only under
      the mutex of host_map, and frees a connection only if it holds it. */
  lemma WritesGuarded(rs: seq<Router>, acts: seq<Action>, i: nat)
    requires IsRun(rs, acts) && i < |acts| && acts[i].Run?
    requires forall j {:trigger Fits(rs[j])} :: 0 <= j < |rs| ==> Fits(rs[j])
    ensures var r, t := rs[i], acts[i].t;
      && t in r.threads && WritesOwn(r.d, rs[i + 1].d, r.threads[t])
      && (forall m :: Under(r.threads[t], m) ==> Holds(r, m, t))
      && (forall p :: OwnsConn(r.threads[t], p) ==> Holds(r, ConnM(p), t))
  {
    RunKeeps(rs, acts, i);
    assert StepAt(rs, acts, i);
    RunWrites(rs[i], acts[i].t, acts[i].c);
    HoldsIts(rs[i], acts[i].t, acts[i].c);
  }

  lemma RunWrites(r: Router, t: Tid, c: Choice)
    requires CanRun(r, t, c)
    ensures WritesOwn(r.d, RunStep(r, t, c).d, r.threads[t])
  {
    if MoveOf(r.d, r.threads[t], c).Go? { MoveWrites(r.d, r.threads[t], c); }
  }

  lemma HoldsIts(r: Router, t: Tid, c: Choice)
    requires LocksOk(r) && CanRun(r, t, c)
    ensures forall m :: Under(r.threads[t], m) ==> Holds(r, m, t)
    ensures forall p :: OwnsConn(r.threads[t], p) ==> Holds(r, ConnM(p), t)
  {
    assert HoldingOk(r, t);
  }

  // ----- reads -----

  /** The data without the maps whose mutexes the handler does not hold. */
  function Visible(d: Shared, th: Thread): Shared {
    d.(hostMap := if Under(th, HostMapM) then d.hostMap else map[],
       srcQpMap := if Under(th, SrcQpM) then d.srcQpMap else map[],
       dstQpMap := if Under(th, DstQpM) then d.dstQpMap else map[],
       lkeyOffsetMap := if Under(th, LkeyM) then d.lkeyOffsetMap else map[])
  }

  /** The same step, seen without those maps. */
  predicate SameStep(mv: Move, seen: Move, th: Thread) {
    seen == if mv.Go? then Go(Visible(mv.d, th), mv.key, mv.pc) else mv
  }

  lemma JoinReads(d: Shared, th: Thread, c: Choice)
    requires th.req.Modify? && (th.pc.MHost? || th.pc.MHost2?)
    ensures SameStep(ModifyMove(d, th, c), ModifyMove(Visible(d, th), th, c), th)
  {
    assert Under(th, HostMapM);
  }

  lemma ConnReads(d: Shared, th: Thread, c: Choice)
    requires th.req.Modify? && (th.pc.MAlloc? || th.pc.MCreate? || th.pc.MDiscard? || th.pc.MReadQpn? || th.pc.MConn?)
    ensures SameStep(ModifyMove(d, th, c), ModifyMove(Visible(d, th), th, c), th)
  {
    assert Visible(d, th) == d.(hostMap := map[], srcQpMap := map[], dstQpMap := map[], lkeyOffsetMap := map[]);
  }

  lemma ModifyReads(d: Shared, th: Thread, c: Choice)
    requires th.req.Modify?
    ensures SameStep(ModifyMove(d, th, c), ModifyMove(Visible(d, th), th, c), th)
  {
    match th.pc
    case MHost(_) => JoinReads(d, th, c);
    case MHost2(_) => JoinReads(d, th, c);
    case MAlloc => ConnReads(d, th, c);
    case MCreate(_) => ConnReads(d, th, c);
    case MDiscard(_, _) => ConnReads(d, th, c);
    case MReadQpn(_) => ConnReads(d, th, c);
    case MConn(_, _) => ConnReads(d, th, c);
    case _ =>
  }

  lemma DropReads(d: Shared, th: Thread)
    requires th.req.Destroy? && th.pc.DHost?
    ensures SameStep(DestroyMove(d, th), DestroyMove(Visible(d, th), th), th)
  {
    assert Under(th, HostMapM);
  }

  lemma UnmapReads(d: Shared, th: Thread)
    requires th.req.Destroy? && th.pc.DSrc?
    ensures SameStep(DestroyMove(d, th), DestroyMove(Visible(d, th), th), th)
  {
    assert Under(th, SrcQpM);
  }

  lemma DestroyReads(d: Shared, th: Thread)
    requires th.req.Destroy?
    ensures SameStep(DestroyMove(d, th), DestroyMove(Visible(d, th), th), th)
  {
    match th.pc
    case DSrc => UnmapReads(d, th);
    case DHost => DropReads(d, th);
    case _ =>
  }

  lemma UseReads(d: Shared, th: Thread, c: Choice)
    requires th.req.Post? || th.req.Poll?
    ensures SameStep(UseMove(d, th, c), UseMove(Visible(d, th), th, c), th)
  {
  }

  lemma MemoryReads(d: Shared, th: Thread, c: Choice)
    requires th.req.RegMr? || th.req.DeregMr?
    ensures SameStep(MoveOf(d, th, c), MoveOf(Visible(d, th), th, c), th)
  {
  }

  lemma StepReads(d: Shared, th: Thread, c: Choice)
    ensures SameStep(MoveOf(d, th, c), MoveOf(Visible(d, th), th, c), th)
  {
    if th.req.Modify? { ModifyReads(d, th, c); }
    else if th.req.Destroy? { DestroyReads(d, th); }
    else if th.req.Post? || th.req.Poll? { UseReads(d, th, c); }
    else { MemoryReads(d, th, c); }
  }

  /** What a handler does depends on a map only if it holds the map's mutex: over data that differ in
      other maps alone it goes on in the same way and writes the same. */
  lemma ReadsGuarded(d: Shared, e: Shared, th: Thread, c: Choice)
    requires Visible(d, th) == Visible(e, th)
    ensures var mv, mw := MoveOf(d, th, c), MoveOf(e, th, c);
      && (mv.Go? <==> mw.Go?) && (!mv.Go? ==> mw == mv)
      && (mv.Go? ==> mv.key == mw.key && mv.pc == mw.pc && Visible(mv.d, th) == Visible(mw.d, th))
  {
    StepReads(d, th, c);
    StepReads(e, th, c);
  }
}
