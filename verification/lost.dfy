/** References that are never given back: modifying a handle again loses the reference of
    its earlier mapping, and a lost reference keeps the connection for good. */
module Lost {
  import opened Types
  import opened Sections
  import opened Machine
  import opened References
  import opened Frames
  import opened Scenarios

  // ----- which requests lose a reference -----

  /** At step `m` an IBV_MODIFY_QP maps a handle that is mapped to `k` already. */
  predicate Remaps(r: Router, a: Action, k: HostKey) {
    && a.Run? && a.t in r.threads && r.threads[a.t].req.Modify? && r.threads[a.t].pc.MSrc?
    && r.threads[a.t].req.h in r.d.srcQpMap && r.d.srcQpMap[r.threads[a.t].req.h] == k
  }

  lemma MoveOrphans(d: Shared, th: Thread, c: Choice)
    requires MoveOf(d, th, c).Go?
    ensures MoveOf(d, th, c).d.orphans ==
      if th.req.Modify? && th.pc.MSrc? then MapHandle(d, th.req.h, th.key).orphans else d.orphans
  {
    if th.req.Modify? {
      if th.pc.MHost? && LiveOrNull(d, th.key) { JoinFrame(d, th.key, th.pc.newConn); }
    } else if th.req.Destroy? { DestroyFrame(d, th); }
    else { OtherFrame(d, th, c); }
  }

  lemma StepOrphans(r: Router, a: Action, k: HostKey)
    requires Enabled(r, a)
    ensures Next(r, a).d.orphans[k] == r.d.orphans[k] + if Remaps(r, a, k) then 1 else 0
  {
    match a
    case Run(t, c) => if MoveOf(r.d, r.threads[t], c).Go? { MoveOrphans(r.d, r.threads[t], c); }
    case _ =>
  }

  ghost predicate RemappedBefore(rs: seq<Router>, acts: seq<Action>, i: nat, k: HostKey)
    requires IsRun(rs, acts) && i < |rs|
  {
    exists m :: 0 <= m < i && Remaps(rs[m], acts[m], k)
  }

  lemma RemappedNext(rs: seq<Router>, acts: seq<Action>, i: nat, k: HostKey)
    requires IsRun(rs, acts) && 0 < i < |rs|
    ensures RemappedBefore(rs, acts, i, k) <==> RemappedBefore(rs, acts, i - 1, k) || Remaps(rs[i - 1], acts[i - 1], k)
  {
  }

  /** References to a key are lost exactly by IBV_MODIFY_QP on handles mapped to it. */
  lemma {:induction false} LostIff(rs: seq<Router>, acts: seq<Action>, i: nat, k: HostKey)
    requires IsRun(rs, acts) && i < |rs|
    ensures rs[i].d.orphans[k] > 0 <==> RemappedBefore(rs, acts, i, k)
  {
    if i > 0 {
      LostIff(rs, acts, i - 1, k);
      RemappedNext(rs, acts, i, k);
      assert StepAt(rs, acts, i - 1);
      StepOrphans(rs[i - 1], acts[i - 1], k);
    }
  }

  lemma {:induction false} LostStays(rs: seq<Router>, acts: seq<Action>, i: nat, j: nat, k: HostKey)
    requires IsRun(rs, acts) && i <= j < |rs|
    ensures rs[i].d.orphans[k] <= rs[j].d.orphans[k]
    decreases j
  {
    if i < j {
      LostStays(rs, acts, i, j - 1, k);
      assert StepAt(rs, acts, j - 1);
      StepOrphans(rs[j - 1], acts[j - 1], k);
    }
  }

  /** Once an IBV_MODIFY_QP has mapped a handle that was mapped to `k`, the key is in host_map and
      its connection alive in every later state, whatever is destroyed. */
  lemma NeverReleased(rs: seq<Router>, acts: seq<Action>, i: nat, j: nat, k: HostKey)
    requires IsRun(rs, acts) && i < j < |rs| && Remaps(rs[i], acts[i], k)
    requires forall m {:trigger Fits(rs[m])} :: 0 <= m < |rs| ==> Fits(rs[m])
    ensures k in rs[j].d.hostMap && rs[j].d.hostMap[k] in rs[j].d.conns && rs[j].d.conns[rs[j].d.hostMap[k]].refCnt > 0
  {
    LostIff(rs, acts, j, k);
    ReferenceCounting(rs, acts, j, k);
  }

  /** When no handle is mapped to `k` and no handler is between its sections, the key is still
      there if and only if some IBV_MODIFY_QP mapped a handle that was mapped to it already. */
  lemma LeftOverIff(rs: seq<Router>, acts: seq<Action>, i: nat, k: HostKey)
    requires IsRun(rs, acts) && i < |rs|
    requires forall m {:trigger Fits(rs[m])} :: 0 <= m < |rs| ==> Fits(rs[m])
    requires Handles(rs[i].d, k) == {} && ModifyGap(rs[i].threads, k) == {} && DestroyGap(rs[i].threads, k) == {}
    ensures k in rs[i].d.hostMap <==> RemappedBefore(rs, acts, i, k)
  {
    LostIff(rs, acts, i, k);
    ReferenceCounting(rs, acts, i, k);
  }

  // ----- an input -----

  /** The base of a handler that holds the mutex of its new connection. */
  function Holding(r: Router, t: Tid, p: Ptr): Router {
    r.(owner := r.owner[ConnM(p) := t])
  }

  lemma Allocates(r: Router, t: Tid, th: Thread, c: Choice)
    requires r.owner == map[] && th.req.Modify? && th.pc.MAlloc? && !th.inside && Admits(r.d, th, c)
    ensures Reaches(With(r, r.d, t, th), [Run(t, c)],
                    With(Holding(r, t, c.ptr), AllocConn(r.d, th.key, c.ptr), t, th.(pc := MHost(c.ptr))))
  {
    WithAgain(r, r.d, AllocConn(r.d, th.key, c.ptr), t, th, th.(pc := MHost(c.ptr)));
    ReachesOne(With(r, r.d, t, th), Run(t, c));
  }

  /** The new connection is filled or discarded and its mutex given back. */
  lemma Settles(r: Router, d: Shared, t: Tid, th: Thread, c: Choice)
    requires r.owner == map[] && th.req.Modify? && !th.inside && Admits(d, th, c)
    requires (th.pc.MCreate? || th.pc.MDiscard?) && th.pc.newConn in d.conns
    ensures var mv := ModifyMove(d, th, c);
      && mv.Go?
      && Reaches(With(Holding(r, t, th.pc.newConn), d, t, th), [Run(t, c)], With(r, mv.d, t, th.(pc := mv.pc)))
  {
    var mv := ModifyMove(d, th, c);
    var r0 := With(Holding(r, t, th.pc.newConn), d, t, th);
    assert r.owner[ConnM(th.pc.newConn) := t] - {ConnM(th.pc.newConn)} == r.owner;
    assert r.threads[t := th][t := th.(pc := mv.pc)] == r.threads[t := th.(pc := mv.pc)];
    ReachesOne(r0, Run(t, c));
  }

  /** The actions of IBV_MODIFY_QP from the src_qp_map section on, the peer having announced itself. */
  function FinishActs(t: Tid, c: Choice): seq<Action> {
    SectionActs(t, c) + [Run(t, c)] + SectionActs(t, c) + SectionActs(t, c) + SectionActs(t, c)
  }

  function Readied(d: Shared, p: Ptr, q: Qpn, reach: nat): Shared
    requires HasQp(d, p)
  {
    SetConn(d, p, MakeReady(d.conns[p], q, reach))
  }

  /** The handle is mapped, the peer told and found. */
  lemma FindsPeer(r: Router, d: Shared, t: Tid, th: Thread, c: Choice)
    requires r.owner == map[] && th.req.Modify? && th.pc.MSrc? && !th.inside && c.ok && th.req.dst in d.dstQpMap
    ensures Reaches(With(r, d, t, th), SectionActs(t, c) + [Run(t, c)] + SectionActs(t, c),
                    With(r, MapHandle(d, th.req.h, th.key), t, th.(pc := MHost2(d.dstQpMap[th.req.dst]))))
  {
    var d1 := MapHandle(d, th.req.h, th.key);
    var th1, th2, th3 := th.(pc := MSend(th.pc.qpn)), th.(pc := MSpin(th.pc.qpn)),
      th.(pc := MHost2(d.dstQpMap[th.req.dst]));
    GoesThrough(r, d, t, th, c);
    StepsOn(r, d1, t, th1, c);
    GoesThrough(r, d1, t, th2, c);
    ReachesJoin(With(r, d, t, th), SectionActs(t, c), With(r, d1, t, th1), [Run(t, c)], With(r, d1, t, th2));
    ReachesJoin(With(r, d, t, th), SectionActs(t, c) + [Run(t, c)], With(r, d1, t, th2),
                SectionActs(t, c), With(r, d1, t, th3));
  }

  lemma GetsReady(r: Router, d: Shared, t: Tid, th: Thread, c: Choice)
    requires r.owner == map[] && th.req.Modify? && th.pc.MHost2? && !th.inside
    requires LookupHost(d, th.key).Found? && HasQp(d, d.hostMap[th.key])
    ensures var p := d.hostMap[th.key];
      var d' := Readied(d, p, th.pc.dstQpn, c.reach);
      Reaches(With(r, d, t, th), SectionActs(t, c) + SectionActs(t, c),
              With(r, d', t, th.(pc := Done(ModifyRsp(d'.conns[p].status == 4)))))
  {
    var p := d.hostMap[th.key];
    var d' := Readied(d, p, th.pc.dstQpn, c.reach);
    var th1 := th.(pc := MConn(th.pc.dstQpn, p));
    GoesThrough(r, d, t, th, c);
    GoesThrough(r, d, t, th1, c);
    ReachesJoin(With(r, d, t, th), SectionActs(t, c), With(r, d, t, th1), SectionActs(t, c),
                With(r, d', t, th.(pc := Done(ModifyRsp(d'.conns[p].status == 4)))));
  }

  lemma Finishes(r: Router, d: Shared, t: Tid, th: Thread, c: Choice)
    requires r.owner == map[] && th.req.Modify? && th.pc.MSrc? && !th.inside && c.ok && th.req.dst in d.dstQpMap
    requires LookupHost(d, th.key).Found? && HasQp(d, d.hostMap[th.key])
    ensures var p := d.hostMap[th.key];
      var d' := Readied(MapHandle(d, th.req.h, th.key), p, d.dstQpMap[th.req.dst], c.reach);
      Reaches(With(r, d, t, th), FinishActs(t, c), With(r, d', t, th.(pc := Done(ModifyRsp(d'.conns[p].status == 4)))))
  {
    var p := d.hostMap[th.key];
    var d1 := MapHandle(d, th.req.h, th.key);
    var d' := Readied(d1, p, d.dstQpMap[th.req.dst], c.reach);
    var th3 := th.(pc := MHost2(d.dstQpMap[th.req.dst]));
    var before := SectionActs(t, c) + [Run(t, c)] + SectionActs(t, c);
    FindsPeer(r, d, t, th, c);
    GetsReady(r, d1, t, th3, c);
    ReachesJoin(With(r, d, t, th), before, With(r, d1, t, th3), SectionActs(t, c) + SectionActs(t, c),
                With(r, d', t, th.(pc := Done(ModifyRsp(d'.conns[p].status == 4)))));
    assert before + (SectionActs(t, c) + SectionActs(t, c)) == FinishActs(t, c);
  }

  /** The actions of IBV_MODIFY_QP up to the host_map section and the step after it. */
  function AcquireActs(t: Tid, req: Request, c: Choice): seq<Action> {
    [Start(t, req)] + [Run(t, c)] + SectionActs(t, c) + [Run(t, c)]
  }

  lemma Starts(r: Router, t: Tid, req: Request, c: Choice)
    requires r.owner == map[] && t !in r.threads && req.Modify? && c.ptr != NULL && c.ptr !in r.d.conns
    ensures var th := StartThread(r.d.gid, req);
      Reaches(r, [Start(t, req)] + [Run(t, c)],
              With(Holding(r, t, c.ptr), AllocConn(r.d, th.key, c.ptr), t, th.(pc := MHost(c.ptr))))
  {
    var th := StartThread(r.d.gid, req);
    ReachesOne(r, Start(t, req));
    Allocates(r, t, th, c);
    ReachesJoin(r, [Start(t, req)], With(r, r.d, t, th), [Run(t, c)],
                With(Holding(r, t, c.ptr), AllocConn(r.d, th.key, c.ptr), t, th.(pc := MHost(c.ptr))));
  }

  /** The data once the first IBV_MODIFY_QP toward a host has its queue pair. */
  function FirstPublished(d: Shared, key: HostKey, p: Ptr, q: Qpn): Shared {
    CreateQp(Publish(AllocConn(d, key, p), key, p), p, q)
  }

  lemma PublishesFirst(r: Router, t: Tid, req: Request, c: Choice)
    requires r.owner == map[] && t !in r.threads && req.Modify? && c.ptr != NULL && c.ptr !in r.d.conns
    requires HostKey(r.d.gid, req.dst) !in r.d.hostMap
    requires forall p :: p in r.d.conns && r.d.conns[p].qp.Some? ==> r.d.conns[p].qp.value.qpn != c.qpn
    ensures var th := StartThread(r.d.gid, req);
      Reaches(r, AcquireActs(t, req, c), With(r, FirstPublished(r.d, th.key, c.ptr, c.qpn), t, th.(pc := MSrc(c.qpn))))
  {
    var th, p := StartThread(r.d.gid, req), c.ptr;
    var d1 := AllocConn(r.d, th.key, p);
    var d2 := Publish(d1, th.key, p);
    var base := Holding(r, t, p);
    var th1, th2 := th.(pc := MHost(p)), th.(pc := MCreate(p));
    Starts(r, t, req, c);
    GoesThrough(base, d1, t, th1, c);
    ReachesJoin(r, [Start(t, req)] + [Run(t, c)], With(base, d1, t, th1), SectionActs(t, c), With(base, d2, t, th2));
    Settles(r, d2, t, th2, c);
    ReachesJoin(r, [Start(t, req)] + [Run(t, c)] + SectionActs(t, c), With(base, d2, t, th2), [Run(t, c)],
                With(r, FirstPublished(r.d, th.key, p, c.qpn), t, th.(pc := MSrc(c.qpn))));
  }

  /** The data once another IBV_MODIFY_QP has joined the connection `p`. */
  function JoinedOnce(d: Shared, p: Ptr): Shared
    requires p in d.conns
  {
    SetCount(d, p, Incremented(d.conns[p].refCnt))
  }

  lemma JoinThenFree(d: Shared, key: HostKey, q: Ptr)
    requires LookupHost(d, key).Found? && d.hostMap[key] in d.conns && q !in d.conns
    ensures var d2 := JoinHost(AllocConn(d, key, q), key, q);
      d2.1 == d.hostMap[key] && q in d2.0.conns && FreeConn(d2.0, q) == JoinedOnce(d, d.hostMap[key])
  {
  }

  lemma JoinsShared(r: Router, t: Tid, req: Request, c: Choice)
    requires r.owner == map[] && t !in r.threads && req.Modify? && c.ptr != NULL && c.ptr !in r.d.conns
    requires LookupHost(r.d, HostKey(r.d.gid, req.dst)).Found? && r.d.hostMap[HostKey(r.d.gid, req.dst)] in r.d.conns
    ensures var th := StartThread(r.d.gid, req);
      var p := r.d.hostMap[th.key];
      Reaches(r, AcquireActs(t, req, c), With(r, JoinedOnce(r.d, p), t, th.(pc := MReadQpn(p))))
  {
    var th := StartThread(r.d.gid, req);
    var p := r.d.hostMap[th.key];
    var d1 := AllocConn(r.d, th.key, c.ptr);
    var d2 := JoinHost(d1, th.key, c.ptr).0;
    var base := Holding(r, t, c.ptr);
    var th1, th2 := th.(pc := MHost(c.ptr)), th.(pc := MDiscard(c.ptr, p));
    Starts(r, t, req, c);
    JoinThenFree(r.d, th.key, c.ptr);
    GoesThrough(base, d1, t, th1, c);
    ReachesJoin(r, [Start(t, req)] + [Run(t, c)], With(base, d1, t, th1), SectionActs(t, c), With(base, d2, t, th2));
    Settles(r, d2, t, th2, c);
    ReachesJoin(r, [Start(t, req)] + [Run(t, c)] + SectionActs(t, c), With(base, d2, t, th2), [Run(t, c)],
                With(r, JoinedOnce(r.d, p), t, th.(pc := MReadQpn(p))));
  }

  lemma JoinsAgain(r: Router, t: Tid, req: Request, c: Choice)
    requires r.owner == map[] && t !in r.threads && req.Modify? && c.ptr != NULL && c.ptr !in r.d.conns
    requires LookupHost(r.d, HostKey(r.d.gid, req.dst)).Found? && HasQp(r.d, r.d.hostMap[HostKey(r.d.gid, req.dst)])
    ensures var th := StartThread(r.d.gid, req);
      var p := r.d.hostMap[th.key];
      Reaches(r, AcquireActs(t, req, c) + [Run(t, c)],
              With(r, JoinedOnce(r.d, p), t, th.(pc := MSrc(r.d.conns[p].qp.value.qpn))))
  {
    var th := StartThread(r.d.gid, req);
    var p := r.d.hostMap[th.key];
    var d3 := JoinedOnce(r.d, p);
    JoinsShared(r, t, req, c);
    StepsOn(r, d3, t, th.(pc := MReadQpn(p)), c);
    ReachesJoin(r, AcquireActs(t, req, c), With(r, d3, t, th.(pc := MReadQpn(p))), [Run(t, c)],
                With(r, d3, t, th.(pc := MSrc(r.d.conns[p].qp.value.qpn))));
  }

  // ----- the run -----

  /** The whole of the first IBV_MODIFY_QP toward a host. */
  function FirstActs(t: Tid, req: Request, c: Choice): seq<Action> { AcquireActs(t, req, c) + FinishActs(t, c) }

  /** The whole of a later one. */
  function LaterActs(t: Tid, req: Request, c: Choice): seq<Action> {
    AcquireActs(t, req, c) + [Run(t, c)] + FinishActs(t, c)
  }

  function DestroyActs(t: Tid, req: Request): seq<Action> {
    [Start(t, req)] + SectionActs(t, AnyChoice()) + SectionActs(t, AnyChoice())
  }

  /** The router's data when the key's connection is ready and `n` references to it exist. */
  ghost predicate Up(d: Shared, k: HostKey, h: Handle, n: nat, lost: multiset<HostKey>) {
    && d.hostMap == map[k := 1] && d.conns.Keys == {1} && d.conns[1].refCnt == n && d.conns[1].status == 4
    && HasQp(d, 1) && d.srcQpMap == map[h := k] && d.orphans == lost && k.srcGid == d.gid && k.dstGid in d.dstQpMap
  }

  lemma FirstModify(r: Router, h: Handle, dst: Gid, pid: int) returns (r': Router, c: Choice)
    requires r.owner == map[] && r.threads == map[] && r.d.conns == map[] && r.d.hostMap == map[]
    requires r.d.srcQpMap == map[]
    requires r.d.orphans == multiset{} && dst in r.d.dstQpMap
    ensures var k := HostKey(r.d.gid, dst);
      && Reaches(r, FirstActs(0, Modify(h, dst, pid), c), r') && Up(r'.d, k, h, 1, multiset{})
      && r'.owner == map[] && r'.threads == map[0 := Thread(Modify(h, dst, pid), k, Done(ModifyRsp(true)), false)]
      && r'.d.conns[1].qp.value.state.Rts? && r'.d.lkeyOffsetMap == r.d.lkeyOffsetMap && r'.d.mrs == r.d.mrs
  {
    var req := Modify(h, dst, pid);
    var th := StartThread(r.d.gid, req);
    c := Choice(1, 1, 0, 3, true);
    var d1 := FirstPublished(r.d, th.key, 1, 1);
    var d2 := Readied(MapHandle(d1, h, th.key), 1, d1.dstQpMap[dst], 3);
    PublishesFirst(r, 0, req, c);
    Finishes(r, d1, 0, th.(pc := MSrc(1)), c);
    r' := With(r, d2, 0, th.(pc := Done(ModifyRsp(true))));
    ReachesJoin(r, AcquireActs(0, req, c), With(r, d1, 0, th.(pc := MSrc(1))), FinishActs(0, c), r');
  }

  lemma SecondModify(r: Router, t: Tid, h: Handle, dst: Gid, pid: int) returns (r': Router, c: Choice)
    requires r.owner == map[] && t !in r.threads && Up(r.d, HostKey(r.d.gid, dst), h, 1, multiset{})
    ensures var k := HostKey(r.d.gid, dst);
      && Reaches(r, LaterActs(t, Modify(h, dst, pid), c), r') && Up(r'.d, k, h, 2, multiset{k})
      && r'.owner == map[] && r'.threads == r.threads[t := Thread(Modify(h, dst, pid), k, Done(ModifyRsp(true)), false)]
  {
    var req := Modify(h, dst, pid);
    var th := StartThread(r.d.gid, req);
    c := Choice(2, 2, 0, 3, true);
    var d1 := JoinedOnce(r.d, 1);
    var d2 := Readied(MapHandle(d1, h, th.key), 1, d1.dstQpMap[dst], 3);
    var th1 := th.(pc := MSrc(r.d.conns[1].qp.value.qpn));
    JoinsAgain(r, t, req, c);
    Finishes(r, d1, t, th1, c);
    r' := With(r, d2, t, th.(pc := Done(ModifyRsp(true))));
    ReachesJoin(r, AcquireActs(t, req, c) + [Run(t, c)], With(r, d1, t, th1), FinishActs(t, c), r');
  }

  lemma DropsOne(d: Shared, k: HostKey, h: Handle)
    requires Up(d, k, h, 2, multiset{k})
    ensures UnmapHandle(d, h).1 == Some(k) && LiveOrNull(UnmapHandle(d, h).0, k)
    ensures var (d', res) := DropRef(UnmapHandle(d, h).0, k);
      res == Kept && d'.srcQpMap == map[] && d'.hostMap == map[k := 1] && 1 in d'.conns && d'.conns[1].refCnt == 1
  {
  }

  lemma DestroyOnce(r: Router, t: Tid, h: Handle, dst: Gid) returns (r': Router)
    requires r.owner == map[] && t !in r.threads
      && Up(r.d, HostKey(r.d.gid, dst), h, 2, multiset{HostKey(r.d.gid, dst)})
    ensures var k := HostKey(r.d.gid, dst);
      && Reaches(r, DestroyActs(t, Destroy(h, dst)), r')
      && r'.d.srcQpMap == map[] && r'.d.hostMap == map[k := 1] && 1 in r'.d.conns && r'.d.conns[1].refCnt == 1
      && r'.threads == r.threads[t := Thread(Destroy(h, dst), k, Done(DestroyRsp(true)), false)]
  {
    var req, k, c := Destroy(h, dst), HostKey(r.d.gid, dst), AnyChoice();
    var th, th1 := StartThread(r.d.gid, req), Thread(req, k, DHost, false);
    var th2 := Thread(req, k, Done(DestroyRsp(true)), false);
    DropsOne(r.d, k, h);
    var d1 := UnmapHandle(r.d, h).0;
    r' := With(r, DropRef(d1, k).0, t, th2);
    ReachesOne(r, Start(t, req));
    GoesThrough(r, r.d, t, th, c);
    ReachesJoin(r, [Start(t, req)], With(r, r.d, t, th), SectionActs(t, c), With(r, d1, t, th1));
    GivesBack(r, d1, t, th1);
    ReachesJoin(r, [Start(t, req)] + SectionActs(t, c), With(r, d1, t, th1), SectionActs(t, c), r');
  }

  lemma GivesBack(r: Router, d: Shared, t: Tid, th: Thread)
    requires r.owner == map[] && th.req.Destroy? && th.pc.DHost? && !th.inside && LiveOrNull(d, th.key)
    requires DropRef(d, th.key).1.Kept?
    ensures Reaches(With(r, d, t, th), SectionActs(t, AnyChoice()),
                    With(r, DropRef(d, th.key).0, t, th.(pc := Done(DestroyRsp(true)))))
  {
    GoesThrough(r, d, t, th, AnyChoice());
  }

  function FirstRouter(gid: Gid): Router {
    Router(Shared(gid, map[], map[], map[], map[], map[], map[], {}, multiset{}), map[], map[])
  }

  /** A handle is modified twice and destroyed once, one request after the other, and all three
      are answered with success: nothing refers to the key any more, and it stays. */
  lemma LeftOver(gid: Gid, dst: Gid, h: Handle, pid: int)
    returns (rs: seq<Router>, acts: seq<Action>, c: Choice, c': Choice)
    ensures var req, k := Modify(h, dst, pid), HostKey(gid, dst);
      && IsRun(rs, acts)
      && acts == [Receive(Packet(Insert, dst, gid, 7))] + FirstActs(0, req, c) + LaterActs(1, req, c')
        + DestroyActs(2, Destroy(h, dst))
      && var r := rs[|acts|];
         && r.threads == map[0 := Thread(req, k, Done(ModifyRsp(true)), false),
                             1 := Thread(req, k, Done(ModifyRsp(true)), false),
                             2 := Thread(Destroy(h, dst), k, Done(DestroyRsp(true)), false)]
         && r.d.srcQpMap == map[] && r.d.hostMap == map[k := 1] && 1 in r.d.conns && r.d.conns[1].refCnt == 1
  {
    var r0, m := FirstRouter(gid), Packet(Insert, dst, gid, 7);
    var r1 := RecvStep(r0, m);
    ReachesOne(r0, Receive(m));
    var r2, r3: Router, r4: Router;
    r2, c := FirstModify(r1, h, dst, pid);
    r3, c' := SecondModify(r2, 1, h, dst, pid);
    r4 := DestroyOnce(r3, 2, h, dst);
    acts := [Receive(m)] + FirstActs(0, Modify(h, dst, pid), c);
    ReachesJoin(r0, [Receive(m)], r1, FirstActs(0, Modify(h, dst, pid), c), r2);
    ReachesJoin(r0, acts, r2, LaterActs(1, Modify(h, dst, pid), c'), r3);
    acts := acts + LaterActs(1, Modify(h, dst, pid), c');
    ReachesJoin(r0, acts, r3, DestroyActs(2, Destroy(h, dst)), r4);
    acts := acts + DestroyActs(2, Destroy(h, dst));
    rs := ReachesRun([r0], [], acts, r4);
    assert [] + acts == acts;
  }
}
