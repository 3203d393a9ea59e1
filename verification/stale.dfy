/** A post that overlaps the deregistration of its region and a registration that is given
    the same lkey reaches the device with an address of the old region. */
module Stale {
  import opened Types
  import opened Sections
  import opened Machine
  import opened Registration
  import opened Posting
  import opened Scenarios
  import Lost

  /** The post looks its offset up. */
  lemma Looks(r: Router, t: Tid, h: Handle, wr: Wr, pid: int)
    requires r.owner == map[] && t !in r.threads && wr.kind.Send? && wr.lkey in r.d.lkeyOffsetMap
    ensures var th := StartThread(r.d.gid, Post(h, wr, pid));
      Reaches(r, [Start(t, Post(h, wr, pid))] + SectionActs(t, AnyChoice()),
              With(r, r.d, t, th.(pc := USrc(UsePost(r.d.lkeyOffsetMap[wr.lkey])))))
  {
    var req := Post(h, wr, pid);
    var th := StartThread(r.d.gid, req);
    ReachesOne(r, Start(t, req));
    GoesThrough(r, r.d, t, th, AnyChoice());
    ReachesJoin(r, [Start(t, req)], With(r, r.d, t, th), SectionActs(t, AnyChoice()),
                With(r, r.d, t, th.(pc := USrc(UsePost(r.d.lkeyOffsetMap[wr.lkey])))));
  }

  /** The region is deregistered. */
  lemma Deregisters(r: Router, u: Tid, l: Lkey)
    requires r.owner == map[] && u !in r.threads && l in r.d.lkeyOffsetMap
    ensures var d := EraseLkey(r.d, l).0.(mrs := r.d.mrs - {l});
      Reaches(r, [Start(u, DeregMr(l))] + SectionActs(u, AnyChoice()) + [Run(u, AnyChoice())],
              With(r, d, u, StartThread(r.d.gid, DeregMr(l)).(pc := Done(DeregMrRsp(true)))))
  {
    var req, c := DeregMr(l), AnyChoice();
    var th := StartThread(r.d.gid, req);
    var d1 := EraseLkey(r.d, l).0;
    ReachesOne(r, Start(u, req));
    GoesThrough(r, r.d, u, th, c);
    ReachesJoin(r, [Start(u, req)], With(r, r.d, u, th), SectionActs(u, c), With(r, d1, u, th.(pc := DeHw)));
    StepsOn(r, d1, u, th.(pc := DeHw), c);
    ReachesJoin(r, [Start(u, req)] + SectionActs(u, c), With(r, d1, u, th.(pc := DeHw)), [Run(u, c)],
                With(r, d1.(mrs := d1.mrs - {l}), u, th.(pc := Done(DeregMrRsp(true)))));
  }

  function Asked(req: Request, ptr: nat): Region
    requires req.RegMr? && AsInt32(req.length) > 0
  {
    Region(req.pid, req.clientAddr, ptr, AsInt32(req.length))
  }

  /** The device issues the lkey `c.lkey` for a region. */
  lemma Issues(r: Router, v: Tid, req: Request, c: Choice)
    requires r.owner == map[] && v !in r.threads && req.RegMr? && AsInt32(req.length) > 0 && c.ok
    requires Admits(r.d, StartThread(r.d.gid, req), c)
    ensures Reaches(r, [Start(v, req)] + SectionActs(v, c),
                    With(r, r.d.(mrs := r.d.mrs[c.lkey := Asked(req, c.ptr)]), v,
                         StartThread(r.d.gid, req).(pc := RegLkey(c.lkey, Asked(req, c.ptr)))))
  {
    var th := StartThread(r.d.gid, req);
    ReachesOne(r, Start(v, req));
    GoesThrough(r, r.d, v, th, c);
    ReachesJoin(r, [Start(v, req)], With(r, r.d, v, th), SectionActs(v, c),
                With(r, r.d.(mrs := r.d.mrs[c.lkey := Asked(req, c.ptr)]), v,
                     th.(pc := RegLkey(c.lkey, Asked(req, c.ptr)))));
  }

  /** Another region is registered under the lkey. */
  lemma RegistersAgain(r: Router, v: Tid, req: Request, c: Choice)
    requires r.owner == map[] && v !in r.threads && req.RegMr? && AsInt32(req.length) > 0 && c.ok
    requires Admits(r.d, StartThread(r.d.gid, req), c)
    ensures var d := InsertLkey(r.d.(mrs := r.d.mrs[c.lkey := Asked(req, c.ptr)]), c.lkey, req.clientAddr, c.ptr);
      Reaches(r, [Start(v, req)] + SectionActs(v, c) + SectionActs(v, c),
              With(r, d, v, StartThread(r.d.gid, req).(pc := Done(RegMrRsp(c.lkey, c.ptr)))))
  {
    var th1 := StartThread(r.d.gid, req).(pc := RegLkey(c.lkey, Asked(req, c.ptr)));
    var d1 := r.d.(mrs := r.d.mrs[c.lkey := Asked(req, c.ptr)]);
    Issues(r, v, req, c);
    GoesThrough(r, d1, v, th1, c);
    ReachesJoin(r, [Start(v, req)] + SectionActs(v, c), With(r, d1, v, th1), SectionActs(v, c),
                With(r, InsertLkey(d1, c.lkey, req.clientAddr, c.ptr), v, th1.(pc := Done(RegMrRsp(c.lkey, c.ptr)))));
  }

  /** The connection of a handle, ready to send. */
  predicate ReadyToSend(d: Shared, h: Handle) {
    && h in d.srcQpMap && LookupHost(d, d.srcQpMap[h]).Found? && HasQp(d, d.hostMap[d.srcQpMap[h]])
    && d.conns[d.hostMap[d.srcQpMap[h]]].qp.value.state.Rts?
  }

  function Out(d: Shared, h: Handle, wr: Wr, o: int): Shared
    requires ReadyToSend(d, h)
  {
    var p := d.hostMap[d.srcQpMap[h]];
    SetQp(d, p, PostWr(d.conns[p].qp.value, HardwareWr(wr, o), true).0)
  }

  lemma FindsConn(r: Router, t: Tid, th: Thread, o: int)
    requires r.owner == map[] && th.req.Post? && ReadyToSend(r.d, th.req.h) && th.pc == USrc(UsePost(o)) && !th.inside
    ensures var k := r.d.srcQpMap[th.req.h];
      Reaches(With(r, r.d, t, th), SectionActs(t, AnyChoice()) + SectionActs(t, AnyChoice()),
              With(r, r.d, t, Thread(th.req, k, UConn(UsePost(o), r.d.hostMap[k]), false)))
  {
    var k, c := r.d.srcQpMap[th.req.h], AnyChoice();
    var th1 := Thread(th.req, k, UHost(UsePost(o)), false);
    var th2 := Thread(th.req, k, UConn(UsePost(o), r.d.hostMap[k]), false);
    GoesThrough(r, r.d, t, th, c);
    GoesThrough(r, r.d, t, th1, c);
    ReachesJoin(With(r, r.d, t, th), SectionActs(t, c), With(r, r.d, t, th1), SectionActs(t, c), With(r, r.d, t, th2));
  }

  /** The post goes on with the offset it has. */
  lemma GoesOut(r: Router, t: Tid, th: Thread, o: int)
    requires r.owner == map[] && th.req.Post? && th.req.wr.kind.Send? && ReadyToSend(r.d, th.req.h)
    requires th.pc == USrc(UsePost(o)) && !th.inside
    ensures Reaches(With(r, r.d, t, th),
                    SectionActs(t, AnyChoice()) + SectionActs(t, AnyChoice()) + SectionActs(t, AnyChoice()),
                    With(r, Out(r.d, th.req.h, th.req.wr, o), t,
                         Thread(th.req, r.d.srcQpMap[th.req.h], Done(PostRsp(th.req.pid)), false)))
  {
    var k, c := r.d.srcQpMap[th.req.h], AnyChoice();
    var th2 := Thread(th.req, k, UConn(UsePost(o), r.d.hostMap[k]), false);
    FindsConn(r, t, th, o);
    GoesThrough(r, r.d, t, th2, c);
    ReachesJoin(With(r, r.d, t, th), SectionActs(t, c) + SectionActs(t, c), With(r, r.d, t, th2), SectionActs(t, c),
                With(r, Out(r.d, th.req.h, th.req.wr, o), t, Thread(th.req, k, Done(PostRsp(th.req.pid)), false)));
  }

  lemma OutPosts(d: Shared, h: Handle, wr: Wr, o: int)
    requires ReadyToSend(d, h) && wr.kind.Send?
    ensures var p := d.hostMap[d.srcQpMap[h]];
      && HasQp(Out(d, h, wr, o), p) && Out(d, h, wr, o).mrs == d.mrs
      && Out(d, h, wr, o).conns[p].qp.value.accepted == d.conns[p].qp.value.accepted + [HardwareWr(wr, o)]
  {
  }

  /** The premises of the input: the registration finds room away from what is registered. */
  predicate CanReuse(d: Shared, req: Request, l: Lkey, ptr: nat) {
    && req.RegMr? && AsInt32(req.length) > 0 && ptr != NULL && ptr + AsInt32(req.length) <= TWO_64
    && forall m :: m in d.mrs ==> Disjoint(ptr, AsInt32(req.length), d.mrs[m].routerAddr, d.mrs[m].size)
  }

  /** The data after the deregistration, and after the registration that follows it. */
  function Dropped(d: Shared, l: Lkey): Shared { EraseLkey(d, l).0.(mrs := d.mrs - {l}) }

  function Reused(d: Shared, l: Lkey, req: Request, ptr: nat): Shared
    requires req.RegMr? && AsInt32(req.length) > 0
  {
    InsertLkey(Dropped(d, l).(mrs := Dropped(d, l).mrs[l := Asked(req, ptr)]), l, req.clientAddr, ptr)
  }

  lemma ReusedData(d: Shared, l: Lkey, req: Request, ptr: nat)
    requires l in d.lkeyOffsetMap && req.RegMr? && AsInt32(req.length) > 0
    ensures var d' := Reused(d, l, req, ptr);
      && d'.mrs == d.mrs[l := Asked(req, ptr)]
      && d'.srcQpMap == d.srcQpMap && d'.hostMap == d.hostMap && d'.conns == d.conns
  {
  }

  lemma StillRoom(d: Shared, th: Thread, l: Lkey, req: Request, ptr: nat)
    requires CanReuse(d, req, l, ptr) && th.req == req && th.pc.RegShm?
    ensures Admits(Dropped(d, l), th, Choice(ptr, 0, l, 3, true))
  {
  }

  /** The lkey passes from one region to another. */
  lemma Reuses(r: Router, u: Tid, v: Tid, l: Lkey, req: Request, ptr: nat) returns (acts: seq<Action>, r': Router)
    requires r.owner == map[] && u !in r.threads && v !in r.threads && u != v && l in r.d.lkeyOffsetMap
    requires CanReuse(r.d, req, l, ptr)
    ensures Reaches(r, acts, r') && r'.owner == map[] && r'.d == Reused(r.d, l, req, ptr)
    ensures forall t :: t in r.threads ==> t in r'.threads && r'.threads[t] == r.threads[t]
  {
    var c := Choice(ptr, 0, l, 3, true);
    var r1 := With(r, Dropped(r.d, l), u, StartThread(r.d.gid, DeregMr(l)).(pc := Done(DeregMrRsp(true))));
    r' := With(r1, Reused(r.d, l, req, ptr), v, StartThread(r.d.gid, req).(pc := Done(RegMrRsp(l, ptr))));
    var first := [Start(u, DeregMr(l))] + SectionActs(u, AnyChoice()) + [Run(u, AnyChoice())];
    var second := [Start(v, req)] + SectionActs(v, c) + SectionActs(v, c);
    Deregisters(r, u, l);
    StillRoom(r.d, StartThread(r.d.gid, req), l, req, ptr);
    RegistersAgain(r1, v, req, c);
    ReachesJoin(r, first, r1, second, r');
    acts := first + second;
  }

  /** The whole input. */
  lemma StaleRun(r: Router, h: Handle, wr: Wr, pid: int, t: Tid, u: Tid, v: Tid, req: Request, ptr: nat)
    returns (acts: seq<Action>, r2: Router, r': Router)
    requires r.owner == map[] && ReadyToSend(r.d, h) && t !in r.threads && u !in r.threads && v !in r.threads
    requires t != u && t != v && u != v && wr.kind.Send? && wr.lkey in r.d.lkeyOffsetMap
    requires CanReuse(r.d, req, wr.lkey, ptr)
    ensures Reaches(r, acts, r') && ReadyToSend(r2.d, h) && r'.d == Out(r2.d, h, wr, r.d.lkeyOffsetMap[wr.lkey])
    ensures r2.d.srcQpMap == r.d.srcQpMap && r2.d.hostMap == r.d.hostMap && r2.d.conns == r.d.conns
    ensures r2.d.mrs == r.d.mrs[wr.lkey := Region(req.pid, req.clientAddr, ptr, AsInt32(req.length))]
    ensures t in r'.threads && r'.threads[t].pc == Done(PostRsp(pid))
  {
    var o := r.d.lkeyOffsetMap[wr.lkey];
    var th := StartThread(r.d.gid, Post(h, wr, pid)).(pc := USrc(UsePost(o)));
    var r1 := With(r, r.d, t, th);
    var first := [Start(t, Post(h, wr, pid))] + SectionActs(t, AnyChoice());
    var last := SectionActs(t, AnyChoice()) + SectionActs(t, AnyChoice()) + SectionActs(t, AnyChoice());
    Looks(r, t, h, wr, pid);
    var middle: seq<Action>;
    middle, r2 := Reuses(r1, u, v, wr.lkey, req, ptr);
    ReusedData(r.d, wr.lkey, req, ptr);
    ReachesJoin(r, first, r1, middle, r2);
    assert With(r2, r2.d, t, th) == r2;
    GoesOut(r2, t, th, o);
    r' := With(r2, Out(r2.d, h, wr, o), t, Thread(th.req, r2.d.srcQpMap[h], Done(PostRsp(pid)), false));
    ReachesJoin(r, first + middle, r2, last, r');
    acts := first + middle + last;
  }

  /** From every state in which no mutex is held, a region is registered under the lkey of a send
      and the connection is ready: the send can reach the device with the address of the region
      that was registered when its handler began, outside the region its lkey now stands for. */
  lemma StalePost(r: Router, h: Handle, wr: Wr, x: nat, pid: int, t: Tid, u: Tid, v: Tid, req: Request, ptr: nat)
    returns (acts: seq<Action>, r': Router, posted: Wr)
    requires r.owner == map[] && LkeysOk(r) && ReadyToSend(r.d, h)
    requires t !in r.threads && u !in r.threads && v !in r.threads
    requires t != u && t != v && u != v && wr.kind.Send? && wr.lkey in r.d.lkeyOffsetMap
    requires CanReuse(r.d, req, wr.lkey, ptr)
    requires wr.lkey in r.d.mrs ==> x < r.d.mrs[wr.lkey].size && wr.addr == ClientByte(r.d.mrs[wr.lkey], x)
    ensures wr.lkey in r.d.mrs && Reaches(r, acts, r')
    ensures var p, region := r.d.hostMap[r.d.srcQpMap[h]], Region(req.pid, req.clientAddr, ptr, AsInt32(req.length));
      && HasQp(r'.d, p) && wr.lkey in r'.d.mrs && r'.d.mrs[wr.lkey] == region
      && r'.d.conns[p].qp.value.accepted == r.d.conns[p].qp.value.accepted + [posted]
      && posted.lkey == wr.lkey && posted.addr == r.d.mrs[wr.lkey].routerAddr + x
      && !(region.routerAddr <= posted.addr < region.routerAddr + region.size)
    ensures t in r'.threads && r'.threads[t].pc == Done(PostRsp(pid))
  {
    var o := r.d.lkeyOffsetMap[wr.lkey];
    var r2: Router;
    acts, r2, r' := StaleRun(r, h, wr, pid, t, u, v, req, ptr);
    posted := HardwareWr(wr, o);
    OutPosts(r2.d, h, wr, o);
    TranslateExact(r.d.mrs[wr.lkey].routerAddr, r.d.mrs[wr.lkey].clientAddr, x);
  }

  // ----- the input as a run -----

  function FirstRegion(): Choice { Choice(4096, 0, 1, 3, true) }

  function FirstRegionActs(pid: int): seq<Action> {
    [Start(1, RegMr(pid, 4096, 4096))] + SectionActs(1, FirstRegion()) + SectionActs(1, FirstRegion())
  }

  /** A first region is registered. */
  lemma AddsRegion(r: Router, h: Handle, pid: int) returns (r': Router)
    requires r.owner == map[] && r.threads.Keys == {0} && ReadyToSend(r.d, h) && r.d.hostMap[r.d.srcQpMap[h]] == 1
    requires r.d.lkeyOffsetMap == map[] && r.d.mrs == map[]
    ensures Reaches(r, FirstRegionActs(pid), r') && Prepared(r', h, pid)
  {
    var req := RegMr(pid, 4096, 4096);
    RegistersAgain(r, 1, req, FirstRegion());
    var d := InsertLkey(r.d.(mrs := r.d.mrs[1 := Asked(req, 4096)]), 1, 4096, 4096);
    r' := With(r, d, 1, StartThread(r.d.gid, req).(pc := Done(RegMrRsp(1, 4096))));
  }

  /** A connection is ready and one region registered. */
  predicate Prepared(r: Router, h: Handle, pid: int) {
    && r.owner == map[] && r.threads.Keys == {0, 1} && ReadyToSend(r.d, h) && r.d.hostMap[r.d.srcQpMap[h]] == 1
    && 1 in r.d.lkeyOffsetMap && r.d.mrs == map[1 := Region(pid, 4096, 4096, 4096)]
  }

  lemma Prepares(gid: Gid, dst: Gid, h: Handle, pid: int) returns (rs: seq<Router>, acts: seq<Action>)
    ensures IsRun(rs, acts) && Prepared(rs[|acts|], h, pid)
  {
    var r0, m := Lost.FirstRouter(gid), Packet(Insert, dst, gid, 7);
    var r1 := RecvStep(r0, m);
    ReachesOne(r0, Receive(m));
    var r2, c := Lost.FirstModify(r1, h, dst, pid);
    var r3 := AddsRegion(r2, h, pid);
    var first := Lost.FirstActs(0, Modify(h, dst, pid), c);
    ReachesJoin(r0, [Receive(m)], r1, first, r2);
    ReachesJoin(r0, [Receive(m)] + first, r2, FirstRegionActs(pid), r3);
    acts := [Receive(m)] + first + FirstRegionActs(pid);
    rs := ReachesRun([r0], [], acts, r3);
    assert [] + acts == acts;
  }

  /** A run of a new router. Page 4096 of a client is registered at the router's address 4096 under
      lkey 1. A send of that page looks its offset up; the region is deregistered and page 8192
      registered at 8192 under lkey 1; the send is accepted, and answered so, with address 4096. */
  lemma StaleSend(gid: Gid, dst: Gid, h: Handle, pid: int)
    returns (rs: seq<Router>, acts: seq<Action>, posted: Wr)
    ensures IsRun(rs, acts)
    ensures var r := rs[|acts|];
      && 2 in r.threads && r.threads[2].pc == Done(PostRsp(pid))
      && 1 in r.d.mrs && r.d.mrs[1] == Region(pid, 8192, 8192, 4096)
      && HasQp(r.d, 1) && posted in r.d.conns[1].qp.value.accepted && posted.lkey == 1 && posted.addr == 4096
  {
    var rs0, acts0 := Prepares(gid, dst, h, pid);
    var r := rs0[|acts0|];
    RunKeepsRegions(rs0, acts0, |acts0|);
    var wr := Wr(Send, pid, 4096, 4096, 1, IBV_WR_SEND, 0, 0);
    var more, r': Router;
    more, r', posted := StalePost(r, h, wr, 0, pid, 2, 3, 4, RegMr(pid, 8192, 4096), 8192);
    rs := ReachesRun(rs0, acts0, more, r');
    acts := acts0 + more;
  }
}
