/** An IBV_DESTROY_QP that names another host than its handle is connected to: the router of the
    peer is not told, and keeps a number that belongs to nothing. */
module Misnamed {
  import opened Types
  import opened Sections
  import opened Machine
  import opened Scenarios
  import World
  import Lost

  /** The message a step of the run sends. */
  ghost predicate Tells(rs: seq<Router>, acts: seq<Action>, i: nat, m: Packet)
    requires i < |acts| && |rs| == |acts| + 1
  {
    StepAt(rs, acts, i) && World.Message(rs[i], acts[i]) == Some(m)
  }

  lemma {:induction false} RequestStays(rs: seq<Router>, acts: seq<Action>, i: nat, j: nat, t: Tid)
    requires IsRun(rs, acts) && i <= j < |rs| && t in rs[i].threads
    ensures t in rs[j].threads && rs[j].threads[t].req == rs[i].threads[t].req
    decreases j
  {
    if i < j {
      RequestStays(rs, acts, i, j - 1, t);
      assert StepAt(rs, acts, j - 1);
    }
  }

  /** A DELETE goes to the host an IBV_DESTROY_QP names and to no other. */
  lemma DeletesNamed(rs: seq<Router>, acts: seq<Action>, i: nat, m: Packet)
    requires IsRun(rs, acts) && i < |acts| && Tells(rs, acts, i, m) && m.op.Delete?
    ensures var r := rs[|acts|];
      exists t :: t in r.threads && r.threads[t].req.Destroy? && r.threads[t].req.dst == m.dst
  {
    var t := acts[i].t;
    RequestStays(rs, acts, i, |acts|, t);
    assert rs[|acts|].threads[t].req.dst == m.dst;
  }

  predicate Answered(th: Thread) {
    th.req.Modify? && (th.pc.MSpin? || th.pc.MHost2? || th.pc.MConn? || (th.pc.Done? && th.pc.reply.ModifyRsp?))
  }

  lemma AnswersAfterTelling(r: Router, a: Action, t: Tid)
    requires Enabled(r, a) && t in Next(r, a).threads && Answered(Next(r, a).threads[t])
    ensures var m := World.Message(r, a);
      || (t in r.threads && Answered(r.threads[t]) && r.threads[t].req == Next(r, a).threads[t].req)
      || (m.Some? && m.value.op.Insert? && m.value.dst == Next(r, a).threads[t].req.dst)
  {
  }

  /** An IBV_MODIFY_QP that has its answer has told the peer. */
  lemma {:induction false} PeerTold(rs: seq<Router>, acts: seq<Action>, i: nat, t: Tid) returns (x: nat, m: Packet)
    requires IsRun(rs, acts) && i < |rs| && t in rs[i].threads && Answered(rs[i].threads[t])
    ensures x < i && Tells(rs, acts, x, m) && m.op.Insert? && m.dst == rs[i].threads[t].req.dst
  {
    assert i > 0;
    assert StepAt(rs, acts, i - 1);
    AnswersAfterTelling(rs[i - 1], acts[i - 1], t);
    var sent := World.Message(rs[i - 1], acts[i - 1]);
    if sent.Some? && sent.value.op.Insert? && sent.value.dst == rs[i].threads[t].req.dst {
      x, m := i - 1, sent.value;
    } else {
      x, m := PeerTold(rs, acts, i - 1, t);
    }
  }

  // ----- the run -----

  function DestroyAllActs(t: Tid, req: Request): seq<Action> {
    [Start(t, req)] + SectionActs(t, AnyChoice()) + SectionActs(t, AnyChoice()) + SectionActs(t, AnyChoice())
  }

  lemma DropsLast(d: Shared, k: HostKey, h: Handle)
    requires Lost.Up(d, k, h, 1, multiset{})
    ensures UnmapHandle(d, h).1 == Some(k) && LiveOrNull(UnmapHandle(d, h).0, k)
    ensures var (d', res) := DropRef(UnmapHandle(d, h).0, k);
      res == Erased(1) && HasQp(d', 1) && d'.hostMap == map[] && FreeConn(d', 1).conns == map[]
  {
  }

  /** The last handle of a connection is destroyed, whatever host the request names. */
  lemma DestroyLast(r: Router, t: Tid, h: Handle, dst: Gid, other: Gid) returns (r': Router)
    requires r.owner == map[] && t !in r.threads && Lost.Up(r.d, HostKey(r.d.gid, dst), h, 1, multiset{})
    ensures var k := HostKey(r.d.gid, dst);
      && Reaches(r, DestroyAllActs(t, Destroy(h, other)), r') && r'.d.hostMap == map[] && r'.d.conns == map[]
      && r'.threads == r.threads[t := Thread(Destroy(h, other), k, Done(DestroyRsp(true)), false)]
  {
    var req, k, c := Destroy(h, other), HostKey(r.d.gid, dst), AnyChoice();
    var th, th1 := StartThread(r.d.gid, req), Thread(req, k, DHost, false);
    DropsLast(r.d, k, h);
    var d1 := UnmapHandle(r.d, h).0;
    var d2 := DropRef(d1, k).0;
    ReachesOne(r, Start(t, req));
    GoesThrough(r, r.d, t, th, c);
    ReachesJoin(r, [Start(t, req)], With(r, r.d, t, th), SectionActs(t, c), With(r, d1, t, th1));
    Frees(r, d1, t, th1);
    r' := With(r, FreeConn(d2, 1), t, th1.(pc := Done(DestroyRsp(true))));
    ReachesJoin(r, [Start(t, req)] + SectionActs(t, c), With(r, d1, t, th1), SectionActs(t, c) + SectionActs(t, c), r');
    assert [Start(t, req)] + SectionActs(t, c) + (SectionActs(t, c) + SectionActs(t, c)) == DestroyAllActs(t, req);
  }

  lemma Frees(r: Router, d: Shared, t: Tid, th: Thread)
    requires r.owner == map[] && th.req.Destroy? && th.pc.DHost? && !th.inside && LiveOrNull(d, th.key)
    requires DropRef(d, th.key).1 == Erased(1) && HasQp(DropRef(d, th.key).0, 1)
    ensures Reaches(With(r, d, t, th), SectionActs(t, AnyChoice()) + SectionActs(t, AnyChoice()),
                    With(r, FreeConn(DropRef(d, th.key).0, 1), t, th.(pc := Done(DestroyRsp(true)))))
  {
    var d2, c := DropRef(d, th.key).0, AnyChoice();
    GoesThrough(r, d, t, th, c);
    GoesThrough(r, d2, t, th.(pc := DConn(1)), c);
    ReachesJoin(With(r, d, t, th), SectionActs(t, c), With(r, d2, t, th.(pc := DConn(1))), SectionActs(t, c),
                With(r, FreeConn(d2, 1), t, th.(pc := Done(DestroyRsp(true)))));
  }

  ghost predicate IsMisnamed(rs: seq<Router>, acts: seq<Action>, gid: Gid, req: Request, other: Gid, c: Choice)
    requires req.Modify?
  {
    var destroy, k := Destroy(req.h, other), HostKey(gid, req.dst);
    && IsRun(rs, acts)
    && acts == [Receive(Packet(Insert, req.dst, gid, 7))] + Lost.FirstActs(0, req, c) + DestroyAllActs(1, destroy)
    && rs[|acts|].threads == map[0 := Thread(req, k, Done(ModifyRsp(true)), false),
                                 1 := Thread(destroy, k, Done(DestroyRsp(true)), false)]
    && rs[|acts|].d.hostMap == map[] && rs[|acts|].d.conns == map[]
  }

  lemma MisnamedRun(gid: Gid, req: Request, other: Gid) returns (rs: seq<Router>, acts: seq<Action>, c: Choice)
    requires req.Modify?
    ensures IsMisnamed(rs, acts, gid, req, other, c)
  {
    var r0, first := Lost.FirstRouter(gid), Receive(Packet(Insert, req.dst, gid, 7));
    var r1 := Next(r0, first);
    ReachesOne(r0, first);
    var r2, r3: Router;
    r2, c := Lost.FirstModify(r1, req.h, req.dst, req.pid);
    r3 := DestroyLast(r2, 1, req.h, req.dst, other);
    ReachesJoin(r0, [first], r1, Lost.FirstActs(0, req, c), r2);
    acts := [first] + Lost.FirstActs(0, req, c);
    ReachesJoin(r0, acts, r2, DestroyAllActs(1, Destroy(req.h, other)), r3);
    acts := acts + DestroyAllActs(1, Destroy(req.h, other));
    rs := ReachesRun([r0], [], acts, r3);
    assert [] + acts == acts;
  }

  /** A run: a handle is modified to be connected to a host and then destroyed by a request that
      names another host, and both are answered with success. The router has no connection left;
      the host was sent an INSERT in the run and no DELETE. */
  lemma PeerNotTold(gid: Gid, req: Request, other: Gid)
    returns (rs: seq<Router>, acts: seq<Action>, c: Choice, x: nat, m: Packet)
    requires req.Modify? && other != req.dst
    ensures IsMisnamed(rs, acts, gid, req, other, c)
    ensures x < |acts| && Tells(rs, acts, x, m) && m.op.Insert? && m.dst == req.dst
    ensures forall i, n :: 0 <= i < |acts| && Tells(rs, acts, i, n) && n.op.Delete? ==> n.dst != req.dst
  {
    rs, acts, c := MisnamedRun(gid, req, other);
    x, m := PeerTold(rs, acts, |acts|, 0);
    forall i, n | 0 <= i < |acts| && Tells(rs, acts, i, n) && n.op.Delete? ensures n.dst != req.dst {
      DeletesNamed(rs, acts, i, n);
    }
  }
}
