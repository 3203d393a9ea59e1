/** The premise of one outstanding request per handle is needed: without it a handler
    follows a pointer to a freed connection. */
module Premise {
  import opened Types
  import opened Sections
  import opened Machine
  import opened References
  import opened Scenarios

  /** A section of handler `t` in which the environment decides nothing. */
  function SectionOf(t: Tid): seq<Action> { SectionActs(t, AnyChoice()) }

  lemma PollFinds(r: Router, t: Tid, th: Thread, h: Handle, pid: int)
    requires r.owner == map[] && h in r.d.srcQpMap && th == Thread(Poll(h, pid), th.key, USrc(UsePoll), false)
    ensures Reaches(With(r, r.d, t, th), SectionOf(t),
                    With(r, r.d, t, Thread(th.req, r.d.srcQpMap[h], UHost(UsePoll), false)))
  {
    GoesThrough(r, r.d, t, th, AnyChoice());
  }

  lemma PollReaches(r: Router, t: Tid, th: Thread, h: Handle, pid: int)
    requires r.owner == map[] && LookupHost(r.d, th.key).Found?
    requires th == Thread(Poll(h, pid), th.key, UHost(UsePoll), false)
    ensures Reaches(With(r, r.d, t, th), SectionOf(t),
                    With(r, r.d, t, Thread(th.req, th.key, UConn(UsePoll, r.d.hostMap[th.key]), false)))
  {
    GoesThrough(r, r.d, t, th, AnyChoice());
  }

  /** A poll gets as far as the mutex of its connection. */
  lemma PollArrives(r: Router, t: Tid, h: Handle, pid: int)
    requires r.owner == map[] && t !in r.threads && h in r.d.srcQpMap && LookupHost(r.d, r.d.srcQpMap[h]).Found?
    ensures var k := r.d.srcQpMap[h];
      Reaches(r, [Start(t, Poll(h, pid))] + SectionOf(t) + SectionOf(t),
              With(r, r.d, t, Thread(Poll(h, pid), k, UConn(UsePoll, r.d.hostMap[k]), false)))
  {
    var k := r.d.srcQpMap[h];
    var th := StartThread(r.d.gid, Poll(h, pid));
    var th2 := Thread(Poll(h, pid), k, UHost(UsePoll), false);
    var th3 := Thread(Poll(h, pid), k, UConn(UsePoll, r.d.hostMap[k]), false);
    ReachesOne(r, Start(t, Poll(h, pid)));
    PollFinds(r, t, th, h, pid);
    ReachesJoin(r, [Start(t, Poll(h, pid))], With(r, r.d, t, th), SectionOf(t), With(r, r.d, t, th2));
    PollReaches(r, t, th2, h, pid);
    ReachesJoin(r, [Start(t, Poll(h, pid))] + SectionOf(t), With(r, r.d, t, th2), SectionOf(t), With(r, r.d, t, th3));
  }

  lemma DestroyUnmaps(r: Router, u: Tid, th: Thread)
    requires r.owner == map[] && th.req.Destroy? && th.req.h in r.d.srcQpMap
    requires th == Thread(th.req, th.key, DSrc, false)
    ensures Reaches(With(r, r.d, u, th), SectionOf(u),
                    With(r, UnmapHandle(r.d, th.req.h).0, u, Thread(th.req, r.d.srcQpMap[th.req.h], DHost, false)))
  {
    GoesThrough(r, r.d, u, th, AnyChoice());
  }

  lemma DestroyDrops(r: Router, d: Shared, u: Tid, th: Thread)
    requires r.owner == map[] && th.req.Destroy? && th == Thread(th.req, th.key, DHost, false)
    requires LookupHost(d, th.key).Found? && HasQp(d, d.hostMap[th.key]) && d.conns[d.hostMap[th.key]].refCnt == 1
    ensures Reaches(With(r, d, u, th), SectionOf(u),
                    With(r, DropRef(d, th.key).0, u, Thread(th.req, th.key, DConn(d.hostMap[th.key]), false)))
  {
    GoesThrough(r, d, u, th, AnyChoice());
  }

  lemma DestroyReleases(r: Router, d: Shared, u: Tid, th: Thread)
    requires r.owner == map[] && th.req.Destroy? && th.pc.DConn? && !th.inside && HasQp(d, th.pc.conn)
    ensures Reaches(With(r, d, u, th), SectionOf(u),
                    With(r, FreeConn(d, th.pc.conn), u, Thread(th.req, th.key, Done(DestroyRsp(true)), false)))
  {
    GoesThrough(r, d, u, th, AnyChoice());
  }

  /** The data once an IBV_DESTROY_QP has served the handle `h`. */
  function Destroyed(d: Shared, h: Handle): Shared
    requires h in d.srcQpMap && LookupHost(d, d.srcQpMap[h]).Found? && d.hostMap[d.srcQpMap[h]] in d.conns
  {
    var k := d.srcQpMap[h];
    FreeConn(DropRef(UnmapHandle(d, h).0, k).0, d.hostMap[k])
  }

  /** An IBV_DESTROY_QP on the only reference to a key frees the connection. */
  lemma DestroyFrees(r: Router, u: Tid, h: Handle, dst: Gid)
    requires r.owner == map[] && u !in r.threads && h in r.d.srcQpMap && LookupHost(r.d, r.d.srcQpMap[h]).Found?
    requires HasQp(r.d, r.d.hostMap[r.d.srcQpMap[h]]) && r.d.conns[r.d.hostMap[r.d.srcQpMap[h]]].refCnt == 1
    ensures Reaches(r, [Start(u, Destroy(h, dst))] + SectionOf(u) + SectionOf(u) + SectionOf(u),
                    With(r, Destroyed(r.d, h), u,
                         Thread(Destroy(h, dst), r.d.srcQpMap[h], Done(DestroyRsp(true)), false)))
  {
    var req, k := Destroy(h, dst), r.d.srcQpMap[h];
    var p := r.d.hostMap[k];
    var d2 := UnmapHandle(r.d, h).0;
    var d3 := DropRef(d2, k).0;
    var th1, th2, th3 := StartThread(r.d.gid, req), Thread(req, k, DHost, false), Thread(req, k, DConn(p), false);
    var th4 := Thread(req, k, Done(DestroyRsp(true)), false);
    ReachesOne(r, Start(u, req));
    DestroyUnmaps(r, u, th1);
    ReachesJoin(r, [Start(u, req)], With(r, r.d, u, th1), SectionOf(u), With(r, d2, u, th2));
    DestroyDrops(r, d2, u, th2);
    ReachesJoin(r, [Start(u, req)] + SectionOf(u), With(r, d2, u, th2), SectionOf(u), With(r, d3, u, th3));
    DestroyReleases(r, d3, u, th3);
    ReachesJoin(r, [Start(u, req)] + SectionOf(u) + SectionOf(u), With(r, d3, u, th3),
                SectionOf(u), With(r, FreeConn(d3, p), u, th4));
  }

  lemma Freed(d: Shared, h: Handle)
    requires h in d.srcQpMap && LookupHost(d, d.srcQpMap[h]).Found? && d.hostMap[d.srcQpMap[h]] in d.conns
    ensures d.hostMap[d.srcQpMap[h]] !in Destroyed(d, h).conns
  {
  }

  lemma LocksDead(r: Router, t: Tid)
    requires t in r.threads && r.threads[t].pc.UConn? && !r.threads[t].inside && r.owner == map[]
    requires r.threads[t].pc.conn !in r.d.conns
    ensures Enabled(r, Lock(t)) && Next(r, Lock(t)).threads[t].pc.Fault?
  {
  }

  function PollActs(t: Tid, h: Handle, pid: int): seq<Action> {
    [Start(t, Poll(h, pid))] + SectionOf(t) + SectionOf(t)
  }

  function ReleaseActs(u: Tid, h: Handle, dst: Gid): seq<Action> {
    [Start(u, Destroy(h, dst))] + SectionOf(u) + SectionOf(u) + SectionOf(u)
  }

  lemma OnlyTwoStart(t: Tid, u: Tid, h: Handle, pid: int, dst: Gid, a: Action)
    requires a in PollActs(t, h, pid) + ReleaseActs(u, h, dst) && a.Start?
    ensures a == Start(t, Poll(h, pid)) || a == Start(u, Destroy(h, dst))
  {
  }

  lemma OverlapRuns(r: Router, h: Handle, pid: int, dst: Gid, t: Tid, u: Tid) returns (r2: Router)
    requires r.owner == map[] && h in r.d.srcQpMap && LookupHost(r.d, r.d.srcQpMap[h]).Found?
    requires HasQp(r.d, r.d.hostMap[r.d.srcQpMap[h]]) && r.d.conns[r.d.hostMap[r.d.srcQpMap[h]]].refCnt == 1
    requires t !in r.threads && u !in r.threads && t != u
    ensures Reaches(r, PollActs(t, h, pid) + ReleaseActs(u, h, dst), r2)
    ensures r2.owner == map[] && t in r2.threads && !r2.threads[t].inside
    ensures r2.threads[t].pc == UConn(UsePoll, r.d.hostMap[r.d.srcQpMap[h]])
    ensures r.d.hostMap[r.d.srcQpMap[h]] !in r2.d.conns
  {
    var k := r.d.srcQpMap[h];
    var th := Thread(Poll(h, pid), k, UConn(UsePoll, r.d.hostMap[k]), false);
    var r1 := With(r, r.d, t, th);
    PollArrives(r, t, h, pid);
    DestroyFrees(r1, u, h, dst);
    r2 := With(r1, Destroyed(r.d, h), u, Thread(Destroy(h, dst), k, Done(DestroyRsp(true)), false));
    ReachesJoin(r, PollActs(t, h, pid), r1, ReleaseActs(u, h, dst), r2);
    Freed(r.d, h);
  }

  /** From every state in which no mutex is held and a handle is the only reference to its
      key, a poll and an IBV_DESTROY_QP started together on that handle can bring the poll to
      lock a connection that has been freed. */
  lemma OverlapFaults(r: Router, h: Handle, pid: int, dst: Gid, t: Tid, u: Tid) returns (acts: seq<Action>, r': Router)
    requires Inv(r) && r.owner == map[] && h in r.d.srcQpMap && Refs(r, r.d.srcQpMap[h]) == 1
    requires t !in r.threads && u !in r.threads && t != u
    ensures Reaches(r, acts, r') && t in r'.threads && r'.threads[t].pc.Fault?
    ensures forall a :: a in acts && a.Start? ==> a == Start(t, Poll(h, pid)) || a == Start(u, Destroy(h, dst))
  {
    var k := r.d.srcQpMap[h];
    assert KeyReady(r.d, k) && RefOk(r, k);
    var r2 := OverlapRuns(r, h, pid, dst, t, u);
    acts, r' := EndsInFault(r, PollActs(t, h, pid) + ReleaseActs(u, h, dst), r2, t);
    forall a | a in acts && a.Start? ensures a == Start(t, Poll(h, pid)) || a == Start(u, Destroy(h, dst)) {
      OnlyTwoStart(t, u, h, pid, dst, a);
    }
  }

  lemma EndsInFault(r: Router, acts: seq<Action>, r2: Router, t: Tid) returns (more: seq<Action>, r': Router)
    requires Reaches(r, acts, r2) && t in r2.threads && r2.threads[t].pc.UConn? && !r2.threads[t].inside
    requires r2.owner == map[] && r2.threads[t].pc.conn !in r2.d.conns
    ensures more == acts + [Lock(t)] && Reaches(r, more, r') && t in r'.threads && r'.threads[t].pc.Fault?
  {
    LocksDead(r2, t);
    ReachesOne(r2, Lock(t));
    ReachesJoin(r, acts, r2, [Lock(t)], Next(r2, Lock(t)));
    more, r' := acts + [Lock(t)], Next(r2, Lock(t));
  }
}
