/** What routers tell each other: which steps send a message, and that an INSERT announces the
    number of the live queue pair of its host pair. */
module Announce {
  import opened Types
  import opened Sections
  import opened Machine
  import opened References
  import opened Safety
  import opened Agreement
  import opened Frames
  import World

  // ----- which steps send -----

  /** The handler of an IBV_MODIFY_QP has told the peer and goes to the loop. */
  predicate Told(r: Router, a: Action) {
    && a.Run? && CanRun(r, a.t, a.c) && r.threads[a.t].req.Modify? && r.threads[a.t].pc.MSend?
    && RunStep(r, a.t, a.c).threads[a.t].pc.MSpin?
  }

  /** The handler of an IBV_DESTROY_QP frees its connection. */
  predicate Frees(r: Router, a: Action) {
    && a.Run? && CanRun(r, a.t, a.c) && r.threads[a.t].req.Destroy? && r.threads[a.t].pc.DConn?
    && HasQp(r.d, r.threads[a.t].pc.conn) && r.threads[a.t].pc.conn !in RunStep(r, a.t, a.c).d.conns
  }

  /** An INSERT is sent exactly by an IBV_MODIFY_QP that then waits for the peer, and one that could
      not send it gives up; a DELETE is sent by an IBV_DESTROY_QP that frees its connection, unless
      sending fails, and carries the number of the queue pair that is gone. Both go from this router
      to the host the request names. */
  lemma MessageIff(r: Router, a: Action)
    requires Enabled(r, a)
    ensures var m := World.Message(r, a);
      && (m.Some? && m.value.op.Insert? <==> Told(r, a))
      && (m.Some? && m.value.op.Delete? <==> Frees(r, a) && a.c.ok)
      && (m.Some? ==> m.value.src == r.d.gid && a.Run?)
      && (Told(r, a) ==> m.value.dst == r.threads[a.t].req.dst && m.value.qpn == r.threads[a.t].pc.qpn)
      && (Frees(r, a) && a.c.ok ==>
            && m.value.dst == r.threads[a.t].req.dst
            && m.value.qpn == r.d.conns[r.threads[a.t].pc.conn].qp.value.qpn)
    ensures a.Run? && r.threads[a.t].req.Modify? && r.threads[a.t].pc.MSend? && !Told(r, a) ==>
              Next(r, a).threads[a.t].pc == Done(Killed)
  {
  }

  // ----- the number is that of a live queue pair -----

  /** The number the handler has is that of the connection of its key. */
  ghost predicate NumberOk(d: Shared, th: Thread) {
    th.req.Modify? && (th.pc.MSrc? || th.pc.MSend? || th.pc.MSpin?) ==> Owns(d, th.key, th.pc.qpn)
  }

  ghost predicate NumbersOk(r: Router) {
    forall t :: t in r.threads ==> NumberOk(r.d, r.threads[t])
  }

  /** No step changes the number of a queue pair. */
  ghost predicate NumberStays(d: Shared, d': Shared, p: Ptr) {
    HasQp(d, p) && HasQp(d', p) ==> d'.conns[p].qp.value.qpn == d.conns[p].qp.value.qpn
  }

  lemma JoinNumber(d: Shared, key: HostKey, q: Ptr, p: Ptr)
    requires LiveOrNull(d, key)
    ensures NumberStays(d, JoinHost(d, key, q).0, p)
  {
  }

  lemma ModifyNumber(d: Shared, th: Thread, c: Choice, p: Ptr)
    requires ThreadOk(d, th) && th.req.Modify? && Admits(d, th, c) && ModifyMove(d, th, c).Go?
    ensures NumberStays(d, ModifyMove(d, th, c).d, p)
  {
    if th.pc.MHost? { JoinNumber(d, th.key, th.pc.newConn, p); }
  }

  lemma DestroyNumber(d: Shared, th: Thread, p: Ptr)
    requires th.req.Destroy? && DestroyMove(d, th).Go?
    ensures NumberStays(d, DestroyMove(d, th).d, p)
  {
  }

  lemma UseNumber(d: Shared, th: Thread, c: Choice, p: Ptr)
    requires (th.req.Post? || th.req.Poll?) && UseMove(d, th, c).Go?
    ensures NumberStays(d, UseMove(d, th, c).d, p)
  {
  }

  lemma MoveNumber(d: Shared, th: Thread, c: Choice, p: Ptr)
    requires ThreadOk(d, th) && Admits(d, th, c) && MoveOf(d, th, c).Go?
    ensures NumberStays(d, MoveOf(d, th, c).d, p)
  {
    if th.req.Modify? { ModifyNumber(d, th, c, p); }
    else if th.req.Destroy? { DestroyNumber(d, th, p); }
    else if th.req.Post? || th.req.Poll? { UseNumber(d, th, c, p); }
    else { MemoryFrame(d, th, c); }
  }

  /** The key of a handler that has its number is connected. */
  lemma KeyConnected(r: Router, t: Tid)
    requires Inv(r) && Safe(r) && t in r.threads && r.threads[t].req.Modify?
    requires r.threads[t].pc.MSrc? || r.threads[t].pc.MSend? || r.threads[t].pc.MSpin?
    ensures KeyReady(r.d, r.threads[t].key)
  {
    assert ThreadOk(r.d, r.threads[t]) && ThreadSafe(r.d, r.threads[t]);
    if !r.threads[t].pc.MSrc? { assert KeyReady(r.d, r.d.srcQpMap[r.threads[t].req.h]); }
  }

  /** A handler that gets or keeps its number in its own step. */
  lemma OwnNumber(d: Shared, th: Thread, c: Choice)
    requires HostOk(d) && ThreadOk(d, th) && th.req.Modify? && Admits(d, th, c) && NumberOk(d, th)
    requires ModifyMove(d, th, c).Go?
    ensures var mv := ModifyMove(d, th, c); NumberOk(mv.d, Thread(th.req, mv.key, mv.pc, false))
  {
  }

  lemma OtherNumber(r: Router, t: Tid, c: Choice, u: Tid)
    requires Inv(r) && Safe(r) && NumbersOk(r) && CanRun(r, t, c) && u in r.threads && u != t
    requires Inv(RunStep(r, t, c)) && Safe(RunStep(r, t, c))
    ensures u in RunStep(r, t, c).threads && NumberOk(RunStep(r, t, c).d, RunStep(r, t, c).threads[u])
  {
    var th, r' := r.threads[u], RunStep(r, t, c);
    assert r'.threads[u] == th && NumberOk(r.d, th);
    assert ThreadOk(r.d, r.threads[t]) && RequestOk(r.d.gid, r.threads[t]);
    assert ThreadSafe(r.d, r.threads[t]);
    if th.req.Modify? && (th.pc.MSrc? || th.pc.MSend? || th.pc.MSpin?) {
      AllMoveSafely(r.d, r.threads[t], c);
      KeyConnected(r', u);
      MoveNumber(r.d, r.threads[t], c, r.d.hostMap[th.key]);
    }
  }

  lemma RunNumbers(r: Router, t: Tid, c: Choice)
    requires Inv(r) && Safe(r) && NumbersOk(r) && CanRun(r, t, c)
    requires Inv(RunStep(r, t, c)) && Safe(RunStep(r, t, c))
    ensures NumbersOk(RunStep(r, t, c))
  {
    MovedNumber(r, t, c);
    SameHandlers(r, t, c);
    forall u | u in r.threads && u != t
      ensures u in RunStep(r, t, c).threads && NumberOk(RunStep(r, t, c).d, RunStep(r, t, c).threads[u])
    {
      OtherNumber(r, t, c, u);
    }
  }

  lemma SameHandlers(r: Router, t: Tid, c: Choice)
    requires CanRun(r, t, c)
    ensures RunStep(r, t, c).threads.Keys == r.threads.Keys
  {
  }

  lemma MovedNumber(r: Router, t: Tid, c: Choice)
    requires Inv(r) && Safe(r) && NumbersOk(r) && CanRun(r, t, c)
    ensures NumberOk(RunStep(r, t, c).d, RunStep(r, t, c).threads[t])
  {
    var th := r.threads[t];
    assert ThreadOk(r.d, th) && RequestOk(r.d.gid, th) && ThreadSafe(r.d, th) && NumberOk(r.d, th);
    AllMoveSafely(r.d, th, c);
    if th.req.Modify? { OwnNumber(r.d, th, c); }
  }

  lemma SameNumbers(r: Router, r': Router)
    requires NumbersOk(r) && r'.d.hostMap == r.d.hostMap
    requires forall p :: HasQp(r.d, p) ==>
      HasQp(r'.d, p) && r'.d.conns[p].qp.value.qpn == r.d.conns[p].qp.value.qpn
    requires forall t :: t in r'.threads ==>
      (t in r.threads && r'.threads[t].(inside := false) == r.threads[t].(inside := false))
      || r'.threads[t].pc == StartPc(r'.threads[t].req)
    ensures NumbersOk(r')
  {
    forall t | t in r'.threads ensures NumberOk(r'.d, r'.threads[t]) {
      if r'.threads[t].pc != StartPc(r'.threads[t].req) {
        assert NumberOk(r.d, r.threads[t]) && r'.threads[t].(inside := false) == r.threads[t].(inside := false);
      }
    }
  }

  lemma StepNumbers(r: Router, a: Action)
    requires Inv(r) && Safe(r) && NumbersOk(r) && Enabled(r, a) && Inv(Next(r, a)) && Safe(Next(r, a))
    ensures NumbersOk(Next(r, a))
  {
    if a.Run? { RunNumbers(r, a.t, a.c); }
    else if a.Lock? { LockNumbers(r, a.t); }
    else { QuietNumbers(r, a); }
  }

  lemma LockNumbers(r: Router, t: Tid)
    requires Inv(r) && Safe(r) && NumbersOk(r) && CanLock(r, t)
    ensures NumbersOk(LockStep(r, t))
  {
    LockSafe(r, t);
    SameNumbers(r, LockStep(r, t));
  }

  lemma QuietNumbers(r: Router, a: Action)
    requires NumbersOk(r) && Enabled(r, a) && !a.Run? && !a.Lock?
    ensures NumbersOk(Next(r, a))
  {
    SameNumbers(r, Next(r, a));
  }

  lemma {:induction false} AllNumbersOk(rs: seq<Router>, acts: seq<Action>, i: nat)
    requires IsPoliteRun(rs, acts) && i < |rs|
    ensures NumbersOk(rs[i])
  {
    if i > 0 {
      AllNumbersOk(rs, acts, i - 1);
      NumbersNext(rs, acts, i - 1);
    }
  }

  lemma NumbersNext(rs: seq<Router>, acts: seq<Action>, i: nat)
    requires IsPoliteRun(rs, acts) && i < |acts| && NumbersOk(rs[i])
    ensures NumbersOk(rs[i + 1])
  {
    RunIsSafe(rs, acts, i);
    RunIsSafe(rs, acts, i + 1);
    assert StepAt(rs, acts, i);
    StepNumbers(rs[i], acts[i]);
  }

  /** In every run with one outstanding request per handle, with teardown and reconnection: the
      number an INSERT announces is that of the queue pair its host pair has at that moment. */
  lemma AnnouncedLive(rs: seq<Router>, acts: seq<Action>, i: nat)
    requires IsPoliteRun(rs, acts) && i < |acts|
    ensures Enabled(rs[i], acts[i])
    ensures var m := World.Message(rs[i], acts[i]);
      m.Some? && m.value.op.Insert? ==>
        && Owns(rs[i].d, HostKey(rs[i].d.gid, m.value.dst), m.value.qpn)
        && Owns(rs[i + 1].d, HostKey(rs[i].d.gid, m.value.dst), m.value.qpn)
  {
    AllNumbersOk(rs, acts, i);
    RunIsSafe(rs, acts, i);
    assert StepAt(rs, acts, i);
    MessageIff(rs[i], acts[i]);
    if Told(rs[i], acts[i]) {
      assert NumberOk(rs[i].d, rs[i].threads[acts[i].t]) && RequestOk(rs[i].d.gid, rs[i].threads[acts[i].t]);
    }
  }
}
