/** The states a physical queue pair goes through: what a refused transition leaves behind, and
    that a queue pair that accepts sends is connected. */
module Setup {
  import opened Types
  import opened Sections
  import opened Machine
  import opened References
  import opened Frames
  import opened Posting
  import opened Requests

  // ----- one attempt -----

  /** `Attempted`, and the attempt succeeds exactly if the queue pair comes to RTS. In particular a
      refused INIT leaves a new queue pair in RESET, a refused RTR leaves it in INIT without a number,
      and a refused RTS leaves it in RTR. */
  lemma AttemptReaches(q: Qp, dst: Qpn, reach: nat)
    ensures var (q', ok) := ToReady(q, dst, reach);
      && Attempted(q, q', dst, reach) && (ok <==> Level(q.state) < 3 == Level(q'.state))
      && (q.state.Reset? && reach == 0 ==> q'.state.Reset? && q'.dstQpn == q.dstQpn)
      && (q.state.Reset? && reach == 1 ==> q'.state.Init? && q'.dstQpn == q.dstQpn)
      && (q.state.Reset? && reach == 2 ==> q'.state.Rtr? && q'.dstQpn == Some(dst))
      && (q.state.Reset? && reach >= 3 ==> q'.state.Rts? && q'.dstQpn == Some(dst))
  {
  }

  /** The same for the connection: only one that is not ready is touched, and it is ready afterwards
      exactly if it comes to RTS. */
  lemma SectionReaches(conn: Conn, dst: Qpn, reach: nat)
    requires conn.qp.Some? && ConnOk(conn)
    ensures var conn' := MakeReady(conn, dst, reach);
      && ConnOk(conn') && (conn'.status == 4 <==> conn.status == 4 || (Level(conn.qp.value.state) <= 1 && reach >= 3))
      && (conn.status == 4 ==> conn' == conn)
      && (conn.status != 4 ==> conn'.qp == Some(ToReady(conn.qp.value, dst, reach).0))
      && conn'.key == conn.key && conn'.refCnt == conn.refCnt
  {
    AttemptReaches(conn.qp.value, dst, reach);
  }

  // ----- every run -----

  /** A queue pair is in RTS exactly if its connection is ready, and has a peer's number exactly from
      RTR on. */
  predicate ConnOk(conn: Conn) {
    && (conn.status == 0 || conn.status == 4)
    && (conn.qp.None? ==> conn.status == 0)
    && (conn.qp.Some? ==>
          && (conn.qp.value.state.Rts? <==> conn.status == 4)
          && (conn.qp.value.dstQpn.Some? <==> conn.qp.value.state.Rtr? || conn.qp.value.state.Rts?))
  }

  ghost predicate ConnsOk(d: Shared) {
    forall p :: p in d.conns ==> ConnOk(d.conns[p])
  }

  lemma SetOk(d: Shared, p: Ptr, conn: Conn)
    requires ConnsOk(d) && ConnOk(conn)
    ensures ConnsOk(SetConn(d, p, conn))
  {
  }

  lemma CountOk(d: Shared, p: Ptr, n: nat)
    requires ConnsOk(d) && p in d.conns
    ensures ConnsOk(SetCount(d, p, n))
  {
    assert ConnOk(d.conns[p]);
  }

  lemma ModifyOk(d: Shared, th: Thread, c: Choice)
    requires ConnsOk(d) && ThreadOk(d, th) && th.req.Modify? && ModifyMove(d, th, c).Go?
    ensures ConnsOk(ModifyMove(d, th, c).d)
  {
    match th.pc
    case MHost(p) =>
      if th.key in d.hostMap && d.hostMap[th.key] != NULL {
        CountOk(d, d.hostMap[th.key], Incremented(d.conns[d.hostMap[th.key]].refCnt));
      }
    case MConn(q, p) =>
      assert ConnOk(d.conns[p]);
      SectionReaches(d.conns[p], q, c.reach);
      SetOk(d, p, MakeReady(d.conns[p], q, c.reach));
    case _ =>
  }

  lemma DropOk(d: Shared, th: Thread)
    requires ConnsOk(d) && th.req.Destroy? && DestroyMove(d, th).Go?
    ensures ConnsOk(DestroyMove(d, th).d)
  {
    if th.pc.DHost? && th.key in d.hostMap && d.hostMap[th.key] != NULL {
      CountOk(d, d.hostMap[th.key], Decremented(d.conns[d.hostMap[th.key]].refCnt));
    }
  }

  /** Posts, polls and completions leave the state and the peer's number alone. */
  lemma UseKeepsState(q: Qp, use: Use, req: Request, ok: bool)
    requires req.Post? || req.Poll?
    ensures UseQp(q, use, req, ok).0.state == q.state && UseQp(q, use, req, ok).0.dstQpn == q.dstQpn
  {
  }

  lemma QueuesOk(d: Shared, p: Ptr, q: Qp)
    requires ConnsOk(d) && HasQp(d, p) && q.state == d.conns[p].qp.value.state && q.dstQpn == d.conns[p].qp.value.dstQpn
    ensures ConnsOk(SetQp(d, p, q))
  {
    assert ConnOk(d.conns[p]);
    SetOk(d, p, d.conns[p].(qp := Some(q)));
  }

  lemma UseOk(d: Shared, th: Thread, c: Choice)
    requires ConnsOk(d) && (th.req.Post? || th.req.Poll?) && UseMove(d, th, c).Go?
    ensures ConnsOk(UseMove(d, th, c).d)
  {
    if th.pc.UConn? {
      var q := d.conns[th.pc.conn].qp.value;
      UseKeepsState(q, th.pc.use, th.req, c.ok);
      QueuesOk(d, th.pc.conn, UseQp(q, th.pc.use, th.req, c.ok).0);
    }
  }

  lemma MoveOk(d: Shared, th: Thread, c: Choice)
    requires ConnsOk(d) && ThreadOk(d, th) && MoveOf(d, th, c).Go?
    ensures ConnsOk(MoveOf(d, th, c).d)
  {
    if th.req.Modify? { ModifyOk(d, th, c); }
    else if th.req.Destroy? { DropOk(d, th); }
    else if th.req.Post? || th.req.Poll? { UseOk(d, th, c); }
    else { MemoryFrame(d, th, c); }
  }

  lemma StepOk(r: Router, a: Action)
    requires ThreadsOk(r) && ConnsOk(r.d) && Enabled(r, a)
    ensures ConnsOk(Next(r, a).d)
  {
    match a
    case Run(t, c) =>
      assert ThreadOk(r.d, r.threads[t]);
      if MoveOf(r.d, r.threads[t], c).Go? { MoveOk(r.d, r.threads[t], c); }
    case Hardware(p, kind, ok) => QueuesOk(r.d, p, Complete(r.d.conns[p].qp.value, kind, ok));
    case _ =>
  }

  /** In every run: a physical queue pair is in RTS if and only if its connection is ready, and has
      been given a peer's number if and only if it has come to RTR. */
  lemma SetUpInOrder(rs: seq<Router>, acts: seq<Action>, i: nat)
    requires IsRun(rs, acts) && i < |rs|
    requires forall j {:trigger Fits(rs[j])} :: 0 <= j < |rs| ==> Fits(rs[j])
    ensures forall p :: HasQp(rs[i].d, p) ==>
      var conn, q := rs[i].d.conns[p], rs[i].d.conns[p].qp.value;
      && (q.state.Rts? <==> conn.status == 4) && (conn.status == 0 || conn.status == 4)
      && (q.dstQpn.Some? <==> q.state.Rtr? || q.state.Rts?)
  {
    RunConnsOk(rs, acts, i);
    forall p | HasQp(rs[i].d, p) ensures ConnOk(rs[i].d.conns[p]) { }
  }

  lemma {:induction false} RunConnsOk(rs: seq<Router>, acts: seq<Action>, i: nat)
    requires IsRun(rs, acts) && i < |rs|
    requires forall j {:trigger Fits(rs[j])} :: 0 <= j < |rs| ==> Fits(rs[j])
    ensures ConnsOk(rs[i].d)
  {
    if i > 0 {
      RunConnsOk(rs, acts, i - 1);
      RunKeeps(rs, acts, i - 1);
      assert StepAt(rs, acts, i - 1);
      StepOk(rs[i - 1], acts[i - 1]);
    }
  }

  /** Every send the device accepts is on a ready queue pair that has a peer's number, every
      receive on one that has left RESET. */
  lemma AcceptedConnected(rs: seq<Router>, acts: seq<Action>, i: nat)
    requires IsRun(rs, acts) && i < |acts| && Posts(rs[i], acts[i])
    requires forall j {:trigger Fits(rs[j])} :: 0 <= j < |rs| ==> Fits(rs[j])
    ensures var th := rs[i].threads[acts[i].t];
      var conn := rs[i].d.conns[th.pc.conn];
      && (th.req.wr.kind.Send? ==> conn.status == 4 && conn.qp.value.state.Rts? && conn.qp.value.dstQpn.Some?)
      && (th.req.wr.kind.Recv? ==> Level(conn.qp.value.state) > 0)
  {
    RunConnsOk(rs, acts, i);
    assert ConnOk(rs[i].d.conns[rs[i].threads[acts[i].t].pc.conn]);
  }

  // ----- a refused RTS is for good -----

  /** The connection at `p` stands in RTR: an attempt ended with RTS refused. */
  predicate StandsInRtr(d: Shared, p: Ptr, qpn: Qpn) {
    HasQp(d, p) && d.conns[p].status == 0 && d.conns[p].qp.value.state.Rtr? && d.conns[p].qp.value.qpn == qpn
  }

  lemma JoinLeavesRtr(d: Shared, key: HostKey, q: Ptr, p: Ptr, qpn: Qpn)
    requires LiveOrNull(d, key) && StandsInRtr(d, p, qpn)
    ensures StandsInRtr(JoinHost(d, key, q).0, p, qpn)
  {
  }

  lemma AttemptLeavesRtr(d: Shared, p: Ptr, qpn: Qpn, at: Ptr, dst: Qpn, reach: nat)
    requires StandsInRtr(d, p, qpn) && HasQp(d, at)
    ensures StandsInRtr(SetConn(d, at, MakeReady(d.conns[at], dst, reach)), p, qpn)
    ensures at == p ==> MakeReady(d.conns[at], dst, reach).status != 4
  {
    AttemptReaches(d.conns[at].qp.value, dst, reach);
  }

  lemma ModifyLeavesRtr(d: Shared, th: Thread, c: Choice, p: Ptr, qpn: Qpn)
    requires ThreadOk(d, th) && th.req.Modify? && Admits(d, th, c) && ModifyMove(d, th, c).Go? && StandsInRtr(d, p, qpn)
    ensures StandsInRtr(ModifyMove(d, th, c).d, p, qpn)
    ensures th.pc.MConn? && th.pc.conn == p ==> ModifyMove(d, th, c).pc == Done(ModifyRsp(false))
  {
    match th.pc
    case MHost(q) => JoinLeavesRtr(d, th.key, q, p, qpn);
    case MConn(q, at) => AttemptLeavesRtr(d, p, qpn, at, q, c.reach);
    case _ =>
  }

  lemma UseLeavesRtr(d: Shared, th: Thread, c: Choice, p: Ptr, qpn: Qpn)
    requires (th.req.Post? || th.req.Poll?) && UseMove(d, th, c).Go? && StandsInRtr(d, p, qpn)
    ensures StandsInRtr(UseMove(d, th, c).d, p, qpn)
  {
    if th.pc.UConn? { UseKeepsState(d.conns[th.pc.conn].qp.value, th.pc.use, th.req, c.ok); }
  }

  lemma DestroyLeavesRtr(d: Shared, th: Thread, p: Ptr, qpn: Qpn)
    requires th.req.Destroy? && DestroyMove(d, th).Go? && StandsInRtr(d, p, qpn)
    ensures p !in DestroyMove(d, th).d.conns || StandsInRtr(DestroyMove(d, th).d, p, qpn)
  {
  }

  lemma RunLeavesRtr(r: Router, t: Tid, c: Choice, p: Ptr, qpn: Qpn)
    requires ThreadsOk(r) && CanRun(r, t, c) && StandsInRtr(r.d, p, qpn)
    ensures p !in RunStep(r, t, c).d.conns || StandsInRtr(RunStep(r, t, c).d, p, qpn)
    ensures r.threads[t].req.Modify? && r.threads[t].pc.MConn? && r.threads[t].pc.conn == p ==>
              RunStep(r, t, c).threads[t].pc == Done(ModifyRsp(false))
  {
    var th := r.threads[t];
    assert ThreadOk(r.d, th);
    if MoveOf(r.d, th, c).Go? {
      if th.req.Modify? { ModifyLeavesRtr(r.d, th, c, p, qpn); }
      else if th.req.Destroy? { DestroyLeavesRtr(r.d, th, p, qpn); }
      else if th.req.Post? || th.req.Poll? { UseLeavesRtr(r.d, th, c, p, qpn); }
      else { MemoryFrame(r.d, th, c); }
    }
  }

  lemma StepLeavesRtr(r: Router, a: Action, p: Ptr, qpn: Qpn)
    requires ThreadsOk(r) && Enabled(r, a) && StandsInRtr(r.d, p, qpn)
    ensures p !in Next(r, a).d.conns || StandsInRtr(Next(r, a).d, p, qpn)
    ensures a.Run? && r.threads[a.t].req.Modify? && r.threads[a.t].pc.MConn? && r.threads[a.t].pc.conn == p ==>
              Next(r, a).threads[a.t].pc == Done(ModifyRsp(false))
  {
    if a.Run? { RunLeavesRtr(r, a.t, a.c, p, qpn); }
  }

  /** The section of an IBV_MODIFY_QP on connection `p`. */
  predicate Attempts(r: Router, a: Action, p: Ptr) {
    a.Run? && a.t in r.threads && r.threads[a.t].req.Modify? && r.threads[a.t].pc.MConn? && r.threads[a.t].pc.conn == p
  }

  lemma NextLeavesRtr(rs: seq<Router>, acts: seq<Action>, i: nat, p: Ptr, qpn: Qpn)
    requires IsRun(rs, acts) && i < |acts| && StandsInRtr(rs[i].d, p, qpn)
    requires forall k {:trigger Fits(rs[k])} :: 0 <= k < |rs| ==> Fits(rs[k])
    ensures p !in rs[i + 1].d.conns || StandsInRtr(rs[i + 1].d, p, qpn)
    ensures Attempts(rs[i], acts[i], p) ==> Refused(rs[i + 1], acts[i])
  {
    RunKeeps(rs, acts, i);
    assert StepAt(rs, acts, i);
    StepLeavesRtr(rs[i], acts[i], p, qpn);
  }

  predicate Refused(r: Router, a: Action) {
    a.Run? && a.t in r.threads && r.threads[a.t].pc == Done(ModifyRsp(false))
  }

  /** A queue pair left in RTR stays there until its connection is freed, and every IBV_MODIFY_QP
      that comes to its section answers that it is not ready, whatever the device would accept. */
  lemma {:induction false} RefusedForGood(rs: seq<Router>, acts: seq<Action>, i: nat, j: nat, p: Ptr, qpn: Qpn)
    requires IsRun(rs, acts) && i <= j < |rs| && StandsInRtr(rs[i].d, p, qpn)
    requires forall k {:trigger Fits(rs[k])} :: 0 <= k < |rs| ==> Fits(rs[k])
    requires forall k :: i <= k <= j ==> p in rs[k].d.conns
    ensures StandsInRtr(rs[j].d, p, qpn)
    ensures forall k :: i <= k < j && Attempts(rs[k], acts[k], p) ==> Refused(rs[k + 1], acts[k])
    decreases j
  {
    if i < j {
      RefusedForGood(rs, acts, i, j - 1, p, qpn);
      NextLeavesRtr(rs, acts, j - 1, p, qpn);
    }
  }
}
