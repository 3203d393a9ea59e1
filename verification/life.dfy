/** A session from a new router to an empty one: connect, register, post a receive and a send,
    poll both, deregister, destroy. */
module Life {
  import opened Types
  import opened Sections
  import opened Machine
  import opened References
  import opened Requests
  import opened Scenarios
  import opened Alone
  import Lost

  /** One ready connection with the queue pair `q`, one handle on it and one region, of the page
      4096 of process `pid` at the router's page 8192. */
  predicate Up(d: Shared, k: HostKey, h: Handle, pid: int, q: Qp) {
    && d.gid == k.srcGid && d.hostMap == map[k := 1] && d.srcQpMap == map[h := k]
    && d.conns == map[1 := Conn(k, 1, 4, Some(q))] && q.state.Rts?
    && d.mrs == map[1 := Region(pid, 4096, 8192, 4096)] && d.lkeyOffsetMap == map[1 := 4096]
  }

  /** `r'` is reached from `r` by a handler `t` that has ended with `reply`. */
  ghost predicate Served(r: Router, acts: seq<Action>, r': Router, t: Tid, reply: Reply) {
    && Reaches(r, acts, r') && r.owner == map[] && r'.owner == map[]
    && t in r'.threads && r'.threads[t].pc == Done(reply) && r'.threads == r.threads[t := r'.threads[t]]
  }

  lemma Ended(r: Router, acts: seq<Action>, d': Shared, t: Tid, th': Thread) returns (r': Router)
    requires At(r, acts, r, d', t, th') && th'.pc.Done?
    ensures Served(r, acts, r', t, th'.pc.reply) && r'.d == d'
  {
    r' := With(r, d', t, th');
  }

  // ----- the parts of the session -----

  /** The router knows its peer's number. */
  predicate Introduced(d: Shared, gid: Gid, dst: Gid) { Empty(d) && d.gid == gid && dst in d.dstQpMap }

  lemma Introduces(gid: Gid, dst: Gid) returns (acts: seq<Action>, r': Router)
    ensures Reaches(Lost.FirstRouter(gid), acts, r') && r'.owner == map[] && r'.threads == map[]
    ensures Introduced(r'.d, gid, dst)
  {
    var m := Packet(Insert, dst, gid, 7);
    acts, r' := [Receive(m)], RecvStep(Lost.FirstRouter(gid), m);
    ReachesOne(Lost.FirstRouter(gid), Receive(m));
  }

  /** The data with the connection ready and nothing registered. */
  predicate Connected(d: Shared, k: HostKey, h: Handle, q: Qp) {
    && d.gid == k.srcGid && d.hostMap == map[k := 1] && d.srcQpMap == map[h := k]
    && d.conns == map[1 := Conn(k, 1, 4, Some(q))] && q.state.Rts? && q.sq == [] && q.rq == [] && q.cq == []
    && d.mrs == map[] && d.lkeyOffsetMap == map[]
  }

  lemma Connects(r: Router, t: Tid, h: Handle, gid: Gid, dst: Gid, pid: int)
    returns (acts: seq<Action>, r': Router, q: Qp)
    requires r.owner == map[] && t !in r.threads && Introduced(r.d, gid, dst)
    ensures Served(r, acts, r', t, ModifyRsp(true)) && Connected(r'.d, HostKey(gid, dst), h, q)
  {
    var d', th', outcome;
    acts, d', th', outcome := ModifyAlone(r, t, h, dst, pid, Choice(1, 1, 0, 3, true));
    q := d'.conns[1].qp.value;
    r' := Ended(r, acts, d', t, th');
  }

  lemma Registers(r: Router, t: Tid, k: HostKey, h: Handle, pid: int, q: Qp) returns (acts: seq<Action>, r': Router)
    requires r.owner == map[] && t !in r.threads && Connected(r.d, k, h, q)
    ensures Served(r, acts, r', t, RegMrRsp(1, 8192)) && Up(r'.d, k, h, pid, q)
  {
    var req, d', th' := RegMr(pid, 4096, 4096), r.d, StartThread(r.d.gid, RegMr(pid, 4096, 4096));
    acts, d', th' := RegAlone(r, t, req, 1, 8192, true);
    var o := d'.lkeyOffsetMap[1];
    assert o == 4096;
    r' := Ended(r, acts, d', t, th');
  }

  /** A request for the page: where it ends up in the queues, as the device sees it. */
  function Page(kind: WrKind, pid: int, addr: nat): Wr {
    Wr(kind, pid, addr, 4096, 1, if kind.Send? then IBV_WR_SEND else 0, 0, 0)
  }

  function Enqueued(q: Qp, wr: Wr): Qp {
    var q' := q.(accepted := q.accepted + [wr]);
    if wr.kind.Send? then q'.(sq := q.sq + [wr]) else q'.(rq := q.rq + [wr])
  }

  lemma PagePosted(d: Shared, d': Shared, k: HostKey, h: Handle, pid: int, q: Qp, kind: WrKind, reply: Reply)
    returns (hw: Wr)
    requires Up(d, k, h, pid, q) && PostDone(d, d', h, Page(kind, pid, 4096), pid, true, reply)
    ensures reply == PostRsp(pid) && Up(d', k, h, pid, Enqueued(q, hw))
    ensures hw.kind == kind && hw.wrId == pid && hw.addr == 8192 && hw.length == 4096 && hw.lkey == 1
  {
    assert CanPost(d, h, Page(kind, pid, 4096), pid, true);
    hw := d'.conns[1].qp.value.accepted[|q.accepted|];
  }

  lemma PostsPage(r: Router, t: Tid, k: HostKey, h: Handle, pid: int, q: Qp, kind: WrKind)
    returns (acts: seq<Action>, r': Router, hw: Wr)
    requires r.owner == map[] && t !in r.threads && Up(r.d, k, h, pid, q)
    ensures Served(r, acts, r', t, PostRsp(pid)) && Up(r'.d, k, h, pid, Enqueued(q, hw))
    ensures hw.kind == kind && hw.wrId == pid && hw.addr == 8192 && hw.length == 4096 && hw.lkey == 1
  {
    var d', th';
    acts, d', th' := PostAlone(r, t, h, Page(kind, pid, 4096), pid, true);
    hw := PagePosted(r.d, d', k, h, pid, q, kind, th'.pc.reply);
    r' := Ended(r, acts, d', t, th');
  }

  lemma Completes(r: Router, k: HostKey, h: Handle, pid: int, q: Qp, kind: WrKind) returns (r': Router)
    requires Up(r.d, k, h, pid, q) && (if kind.Send? then q.sq else q.rq) != []
    ensures Reaches(r, [Hardware(1, kind, true)], r') && r'.owner == r.owner && r'.threads == r.threads
    ensures var wr := if kind.Send? then q.sq[0] else q.rq[0];
      var q1 := q.(cq := q.cq + [Wc(wr, true)]);
      Up(r'.d, k, h, pid, if kind.Send? then q1.(sq := q.sq[1..]) else q1.(rq := q.rq[1..]))
  {
    ReachesOne(r, Hardware(1, kind, true));
    r' := CompleteStep(r, 1, kind, true);
  }

  lemma Polls(r: Router, t: Tid, k: HostKey, h: Handle, pid: int, q: Qp) returns (acts: seq<Action>, r': Router)
    requires r.owner == map[] && t !in r.threads && Up(r.d, k, h, pid, q)
    requires q.cq != [] && q.cq[0].ok && q.cq[0].wr.wrId == pid
    ensures Served(r, acts, r', t, PollRsp(1, Some(q.cq[0])))
    ensures Up(r'.d, k, h, pid, Taken(q, pid))
  {
    var d', th';
    acts, d', th' := PollAlone(r, t, h, pid, true);
    r' := Ended(r, acts, d', t, th');
  }

  lemma Deregisters(r: Router, t: Tid, k: HostKey, h: Handle, pid: int, q: Qp)
    returns (acts: seq<Action>, r': Router)
    requires r.owner == map[] && t !in r.threads && Up(r.d, k, h, pid, q)
    ensures Served(r, acts, r', t, DeregMrRsp(true))
    ensures r'.d == r.d.(mrs := map[], lkeyOffsetMap := map[])
  {
    var d', th';
    acts, d', th' := DeregAlone(r, t, 1);
    r' := Ended(r, acts, d', t, th');
  }

  lemma Destroys(r: Router, t: Tid, k: HostKey, h: Handle, conn: Conn) returns (acts: seq<Action>, r': Router)
    requires r.owner == map[] && t !in r.threads && r.d.hostMap == map[k := 1] && r.d.srcQpMap == map[h := k]
    requires r.d.conns == map[1 := conn] && conn.key == k && conn.refCnt == 1 && conn.qp.Some?
    ensures Served(r, acts, r', t, DestroyRsp(true))
    ensures r'.d == r.d.(hostMap := map[], srcQpMap := map[], conns := map[])
  {
    var d', th';
    acts, d', th' := DestroyAlone(r, t, h, k.dstGid);
    r' := Ended(r, acts, d', t, th');
  }

  /** Nothing is connected or registered. */
  predicate Empty(d: Shared) {
    d.hostMap == map[] && d.srcQpMap == map[] && d.conns == map[] && d.mrs == map[] && d.lkeyOffsetMap == map[]
  }

  // ----- the session -----

  /** A receive of the page and a send of it are posted, in this order. */
  lemma PostsBoth(r: Router, k: HostKey, h: Handle, pid: int, q: Qp)
    returns (acts: seq<Action>, r': Router, recv: Wr, send: Wr)
    requires r.owner == map[] && r.threads.Keys == {0, 1} && Up(r.d, k, h, pid, q)
    ensures Reaches(r, acts, r') && r'.owner == map[] && r'.threads.Keys == {0, 1, 2, 3}
    ensures r'.threads[0] == r.threads[0] && r'.threads[1] == r.threads[1]
    ensures r'.threads[2].pc == Done(PostRsp(pid)) && r'.threads[3].pc == Done(PostRsp(pid))
    ensures Up(r'.d, k, h, pid, Enqueued(Enqueued(q, recv), send))
    ensures recv.kind.Recv? && recv.addr == 8192 && recv.wrId == pid
    ensures send.kind.Send? && send.addr == 8192 && send.wrId == pid
  {
    var a1, r1, a2;
    a1, r1, recv := PostsPage(r, 2, k, h, pid, q, Recv);
    a2, r', send := PostsPage(r1, 3, k, h, pid, Enqueued(q, recv), Send);
    ReachesJoin(r, a1, r1, a2, r');
    acts := a1 + a2;
  }

  function Taken(q: Qp, pid: int): Qp
    requires q.cq != []
  {
    q.(cq := q.cq[1..], delivered := q.delivered + [Delivery(pid, q.cq[0])])
  }

  lemma PollsBoth(r: Router, k: HostKey, h: Handle, pid: int, q: Qp, recv: Wr, send: Wr)
    returns (acts: seq<Action>, r': Router)
    requires r.owner == map[] && r.threads.Keys == {0, 1, 2, 3} && Up(r.d, k, h, pid, q)
    requires q.cq == [Wc(recv, true), Wc(send, true)] && recv.wrId == pid && send.wrId == pid
    ensures Reaches(r, acts, r') && r'.owner == map[] && r'.threads.Keys == {0, 1, 2, 3, 4, 5}
    ensures forall t :: t in r.threads ==> r'.threads[t] == r.threads[t]
    ensures r'.threads[4].pc == Done(PollRsp(1, Some(Wc(recv, true))))
    ensures r'.threads[5].pc == Done(PollRsp(1, Some(Wc(send, true))))
    ensures Up(r'.d, k, h, pid, Taken(Taken(q, pid), pid))
  {
    var a1, r1 := Polls(r, 4, k, h, pid, q);
    var a2;
    a2, r' := Polls(r1, 5, k, h, pid, Taken(q, pid));
    ReachesJoin(r, a1, r1, a2, r');
    acts := a1 + a2;
  }

  /** One page is received into and one sent from, both are completed and both polled for, the
      receive first. */
  lemma Transfers(r: Router, k: HostKey, h: Handle, pid: int, q: Qp)
    returns (acts: seq<Action>, r': Router, q': Qp, recv: Wr, send: Wr)
    requires r.owner == map[] && r.threads.Keys == {0, 1} && Up(r.d, k, h, pid, q)
    requires q.sq == [] && q.rq == [] && q.cq == []
    ensures Reaches(r, acts, r') && r'.owner == map[] && Up(r'.d, k, h, pid, q')
    ensures r'.threads.Keys == {0, 1, 2, 3, 4, 5}
    ensures r'.threads[0] == r.threads[0] && r'.threads[1] == r.threads[1]
    ensures r'.threads[2].pc == Done(PostRsp(pid)) && r'.threads[3].pc == Done(PostRsp(pid))
    ensures r'.threads[4].pc == Done(PollRsp(1, Some(Wc(recv, true)))) && recv.kind.Recv? && recv.addr == 8192
    ensures r'.threads[5].pc == Done(PollRsp(1, Some(Wc(send, true)))) && send.kind.Send? && send.addr == 8192
  {
    var a1, r1, a2, r2, a3;
    a1, r1, recv, send := PostsBoth(r, k, h, pid, q);
    a2, r2, q' := Executes(r1, k, h, pid, Enqueued(Enqueued(q, recv), send), recv, send);
    a3, r' := PollsBoth(r2, k, h, pid, q', recv, send);
    q' := Taken(Taken(q', pid), pid);
    ReachesTwice(r, a1, r1, a2, r2, a3, r');
    acts := a1 + a2 + a3;
  }

  /** The device completes the receive and then the send. */
  lemma Executes(r: Router, k: HostKey, h: Handle, pid: int, q: Qp, recv: Wr, send: Wr)
    returns (acts: seq<Action>, r': Router, q': Qp)
    requires Up(r.d, k, h, pid, q) && q.rq == [recv] && q.sq == [send] && q.cq == []
    ensures Reaches(r, acts, r') && r'.owner == r.owner && r'.threads == r.threads && Up(r'.d, k, h, pid, q')
    ensures q' == q.(rq := [], sq := [], cq := [Wc(recv, true), Wc(send, true)])
  {
    var r1 := Completes(r, k, h, pid, q, Recv);
    var q1 := q.(rq := [], cq := [Wc(recv, true)]);
    assert q.rq[1..] == [] && q.cq + [Wc(recv, true)] == [Wc(recv, true)];
    r' := Completes(r1, k, h, pid, q1, Send);
    q' := q.(rq := [], sq := [], cq := [Wc(recv, true), Wc(send, true)]);
    assert q1.sq[1..] == [] && q1.cq + [Wc(send, true)] == [Wc(recv, true), Wc(send, true)];
    ReachesJoin(r, [Hardware(1, Recv, true)], r1, [Hardware(1, Send, true)], r');
    acts := [Hardware(1, Recv, true)] + [Hardware(1, Send, true)];
  }

  lemma Prepares(gid: Gid, dst: Gid, h: Handle, pid: int) returns (acts: seq<Action>, r': Router, q: Qp)
    ensures Reaches(Lost.FirstRouter(gid), acts, r') && r'.owner == map[] && r'.threads.Keys == {0, 1}
    ensures r'.threads[0].pc == Done(ModifyRsp(true)) && r'.threads[1].pc == Done(RegMrRsp(1, 8192))
    ensures Up(r'.d, HostKey(gid, dst), h, pid, q) && q.sq == [] && q.rq == [] && q.cq == []
  {
    var a1, r1 := Introduces(gid, dst);
    var a2, r2, a3;
    a2, r2, q := Connects(r1, 0, h, gid, dst, pid);
    a3, r' := Registers(r2, 1, HostKey(gid, dst), h, pid, q);
    ReachesTwice(Lost.FirstRouter(gid), a1, r1, a2, r2, a3, r');
    acts := a1 + a2 + a3;
  }

  /** The answers of the session: `recv` and `send` are the requests the polls were answered with. */
  predicate FirstAnswers(threads: map<Tid, Thread>, pid: int, recv: Wr, send: Wr)
    requires threads.Keys >= {0, 1, 2, 3, 4, 5}
  {
    && threads[0].pc == Done(ModifyRsp(true)) && threads[1].pc == Done(RegMrRsp(1, 8192))
    && threads[2].pc == Done(PostRsp(pid)) && threads[3].pc == Done(PostRsp(pid))
    && threads[4].pc == Done(PollRsp(1, Some(Wc(recv, true)))) && recv.kind.Recv? && recv.addr == 8192
    && threads[5].pc == Done(PollRsp(1, Some(Wc(send, true)))) && send.kind.Send? && send.addr == 8192
  }

  predicate AllAnswered(threads: map<Tid, Thread>, pid: int, recv: Wr, send: Wr) {
    && threads.Keys == {0, 1, 2, 3, 4, 5, 6, 7} && FirstAnswers(threads, pid, recv, send)
    && threads[6].pc == Done(DeregMrRsp(true)) && threads[7].pc == Done(DestroyRsp(true))
  }

  lemma FirstHalf(gid: Gid, dst: Gid, h: Handle, pid: int)
    returns (acts: seq<Action>, r': Router, q: Qp, recv: Wr, send: Wr)
    ensures Reaches(Lost.FirstRouter(gid), acts, r') && r'.owner == map[]
    ensures Up(r'.d, HostKey(gid, dst), h, pid, q) && r'.threads.Keys == {0, 1, 2, 3, 4, 5}
    ensures FirstAnswers(r'.threads, pid, recv, send)
  {
    var k := HostKey(gid, dst);
    var a1, r1, q1 := Prepares(gid, dst, h, pid);
    var a2;
    a2, r', q, recv, send := Transfers(r1, k, h, pid, q1);
    ReachesJoin(Lost.FirstRouter(gid), a1, r1, a2, r');
    acts := a1 + a2;
  }

  lemma SessionReaches(gid: Gid, dst: Gid, h: Handle, pid: int)
    returns (acts: seq<Action>, r': Router, recv: Wr, send: Wr)
    ensures Reaches(Lost.FirstRouter(gid), acts, r') && AllAnswered(r'.threads, pid, recv, send) && Empty(r'.d)
  {
    var k, r0 := HostKey(gid, dst), Lost.FirstRouter(gid);
    var a1, r1, q, a2, r2, a3;
    a1, r1, q, recv, send := FirstHalf(gid, dst, h, pid);
    a2, r2 := Deregisters(r1, 6, k, h, pid, q);
    a3, r' := Destroys(r2, 7, k, h, Conn(k, 1, 4, Some(q)));
    ReachesTwice(r0, a1, r1, a2, r2, a3, r');
    acts := a1 + a2 + a3;
  }

  /** A whole session, every request answered with success: the receive and the send are delivered
      in the order the device completed them, with the router's address of the page, and the
      router is left as it was, but for what it knows of the peer. */
  lemma WholeSession(gid: Gid, dst: Gid, h: Handle, pid: int)
    returns (rs: seq<Router>, acts: seq<Action>, recv: Wr, send: Wr)
    ensures IsRun(rs, acts) && AllAnswered(rs[|acts|].threads, pid, recv, send) && Empty(rs[|acts|].d)
  {
    var r';
    acts, r', recv, send := SessionReaches(gid, dst, h, pid);
    rs := ReachesRun([Lost.FirstRouter(gid)], [], acts, r');
    assert [] + acts == acts;
  }
}
