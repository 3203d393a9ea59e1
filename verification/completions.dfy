/** Conservation of completions, in every run. */
module Completions {
  import opened Types
  import opened Sections
  import opened Machine

  function Completed(s: seq<Wc>): (wrs: seq<Wr>)
    ensures |wrs| == |s|
  {
    seq(|s|, i requires 0 <= i < |s| => s[i].wr)
  }

  function Taken(s: seq<Delivery>): (wrs: seq<Wr>)
    ensures |wrs| == |s|
  {
    seq(|s|, i requires 0 <= i < |s| => s[i].wc.wr)
  }

  /** Every accepted request is in a work queue, in the completion queue, delivered
      or discarded, and in one of them as often as it was accepted. */
  ghost predicate Conserved(q: Qp) {
    multiset(q.accepted)
      == multiset(q.sq) + multiset(q.rq) + multiset(Completed(q.cq)) + multiset(Taken(q.delivered))
        + multiset(Taken(q.discarded))
  }

  predicate Proper(e: Delivery) {
    e.wc.ok && e.wc.wr.wrId == e.pid
  }

  ghost predicate QpOk(q: Qp) {
    && Conserved(q)
    && (forall e :: e in q.delivered ==> Proper(e))
    && (forall e :: e in q.discarded ==> !Proper(e))
  }

  ghost predicate QpsOk(d: Shared) {
    forall p :: HasQp(d, p) ==> QpOk(d.conns[p].qp.value)
  }

  // ----- the four things that happen to a queue pair -----

  lemma PostConserves(q: Qp, wr: Wr, room: bool)
    requires QpOk(q)
    ensures QpOk(PostWr(q, wr, room).0)
  {
  }

  lemma CompleteConserves(q: Qp, kind: WrKind, ok: bool)
    requires QpOk(q) && (if kind.Send? then q.sq else q.rq) != []
    ensures QpOk(Complete(q, kind, ok))
  {
    var w := if kind.Send? then q.sq else q.rq;
    assert w == [w[0]] + w[1..];
    assert Completed(q.cq + [Wc(w[0], ok)]) == Completed(q.cq) + [w[0]];
  }

  lemma CompletedFirst(s: seq<Wc>)
    requires s != []
    ensures multiset(Completed(s)) == multiset{s[0].wr} + multiset(Completed(s[1..]))
  {
    assert Completed(s) == [s[0].wr] + Completed(s[1..]);
  }

  lemma TakenMore(s: seq<Delivery>, e: Delivery)
    ensures multiset(Taken(s + [e])) == multiset(Taken(s)) + multiset{e.wc.wr}
  {
    assert Taken(s + [e]) == Taken(s) + [e.wc.wr];
  }

  lemma PollConserves(q: Qp, pid: int, works: bool)
    requires QpOk(q)
    ensures QpOk(PollOne(q, pid, works).0)
  {
    if works && q.cq != [] {
      var e := Delivery(pid, q.cq[0]);
      CompletedFirst(q.cq);
      if Proper(e) { TakenMore(q.delivered, e); } else { TakenMore(q.discarded, e); }
    }
  }

  lemma UseConserves(q: Qp, use: Use, req: Request, ok: bool)
    requires QpOk(q) && (req.Post? || req.Poll?)
    ensures QpOk(UseQp(q, use, req, ok).0)
  {
    if use.UsePost? && req.Post? { PostConserves(q, HardwareWr(req.wr, use.offset), ok); }
    else { PollConserves(q, req.pid, ok); }
  }

  // ----- every step -----

  lemma SetQpConserves(d: Shared, p: Ptr, q: Qp)
    requires QpsOk(d) && p in d.conns && QpOk(q)
    ensures QpsOk(SetQp(d, p, q))
  {
  }

  predicate Untouched(q: Qp) {
    q.sq == [] && q.rq == [] && q.cq == [] && q.accepted == [] && q.delivered == [] && q.discarded == []
  }

  /** Every queue pair of `d'` was there in `d`, or is new. */
  ghost predicate QpsKept(d: Shared, d': Shared) {
    forall p :: HasQp(d', p) ==>
      (HasQp(d, p) && d'.conns[p].qp == d.conns[p].qp) || Untouched(d'.conns[p].qp.value)
  }

  lemma KeptConserves(d: Shared, d': Shared)
    requires QpsOk(d) && QpsKept(d, d')
    ensures QpsOk(d')
  {
    forall p | HasQp(d', p) ensures QpOk(d'.conns[p].qp.value) {
      if HasQp(d, p) && d'.conns[p].qp == d.conns[p].qp { assert QpOk(d.conns[p].qp.value); }
    }
  }

  lemma JoinKeepsQps(d: Shared, key: HostKey, p: Ptr)
    requires LiveOrNull(d, key)
    ensures QpsKept(d, JoinHost(d, key, p).0)
  {
  }

  lemma ModifyKeepsQps(d: Shared, th: Thread, c: Choice)
    requires th.req.Modify? && !th.pc.MConn? && ModifyMove(d, th, c).Go?
    ensures QpsKept(d, ModifyMove(d, th, c).d)
  {
    if th.pc.MHost? { JoinKeepsQps(d, th.key, th.pc.newConn); }
  }

  lemma DropKeepsQps(d: Shared, key: HostKey)
    requires LiveOrNull(d, key)
    ensures QpsKept(d, DropRef(d, key).0)
  {
  }

  lemma DestroyKeepsQps(d: Shared, th: Thread)
    requires th.req.Destroy? && DestroyMove(d, th).Go?
    ensures QpsKept(d, DestroyMove(d, th).d)
  {
    if th.pc.DHost? { DropKeepsQps(d, th.key); }
  }

  lemma ReadyConserves(d: Shared, p: Ptr, conn: Conn)
    requires QpsOk(d) && HasQp(d, p) && conn.qp.Some? && QpOk(conn.qp.value)
    ensures QpsOk(SetConn(d, p, conn))
  {
  }

  lemma UseMoveConserves(d: Shared, th: Thread, c: Choice)
    requires QpsOk(d) && (th.req.Post? || th.req.Poll?) && UseMove(d, th, c).Go?
    ensures QpsOk(UseMove(d, th, c).d)
  {
    if th.pc.UConn? {
      var q := d.conns[th.pc.conn].qp.value;
      UseConserves(q, th.pc.use, th.req, c.ok);
      SetQpConserves(d, th.pc.conn, UseQp(q, th.pc.use, th.req, c.ok).0);
    }
  }

  lemma ModifyConserves(d: Shared, th: Thread, c: Choice)
    requires QpsOk(d) && th.req.Modify? && ModifyMove(d, th, c).Go?
    ensures QpsOk(ModifyMove(d, th, c).d)
  {
    if th.pc.MConn? {
      var conn := d.conns[th.pc.conn];
      assert QpOk(conn.qp.value);
      assert QpOk(MakeReady(conn, th.pc.dstQpn, c.reach).qp.value);
      ReadyConserves(d, th.pc.conn, MakeReady(conn, th.pc.dstQpn, c.reach));
    } else {
      ModifyKeepsQps(d, th, c);
      KeptConserves(d, ModifyMove(d, th, c).d);
    }
  }

  lemma MoveConserves(d: Shared, th: Thread, c: Choice)
    requires QpsOk(d) && MoveOf(d, th, c).Go?
    ensures QpsOk(MoveOf(d, th, c).d)
  {
    if th.req.Modify? { ModifyConserves(d, th, c); }
    else if th.req.Post? || th.req.Poll? { UseMoveConserves(d, th, c); }
    else if th.req.Destroy? { DestroyKeepsQps(d, th); KeptConserves(d, DestroyMove(d, th).d); }
    else { KeptConserves(d, MoveOf(d, th, c).d); }
  }

  lemma StepConserves(r: Router, a: Action)
    requires QpsOk(r.d) && Enabled(r, a)
    ensures QpsOk(Next(r, a).d)
  {
    match a
    case Run(t, c) => if MoveOf(r.d, r.threads[t], c).Go? { MoveConserves(r.d, r.threads[t], c); }
    case Hardware(p, kind, ok) =>
      CompleteConserves(r.d.conns[p].qp.value, kind, ok);
      SetQpConserves(r.d, p, Complete(r.d.conns[p].qp.value, kind, ok));
    case _ =>
  }

  /** Of every live queue pair and at any time: the accepted requests are those
      outstanding, those completed and not yet polled, those delivered and those
      discarded; a delivered completion has status SUCCESS and answers a request
      that was accepted and carries the pid of the process it is delivered to as
      its wr_id; a discarded one fails one of the two checks. */
  lemma {:induction false} CompletionConservation(rs: seq<Router>, acts: seq<Action>, i: nat)
    requires IsRun(rs, acts) && i < |rs|
    ensures forall p :: HasQp(rs[i].d, p) ==>
      var q := rs[i].d.conns[p].qp.value;
      && multiset(q.accepted) == multiset(q.sq) + multiset(q.rq) + multiset(Completed(q.cq))
                                 + multiset(Taken(q.delivered)) + multiset(Taken(q.discarded))
      && (forall e :: e in q.delivered ==> e.wc.ok && e.wc.wr.wrId == e.pid && e.wc.wr in q.accepted)
      && (forall e :: e in q.discarded ==> !e.wc.ok || e.wc.wr.wrId != e.pid)
  {
    RunConserves(rs, acts, i);
    forall p, e | HasQp(rs[i].d, p) && e in rs[i].d.conns[p].qp.value.delivered
      ensures e.wc.wr in rs[i].d.conns[p].qp.value.accepted
    {
      var q := rs[i].d.conns[p].qp.value;
      assert QpOk(q);
      var j :| 0 <= j < |q.delivered| && q.delivered[j] == e;
      assert Taken(q.delivered)[j] == e.wc.wr;
      assert e.wc.wr in multiset(Taken(q.delivered));
      assert e.wc.wr in multiset(q.accepted);
    }
  }

  lemma {:induction false} RunConserves(rs: seq<Router>, acts: seq<Action>, i: nat)
    requires IsRun(rs, acts) && i < |rs|
    ensures QpsOk(rs[i].d)
  {
    if i > 0 {
      RunConserves(rs, acts, i - 1);
      assert StepAt(rs, acts, i - 1);
      StepConserves(rs[i - 1], acts[i - 1]);
    }
  }

  // ----- what the answer to a poll means -----

  lemma PollTakes(q: Qp, pid: int, works: bool)
    ensures var (q', reply) := PollOne(q, pid, works);
      && (reply.PollRsp? && reply.count == 1 ==>
            && q.cq != [] && reply.wc == Some(q.cq[0]) && Proper(Delivery(pid, q.cq[0]))
            && q'.cq == q.cq[1..] && q'.delivered == q.delivered + [Delivery(pid, q.cq[0])])
      && (reply.PollRsp? && reply.count != 1 ==> q' == q && reply.wc == None && (reply.count == 0 ==> q.cq == []))
  {
  }

  /** In this step the handler of a poll, under the mutex of connection `p`, gets its answer. */
  predicate Polls(r: Router, a: Action, t: Tid, pid: int, p: Ptr) {
    && a.Run? && a.t == t && t in r.threads && r.threads[t].req.Poll? && r.threads[t].req.pid == pid
    && r.threads[t].pc.UConn? && r.threads[t].pc.conn == p && HasQp(r.d, p)
  }

  lemma AnswerGiven(r: Router, a: Action, t: Tid)
    requires Enabled(r, a) && t in Next(r, a).threads
    requires Next(r, a).threads[t].req.Poll? && Next(r, a).threads[t].pc.Done?
    requires Next(r, a).threads[t].pc.reply.PollRsp?
    requires t !in r.threads || r.threads[t] != Next(r, a).threads[t]
    ensures t in r.threads && r.threads[t].req == Next(r, a).threads[t].req && r.threads[t].pc.UConn?
    ensures var p := r.threads[t].pc.conn;
      && Polls(r, a, t, r.threads[t].req.pid, p) && HasQp(Next(r, a).d, p)
      && (Next(r, a).d.conns[p].qp.value, Next(r, a).threads[t].pc.reply)
           == PollOne(r.d.conns[p].qp.value, r.threads[t].req.pid, a.c.ok)
  {
  }

  /** What a client learns from a poll. The answer was given at some step, under the mutex of a
      connection. A count of 1 comes with the completion that was then the oldest in the queue: it
      was taken out and recorded as delivered to the poller's process, its status is SUCCESS, and
      it answers a request that was accepted and carries the pid. Any other answer comes with no
      completion and took none; a count of 0 was given on an empty queue. */
  lemma {:induction false} PollAnswers(rs: seq<Router>, acts: seq<Action>, i: nat, t: Tid) returns (m: nat, p: Ptr)
    requires IsRun(rs, acts) && i < |rs| && t in rs[i].threads && rs[i].threads[t].req.Poll?
    requires rs[i].threads[t].pc.Done? && rs[i].threads[t].pc.reply.PollRsp?
    ensures m < i && Polls(rs[m], acts[m], t, rs[i].threads[t].req.pid, p) && HasQp(rs[m + 1].d, p)
    ensures var q, q' := rs[m].d.conns[p].qp.value, rs[m + 1].d.conns[p].qp.value;
      var pid, reply := rs[i].threads[t].req.pid, rs[i].threads[t].pc.reply;
      if reply.count == 1 then
        && q.cq != [] && reply.wc == Some(q.cq[0]) && q'.cq == q.cq[1..]
        && q'.delivered == q.delivered + [Delivery(pid, q.cq[0])]
        && q.cq[0].ok && q.cq[0].wr.wrId == pid && q.cq[0].wr in q.accepted
      else reply.wc == None && q' == q && (reply.count == 0 ==> q.cq == [])
  {
    assert i > 0;
    assert StepAt(rs, acts, i - 1);
    var r := rs[i - 1];
    if t in r.threads && r.threads[t] == rs[i].threads[t] {
      m, p := PollAnswers(rs, acts, i - 1, t);
    } else {
      AnswerGiven(r, acts[i - 1], t);
      m, p := i - 1, r.threads[t].pc.conn;
      PollTakes(r.d.conns[p].qp.value, r.threads[t].req.pid, acts[m].c.ok);
      RunConserves(rs, acts, m);
      OldestAccepted(r.d.conns[p].qp.value);
    }
  }

  lemma OldestAccepted(q: Qp)
    requires QpOk(q)
    ensures q.cq != [] ==> q.cq[0].wr in q.accepted
  {
    if q.cq != [] {
      CompletedFirst(q.cq);
      assert q.cq[0].wr in multiset(Completed(q.cq));
      assert q.cq[0].wr in multiset(q.accepted);
    }
  }
}
