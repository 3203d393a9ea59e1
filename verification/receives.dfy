/** Receives: the router lets a process post receives only under its own pid, so what arrives is
    delivered to the process that asked for it. */
module Receives {
  import opened Types
  import opened Sections
  import opened Machine
  import opened Completions
  import opened Posting

  lemma CheckedOn(r: Router, a: Action, t: Tid)
    requires Enabled(r, a) && t in Next(r, a).threads && Carries(Next(r, a).threads[t])
    ensures var th' := Next(r, a).threads[t];
      || (th'.req.wr.kind.Recv? ==> th'.req.wr.wrId == th'.req.pid)
      || (t in r.threads && Carries(r.threads[t]) && r.threads[t].req == th'.req)
  {
  }

  /** A receive gets past the lkey section only with the pid as its wr_id. */
  lemma {:induction false} CarriesOwnPid(rs: seq<Router>, acts: seq<Action>, i: nat, t: Tid)
    requires IsRun(rs, acts) && i < |rs| && t in rs[i].threads && Carries(rs[i].threads[t])
    ensures rs[i].threads[t].req.wr.kind.Recv? ==> rs[i].threads[t].req.wr.wrId == rs[i].threads[t].req.pid
  {
    assert i > 0;
    assert StepAt(rs, acts, i - 1);
    CheckedOn(rs[i - 1], acts[i - 1], t);
    if t in rs[i - 1].threads && Carries(rs[i - 1].threads[t]) && rs[i - 1].threads[t].req == rs[i].threads[t].req {
      CarriesOwnPid(rs, acts, i - 1, t);
    }
  }

  // ----- where accepted requests come from -----

  /** The requests the device has accepted on connection `p`. */
  function Accepted(d: Shared, p: Ptr): seq<Wr> {
    if HasQp(d, p) then d.conns[p].qp.value.accepted else []
  }

  /** In this step the request of handler `a.t` is accepted on connection `p` as `wr`. */
  predicate PostedAs(r: Router, a: Action, p: Ptr, wr: Wr) {
    && Posts(r, a) && r.threads[a.t].pc.conn == p
    && wr == HardwareWr(r.threads[a.t].req.wr, r.threads[a.t].pc.use.offset)
  }

  lemma KeptAccepted(d: Shared, d': Shared, p: Ptr)
    requires QpsKept(d, d')
    ensures Accepted(d', p) == Accepted(d, p) || Accepted(d', p) == []
  {
  }

  lemma ModifyAccepts(d: Shared, th: Thread, c: Choice, p: Ptr)
    requires th.req.Modify? && ModifyMove(d, th, c).Go?
    ensures Accepted(ModifyMove(d, th, c).d, p) == Accepted(d, p) || Accepted(ModifyMove(d, th, c).d, p) == []
  {
    if !th.pc.MConn? {
      ModifyKeepsQps(d, th, c);
      KeptAccepted(d, ModifyMove(d, th, c).d, p);
    }
  }

  lemma PollAccepts(q: Qp, pid: int, works: bool)
    ensures PollOne(q, pid, works).0.accepted == q.accepted
  {
  }

  lemma UseAccepts(r: Router, a: Action, p: Ptr)
    requires a.Run? && CanRun(r, a.t, a.c) && (r.threads[a.t].req.Post? || r.threads[a.t].req.Poll?)
    requires UseMove(r.d, r.threads[a.t], a.c).Go?
    ensures var d' := UseMove(r.d, r.threads[a.t], a.c).d;
      || Accepted(d', p) == Accepted(r.d, p)
      || exists wr :: PostedAs(r, a, p, wr) && Accepted(d', p) == Accepted(r.d, p) + [wr]
  {
    var th := r.threads[a.t];
    if th.pc.UConn? && th.pc.conn == p {
      if th.pc.use.UsePost? && th.req.Post? {
        var wr := HardwareWr(th.req.wr, th.pc.use.offset);
        if Posts(r, a) { assert PostedAs(r, a, p, wr); }
      } else {
        PollAccepts(r.d.conns[p].qp.value, th.req.pid, a.c.ok);
      }
    }
  }

  /** A step accepts nothing but the request of the handler that runs. */
  lemma StepAccepts(r: Router, a: Action, p: Ptr)
    requires Enabled(r, a)
    ensures var before, after := Accepted(r.d, p), Accepted(Next(r, a).d, p);
      after == before || after == [] || exists wr :: PostedAs(r, a, p, wr) && after == before + [wr]
  {
    if a.Run? && MoveOf(r.d, r.threads[a.t], a.c).Go? {
      var th := r.threads[a.t];
      if th.req.Modify? { ModifyAccepts(r.d, th, a.c, p); }
      else if th.req.Destroy? { DestroyKeepsQps(r.d, th); KeptAccepted(r.d, DestroyMove(r.d, th).d, p); }
      else if th.req.Post? || th.req.Poll? { UseAccepts(r, a, p); }
      else { assert Next(r, a).d.conns == r.d.conns; }
    }
  }

  /** Every accepted request was posted by a handler on that connection; a receive carries the pid
      of the process that posted it. */
  lemma {:induction false} AcceptedPosted(rs: seq<Router>, acts: seq<Action>, i: nat, p: Ptr, wr: Wr) returns (m: nat)
    requires IsRun(rs, acts) && i < |rs| && wr in Accepted(rs[i].d, p)
    ensures m < i && PostedAs(rs[m], acts[m], p, wr)
    ensures var req := rs[m].threads[acts[m].t].req;
      wr.wrId == req.wr.wrId && (wr.kind.Recv? ==> wr.wrId == req.pid)
  {
    assert i > 0;
    assert StepAt(rs, acts, i - 1);
    StepAccepts(rs[i - 1], acts[i - 1], p);
    if wr in Accepted(rs[i - 1].d, p) {
      m := AcceptedPosted(rs, acts, i - 1, p, wr);
    } else {
      m := i - 1;
      CarriesOwnPid(rs, acts, m, acts[m].t);
    }
  }

  /** A delivered completion answers a request that was posted on its connection, and that of a
      receive is delivered to the process that posted the receive. */
  lemma DeliveredToPoster(rs: seq<Router>, acts: seq<Action>, i: nat, p: Ptr, e: Delivery) returns (m: nat)
    requires IsRun(rs, acts) && i < |rs| && HasQp(rs[i].d, p) && e in rs[i].d.conns[p].qp.value.delivered
    ensures m < i && PostedAs(rs[m], acts[m], p, e.wc.wr)
    ensures e.wc.wr.kind.Recv? ==> rs[m].threads[acts[m].t].req.pid == e.pid
  {
    CompletionConservation(rs, acts, i);
    m := AcceptedPosted(rs, acts, i, p, e.wc.wr);
  }
}
