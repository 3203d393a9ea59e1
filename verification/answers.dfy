/** What the answer of each request means, in every interleaving: the step that gave it and what
    the router's data was then. */
module Answers {
  import opened Types
  import opened Sections
  import opened Machine
  import opened References
  import opened Completions
  import opened Posting

  // ----- the step that gives the answer -----

  /** In this step handler `t` ends with `reply`. */
  predicate Ends(r: Router, a: Action, t: Tid, req: Request, reply: Reply) {
    && a.Run? && a.t == t && CanRun(r, t, a.c) && r.threads[t].req == req
    && RunStep(r, t, a.c).threads[t].pc == Done(reply)
  }

  lemma EndsOrStays(r: Router, a: Action, t: Tid)
    requires Enabled(r, a) && t in Next(r, a).threads && Next(r, a).threads[t].pc.Done?
    ensures var th' := Next(r, a).threads[t];
      (t in r.threads && r.threads[t] == th') || Ends(r, a, t, th'.req, th'.pc.reply)
  {
  }

  lemma {:induction false} EndStep(rs: seq<Router>, acts: seq<Action>, i: nat, t: Tid) returns (m: nat)
    requires IsRun(rs, acts) && i < |rs| && t in rs[i].threads && rs[i].threads[t].pc.Done?
    ensures m < i && Ends(rs[m], acts[m], t, rs[i].threads[t].req, rs[i].threads[t].pc.reply)
  {
    assert i > 0;
    assert StepAt(rs, acts, i - 1);
    EndsOrStays(rs[i - 1], acts[i - 1], t);
    if t in rs[i - 1].threads && rs[i - 1].threads[t] == rs[i].threads[t] {
      m := EndStep(rs, acts, i - 1, t);
    } else {
      m := i - 1;
    }
  }

  // ----- posts -----

  /** A handler of a post looks for its queue pair with the offset it found. */
  predicate CarriesOffset(th: Thread) {
    th.req.Post? && (th.pc.USrc? || th.pc.UHost? || th.pc.UConn?) ==> th.pc.use.UsePost?
  }

  lemma {:induction false} AllCarryOffsets(rs: seq<Router>, acts: seq<Action>, i: nat, t: Tid)
    requires IsRun(rs, acts) && i < |rs| && t in rs[i].threads
    ensures CarriesOffset(rs[i].threads[t])
  {
    if i > 0 && t in rs[i - 1].threads { AllCarryOffsets(rs, acts, i - 1, t); }
    if i > 0 { assert StepAt(rs, acts, i - 1); }
  }

  /** The router refuses the post at this step: its lkey is not registered, it is a receive under
      another pid, its handle is not connected, or the device does not take it. */
  predicate Refuses(d: Shared, th: Thread, c: Choice)
    requires th.req.Post?
  {
    var wr := th.req.wr;
    match th.pc
    case ULkey => wr.lkey !in d.lkeyOffsetMap || (wr.kind.Recv? && wr.wrId != th.req.pid)
    case USrc(_) => th.req.h !in d.srcQpMap
    case UHost(_) => th.key !in d.hostMap || d.hostMap[th.key] == NULL
    case UConn(use, p) =>
      && use.UsePost? && HasQp(d, p)
      && (!c.ok || if wr.kind.Send? then !d.conns[p].qp.value.state.Rts? else d.conns[p].qp.value.state.Reset?)
    case _ => false
  }

  lemma PostEnds(r: Router, a: Action, t: Tid, req: Request, reply: Reply)
    requires req.Post? && Ends(r, a, t, req, reply) && CarriesOffset(r.threads[t])
    ensures reply == PostRsp(req.pid) || reply == Killed
    ensures reply == PostRsp(req.pid) <==> Posts(r, a)
    ensures reply == Killed <==> Refuses(r.d, r.threads[t], a.c)
    ensures reply == Killed ==> Next(r, a).d == r.d
  {
  }

  /** What a client learns from a post. Success comes with its pid, at the step at which the device
      took the request, which is then the last one accepted on the handler's connection. A client
      that gets no answer was refused for one of the four reasons, and nothing changed. */
  lemma PostAnswers(rs: seq<Router>, acts: seq<Action>, i: nat, t: Tid) returns (m: nat)
    requires IsRun(rs, acts) && i < |rs| && t in rs[i].threads && rs[i].threads[t].req.Post?
    requires rs[i].threads[t].pc.Done?
    ensures var req, reply := rs[i].threads[t].req, rs[i].threads[t].pc.reply;
      && m < i && Ends(rs[m], acts[m], t, req, reply)
      && (reply == PostRsp(req.pid) || reply == Killed)
      && (reply == PostRsp(req.pid) ==>
            && Posts(rs[m], acts[m]) && acts[m].t == t && HasQp(rs[m + 1].d, rs[m].threads[t].pc.conn)
            && var p, o := rs[m].threads[t].pc.conn, rs[m].threads[t].pc.use.offset;
               rs[m + 1].d.conns[p].qp.value.accepted
                 == rs[m].d.conns[p].qp.value.accepted + [HardwareWr(req.wr, o)])
      && (reply == Killed ==> Refuses(rs[m].d, rs[m].threads[t], acts[m].c) && rs[m + 1].d == rs[m].d)
  {
    m := EndStep(rs, acts, i, t);
    assert StepAt(rs, acts, m);
    AllCarryOffsets(rs, acts, m, t);
    PostEnds(rs[m], acts[m], t, rs[i].threads[t].req, rs[i].threads[t].pc.reply);
    if Posts(rs[m], acts[m]) { PostsAppends(rs[m], acts[m]); }
  }

  // ----- polls -----

  /** The router gives a poll no answer: its handle is not connected, or the oldest completion has
      failed or carries another wr_id, and is recorded as discarded. */
  predicate Fails(d: Shared, d': Shared, th: Thread)
    requires th.req.Poll?
  {
    match th.pc
    case USrc(_) => th.req.h !in d.srcQpMap && d' == d
    case UHost(_) => (th.key !in d.hostMap || d.hostMap[th.key] == NULL) && d' == d
    case UConn(_, p) =>
      && HasQp(d, p) && HasQp(d', p) && d.conns[p].qp.value.cq != []
      && var q, wc := d.conns[p].qp.value, d.conns[p].qp.value.cq[0];
         && !(wc.ok && wc.wr.wrId == th.req.pid)
         && d'.conns[p].qp.value == q.(cq := q.cq[1..], discarded := q.discarded + [Delivery(th.req.pid, wc)])
    case _ => false
  }

  lemma PollEnds(r: Router, a: Action, t: Tid, req: Request, reply: Reply)
    requires req.Poll? && Ends(r, a, t, req, reply)
    ensures reply.PollRsp? || reply == Killed
    ensures reply == Killed ==> Fails(r.d, Next(r, a).d, r.threads[t])
  {
  }

  /** A poll that is not answered failed for one of these reasons; `PollAnswers` is about the others. */
  lemma PollUnanswered(rs: seq<Router>, acts: seq<Action>, i: nat, t: Tid) returns (m: nat)
    requires IsRun(rs, acts) && i < |rs| && t in rs[i].threads && rs[i].threads[t].req.Poll?
    requires rs[i].threads[t].pc.Done? && !rs[i].threads[t].pc.reply.PollRsp?
    ensures rs[i].threads[t].pc.reply == Killed
    ensures m < i && Ends(rs[m], acts[m], t, rs[i].threads[t].req, Killed)
    ensures Fails(rs[m].d, rs[m + 1].d, rs[m].threads[t])
  {
    m := EndStep(rs, acts, i, t);
    assert StepAt(rs, acts, m);
    PollEnds(rs[m], acts[m], t, rs[i].threads[t].req, rs[i].threads[t].pc.reply);
  }

  // ----- IBV_MODIFY_QP -----

  lemma ModifyEnds(r: Router, a: Action, t: Tid, req: Request, reply: Reply)
    requires req.Modify? && Ends(r, a, t, req, reply)
    ensures reply.ModifyRsp? ==>
      && r.threads[t].pc.MConn? && HasQp(Next(r, a).d, r.threads[t].pc.conn)
      && (reply.ready <==> Next(r, a).d.conns[r.threads[t].pc.conn].status == 4)
    ensures !reply.ModifyRsp? ==>
      && reply == Killed && Next(r, a).d == r.d
      && ((r.threads[t].pc.MSend? && !a.c.ok) || (r.threads[t].pc.MHost2? && !LookupHost(r.d, r.threads[t].key).Found?))
  {
  }

  /** The answer of an IBV_MODIFY_QP says whether its connection is ready at that step; it is not
      answered only if the peer could not be told or the connection is gone. */
  lemma ModifyAnswers(rs: seq<Router>, acts: seq<Action>, i: nat, t: Tid) returns (m: nat)
    requires IsRun(rs, acts) && i < |rs| && t in rs[i].threads && rs[i].threads[t].req.Modify?
    requires rs[i].threads[t].pc.Done?
    ensures var reply := rs[i].threads[t].pc.reply;
      && m < i && Ends(rs[m], acts[m], t, rs[i].threads[t].req, reply)
      && (reply.ModifyRsp? ==>
            && rs[m].threads[t].pc.MConn? && HasQp(rs[m + 1].d, rs[m].threads[t].pc.conn)
            && (reply.ready <==> rs[m + 1].d.conns[rs[m].threads[t].pc.conn].status == 4))
      && (!reply.ModifyRsp? ==>
            && reply == Killed && rs[m + 1].d == rs[m].d
            && ((rs[m].threads[t].pc.MSend? && !acts[m].c.ok)
                || (rs[m].threads[t].pc.MHost2? && !LookupHost(rs[m].d, rs[m].threads[t].key).Found?)))
  {
    m := EndStep(rs, acts, i, t);
    assert StepAt(rs, acts, m);
    ModifyEnds(rs[m], acts[m], t, rs[i].threads[t].req, rs[i].threads[t].pc.reply);
  }

  // ----- IBV_DESTROY_QP -----

  /** In this step handler `t` of an IBV_DESTROY_QP unmaps its handle, or finds it unmapped. */
  predicate Unmaps(r: Router, a: Action, t: Tid, h: Handle) {
    && a.Run? && a.t == t && CanRun(r, t, a.c) && r.threads[t].pc.DSrc?
    && r.threads[t].req.Destroy? && r.threads[t].req.h == h
  }

  /** The handler has found its handle mapped. */
  predicate HadHandle(th: Thread) { th.pc.DHost? || th.pc.DConn? || th.pc == Done(DestroyRsp(true)) }

  predicate PastUnmap(th: Thread) { th.req.Destroy? && !th.pc.DSrc? }

  lemma DestroyEnds(d: Shared, th: Thread)
    requires th.req.Destroy? && HostOk(d) && ThreadOk(d, th) && RequestOk(d.gid, th) && Active(th)
    ensures var mv := DestroyMove(d, th);
      && mv.Go? && !mv.pc.DSrc? && (mv.pc.Done? ==> mv.pc.reply.DestroyRsp?)
      && var had := if th.pc.DSrc? then th.req.h in d.srcQpMap else HadHandle(th);
         HadHandle(Thread(th.req, mv.key, mv.pc, false)) <==> had
  {
  }

  lemma UnmapOrPast(r: Router, a: Action, t: Tid)
    requires ThreadsOk(r) && RequestsOk(r) && HostOk(r.d) && Enabled(r, a)
    requires t in Next(r, a).threads && PastUnmap(Next(r, a).threads[t])
    ensures var th' := Next(r, a).threads[t];
      || (t in r.threads && PastUnmap(r.threads[t]) && r.threads[t].req == th'.req
          && (HadHandle(r.threads[t]) <==> HadHandle(th'))
          && (th'.pc.Done? ==> th'.pc.reply.DestroyRsp? || th'.pc == r.threads[t].pc))
      || (Unmaps(r, a, t, th'.req.h) && (HadHandle(th') <==> th'.req.h in r.d.srcQpMap)
          && (th'.pc.Done? ==> th'.pc.reply.DestroyRsp?))
  {
    if a.Run? && a.t == t && r.threads[t].req.Destroy? {
      assert ThreadOk(r.d, r.threads[t]) && RequestOk(r.d.gid, r.threads[t]);
      DestroyEnds(r.d, r.threads[t]);
    }
  }

  /** What a client learns from an IBV_DESTROY_QP: it is answered with success if and only if its
      handle was mapped at the step at which it looked. */
  lemma {:induction false} DestroyAnswers(rs: seq<Router>, acts: seq<Action>, i: nat, t: Tid) returns (m: nat)
    requires IsRun(rs, acts) && i < |rs| && t in rs[i].threads && PastUnmap(rs[i].threads[t])
    requires forall j {:trigger Fits(rs[j])} :: 0 <= j < |rs| ==> Fits(rs[j])
    ensures m < i && Unmaps(rs[m], acts[m], t, rs[i].threads[t].req.h)
    ensures HadHandle(rs[i].threads[t]) <==> rs[i].threads[t].req.h in rs[m].d.srcQpMap
    ensures rs[i].threads[t].pc.Done? ==>
              rs[i].threads[t].pc == Done(DestroyRsp(rs[i].threads[t].req.h in rs[m].d.srcQpMap))
  {
    assert i > 0;
    assert StepAt(rs, acts, i - 1);
    RunKeeps(rs, acts, i - 1);
    UnmapOrPast(rs[i - 1], acts[i - 1], t);
    if Unmaps(rs[i - 1], acts[i - 1], t, rs[i].threads[t].req.h) {
      m := i - 1;
    } else {
      m := DestroyAnswers(rs, acts, i - 1, t);
    }
  }

  // ----- IBV_REG_MR, IBV_DEREG_MR -----

  lemma RegEnds(r: Router, a: Action, t: Tid, req: Request, reply: Reply)
    requires req.RegMr? && Ends(r, a, t, req, reply)
    ensures reply.RegMrRsp? || reply == Killed
    ensures reply == Killed <==> r.threads[t].pc.RegShm? && (AsInt32(req.length) <= 0 || !a.c.ok)
    ensures reply == Killed ==> Next(r, a).d == r.d
  {
  }

  /** A registration is not answered if and only if its length as an int is not positive or the
      segment or the region cannot be made; `RegistrationStored` is about the others. */
  lemma RegUnanswered(rs: seq<Router>, acts: seq<Action>, i: nat, t: Tid) returns (m: nat)
    requires IsRun(rs, acts) && i < |rs| && t in rs[i].threads && rs[i].threads[t].req.RegMr?
    requires rs[i].threads[t].pc.Done?
    ensures var req, reply := rs[i].threads[t].req, rs[i].threads[t].pc.reply;
      && m < i && Ends(rs[m], acts[m], t, req, reply) && (reply.RegMrRsp? || reply == Killed)
      && (reply == Killed <==> rs[m].threads[t].pc.RegShm? && (AsInt32(req.length) <= 0 || !acts[m].c.ok))
      && (reply == Killed ==> rs[m + 1].d == rs[m].d)
  {
    m := EndStep(rs, acts, i, t);
    assert StepAt(rs, acts, m);
    RegEnds(rs[m], acts[m], t, rs[i].threads[t].req, rs[i].threads[t].pc.reply);
  }

  /** In this step handler `t` of an IBV_DEREG_MR looks for its lkey. */
  predicate Looks(r: Router, a: Action, t: Tid, l: Lkey) {
    && a.Run? && a.t == t && CanRun(r, t, a.c) && r.threads[t].pc.DeLkey?
    && r.threads[t].req.DeregMr? && r.threads[t].req.lkey == l
  }

  predicate HadLkey(th: Thread) { th.pc.DeHw? || th.pc == Done(DeregMrRsp(true)) }

  predicate PastLkey(th: Thread) { th.req.DeregMr? && (th.pc.DeHw? || th.pc.Done?) }

  lemma LookOrPast(r: Router, a: Action, t: Tid)
    requires Enabled(r, a) && t in Next(r, a).threads && PastLkey(Next(r, a).threads[t])
    ensures var th' := Next(r, a).threads[t];
      || (t in r.threads && PastLkey(r.threads[t]) && r.threads[t].req == th'.req
          && (HadLkey(r.threads[t]) <==> HadLkey(th'))
          && (th'.pc.Done? ==> th'.pc.reply.DeregMrRsp? || th'.pc == r.threads[t].pc))
      || (Looks(r, a, t, th'.req.lkey) && (HadLkey(th') <==> th'.req.lkey in r.d.lkeyOffsetMap)
          && (th'.pc.Done? ==> th'.pc.reply.DeregMrRsp?))
  {
  }

  /** What a client learns from an IBV_DEREG_MR: it is answered with success if and only if its lkey
      had an offset at the step at which it looked. */
  lemma {:induction false} DeregAnswers(rs: seq<Router>, acts: seq<Action>, i: nat, t: Tid) returns (m: nat)
    requires IsRun(rs, acts) && i < |rs| && t in rs[i].threads && PastLkey(rs[i].threads[t])
    ensures m < i && Looks(rs[m], acts[m], t, rs[i].threads[t].req.lkey)
    ensures HadLkey(rs[i].threads[t]) <==> rs[i].threads[t].req.lkey in rs[m].d.lkeyOffsetMap
    ensures rs[i].threads[t].pc.Done? ==>
              rs[i].threads[t].pc == Done(DeregMrRsp(rs[i].threads[t].req.lkey in rs[m].d.lkeyOffsetMap))
  {
    assert i > 0;
    assert StepAt(rs, acts, i - 1);
    LookOrPast(rs[i - 1], acts[i - 1], t);
    if Looks(rs[i - 1], acts[i - 1], t, rs[i].threads[t].req.lkey) {
      m := i - 1;
    } else {
      m := DeregAnswers(rs, acts, i - 1, t);
    }
  }
}
