/** A handle that shares its physical queue pair with no other handle sees a
    private FIFO queue pair, its addresses translated. */
module Transparency {
  import opened Types
  import opened Sections
  import opened Machine
  import opened References
  import opened Safety
  import opened Posting

  // ----- the private queue pair -----

  datatype Fifo = Fifo(sq: seq<Wr>, rq: seq<Wr>, cq: seq<Wc>)

  /** What the owner of a queue pair does and sees, and what its device does. */
  datatype Event =
    | Posted(wr: Wr, offset: int)
    | Polled(wc: Option<Wc>)
    | PollKilled
    | Executed(kind: WrKind, ok: bool)

  /** The state after an event, None if a private queue pair cannot show that event. */
  function After(q: Fifo, e: Event): Option<Fifo> {
    match e
    case Posted(wr, offset) =>
      var hw := HardwareWr(wr, offset);
      Some(if wr.kind.Send? then q.(sq := q.sq + [hw]) else q.(rq := q.rq + [hw]))
    case Polled(None) => if q.cq == [] then Some(q) else None
    case Polled(Some(wc)) => if q.cq != [] && q.cq[0] == wc then Some(q.(cq := q.cq[1..])) else None
    case PollKilled => None
    case Executed(Send, ok) =>
      if q.sq == [] then None else Some(q.(sq := q.sq[1..], cq := q.cq + [Wc(q.sq[0], ok)]))
    case Executed(Recv, ok) =>
      if q.rq == [] then None else Some(q.(rq := q.rq[1..], cq := q.cq + [Wc(q.rq[0], ok)]))
  }

  function Replay(q: Fifo, trace: seq<Event>): Option<Fifo> {
    if trace == [] then Some(q)
    else
      var q' := Replay(q, trace[..|trace| - 1]);
      if q'.None? then None else After(q'.value, trace[|trace| - 1])
  }

  // ----- the router as one handle sees it -----

  function Queues(q: Qp): Fifo {
    Fifo(q.sq, q.rq, q.cq)
  }

  function View(d: Shared, k: HostKey): Fifo {
    if k in d.hostMap && HasQp(d, d.hostMap[k]) then Queues(d.conns[d.hostMap[k]].qp.value) else Fifo([], [], [])
  }

  function PollEvent(reply: Reply): seq<Event> {
    match reply
    case PollRsp(count, wc) => if count < 0 then [] else [Polled(wc)]
    case _ => [PollKilled]
  }

  /** The event, if any, a step is for the handle `h` mapped to the key `k`. */
  function EventsAt(r: Router, a: Action, h: Handle, k: HostKey): (events: seq<Event>)
    requires Enabled(r, a)
    ensures |events| <= 1
  {
    match a
    case Run(t, c) =>
      var th := r.threads[t];
      if (th.req.Post? || th.req.Poll?) && th.req.h == h && th.pc.UConn? && HasQp(r.d, th.pc.conn) then
        var (q, reply) := UseQp(r.d.conns[th.pc.conn].qp.value, th.pc.use, th.req, c.ok);
        if th.req.Poll? then PollEvent(reply)
        else if reply.PostRsp? && th.pc.use.UsePost? then [Posted(th.req.wr, th.pc.use.offset)]
        else []
      else []
    case Hardware(p, kind, ok) => if k in r.d.hostMap && p == r.d.hostMap[k] then [Executed(kind, ok)] else []
    case _ => []
  }

  /** The requests of one process `pid`, completed with success. */
  ghost predicate Clean(q: Fifo, pid: int) {
    && (forall wr :: wr in q.sq ==> wr.wrId == pid)
    && (forall wr :: wr in q.rq ==> wr.wrId == pid)
    && (forall wc :: wc in q.cq ==> wc.ok && wc.wr.wrId == pid)
  }

  /** Handle `h` of process `pid` is the only one mapped to `k` in this state and
      keeps to the client's rules. */
  ghost predicate Sole(r: Router, h: Handle, k: HostKey, pid: int) {
    && h in r.d.srcQpMap
    && (forall h' :: h' in r.d.srcQpMap ==> (r.d.srcQpMap[h'] == k <==> h' == h))
    && (forall t :: t in r.threads && HasHandle(r.threads[t].req) && r.threads[t].req.h == h ==>
          && (r.threads[t].req.Post? ==> r.threads[t].req.pid == pid && r.threads[t].req.wr.wrId == pid)
          && (r.threads[t].req.Poll? ==> r.threads[t].req.pid == pid))
  }

  /** Nothing but the address of a request changes on its way to the device, exactly when
      its length has 32 bits and it sets no field its kind of request does not use. */
  lemma OnlyAddressChanges(wr: Wr, offset: int)
    ensures HardwareWr(wr, offset) == wr.(addr := Translate(wr.addr, offset)) <==>
      && wr.length < TWO_32
      && (wr.kind.Recv? ==> wr.opcode == 0)
      && (wr.kind.Recv? || wr.opcode == IBV_WR_SEND ==> wr.remoteAddr == 0 && wr.rkey == 0)
  {
  }

  /** `enum ibv_wr_opcode`, in order. */
  datatype Opcode =
    | RdmaWrite | RdmaWriteWithImm | SendOp | SendWithImm | RdmaRead | CmpAndSwp | FetchAndAdd | LocalInv | BindMw
    | SendWithInv

  function Number(op: Opcode): nat {
    match op
    case RdmaWrite => 0
    case RdmaWriteWithImm => 1
    case SendOp => 2
    case SendWithImm => 3
    case RdmaRead => 4
    case CmpAndSwp => 5
    case FetchAndAdd => 6
    case LocalInv => 7
    case BindMw => 8
    case SendWithInv => 9
  }

  /** RDMA reads and writes, and everything else but a plain send, reach the device with the remote
      address and key the client gave; a plain send reaches it with none. */
  lemma RemoteKept(wr: Wr, op: Opcode, offset: int)
    requires wr.kind.Send? && wr.opcode == Number(op)
    ensures var hw := HardwareWr(wr, offset);
      && hw.opcode == Number(op)
      && (op != SendOp ==> hw.remoteAddr == wr.remoteAddr && hw.rkey == wr.rkey)
      && (op == SendOp ==> hw.remoteAddr == 0 && hw.rkey == 0)
  {
  }

  // ----- one step -----

  lemma JoinQueuesStay(d: Shared, key: HostKey, q: Ptr, p: Ptr)
    requires LiveOrNull(d, key) && HasQp(d, p)
    ensures HasQp(JoinHost(d, key, q).0, p) && JoinHost(d, key, q).0.conns[p].qp == d.conns[p].qp
  {
  }

  lemma ReadyQueuesStay(conn: Conn, dst: Qpn, reach: nat)
    requires conn.qp.Some?
    ensures MakeReady(conn, dst, reach).qp.Some?
    ensures Queues(MakeReady(conn, dst, reach).qp.value) == Queues(conn.qp.value)
  {
  }

  lemma ModifyQueuesStay(d: Shared, th: Thread, c: Choice, p: Ptr)
    requires HostOk(d) && ThreadOk(d, th) && th.req.Modify? && Admits(d, th, c) && ModifyMove(d, th, c).Go?
    requires HasQp(d, p)
    ensures var d' := ModifyMove(d, th, c).d;
      HasQp(d', p) && Queues(d'.conns[p].qp.value) == Queues(d.conns[p].qp.value)
  {
    if th.pc.MHost? { JoinQueuesStay(d, th.key, th.pc.newConn, p); }
    else if th.pc.MConn? { ReadyQueuesStay(d.conns[th.pc.conn], th.pc.dstQpn, c.reach); }
  }

  lemma OtherQueuesStay(d: Shared, th: Thread, c: Choice, p: Ptr)
    requires RequestOk(d.gid, th) && !th.req.Modify? && MoveOf(d, th, c).Go? && HasQp(d, p)
    requires !(th.pc.UConn? && th.pc.conn == p) && HasQp(MoveOf(d, th, c).d, p)
    ensures Queues(MoveOf(d, th, c).d.conns[p].qp.value) == Queues(d.conns[p].qp.value)
  {
  }

  lemma UseIsPrivate(q: Qp, req: Request, use: Use, ok: bool, pid: int)
    requires Clean(Queues(q), pid)
    requires (req.Post? && use.UsePost? && req.pid == pid && req.wr.wrId == pid)
      || (req.Poll? && use.UsePoll? && req.pid == pid)
    ensures var (q', reply) := UseQp(q, use, req, ok);
      var events := if req.Poll? then PollEvent(reply) else if reply.PostRsp? then [Posted(req.wr, use.offset)] else [];
      Replay(Queues(q), events) == Some(Queues(q')) && Clean(Queues(q'), pid)
  {
    var (q', reply) := UseQp(q, use, req, ok);
    if req.Poll? && ok && q.cq != [] { assert q.cq[0] in q.cq; }
    var events := if req.Poll? then PollEvent(reply) else if reply.PostRsp? then [Posted(req.wr, use.offset)] else [];
    if events != [] { assert events[..0] == []; }
  }

  /** A handler under the mutex of the connection of `k` works for `h`, and conversely. */
  lemma WhoseConn(r: Router, t: Tid, h: Handle, k: HostKey, pid: int)
    requires HostOk(r.d) && Sole(r, h, k, pid) && k in r.d.hostMap
    requires t in r.threads && ThreadSafe(r.d, r.threads[t]) && RequestOk(r.d.gid, r.threads[t])
    requires r.threads[t].pc.UConn?
    ensures r.threads[t].req.h == h <==> r.threads[t].pc.conn == r.d.hostMap[k]
    ensures r.threads[t].req.Post? || r.threads[t].req.Poll?
    ensures r.threads[t].req.h == h && r.threads[t].req.Post? ==>
      r.threads[t].pc.use.UsePost? && r.threads[t].req.pid == pid && r.threads[t].req.wr.wrId == pid
    ensures r.threads[t].req.h == h && r.threads[t].req.Poll? ==>
      r.threads[t].pc.use.UsePoll? && r.threads[t].req.pid == pid
  {
  }

  lemma UseViews(r: Router, t: Tid, c: Choice, h: Handle, k: HostKey)
    requires CanRun(r, t, c) && r.threads[t].pc.UConn? && (r.threads[t].req.Post? || r.threads[t].req.Poll?)
    requires k in r.d.hostMap && HasQp(r.d, r.d.hostMap[k]) && r.threads[t].pc.conn == r.d.hostMap[k]
    requires r.threads[t].req.h == h && (r.threads[t].req.Post? ==> r.threads[t].pc.use.UsePost?)
    ensures var th, q := r.threads[t], r.d.conns[r.d.hostMap[k]].qp.value;
      var (q', reply) := UseQp(q, th.pc.use, th.req, c.ok);
      && View(r.d, k) == Queues(q) && View(RunStep(r, t, c).d, k) == Queues(q')
      && EventsAt(r, Run(t, c), h, k) == if th.req.Poll? then PollEvent(reply)
                                         else if reply.PostRsp? then [Posted(th.req.wr, th.pc.use.offset)] else []
  {
  }

  /** The handle's own post or poll in its last section. */
  lemma OwnUseIsPrivate(r: Router, t: Tid, c: Choice, h: Handle, k: HostKey, pid: int)
    requires Shape(r) && CanRun(r, t, c) && ThreadSafe(r.d, r.threads[t])
    requires k in r.d.hostMap && HasQp(r.d, r.d.hostMap[k])
    requires Sole(r, h, k, pid) && Clean(View(r.d, k), pid) && r.threads[t].pc.UConn? && r.threads[t].req.h == h
    ensures Replay(View(r.d, k), EventsAt(r, Run(t, c), h, k)) == Some(View(RunStep(r, t, c).d, k))
    ensures Clean(View(RunStep(r, t, c).d, k), pid)
  {
    var th := r.threads[t];
    assert RequestOk(r.d.gid, th);
    WhoseConn(r, t, h, k, pid);
    UseViews(r, t, c, h, k);
    UseIsPrivate(r.d.conns[r.d.hostMap[k]].qp.value, th.req, th.pc.use, c.ok, pid);
  }

  /** Any other step of a handler. */
  lemma OthersLeaveView(r: Router, t: Tid, c: Choice, h: Handle, k: HostKey, pid: int)
    requires Shape(r) && CanRun(r, t, c) && ThreadSafe(r.d, r.threads[t])
    requires k in r.d.hostMap && HasQp(r.d, r.d.hostMap[k])
    requires Sole(r, h, k, pid) && !(r.threads[t].pc.UConn? && r.threads[t].req.h == h)
    requires k in RunStep(r, t, c).d.hostMap && HasQp(RunStep(r, t, c).d, RunStep(r, t, c).d.hostMap[k])
    ensures EventsAt(r, Run(t, c), h, k) == [] && View(RunStep(r, t, c).d, k) == View(r.d, k)
  {
    var th := r.threads[t];
    assert ThreadOk(r.d, th) && RequestOk(r.d.gid, th);
    AllMoveSafely(r.d, th, c);
    var p := r.d.hostMap[k];
    if th.pc.UConn? { WhoseConn(r, t, h, k, pid); }
    if th.req.Modify? { ModifyQueuesStay(r.d, th, c, p); } else { OtherQueuesStay(r.d, th, c, p); }
  }

  lemma RunIsPrivate(r: Router, t: Tid, c: Choice, h: Handle, k: HostKey, pid: int)
    requires Shape(r) && CanRun(r, t, c) && ThreadSafe(r.d, r.threads[t]) && HandlesOk(RunStep(r, t, c).d)
    requires Sole(r, h, k, pid) && Sole(RunStep(r, t, c), h, k, pid) && Clean(View(r.d, k), pid)
    ensures Replay(View(r.d, k), EventsAt(r, Run(t, c), h, k)) == Some(View(RunStep(r, t, c).d, k))
    ensures Clean(View(RunStep(r, t, c).d, k), pid)
  {
    var d' := RunStep(r, t, c).d;
    assert KeyReady(r.d, r.d.srcQpMap[h]) && KeyReady(d', d'.srcQpMap[h]);
    if r.threads[t].pc.UConn? && r.threads[t].req.h == h { OwnUseIsPrivate(r, t, c, h, k, pid); }
    else { OthersLeaveView(r, t, c, h, k, pid); }
  }

  lemma HardwareIsPrivate(r: Router, p: Ptr, kind: WrKind, ok: bool, h: Handle, k: HostKey, pid: int)
    requires HandlesOk(r.d) && CanComplete(r, p, kind) && Sole(r, h, k, pid) && Clean(View(r.d, k), pid)
    requires k in r.d.hostMap && r.d.hostMap[k] == p ==> ok
    ensures Replay(View(r.d, k), EventsAt(r, Hardware(p, kind, ok), h, k)) ==
      Some(View(CompleteStep(r, p, kind, ok).d, k))
    ensures Clean(View(CompleteStep(r, p, kind, ok).d, k), pid)
  {
    assert KeyReady(r.d, r.d.srcQpMap[h]);
    var events := EventsAt(r, Hardware(p, kind, ok), h, k);
    if events != [] { assert events[..0] == []; }
  }

  lemma StepIsPrivate(r: Router, a: Action, h: Handle, k: HostKey, pid: int)
    requires Enabled(r, a) && Shape(r) && Safe(r) && HandlesOk(Next(r, a).d)
    requires Sole(r, h, k, pid) && Sole(Next(r, a), h, k, pid) && Clean(View(r.d, k), pid)
    requires Succeeds(r, a, k)
    ensures Replay(View(r.d, k), EventsAt(r, a, h, k)) == Some(View(Next(r, a).d, k))
    ensures Clean(View(Next(r, a).d, k), pid)
  {
    match a
    case Run(t, c) => assert ThreadSafe(r.d, r.threads[t]); RunIsPrivate(r, t, c, h, k, pid);
    case Hardware(p, kind, ok) => HardwareIsPrivate(r, p, kind, ok, h, k, pid);
    case _ => assert View(Next(r, a).d, k) == View(r.d, k);
  }

  lemma ReplayExtends(q: Fifo, before: seq<Event>, events: seq<Event>)
    requires Replay(q, before).Some? && |events| <= 1
    ensures Replay(q, before + events) == Replay(Replay(q, before).value, events)
  {
    if events == [] { assert before + events == before; }
    else {
      assert events == [events[0]] && events[..0] == [];
      assert (before + events)[..|before + events| - 1] == before;
    }
  }

  // ----- the theorem -----

  /** From state `i` to state `j`, `h` stays the only handle of its host pair, posts
      its own pid as wr_id, and the device completes its requests with success. */
  ghost predicate Session(rs: seq<Router>, acts: seq<Action>, i: nat, j: nat, h: Handle, k: HostKey, pid: int) {
    && IsPoliteRun(rs, acts) && i <= j < |rs|
    && (forall m {:trigger Sole(rs[m], h, k, pid)} :: i <= m <= j ==> Sole(rs[m], h, k, pid))
    && (forall m {:trigger Succeeds(rs[m], acts[m], k)} :: i <= m < j ==> Succeeds(rs[m], acts[m], k))
  }

  /** If the device completes a request of the connection of `k`, it does so with success. */
  predicate Succeeds(r: Router, a: Action, k: HostKey) {
    a.Hardware? && k in r.d.hostMap && r.d.hostMap[k] == a.p ==> a.ok
  }

  /** What the owner of `h` and its device do from state `i` to state `j`. */
  ghost function Trace(rs: seq<Router>, acts: seq<Action>, i: nat, j: nat, h: Handle, k: HostKey): seq<Event>
    requires IsRun(rs, acts) && i <= j < |rs|
    decreases j
  {
    if i == j then []
    else
      assert StepAt(rs, acts, j - 1);
      Trace(rs, acts, i, j - 1, h, k) + EventsAt(rs[j - 1], acts[j - 1], h, k)
  }

  lemma RunStepIsPrivate(rs: seq<Router>, acts: seq<Action>, i: nat, h: Handle, k: HostKey, pid: int)
    requires IsPoliteRun(rs, acts) && i < |acts| && Clean(View(rs[i].d, k), pid)
    requires Sole(rs[i], h, k, pid) && Sole(rs[i + 1], h, k, pid) && Succeeds(rs[i], acts[i], k)
    ensures Enabled(rs[i], acts[i])
    ensures Replay(View(rs[i].d, k), EventsAt(rs[i], acts[i], h, k)) == Some(View(rs[i + 1].d, k))
    ensures Clean(View(rs[i + 1].d, k), pid)
  {
    RunIsSafe(rs, acts, i);
    assert HandlesOk(rs[i + 1].d) by { RunIsSafe(rs, acts, i + 1); }
    assert StepAt(rs, acts, i);
    StepIsPrivate(rs[i], acts[i], h, k, pid);
  }

  lemma SessionStep(rs: seq<Router>, acts: seq<Action>, i: nat, j: nat, h: Handle, k: HostKey, pid: int)
    requires Session(rs, acts, i, j, h, k, pid) && i < j && Clean(View(rs[j - 1].d, k), pid)
    ensures Enabled(rs[j - 1], acts[j - 1])
    ensures Replay(View(rs[j - 1].d, k), EventsAt(rs[j - 1], acts[j - 1], h, k)) == Some(View(rs[j].d, k))
    ensures Clean(View(rs[j].d, k), pid)
  {
    assert Sole(rs[j - 1], h, k, pid) && Sole(rs[j - 1 + 1], h, k, pid) && Succeeds(rs[j - 1], acts[j - 1], k);
    RunStepIsPrivate(rs, acts, j - 1, h, k, pid);
  }

  /** The offset of the event is the one of the region registered under the lkey of the request
      when its handler looked it up, and translates the request into that region. */
  ghost predicate Genuine(rs: seq<Router>, acts: seq<Action>, j: nat, e: Event)
    requires |rs| == |acts| + 1
  {
    e.Posted? ==> exists m, t :: 0 <= m < j && m < |acts| && Translates(rs, acts, m, t, e.wr, e.offset)
  }

  lemma EventGenuine(rs: seq<Router>, acts: seq<Action>, j: nat, h: Handle, k: HostKey, e: Event)
    requires IsRun(rs, acts) && j < |acts| && Enabled(rs[j], acts[j]) && e in EventsAt(rs[j], acts[j], h, k)
    ensures Genuine(rs, acts, j, e)
  {
    if e.Posted? {
      var t := acts[j].t;
      var m := OffsetLookedUp(rs, acts, j, t);
      LookupTranslates(rs, acts, m, t, e.wr, e.offset);
    }
  }

  lemma {:induction false} TraceGenuine(rs: seq<Router>, acts: seq<Action>, i: nat, j: nat, h: Handle,
          k: HostKey, e: Event)
    requires IsRun(rs, acts) && i <= j < |rs| && e in Trace(rs, acts, i, j, h, k)
    ensures Genuine(rs, acts, j, e)
    decreases j
  {
    assert i < j;
    assert StepAt(rs, acts, j - 1);
    if e in EventsAt(rs[j - 1], acts[j - 1], h, k) {
      EventGenuine(rs, acts, j - 1, h, k, e);
    } else {
      TraceGenuine(rs, acts, i, j - 1, h, k, e);
    }
  }

  /** The posts and the poll results that pass through the router in a session are
      exactly those of a private FIFO queue pair to which every request was posted with
      its address translated, by the offset of the region its handler found registered. */
  lemma TransparentSession(rs: seq<Router>, acts: seq<Action>, i: nat, j: nat, h: Handle, k: HostKey, pid: int)
    requires Session(rs, acts, i, j, h, k, pid)
    requires Clean(View(rs[i].d, k), pid)
    ensures Replay(View(rs[i].d, k), Trace(rs, acts, i, j, h, k)) == Some(View(rs[j].d, k))
    ensures Clean(View(rs[j].d, k), pid)
    ensures forall e :: e in Trace(rs, acts, i, j, h, k) ==> Genuine(rs, acts, j, e)
  {
    SessionReplays(rs, acts, i, j, h, k, pid);
    forall e | e in Trace(rs, acts, i, j, h, k)
      ensures Genuine(rs, acts, j, e)
    {
      TraceGenuine(rs, acts, i, j, h, k, e);
    }
  }

  lemma {:induction false} SessionReplays(rs: seq<Router>, acts: seq<Action>, i: nat, j: nat, h: Handle,
          k: HostKey, pid: int)
    requires Session(rs, acts, i, j, h, k, pid)
    requires Clean(View(rs[i].d, k), pid)
    ensures Replay(View(rs[i].d, k), Trace(rs, acts, i, j, h, k)) == Some(View(rs[j].d, k))
    ensures Clean(View(rs[j].d, k), pid)
    decreases j
  {
    if i < j {
      SessionReplays(rs, acts, i, j - 1, h, k, pid);
      SessionStep(rs, acts, i, j, h, k, pid);
      ReplayExtends(View(rs[i].d, k), Trace(rs, acts, i, j - 1, h, k), EventsAt(rs[j - 1], acts[j - 1], h, k));
    }
  }
}
