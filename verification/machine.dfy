/** One router as a transition system: any number of handler threads, one step
    per critical section, with the mutexes explicit. */
module Machine {
  import opened Types
  import opened Sections

  type Tid = nat

  datatype Request =
    | Modify(h: Handle, dst: Gid, pid: int)
    | Post(h: Handle, wr: Wr, pid: int)
    | Poll(h: Handle, pid: int)
    | Destroy(h: Handle, dst: Gid)
    | RegMr(pid: int, clientAddr: nat, length: nat)
    | DeregMr(lkey: Lkey)

  datatype Mutex = HostMapM | SrcQpM | DstQpM | LkeyM | ShmM | ConnM(conn: Ptr)

  /** A post remembers the offset found for its lkey. */
  datatype Use = UsePost(offset: int) | UsePoll

  /** What a handler thread does next. A pc whose `Wants` is a mutex runs under it. */
  datatype Pc =
    // IBV_MODIFY_QP
    | MAlloc
    | MHost(newConn: Ptr)
    | MCreate(newConn: Ptr)
    | MDiscard(newConn: Ptr, oldConn: Ptr)
    | MReadQpn(oldConn: Ptr)
    | MSrc(qpn: Qpn)
    | MSend(qpn: Qpn)
    | MSpin(qpn: Qpn)
    | MHost2(dstQpn: Qpn)
    | MConn(dstQpn: Qpn, conn: Ptr)
    // IBV_POST_SEND, IBV_POST_RECV, IBV_POLL_CQ
    | ULkey
    | USrc(use: Use)
    | UHost(use: Use)
    | UConn(use: Use, conn: Ptr)
    // IBV_DESTROY_QP
    | DSrc
    | DHost
    | DConn(conn: Ptr)
    // IBV_REG_MR, IBV_DEREG_MR
    | RegShm
    | RegLkey(lkey: Lkey, region: Region)
    | DeLkey
    | DeHw
    // the handler has answered, or it has followed a pointer to freed memory
    | Done(reply: Reply)
    | Fault

  /** `key` is the handler's local `hostkey`; `inside` says it holds the mutex `pc` wants. */
  datatype Thread = Thread(req: Request, key: HostKey, pc: Pc, inside: bool)

  datatype Router = Router(d: Shared, owner: map<Mutex, Tid>, threads: map<Tid, Thread>)

  function Wants(pc: Pc): Option<Mutex> {
    match pc
    case MHost(_) | MHost2(_) | UHost(_) | DHost => Some(HostMapM)
    case MSrc(_) | USrc(_) | DSrc => Some(SrcQpM)
    case MSpin(_) => Some(DstQpM)
    case ULkey | RegLkey(_, _) | DeLkey => Some(LkeyM)
    case RegShm => Some(ShmM)
    case MConn(_, c) => Some(ConnM(c))
    case UConn(_, c) => Some(ConnM(c))
    case DConn(c) => Some(ConnM(c))
    case _ => None
  }

  /** The connection whose mutex the thread has held since it allocated it. */
  function NewConn(pc: Pc): Option<Ptr> {
    match pc
    case MHost(p) => Some(p)
    case MCreate(p) => Some(p)
    case MDiscard(p, _) => Some(p)
    case _ => None
  }

  predicate Active(th: Thread) {
    !th.pc.Done? && !th.pc.Fault?
  }

  function StartPc(req: Request): Pc {
    match req
    case Modify(_, _, _) => MAlloc
    case Post(_, _, _) => ULkey
    case Poll(_, _) => USrc(UsePoll)
    case Destroy(_, _) => DSrc
    case RegMr(_, _, _) => RegShm
    case DeregMr(_) => DeLkey
  }

  function StartThread(gid: Gid, req: Request): Thread {
    Thread(req, HostKey(gid, if req.Modify? then req.dst else gid), StartPc(req), false)
  }

  /** What the environment decides in one step. */
  datatype Choice = Choice(ptr: Ptr, qpn: Qpn, lkey: Lkey, reach: nat, ok: bool)

  predicate LiveOrNull(d: Shared, key: HostKey) {
    key in d.hostMap && d.hostMap[key] != NULL ==> d.hostMap[key] in d.conns
  }

  predicate HasQp(d: Shared, p: Ptr) {
    p in d.conns && d.conns[p].qp.Some?
  }

  // ----- the code of the handlers -----

  /** What a step of a handler does: go on at `pc` having left the section it was
      in, end without unlocking, or follow a pointer to freed memory. */
  datatype Move = Go(d: Shared, key: HostKey, pc: Pc) | Abandon | Crash

  function ModifyMove(d: Shared, th: Thread, c: Choice): Move
    requires th.req.Modify?
  {
    match th.pc
    case MAlloc => Go(AllocConn(d, th.key, c.ptr), th.key, MHost(c.ptr))
    case MHost(p) =>
      if !LiveOrNull(d, th.key) then Crash
      else
        var (d', joined) := JoinHost(d, th.key, p);
        Go(d', th.key, if joined == NULL then MCreate(p) else MDiscard(p, joined))
    case MCreate(p) =>
      if p !in d.conns then Crash else Go(CreateQp(d, p, c.qpn), th.key, MSrc(c.qpn))
    case MDiscard(p, joined) => Go(FreeConn(d, p), th.key, MReadQpn(joined))
    case MReadQpn(p) =>
      if !HasQp(d, p) then Crash else Go(d, th.key, MSrc(d.conns[p].qp.value.qpn))
    case MSrc(q) => Go(MapHandle(d, th.req.h, th.key), th.key, MSend(q))
    case MSend(q) => Go(d, th.key, if c.ok then MSpin(q) else Done(Killed))
    case MSpin(q) =>
      Go(d, th.key, if th.req.dst in d.dstQpMap then MHost2(d.dstQpMap[th.req.dst]) else MSpin(q))
    case MHost2(q) =>
      var found := LookupHost(d, th.key);
      if found.Found? then Go(d, th.key, MConn(q, found.conn)) else Abandon
    case MConn(q, p) =>
      if !HasQp(d, p) then Crash
      else
        var conn := MakeReady(d.conns[p], q, c.reach);
        Go(SetConn(d, p, conn), th.key, Done(ModifyRsp(conn.status == 4)))
    case _ => Crash
  }

  function PostLkeyMove(d: Shared, th: Thread): Move
    requires th.req.Post?
  {
    var wr := th.req.wr;
    if wr.lkey !in d.lkeyOffsetMap then Go(d, th.key, Done(Killed))
    else if wr.kind.Recv? && wr.wrId != th.req.pid then Go(d, th.key, Done(Killed))
    else Go(d, th.key, USrc(UsePost(d.lkeyOffsetMap[wr.lkey])))
  }

  /** The section under `conn->mutex` of a post or a poll. */
  function UseQp(q: Qp, use: Use, req: Request, ok: bool): (Qp, Reply)
    requires req.Post? || req.Poll?
  {
    if use.UsePost? && req.Post? then
      var (q', accepted) := PostWr(q, HardwareWr(req.wr, use.offset), ok);
      (q', if accepted then PostRsp(req.pid) else Killed)
    else PollOne(q, req.pid, ok)
  }

  /** IBV_POST_SEND, IBV_POST_RECV and IBV_POLL_CQ. */
  function UseMove(d: Shared, th: Thread, c: Choice): Move
    requires th.req.Post? || th.req.Poll?
  {
    match th.pc
    case ULkey => if th.req.Post? then PostLkeyMove(d, th) else Crash
    case USrc(use) =>
      if th.req.h !in d.srcQpMap then Go(d, th.key, Done(Killed)) else Go(d, d.srcQpMap[th.req.h], UHost(use))
    case UHost(use) =>
      var found := LookupHost(d, th.key);
      Go(d, th.key, if found.Found? then UConn(use, found.conn) else Done(Killed))
    case UConn(use, p) =>
      if !HasQp(d, p) then Crash
      else
        var (q, reply) := UseQp(d.conns[p].qp.value, use, th.req, c.ok);
        Go(SetQp(d, p, q), th.key, Done(reply))
    case _ => Crash
  }

  function AfterDrop(res: Dropped): Pc {
    match res
    case NoKey => Done(DestroyRsp(false))
    case NoConn => Done(Killed)
    case Kept => Done(DestroyRsp(true))
    case Erased(p) => DConn(p)
  }

  function DestroyMove(d: Shared, th: Thread): Move
    requires th.req.Destroy?
  {
    match th.pc
    case DSrc =>
      var (d', key) := UnmapHandle(d, th.req.h);
      if key.Some? then Go(d', key.value, DHost) else Go(d', th.key, Done(DestroyRsp(false)))
    case DHost =>
      if !LiveOrNull(d, th.key) then Crash
      else
        var (d', res) := DropRef(d, th.key);
        Go(d', th.key, AfterDrop(res))
    case DConn(p) =>
      if !HasQp(d, p) then Crash else Go(FreeConn(d, p), th.key, Done(DestroyRsp(true)))
    case _ => Crash
  }

  /** `addShmPiece` and `ibv_reg_mr`, then the lkey_offset_map section. */
  function RegMove(d: Shared, th: Thread, c: Choice): Move
    requires th.req.RegMr?
  {
    match th.pc
    case RegShm =>
      var size := AsInt32(th.req.length);
      if size <= 0 || !c.ok then Go(d, th.key, Done(Killed))
      else
        var region := Region(th.req.pid, th.req.clientAddr, c.ptr, size);
        Go(d.(mrs := d.mrs[c.lkey := region]), th.key, RegLkey(c.lkey, region))
    case RegLkey(l, region) =>
      Go(InsertLkey(d, l, region.clientAddr, region.routerAddr), th.key, Done(RegMrRsp(l, region.routerAddr)))
    case _ => Crash
  }

  /** The lkey_offset_map section, then `ibv_dereg_mr` and `munmap`. */
  function DeregMove(d: Shared, th: Thread): Move
    requires th.req.DeregMr?
  {
    match th.pc
    case DeLkey =>
      var (d', found) := EraseLkey(d, th.req.lkey);
      Go(d', th.key, if found then DeHw else Done(DeregMrRsp(false)))
    case DeHw => Go(d.(mrs := d.mrs - {th.req.lkey}), th.key, Done(DeregMrRsp(true)))
    case _ => Crash
  }

  function MoveOf(d: Shared, th: Thread, c: Choice): Move {
    match th.req
    case Modify(_, _, _) => ModifyMove(d, th, c)
    case Post(_, _, _) => UseMove(d, th, c)
    case Poll(_, _) => UseMove(d, th, c)
    case Destroy(_, _) => DestroyMove(d, th)
    case RegMr(_, _, _) => RegMove(d, th, c)
    case DeregMr(_) => DeregMove(d, th)
  }

  /** The message to another router the step sends, if any. */
  function Sends(d: Shared, th: Thread, c: Choice): Option<Packet> {
    if th.req.Modify? && th.pc.MSend? && c.ok then Some(Packet(Insert, d.gid, th.req.dst, th.pc.qpn))
    else if th.req.Destroy? && th.pc.DConn? && HasQp(d, th.pc.conn) && c.ok
      then Some(Packet(Delete, d.gid, th.req.dst, d.conns[th.pc.conn].qp.value.qpn))
    else None
  }

  // ----- the steps of the threads -----

  /** A handler gives back the mutex of its section when it leaves it, and holds the
      mutex of the connection it allocated until that is filled or discarded. */
  function OwnersAfter(owner: map<Mutex, Tid>, t: Tid, pc: Pc, pc': Pc): map<Mutex, Tid> {
    var o := if Wants(pc).Some? then owner - {Wants(pc).value} else owner;
    if NewConn(pc).None? && NewConn(pc').Some? then o[ConnM(NewConn(pc').value) := t]
    else if NewConn(pc).Some? && NewConn(pc').None? then o - {ConnM(NewConn(pc).value)}
    else o
  }

  function Apply(r: Router, t: Tid, mv: Move): Router
    requires t in r.threads
  {
    var th := r.threads[t];
    match mv
    case Go(d, key, pc) => Router(d, OwnersAfter(r.owner, t, th.pc, pc), r.threads[t := Thread(th.req, key, pc, false)])
    case Abandon => r.(threads := r.threads[t := th.(pc := Done(Killed), inside := false)])
    case Crash => r.(threads := r.threads[t := th.(pc := Fault, inside := false)])
  }

  function RunStep(r: Router, t: Tid, c: Choice): Router
    requires CanRun(r, t, c)
  {
    Apply(r, t, MoveOf(r.d, r.threads[t], c))
  }

  function LockStep(r: Router, t: Tid): Router
    requires t in r.threads && Wants(r.threads[t].pc).Some?
  {
    var m := Wants(r.threads[t].pc).value;
    if m.ConnM? && m.conn !in r.d.conns then Apply(r, t, Crash)
    else r.(owner := r.owner[m := t], threads := r.threads[t := r.threads[t].(inside := true)])
  }

  predicate CanLock(r: Router, t: Tid) {
    && t in r.threads
    && !r.threads[t].inside
    && Wants(r.threads[t].pc).Some?
    && Wants(r.threads[t].pc).value !in r.owner
  }

  /** What the allocator, the device and the kernel may answer in this state. */
  predicate Admits(d: Shared, th: Thread, c: Choice) {
    match th.pc
    case MAlloc => c.ptr != NULL && c.ptr !in d.conns
    case MCreate(_) => forall p :: p in d.conns && d.conns[p].qp.Some? ==> d.conns[p].qp.value.qpn != c.qpn
    case MReadQpn(p) => p in d.conns ==> d.conns[p].qp.Some?
    case RegShm =>
      th.req.RegMr? && AsInt32(th.req.length) > 0 && c.ok ==>
        && c.lkey !in d.mrs
        && c.ptr != NULL && c.ptr + AsInt32(th.req.length) <= TWO_64
        && forall l :: l in d.mrs ==> Disjoint(c.ptr, AsInt32(th.req.length), d.mrs[l].routerAddr, d.mrs[l].size)
    case _ => true
  }

  predicate CanRun(r: Router, t: Tid, c: Choice) {
    && t in r.threads
    && Active(r.threads[t])
    && (r.threads[t].inside || Wants(r.threads[t].pc).None?)
    && Admits(r.d, r.threads[t], c)
  }

  // ----- steps of the environment -----

  function StartStep(r: Router, t: Tid, req: Request): Router {
    r.(threads := r.threads[t := StartThread(r.d.gid, req)])
  }

  predicate CanComplete(r: Router, p: Ptr, kind: WrKind) {
    HasQp(r.d, p) && (if kind.Send? then r.d.conns[p].qp.value.sq else r.d.conns[p].qp.value.rq) != []
  }

  function CompleteStep(r: Router, p: Ptr, kind: WrKind, ok: bool): Router
    requires CanComplete(r, p, kind)
  {
    r.(d := SetQp(r.d, p, Complete(r.d.conns[p].qp.value, kind, ok)))
  }

  /** A message handler runs its dst_qp_map section. */
  function RecvStep(r: Router, m: Packet): Router {
    r.(d := r.d.(dstQpMap := ApplyInfo(r.d.dstQpMap, m)))
  }

  datatype Action =
    | Start(t: Tid, req: Request)
    | Lock(t: Tid)
    | Run(t: Tid, c: Choice)
    | Hardware(p: Ptr, kind: WrKind, ok: bool)
    | Receive(m: Packet)

  predicate Enabled(r: Router, a: Action) {
    match a
    case Start(t, req) => t !in r.threads
    case Lock(t) => CanLock(r, t)
    case Run(t, c) => CanRun(r, t, c)
    case Hardware(p, kind, _) => CanComplete(r, p, kind)
    case Receive(m) => DstQpM !in r.owner
  }

  function Next(r: Router, a: Action): Router
    requires Enabled(r, a)
  {
    match a
    case Start(t, req) => StartStep(r, t, req)
    case Lock(t) => LockStep(r, t)
    case Run(t, c) => RunStep(r, t, c)
    case Hardware(p, kind, ok) => CompleteStep(r, p, kind, ok)
    case Receive(m) => RecvStep(r, m)
  }

  predicate Initial(r: Router) {
    && r.owner == map[] && r.threads == map[]
    && r.d == Shared(r.d.gid, map[], map[], map[], map[], map[], map[], {}, multiset{})
  }

  /** A run: states and the actions between them. Any finite interleaving is one. */
  ghost predicate IsRun(rs: seq<Router>, acts: seq<Action>) {
    && |rs| == |acts| + 1
    && Initial(rs[0])
    && forall i :: 0 <= i < |acts| ==> StepAt(rs, acts, i)
  }

  ghost predicate StepAt(rs: seq<Router>, acts: seq<Action>, i: nat)
    requires i < |acts| && |rs| == |acts| + 1
  {
    Enabled(rs[i], acts[i]) && rs[i + 1] == Next(rs[i], acts[i])
  }
}
