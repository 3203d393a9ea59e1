/** Reference counting: in every interleaving of any number of handlers, with no
    assumption on what they ask for, `ref_cnt` counts exactly the references that
    exist, and a key is in `host_map` exactly while it has one. */
module References {
  import opened Types
  import opened Sections
  import opened Machine

  // ----- what refers to a host key -----

  ghost function Handles(d: Shared, k: HostKey): set<Handle> {
    set h | h in d.srcQpMap && d.srcQpMap[h] == k
  }

  /** Between the host_map section and the src_qp_map section of IBV_MODIFY_QP. */
  predicate InModifyGap(pc: Pc) {
    pc.MCreate? || pc.MDiscard? || pc.MReadQpn? || pc.MSrc?
  }

  ghost function ModifyGap(threads: map<Tid, Thread>, k: HostKey): set<Tid> {
    set t | t in threads && InModifyGap(threads[t].pc) && threads[t].key == k
  }

  /** Between the src_qp_map section and the host_map section of IBV_DESTROY_QP. */
  ghost function DestroyGap(threads: map<Tid, Thread>, k: HostKey): set<Tid> {
    set t | t in threads && threads[t].pc.DHost? && threads[t].key == k
  }

  ghost function Refs(r: Router, k: HostKey): nat {
    |Handles(r.d, k)| + |ModifyGap(r.threads, k)| + |DestroyGap(r.threads, k)| + r.d.orphans[k]
  }

  /** No key ever has 2^32 references at once, so the 32-bit count does not wrap. */
  ghost predicate Fits(r: Router) {
    forall k: HostKey :: Refs(r, k) < TWO_32
  }

  // ----- the invariant -----

  ghost predicate HostOk(d: Shared) {
    forall k :: k in d.hostMap ==>
      d.hostMap[k] != NULL && d.hostMap[k] in d.conns && d.conns[d.hostMap[k]].key == k
  }

  ghost predicate KeyReady(d: Shared, k: HostKey) {
    k in d.hostMap && HasQp(d, d.hostMap[k])
  }

  ghost predicate HandlesOk(d: Shared) {
    forall h :: h in d.srcQpMap ==> KeyReady(d, d.srcQpMap[h])
  }

  ghost predicate Private(d: Shared, p: Ptr) {
    && p != NULL && p in d.conns && d.conns[p].qp.None? && d.conns[p].refCnt == 1 && d.conns[p].status == 0
    && forall k :: k in d.hostMap ==> d.hostMap[k] != p
  }

  ghost predicate Published(d: Shared, k: HostKey, p: Ptr) {
    k in d.hostMap && d.hostMap[k] == p
  }

  /** What a thread may rely on whatever the other threads do. */
  ghost predicate ThreadOk(d: Shared, th: Thread) {
    match th.pc
    case MAlloc => true
    case MHost(p) => Private(d, p) && d.conns[p].key == th.key
    case MCreate(p) => Published(d, th.key, p) && p in d.conns && d.conns[p].qp.None? && d.conns[p].status == 0
    case MDiscard(p, joined) => Private(d, p) && Published(d, th.key, joined)
    case MReadQpn(joined) => Published(d, th.key, joined)
    case MSrc(_) => KeyReady(d, th.key)
    case DHost => KeyReady(d, th.key)
    case DConn(p) => p != NULL && HasQp(d, p) && forall k :: k in d.hostMap ==> d.hostMap[k] != p
    case _ => true
  }

  /** At most one thread is releasing a given connection. */
  ghost predicate ThreadsOk(r: Router) {
    && (forall t :: t in r.threads ==> ThreadOk(r.d, r.threads[t]))
    && (forall t, u :: t in r.threads && u in r.threads && t != u && r.threads[t].pc.DConn? && r.threads[u].pc.DConn?
          ==> r.threads[t].pc.conn != r.threads[u].pc.conn)
  }

  ghost predicate RequestOk(gid: Gid, th: Thread) {
    match th.req
    case Modify(_, dst, _) =>
      && th.key == HostKey(gid, dst)
      && (th.pc.MAlloc? || NewConn(th.pc).Some? || th.pc.MReadQpn? || th.pc.MSrc? || th.pc.MSend? || th.pc.MSpin?
          || th.pc.MHost2? || th.pc.MConn? || th.pc.Done? || th.pc.Fault?)
    case Post(_, _, _) =>
      th.pc.ULkey? || ((th.pc.USrc? || th.pc.UHost? || th.pc.UConn?) && th.pc.use.UsePost?) || th.pc.Done?
        || th.pc.Fault?
    case Poll(_, _) =>
      ((th.pc.USrc? || th.pc.UHost? || th.pc.UConn?) && th.pc.use.UsePoll?) || th.pc.Done? || th.pc.Fault?
    case Destroy(_, _) => th.pc.DSrc? || th.pc.DHost? || th.pc.DConn? || th.pc.Done? || th.pc.Fault?
    case RegMr(_, _, _) => th.pc.RegShm? || th.pc.RegLkey? || th.pc.Done? || th.pc.Fault?
    case DeregMr(_) => th.pc.DeLkey? || th.pc.DeHw? || th.pc.Done? || th.pc.Fault?
  }

  /** Each handler is at a point of the request it serves. */
  ghost predicate RequestsOk(r: Router) {
    forall t :: t in r.threads ==> RequestOk(r.d.gid, r.threads[t])
  }

  ghost predicate Holds(r: Router, m: Mutex, t: Tid) {
    m in r.owner && r.owner[m] == t
  }

  ghost predicate HoldingOk(r: Router, t: Tid)
    requires t in r.threads
  {
    var th := r.threads[t];
    && (th.inside ==> Wants(th.pc).Some? && Holds(r, Wants(th.pc).value, t))
    && (NewConn(th.pc).Some? ==> Holds(r, ConnM(NewConn(th.pc).value), t))
  }

  /** A connection mutex exists as long as its connection does. */
  ghost predicate OwnersLive(r: Router) {
    forall m :: m in r.owner && m.ConnM? ==> m.conn in r.d.conns
  }

  ghost predicate LocksOk(r: Router) {
    && (forall t :: t in r.threads ==> HoldingOk(r, t))
    && OwnersLive(r)
  }

  ghost predicate RefOk(r: Router, k: HostKey) {
    && (k in r.d.hostMap <==> Refs(r, k) > 0)
    && (k in r.d.hostMap && r.d.hostMap[k] in r.d.conns ==> r.d.conns[r.d.hostMap[k]].refCnt == Refs(r, k))
  }

  ghost predicate RefsOk(r: Router) {
    forall k: HostKey :: RefOk(r, k)
  }

  /** The part of the invariant that does not count. */
  ghost predicate Shape(r: Router) {
    HostOk(r.d) && HandlesOk(r.d) && ThreadsOk(r) && RequestsOk(r) && LocksOk(r)
  }

  ghost predicate Inv(r: Router) {
    Shape(r) && RefsOk(r)
  }

  // ----- counting -----

  function Bit(b: bool): nat { if b then 1 else 0 }

  /** The references a thread itself stands for. */
  function Gaps(th: Thread, k: HostKey): nat {
    if (InModifyGap(th.pc) || th.pc.DHost?) && th.key == k then 1 else 0
  }

  /** Two sets that agree away from `x`. */
  lemma SizesNear<T>(before: set<T>, after: set<T>, x: T)
    requires forall y :: y != x ==> (y in before <==> y in after)
    ensures |after| + Bit(x in before) == |before| + Bit(x in after)
  {
    assert before - {x} == after - {x};
    assert |before - {x}| == |before| - Bit(x in before);
    assert |after - {x}| == |after| - Bit(x in after);
  }

  lemma GapsUpdate(threads: map<Tid, Thread>, t: Tid, th: Thread, k: HostKey)
    ensures |ModifyGap(threads[t := th], k)| + |DestroyGap(threads[t := th], k)|
            + (if t in threads then Gaps(threads[t], k) else 0)
         == |ModifyGap(threads, k)| + |DestroyGap(threads, k)| + Gaps(th, k)
  {
    SizesNear(ModifyGap(threads, k), ModifyGap(threads[t := th], k), t);
    SizesNear(DestroyGap(threads, k), DestroyGap(threads[t := th], k), t);
  }

  lemma HandlesAfterMap(d: Shared, h: Handle, key: HostKey, k: HostKey)
    ensures |Handles(MapHandle(d, h, key), k)| + Bit(h in d.srcQpMap && d.srcQpMap[h] == k)
         == |Handles(d, k)| + Bit(key == k)
  {
    SizesNear(Handles(d, k), Handles(MapHandle(d, h, key), k), h);
  }

  lemma HandlesAfterUnmap(d: Shared, h: Handle, k: HostKey)
    ensures |Handles(UnmapHandle(d, h).0, k)| + Bit(h in d.srcQpMap && d.srcQpMap[h] == k) == |Handles(d, k)|
  {
    SizesNear(Handles(d, k), Handles(UnmapHandle(d, h).0, k), h);
  }

  /** How one thread's move changes the references, the handle and orphan terms unchanged. */
  lemma RefsAfterMove(r: Router, r': Router, t: Tid, k: HostKey)
    requires t in r'.threads && r'.threads == r.threads[t := r'.threads[t]]
    requires r'.d.srcQpMap == r.d.srcQpMap && r'.d.orphans == r.d.orphans
    ensures Refs(r', k) == Refs(r, k) + Gaps(r'.threads[t], k) - (if t in r.threads then Gaps(r.threads[t], k) else 0)
  {
    GapsUpdate(r.threads, t, r'.threads[t], k);
    assert Handles(r'.d, k) == Handles(r.d, k);
  }

  // ----- what a step leaves intact for the other handlers -----

  /** Nothing the invariant speaks of differs between `d` and `d'`. */
  ghost predicate Quiet(d: Shared, d': Shared) {
    && d'.gid == d.gid && d'.hostMap == d.hostMap && d'.srcQpMap == d.srcQpMap && d'.orphans == d.orphans
    && d'.conns.Keys == d.conns.Keys
    && forall p :: p in d.conns ==>
         && d'.conns[p].key == d.conns[p].key && d'.conns[p].refCnt == d.conns[p].refCnt
         && (d'.conns[p].qp.Some? <==> d.conns[p].qp.Some?)
         && (d.conns[p].qp.None? ==> d'.conns[p].status == d.conns[p].status)
  }

  lemma QuietThread(d: Shared, d': Shared, th: Thread)
    requires Quiet(d, d') && ThreadOk(d, th)
    ensures ThreadOk(d', th)
  {
  }

  lemma AllocThread(d: Shared, key: HostKey, p: Ptr, th: Thread)
    requires ThreadOk(d, th) && p !in d.conns
    ensures ThreadOk(AllocConn(d, key, p), th)
  {
  }

  lemma CountThread(d: Shared, key: HostKey, n: nat, th: Thread)
    requires HostOk(d) && key in d.hostMap && ThreadOk(d, th)
    ensures ThreadOk(SetCount(d, d.hostMap[key], n), th)
  {
  }

  lemma PublishThread(d: Shared, key: HostKey, p: Ptr, th: Thread)
    requires key !in d.hostMap && ThreadOk(d, th) && NewConn(th.pc) != Some(p)
    requires p in d.conns && d.conns[p].qp.None?
    ensures ThreadOk(Publish(d, key, p), th)
  {
  }

  lemma JoinThread(d: Shared, key: HostKey, p: Ptr, th: Thread)
    requires HostOk(d) && Private(d, p)
    requires ThreadOk(d, th) && NewConn(th.pc) != Some(p)
    ensures ThreadOk(JoinHost(d, key, p).0, th)
  {
    if key in d.hostMap { CountThread(d, key, Incremented(d.conns[d.hostMap[key]].refCnt), th); }
    else { PublishThread(d, key, p, th); }
  }

  lemma CreateThread(d: Shared, key: HostKey, p: Ptr, qpn: Qpn, th: Thread)
    requires HostOk(d) && Published(d, key, p) && ThreadOk(d, th) && NewConn(th.pc) != Some(p)
    ensures ThreadOk(CreateQp(d, p, qpn), th)
  {
  }

  lemma FreeThread(d: Shared, p: Ptr, th: Thread)
    requires HostOk(d) && p in d.conns && (forall k :: k in d.hostMap ==> d.hostMap[k] != p)
    requires ThreadOk(d, th) && NewConn(th.pc) != Some(p) && !(th.pc.DConn? && th.pc.conn == p)
    ensures ThreadOk(FreeConn(d, p), th)
  {
  }

  lemma UnpublishThread(d: Shared, key: HostKey, th: Thread)
    requires ThreadOk(d, th) && Gaps(th, key) == 0
    ensures ThreadOk(Unpublish(d, key), th)
  {
  }

  lemma DropThread(d: Shared, key: HostKey, th: Thread)
    requires HostOk(d) && KeyReady(d, key) && ThreadOk(d, th)
    requires DropRef(d, key).1.Erased? ==> Gaps(th, key) == 0
    ensures ThreadOk(DropRef(d, key).0, th)
  {
    var n := Decremented(d.conns[d.hostMap[key]].refCnt);
    CountThread(d, key, n, th);
    if n == 0 { UnpublishThread(SetCount(d, d.hostMap[key], n), key, th); }
  }

  // ----- one handler moves -----

  lemma HoldingAfter(r: Router, t: Tid, mv: Move)
    requires mv.Go? && t in r.threads && HoldingOk(r, t) && (r.threads[t].inside || Wants(r.threads[t].pc).None?)
    requires NewConn(mv.pc).Some? && NewConn(r.threads[t].pc).Some? ==> NewConn(mv.pc) == NewConn(r.threads[t].pc)
    ensures HoldingOk(Apply(r, t, mv), t)
  {
  }

  lemma HoldingOther(r: Router, t: Tid, mv: Move, u: Tid)
    requires mv.Go? && t in r.threads && HoldingOk(r, t) && (r.threads[t].inside || Wants(r.threads[t].pc).None?)
    requires OwnersLive(r)
    requires NewConn(mv.pc).Some? && NewConn(r.threads[t].pc).None? ==> NewConn(mv.pc).value !in r.d.conns
    requires u in r.threads && u != t && HoldingOk(r, u)
    ensures HoldingOk(Apply(r, t, mv), u)
  {
  }

  /** A handler goes on: what is left to check of the shape. */
  lemma GoKeepsShape(r: Router, t: Tid, mv: Move)
    requires Shape(r) && t in r.threads && mv.Go? && (r.threads[t].inside || Wants(r.threads[t].pc).None?)
    requires mv.d.gid == r.d.gid && HostOk(mv.d) && HandlesOk(mv.d)
    requires ThreadOk(mv.d, Thread(r.threads[t].req, mv.key, mv.pc, false))
    requires RequestOk(mv.d.gid, Thread(r.threads[t].req, mv.key, mv.pc, false))
    requires forall u :: u in r.threads && u != t ==> ThreadOk(mv.d, r.threads[u])
    requires mv.pc.DConn? ==>
      forall u :: u in r.threads && u != t && r.threads[u].pc.DConn? ==> r.threads[u].pc.conn != mv.pc.conn
    requires NewConn(mv.pc).Some? ==> NewConn(mv.pc).value in mv.d.conns
    requires NewConn(mv.pc).Some? && NewConn(r.threads[t].pc).Some? ==> NewConn(mv.pc) == NewConn(r.threads[t].pc)
    requires NewConn(mv.pc).Some? && NewConn(r.threads[t].pc).None? ==> NewConn(mv.pc).value !in r.d.conns
    requires forall p :: p in r.d.conns && p !in mv.d.conns ==>
      (NewConn(r.threads[t].pc) == Some(p) && NewConn(mv.pc).None?) || Wants(r.threads[t].pc) == Some(ConnM(p))
    ensures Shape(Apply(r, t, mv))
  {
    var r' := Apply(r, t, mv);
    assert HoldingOk(r, t);
    HoldingAfter(r, t, mv);
    forall u | u in r'.threads ensures HoldingOk(r', u) {
      if u != t { assert HoldingOk(r, u); HoldingOther(r, t, mv, u); }
    }
  }

  /** Two threads never have the same new connection. */
  lemma NewConnsDiffer(r: Router, t: Tid, u: Tid)
    requires LocksOk(r) && t in r.threads && u in r.threads && t != u
    requires NewConn(r.threads[t].pc).Some?
    ensures NewConn(r.threads[u].pc) != NewConn(r.threads[t].pc)
  {
    assert HoldingOk(r, t) && HoldingOk(r, u);
  }

  /** A step that keeps every count keeps the counts right. */
  lemma QuietRefs(r: Router, r': Router)
    requires RefsOk(r) && HostOk(r.d) && Quiet(r.d, r'.d)
    requires forall k: HostKey :: Refs(r', k) == Refs(r, k)
    ensures RefsOk(r')
  {
    forall k ensures RefOk(r', k) { assert RefOk(r, k); }
  }

  predicate InGap(pc: Pc) { InModifyGap(pc) || pc.DHost? }

  /** A handler goes on and changes nothing the invariant speaks of. */
  lemma QuietGo(r: Router, t: Tid, mv: Move)
    requires Inv(r) && t in r.threads && mv.Go? && Quiet(r.d, mv.d)
    requires r.threads[t].inside || Wants(r.threads[t].pc).None?
    requires NewConn(r.threads[t].pc).None? && NewConn(mv.pc).None? && !mv.pc.DConn?
    requires InGap(mv.pc) == InGap(r.threads[t].pc) && (InGap(mv.pc) ==> mv.key == r.threads[t].key)
    requires ThreadOk(mv.d, Thread(r.threads[t].req, mv.key, mv.pc, false))
    requires RequestOk(mv.d.gid, Thread(r.threads[t].req, mv.key, mv.pc, false))
    ensures Inv(Apply(r, t, mv))
  {
    var r' := Apply(r, t, mv);
    forall k ensures Refs(r', k) == Refs(r, k) { RefsAfterMove(r, r', t, k); }
    QuietRefs(r, r');
    forall u | u in r.threads && u != t ensures ThreadOk(mv.d, r.threads[u]) {
      QuietThread(r.d, mv.d, r.threads[u]);
    }
    GoKeepsShape(r, t, mv);
  }

  /** A handler stops, or takes the mutex of its section. */
  ghost predicate MayStay(r: Router, t: Tid, th: Thread, m: Mutex) {
    && t in r.threads && th.req == r.threads[t].req && th.key == r.threads[t].key
    && NewConn(th.pc) == NewConn(r.threads[t].pc)
    && ((!InGap(th.pc) && !InGap(r.threads[t].pc)) || th.pc == r.threads[t].pc)
    && ThreadOk(r.d, th) && RequestOk(r.d.gid, th) && (th.pc.DConn? ==> r.threads[t].pc == th.pc)
    && (th.inside ==> Wants(th.pc) == Some(m) && m !in r.owner && (m.ConnM? ==> m.conn in r.d.conns))
  }

  function Stayed(r: Router, t: Tid, th: Thread, m: Mutex): Router {
    r.(threads := r.threads[t := th], owner := if th.inside then r.owner[m := t] else r.owner)
  }

  lemma StayRefs(r: Router, t: Tid, th: Thread, m: Mutex)
    requires Inv(r) && MayStay(r, t, th, m)
    ensures RefsOk(Stayed(r, t, th, m))
  {
    var r' := Stayed(r, t, th, m);
    forall k ensures Refs(r', k) == Refs(r, k) { RefsAfterMove(r, r', t, k); }
    QuietRefs(r, r');
  }

  lemma StayLocks(r: Router, t: Tid, th: Thread, m: Mutex)
    requires LocksOk(r) && MayStay(r, t, th, m)
    ensures LocksOk(Stayed(r, t, th, m))
  {
    var r' := Stayed(r, t, th, m);
    forall u | u in r'.threads ensures HoldingOk(r', u) { assert HoldingOk(r, u); }
  }

  lemma QuietStay(r: Router, t: Tid, th: Thread, m: Mutex)
    requires Inv(r) && MayStay(r, t, th, m)
    ensures Inv(Stayed(r, t, th, m))
  {
    StayRefs(r, t, th, m);
    StayLocks(r, t, th, m);
  }

  lemma CrashKeeps(r: Router, t: Tid)
    requires Inv(r) && t in r.threads && !InGap(r.threads[t].pc) && NewConn(r.threads[t].pc).None?
    ensures Inv(Apply(r, t, Crash)) && Inv(Apply(r, t, Abandon))
  {
    var th := r.threads[t];
    assert RequestOk(r.d.gid, th);
    QuietStay(r, t, th.(pc := Fault, inside := false), HostMapM);
    QuietStay(r, t, th.(pc := Done(Killed), inside := false), HostMapM);
  }

  // ----- IBV_MODIFY_QP -----

  lemma AllocKeeps(r: Router, t: Tid, c: Choice)
    requires Inv(r) && CanRun(r, t, c) && r.threads[t].req.Modify? && r.threads[t].pc.MAlloc?
    ensures Inv(RunStep(r, t, c))
  {
    var th := r.threads[t];
    var mv := ModifyMove(r.d, th, c);
    assert RequestOk(r.d.gid, th);
    forall k ensures RefOk(Apply(r, t, mv), k) { assert RefOk(r, k); RefsAfterMove(r, Apply(r, t, mv), t, k); }
    forall u | u in r.threads && u != t ensures ThreadOk(mv.d, r.threads[u]) {
      AllocThread(r.d, th.key, c.ptr, r.threads[u]);
    }
    GoKeepsShape(r, t, mv);
  }

  lemma PublishShape(d: Shared, key: HostKey, p: Ptr)
    requires HostOk(d) && HandlesOk(d) && Private(d, p) && d.conns[p].key == key && key !in d.hostMap
    ensures var d' := Publish(d, key, p); HostOk(d') && HandlesOk(d')
  {
  }

  lemma CountShape(d: Shared, q: Ptr, n: nat, p: Ptr)
    requires HostOk(d) && HandlesOk(d) && Private(d, p) && q in d.conns && q != p
    ensures var d' := SetCount(d, q, n); HostOk(d') && HandlesOk(d') && Private(d', p)
  {
  }

  lemma JoinShape(d: Shared, key: HostKey, p: Ptr)
    requires HostOk(d) && HandlesOk(d) && Private(d, p) && d.conns[p].key == key
    ensures var (d', joined) := JoinHost(d, key, p);
      && HostOk(d') && HandlesOk(d') && d'.conns.Keys == d.conns.Keys
      && Published(d', key, if joined == NULL then p else joined)
      && p in d'.conns && d'.conns[p] == d.conns[p]
      && (joined != NULL ==> Private(d', p))
  {
    if key in d.hostMap {
      var q := d.hostMap[key];
      CountShape(d, q, Incremented(d.conns[q].refCnt), p);
    } else {
      PublishShape(d, key, p);
    }
  }

  lemma JoinRefs(r: Router, t: Tid, c: Choice)
    requires HostOk(r.d) && RefsOk(r) && CanRun(r, t, c) && r.threads[t].req.Modify? && r.threads[t].pc.MHost?
    requires ThreadOk(r.d, r.threads[t]) && Fits(RunStep(r, t, c))
    ensures RefsOk(RunStep(r, t, c))
  {
    var r' := RunStep(r, t, c);
    forall k ensures RefOk(r', k) {
      assert RefOk(r, k) && RefOk(r, r.threads[t].key);
      RefsAfterMove(r, r', t, k);
      assert Refs(r', k) < TWO_32;
    }
  }

  lemma JoinKeeps(r: Router, t: Tid, c: Choice)
    requires Inv(r) && CanRun(r, t, c) && r.threads[t].req.Modify? && r.threads[t].pc.MHost?
    requires Fits(RunStep(r, t, c))
    ensures Inv(RunStep(r, t, c))
  {
    var th := r.threads[t];
    var mv := ModifyMove(r.d, th, c);
    assert ThreadOk(r.d, th) && RequestOk(r.d.gid, th);
    JoinRefs(r, t, c);
    forall u | u in r.threads && u != t ensures ThreadOk(mv.d, r.threads[u]) {
      NewConnsDiffer(r, t, u);
      JoinThread(r.d, th.key, th.pc.newConn, r.threads[u]);
    }
    JoinShape(r.d, th.key, th.pc.newConn);
    GoKeepsShape(r, t, mv);
  }

  lemma CreateKeeps(r: Router, t: Tid, c: Choice)
    requires Inv(r) && CanRun(r, t, c) && r.threads[t].req.Modify? && r.threads[t].pc.MCreate?
    ensures Inv(RunStep(r, t, c))
  {
    var th := r.threads[t];
    var mv := ModifyMove(r.d, th, c);
    assert ThreadOk(r.d, th) && RequestOk(r.d.gid, th);
    forall k ensures RefOk(Apply(r, t, mv), k) { assert RefOk(r, k); RefsAfterMove(r, Apply(r, t, mv), t, k); }
    forall u | u in r.threads && u != t ensures ThreadOk(mv.d, r.threads[u]) {
      NewConnsDiffer(r, t, u);
      CreateThread(r.d, th.key, th.pc.newConn, c.qpn, r.threads[u]);
    }
    GoKeepsShape(r, t, mv);
  }

  lemma DiscardKeeps(r: Router, t: Tid, c: Choice)
    requires Inv(r) && CanRun(r, t, c) && r.threads[t].req.Modify? && r.threads[t].pc.MDiscard?
    ensures Inv(RunStep(r, t, c))
  {
    var th := r.threads[t];
    var mv := ModifyMove(r.d, th, c);
    assert ThreadOk(r.d, th) && RequestOk(r.d.gid, th);
    forall k ensures RefOk(Apply(r, t, mv), k) { assert RefOk(r, k); RefsAfterMove(r, Apply(r, t, mv), t, k); }
    forall u | u in r.threads && u != t ensures ThreadOk(mv.d, r.threads[u]) {
      NewConnsDiffer(r, t, u);
      assert ThreadOk(r.d, r.threads[u]);
      FreeThread(r.d, th.pc.newConn, r.threads[u]);
    }
    GoKeepsShape(r, t, mv);
  }

  lemma MapKeeps(r: Router, t: Tid, c: Choice)
    requires Inv(r) && CanRun(r, t, c) && r.threads[t].req.Modify? && r.threads[t].pc.MSrc?
    ensures Inv(RunStep(r, t, c))
  {
    var th := r.threads[t];
    var mv := ModifyMove(r.d, th, c);
    assert ThreadOk(r.d, th) && RequestOk(r.d.gid, th);
    forall k ensures RefOk(Apply(r, t, mv), k) {
      assert RefOk(r, k);
      GapsUpdate(r.threads, t, Apply(r, t, mv).threads[t], k);
      HandlesAfterMap(r.d, th.req.h, th.key, k);
    }
    forall u | u in r.threads && u != t ensures ThreadOk(mv.d, r.threads[u]) { assert ThreadOk(r.d, r.threads[u]); }
    GoKeepsShape(r, t, mv);
  }

  lemma ModifyKeeps(r: Router, t: Tid, c: Choice)
    requires Inv(r) && CanRun(r, t, c) && r.threads[t].req.Modify? && Fits(RunStep(r, t, c))
    ensures Inv(RunStep(r, t, c))
  {
    var th := r.threads[t];
    var mv := ModifyMove(r.d, th, c);
    assert ThreadOk(r.d, th) && RequestOk(r.d.gid, th);
    if th.pc.MAlloc? { AllocKeeps(r, t, c); }
    else if th.pc.MHost? { JoinKeeps(r, t, c); }
    else if th.pc.MCreate? { CreateKeeps(r, t, c); }
    else if th.pc.MDiscard? { DiscardKeeps(r, t, c); }
    else if th.pc.MSrc? { MapKeeps(r, t, c); }
    else if mv.Go? { QuietGo(r, t, mv); }
    else { CrashKeeps(r, t); }
  }

  // ----- IBV_DESTROY_QP -----

  lemma UnmapKeeps(r: Router, t: Tid, c: Choice)
    requires Inv(r) && CanRun(r, t, c) && r.threads[t].req.Destroy? && r.threads[t].pc.DSrc?
    ensures Inv(RunStep(r, t, c))
  {
    var th := r.threads[t];
    var mv := DestroyMove(r.d, th);
    forall k ensures RefOk(Apply(r, t, mv), k) {
      assert RefOk(r, k);
      GapsUpdate(r.threads, t, Apply(r, t, mv).threads[t], k);
      HandlesAfterUnmap(r.d, th.req.h, k);
    }
    forall u | u in r.threads && u != t ensures ThreadOk(mv.d, r.threads[u]) { assert ThreadOk(r.d, r.threads[u]); }
    GoKeepsShape(r, t, mv);
  }

  lemma HandleIsRef(r: Router, h: Handle)
    requires h in r.d.srcQpMap
    ensures Refs(r, r.d.srcQpMap[h]) >= 1
  {
    assert h in Handles(r.d, r.d.srcQpMap[h]);
  }

  lemma GapIsRef(r: Router, t: Tid, k: HostKey)
    requires t in r.threads && Gaps(r.threads[t], k) == 1
    ensures Refs(r, k) >= 1
  {
    assert t in ModifyGap(r.threads, k) + DestroyGap(r.threads, k);
  }

  /** Within 32 bits the last reference, and no other, erases the key. */
  lemma DropCounts(d: Shared, key: HostKey)
    requires HostOk(d) && KeyReady(d, key) && 1 <= d.conns[d.hostMap[key]].refCnt < TWO_32
    ensures var p, d' := d.hostMap[key], DropRef(d, key).0;
      && (key in d'.hostMap <==> d.conns[p].refCnt > 1)
      && d'.conns[p].refCnt == d.conns[p].refCnt - 1
      && (forall k :: k != key ==>
            (k in d'.hostMap <==> k in d.hostMap) && (k in d.hostMap ==> d'.hostMap[k] == d.hostMap[k] != p))
      && (key in d'.hostMap ==> d'.hostMap[key] == p)
      && (forall x :: x != p ==> (x in d'.conns <==> x in d.conns) && (x in d.conns ==> d'.conns[x] == d.conns[x]))
      && d'.srcQpMap == d.srcQpMap && d'.orphans == d.orphans
  {
  }

  lemma DropState(r: Router, t: Tid, c: Choice)
    requires HostOk(r.d) && CanRun(r, t, c) && r.threads[t].req.Destroy? && r.threads[t].pc.DHost?
    requires ThreadOk(r.d, r.threads[t])
    ensures var r' := RunStep(r, t, c);
      && t in r'.threads && r'.threads == r.threads[t := r'.threads[t]] && !InGap(r'.threads[t].pc)
      && r'.d == DropRef(r.d, r.threads[t].key).0
  {
  }

  lemma DropRefAt(r: Router, r': Router, t: Tid, k: HostKey)
    requires HostOk(r.d) && t in r.threads && r.threads[t].pc.DHost? && KeyReady(r.d, r.threads[t].key)
    requires RefOk(r, k) && RefOk(r, r.threads[t].key) && Refs(r, r.threads[t].key) < TWO_32
    requires t in r'.threads && r'.threads == r.threads[t := r'.threads[t]] && !InGap(r'.threads[t].pc)
    requires r'.d == DropRef(r.d, r.threads[t].key).0
    ensures RefOk(r', k)
  {
    DropCounts(r.d, r.threads[t].key);
    RefsAfterMove(r, r', t, k);
  }

  lemma DropRefs(r: Router, t: Tid, c: Choice)
    requires HostOk(r.d) && RefsOk(r) && CanRun(r, t, c) && r.threads[t].req.Destroy? && r.threads[t].pc.DHost?
    requires ThreadOk(r.d, r.threads[t]) && Fits(r)
    ensures RefsOk(RunStep(r, t, c))
  {
    var key := r.threads[t].key;
    assert RefOk(r, key) && Refs(r, key) < TWO_32;
    DropState(r, t, c);
    forall k ensures RefOk(RunStep(r, t, c), k) {
      assert RefOk(r, k);
      DropRefAt(r, RunStep(r, t, c), t, k);
    }
  }

  /** The other handlers in a gap keep the key alive. */
  lemma DropOther(r: Router, t: Tid, c: Choice, u: Tid)
    requires HostOk(r.d) && CanRun(r, t, c) && r.threads[t].req.Destroy? && r.threads[t].pc.DHost?
    requires ThreadOk(r.d, r.threads[t])
    requires u in r.threads && u != t && ThreadOk(r.d, r.threads[u]) && RefsOk(RunStep(r, t, c))
    ensures ThreadOk(RunStep(r, t, c).d, r.threads[u])
  {
    var r' := RunStep(r, t, c);
    var key := r.threads[t].key;
    if Gaps(r.threads[u], key) == 1 {
      assert r'.threads[u] == r.threads[u];
      GapIsRef(r', u, key);
      assert RefOk(r', key);
    }
    DropThread(r.d, key, r.threads[u]);
  }

  lemma DropStaysReady(d: Shared, key: HostKey, k: HostKey)
    requires HostOk(d) && KeyReady(d, key) && KeyReady(d, k) && k in DropRef(d, key).0.hostMap
    ensures KeyReady(DropRef(d, key).0, k)
  {
  }

  lemma DropHandles(r: Router, t: Tid, c: Choice)
    requires HostOk(r.d) && HandlesOk(r.d) && CanRun(r, t, c) && r.threads[t].req.Destroy? && r.threads[t].pc.DHost?
    requires ThreadOk(r.d, r.threads[t]) && RefsOk(RunStep(r, t, c))
    ensures HandlesOk(RunStep(r, t, c).d)
  {
    var r' := RunStep(r, t, c);
    assert r'.d == DropRef(r.d, r.threads[t].key).0;
    forall h | h in r'.d.srcQpMap ensures KeyReady(r'.d, r'.d.srcQpMap[h]) {
      HandleIsRef(r', h);
      assert RefOk(r', r'.d.srcQpMap[h]);
      DropStaysReady(r.d, r.threads[t].key, r'.d.srcQpMap[h]);
    }
  }

  lemma DropShape(d: Shared, key: HostKey)
    requires HostOk(d) && KeyReady(d, key)
    ensures var (d', res) := DropRef(d, key);
      && HostOk(d') && d'.gid == d.gid && d'.conns.Keys == d.conns.Keys
      && (res.Kept? || res == Erased(d.hostMap[key]))
      && (res.Erased? ==>
            HasQp(d', res.conn) && res.conn != NULL && forall k :: k in d'.hostMap ==> d'.hostMap[k] != res.conn)
  {
  }

  lemma DropKeeps(r: Router, t: Tid, c: Choice)
    requires Inv(r) && CanRun(r, t, c) && r.threads[t].req.Destroy? && r.threads[t].pc.DHost?
    requires Fits(r)
    ensures Inv(RunStep(r, t, c))
  {
    var th := r.threads[t];
    assert ThreadOk(r.d, th);
    DropRefs(r, t, c);
    DropHandles(r, t, c);
    var mv := DestroyMove(r.d, th);
    forall u | u in r.threads && u != t
      ensures ThreadOk(mv.d, r.threads[u]) && ThreadOk(r.d, r.threads[u])
    {
      DropOther(r, t, c, u);
    }
    DropShape(r.d, th.key);
    GoKeepsShape(r, t, mv);
  }

  lemma ReleaseKeeps(r: Router, t: Tid, c: Choice)
    requires Inv(r) && CanRun(r, t, c) && r.threads[t].req.Destroy? && r.threads[t].pc.DConn?
    ensures Inv(RunStep(r, t, c))
  {
    var th := r.threads[t];
    var mv := DestroyMove(r.d, th);
    assert ThreadOk(r.d, th);
    forall k ensures RefOk(Apply(r, t, mv), k) { assert RefOk(r, k); RefsAfterMove(r, Apply(r, t, mv), t, k); }
    forall u | u in r.threads && u != t ensures ThreadOk(mv.d, r.threads[u]) {
      assert ThreadOk(r.d, r.threads[u]);
      FreeThread(r.d, th.pc.conn, r.threads[u]);
    }
    GoKeepsShape(r, t, mv);
  }

  // ----- every step -----

  lemma SetQpQuiet(d: Shared, p: Ptr, q: Qp)
    requires HasQp(d, p)
    ensures Quiet(d, SetQp(d, p, q))
  {
  }

  lemma UseKeeps(r: Router, t: Tid, c: Choice)
    requires Inv(r) && CanRun(r, t, c) && (r.threads[t].req.Post? || r.threads[t].req.Poll?)
    ensures Inv(RunStep(r, t, c))
  {
    var th := r.threads[t];
    var mv := UseMove(r.d, th, c);
    assert RequestOk(r.d.gid, th);
    if mv.Go? {
      UseQuiet(r.d, th, c);
      QuietGo(r, t, mv);
    } else { CrashKeeps(r, t); }
  }

  lemma UseQuiet(d: Shared, th: Thread, c: Choice)
    requires (th.req.Post? || th.req.Poll?) && RequestOk(d.gid, th) && UseMove(d, th, c).Go?
    ensures Quiet(d, UseMove(d, th, c).d)
  {
    if th.pc.UConn? { SetQpQuiet(d, th.pc.conn, UseQp(d.conns[th.pc.conn].qp.value, th.pc.use, th.req, c.ok).0); }
  }

  lemma RegKeeps(r: Router, t: Tid, c: Choice)
    requires Inv(r) && CanRun(r, t, c) && r.threads[t].req.RegMr?
    ensures Inv(RunStep(r, t, c))
  {
    assert RequestOk(r.d.gid, r.threads[t]);
    QuietGo(r, t, RegMove(r.d, r.threads[t], c));
  }

  lemma DeregKeeps(r: Router, t: Tid, c: Choice)
    requires Inv(r) && CanRun(r, t, c) && r.threads[t].req.DeregMr?
    ensures Inv(RunStep(r, t, c))
  {
    assert RequestOk(r.d.gid, r.threads[t]);
    QuietGo(r, t, DeregMove(r.d, r.threads[t]));
  }

  lemma LockKeeps(r: Router, t: Tid)
    requires Inv(r) && CanLock(r, t)
    ensures Inv(LockStep(r, t))
  {
    var th := r.threads[t];
    var m := Wants(th.pc).value;
    assert ThreadOk(r.d, th) && RequestOk(r.d.gid, th);
    if m.ConnM? && m.conn !in r.d.conns { CrashKeeps(r, t); }
    else { QuietStay(r, t, th.(inside := true), m); }
  }

  lemma StartKeeps(r: Router, t: Tid, req: Request)
    requires Inv(r) && t !in r.threads
    ensures Inv(StartStep(r, t, req))
  {
    var r' := StartStep(r, t, req);
    forall k ensures Refs(r', k) == Refs(r, k) { RefsAfterMove(r, r', t, k); }
    QuietRefs(r, r');
    forall u | u in r'.threads ensures HoldingOk(r', u) { if u != t { assert HoldingOk(r, u); } }
  }

  /** Steps of the device and of the message handlers move no thread. */
  lemma QuietDataKeeps(r: Router, r': Router)
    requires Inv(r) && Quiet(r.d, r'.d) && r'.owner == r.owner && r'.threads == r.threads
    ensures Inv(r')
  {
    forall k ensures Refs(r', k) == Refs(r, k) { assert Handles(r'.d, k) == Handles(r.d, k); }
    QuietRefs(r, r');
    forall u | u in r'.threads ensures ThreadOk(r'.d, r'.threads[u]) && HoldingOk(r', u) {
      QuietThread(r.d, r'.d, r.threads[u]);
      assert HoldingOk(r, u);
    }
  }

  lemma StepKeeps(r: Router, a: Action)
    requires Inv(r) && Enabled(r, a) && Fits(r) && Fits(Next(r, a))
    ensures Inv(Next(r, a))
  {
    match a
    case Start(t, req) => StartKeeps(r, t, req);
    case Lock(t) => LockKeeps(r, t);
    case Run(t, c) =>
      match r.threads[t].req {
        case Modify(_, _, _) => ModifyKeeps(r, t, c);
        case Destroy(_, _) =>
          assert RequestOk(r.d.gid, r.threads[t]);
          if r.threads[t].pc.DSrc? { UnmapKeeps(r, t, c); }
          else if r.threads[t].pc.DHost? { DropKeeps(r, t, c); }
          else { ReleaseKeeps(r, t, c); }
        case Post(_, _, _) => UseKeeps(r, t, c);
        case Poll(_, _) => UseKeeps(r, t, c);
        case RegMr(_, _, _) => RegKeeps(r, t, c);
        case DeregMr(_) => DeregKeeps(r, t, c);
      }
    case Hardware(p, kind, ok) => QuietDataKeeps(r, CompleteStep(r, p, kind, ok));
    case Receive(m) => QuietDataKeeps(r, RecvStep(r, m));
  }

  // ----- the theorems -----

  lemma {:induction false} RunKeeps(rs: seq<Router>, acts: seq<Action>, i: nat)
    requires IsRun(rs, acts) && i < |rs|
    requires forall j {:trigger Fits(rs[j])} :: 0 <= j < |rs| ==> Fits(rs[j])
    ensures Inv(rs[i])
  {
    if i == 0 {
      forall k ensures RefOk(rs[0], k) {
        assert Handles(rs[0].d, k) == {} && ModifyGap(rs[0].threads, k) == {} && DestroyGap(rs[0].threads, k) == {};
      }
    } else {
      RunKeeps(rs, acts, i - 1);
      assert Fits(rs[i - 1]) && Fits(rs[i]);
      assert StepAt(rs, acts, i - 1);
      StepKeeps(rs[i - 1], acts[i - 1]);
    }
  }

  /** Whatever the handlers ask for and however they interleave: a key is in
      `host_map` exactly while something refers to it, the entry is a live
      connection allocated for that key, and `ref_cnt` is the number of handles
      mapped to the key, of handlers between the two sections of an
      IBV_MODIFY_QP or an IBV_DESTROY_QP on it, and of references lost by
      modifying a handle again. */
  lemma ReferenceCounting(rs: seq<Router>, acts: seq<Action>, i: nat, k: HostKey)
    requires IsRun(rs, acts) && i < |rs|
    requires forall j {:trigger Fits(rs[j])} :: 0 <= j < |rs| ==> Fits(rs[j])
    ensures var r := rs[i];
      var refs := |Handles(r.d, k)| + |ModifyGap(r.threads, k)| + |DestroyGap(r.threads, k)| + r.d.orphans[k];
      && (k in r.d.hostMap <==> refs > 0)
      && (k in r.d.hostMap ==>
            && r.d.hostMap[k] != NULL && r.d.hostMap[k] in r.d.conns
            && r.d.conns[r.d.hostMap[k]].key == k
            && r.d.conns[r.d.hostMap[k]].refCnt == refs)
  {
    RunKeeps(rs, acts, i);
    assert RefOk(rs[i], k);
  }

  /** The bound on the number of references is needed: joining a connection leaves
      the count exact if and only if the new number of references fits 32 bits. */
  lemma CountExactIffFits(r: Router, t: Tid, c: Choice)
    requires HostOk(r.d) && RefsOk(r) && Fits(r) && CanRun(r, t, c) && r.threads[t].req.Modify?
    requires r.threads[t].pc.MHost?
    requires ThreadOk(r.d, r.threads[t])
    ensures RefOk(RunStep(r, t, c), r.threads[t].key) <==> Refs(RunStep(r, t, c), r.threads[t].key) < TWO_32
  {
    var key := r.threads[t].key;
    assert RefOk(r, key);
    RefsAfterMove(r, RunStep(r, t, c), t, key);
    assert Refs(r, key) < TWO_32;
  }
}
