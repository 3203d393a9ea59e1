/** Where the peer queue pair numbers come from, and that both ends agree on them. */
module Handshake {
  import opened Types
  import opened Sections
  import opened Machine
  import opened References
  import opened Safety
  import opened World
  import opened Frames

  ghost predicate Announced(sent: set<Packet>, src: Gid, dst: Gid, q: Qpn) {
    Packet(Insert, src, dst, q) in sent
  }

  // ----- what one router knows -----

  ghost predicate ConnProven(d: Shared, sent: set<Packet>, p: Ptr)
    requires p in d.conns
  {
    var c := d.conns[p];
    && (c.qp.Some? ==> (c.key, c.qp.value.qpn) in d.created)
    && (c.qp.Some? && c.qp.value.dstQpn.Some? ==> Announced(sent, c.key.dstGid, d.gid, c.qp.value.dstQpn.value))
    && (c.status == 0 || c.status == 4)
    && (c.status == 4 ==> c.qp.Some? && c.qp.value.state.Rts? && c.qp.value.dstQpn.Some?)
  }

  ghost predicate DataProven(d: Shared, sent: set<Packet>) {
    && (forall p :: p in d.conns ==> ConnProven(d, sent, p))
    && (forall s :: s in d.dstQpMap ==> Announced(sent, s, d.gid, d.dstQpMap[s]))
  }

  ghost predicate ThreadProven(d: Shared, sent: set<Packet>, th: Thread) {
    match th.pc
    case MSrc(q) => (th.key, q) in d.created
    case MSend(q) => (th.key, q) in d.created
    case MSpin(q) => (th.key, q) in d.created
    case MHost2(q) => Announced(sent, th.key.dstGid, d.gid, q)
    case MConn(q, _) => Announced(sent, th.key.dstGid, d.gid, q)
    case _ => true
  }

  ghost predicate RouterProven(r: Router, sent: set<Packet>) {
    DataProven(r.d, sent) && forall t :: t in r.threads ==> ThreadProven(r.d, sent, r.threads[t])
  }

  /** An INSERT tells the number of a queue pair its sender created toward the receiver. */
  ghost predicate PacketProven(w: World, m: Packet) {
    m.op.Insert? ==> m.src in w.routers && (HostKey(m.src, m.dst), m.qpn) in w.routers[m.src].d.created
  }

  ghost predicate Proven(w: World) {
    && (forall g :: g in w.routers ==> RouterProven(w.routers[g], w.sent))
    && (forall m :: m in w.sent ==> PacketProven(w, m))
    && (forall i :: 0 <= i < |w.net| ==> w.net[i] in w.sent)
  }

  // ----- one step of one router -----

  ghost predicate MoveProven(d: Shared, sent: set<Packet>, th: Thread, mv: Move) {
    && mv.Go? && mv.d.gid == d.gid && d.created <= mv.d.created
    && DataProven(mv.d, sent)
    && ThreadProven(mv.d, sent, Thread(th.req, mv.key, mv.pc, false))
  }

  lemma OneConn(d: Shared, d': Shared, sent: set<Packet>, p: Ptr)
    requires DataProven(d, sent) && d'.gid == d.gid && d'.dstQpMap == d.dstQpMap && d.created <= d'.created
    requires p in d'.conns && d'.conns == d.conns[p := d'.conns[p]] && ConnProven(d', sent, p)
    ensures DataProven(d', sent)
  {
    forall x | x in d'.conns ensures ConnProven(d', sent, x) { if x != p { assert ConnProven(d, sent, x); } }
  }

  lemma SameConns(d: Shared, d': Shared, sent: set<Packet>)
    requires DataProven(d, sent) && d'.gid == d.gid && d'.dstQpMap == d.dstQpMap && d.created <= d'.created
    requires d'.conns == d.conns
    ensures DataProven(d', sent)
  {
    forall p | p in d'.conns ensures ConnProven(d', sent, p) { assert ConnProven(d, sent, p); }
  }

  lemma JoinProven(d: Shared, sent: set<Packet>, key: HostKey, p: Ptr)
    requires LiveOrNull(d, key) && DataProven(d, sent)
    ensures DataProven(JoinHost(d, key, p).0, sent)
  {
    if LookupHost(d, key).Found? {
      assert ConnProven(d, sent, d.hostMap[key]);
      OneConn(d, JoinHost(d, key, p).0, sent, d.hostMap[key]);
    } else {
      SameConns(d, JoinHost(d, key, p).0, sent);
    }
  }

  lemma FreeProven(d: Shared, sent: set<Packet>, p: Ptr)
    requires DataProven(d, sent)
    ensures DataProven(FreeConn(d, p), sent)
  {
    var d' := FreeConn(d, p);
    forall x | x in d'.conns ensures ConnProven(d', sent, x) { assert ConnProven(d, sent, x); }
  }

  lemma DropProven(d: Shared, sent: set<Packet>, key: HostKey)
    requires KeyReady(d, key) && HostOk(d) && DataProven(d, sent)
    ensures DataProven(DropRef(d, key).0, sent)
  {
    var p := d.hostMap[key];
    assert ConnProven(d, sent, p);
    var d' := SetCount(d, p, Decremented(d.conns[p].refCnt));
    OneConn(d, d', sent, p);
    SameConns(d', DropRef(d, key).0, sent);
  }

  /** IBV_MODIFY_QP up to the announcement. */
  lemma AcquireProven(d: Shared, sent: set<Packet>, th: Thread, c: Choice)
    requires HostOk(d) && ThreadOk(d, th) && RequestOk(d.gid, th)
    requires th.req.Modify? && Admits(d, th, c) && ModifyMove(d, th, c).Go?
    requires th.pc.MAlloc? || th.pc.MHost? || th.pc.MCreate? || th.pc.MDiscard? || th.pc.MReadQpn? || th.pc.MSrc?
    requires DataProven(d, sent) && ThreadProven(d, sent, th)
    ensures MoveProven(d, sent, th, ModifyMove(d, th, c))
  {
    var mv := ModifyMove(d, th, c);
    if th.pc.MAlloc? { OneConn(d, mv.d, sent, c.ptr); }
    else if th.pc.MHost? { JoinProven(d, sent, th.key, th.pc.newConn); }
    else if th.pc.MCreate? { assert ConnProven(d, sent, th.pc.newConn); OneConn(d, mv.d, sent, th.pc.newConn); }
    else if th.pc.MDiscard? { FreeProven(d, sent, th.pc.newConn); }
    else if th.pc.MReadQpn? { assert ConnProven(d, sent, th.pc.oldConn); }
    else { SameConns(d, mv.d, sent); }
  }

  /** IBV_MODIFY_QP from the announcement on. */
  lemma SetupProven(d: Shared, sent: set<Packet>, th: Thread, c: Choice)
    requires HostOk(d) && HandlesOk(d) && RequestOk(d.gid, th) && ThreadSafe(d, th)
    requires th.req.Modify? && ModifyMove(d, th, c).Go?
    requires th.pc.MSend? || th.pc.MSpin? || th.pc.MHost2? || th.pc.MConn?
    requires DataProven(d, sent) && ThreadProven(d, sent, th)
    ensures MoveProven(d, sent, th, ModifyMove(d, th, c))
  {
    if th.pc.MConn? { ReadyProven(d, sent, th, c); }
  }

  /** The last section programs the number the handler found. */
  lemma ReadyProven(d: Shared, sent: set<Packet>, th: Thread, c: Choice)
    requires HostOk(d) && HandlesOk(d) && RequestOk(d.gid, th) && ThreadSafe(d, th)
    requires th.req.Modify? && th.pc.MConn? && HasQp(d, th.pc.conn)
    requires DataProven(d, sent) && ThreadProven(d, sent, th)
    ensures MoveProven(d, sent, th, ModifyMove(d, th, c))
  {
    assert KeyReady(d, d.srcQpMap[th.req.h]) && ConnProven(d, sent, th.pc.conn);
    OneConn(d, ModifyMove(d, th, c).d, sent, th.pc.conn);
  }

  lemma UseProven(d: Shared, sent: set<Packet>, th: Thread, c: Choice)
    requires RequestOk(d.gid, th) && (th.req.Post? || th.req.Poll?) && Active(th) && UseMove(d, th, c).Go?
    requires DataProven(d, sent)
    ensures MoveProven(d, sent, th, UseMove(d, th, c))
  {
    if th.pc.UConn? {
      assert ConnProven(d, sent, th.pc.conn);
      OneConn(d, UseMove(d, th, c).d, sent, th.pc.conn);
    }
  }

  lemma DestroyProven(d: Shared, sent: set<Packet>, th: Thread)
    requires HostOk(d) && ThreadOk(d, th) && RequestOk(d.gid, th) && th.req.Destroy? && Active(th)
    requires DestroyMove(d, th).Go?
    requires DataProven(d, sent)
    ensures MoveProven(d, sent, th, DestroyMove(d, th))
  {
    if th.pc.DSrc? { SameConns(d, DestroyMove(d, th).d, sent); }
    else if th.pc.DHost? { DropProven(d, sent, th.key); }
    else { FreeProven(d, sent, th.pc.conn); }
  }

  lemma MemoryProven(d: Shared, sent: set<Packet>, th: Thread, c: Choice)
    requires RequestOk(d.gid, th) && (th.req.RegMr? || th.req.DeregMr?) && Active(th) && MoveOf(d, th, c).Go?
    requires DataProven(d, sent)
    ensures MoveProven(d, sent, th, MoveOf(d, th, c))
  {
    MemoryFrame(d, th, c);
    MemoryPc(d, th, c);
    SameConns(d, MoveOf(d, th, c).d, sent);
  }

  lemma MemoryPc(d: Shared, th: Thread, c: Choice)
    requires (th.req.RegMr? || th.req.DeregMr?) && MoveOf(d, th, c).Go?
    ensures MoveOf(d, th, c).pc.RegLkey? || MoveOf(d, th, c).pc.DeHw? || MoveOf(d, th, c).pc.Done?
  {
  }

  lemma AllMovesProven(r: Router, t: Tid, c: Choice, sent: set<Packet>)
    requires Shape(r) && Safe(r) && CanRun(r, t, c) && RouterProven(r, sent)
    ensures MoveProven(r.d, sent, r.threads[t], MoveOf(r.d, r.threads[t], c))
  {
    var th := r.threads[t];
    assert ThreadOk(r.d, th) && RequestOk(r.d.gid, th) && ThreadSafe(r.d, th) && ThreadProven(r.d, sent, th);
    AllMoveSafely(r.d, th, c);
    match th.req
    case Modify(_, _, _) =>
      if OnBehalf(th.pc) { SetupProven(r.d, sent, th, c); } else { AcquireProven(r.d, sent, th, c); }
    case Post(_, _, _) => UseProven(r.d, sent, th, c);
    case Poll(_, _) => UseProven(r.d, sent, th, c);
    case Destroy(_, _) => DestroyProven(r.d, sent, th);
    case _ => MemoryProven(r.d, sent, th, c);
  }

  // ----- one step of the world -----

  lemma MoreSent(r: Router, sent: set<Packet>, sent': set<Packet>)
    requires RouterProven(r, sent) && sent <= sent'
    ensures RouterProven(r, sent')
  {
    forall p | p in r.d.conns ensures ConnProven(r.d, sent', p) { assert ConnProven(r.d, sent, p); }
    forall t | t in r.threads
      ensures ThreadProven(r.d, sent', r.threads[t])
    {
      assert ThreadProven(r.d, sent, r.threads[t]);
    }
  }

  lemma RunProven(r: Router, t: Tid, c: Choice, sent: set<Packet>)
    requires Shape(r) && Safe(r) && CanRun(r, t, c) && RouterProven(r, sent)
    ensures RouterProven(RunStep(r, t, c), sent) && r.d.created <= RunStep(r, t, c).d.created
  {
    var r' := RunStep(r, t, c);
    AllMovesProven(r, t, c, sent);
    forall u | u in r'.threads ensures ThreadProven(r'.d, sent, r'.threads[u]) {
      if u != t { assert ThreadProven(r.d, sent, r.threads[u]); }
    }
  }

  lemma SameThreadsProven(r: Router, r': Router, sent: set<Packet>)
    requires RouterProven(r, sent) && DataProven(r'.d, sent) && r'.d.created == r.d.created && r'.d.gid == r.d.gid
    requires forall t :: t in r'.threads && t in r.threads ==>
      r'.threads[t].pc == r.threads[t].pc && r'.threads[t].key == r.threads[t].key
    requires forall t :: t in r'.threads && t !in r.threads ==> r'.threads[t].pc == StartPc(r'.threads[t].req)
    ensures RouterProven(r', sent)
  {
    forall t | t in r'.threads ensures ThreadProven(r'.d, sent, r'.threads[t]) {
      if t in r.threads { assert ThreadProven(r.d, sent, r.threads[t]); }
    }
  }

  lemma HardwareProven(r: Router, p: Ptr, kind: WrKind, ok: bool, sent: set<Packet>)
    requires CanComplete(r, p, kind) && RouterProven(r, sent)
    ensures RouterProven(CompleteStep(r, p, kind, ok), sent)
  {
    assert ConnProven(r.d, sent, p);
    OneConn(r.d, CompleteStep(r, p, kind, ok).d, sent, p);
    SameThreadsProven(r, CompleteStep(r, p, kind, ok), sent);
  }

  lemma ReceiveProven(r: Router, m: Packet, sent: set<Packet>)
    requires RouterProven(r, sent) && (m.op.Insert? ==> Announced(sent, m.src, r.d.gid, m.qpn))
    ensures RouterProven(RecvStep(r, m), sent)
  {
    var d' := RecvStep(r, m).d;
    forall p | p in d'.conns ensures ConnProven(d', sent, p) { assert ConnProven(r.d, sent, p); }
    SameThreadsProven(r, RecvStep(r, m), sent);
  }

  lemma StartProven(r: Router, t: Tid, req: Request, sent: set<Packet>)
    requires t !in r.threads && RouterProven(r, sent)
    ensures RouterProven(StartStep(r, t, req), sent)
  {
    SameThreadsProven(r, StartStep(r, t, req), sent);
  }

  lemma LockProven(r: Router, t: Tid, sent: set<Packet>)
    requires CanLock(r, t) && RouterProven(r, sent) && LockStep(r, t).threads[t].inside
    ensures RouterProven(LockStep(r, t), sent)
  {
    SameThreadsProven(r, LockStep(r, t), sent);
  }

  lemma LocalProven(r: Router, a: Action, sent: set<Packet>)
    requires Inv(r) && Safe(r) && Enabled(r, a) && !a.Receive? && RouterProven(r, sent)
    ensures RouterProven(Next(r, a), sent) && r.d.created <= Next(r, a).d.created
  {
    match a
    case Run(t, c) => RunProven(r, t, c, sent);
    case Start(t, req) => StartProven(r, t, req, sent);
    case Lock(t) => LockSafe(r, t); LockProven(r, t, sent);
    case Hardware(p, kind, ok) => HardwareProven(r, p, kind, ok, sent);
  }

  lemma MessageProven(w: World, g: Gid, a: Action)
    requires WorldOk(w) && Proven(w) && Happens(w, Local(g, a)) && Message(w.routers[g], a).Some?
    ensures var m := Message(w.routers[g], a).value;
      m.src == g && (m.op.Insert? ==> (HostKey(m.src, m.dst), m.qpn) in w.routers[g].d.created)
  {
    var r := w.routers[g];
    assert RouterOk(w, g) && ThreadProven(r.d, w.sent, r.threads[a.t]) && RequestOk(r.d.gid, r.threads[a.t]);
  }

  /** What is created stays created, so a proven message stays proven. */
  lemma PacketStays(w: World, w': World, g: Gid, r: Router, m: Packet)
    requires PacketProven(w, m) && g in w.routers && w.routers[g].d.created <= r.d.created
    requires w'.routers == w.routers[g := r]
    ensures PacketProven(w', m)
  {
  }

  lemma PacketsProven(w: World, g: Gid, a: Action)
    requires WorldOk(w) && Proven(w) && Happens(w, Local(g, a))
    requires w.routers[g].d.created <= Next(w.routers[g], a).d.created
    ensures forall m :: m in Then(w, Local(g, a)).sent ==> PacketProven(Then(w, Local(g, a)), m)
  {
    var r := Next(w.routers[g], a);
    var w' := Then(w, Local(g, a));
    forall m | m in w'.sent ensures PacketProven(w', m) {
      if m !in w.sent { MessageProven(w, g, a); }
      else { PacketStays(w, w', g, r, m); }
    }
  }

  lemma LocalEventProven(w: World, g: Gid, a: Action)
    requires WorldOk(w) && Proven(w) && Happens(w, Local(g, a))
    ensures Proven(Then(w, Local(g, a)))
  {
    var r, w' := w.routers[g], Then(w, Local(g, a));
    assert RouterOk(w, g) && RouterProven(r, w.sent);
    LocalProven(r, a, w.sent);
    PacketsProven(w, g, a);
    forall f | f in w'.routers ensures RouterProven(w'.routers[f], w'.sent) {
      MoreSent(if f == g then Next(r, a) else w.routers[f], w.sent, w'.sent);
    }
  }

  lemma DeliveryProven(w: World, i: nat)
    requires WorldOk(w) && Proven(w) && Happens(w, Deliver(i))
    ensures Proven(Then(w, Deliver(i)))
  {
    var w' := Then(w, Deliver(i));
    var m := w.net[i];
    assert RouterOk(w, m.dst) && m in w.sent;
    ReceiveProven(w.routers[m.dst], m, w.sent);
    forall n | n in w'.sent ensures PacketProven(w', n) { assert PacketProven(w, n); }
  }

  lemma ThenProven(w: World, e: Event)
    requires WorldOk(w) && Proven(w) && Happens(w, e)
    ensures Proven(Then(w, e))
  {
    match e
    case Local(g, a) => LocalEventProven(w, g, a);
    case Deliver(i) => DeliveryProven(w, i);
  }

  lemma ProvenNext(ws: seq<World>, es: seq<Event>, i: nat)
    requires IsHistory(ws, es) && i < |es| && Proven(ws[i])
    ensures Proven(ws[i + 1])
  {
    HistoryOk(ws, es, i);
    assert HappensAt(ws, es, i);
    ThenProven(ws[i], es[i]);
  }

  lemma BeginsProven(w: World)
    requires Begins(w)
    ensures Proven(w)
  {
    forall g | g in w.routers ensures RouterProven(w.routers[g], w.sent) { assert Initial(w.routers[g]); }
  }

  lemma {:induction false} AllProven(ws: seq<World>, es: seq<Event>, i: nat)
    requires IsHistory(ws, es) && i < |ws|
    ensures Proven(ws[i])
  {
    if i == 0 {
      BeginsProven(ws[0]);
    } else {
      AllProven(ws, es, i - 1);
      ProvenNext(ws, es, i - 1);
    }
  }

  lemma HistoryProven(ws: seq<World>, es: seq<Event>, i: nat)
    requires IsHistory(ws, es) && i < |ws|
    ensures WorldOk(ws[i]) && Proven(ws[i])
  {
    HistoryOk(ws, es, i);
    AllProven(ws, es, i);
  }

  /** In every run, teardown and reordered messages included: a peer number that is
      programmed into a queue pair of router `g` is the number of a queue pair that
      the router of the peer host created toward `g`, and that it announced. */
  lemma Provenance(ws: seq<World>, es: seq<Event>, i: nat, g: Gid, p: Ptr)
    requires IsHistory(ws, es) && i < |ws| && g in ws[i].routers && HasQp(ws[i].routers[g].d, p)
    requires ws[i].routers[g].d.conns[p].qp.value.dstQpn.Some?
    ensures var peer := ws[i].routers[g].d.conns[p].key.dstGid;
      var q := ws[i].routers[g].d.conns[p].qp.value.dstQpn.value;
      && peer in ws[i].routers
      && (HostKey(peer, g), q) in ws[i].routers[peer].d.created
      && Packet(Insert, peer, g, q) in ws[i].sent
  {
    HistoryProven(ws, es, i);
    var w := ws[i];
    assert RouterOk(w, g) && RouterProven(w.routers[g], w.sent) && ConnProven(w.routers[g].d, w.sent, p);
    var peer := w.routers[g].d.conns[p].key.dstGid;
    var m := Packet(Insert, peer, g, w.routers[g].d.conns[p].qp.value.dstQpn.value);
    assert PacketProven(w, m);
  }
}
