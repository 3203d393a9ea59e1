/** Runs without teardown: both ends of a host pair are programmed with each
    other's queue pair number, in whatever order the messages arrive. */
module Agreement {
  import opened Types
  import opened Sections
  import opened Machine
  import opened References
  import opened Safety
  import opened World
  import opened Frames
  import opened Handshake

  /** The connection of `k` is up and its queue pair has number `q`. */
  predicate Owns(d: Shared, k: HostKey, q: Qpn) {
    k in d.hostMap && HasQp(d, d.hostMap[k]) && d.conns[d.hostMap[k]].qp.value.qpn == q
  }

  /** Every queue pair ever created is still the one of its key. */
  ghost predicate AllKept(d: Shared) {
    forall k, q :: (k, q) in d.created ==> Owns(d, k, q)
  }

  ghost predicate NoTeardown(r: Router) {
    forall t :: t in r.threads ==> !r.threads[t].req.Destroy?
  }

  /** The connection of `k` has gone through all transitions. */
  predicate ReadyConn(d: Shared, k: HostKey) {
    k in d.hostMap && d.hostMap[k] in d.conns && d.conns[d.hostMap[k]].status == 4
  }

  /** The answer of IBV_MODIFY_QP is true. */
  predicate Truthful(d: Shared, th: Thread) {
    th.pc == Done(ModifyRsp(true)) ==> th.req.Modify? && ReadyConn(d, th.key)
  }

  ghost predicate AllTruthful(r: Router) {
    forall t :: t in r.threads ==> Truthful(r.d, r.threads[t])
  }

  ghost predicate Settled(w: World) {
    forall g :: g in w.routers ==> NoTeardown(w.routers[g]) && AllKept(w.routers[g].d) && AllTruthful(w.routers[g])
  }

  predicate BuildsUp(e: Event) {
    !(e.Local? && e.a.Start? && e.a.req.Destroy?)
  }

  lemma JoinKeepsOwner(d: Shared, key: HostKey, p: Ptr, k: HostKey, q: Qpn)
    requires HostOk(d) && Private(d, p) && Owns(d, k, q)
    ensures Owns(JoinHost(d, key, p).0, k, q)
  {
  }

  lemma ModifyKeepsOwner(d: Shared, th: Thread, c: Choice, k: HostKey, q: Qpn)
    requires HostOk(d) && ThreadOk(d, th) && th.req.Modify? && Admits(d, th, c) && ModifyMove(d, th, c).Go?
    requires Owns(d, k, q)
    ensures Owns(ModifyMove(d, th, c).d, k, q)
  {
    if th.pc.MHost? { JoinKeepsOwner(d, th.key, th.pc.newConn, k, q); }
  }

  lemma UseKeepsOwner(d: Shared, th: Thread, c: Choice, k: HostKey, q: Qpn)
    requires (th.req.Post? || th.req.Poll?) && UseMove(d, th, c).Go? && Owns(d, k, q)
    ensures Owns(UseMove(d, th, c).d, k, q)
  {
  }

  lemma CreatedGrows(d: Shared, th: Thread, c: Choice, k: HostKey, q: Qpn)
    requires HostOk(d) && ThreadOk(d, th) && th.req.Modify? && ModifyMove(d, th, c).Go?
    requires (k, q) in ModifyMove(d, th, c).d.created && (k, q) !in d.created
    ensures Owns(ModifyMove(d, th, c).d, k, q)
  {
    assert th.pc.MCreate?;
  }

  lemma RunSettled(r: Router, t: Tid, c: Choice)
    requires Shape(r) && Safe(r) && CanRun(r, t, c) && NoTeardown(r) && AllKept(r.d)
    ensures NoTeardown(RunStep(r, t, c)) && AllKept(RunStep(r, t, c).d)
  {
    var th := r.threads[t];
    assert ThreadOk(r.d, th) && RequestOk(r.d.gid, th) && ThreadSafe(r.d, th);
    AllMoveSafely(r.d, th, c);
    var d' := RunStep(r, t, c).d;
    forall k, q | (k, q) in d'.created ensures Owns(d', k, q) {
      if th.req.Modify? {
        if (k, q) in r.d.created { ModifyKeepsOwner(r.d, th, c, k, q); } else { CreatedGrows(r.d, th, c, k, q); }
      } else {
        OtherFrame(r.d, th, c);
        if th.req.Post? || th.req.Poll? {
          UseKeepsOwner(r.d, th, c, k, q);
        } else {
          MemoryFrame(r.d, th, c);
          assert Owns(r.d, k, q);
        }
      }
    }
  }

  lemma ModifyStaysReady(d: Shared, th: Thread, c: Choice, k: HostKey)
    requires HostOk(d) && ThreadOk(d, th) && th.req.Modify? && Admits(d, th, c) && ModifyMove(d, th, c).Go?
    requires ReadyConn(d, k)
    ensures ReadyConn(ModifyMove(d, th, c).d, k)
  {
  }

  lemma UseStaysReady(d: Shared, th: Thread, c: Choice, k: HostKey)
    requires (th.req.Post? || th.req.Poll?) && UseMove(d, th, c).Go? && ReadyConn(d, k)
    ensures ReadyConn(UseMove(d, th, c).d, k)
  {
  }

  /** Only the last section of IBV_MODIFY_QP answers that the queue pair is ready, and it is. */
  lemma AnswersTruly(d: Shared, th: Thread, c: Choice)
    requires HostOk(d) && RequestOk(d.gid, th) && ThreadSafe(d, th) && MoveOf(d, th, c).Go? && Active(th)
    ensures var mv := MoveOf(d, th, c); Truthful(mv.d, Thread(th.req, mv.key, mv.pc, false))
  {
  }

  lemma MoveStaysReady(d: Shared, th: Thread, c: Choice, k: HostKey)
    requires HostOk(d) && ThreadOk(d, th) && !th.req.Destroy? && Admits(d, th, c) && MoveOf(d, th, c).Go?
    requires ReadyConn(d, k)
    ensures ReadyConn(MoveOf(d, th, c).d, k)
  {
    if th.req.Modify? { ModifyStaysReady(d, th, c, k); }
    else if th.req.Post? || th.req.Poll? { UseStaysReady(d, th, c, k); }
    else { MemoryFrame(d, th, c); }
  }

  lemma RunTruthful(r: Router, t: Tid, c: Choice)
    requires Shape(r) && Safe(r) && CanRun(r, t, c) && NoTeardown(r) && AllTruthful(r)
    ensures AllTruthful(RunStep(r, t, c))
  {
    var th, r' := r.threads[t], RunStep(r, t, c);
    assert ThreadOk(r.d, th) && RequestOk(r.d.gid, th) && ThreadSafe(r.d, th) && !th.req.Destroy?;
    AllMoveSafely(r.d, th, c);
    AnswersTruly(r.d, th, c);
    forall u | u in r'.threads && u != t ensures Truthful(r'.d, r'.threads[u]) {
      assert Truthful(r.d, r.threads[u]);
      if ReadyConn(r.d, r.threads[u].key) { MoveStaysReady(r.d, th, c, r.threads[u].key); }
    }
  }

  /** A step that moves no handler out of a request and changes no status. */
  lemma StillTruthful(r: Router, r': Router)
    requires AllTruthful(r) && r'.d.hostMap == r.d.hostMap
    requires forall p :: p in r.d.conns ==> p in r'.d.conns && r'.d.conns[p].status == r.d.conns[p].status
    requires forall t :: t in r'.threads ==>
      r'.threads[t].pc == StartPc(r'.threads[t].req)
        || (t in r.threads && r'.threads[t].(inside := false) == r.threads[t].(inside := false))
    ensures AllTruthful(r')
  {
    forall t | t in r'.threads ensures Truthful(r'.d, r'.threads[t]) {
      if r'.threads[t].pc != StartPc(r'.threads[t].req) {
        assert Truthful(r.d, r.threads[t]) && r'.threads[t].(inside := false) == r.threads[t].(inside := false);
      }
    }
  }

  lemma LocalTruthful(r: Router, a: Action)
    requires Inv(r) && Safe(r) && Enabled(r, a) && NoTeardown(r) && AllTruthful(r)
    ensures AllTruthful(Next(r, a))
  {
    if a.Run? { RunTruthful(r, a.t, a.c); }
    else {
      if a.Lock? { LockSafe(r, a.t); }
      StillTruthful(r, Next(r, a));
    }
  }

  lemma SameOwners(d: Shared, d': Shared)
    requires AllKept(d) && d'.hostMap == d.hostMap && d'.created == d.created
    requires forall p :: HasQp(d, p) ==> HasQp(d', p) && d'.conns[p].qp.value.qpn == d.conns[p].qp.value.qpn
    ensures AllKept(d')
  {
    forall k, q | (k, q) in d'.created ensures Owns(d', k, q) { assert Owns(d, k, q); }
  }

  lemma LocalSettled(r: Router, a: Action)
    requires Inv(r) && Safe(r) && Enabled(r, a) && NoTeardown(r) && AllKept(r.d)
    requires !(a.Start? && a.req.Destroy?)
    ensures NoTeardown(Next(r, a)) && AllKept(Next(r, a).d)
  {
    match a
    case Run(t, c) => RunSettled(r, t, c);
    case Hardware(p, kind, ok) => SameOwners(r.d, Next(r, a).d);
    case Receive(m) => SameOwners(r.d, Next(r, a).d);
    case Start(t, req) =>
    case Lock(t) => assert LockStep(r, t).d == r.d;
  }

  lemma ThenSettled(w: World, e: Event)
    requires WorldOk(w) && Settled(w) && Happens(w, e) && BuildsUp(e)
    ensures Settled(Then(w, e))
  {
    var g := if e.Local? then e.g else w.net[e.i].dst;
    var a := if e.Local? then e.a else Receive(w.net[e.i]);
    assert RouterOk(w, g);
    LocalSettled(w.routers[g], a);
    LocalTruthful(w.routers[g], a);
    assert Then(w, e).routers == w.routers[g := Next(w.routers[g], a)];
  }

  ghost predicate IsBuildUp(ws: seq<World>, es: seq<Event>) {
    IsHistory(ws, es) && forall i {:trigger BuildsUp(es[i])} :: 0 <= i < |es| ==> BuildsUp(es[i])
  }

  lemma SettledAt(ws: seq<World>, es: seq<Event>, i: nat)
    requires IsBuildUp(ws, es) && i < |es| && Settled(ws[i])
    ensures Settled(ws[i + 1])
  {
    HistoryOk(ws, es, i);
    assert HappensAt(ws, es, i) && BuildsUp(es[i]);
    ThenSettled(ws[i], es[i]);
  }

  lemma {:induction false} HistorySettled(ws: seq<World>, es: seq<Event>, i: nat)
    requires IsBuildUp(ws, es) && i < |ws|
    ensures Settled(ws[i])
  {
    if i == 0 {
      assert forall g :: g in ws[0].routers ==> Initial(ws[0].routers[g]);
    } else {
      HistorySettled(ws, es, i - 1);
      SettledAt(ws, es, i - 1);
    }
  }

  /** Handshake agreement. Without teardown, and for any order of delivery: the
      number a router holds for a peer is that of the peer's queue pair toward it. */
  lemma PeerNumbersAgree(ws: seq<World>, es: seq<Event>, i: nat, g: Gid, s: Gid)
    requires IsBuildUp(ws, es) && i < |ws| && g in ws[i].routers && s in ws[i].routers[g].d.dstQpMap
    ensures s in ws[i].routers && Owns(ws[i].routers[s].d, HostKey(s, g), ws[i].routers[g].d.dstQpMap[s])
  {
    HistoryProven(ws, es, i);
    HistorySettled(ws, es, i);
    var w := ws[i];
    assert RouterOk(w, g) && RouterProven(w.routers[g], w.sent);
    assert PacketProven(w, Packet(Insert, s, g, w.routers[g].d.dstQpMap[s]));
  }

  /** The queue pair of `k` is in RTS and connected to the queue pair number `q`. */
  predicate ConnectedTo(d: Shared, k: HostKey, q: Qpn) {
    && ReadyConn(d, k) && d.conns[d.hostMap[k]].qp.Some?
    && d.conns[d.hostMap[k]].qp.value.state.Rts? && d.conns[d.hostMap[k]].qp.value.dstQpn == Some(q)
  }

  /** A ready connection is in RTS and programmed with the number of the peer's queue pair toward it. */
  lemma ReadyAgrees(ws: seq<World>, es: seq<Event>, i: nat, g: Gid, s: Gid) returns (q: Qpn)
    requires IsBuildUp(ws, es) && i < |ws| && g in ws[i].routers && ReadyConn(ws[i].routers[g].d, HostKey(g, s))
    ensures ConnectedTo(ws[i].routers[g].d, HostKey(g, s), q)
    ensures s in ws[i].routers && Owns(ws[i].routers[s].d, HostKey(s, g), q)
  {
    HistoryProven(ws, es, i);
    HistorySettled(ws, es, i);
    var w := ws[i];
    var d := w.routers[g].d;
    var p := d.hostMap[HostKey(g, s)];
    assert RouterOk(w, g) && RouterProven(w.routers[g], w.sent) && ConnProven(d, w.sent, p);
    q := d.conns[p].qp.value.dstQpn.value;
    Provenance(ws, es, i, g, p);
  }

  /** The queue pair toward `s` is in RTS and connected to the live queue pair of `s` toward this host. */
  ghost predicate EndUp(w: World, g: Gid, s: Gid) {
    && g in w.routers && s in w.routers
    && exists q :: ConnectedTo(w.routers[g].d, HostKey(g, s), q) && Owns(w.routers[s].d, HostKey(s, g), q)
  }

  /** An IBV_MODIFY_QP that has answered that its queue pair is ready has told the truth, and it
      stays true in every later state of a build-up. */
  lemma ReadyAnswers(ws: seq<World>, es: seq<Event>, i: nat, g: Gid, t: Tid)
    requires IsBuildUp(ws, es) && i < |ws| && g in ws[i].routers && t in ws[i].routers[g].threads
    requires ws[i].routers[g].threads[t].pc == Done(ModifyRsp(true))
    ensures ws[i].routers[g].threads[t].req.Modify?
    ensures ReadyConn(ws[i].routers[g].d, HostKey(g, ws[i].routers[g].threads[t].req.dst))
    ensures EndUp(ws[i], g, ws[i].routers[g].threads[t].req.dst)
  {
    HistoryOk(ws, es, i);
    HistorySettled(ws, es, i);
    var r := ws[i].routers[g];
    assert RouterOk(ws[i], g) && Truthful(r.d, r.threads[t]) && RequestOk(r.d.gid, r.threads[t]);
    var q := ReadyAgrees(ws, es, i, g, r.threads[t].req.dst);
  }

  /** The queue pairs of the two directions are both in RTS, each connected to the other. */
  ghost predicate PairUp(w: World, g: Gid, s: Gid) {
    && g in w.routers && s in w.routers
    && exists q, q' :: Joined(w, g, s, q, q')
  }

  ghost predicate Joined(w: World, g: Gid, s: Gid, q: Qpn, q': Qpn)
    requires g in w.routers && s in w.routers
  {
    && ConnectedTo(w.routers[g].d, HostKey(g, s), q') && Owns(w.routers[g].d, HostKey(g, s), q)
    && ConnectedTo(w.routers[s].d, HostKey(s, g), q) && Owns(w.routers[s].d, HostKey(s, g), q')
  }

  /** When the connections of a host pair are ready at both routers, both queue pairs are in RTS
      and each is programmed with the other one's own number. */
  lemma ReadyPairsAgree(ws: seq<World>, es: seq<Event>, i: nat, g: Gid, s: Gid)
    requires IsBuildUp(ws, es) && i < |ws| && g in ws[i].routers && s in ws[i].routers
    requires ReadyConn(ws[i].routers[g].d, HostKey(g, s)) && ReadyConn(ws[i].routers[s].d, HostKey(s, g))
    ensures PairUp(ws[i], g, s)
  {
    var q' := ReadyAgrees(ws, es, i, g, s);
    var q := ReadyAgrees(ws, es, i, s, g);
    assert Joined(ws[i], g, s, q, q');
  }
}
