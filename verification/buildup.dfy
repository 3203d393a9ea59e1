/** Building up connections completes: handlers whose peers were asked for the other direction
    can always be brought to the end, whatever other handlers wait for. */
module BuildUp {
  import opened Types
  import opened Sections
  import opened Machine
  import opened References
  import opened Safety
  import opened Locks
  import opened World
  import opened Frames
  import opened Agreement
  import opened Measure
  import opened Liveness

  // ----- the handlers that are to finish -----

  /** Handlers, each with the gid of its router. */
  type Handlers = set<(Gid, Tid)>

  predicate At(w: World, g: Gid, t: Tid) { g in w.routers && t in w.routers[g].threads }

  ghost predicate Involved(hs: Handlers, g: Gid) { exists t :: (g, t) in hs }

  /** A handler for the other direction that has not given up. */
  predicate Peer(th: Thread, g: Gid) {
    th.req.Modify? && th.req.dst == g && (th.pc.Done? ==> th.pc.reply.ModifyRsp?)
  }

  predicate IsPeer(w: World, hs: Handlers, s: Gid, u: Tid, g: Gid) {
    (s, u) in hs && At(w, s, u) && Peer(w.routers[s].threads[u], g)
  }

  ghost predicate HasPeer(w: World, hs: Handlers, s: Gid, g: Gid) { exists u :: IsPeer(w, hs, s, u, g) }

  ghost predicate MetAt(w: World, hs: Handlers, g: Gid, t: Tid) {
    At(w, g, t) && (w.routers[g].threads[t].req.Modify? && Active(w.routers[g].threads[t]) ==>
                      HasPeer(w, hs, w.routers[g].threads[t].req.dst, g))
  }

  /** For every unfinished IBV_MODIFY_QP among the handlers the peer host has been asked for the
      other direction, by a handler among them. */
  ghost predicate Met(w: World, hs: Handlers) {
    forall g, t :: (g, t) in hs ==> MetAt(w, hs, g, t)
  }

  /** The device has refused no transition: a queue pair not yet ready can still be made ready. */
  predicate Healthy(c: Conn) {
    c.status == 4 || (c.status == 0 && (c.qp.Some? ==> c.qp.value.state.Reset? || c.qp.value.state.Init?))
  }

  ghost predicate HealthyKey(d: Shared, k: HostKey) {
    forall p :: p in d.conns && d.conns[p].key == k ==> Healthy(d.conns[p])
  }

  /** Handlers that will add a reference to `k`. */
  predicate Joining(th: Thread, k: HostKey) { (th.pc.MAlloc? || th.pc.MHost?) && th.key == k }

  ghost function Joiners(threads: map<Tid, Thread>, k: HostKey): set<Tid> {
    set t | t in threads && Joining(threads[t], k)
  }

  /** There is room for the references the unfinished handlers will add. */
  ghost predicate Room(r: Router) {
    forall k: HostKey :: Refs(r, k) + |Joiners(r.threads, k)| < TWO_32
  }

  /** The connections the handler works on can be made ready, and the counts of its router have room. */
  ghost predicate FineAt(w: World, g: Gid, t: Tid)
    requires At(w, g, t)
  {
    && (w.routers[g].threads[t].req.Modify? ==>
          HealthyKey(w.routers[g].d, HostKey(g, w.routers[g].threads[t].req.dst)))
    && Room(w.routers[g])
  }

  ghost predicate AllFine(w: World, hs: Handlers) {
    forall g, t :: (g, t) in hs && At(w, g, t) ==> FineAt(w, g, t)
  }

  ghost predicate Ready(w: World, hs: Handlers) {
    WorldOk(w) && Calm(w) && AllFit(w) && Met(w, hs) && AllFine(w, hs)
  }

  /** Device and network accept what is asked of them; registrations may be refused. */
  predicate Obliging(th: Thread, c: Choice) {
    c.reach == 3 && (c.ok <==> !th.pc.RegShm?)
  }

  predicate GoodAction(r: Router, a: Action) {
    && Enabled(r, a)
    && match a {
         case Lock(t) => true
         case Run(t, c) => Obliging(r.threads[t], c)
         case Receive(m) => true
         case _ => false
       }
  }

  /** An event at a router of one of the handlers that helps them on. */
  ghost predicate GoodEvent(w: World, hs: Handlers, e: Event) {
    Happens(w, e) && Involved(hs, Where(w, e)) && GoodAction(w.routers[Where(w, e)], What(w, e))
  }

  /** A handler of IBV_MODIFY_QP that is unfinished goes on or answers that the queue pair is ready. */
  predicate GoesOn(th: Thread, th': Thread) {
    && th'.req == th.req
    && (!Active(th) ==> th' == th)
    && (th.req.Modify? && Active(th) ==> Active(th') || th'.pc == Done(ModifyRsp(true)))
  }

  predicate GoesOnAt(w: World, w': World, g: Gid, t: Tid) {
    At(w, g, t) && At(w', g, t) && GoesOn(w.routers[g].threads[t], w'.routers[g].threads[t])
  }

  ghost predicate AllGoOn(w: World, w': World, hs: Handlers) {
    w'.routers.Keys == w.routers.Keys && forall g, t :: (g, t) in hs ==> GoesOnAt(w, w', g, t)
  }

  // ----- one obliging step keeps the promise -----

  lemma JoinKeepsHealth(d: Shared, key: HostKey, p: Ptr, k: HostKey)
    requires LiveOrNull(d, key) && HealthyKey(d, k)
    ensures HealthyKey(JoinHost(d, key, p).0, k)
  {
  }

  lemma SetKeepsHealth(d: Shared, p: Ptr, conn: Conn, k: HostKey)
    requires HealthyKey(d, k) && (conn.key == k ==> Healthy(conn))
    ensures HealthyKey(SetConn(d, p, conn), k)
  {
  }

  lemma CreateKeepsHealth(d: Shared, p: Ptr, qpn: Qpn, k: HostKey)
    requires HealthyKey(d, k) && p in d.conns
    ensures HealthyKey(CreateQp(d, p, qpn), k)
  {
    var conn := CreateQp(d, p, qpn).conns[p];
    assert d.conns[p].key == k ==> Healthy(d.conns[p]);
    SetKeepsHealth(d, p, conn, k);
  }

  lemma ModifyKeepsHealth(d: Shared, th: Thread, c: Choice, k: HostKey)
    requires th.req.Modify? && ModifyMove(d, th, c).Go? && c.reach == 3 && HealthyKey(d, k)
    ensures HealthyKey(ModifyMove(d, th, c).d, k)
  {
    match th.pc
    case MHost(p) => JoinKeepsHealth(d, th.key, p, k);
    case MCreate(p) => CreateKeepsHealth(d, p, c.qpn, k);
    case MConn(q, p) => SetKeepsHealth(d, p, MakeReady(d.conns[p], q, c.reach), k);
    case _ =>
  }

  lemma UseKeepsHealth(d: Shared, th: Thread, c: Choice, k: HostKey)
    requires (th.req.Post? || th.req.Poll?) && UseMove(d, th, c).Go? && HealthyKey(d, k)
    ensures HealthyKey(UseMove(d, th, c).d, k)
  {
  }

  /** The last section of an IBV_MODIFY_QP makes the healthy connection of its key ready. */
  lemma Answers(d: Shared, th: Thread, c: Choice)
    requires th.req.Modify? && HostOk(d) && ThreadOk(d, th) && ThreadSafe(d, th) && HealthyKey(d, th.key)
    requires ModifyMove(d, th, c).Go? && c.reach == 3 && c.ok
    ensures var pc := ModifyMove(d, th, c).pc; !pc.Fault? && (pc.Done? ==> pc == Done(ModifyRsp(true)))
  {
  }

  lemma ActionHealth(r: Router, a: Action, k: HostKey)
    requires Inv(r) && Safe(r) && NoTeardown(r) && GoodAction(r, a) && HealthyKey(r.d, k)
    ensures HealthyKey(Next(r, a).d, k)
  {
    if a.Run? {
      var th := r.threads[a.t];
      assert ThreadOk(r.d, th) && RequestOk(r.d.gid, th) && ThreadSafe(r.d, th) && !th.req.Destroy?;
      AllMoveSafely(r.d, th, a.c);
      if th.req.Modify? { ModifyKeepsHealth(r.d, th, a.c, k); }
      else if th.req.Post? || th.req.Poll? { UseKeepsHealth(r.d, th, a.c, k); }
      else { MemoryFrame(r.d, th, a.c); }
    } else if a.Lock? {
      LockSafe(r, a.t);
    }
  }

  lemma RunAnswers(r: Router, a: Action)
    requires Inv(r) && Safe(r) && GoodAction(r, a) && a.Run?
    requires r.threads[a.t].req.Modify? ==> HealthyKey(r.d, HostKey(r.d.gid, r.threads[a.t].req.dst))
    ensures a.t in Next(r, a).threads && GoesOn(r.threads[a.t], Next(r, a).threads[a.t])
  {
    var th := r.threads[a.t];
    assert ThreadOk(r.d, th) && RequestOk(r.d.gid, th) && ThreadSafe(r.d, th);
    AllMoveSafely(r.d, th, a.c);
    if th.req.Modify? { Answers(r.d, th, a.c); }
  }

  lemma ActionAnswers(r: Router, a: Action, t: Tid)
    requires Inv(r) && Safe(r) && GoodAction(r, a) && t in r.threads
    requires r.threads[t].req.Modify? ==> HealthyKey(r.d, HostKey(r.d.gid, r.threads[t].req.dst))
    ensures t in Next(r, a).threads && GoesOn(r.threads[t], Next(r, a).threads[t])
  {
    if a.Run? && a.t == t { RunAnswers(r, a); }
    else if a.Lock? { LockAnswers(r, a.t, t); }
    else { NotRunning(r, a, t); }
  }

  lemma ApplyOthers(r: Router, u: Tid, mv: Move, t: Tid)
    requires u in r.threads && t in r.threads && t != u
    ensures t in Apply(r, u, mv).threads && Apply(r, u, mv).threads[t] == r.threads[t]
  {
  }

  lemma InsideGoesOn(r: Router, r': Router, u: Tid, t: Tid)
    requires u in r.threads && t in r.threads && Active(r.threads[u])
    requires r'.threads == r.threads[u := r.threads[u].(inside := true)]
    ensures t in r'.threads && GoesOn(r.threads[t], r'.threads[t])
  {
  }

  lemma LockAnswers(r: Router, u: Tid, t: Tid)
    requires Inv(r) && Safe(r) && CanLock(r, u) && t in r.threads
    ensures t in LockStep(r, u).threads && GoesOn(r.threads[t], LockStep(r, u).threads[t])
  {
    Locked(r, u);
    InsideGoesOn(r, LockStep(r, u), u, t);
  }

  /** A handler that does not run stays where it is. */
  lemma NotRunning(r: Router, a: Action, t: Tid)
    requires GoodAction(r, a) && !a.Lock? && t in r.threads && !(a.Run? && a.t == t)
    ensures t in Next(r, a).threads && Next(r, a).threads[t] == r.threads[t]
  {
    if a.Run? { ApplyOthers(r, a.t, MoveOf(r.d, r.threads[a.t], a.c), t); }
  }

  // ----- room for references -----

  /** What a handler counts for, with the reference it has or will add. */
  function Weight(th: Thread, k: HostKey): nat {
    Gaps(th, k) + Bit(Joining(th, k))
  }

  lemma WeightUpdate(threads: map<Tid, Thread>, t: Tid, th: Thread, k: HostKey)
    requires t in threads
    ensures |ModifyGap(threads[t := th], k)| + |DestroyGap(threads[t := th], k)| + |Joiners(threads[t := th], k)|
      + Weight(threads[t], k)
         == |ModifyGap(threads, k)| + |DestroyGap(threads, k)| + |Joiners(threads, k)| + Weight(th, k)
  {
    GapsUpdate(threads, t, th, k);
    SizesNear(Joiners(threads, k), Joiners(threads[t := th], k), t);
  }

  /** The handles and lost references of a key. */
  ghost function Settledness(d: Shared, k: HostKey): nat {
    |Handles(d, k)| + d.orphans[k]
  }

  lemma MapKeepsTotal(d: Shared, th: Thread, c: Choice, k: HostKey)
    requires th.req.Modify? && th.pc.MSrc?
    ensures Settledness(ModifyMove(d, th, c).d, k) <= Settledness(d, k) + Bit(th.key == k)
  {
    HandlesAfterMap(d, th.req.h, th.key, k);
  }

  lemma WeightDrops(d: Shared, th: Thread, c: Choice, k: HostKey)
    requires RequestOk(d.gid, th) && !th.req.Destroy? && Active(th) && MoveOf(d, th, c).Go?
    ensures var mv := MoveOf(d, th, c);
      Weight(Thread(th.req, mv.key, mv.pc, false), k) + Bit(th.pc.MSrc? && th.key == k) <= Weight(th, k)
  {
  }

  lemma MoveKeepsTotal(d: Shared, th: Thread, c: Choice, k: HostKey)
    requires RequestOk(d.gid, th) && !th.req.Destroy? && Active(th) && MoveOf(d, th, c).Go?
    ensures var mv := MoveOf(d, th, c);
      Settledness(mv.d, k) + Weight(Thread(th.req, mv.key, mv.pc, false), k) <= Settledness(d, k) + Weight(th, k)
  {
    WeightDrops(d, th, c, k);
    if th.req.Modify? && th.pc.MSrc? {
      MapKeepsTotal(d, th, c, k);
    } else {
      SameHandles(d, th, c);
      assert Handles(MoveOf(d, th, c).d, k) == Handles(d, k);
    }
  }

  lemma SameHandles(d: Shared, th: Thread, c: Choice)
    requires !th.req.Destroy? && MoveOf(d, th, c).Go? && !(th.req.Modify? && th.pc.MSrc?)
    ensures MoveOf(d, th, c).d.srcQpMap == d.srcQpMap && MoveOf(d, th, c).d.orphans == d.orphans
  {
    if th.req.Modify? { if th.pc.MHost? && LiveOrNull(d, th.key) { JoinFrame(d, th.key, th.pc.newConn); } }
    else { OtherFrame(d, th, c); }
  }

  lemma RunKeepsRoom(r: Router, t: Tid, c: Choice)
    requires Inv(r) && Safe(r) && NoTeardown(r) && Room(r) && CanRun(r, t, c)
    ensures Room(RunStep(r, t, c))
  {
    var th, r' := r.threads[t], RunStep(r, t, c);
    assert ThreadOk(r.d, th) && RequestOk(r.d.gid, th) && ThreadSafe(r.d, th) && !th.req.Destroy?;
    AllMoveSafely(r.d, th, c);
    forall k: HostKey ensures Refs(r', k) + |Joiners(r'.threads, k)| < TWO_32 {
      assert Refs(r, k) + |Joiners(r.threads, k)| < TWO_32;
      WeightUpdate(r.threads, t, r'.threads[t], k);
      MoveKeepsTotal(r.d, th, c, k);
    }
  }

  lemma InsideKeepsRoom(r: Router, r': Router, t: Tid)
    requires Room(r) && t in r.threads && r'.d == r.d && r'.threads == r.threads[t := r.threads[t].(inside := true)]
    ensures Room(r')
  {
    forall k: HostKey ensures Refs(r', k) + |Joiners(r'.threads, k)| < TWO_32 {
      assert Refs(r, k) + |Joiners(r.threads, k)| < TWO_32;
      WeightUpdate(r.threads, t, r'.threads[t], k);
    }
  }

  lemma ReceiveKeepsRoom(r: Router, m: Packet)
    requires Room(r)
    ensures Room(RecvStep(r, m))
  {
    var r' := RecvStep(r, m);
    forall k: HostKey ensures Refs(r', k) + |Joiners(r'.threads, k)| < TWO_32 {
      assert Refs(r, k) + |Joiners(r.threads, k)| < TWO_32;
      assert Handles(r'.d, k) == Handles(r.d, k);
    }
  }

  lemma RoomFits(r: Router)
    requires Room(r)
    ensures Fits(r)
  {
    forall k: HostKey ensures Refs(r, k) < TWO_32 { assert Refs(r, k) + |Joiners(r.threads, k)| < TWO_32; }
  }

  // ----- one obliging event -----

  lemma Locked(r: Router, t: Tid)
    requires Inv(r) && Safe(r) && CanLock(r, t)
    ensures var r' := LockStep(r, t);
      && r'.d == r.d && r'.threads == r.threads[t := r.threads[t].(inside := true)]
      && r'.owner == r.owner[Wants(r.threads[t].pc).value := t]
  {
    LockSafe(r, t);
  }

  lemma ActionRoom(r: Router, a: Action)
    requires Inv(r) && Safe(r) && NoTeardown(r) && Room(r) && GoodAction(r, a)
    ensures Room(Next(r, a)) && Fits(Next(r, a))
  {
    if a.Lock? { Locked(r, a.t); InsideKeepsRoom(r, LockStep(r, a.t), a.t); }
    else if a.Receive? { ReceiveKeepsRoom(r, a.m); }
    else { RunKeepsRoom(r, a.t, a.c); }
    RoomFits(Next(r, a));
  }

  lemma GoodIsFair(w: World, hs: Handlers, e: Event)
    requires GoodEvent(w, hs, e)
    ensures Fair(w, e) && BuildsUp(e) && StartsNothing(e)
  {
  }

  lemma HasRoom(w: World, hs: Handlers, g: Gid)
    requires Met(w, hs) && AllFine(w, hs) && Involved(hs, g)
    ensures g in w.routers && Room(w.routers[g])
  {
    var t :| (g, t) in hs;
    assert MetAt(w, hs, g, t) && FineAt(w, g, t);
  }

  lemma FitsNext(w: World, hs: Handlers, e: Event)
    requires Ready(w, hs) && GoodEvent(w, hs, e)
    ensures AllFit(Then(w, e))
  {
    var g := Where(w, e);
    ThenAt(w, e);
    assert RouterOk(w, g);
    HasRoom(w, hs, g);
    ActionRoom(w.routers[g], What(w, e));
  }

  lemma GoOnNext(w: World, hs: Handlers, e: Event, g: Gid, t: Tid)
    requires Ready(w, hs) && GoodEvent(w, hs, e) && (g, t) in hs
    ensures GoesOnAt(w, Then(w, e), g, t) && FineAt(Then(w, e), g, t)
  {
    ThenAt(w, e);
    assert MetAt(w, hs, g, t) && FineAt(w, g, t);
    if g == Where(w, e) {
      var r, a := w.routers[g], What(w, e);
      assert RouterOk(w, g);
      ActionAnswers(r, a, t);
      ActionRoom(r, a);
      if r.threads[t].req.Modify? { ActionHealth(r, a, HostKey(g, r.threads[t].req.dst)); }
    }
  }

  lemma PeersStay(w: World, w': World, hs: Handlers, s: Gid, g: Gid)
    requires AllGoOn(w, w', hs) && HasPeer(w, hs, s, g)
    ensures HasPeer(w', hs, s, g)
  {
    var u :| IsPeer(w, hs, s, u, g);
    assert GoesOnAt(w, w', s, u);
    assert IsPeer(w', hs, s, u, g);
  }

  lemma MetStays(w: World, w': World, hs: Handlers)
    requires AllGoOn(w, w', hs) && Met(w, hs)
    ensures Met(w', hs)
  {
    forall g, t | (g, t) in hs ensures MetAt(w', hs, g, t) {
      assert GoesOnAt(w, w', g, t) && MetAt(w, hs, g, t);
      var th := w'.routers[g].threads[t];
      if th.req.Modify? && Active(th) { PeersStay(w, w', hs, th.req.dst, g); }
    }
  }

  lemma ReadyNext(w: World, hs: Handlers, e: Event)
    requires Ready(w, hs) && GoodEvent(w, hs, e)
    ensures Ready(Then(w, e), hs) && AllGoOn(w, Then(w, e), hs)
  {
    GoodIsFair(w, hs, e);
    FitsNext(w, hs, e);
    ThenOk(w, e);
    ThenCalm(w, e);
    ThenAt(w, e);
    forall g, t | (g, t) in hs ensures GoesOnAt(w, Then(w, e), g, t) && FineAt(Then(w, e), g, t) {
      GoOnNext(w, hs, e, g, t);
    }
    MetStays(w, Then(w, e), hs);
  }

  // ----- paths -----

  /** A run of all routers from `ws[0]` on in which no handler is started. */
  ghost predicate IsPath(ws: seq<World>, es: seq<Event>) {
    && |ws| == |es| + 1
    && (forall i {:trigger AllFit(ws[i])} :: 0 <= i < |ws| ==> AllFit(ws[i]))
    && (forall i {:trigger Fair(ws[i], es[i])} :: 0 <= i < |es| ==> Fair(ws[i], es[i]))
    && (forall i {:trigger StartsNothing(es[i])} :: 0 <= i < |es| ==> StartsNothing(es[i]))
    && (forall i :: 0 <= i < |es| ==> HappensAt(ws, es, i))
  }

  /** The path leads from `w` to `w'`; the handlers give no answer up and no work is added. */
  ghost predicate Leads(w: World, hs: Handlers, ws: seq<World>, es: seq<Event>, w': World) {
    && IsPath(ws, es) && ws[0] == w && ws[|es|] == w'
    && AllGoOn(w, w', hs) && Ready(w', hs) && Left(w') <= Left(w)
  }

  lemma Stays(w: World, hs: Handlers)
    requires Ready(w, hs)
    ensures Leads(w, hs, [w], [], w)
  {
    forall g, t | (g, t) in hs ensures GoesOnAt(w, w, g, t) { assert MetAt(w, hs, g, t); }
  }

  lemma OneStep(w: World, hs: Handlers, e: Event) returns (ws: seq<World>, es: seq<Event>, w': World)
    requires Ready(w, hs) && GoodEvent(w, hs, e)
    ensures Leads(w, hs, ws, es, w') && w' == Then(w, e) && (Works(w, e) ==> Left(w') < Left(w))
  {
    ws, es, w' := [w, Then(w, e)], [e], Then(w, e);
    GoodIsFair(w, hs, e);
    ReadyNext(w, hs, e);
    MeasureDecreases(w, e);
    OneStepPath(w, e);
  }

  lemma OneStepPath(w: World, e: Event)
    requires Happens(w, e) && AllFit(w) && AllFit(Then(w, e)) && Fair(w, e) && StartsNothing(e)
    ensures IsPath([w, Then(w, e)], [e])
  {
  }

  lemma GoOnChains(w: World, w1: World, w2: World, hs: Handlers)
    requires AllGoOn(w, w1, hs) && AllGoOn(w1, w2, hs)
    ensures AllGoOn(w, w2, hs)
  {
    forall g, t | (g, t) in hs ensures GoesOnAt(w, w2, g, t) {
      assert GoesOnAt(w, w1, g, t) && GoesOnAt(w1, w2, g, t);
    }
  }

  lemma PathsJoin(ws: seq<World>, es: seq<Event>, ws': seq<World>, es': seq<Event>)
    requires IsPath(ws, es) && IsPath(ws', es') && ws'[0] == ws[|es|]
    ensures IsPath(ws[..|es|] + ws', es + es') && (ws[..|es|] + ws')[0] == ws[0]
  {
    var v, f, n := ws[..|es|] + ws', es + es', |es|;
    forall i {:trigger AllFit(v[i])} | 0 <= i < |v| ensures AllFit(v[i]) {
      if i < n { assert AllFit(ws[i]); } else { assert AllFit(ws'[i - n]); }
    }
    forall i {:trigger Fair(v[i], f[i])} | 0 <= i < |f| ensures Fair(v[i], f[i]) {
      if i < n { assert Fair(ws[i], es[i]); } else { assert Fair(ws'[i - n], es'[i - n]); }
    }
    forall i {:trigger StartsNothing(f[i])} | 0 <= i < |f| ensures StartsNothing(f[i]) {
      if i < n { assert StartsNothing(es[i]); } else { assert StartsNothing(es'[i - n]); }
    }
    forall i | 0 <= i < |f| ensures HappensAt(v, f, i) {
      if i < n { assert HappensAt(ws, es, i); } else { assert HappensAt(ws', es', i - n); }
    }
  }

  lemma LeadsOn(w: World, hs: Handlers, ws: seq<World>, es: seq<Event>, w1: World,
                ws1: seq<World>, es1: seq<Event>, w2: World)
    requires Leads(w, hs, ws, es, w1) && Leads(w1, hs, ws1, es1, w2)
    ensures Leads(w, hs, ws[..|es|] + ws1, es + es1, w2)
  {
    PathsJoin(ws, es, ws1, es1);
    GoOnChains(w, w1, w2, hs);
  }

  /** Two events, the first of which need not do work. */
  lemma TwoSteps(w: World, hs: Handlers, e: Event, f: Event) returns (ws: seq<World>, es: seq<Event>, w': World)
    requires Ready(w, hs) && GoodEvent(w, hs, e) && GoodEvent(Then(w, e), hs, f) && Works(Then(w, e), f)
    ensures Leads(w, hs, ws, es, w') && Left(w') < Left(w)
  {
    var ws1, es1, w1 := OneStep(w, hs, e);
    var ws2, es2, w2 := OneStep(w1, hs, f);
    LeadsOn(w, hs, ws1, es1, w1, ws2, es2, w2);
    ws, es, w' := ws1[..|es1|] + ws2, es1 + es2, w2;
  }

  // ----- there is always a next step -----

  ghost predicate Unfinished(w: World, hs: Handlers) {
    exists g, t :: (g, t) in hs && At(w, g, t) && Active(w.routers[g].threads[t])
  }

  ghost predicate Busy(w: World, hs: Handlers, g: Gid, t: Tid) {
    (g, t) in hs && At(w, g, t) && Active(w.routers[g].threads[t]) && !w.routers[g].threads[t].pc.MSpin?
  }

  predicate Spinning(w: World, g: Gid, t: Tid) {
    At(w, g, t) && w.routers[g].threads[t].pc.MSpin?
  }

  lemma GoodRun(w: World, hs: Handlers, g: Gid, t: Tid) returns (c: Choice)
    requires Ready(w, hs) && Involved(hs, g) && At(w, g, t) && Active(w.routers[g].threads[t])
    requires w.routers[g].threads[t].inside || Wants(w.routers[g].threads[t].pc).None?
    requires w.routers[g].threads[t].pc.MReadQpn? ==> HasQp(w.routers[g].d, w.routers[g].threads[t].pc.oldConn)
    requires w.routers[g].threads[t].pc.MSend? ==> (g, t) in hs
    ensures GoodEvent(w, hs, Local(g, Run(t, c)))
  {
    var r := w.routers[g];
    assert RouterOk(w, g) && RequestOk(r.d.gid, r.threads[t]) && !r.threads[t].req.Destroy?;
    c := RunsNow(r, t, 3, !r.threads[t].pc.RegShm?);
    if r.threads[t].pc.MSend? { assert MetAt(w, hs, g, t); }
  }

  /** A handler outside the loop, or one it depends on, takes a step. */
  lemma BusyStep(w: World, hs: Handlers, g: Gid, t: Tid) returns (e: Event)
    requires Ready(w, hs) && Busy(w, hs, g, t)
    ensures GoodEvent(w, hs, e) && Works(w, e)
  {
    assert RouterOk(w, g);
    var u := Unblocked(w.routers[g], t);
    if CanLock(w.routers[g], u) {
      e := Local(g, Lock(u));
    } else {
      var c := GoodRun(w, hs, g, u);
      e := Local(g, Run(u, c));
    }
  }

  /** The holder of the mutex of dst_qp_map is inside the loop. */
  lemma HolderSpins(r: Router)
    requires OwnersOk(r) && DstQpM in r.owner
    ensures var t := r.owner[DstQpM]; t in r.threads && r.threads[t].pc.MSpin? && r.threads[t].inside
  {
    assert OwnerOk(r, DstQpM);
  }

  /** A look at dst_qp_map that finds nothing leaves only the mutex free. */
  predicate Freed(r: Router, r': Router) {
    && DstQpM !in r'.owner && r'.d == r.d && r'.threads.Keys == r.threads.Keys
    && forall t :: t in r.threads ==> r'.threads[t].(inside := false) == r.threads[t].(inside := false)
  }

  predicate FreedAt(w: World, w': World, g: Gid) {
    w'.net == w.net && g in w.routers && g in w'.routers && Freed(w.routers[g], w'.routers[g])
  }

  lemma FruitlessLook(r: Router, t: Tid, c: Choice)
    requires RequestsOk(r) && CanRun(r, t, c) && r.threads[t].pc.MSpin? && !LeavesLoop(r.d, r.threads[t])
    ensures Freed(r, RunStep(r, t, c)) && Sends(r.d, r.threads[t], c).None?
  {
    assert RequestOk(r.d.gid, r.threads[t]);
  }

  /** The mutex of dst_qp_map is free, after at most one look at the map, or that look did work. */
  lemma FreeDst(w: World, hs: Handlers, g: Gid) returns (ws: seq<World>, es: seq<Event>, w': World)
    requires Ready(w, hs) && Involved(hs, g) && g in w.routers
    ensures Leads(w, hs, ws, es, w') && (Left(w') < Left(w) || FreedAt(w, w', g))
  {
    assert RouterOk(w, g);
    var r := w.routers[g];
    if DstQpM !in r.owner {
      Stays(w, hs);
      return [w], [], w;
    }
    HolderSpins(r);
    var t := r.owner[DstQpM];
    var c := GoodRun(w, hs, g, t);
    ws, es, w' := OneStep(w, hs, Local(g, Run(t, c)));
    if !LeavesLoop(r.d, r.threads[t]) { FruitlessLook(r, t, c); }
  }

  /** With no handler outside the loop, each one can leave it or its message is on the way. */
  lemma PeerSpoke(w: World, hs: Handlers, g: Gid, t: Tid)
    requires Ready(w, hs) && (g, t) in hs && Spinning(w, g, t) && forall f, u :: !Busy(w, hs, f, u)
    ensures LeavesLoop(w.routers[g].d, w.routers[g].threads[t])
      || (w.routers[g].threads[t].req.Modify? && InFlight(w.net, w.routers[g].threads[t].req.dst, g))
  {
    var th := w.routers[g].threads[t];
    assert RouterOk(w, g) && RequestOk(w.routers[g].d.gid, th) && MetAt(w, hs, g, t);
    var s := th.req.dst;
    var u :| IsPeer(w, hs, s, u, g);
    assert !Busy(w, hs, s, u) && RouterOk(w, s) && ThreadSafe(w.routers[s].d, w.routers[s].threads[u]);
    assert Spoke(w.routers[s].threads[u]) && Heard(w, s, u);
  }

  lemma CanLook(r: Router, t: Tid)
    requires Inv(r) && t in r.threads && r.threads[t].pc.MSpin? && DstQpM !in r.owner
    ensures CanLock(r, t)
  {
    assert HoldingOk(r, t);
  }

  /** The handler takes the mutex to look at dst_qp_map. */
  lemma StartsLook(w: World, hs: Handlers, g: Gid, t: Tid)
    requires Ready(w, hs) && (g, t) in hs && Spinning(w, g, t) && DstQpM !in w.routers[g].owner
    ensures var e := Local(g, Lock(t));
      && GoodEvent(w, hs, e) && At(Then(w, e), g, t) && Then(w, e).routers[g].d == w.routers[g].d
      && Then(w, e).routers[g].threads[t] == w.routers[g].threads[t].(inside := true)
  {
    assert RouterOk(w, g);
    CanLook(w.routers[g], t);
    Locked(w.routers[g], t);
  }

  lemma LeaveLoop(w: World, hs: Handlers, g: Gid, t: Tid) returns (ws: seq<World>, es: seq<Event>, w': World)
    requires Ready(w, hs) && (g, t) in hs && Spinning(w, g, t) && DstQpM !in w.routers[g].owner
    requires LeavesLoop(w.routers[g].d, w.routers[g].threads[t])
    ensures Leads(w, hs, ws, es, w') && Left(w') < Left(w)
  {
    var e := Local(g, Lock(t));
    StartsLook(w, hs, g, t);
    ReadyNext(w, hs, e);
    var c := GoodRun(Then(w, e), hs, g, t);
    ws, es, w' := TwoSteps(w, hs, e, Local(g, Run(t, c)));
  }

  lemma Arrives(w: World, hs: Handlers, s: Gid, g: Gid) returns (ws: seq<World>, es: seq<Event>, w': World)
    requires Ready(w, hs) && Involved(hs, g) && g in w.routers && DstQpM !in w.routers[g].owner
    requires InFlight(w.net, s, g)
    ensures Leads(w, hs, ws, es, w') && Left(w') < Left(w)
  {
    var i: nat :| i < |w.net| && IsInsert(w.net[i], s, g);
    ws, es, w' := OneStep(w, hs, Deliver(i));
  }

  /** A handler in the loop gets out of it or a message it waits for arrives. */
  lemma LoopRound(w: World, hs: Handlers, g: Gid, t: Tid) returns (ws: seq<World>, es: seq<Event>, w': World)
    requires Ready(w, hs) && (g, t) in hs && Spinning(w, g, t) && forall f, u :: !Busy(w, hs, f, u)
    ensures Leads(w, hs, ws, es, w') && Left(w') < Left(w)
  {
    PeerSpoke(w, hs, g, t);
    var ws1, es1, w1 := FreeDst(w, hs, g);
    if Left(w1) < Left(w) { return ws1, es1, w1; }
    var th := w.routers[g].threads[t];
    assert w1.routers[g].threads[t].(inside := false) == th.(inside := false);
    var ws2, es2: seq<Event>, w2;
    if LeavesLoop(w.routers[g].d, th) {
      ws2, es2, w2 := LeaveLoop(w1, hs, g, t);
    } else {
      ws2, es2, w2 := Arrives(w1, hs, th.req.dst, g);
    }
    LeadsOn(w, hs, ws1, es1, w1, ws2, es2, w2);
    ws, es, w' := ws1[..|es1|] + ws2, es1 + es2, w2;
  }

  /** While one of the handlers is unfinished, at most three events do work. */
  lemma Progress(w: World, hs: Handlers) returns (ws: seq<World>, es: seq<Event>, w': World)
    requires Ready(w, hs) && Unfinished(w, hs)
    ensures Leads(w, hs, ws, es, w') && Left(w') < Left(w)
  {
    if g, t :| Busy(w, hs, g, t) {
      var e := BusyStep(w, hs, g, t);
      ws, es, w' := OneStep(w, hs, e);
    } else {
      var g, t :| (g, t) in hs && At(w, g, t) && Active(w.routers[g].threads[t]);
      assert !Busy(w, hs, g, t);
      ws, es, w' := LoopRound(w, hs, g, t);
    }
  }

  // ----- the theorems -----

  /** From here the handlers can be brought to their end. */
  lemma {:induction false} Finish(w: World, hs: Handlers) returns (ws: seq<World>, es: seq<Event>, w': World)
    requires Ready(w, hs)
    ensures Leads(w, hs, ws, es, w') && !Unfinished(w', hs)
    decreases Left(w)
  {
    if Unfinished(w, hs) {
      var ws1, es1, w1 := Progress(w, hs);
      var ws2, es2: seq<Event>, w2 := Finish(w1, hs);
      LeadsOn(w, hs, ws1, es1, w1, ws2, es2, w2);
      ws, es, w' := ws1[..|es1|] + ws2, es1 + es2, w2;
    } else {
      Stays(w, hs);
      ws, es, w' := [w], [], w;
    }
  }

  /** A history followed by a path is a history. */
  lemma Continued(ws: seq<World>, es: seq<Event>, ws': seq<World>, es': seq<Event>)
    requires IsBuildUp(ws, es) && IsPath(ws', es') && ws'[0] == ws[|es|]
    ensures IsBuildUp(ws[..|es|] + ws', es + es')
  {
    var v, f, n := ws[..|es|] + ws', es + es', |es|;
    forall i {:trigger AllFit(v[i])} | 0 <= i < |v| ensures AllFit(v[i]) {
      if i < n { assert AllFit(ws[i]); } else { assert AllFit(ws'[i - n]); }
    }
    forall i {:trigger Fair(v[i], f[i])} | 0 <= i < |f| ensures Fair(v[i], f[i]) {
      if i < n { assert Fair(ws[i], es[i]); } else { assert Fair(ws'[i - n], es'[i - n]); }
    }
    forall i | 0 <= i < |f| ensures HappensAt(v, f, i) {
      if i < n { assert HappensAt(ws, es, i); } else { assert HappensAt(ws', es', i - n); }
    }
    forall i {:trigger BuildsUp(f[i])} | 0 <= i < |f| ensures BuildsUp(f[i]) {
      if i < n { assert BuildsUp(es[i]); } else { assert StartsNothing(es'[i - n]); }
    }
  }

  /** The handler is unfinished or has answered that its queue pair is ready. */
  predicate WillAnswer(w: World, g: Gid, t: Tid, s: Gid) {
    && At(w, g, t) && w.routers[g].threads[t].req.Modify? && w.routers[g].threads[t].req.dst == s
    && (Active(w.routers[g].threads[t]) || w.routers[g].threads[t].pc == Done(ModifyRsp(true)))
  }

  /** Two of the handlers, one for each direction of a host pair. */
  predicate BothAsked(w: World, hs: Handlers, g: Gid, t: Tid, s: Gid, u: Tid) {
    (g, t) in hs && WillAnswer(w, g, t, s) && (s, u) in hs && WillAnswer(w, s, u, g)
  }

  predicate Answered(w: World, g: Gid, t: Tid) {
    At(w, g, t) && w.routers[g].threads[t].pc == Done(ModifyRsp(true))
  }

  /** Once the handlers have ended, the end of a pair one of them was asked for is up. */
  lemma EndsUp(ws: seq<World>, es: seq<Event>, w: World, hs: Handlers, g: Gid, t: Tid, s: Gid)
    requires IsBuildUp(ws, es) && AllGoOn(w, ws[|es|], hs) && !Unfinished(ws[|es|], hs)
    requires (g, t) in hs && WillAnswer(w, g, t, s)
    ensures Answered(ws[|es|], g, t) && EndUp(ws[|es|], g, s)
    ensures ReadyConn(ws[|es|].routers[g].d, HostKey(g, s))
  {
    assert GoesOnAt(w, ws[|es|], g, t);
    ReadyAnswers(ws, es, |es|, g, t);
  }

  /** `ws'` continues `ws` and starts no handler. */
  ghost predicate Continues(ws: seq<World>, es: seq<Event>, ws': seq<World>, es': seq<Event>) {
    && |ws| == |es| + 1 && |ws'| == |es'| + 1 && ws <= ws' && es <= es'
    && forall i {:trigger StartsNothing(es'[i])} :: |es| <= i < |es'| ==> StartsNothing(es'[i])
  }

  /** Wherever a build-up stands, and for any set of handlers: if for every unfinished
      IBV_MODIFY_QP among them the peer was asked for the other direction by one of them, the
      device has refused no transition of their connections and the counts of their routers have
      room, then the run can go on, starting no handler, until all of them have ended, whatever
      other handlers wait for. Every IBV_MODIFY_QP among them that was unfinished has then
      answered that its queue pair is ready, and the queue pair is in RTS and connected to the
      peer's; where both directions were asked for, both are, to each other. */
  lemma BuildUpCompletes(ws: seq<World>, es: seq<Event>, hs: Handlers) returns (ws': seq<World>, es': seq<Event>)
    requires IsBuildUp(ws, es) && Met(ws[|es|], hs) && AllFine(ws[|es|], hs)
    ensures IsBuildUp(ws', es') && Continues(ws, es, ws', es') && !Unfinished(ws'[|es'|], hs)
    ensures forall g, t, s :: (g, t) in hs && WillAnswer(ws[|es|], g, t, s) ==>
              Answered(ws'[|es'|], g, t) && EndUp(ws'[|es'|], g, s)
    ensures forall g, t, s, u :: BothAsked(ws[|es|], hs, g, t, s, u) ==> PairUp(ws'[|es'|], g, s)
  {
    HistoryOk(ws, es, |es|);
    HistoryCalm(ws, es, |es|);
    var w := ws[|es|];
    assert AllFit(w);
    var path, steps, last := Finish(w, hs);
    Continued(ws, es, path, steps);
    ws', es' := ws[..|es|] + path, es + steps;
    assert ws'[|es'|] == last && ws <= ws';
    forall i | |es| <= i < |es'| ensures StartsNothing(es'[i]) { assert StartsNothing(steps[i - |es|]); }
    forall g, t, s | (g, t) in hs && WillAnswer(w, g, t, s)
      ensures Answered(last, g, t) && EndUp(last, g, s) && ReadyConn(last.routers[g].d, HostKey(g, s))
    {
      EndsUp(ws', es', w, hs, g, t, s);
    }
    forall g, t, s, u | BothAsked(w, hs, g, t, s, u)
      ensures PairUp(last, g, s)
    {
      ReadyPairsAgree(ws', es', |es'|, g, s);
    }
  }

  /** One host pair alone. Both directions were asked for, the device has refused no transition of
      the pair's connections and the counts of the two routers have room: the run can go on until
      both handlers have answered that the queue pair is ready, and the two queue pairs are in RTS
      and connected to each other. Nothing is asked of other handlers, connections and hosts. */
  lemma PairCompletes(ws: seq<World>, es: seq<Event>, g: Gid, t: Tid, s: Gid, u: Tid)
    returns (ws': seq<World>, es': seq<Event>)
    requires IsBuildUp(ws, es) && WillAnswer(ws[|es|], g, t, s) && WillAnswer(ws[|es|], s, u, g)
    requires HealthyKey(ws[|es|].routers[g].d, HostKey(g, s)) && Room(ws[|es|].routers[g])
    requires HealthyKey(ws[|es|].routers[s].d, HostKey(s, g)) && Room(ws[|es|].routers[s])
    ensures IsBuildUp(ws', es') && Continues(ws, es, ws', es')
    ensures Answered(ws'[|es'|], g, t) && Answered(ws'[|es'|], s, u) && PairUp(ws'[|es'|], g, s)
  {
    var w, hs := ws[|es|], {(g, t), (s, u)};
    assert IsPeer(w, hs, s, u, g) && IsPeer(w, hs, g, t, s);
    assert MetAt(w, hs, g, t) && MetAt(w, hs, s, u);
    ws', es' := BuildUpCompletes(ws, es, hs);
    assert BothAsked(w, hs, g, t, s, u);
  }
}
