/** Teardown: when the requests on a host pair are served one at a time and its
    messages arrive in order, both routers agree on whether the pair is connected. */
module Teardown {
  import opened Types
  import opened Sections
  import opened Machine
  import opened References
  import opened Safety
  import opened World
  import opened Frames

  // ----- the premises -----

  predicate OnPair(req: Request, s: Gid) {
    (req.Modify? || req.Destroy?) && req.dst == s
  }

  /** The premises on the pair of router `r` with `s`: at `r`, IBV_MODIFY_QP and IBV_DESTROY_QP
      toward `s` do not overlap, the messages they send are sent, an IBV_DESTROY_QP names `s`
      exactly if its handle is mapped to the key of `s`, and messages from `r` to `s` arrive in
      order. Nothing is asked of other requests, pairs and messages. */
  ghost predicate Orderly(w: World, e: Event, r: Gid, s: Gid) {
    match e
    case Local(g, Start(t, req)) =>
      g == r && g in w.routers ==>
        && NamesPair(w.routers[g].d, req, s)
        && (OnPair(req, s) ==>
              forall u :: u in w.routers[g].threads && Active(w.routers[g].threads[u]) ==>
                !OnPair(w.routers[g].threads[u].req, s))
    case Local(g, Run(t, c)) =>
      g == r && g in w.routers && t in w.routers[g].threads ==> GetsThrough(w.routers[g].threads[t], c, s)
    case Local(_, _) => true
    case Deliver(i) =>
      i < |w.net| && OnChannel(w.net[i], r, s) ==> forall j :: 0 <= j < i ==> !OnChannel(w.net[j], r, s)
  }

  /** The host an IBV_DESTROY_QP names is `s` exactly if its handle is mapped to the key of `s`. */
  predicate NamesPair(d: Shared, req: Request, s: Gid) {
    req.Destroy? && req.h in d.srcQpMap ==> (req.dst == s <==> d.srcQpMap[req.h].dstGid == s)
  }

  predicate OnChannel(m: Packet, r: Gid, s: Gid) { m.src == r && m.dst == s }

  /** The step, if it sends a message on the pair, sends it. */
  predicate GetsThrough(th: Thread, c: Choice, s: Gid) {
    OnPair(th.req, s) && (th.pc.MSend? || th.pc.DConn?) ==> c.ok
  }

  // ----- one router -----

  /** The handler has changed the key toward `s` and not yet told the peer. */
  predicate Midway(th: Thread, s: Gid) {
    OnPair(th.req, s)
    && (th.pc.MCreate? || th.pc.MDiscard? || th.pc.MReadQpn? || th.pc.MSrc? || th.pc.MSend? || th.pc.DConn?)
  }

  predicate SomeMidway(r: Router, s: Gid) {
    exists t :: t in r.threads && Midway(r.threads[t], s)
  }

  ghost predicate Serial(r: Router, s: Gid) {
    forall t, u :: t in r.threads && u in r.threads && t != u && Active(r.threads[t]) && Active(r.threads[u])
      ==> !(OnPair(r.threads[t].req, s) && OnPair(r.threads[u].req, s))
  }

  /** An IBV_DESTROY_QP works on the key of `s` exactly if it names `s`. */
  ghost predicate DestroysPair(d: Shared, th: Thread, s: Gid) {
    th.req.Destroy? ==>
      && (th.pc.DSrc? ==> NamesPair(d, th.req, s))
      && (th.pc.DHost? || th.pc.DConn? ==> (th.req.dst == s <==> th.key == HostKey(d.gid, s)))
      && (th.pc.DConn? && th.req.dst == s ==> th.key !in d.hostMap)
  }

  ghost predicate TornOk(r: Router, s: Gid) {
    && Serial(r, s)
    && (forall t :: t in r.threads ==> DestroysPair(r.d, r.threads[t], s))
    && GidsOk(r.d)
  }

  ghost predicate GidsOk(d: Shared) {
    forall h :: h in d.srcQpMap ==> d.srcQpMap[h].srcGid == d.gid
  }

  lemma ModifyGids(d: Shared, th: Thread, c: Choice)
    requires GidsOk(d) && RequestOk(d.gid, th) && th.req.Modify? && ModifyMove(d, th, c).Go?
    ensures GidsOk(ModifyMove(d, th, c).d) && ModifyMove(d, th, c).d.gid == d.gid
  {
    ModifyFrame(d, th, c);
  }

  lemma DestroyGids(d: Shared, th: Thread)
    requires GidsOk(d) && th.req.Destroy? && DestroyMove(d, th).Go?
    ensures GidsOk(DestroyMove(d, th).d) && DestroyMove(d, th).d.gid == d.gid
  {
    DestroyFrame(d, th);
  }

  lemma MapGids(d: Shared, th: Thread, c: Choice)
    requires GidsOk(d) && RequestOk(d.gid, th) && MoveOf(d, th, c).Go?
    ensures GidsOk(MoveOf(d, th, c).d) && MoveOf(d, th, c).d.gid == d.gid
  {
    if th.req.Modify? { ModifyGids(d, th, c); }
    else if th.req.Destroy? { DestroyGids(d, th); }
    else { OtherFrame(d, th, c); }
  }

  /** The keys a step adds or removes. */
  lemma KeysChange(d: Shared, th: Thread, c: Choice, k: HostKey)
    requires HostOk(d) && ThreadOk(d, th) && MoveOf(d, th, c).Go?
    ensures var mv := MoveOf(d, th, c);
      && (k in mv.d.hostMap && k !in d.hostMap ==> th.req.Modify? && th.pc.MHost? && mv.pc.MCreate? && k == th.key)
      && (k in d.hostMap && k !in mv.d.hostMap ==>
        th.req.Destroy? && th.pc.DHost? && mv.pc.DConn? && mv.key == th.key && k == th.key)
  {
    if th.req.Modify? { ModifyKeys(d, th, c, k); }
    else if th.req.Destroy? { DestroyKeys(d, th, k); }
    else { OtherFrame(d, th, c); }
  }

  lemma ModifyKeys(d: Shared, th: Thread, c: Choice, k: HostKey)
    requires HostOk(d) && th.req.Modify? && ModifyMove(d, th, c).Go?
    ensures var mv := ModifyMove(d, th, c);
      && (k in mv.d.hostMap && k !in d.hostMap ==> th.pc.MHost? && mv.pc.MCreate? && k == th.key)
      && (k in d.hostMap ==> k in mv.d.hostMap)
  {
  }

  lemma DestroyKeys(d: Shared, th: Thread, k: HostKey)
    requires HostOk(d) && ThreadOk(d, th) && th.req.Destroy? && DestroyMove(d, th).Go?
    ensures var mv := DestroyMove(d, th);
      && (k in mv.d.hostMap ==> k in d.hostMap)
      && (k in d.hostMap && k !in mv.d.hostMap ==> th.pc.DHost? && mv.pc.DConn? && mv.key == th.key && k == th.key)
  {
  }

  /** The mover keeps to the pair it names. */
  lemma MoverOnPair(d: Shared, th: Thread, c: Choice, s: Gid)
    requires HostOk(d) && ThreadOk(d, th) && RequestOk(d.gid, th) && MoveOf(d, th, c).Go? && DestroysPair(d, th, s)
    requires GidsOk(d)
    ensures var mv := MoveOf(d, th, c); DestroysPair(mv.d, Thread(th.req, mv.key, mv.pc, false), s)
  {
    if th.req.Destroy? && th.pc.DHost? { DropShape(d, th.key); }
  }

  lemma RunTorn(r: Router, t: Tid, c: Choice, s: Gid)
    requires Shape(r) && Safe(r) && TornOk(r, s) && CanRun(r, t, c)
    ensures TornOk(RunStep(r, t, c), s)
  {
    var th := r.threads[t];
    var r' := RunStep(r, t, c);
    assert ThreadOk(r.d, th) && RequestOk(r.d.gid, th) && ThreadSafe(r.d, th) && DestroysPair(r.d, th, s);
    AllMoveSafely(r.d, th, c);
    MapGids(r.d, th, c);
    forall u | u in r'.threads ensures DestroysPair(r'.d, r'.threads[u], s) {
      if u == t { MoverOnPair(r.d, th, c, s); }
      else { OtherTorn(r, t, c, u, s); }
    }
    assert Serial(r', s) by { assert Serial(r, s); }
  }

  lemma OtherTorn(r: Router, t: Tid, c: Choice, u: Tid, s: Gid)
    requires HostOk(r.d) && OneEach(r) && TornOk(r, s) && CanRun(r, t, c) && MoveOf(r.d, r.threads[t], c).Go?
    requires u in r.threads && u != t
    requires ThreadOk(r.d, r.threads[t]) && RequestOk(r.d.gid, r.threads[t]) && RequestOk(r.d.gid, r.threads[u])
    requires MoveOf(r.d, r.threads[t], c).d.gid == r.d.gid
    ensures DestroysPair(RunStep(r, t, c).d, r.threads[u], s)
  {
    var th, mv := r.threads[t], MoveOf(r.d, r.threads[t], c);
    assert DestroysPair(r.d, r.threads[u], s);
    if r.threads[u].req.Destroy? && Active(r.threads[u]) {
      KeysChange(r.d, th, c, r.threads[u].key);
      MapChanges(r.d, th, c, r.threads[u].req.h);
    }
  }

  /** Only the handler of a handle maps it. */
  lemma MapChanges(d: Shared, th: Thread, c: Choice, h: Handle)
    requires MoveOf(d, th, c).Go? && (HasHandle(th.req) ==> th.req.h != h)
    ensures var d' := MoveOf(d, th, c).d;
      (h in d'.srcQpMap <==> h in d.srcQpMap) && (h in d.srcQpMap ==> d'.srcQpMap[h] == d.srcQpMap[h])
  {
    if th.req.Modify? { ModifyFrame(d, th, c); }
    else if th.req.Destroy? { DestroyFrame(d, th); }
    else { OtherFrame(d, th, c); }
  }

  lemma StartTorn(w: World, g: Gid, t: Tid, req: Request, s: Gid)
    requires g in w.routers && TornOk(w.routers[g], s) && RequestsOk(w.routers[g]) && t !in w.routers[g].threads
    requires w.routers[g].d.gid == g
    requires Fair(w, Local(g, Start(t, req))) && Orderly(w, Local(g, Start(t, req)), g, s)
    ensures TornOk(StartStep(w.routers[g], t, req), s)
  {
    var r := w.routers[g];
    var r' := StartStep(r, t, req);
    assert Serial(r', s) by { assert Serial(r, s); }
    forall u | u in r'.threads ensures DestroysPair(r'.d, r'.threads[u], s) {
      if u != t { assert DestroysPair(r.d, r.threads[u], s); }
    }
  }

  lemma SameThreadsTorn(r: Router, r': Router, s: Gid)
    requires TornOk(r, s) && r'.d.gid == r.d.gid && r'.d.srcQpMap == r.d.srcQpMap && r'.d.hostMap == r.d.hostMap
    requires r'.threads.Keys == r.threads.Keys
    requires forall t :: t in r.threads ==> r'.threads[t].(inside := false) == r.threads[t].(inside := false)
    ensures TornOk(r', s)
  {
    assert Serial(r', s) by {
      forall t, u | t in r'.threads && u in r'.threads && t != u && Active(r'.threads[t]) && Active(r'.threads[u])
        ensures !(OnPair(r'.threads[t].req, s) && OnPair(r'.threads[u].req, s))
      {
        assert r.threads[t].req == r'.threads[t].req && r.threads[u].req == r'.threads[u].req;
        assert r.threads[t].pc == r'.threads[t].pc && r.threads[u].pc == r'.threads[u].pc;
      }
    }
    forall u | u in r'.threads ensures DestroysPair(r'.d, r'.threads[u], s) {
      assert DestroysPair(r.d, r.threads[u], s) && r'.threads[u].(inside := false) == r.threads[u].(inside := false);
    }
  }

  // ----- what a step does to the pair with `s` -----

  predicate Connected(r: Router, s: Gid) { HostKey(r.d.gid, s) in r.d.hostMap }

  /** A message tells the peer what is the case at its sender; without one, either
      nothing changes or a handler is midway. */
  ghost predicate TellsTruth(r: Router, r': Router, m: Option<Packet>, s: Gid) {
    if m.Some? && m.value.dst == s then m.value.op.Insert? <==> Connected(r', s)
    else SomeMidway(r', s) || (!SomeMidway(r, s) && (Connected(r', s) <==> Connected(r, s)))
  }

  lemma RunTells(r: Router, t: Tid, c: Choice, s: Gid)
    requires Shape(r) && Safe(r) && TornOk(r, s) && CanRun(r, t, c) && GetsThrough(r.threads[t], c, s)
    ensures TellsTruth(r, RunStep(r, t, c), Sends(r.d, r.threads[t], c), s)
  {
    var th := r.threads[t];
    var r' := RunStep(r, t, c);
    assert ThreadOk(r.d, th) && RequestOk(r.d.gid, th) && ThreadSafe(r.d, th) && DestroysPair(r.d, th, s);
    AllMoveSafely(r.d, th, c);
    MapGids(r.d, th, c);
    KeysChange(r.d, th, c, HostKey(r.d.gid, s));
    if th.pc.MSend? { assert KeyReady(r.d, r.d.srcQpMap[th.req.h]); }
    if Midway(th, s) && Sends(r.d, th, c).None? { MidwayGoesOn(r, t, c, s); }
    else if Sends(r.d, th, c).None? || Sends(r.d, th, c).value.dst != s {
      if SomeMidway(r, s) { OthersMidway(r, t, c, s); }
      if Connected(r', s) != Connected(r, s) { assert Midway(r'.threads[t], s); }
    }
  }

  lemma OthersMidway(r: Router, t: Tid, c: Choice, s: Gid)
    requires CanRun(r, t, c) && !Midway(r.threads[t], s) && SomeMidway(r, s)
    ensures SomeMidway(RunStep(r, t, c), s)
  {
    var u :| u in r.threads && Midway(r.threads[u], s);
    assert RunStep(r, t, c).threads[u] == r.threads[u];
  }

  lemma MidwayGoesOn(r: Router, t: Tid, c: Choice, s: Gid)
    requires Shape(r) && CanRun(r, t, c) && GetsThrough(r.threads[t], c, s)
    requires Midway(r.threads[t], s) && MoveOf(r.d, r.threads[t], c).Go?
    requires Sends(r.d, r.threads[t], c).None?
    ensures SomeMidway(RunStep(r, t, c), s)
  {
    var th := r.threads[t];
    assert ThreadOk(r.d, th) && RequestOk(r.d.gid, th);
    assert Midway(RunStep(r, t, c).threads[t], s);
  }

  lemma QuietTells(r: Router, r': Router, s: Gid)
    requires r'.d.gid == r.d.gid && r'.d.hostMap == r.d.hostMap
    requires forall t :: t in r.threads ==> t in r'.threads && (Midway(r'.threads[t], s) <==> Midway(r.threads[t], s))
    ensures TellsTruth(r, r', None, s)
  {
    if t :| t in r.threads && Midway(r.threads[t], s) { assert Midway(r'.threads[t], s); }
  }

  // ----- the messages of one channel -----

  /** What the receiver will hold once the messages in flight have arrived in order. */
  function LastWord(net: seq<Packet>, src: Gid, dst: Gid, now: bool): bool {
    if net == [] then now
    else
      var m := net[|net| - 1];
      if m.src == src && m.dst == dst then m.op.Insert? else LastWord(net[..|net| - 1], src, dst, now)
  }

  lemma Appended(net: seq<Packet>, m: Packet, src: Gid, dst: Gid, now: bool)
    ensures LastWord(net + [m], src, dst, now)
         == if m.src == src && m.dst == dst then m.op.Insert? else LastWord(net, src, dst, now)
  {
    assert (net + [m])[..|net|] == net;
  }

  lemma {:induction false} Silent(net: seq<Packet>, src: Gid, dst: Gid, now: bool)
    requires forall j :: 0 <= j < |net| ==> !(net[j].src == src && net[j].dst == dst)
    ensures LastWord(net, src, dst, now) == now
  {
    if net != [] { Silent(net[..|net| - 1], src, dst, now); }
  }

  lemma {:induction false} RemovedOther(net: seq<Packet>, i: nat, src: Gid, dst: Gid, now: bool)
    requires i < |net| && !(net[i].src == src && net[i].dst == dst)
    ensures LastWord(net[..i] + net[i + 1..], src, dst, now) == LastWord(net, src, dst, now)
  {
    var rest := net[..i] + net[i + 1..];
    if i == |net| - 1 { assert rest == net[..i]; }
    else {
      var short := net[..|net| - 1];
      assert rest[..|rest| - 1] == short[..i] + short[i + 1..];
      RemovedOther(short, i, src, dst, now);
    }
  }

  lemma {:induction false} RemovedFirst(net: seq<Packet>, i: nat, src: Gid, dst: Gid, now: bool)
    requires i < |net| && net[i].src == src && net[i].dst == dst
    requires forall j :: 0 <= j < i ==> !(net[j].src == src && net[j].dst == dst)
    ensures LastWord(net[..i] + net[i + 1..], src, dst, net[i].op.Insert?) == LastWord(net, src, dst, now)
  {
    var rest := net[..i] + net[i + 1..];
    if i == |net| - 1 {
      assert rest == net[..i];
      Silent(rest, src, dst, net[i].op.Insert?);
    } else {
      var short := net[..|net| - 1];
      assert rest[..|rest| - 1] == short[..i] + short[i + 1..];
      RemovedFirst(short, i, src, dst, now);
    }
  }

  // ----- the world -----

  ghost predicate PairOk(w: World, r: Gid, s: Gid)
    requires r in w.routers && s in w.routers
  {
    SomeMidway(w.routers[r], s)
    || (LastWord(w.net, r, s, r in w.routers[s].d.dstQpMap) <==> Connected(w.routers[r], s))
  }

  ghost predicate PairsOk(w: World, r: Gid, s: Gid) {
    r in w.routers && s in w.routers && TornOk(w.routers[r], s) && PairOk(w, r, s)
  }

  lemma PeersStay(r: Router, a: Action)
    requires Enabled(r, a) && !a.Receive?
    ensures Next(r, a).d.dstQpMap == r.d.dstQpMap
  {
    if a.Run? && MoveOf(r.d, r.threads[a.t], a.c).Go? {
      var th := r.threads[a.t];
      if th.req.Modify? { ModifyFrame(r.d, th, a.c); }
      else if th.req.Destroy? { DestroyFrame(r.d, th); }
      else { OtherFrame(r.d, th, a.c); }
    }
  }

  /** A step that leaves the maps alone and moves no handler. */
  lemma StillTells(r: Router, r': Router, s: Gid)
    requires TornOk(r, s) && r'.d.gid == r.d.gid && r'.d.srcQpMap == r.d.srcQpMap && r'.d.hostMap == r.d.hostMap
    requires r'.threads.Keys == r.threads.Keys
    requires forall t :: t in r.threads ==> r'.threads[t].(inside := false) == r.threads[t].(inside := false)
    ensures TornOk(r', s) && TellsTruth(r, r', None, s)
  {
    SameThreadsTorn(r, r', s);
    forall t | t in r.threads ensures Midway(r'.threads[t], s) <==> Midway(r.threads[t], s) {
      assert r'.threads[t].(inside := false) == r.threads[t].(inside := false);
    }
    QuietTells(r, r', s);
  }

  lemma LockTells(r: Router, t: Tid, s: Gid)
    requires Inv(r) && Safe(r) && CanLock(r, t) && TornOk(r, s)
    ensures TornOk(LockStep(r, t), s) && TellsTruth(r, LockStep(r, t), None, s)
  {
    LockSafe(r, t);
    StillTells(r, LockStep(r, t), s);
  }

  lemma StartTells(w: World, g: Gid, t: Tid, req: Request, s: Gid)
    requires WorldOk(w) && Happens(w, Local(g, Start(t, req))) && TornOk(w.routers[g], s)
    requires Fair(w, Local(g, Start(t, req))) && Orderly(w, Local(g, Start(t, req)), g, s)
    ensures var r := w.routers[g]; TornOk(StartStep(r, t, req), s) && TellsTruth(r, StartStep(r, t, req), None, s)
  {
    assert RouterOk(w, g);
    StartTorn(w, g, t, req, s);
    QuietTells(w.routers[g], StartStep(w.routers[g], t, req), s);
  }

  /** What a router's own step does to its handlers and to its pair with `s`. */
  lemma LocalTells(w: World, g: Gid, a: Action, s: Gid)
    requires WorldOk(w) && Happens(w, Local(g, a)) && Fair(w, Local(g, a)) && Orderly(w, Local(g, a), g, s)
    requires TornOk(w.routers[g], s)
    ensures TornOk(Next(w.routers[g], a), s)
    ensures TellsTruth(w.routers[g], Next(w.routers[g], a), Message(w.routers[g], a), s)
  {
    var r := w.routers[g];
    assert RouterOk(w, g);
    match a
    case Start(t, req) => StartTells(w, g, t, req, s);
    case Lock(t) => LockTells(r, t, s);
    case Run(t, c) =>
      RunTorn(r, t, c, s);
      RunTells(r, t, c, s);
    case Hardware(p, kind, ok) => StillTells(r, Next(r, a), s);
  }

  /** A step at the sending router. */
  lemma OwnPair(w: World, a: Action, r: Gid, s: Gid)
    requires WorldOk(w) && PairsOk(w, r, s) && Happens(w, Local(r, a)) && Fair(w, Local(r, a))
    requires Orderly(w, Local(r, a), r, s)
    ensures PairsOk(Then(w, Local(r, a)), r, s)
  {
    var m := Message(w.routers[r], a);
    assert RouterOk(w, r);
    LocalTells(w, r, a, s);
    GidStays(w.routers[r], a);
    PeersStay(w.routers[r], a);
    if m.Some? { Appended(w.net, m.value, r, s, r in w.routers[s].d.dstQpMap); }
  }

  lemma SenderKnown(w: World, g: Gid, a: Action)
    requires WorldOk(w) && Happens(w, Local(g, a)) && Message(w.routers[g], a).Some?
    ensures Message(w.routers[g], a).value.src == g
  {
    assert RouterOk(w, g);
  }

  /** A step at another router. */
  lemma OtherPair(w: World, g: Gid, a: Action, r: Gid, s: Gid)
    requires WorldOk(w) && PairsOk(w, r, s) && Happens(w, Local(g, a)) && g != r
    ensures PairsOk(Then(w, Local(g, a)), r, s)
  {
    var m := Message(w.routers[g], a);
    PeersStay(w.routers[g], a);
    if m.Some? {
      SenderKnown(w, g, a);
      Appended(w.net, m.value, r, s, r in w.routers[s].d.dstQpMap);
    }
  }

  /** A delivery changes the handlers of no router and the numbers of the receiver alone. */
  lemma Delivered(w: World, i: nat, r: Gid)
    requires Happens(w, Deliver(i)) && r in w.routers
    ensures var w', m := Then(w, Deliver(i)), w.net[i];
      && r in w'.routers && w'.net == w.net[..i] + w.net[i + 1..]
      && w'.routers[r].threads == w.routers[r].threads
      && w'.routers[r].d == w.routers[r].d.(dstQpMap := w'.routers[r].d.dstQpMap)
      && w'.routers[r].d.dstQpMap ==
           if m.dst == r then ApplyInfo(w.routers[r].d.dstQpMap, m) else w.routers[r].d.dstQpMap
  {
  }

  lemma DeliveryWord(w: World, i: nat, r: Gid, s: Gid)
    requires r in w.routers && s in w.routers && PairOk(w, r, s) && Happens(w, Deliver(i))
    requires Orderly(w, Deliver(i), r, s)
    ensures r in Then(w, Deliver(i)).routers && s in Then(w, Deliver(i)).routers && PairOk(Then(w, Deliver(i)), r, s)
  {
    Delivered(w, i, r);
    Delivered(w, i, s);
    var now := r in w.routers[s].d.dstQpMap;
    if OnChannel(w.net[i], r, s) { RemovedFirst(w.net, i, r, s, now); } else { RemovedOther(w.net, i, r, s, now); }
  }

  lemma DeliveryPairs(w: World, i: nat, r: Gid, s: Gid)
    requires PairsOk(w, r, s) && Happens(w, Deliver(i)) && Orderly(w, Deliver(i), r, s)
    ensures PairsOk(Then(w, Deliver(i)), r, s)
  {
    Delivered(w, i, r);
    SameThreadsTorn(w.routers[r], Then(w, Deliver(i)).routers[r], s);
    DeliveryWord(w, i, r, s);
  }

  ghost predicate IsOrderly(ws: seq<World>, es: seq<Event>, r: Gid, s: Gid) {
    IsHistory(ws, es) && forall i {:trigger Orderly(ws[i], es[i], r, s)} :: 0 <= i < |es| ==>
      Orderly(ws[i], es[i], r, s)
  }

  lemma PairsAt(ws: seq<World>, es: seq<Event>, i: nat, r: Gid, s: Gid)
    requires IsOrderly(ws, es, r, s) && i < |es| && PairsOk(ws[i], r, s)
    ensures PairsOk(ws[i + 1], r, s)
  {
    HistoryOk(ws, es, i);
    assert HappensAt(ws, es, i) && Fair(ws[i], es[i]) && Orderly(ws[i], es[i], r, s);
    match es[i]
    case Local(g, a) => if g == r { OwnPair(ws[i], a, r, s); } else { OtherPair(ws[i], g, a, r, s); }
    case Deliver(j) => DeliveryPairs(ws[i], j, r, s);
  }

  lemma {:induction false} HistoryPairs(ws: seq<World>, es: seq<Event>, i: nat, r: Gid, s: Gid)
    requires IsOrderly(ws, es, r, s) && i < |ws| && r in ws[0].routers && s in ws[0].routers
    ensures PairsOk(ws[i], r, s)
  {
    if i == 0 {
      assert Initial(ws[0].routers[r]) && Initial(ws[0].routers[s]);
    } else {
      HistoryPairs(ws, es, i - 1, r, s);
      PairsAt(ws, es, i - 1, r, s);
    }
  }

  /** Teardown agreement. When no handler of router `r` serves the pair with `s` and
      none of the pair's messages is in flight, router `s` holds a number for `r`
      exactly if `r` has a connection to `s`. */
  lemma TeardownAgreement(ws: seq<World>, es: seq<Event>, i: nat, r: Gid, s: Gid)
    requires IsOrderly(ws, es, r, s) && i < |ws| && r in ws[i].routers && s in ws[i].routers
    requires forall t :: t in ws[i].routers[r].threads && Active(ws[i].routers[r].threads[t]) ==>
      !OnPair(ws[i].routers[r].threads[t].req, s)
    requires forall j :: 0 <= j < |ws[i].net| ==> !(ws[i].net[j].src == r && ws[i].net[j].dst == s)
    ensures r in ws[i].routers[s].d.dstQpMap <==> HostKey(r, s) in ws[i].routers[r].d.hostMap
  {
    HistoryOk(ws, es, i);
    HistoryPairs(ws, es, i, r, s);
    assert RouterOk(ws[i], r) && PairOk(ws[i], r, s);
    QuietPair(ws[i], r, s);
  }

  lemma QuietPair(w: World, r: Gid, s: Gid)
    requires r in w.routers && s in w.routers && PairOk(w, r, s) && w.routers[r].d.gid == r
    requires forall t :: t in w.routers[r].threads && Active(w.routers[r].threads[t]) ==>
      !OnPair(w.routers[r].threads[t].req, s)
    requires forall j :: 0 <= j < |w.net| ==> !(w.net[j].src == r && w.net[j].dst == s)
    ensures r in w.routers[s].d.dstQpMap <==> HostKey(r, s) in w.routers[r].d.hostMap
  {
    Silent(w.net, r, s, r in w.routers[s].d.dstQpMap);
  }
}
