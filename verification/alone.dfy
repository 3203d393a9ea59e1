/** Handlers of `Machine` that run alone: from every state in which no mutex is held, a request goes
    through its sections to an end, and the whole of it does what `Requests` says. */
module Alone {
  import opened Types
  import opened Sections
  import opened Machine
  import opened References
  import opened Requests
  import opened Scenarios
  import Lost

  /** The handler has come from `r0` to `th` over the data `d`, with no mutex held. */
  ghost predicate At(r0: Router, acts: seq<Action>, r: Router, d: Shared, t: Tid, th: Thread) {
    Reaches(r0, acts, With(r, d, t, th)) && r.owner == map[] && !th.inside
  }

  lemma Begins(r: Router, t: Tid, req: Request) returns (acts: seq<Action>)
    requires r.owner == map[] && t !in r.threads
    ensures At(r, acts, r, r.d, t, StartThread(r.d.gid, req))
  {
    acts := [Start(t, req)];
    ReachesOne(r, Start(t, req));
  }

  /** One section further. */
  lemma Further(r0: Router, acts: seq<Action>, r: Router, d: Shared, t: Tid, th: Thread, c: Choice)
    returns (acts': seq<Action>)
    requires At(r0, acts, r, d, t, th) && Active(th) && Admits(d, th, c) && MoveOf(d, th, c).Go?
    requires Wants(th.pc).Some? && Wants(th.pc).value.ConnM? ==> Wants(th.pc).value.conn in d.conns
    requires NewConn(MoveOf(d, th, c).pc).None? && NewConn(th.pc).None?
    ensures var mv := MoveOf(d, th, c); At(r0, acts', r, mv.d, t, Thread(th.req, mv.key, mv.pc, false))
  {
    var mv := MoveOf(d, th, c);
    var last := Thread(th.req, mv.key, mv.pc, false);
    if Wants(th.pc).Some? {
      GoesThrough(r, d, t, th, c);
      ReachesJoin(r0, acts, With(r, d, t, th), SectionActs(t, c), With(r, mv.d, t, last));
      acts' := acts + SectionActs(t, c);
    } else {
      StepsOn(r, d, t, th, c);
      ReachesJoin(r0, acts, With(r, d, t, th), [Run(t, c)], With(r, mv.d, t, last));
      acts' := acts + [Run(t, c)];
    }
  }

  function Deciding(ok: bool): Choice { Choice(0, 0, 0, 3, ok) }

  // ----- posts and polls -----

  /** The way of a post or a poll from the src_qp_map section on, on a connected handle. */
  lemma FindsConn(r0: Router, acts: seq<Action>, r: Router, t: Tid, th: Thread, c: Choice) returns (acts': seq<Action>)
    requires At(r0, acts, r, r.d, t, th) && (th.req.Post? || th.req.Poll?) && th.pc.USrc? && HostOk(r.d)
    requires th.req.h in r.d.srcQpMap && KeyReady(r.d, r.d.srcQpMap[th.req.h])
    ensures var k := r.d.srcQpMap[th.req.h];
      At(r0, acts', r, r.d, t, Thread(th.req, k, UConn(th.pc.use, r.d.hostMap[k]), false))
  {
    var k := r.d.srcQpMap[th.req.h];
    acts' := Further(r0, acts, r, r.d, t, th, c);
    acts' := Further(r0, acts', r, r.d, t, Thread(th.req, k, UHost(th.pc.use), false), c);
  }

  /** From the src_qp_map section on. */
  lemma GoesOut(r0: Router, acts: seq<Action>, r: Router, t: Tid, th: Thread, room: bool)
    returns (acts': seq<Action>, d': Shared, th': Thread)
    requires At(r0, acts, r, r.d, t, th) && th.req.Post? && th.pc.USrc? && HostOk(r.d) && HandlesOk(r.d)
    requires th.req.wr.lkey in r.d.lkeyOffsetMap && th.pc.use == UsePost(r.d.lkeyOffsetMap[th.req.wr.lkey])
    requires th.req.wr.kind.Recv? ==> th.req.wr.wrId == th.req.pid
    ensures At(r0, acts', r, d', t, th') && th'.pc.Done? && th'.req == th.req
    ensures PostDone(r.d, d', th.req.h, th.req.wr, th.req.pid, room, th'.pc.reply)
  {
    var c := Deciding(room);
    if th.req.h !in r.d.srcQpMap {
      acts' := Further(r0, acts, r, r.d, t, th, c);
      return acts', r.d, th.(pc := Done(Killed));
    }
    var k := r.d.srcQpMap[th.req.h];
    assert KeyReady(r.d, k);
    acts' := FindsConn(r0, acts, r, t, th, c);
    var last := Thread(th.req, k, UConn(th.pc.use, r.d.hostMap[k]), false);
    UsesQp(r.d, last, c);
    var mv := UseMove(r.d, last, c);
    acts' := Further(r0, acts', r, r.d, t, last, c);
    d', th' := mv.d, Thread(th.req, k, mv.pc, false);
  }

  /** A post served alone. */
  lemma PostAlone(r: Router, t: Tid, h: Handle, wr: Wr, pid: int, room: bool)
    returns (acts: seq<Action>, d': Shared, th': Thread)
    requires r.owner == map[] && t !in r.threads && HostOk(r.d) && HandlesOk(r.d)
    ensures At(r, acts, r, d', t, th') && th'.pc.Done? && th'.req == Post(h, wr, pid)
    ensures PostDone(r.d, d', h, wr, pid, room, th'.pc.reply)
  {
    var th := StartThread(r.d.gid, Post(h, wr, pid));
    acts := Begins(r, t, Post(h, wr, pid));
    acts := Further(r, acts, r, r.d, t, th, Deciding(room));
    d', th' := r.d, th.(pc := PostLkeyMove(r.d, th).pc);
    if !th'.pc.Done? { acts, d', th' := GoesOut(r, acts, r, t, th', room); }
  }

  /** The last section of a post. */
  lemma UsesQp(d: Shared, th: Thread, c: Choice)
    requires th.req.Post? && th.pc.UConn? && th.pc.use.UsePost? && th.req.wr.lkey in d.lkeyOffsetMap
    requires th.pc.use.offset == d.lkeyOffsetMap[th.req.wr.lkey]
    requires th.req.wr.kind.Recv? ==> th.req.wr.wrId == th.req.pid
    requires th.req.h in d.srcQpMap && KeyReady(d, d.srcQpMap[th.req.h])
    requires th.pc.conn == d.hostMap[d.srcQpMap[th.req.h]]
    ensures var mv := UseMove(d, th, c);
      mv.Go? && mv.pc.Done? && PostDone(d, mv.d, th.req.h, th.req.wr, th.req.pid, c.ok, mv.pc.reply)
  {
    var q := d.conns[th.pc.conn].qp.value;
    assert SetQp(d, th.pc.conn, q) == d;
  }

  /** A poll served alone. */
  lemma PollAlone(r: Router, t: Tid, h: Handle, pid: int, works: bool)
    returns (acts: seq<Action>, d': Shared, th': Thread)
    requires r.owner == map[] && t !in r.threads && HostOk(r.d) && HandlesOk(r.d)
    ensures At(r, acts, r, d', t, th') && th'.pc.Done? && th'.req == Poll(h, pid)
    ensures PollDone(r.d, d', h, pid, works, th'.pc.reply)
  {
    var c, req := Deciding(works), Poll(h, pid);
    var th := StartThread(r.d.gid, req);
    acts := Begins(r, t, req);
    if h !in r.d.srcQpMap {
      acts := Further(r, acts, r, r.d, t, th, c);
      return acts, r.d, th.(pc := Done(Killed));
    }
    var k := r.d.srcQpMap[h];
    assert KeyReady(r.d, k);
    acts := FindsConn(r, acts, r, t, th, c);
    var last := Thread(req, k, UConn(UsePoll, r.d.hostMap[k]), false);
    PollsQp(r.d, last, c);
    var mv := UseMove(r.d, last, c);
    acts := Further(r, acts, r, r.d, t, last, c);
    d', th' := mv.d, Thread(req, k, mv.pc, false);
  }

  /** The last section of a poll. */
  lemma PollsQp(d: Shared, th: Thread, c: Choice)
    requires th.req.Poll? && th.pc.UConn? && th.pc.use.UsePoll? && th.req.h in d.srcQpMap
    requires KeyReady(d, d.srcQpMap[th.req.h]) && th.pc.conn == d.hostMap[d.srcQpMap[th.req.h]]
    ensures var mv := UseMove(d, th, c);
      mv.Go? && mv.pc.Done? && PollDone(d, mv.d, th.req.h, th.req.pid, c.ok, mv.pc.reply)
  {
  }

  // ----- IBV_DESTROY_QP -----

  /** The count of a mapped handle's connection does not wrap when it goes down. */
  ghost predicate Counted(d: Shared, h: Handle) {
    h in d.srcQpMap ==> KeyReady(d, d.srcQpMap[h]) && 1 <= d.conns[d.hostMap[d.srcQpMap[h]]].refCnt < TWO_32
  }

  lemma CountOf(r: Router, h: Handle)
    requires Inv(r) && Fits(r)
    ensures Counted(r.d, h)
  {
    if h in r.d.srcQpMap {
      assert KeyReady(r.d, r.d.srcQpMap[h]) && RefOk(r, r.d.srcQpMap[h]);
      HandleIsRef(r, h);
    }
  }

  /** The host_map section on a counted reference. */
  lemma DropsOne(d: Shared, key: HostKey)
    requires HostOk(d) && KeyReady(d, key) && 1 <= d.conns[d.hostMap[key]].refCnt < TWO_32
    ensures LiveOrNull(d, key)
    ensures var (d', res), p := DropRef(d, key), d.hostMap[key];
      if d.conns[p].refCnt == 1 then
        res == Erased(p) && HasQp(d', p) && FreeConn(d', p) == d.(hostMap := d.hostMap - {key}, conns := d.conns - {p})
      else res == Kept && d' == d.(conns := d.conns[p := d.conns[p].(refCnt := d.conns[p].refCnt - 1)])
  {
  }

  /** From the host_map section on. */
  lemma Releases(r0: Router, acts: seq<Action>, r: Router, d: Shared, t: Tid, th: Thread)
    returns (acts': seq<Action>, d': Shared)
    requires At(r0, acts, r, d, t, th) && th.req.Destroy? && th.pc.DHost?
    requires HostOk(d) && KeyReady(d, th.key) && 1 <= d.conns[d.hostMap[th.key]].refCnt < TWO_32
    ensures At(r0, acts', r, d', t, th.(pc := Done(DestroyRsp(true))))
    ensures var k, p := th.key, d.hostMap[th.key];
      d' == if d.conns[p].refCnt == 1 then d.(hostMap := d.hostMap - {k}, conns := d.conns - {p})
            else d.(conns := d.conns[p := d.conns[p].(refCnt := d.conns[p].refCnt - 1)])
  {
    var c, p := Deciding(true), d.hostMap[th.key];
    DropsOne(d, th.key);
    acts' := Further(r0, acts, r, d, t, th, c);
    d' := DropRef(d, th.key).0;
    if DropRef(d, th.key).1.Erased? {
      acts' := Further(r0, acts', r, d', t, th.(pc := DConn(p)), c);
      d' := FreeConn(d', p);
    }
  }

  /** An IBV_DESTROY_QP served alone, in any state a run comes to: `CountOf`. */
  lemma DestroyAlone(r: Router, t: Tid, h: Handle, dst: Gid) returns (acts: seq<Action>, d': Shared, th': Thread)
    requires r.owner == map[] && t !in r.threads && HostOk(r.d) && Counted(r.d, h)
    ensures At(r, acts, r, d', t, th') && th'.req == Destroy(h, dst)
    ensures th'.pc == Done(DestroyRsp(h in r.d.srcQpMap)) && DestroyDone(r.d, d', h, h in r.d.srcQpMap)
  {
    var req := Destroy(h, dst);
    var th := StartThread(r.d.gid, req);
    acts := Begins(r, t, req);
    acts := Further(r, acts, r, r.d, t, th, Deciding(true));
    d' := UnmapHandle(r.d, h).0;
    if h !in r.d.srcQpMap {
      assert r.d.srcQpMap - {h} == r.d.srcQpMap;
      return acts, r.d, th.(pc := Done(DestroyRsp(false)));
    }
    var th1 := Thread(req, r.d.srcQpMap[h], DHost, false);
    acts, d' := Releases(r, acts, r, d', t, th1);
    th' := th1.(pc := Done(DestroyRsp(true)));
  }

  // ----- IBV_REG_MR, IBV_DEREG_MR -----

  lemma DifferenceKept(routerAddr: nat, clientAddr: nat)
    ensures var o := Offset(routerAddr, clientAddr);
      (o - (routerAddr - clientAddr)) % TWO_64 == 0 && -0x8000_0000_0000_0000 <= o < 0x8000_0000_0000_0000
  {
    var diff := routerAddr - clientAddr;
    var low := diff % TWO_64;
    assert diff == (diff / TWO_64) * TWO_64 + low;
    Multiple(-(diff / TWO_64));
    Multiple(-(diff / TWO_64) - 1);
  }

  lemma Multiple(k: int)
    ensures (k * TWO_64) % TWO_64 == 0
  {
  }

  /** An IBV_REG_MR served alone. */
  lemma RegAlone(r: Router, t: Tid, req: Request, lkey: Lkey, ptr: nat, made: bool)
    returns (acts: seq<Action>, d': Shared, th': Thread)
    requires r.owner == map[] && t !in r.threads && req.RegMr? && lkey !in r.d.lkeyOffsetMap
    requires Admits(r.d, StartThread(r.d.gid, req), Choice(ptr, 0, lkey, 3, made))
    ensures At(r, acts, r, d', t, th') && th'.pc.Done? && th'.req == req
    ensures RegDone(r.d, d', req, lkey, ptr, made, th'.pc.reply)
  {
    var c, size := Choice(ptr, 0, lkey, 3, made), AsInt32(req.length);
    var th := StartThread(r.d.gid, req);
    acts := Begins(r, t, req);
    acts := Further(r, acts, r, r.d, t, th, c);
    if size <= 0 || !made { return acts, r.d, th.(pc := Done(Killed)); }
    var region := Region(req.pid, req.clientAddr, ptr, size);
    var d1, th1 := r.d.(mrs := r.d.mrs[lkey := region]), th.(pc := RegLkey(lkey, region));
    acts := Further(r, acts, r, d1, t, th1, c);
    d', th' := InsertLkey(d1, lkey, req.clientAddr, ptr), th.(pc := Done(RegMrRsp(lkey, ptr)));
    DifferenceKept(ptr, req.clientAddr);
  }

  /** An IBV_DEREG_MR served alone. */
  lemma DeregAlone(r: Router, t: Tid, lkey: Lkey) returns (acts: seq<Action>, d': Shared, th': Thread)
    requires r.owner == map[] && t !in r.threads
    ensures At(r, acts, r, d', t, th') && th'.pc.Done? && th'.req == DeregMr(lkey)
    ensures DeregDone(r.d, d', lkey, th'.pc.reply)
  {
    var c, th := Deciding(true), StartThread(r.d.gid, DeregMr(lkey));
    acts := Begins(r, t, DeregMr(lkey));
    acts := Further(r, acts, r, r.d, t, th, c);
    if lkey !in r.d.lkeyOffsetMap { return acts, r.d, th.(pc := Done(DeregMrRsp(false))); }
    var d1 := EraseLkey(r.d, lkey).0;
    acts := Further(r, acts, r, d1, t, th.(pc := DeHw), c);
    d', th' := d1.(mrs := d1.mrs - {lkey}), th.(pc := Done(DeregMrRsp(true)));
  }

  // ----- IBV_MODIFY_QP -----

  /** The data of the router once the handler has its connection `p`. */
  predicate HasConn(d: Shared, d': Shared, k: HostKey, p: Ptr, qpn: Qpn)
    requires k in d.hostMap ==> d.hostMap[k] in d.conns
  {
    d' == d.(hostMap := d.hostMap[k := p], conns := d.conns[p := OneMore(d, k, qpn)], created := d'.created)
  }

  lemma AcquiresShared(r: Router, t: Tid, req: Request, c: Choice) returns (acts: seq<Action>, d: Shared)
    requires r.owner == map[] && t !in r.threads && req.Modify? && HostOk(r.d) && c.ptr != NULL && c.ptr !in r.d.conns
    requires var k := HostKey(r.d.gid, req.dst);
      k in r.d.hostMap && KeyReady(r.d, k) && r.d.conns[r.d.hostMap[k]].refCnt + 1 < TWO_32
    ensures var k := HostKey(r.d.gid, req.dst);
      var p := r.d.hostMap[k];
      && At(r, acts, r, d, t, StartThread(r.d.gid, req).(pc := MSrc(r.d.conns[p].qp.value.qpn)))
      && HasConn(r.d, d, k, p, c.qpn)
  {
    var k := HostKey(r.d.gid, req.dst);
    Lost.JoinsAgain(r, t, req, c);
    acts := Lost.AcquireActs(t, req, c) + [Run(t, c)];
    d := Lost.JoinedOnce(r.d, r.d.hostMap[k]);
    assert r.d.hostMap[k := r.d.hostMap[k]] == r.d.hostMap;
  }

  lemma AcquiresNew(r: Router, t: Tid, req: Request, c: Choice) returns (acts: seq<Action>, d: Shared)
    requires r.owner == map[] && t !in r.threads && req.Modify? && c.ptr != NULL && c.ptr !in r.d.conns
    requires forall p :: p in r.d.conns && r.d.conns[p].qp.Some? ==> r.d.conns[p].qp.value.qpn != c.qpn
    requires HostKey(r.d.gid, req.dst) !in r.d.hostMap
    ensures At(r, acts, r, d, t, StartThread(r.d.gid, req).(pc := MSrc(c.qpn)))
    ensures HasConn(r.d, d, HostKey(r.d.gid, req.dst), c.ptr, c.qpn)
  {
    Lost.PublishesFirst(r, t, req, c);
    acts := Lost.AcquireActs(t, req, c);
    d := Lost.FirstPublished(r.d, HostKey(r.d.gid, req.dst), c.ptr, c.qpn);
  }

  /** The handler has its connection: the shared one with one reference more, or a new one. */
  lemma Acquires(r: Router, t: Tid, req: Request, c: Choice) returns (acts: seq<Action>, d: Shared, q: Qpn)
    requires r.owner == map[] && t !in r.threads && req.Modify? && HostOk(r.d) && c.ptr != NULL && c.ptr !in r.d.conns
    requires forall p :: p in r.d.conns && r.d.conns[p].qp.Some? ==> r.d.conns[p].qp.value.qpn != c.qpn
    requires var k := HostKey(r.d.gid, req.dst);
      k in r.d.hostMap ==> KeyReady(r.d, k) && r.d.conns[r.d.hostMap[k]].refCnt + 1 < TWO_32
    ensures At(r, acts, r, d, t, StartThread(r.d.gid, req).(pc := MSrc(q)))
    ensures var k := HostKey(r.d.gid, req.dst);
      && HasConn(r.d, d, k, if k in r.d.hostMap then r.d.hostMap[k] else c.ptr, c.qpn)
      && OneMore(r.d, k, c.qpn).qp.Some? && q == OneMore(r.d, k, c.qpn).qp.value.qpn
  {
    var k := HostKey(r.d.gid, req.dst);
    if k in r.d.hostMap {
      acts, d := AcquiresShared(r, t, req, c);
      q := r.d.conns[r.d.hostMap[k]].qp.value.qpn;
    } else {
      acts, d := AcquiresNew(r, t, req, c);
      q := c.qpn;
    }
  }

  /** The answer as an outcome of the whole request. */
  predicate EndsAs(pc: Pc, outcome: Outcome) {
    match outcome
    case Aborted => pc == Done(Killed)
    case Waiting => pc.MSpin?
    case Answered(ready) => pc == Done(ModifyRsp(ready))
  }

  /** The last section makes of the connection what `Connects` says. */
  lemma AttemptsOnce(was: Conn, peers: map<Gid, Qpn>, dst: Gid, reach: nat)
    requires was.qp.Some? && dst in peers && (was.status == 0 || was.status == 4)
    ensures var conn := MakeReady(was, peers[dst], reach);
      Connects(was, conn, peers, dst, reach, Answered(conn.status == 4))
  {
  }

  /** From the src_qp_map section on. */
  lemma Connecting(r0: Router, acts: seq<Action>, r: Router, d: Shared, t: Tid, th: Thread, c: Choice)
    returns (acts': seq<Action>, d': Shared, pc: Pc, outcome: Outcome)
    requires At(r0, acts, r, d, t, th) && th.req.Modify? && th.pc.MSrc? && HostOk(d) && KeyReady(d, th.key)
    requires d.conns[d.hostMap[th.key]].status == 0 || d.conns[d.hostMap[th.key]].status == 4
    ensures At(r0, acts', r, d', t, th.(pc := pc)) && EndsAs(pc, outcome)
    ensures outcome.Aborted? <==> !c.ok
    ensures var p, d1 := d.hostMap[th.key], MapHandle(d, th.req.h, th.key);
      && p in d'.conns && d' == d1.(conns := d.conns[p := d'.conns[p]])
      && Connects(d.conns[p], d'.conns[p], d.dstQpMap, th.req.dst, c.reach, outcome)
  {
    var p := d.hostMap[th.key];
    acts' := Further(r0, acts, r, d, t, th, c);
    d' := MapHandle(d, th.req.h, th.key);
    assert d.conns[p := d.conns[p]] == d.conns;
    var q := th.pc.qpn;
    acts' := Further(r0, acts', r, d', t, th.(pc := MSend(q)), c);
    if !c.ok { return acts', d', Done(Killed), Aborted; }
    acts' := Further(r0, acts', r, d', t, th.(pc := MSpin(q)), c);
    if th.req.dst !in d.dstQpMap { return acts', d', MSpin(q), Waiting; }
    var peer := d.dstQpMap[th.req.dst];
    acts' := Further(r0, acts', r, d', t, th.(pc := MHost2(peer)), c);
    acts' := Further(r0, acts', r, d', t, th.(pc := MConn(peer, p)), c);
    var conn := MakeReady(d.conns[p], peer, c.reach);
    AttemptsOnce(d.conns[p], d.dstQpMap, th.req.dst, c.reach);
    d' := SetConn(d', p, conn);
    pc, outcome := Done(ModifyRsp(conn.status == 4)), Answered(conn.status == 4);
  }

  /** The two halves of an IBV_MODIFY_QP make the whole. */
  lemma HalvesMake(d: Shared, d1: Shared, d': Shared, h: Handle, key: HostKey, newConn: Ptr, c: Choice,
                   outcome: Outcome)
    requires key.srcGid == d.gid && newConn == c.ptr && (key in d.hostMap ==> d.hostMap[key] in d.conns)
    requires var p := if key in d.hostMap then d.hostMap[key] else newConn;
      && HasConn(d, d1, key, p, c.qpn)
      && p in d'.conns && d' == MapHandle(d1, h, key).(conns := d1.conns[p := d'.conns[p]])
      && Connects(d1.conns[p], d'.conns[p], d1.dstQpMap, key.dstGid, c.reach, outcome)
    ensures ModifyDone(d, d', h, key.dstGid, newConn, c.qpn, c.reach, outcome)
  {
  }

  /** An IBV_MODIFY_QP served alone: it ends, or waits for the peer's number. */
  lemma ModifyAlone(r: Router, t: Tid, h: Handle, dst: Gid, pid: int, c: Choice)
    returns (acts: seq<Action>, d': Shared, th': Thread, outcome: Outcome)
    requires r.owner == map[] && t !in r.threads && HostOk(r.d) && c.ptr != NULL && c.ptr !in r.d.conns
    requires forall p :: p in r.d.conns && r.d.conns[p].qp.Some? ==> r.d.conns[p].qp.value.qpn != c.qpn
    requires var k := HostKey(r.d.gid, dst);
      k in r.d.hostMap ==>
        && KeyReady(r.d, k) && r.d.conns[r.d.hostMap[k]].refCnt + 1 < TWO_32
        && (r.d.conns[r.d.hostMap[k]].status == 0 || r.d.conns[r.d.hostMap[k]].status == 4)
    ensures At(r, acts, r, d', t, th') && th'.req == Modify(h, dst, pid) && EndsAs(th'.pc, outcome)
    ensures th'.key == HostKey(r.d.gid, dst)
    ensures outcome.Aborted? <==> !c.ok
    ensures ModifyDone(r.d, d', h, dst, c.ptr, c.qpn, c.reach, outcome) && d'.dstQpMap == r.d.dstQpMap
  {
    var req := Modify(h, dst, pid);
    var d, q, pc;
    acts, d, q := Acquires(r, t, req, c);
    var th := StartThread(r.d.gid, req).(pc := MSrc(q));
    acts, d', pc, outcome := Connecting(r, acts, r, d, t, th, c);
    th' := th.(pc := pc);
    HalvesMake(r.d, d, d', h, th.key, c.ptr, c, outcome);
  }
}
