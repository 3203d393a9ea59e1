/** The router as the program writes it: an object whose handlers update its maps
    and connections in place, one method a critical section. Each of these methods is
    proved against the section's specification, on which the theorems of the other
    modules rest. The handlers are composed of them at the end of the class, with
    contracts that say what one request does from beginning to end. */
module Router {
  import opened Types
  import opened Sections
  import opened Machine
  import opened References
  import opened Requests

  /** The router with no handler under way. */
  ghost function Idle(d: Shared): Machine.Router { Machine.Router(d, map[], map[]) }

  /** The counting invariant between requests: every key has a connection with a queue pair, and
      its count is the number of handles mapped to it and of lost references. */
  ghost predicate Consistent(d: Shared) {
    && HostOk(d) && HandlesOk(d) && RefsOk(Idle(d))
    && (forall k :: k in d.hostMap ==> KeyReady(d, k))
    && (forall k: HostKey :: Refs(Idle(d), k) < TWO_32)
  }

  lemma IdleRefs(d: Shared, k: HostKey)
    ensures Refs(Idle(d), k) == |Handles(d, k)| + d.orphans[k]
  {
    assert ModifyGap(map[], k) == {} && DestroyGap(map[], k) == {};
  }

  lemma NothingYet(d: Shared)
    requires d.hostMap == map[] && d.srcQpMap == map[] && d.orphans == multiset{}
    ensures Consistent(d)
  {
    forall k: HostKey ensures RefOk(Idle(d), k) && Refs(Idle(d), k) < TWO_32 {
      IdleRefs(d, k);
      assert Handles(d, k) == {};
    }
  }

  /** A handle is mapped to `key`, whose connection has one reference more. */
  ghost predicate Adds(d: Shared, d': Shared, h: Handle, key: HostKey) {
    && d'.srcQpMap == MapHandle(d, h, key).srcQpMap && d'.orphans == MapHandle(d, h, key).orphans
    && KeyReady(d', key) && d'.hostMap == d.hostMap[key := d'.hostMap[key]]
    && (key in d.hostMap ==> d'.hostMap[key] == d.hostMap[key] && d.hostMap[key] in d.conns)
    && d'.conns[d'.hostMap[key]].refCnt == (if key in d.hostMap then d.conns[d.hostMap[key]].refCnt else 0) + 1
    && forall p :: p in d.conns && p != d'.hostMap[key] ==> p in d'.conns && d'.conns[p] == d.conns[p]
  }

  lemma AddedRefs(d: Shared, d': Shared, h: Handle, key: HostKey, k: HostKey)
    requires Adds(d, d', h, key)
    ensures Refs(Idle(d'), k) == Refs(Idle(d), k) + Bit(k == key)
  {
    IdleRefs(d, k);
    IdleRefs(d', k);
    HandlesAfterMap(d, h, key, k);
    assert Handles(d', k) == Handles(MapHandle(d, h, key), k);
  }

  lemma AddedReady(d: Shared, d': Shared, h: Handle, key: HostKey)
    requires Consistent(d) && HostOk(d') && Adds(d, d', h, key)
    ensures HandlesOk(d') && forall k :: k in d'.hostMap ==> KeyReady(d', k)
  {
    forall k | k in d'.hostMap ensures KeyReady(d', k) { if k != key { assert KeyReady(d, k); } }
    forall x | x in d'.srcQpMap
      ensures KeyReady(d', d'.srcQpMap[x])
    {
      if x != h { assert KeyReady(d, d.srcQpMap[x]); }
    }
  }

  lemma ReferenceAdded(d: Shared, d': Shared, h: Handle, key: HostKey)
    requires Consistent(d) && Refs(Idle(d), key) + 1 < TWO_32 && HostOk(d') && Adds(d, d', h, key)
    ensures Consistent(d')
  {
    AddedReady(d, d', h, key);
    assert RefOk(Idle(d), key);
    forall k: HostKey ensures RefOk(Idle(d'), k) && Refs(Idle(d'), k) < TWO_32 {
      AddedRefs(d, d', h, key, k);
      assert RefOk(Idle(d), k) && Refs(Idle(d), k) < TWO_32;
    }
  }

  /** The last reference of a handle given back. */
  lemma ReferenceDropped(d: Shared, d': Shared, h: Handle)
    requires Consistent(d) && h in d.srcQpMap && d'.srcQpMap == d.srcQpMap - {h} && d'.orphans == d.orphans
    requires var k := d.srcQpMap[h];
      var p := d.hostMap[k];
      && d.conns[p].refCnt >= 1
      && if d.conns[p].refCnt == 1 then d'.hostMap == d.hostMap - {k} && d'.conns == d.conns - {p}
      else d'.hostMap == d.hostMap && d'.conns == d.conns[p := d.conns[p].(refCnt := d.conns[p].refCnt - 1)]
    ensures Consistent(d')
  {
    var key := d.srcQpMap[h];
    forall k: HostKey
      ensures RefOk(Idle(d'), k) && Refs(Idle(d'), k) == Refs(Idle(d), k) - Bit(k == key) && Refs(Idle(d'), k) < TWO_32
    {
      IdleRefs(d, k);
      IdleRefs(d', k);
      HandlesAfterUnmap(d, h, k);
      assert Handles(d', k) == Handles(UnmapHandle(d, h).0, k);
      assert RefOk(Idle(d), k) && RefOk(Idle(d), key) && Refs(Idle(d), k) < TWO_32;
    }
    forall k | k in d'.hostMap ensures KeyReady(d', k) { assert KeyReady(d, k); }
    forall x | x in d'.srcQpMap ensures KeyReady(d', d'.srcQpMap[x]) {
      assert RefOk(Idle(d'), d'.srcQpMap[x]);
      HandleIsRef(Idle(d'), x);
    }
  }

  /** The data once IBV_MODIFY_QP has its connection and its handle. */
  function Acquired(d: Shared, h: Handle, key: HostKey, newConn: Ptr, qpn: Qpn): Shared
    requires LiveOrNull(AllocConn(d, key, newConn), key)
  {
    var (d1, joined) := JoinHost(AllocConn(d, key, newConn), key, newConn);
    MapHandle(if joined == NULL then CreateQp(d1, newConn, qpn) else FreeConn(d1, newConn), h, key)
  }

  lemma JoinsOne(d: Shared, key: HostKey, newConn: Ptr)
    requires Consistent(d) && newConn !in d.conns && key in d.hostMap && Refs(Idle(d), key) + 1 < TWO_32
    ensures LiveOrNull(AllocConn(d, key, newConn), key)
    ensures var (d1, joined) := JoinHost(AllocConn(d, key, newConn), key, newConn);
      && joined == d.hostMap[key] != NULL && joined != newConn && HasQp(d1, joined)
      && FreeConn(d1, newConn) == d.(conns := d.conns[joined := d.conns[joined].(refCnt := d.conns[joined].refCnt + 1)])
  {
    assert RefOk(Idle(d), key) && KeyReady(d, key);
  }

  /** What IBV_MODIFY_QP has done to the data when it has its connection and its handle. */
  predicate GotOne(d: Shared, d': Shared, h: Handle, key: HostKey, newConn: Ptr, qpn: Qpn) {
    && d'.gid == d.gid && d'.dstQpMap == d.dstQpMap && d'.lkeyOffsetMap == d.lkeyOffsetMap && d'.mrs == d.mrs
    && d'.srcQpMap == d.srcQpMap[h := key] && d'.orphans == MapHandle(d, h, key).orphans
    && (key in d.hostMap ==> d.hostMap[key] in d.conns && HasQp(d, d.hostMap[key]))
    && var p := if key in d.hostMap then d.hostMap[key] else newConn;
       d'.hostMap == d.hostMap[key := p] && d'.conns == d.conns[p := OneMore(d, key, qpn)]
  }

  lemma GotNew(d: Shared, h: Handle, key: HostKey, newConn: Ptr, qpn: Qpn)
    requires newConn != NULL && newConn !in d.conns && key !in d.hostMap
    ensures LiveOrNull(AllocConn(d, key, newConn), key)
    ensures GotOne(d, Acquired(d, h, key, newConn, qpn), h, key, newConn, qpn)
  {
  }

  lemma GotShared(d: Shared, h: Handle, key: HostKey, newConn: Ptr, qpn: Qpn)
    requires Consistent(d) && newConn != NULL && newConn !in d.conns && key in d.hostMap
    requires Refs(Idle(d), key) + 1 < TWO_32
    ensures LiveOrNull(AllocConn(d, key, newConn), key)
    ensures GotOne(d, Acquired(d, h, key, newConn, qpn), h, key, newConn, qpn)
  {
    JoinsOne(d, key, newConn);
    assert KeyReady(d, key);
    var d1 := JoinHost(AllocConn(d, key, newConn), key, newConn).0;
    assert Acquired(d, h, key, newConn, qpn) == MapHandle(FreeConn(d1, newConn), h, key);
  }

  lemma AcquiredOne(d: Shared, h: Handle, key: HostKey, newConn: Ptr, qpn: Qpn)
    requires Consistent(d) && newConn != NULL && newConn !in d.conns && Refs(Idle(d), key) + 1 < TWO_32
    ensures LiveOrNull(AllocConn(d, key, newConn), key)
    ensures GotOne(d, Acquired(d, h, key, newConn, qpn), h, key, newConn, qpn)
  {
    if key in d.hostMap { GotShared(d, h, key, newConn, qpn); } else { GotNew(d, h, key, newConn, qpn); }
  }

  lemma GotConsistent(d: Shared, d': Shared, h: Handle, key: HostKey, newConn: Ptr, qpn: Qpn)
    requires Consistent(d) && newConn != NULL && newConn !in d.conns && Refs(Idle(d), key) + 1 < TWO_32
    requires GotOne(d, d', h, key, newConn, qpn)
    ensures Consistent(d')
  {
    assert RefOk(Idle(d), key) && (key in d.hostMap ==> KeyReady(d, key));
    ReferenceAdded(d, d', h, key);
  }

  /** The numbers once the messages have been handled in turn. */
  function ApplyAll(dstQpMap: map<Gid, Qpn>, news: seq<Packet>): map<Gid, Qpn> {
    if news == [] then dstQpMap else ApplyInfo(ApplyAll(dstQpMap, news[..|news| - 1]), news[|news| - 1])
  }

  /** The two halves of an IBV_MODIFY_QP make the whole. */
  lemma ModifiedWhole(d: Shared, d1: Shared, d': Shared, h: Handle, key: HostKey, newConn: Ptr, qpn: Qpn, reach: nat,
                      outcome: Outcome)
    requires key.srcGid == d.gid && GotOne(d, d1, h, key, newConn, qpn)
    requires var p := d1.hostMap[key];
      && p in d1.conns && p in d'.conns
      && d' == d1.(dstQpMap := d'.dstQpMap, conns := d1.conns[p := d'.conns[p]])
      && Connects(d1.conns[p], d'.conns[p], d'.dstQpMap, key.dstGid, reach, outcome)
    ensures ModifyDone(d, d', h, key.dstGid, newConn, qpn, reach, outcome)
  {
  }

  lemma MakeReadyConnects(was: Conn, peers: map<Gid, Qpn>, dst: Gid, reach: nat)
    requires was.qp.Some? && dst in peers
    ensures var conn := MakeReady(was, peers[dst], reach);
      Connects(was, conn, peers, dst, reach, Answered(conn.status == 4))
  {
  }

  /** What the sections of IBV_DESTROY_QP do to the connection of a mapped handle. */
  lemma DropsReference(d: Shared, h: Handle)
    requires Consistent(d) && h in d.srcQpMap
    ensures var k, d1 := d.srcQpMap[h], UnmapHandle(d, h).0;
      && k in d.hostMap && HasQp(d, d.hostMap[k]) && d.hostMap[k] != NULL
      && var p, n := d.hostMap[k], d.conns[d.hostMap[k]].refCnt;
         && n == Refs(Idle(d), k) >= 1
         && DropRef(d1, k) == if n == 1 then (Unpublish(SetCount(d1, p, 0), k), Erased(p))
                              else (SetCount(d1, p, n - 1), Kept)
  {
    var k := d.srcQpMap[h];
    assert KeyReady(d, k) && RefOk(Idle(d), k) && Refs(Idle(d), k) < TWO_32;
    HandleIsRef(Idle(d), h);
  }

  /** `class ScaleRouter`. `conns` is the part of the heap that holds `conn_resources`:
      a pointer outside it is dangling. */
  class ScaleRouter {
    const gid: Gid
    var hostMap: map<HostKey, Ptr>
    var srcQpMap: map<Handle, HostKey>
    var dstQpMap: map<Gid, Qpn>
    var lkeyOffsetMap: map<Lkey, int>
    var conns: map<Ptr, Conn>
    var mrs: map<Lkey, Region>
    var cqQpMap: map<Handle, Handle>
    ghost var created: set<(HostKey, Qpn)>
    ghost var orphans: multiset<HostKey>

    ghost function State(): Shared
      reads this
    {
      Shared(gid, hostMap, srcQpMap, dstQpMap, lkeyOffsetMap, conns, mrs, created, orphans)
    }

    constructor (gid: Gid)
      ensures State() == Shared(gid, map[], map[], map[], map[], map[], map[], {}, multiset{}) && cqQpMap == map[]
      ensures Consistent(State())
    {
      this.gid := gid;
      cqQpMap := map[];
      hostMap, srcQpMap, dstQpMap, lkeyOffsetMap, conns, mrs := map[], map[], map[], map[], map[], map[];
      created, orphans := {}, multiset{};
      new;
      NothingYet(State());
    }

    /** Pointers the C++ code dereferences must be live. */
    ghost predicate Live(key: HostKey)
      reads this
    {
      key in hostMap && hostMap[key] != NULL ==> hostMap[key] in conns
    }

    // ----- IBV_CREATE_QP, IBV_DESTROY_CQ -----

    /** cq_qp_map section of IBV_CREATE_QP: a second queue pair on a completion queue is refused. */
    method BindCq(cqHandle: Handle, qpHandle: Handle) returns (ok: bool)
      modifies this`cqQpMap
      ensures ok <==> cqHandle !in old(cqQpMap)
      ensures cqQpMap == if ok then old(cqQpMap)[cqHandle := qpHandle] else old(cqQpMap)
    {
      if cqHandle in cqQpMap { return false; }
      cqQpMap := cqQpMap[cqHandle := qpHandle];
      ok := true;
    }

    /** cq_qp_map section of IBV_DESTROY_CQ. */
    method UnbindCq(cqHandle: Handle) returns (flags: bool)
      modifies this`cqQpMap
      ensures flags <==> cqHandle in old(cqQpMap)
      ensures cqHandle !in cqQpMap && forall h :: h != cqHandle ==> (h in cqQpMap <==> h in old(cqQpMap))
      ensures forall h :: h in cqQpMap ==> cqQpMap[h] == old(cqQpMap)[h]
    {
      flags := cqHandle in cqQpMap;
      if flags { cqQpMap := cqQpMap - {cqHandle}; }
    }

    // ----- IBV_MODIFY_QP -----

    /** Pre-allocation of a connection with one reference. */
    method PreAllocate(key: HostKey, p: Ptr)
      modifies this
      ensures State() == AllocConn(old(State()), key, p)
    {
      var newConn := Conn(key, 0, 0, None);
      newConn := newConn.(refCnt := newConn.refCnt + 1);
      conns := conns[p := newConn];
    }

    /** First host_map section. */
    method JoinOrPublish(key: HostKey, newConn: Ptr) returns (createFlag: bool, oldConn: Ptr)
      requires Live(key)
      modifies this
      ensures (State(), oldConn) == JoinHost(old(State()), key, newConn)
      ensures createFlag <==> oldConn == NULL
    {
      createFlag, oldConn := false, NULL;
      if key in hostMap {
        if hostMap[key] != NULL {
          oldConn := hostMap[key];
          conns := conns[oldConn := conns[oldConn].(refCnt := (conns[oldConn].refCnt + 1) % TWO_32)];
        } else {
          createFlag := true;
          hostMap := hostMap[key := newConn];
        }
      } else {
        createFlag := true;
        hostMap := hostMap[key := newConn];
      }
    }

    /** After the section: create the queue pair of the new connection, or discard the
        new connection and read the number of the shared one. */
    method CreateOrDiscard(createFlag: bool, newConn: Ptr, oldConn: Ptr, qpn: Qpn) returns (phyQpNum: Qpn)
      requires createFlag ==> newConn in conns
      requires !createFlag ==> oldConn != newConn && oldConn in conns && conns[oldConn].qp.Some?
      modifies this
      ensures createFlag ==> State() == CreateQp(old(State()), newConn, qpn) && phyQpNum == qpn
      ensures !createFlag ==> State() == FreeConn(old(State()), newConn) && phyQpNum == old(conns)[oldConn].qp.value.qpn
    {
      if createFlag {
        created := created + {(conns[newConn].key, qpn)};
        conns := conns[newConn := conns[newConn].(qp := Some(Qp(qpn, Reset, None, [], [], [], [], [], [])))];
        phyQpNum := conns[newConn].qp.value.qpn;
      } else {
        conns := conns - {newConn};
        phyQpNum := conns[oldConn].qp.value.qpn;
      }
    }

    /** src_qp_map section. */
    method MapQp(h: Handle, key: HostKey)
      modifies this
      ensures State() == MapHandle(old(State()), h, key)
    {
      if h in srcQpMap {
        orphans := orphans + multiset{srcQpMap[h]};
        srcQpMap := srcQpMap[h := key];
      } else {
        srcQpMap := srcQpMap[h := key];
      }
    }

    /** One round of the loop that waits for the peer's number. */
    method ProbePeer(dst: Gid) returns (peer: Option<Qpn>)
      ensures peer == if dst in dstQpMap then Some(dstQpMap[dst]) else None
    {
      if dst !in dstQpMap { peer := None; } else { peer := Some(dstQpMap[dst]); }
    }

    /** A host_map section that only looks a key up. */
    method FindConn(key: HostKey) returns (found: Lookup)
      ensures found == LookupHost(State(), key)
    {
      if key in hostMap {
        if hostMap[key] != NULL { found := Found(hostMap[key]); } else { found := NullEntry; }
      } else { found := NotFound; }
    }

    /** Section under the connection's mutex: INIT, RTR and RTS in turn. */
    method ModifyQpToReady(p: Ptr, dstQpn: Qpn, reach: nat) returns (ready: bool)
      requires p in conns && conns[p].qp.Some?
      modifies this`conns
      ensures State() == SetConn(old(State()), p, MakeReady(old(conns)[p], dstQpn, reach))
      ensures ready <==> conns[p].status == 4
    {
      ready := false;
      var conn := conns[p];
      if conn.status == 0 {
        var qp := conn.qp.value;
        var rc := reach == 0 || !(qp.state.Reset? || qp.state.Init?);
        if !rc {
          qp := qp.(state := Init);
          rc := reach == 1;
          if !rc {
            qp := qp.(state := Rtr, dstQpn := Some(dstQpn));
            rc := reach == 2;
            if !rc { qp := qp.(state := Rts); }
          }
        }
        conn := conn.(qp := Some(qp));
        if !rc { conn := conn.(status := 4); }
        conns := conns[p := conn];
      }
      if conns[p].status == 4 { ready := true; }
      assert conns == old(conns)[p := conns[p]];
    }

    // ----- IBV_POST_SEND, IBV_POST_RECV, IBV_POLL_CQ -----

    /** lkey_offset_map section of a post, and the address translation. */
    method TranslateAddr(lkey: Lkey, clientAddr: nat) returns (addr: Option<nat>)
      ensures addr == if lkey in lkeyOffsetMap then Some(Translate(clientAddr, lkeyOffsetMap[lkey])) else None
    {
      if lkey in lkeyOffsetMap { addr := Some((clientAddr + lkeyOffsetMap[lkey]) % TWO_64); }
      else { addr := None; }
    }

    /** src_qp_map section of a post or a poll. */
    method FindHostKey(h: Handle) returns (key: Option<HostKey>)
      ensures key == if h in srcQpMap then Some(srcQpMap[h]) else None
    {
      if h in srcQpMap { key := Some(srcQpMap[h]); } else { key := None; }
    }

    method PostToQp(p: Ptr, wr: Wr, room: bool) returns (rc: int)
      requires p in conns && conns[p].qp.Some?
      modifies this
      ensures State() == SetQp(old(State()), p, Sections.PostWr(old(conns)[p].qp.value, wr, room).0)
      ensures rc == 0 <==> Sections.PostWr(old(conns)[p].qp.value, wr, room).1
    {
      var qp := conns[p].qp.value;
      if room && (if wr.kind.Send? then qp.state.Rts? else !qp.state.Reset?) {
        if wr.kind.Send? { qp := qp.(sq := qp.sq + [wr]); } else { qp := qp.(rq := qp.rq + [wr]); }
        qp := qp.(accepted := qp.accepted + [wr]);
        rc := 0;
      } else { rc := 1; }
      conns := conns[p := conns[p].(qp := Some(qp))];
    }

    /** `ibv_poll_cq` for one entry under the connection's mutex and the loop over the
        completions found, which gives up at the first bad one. */
    method PollQp(p: Ptr, pid: int, works: bool) returns (reply: Reply)
      requires p in conns && conns[p].qp.Some?
      modifies this
      ensures State() == SetQp(old(State()), p, PollOne(old(conns)[p].qp.value, pid, works).0)
      ensures reply == PollOne(old(conns)[p].qp.value, pid, works).1
    {
      var qp := conns[p].qp.value;
      var wc: seq<Wc> := [];
      if works && qp.cq != [] {
        wc := [qp.cq[0]];
        qp := qp.(cq := qp.cq[1..]);
      }
      var kill := false;
      var i := 0;
      while i < |wc| && !kill
        invariant 0 <= i <= |wc|
        invariant kill <==> exists j :: 0 <= j < i && !(wc[j].ok && wc[j].wr.wrId == pid)
      {
        kill := !wc[i].ok || wc[i].wr.wrId != pid;
        i := i + 1;
      }
      if !works { reply := PollRsp(-1, None); }
      else if wc == [] { reply := PollRsp(0, None); }
      else if kill {
        qp := qp.(discarded := qp.discarded + [Delivery(pid, wc[0])]);
        reply := Killed;
      } else {
        qp := qp.(delivered := qp.delivered + [Delivery(pid, wc[0])]);
        reply := PollRsp(1, Some(wc[0]));
      }
      conns := conns[p := conns[p].(qp := Some(qp))];
    }

    // ----- IBV_DESTROY_QP -----

    /** src_qp_map section. */
    method UnmapQp(h: Handle) returns (key: Option<HostKey>)
      modifies this
      ensures (State(), key) == UnmapHandle(old(State()), h)
    {
      if h in srcQpMap {
        key := Some(srcQpMap[h]);
        srcQpMap := srcQpMap - {h};
      } else { key := None; }
    }

    /** host_map section. */
    method ReleaseConn(key: HostKey) returns (res: Dropped)
      requires Live(key)
      modifies this
      ensures (State(), res) == DropRef(old(State()), key)
    {
      if key in hostMap {
        if hostMap[key] != NULL {
          var conn := hostMap[key];
          conns := conns[conn := conns[conn].(refCnt := (conns[conn].refCnt + TWO_32 - 1) % TWO_32)];
          res := Kept;
          if conns[conn].refCnt <= 0 {
            res := Erased(conn);
            hostMap := hostMap - {key};
          }
        } else { res := NoConn; }
      } else { res := NoKey; }
    }

    /** Section under the mutex of a connection that is out of host_map. */
    method DestroyConn(p: Ptr, dst: Gid) returns (m: Packet)
      requires p in conns && conns[p].qp.Some?
      modifies this
      ensures State() == FreeConn(old(State()), p)
      ensures m == Packet(Delete, gid, dst, old(conns)[p].qp.value.qpn)
    {
      m := Packet(Delete, gid, dst, conns[p].qp.value.qpn);
      conns := conns - {p};
    }

    // ----- handle_remote_router -----

    /** dst_qp_map section of a message handler. */
    method HandleRemoteRouter(m: Packet)
      modifies this`dstQpMap
      ensures dstQpMap == ApplyInfo(old(dstQpMap), m)
    {
      if m.op.Insert? {
        dstQpMap := dstQpMap[m.src := m.qpn];
      } else {
        if m.src in dstQpMap { dstQpMap := dstQpMap - {m.src}; }
        else { assert dstQpMap - {m.src} == dstQpMap; }
      }
    }

    // ----- IBV_REG_MR, IBV_DEREG_MR -----

    /** lkey_offset_map section of IBV_REG_MR. */
    method StoreOffset(lkey: Lkey, clientAddr: nat, routerAddr: nat)
      modifies this
      ensures State() == InsertLkey(old(State()), lkey, clientAddr, routerAddr)
      ensures lkey in old(lkeyOffsetMap) ==> lkeyOffsetMap == old(lkeyOffsetMap)
      ensures lkey !in old(lkeyOffsetMap) ==>
        && lkey in lkeyOffsetMap && lkeyOffsetMap == old(lkeyOffsetMap)[lkey := lkeyOffsetMap[lkey]]
        && lkeyOffsetMap[lkey] == Offset(routerAddr, clientAddr)
    {
      if lkey !in lkeyOffsetMap {
        lkeyOffsetMap := lkeyOffsetMap[lkey := AsInt64((routerAddr - clientAddr) % TWO_64)];
      }
    }

    /** lkey_offset_map section of IBV_DEREG_MR. */
    method DropOffset(lkey: Lkey) returns (flags: bool)
      modifies this
      ensures (State(), flags) == EraseLkey(old(State()), lkey)
    {
      flags := lkey in lkeyOffsetMap;
      if flags { lkeyOffsetMap := lkeyOffsetMap - {lkey}; }
    }

    // ----- whole handlers -----

    /** The loop of IBV_MODIFY_QP; `news` are the messages that arrive while it waits. */
    method AwaitPeer(dst: Gid, news: seq<Packet>) returns (peer: Option<Qpn>, heard: nat)
      modifies this`dstQpMap
      ensures heard <= |news| && dstQpMap == ApplyAll(old(dstQpMap), news[..heard])
      ensures peer == if dst in dstQpMap then Some(dstQpMap[dst]) else None
      ensures peer == None ==> heard == |news|
    {
      heard := 0;
      peer := ProbePeer(dst);
      while peer == None && heard < |news|
        invariant heard <= |news| && dstQpMap == ApplyAll(old(dstQpMap), news[..heard])
        invariant peer == if dst in dstQpMap then Some(dstQpMap[dst]) else None
      {
        HandleRemoteRouter(news[heard]);
        assert news[..heard + 1][..heard] == news[..heard];
        heard := heard + 1;
        peer := ProbePeer(dst);
      }
    }

    /** IBV_MODIFY_QP up to the announcement. */
    method AcquireConn(h: Handle, dst: Gid, newConn: Ptr, qpn: Qpn) returns (phyQpNum: Qpn)
      requires Consistent(State()) && newConn != NULL && newConn !in conns
      requires Refs(Idle(State()), HostKey(gid, dst)) + 1 < TWO_32
      modifies this
      ensures Consistent(State()) && GotOne(old(State()), State(), h, HostKey(gid, dst), newConn, qpn)
      ensures phyQpNum == conns[hostMap[HostKey(gid, dst)]].qp.value.qpn
    {
      ghost var d := State();
      var key := HostKey(gid, dst);
      AcquiredOne(d, h, key, newConn, qpn);
      if key in hostMap { JoinsOne(d, key, newConn); }
      PreAllocate(key, newConn);
      var createFlag, oldConn := JoinOrPublish(key, newConn);
      phyQpNum := CreateOrDiscard(createFlag, newConn, oldConn, qpn);
      MapQp(h, key);
      GotConsistent(d, State(), h, key, newConn, qpn);
    }

    /** IBV_MODIFY_QP from the loop on: once the peer's number is known the handler answers that the
        queue pair is ready exactly if it has gone through INIT, RTR and RTS, now with that number
        or earlier. */
    method ConnectQp(dst: Gid, news: seq<Packet>, reach: nat) returns (outcome: Outcome)
      requires Consistent(State()) && HostKey(gid, dst) in hostMap
      modifies this`dstQpMap, this`conns
      ensures Consistent(State()) && !outcome.Aborted?
      ensures conns == old(conns)[hostMap[HostKey(gid, dst)] := conns[hostMap[HostKey(gid, dst)]]]
      ensures var p := hostMap[HostKey(gid, dst)]; Connects(old(conns)[p], conns[p], dstQpMap, dst, reach, outcome)
      ensures outcome.Waiting? ==> dstQpMap == ApplyAll(old(dstQpMap), news)
    {
      ghost var d := State();
      var key := HostKey(gid, dst);
      assert KeyReady(d, key);
      var peer, heard := AwaitPeer(dst, news);
      if peer == None {
        SameCounts(d, State());
        assert news[..heard] == news;
        return Waiting;
      }
      var found := FindConn(key);
      var ready := ModifyQpToReady(found.conn, peer.value, reach);
      MakeReadyConnects(d.conns[found.conn], dstQpMap, dst, reach);
      SameCounts(d, State());
      outcome := Answered(ready);
    }

    /** IBV_MODIFY_QP: the handle is mapped to the host pair, the connection of the pair has one
        reference more, and the peer is told the number of its queue pair. The answer, once the
        peer's number is known, is that the queue pair is ready exactly if it is in RTS with that
        number, or was made ready before. */
    method ModifyQp(h: Handle, dst: Gid, newConn: Ptr, qpn: Qpn, sent: bool, news: seq<Packet>, reach: nat)
      returns (outcome: Outcome, told: Option<Packet>)
      requires Consistent(State()) && newConn != NULL && newConn !in conns
      requires Refs(Idle(State()), HostKey(gid, dst)) + 1 < TWO_32
      modifies this
      ensures Consistent(State())
      ensures ModifyDone(old(State()), State(), h, dst, newConn, qpn, reach, outcome)
      ensures outcome.Aborted? <==> !sent
      ensures outcome.Waiting? ==> dstQpMap == ApplyAll(old(dstQpMap), news)
      ensures told ==
        if sent then Some(Packet(Insert, gid, dst, conns[hostMap[HostKey(gid, dst)]].qp.value.qpn)) else None
    {
      ghost var d := State();
      var key := HostKey(gid, dst);
      var phyQpNum := AcquireConn(h, dst, newConn, qpn);
      ghost var d1, p := State(), hostMap[key];
      outcome, told := Aborted, None;
      if sent {
        told := Some(Packet(Insert, gid, dst, phyQpNum));
        outcome := ConnectQp(dst, news, reach);
      }
      assert conns == d1.conns[p := conns[p]];
      ModifiedWhole(d, d1, State(), h, key, newConn, qpn, reach, outcome);
    }

    /** IBV_DESTROY_QP: the handle is unmapped and its reference given back; with the last one the
        key goes, the connection is freed and the peer is told. */
    method DestroyQp(h: Handle, dst: Gid) returns (flags: bool, told: Option<Packet>)
      requires Consistent(State())
      modifies this
      ensures Consistent(State())
      ensures DestroyDone(old(State()), State(), h, flags)
      ensures flags && old(conns)[old(hostMap)[old(srcQpMap)[h]]].refCnt == 1 ==>
                told == Some(Packet(Delete, gid, dst, old(conns)[old(hostMap)[old(srcQpMap)[h]]].qp.value.qpn))
      ensures !flags || old(conns)[old(hostMap)[old(srcQpMap)[h]]].refCnt != 1 ==> told == None
      ensures flags ==> old(conns)[old(hostMap)[old(srcQpMap)[h]]].refCnt == Refs(Idle(old(State())), old(srcQpMap)[h])
    {
      ghost var d := State();
      told := None;
      var key := UnmapQp(h);
      flags := key.Some?;
      if flags {
        DropsReference(d, h);
        var res := ReleaseConn(key.value);
        if res.Erased? {
          var m := DestroyConn(res.conn, dst);
          told := Some(m);
          assert conns == d.conns - {res.conn};
        }
        ReferenceDropped(d, State(), h);
      } else {
        assert State() == d;
      }
    }

    /** IBV_POST_SEND and IBV_POST_RECV: the request is accepted exactly if its lkey and its handle
        are known, a receive carries the pid as wr_id, and the device takes it; it is then the last
        one of its queue, with the client's address translated. Otherwise nothing changes. */
    method PostRequest(h: Handle, wr: Wr, pid: int, room: bool) returns (reply: Reply)
      requires Consistent(State())
      modifies this
      ensures PostDone(old(State()), State(), h, wr, pid, room, reply)
    {
      var addr := TranslateAddr(wr.lkey, wr.addr);
      if addr == None { return Killed; }
      if wr.kind.Recv? && wr.wrId != pid { return Killed; }
      var key := FindHostKey(h);
      if key == None { return Killed; }
      assert KeyReady(State(), key.value);
      var found := FindConn(key.value);
      ghost var d := State();
      var remote := wr.kind.Send? && wr.opcode != IBV_WR_SEND;
      var hw := Wr(wr.kind, wr.wrId, addr.value, wr.length % TWO_32, wr.lkey, if wr.kind.Send? then wr.opcode else 0,
                   if remote then wr.remoteAddr else 0, if remote then wr.rkey else 0);
      var rc := PostToQp(found.conn, hw, room);
      if rc != 0 {
        assert conns == d.conns;
        return Killed;
      }
      reply := PostRsp(pid);
    }

    /** IBV_POLL_CQ for one entry: the oldest completion of the handle's connection is taken out
        and, if it succeeded and carries the pid, delivered; otherwise the client gets no answer. */
    method PollRequest(h: Handle, pid: int, works: bool) returns (reply: Reply)
      requires Consistent(State())
      modifies this
      ensures PollDone(old(State()), State(), h, pid, works, reply)
    {
      var key := FindHostKey(h);
      if key == None { return Killed; }
      assert KeyReady(State(), key.value);
      var found := FindConn(key.value);
      reply := PollQp(found.conn, pid, works);
    }
  }

  /** A change to numbers and queue pairs that leaves keys, handles and counts alone. */
  lemma SameCounts(d: Shared, d': Shared)
    requires Consistent(d) && Quiet(d, d')
    ensures Consistent(d')
  {
    forall k: HostKey ensures RefOk(Idle(d'), k) && Refs(Idle(d'), k) < TWO_32 {
      IdleRefs(d, k);
      IdleRefs(d', k);
      assert Handles(d', k) == Handles(d, k);
      assert RefOk(Idle(d), k) && Refs(Idle(d), k) < TWO_32;
    }
    forall k | k in d'.hostMap ensures KeyReady(d', k) { assert KeyReady(d, k); }
    forall h | h in d'.srcQpMap ensures KeyReady(d', d'.srcQpMap[h]) { assert KeyReady(d, d.srcQpMap[h]); }
  }
}
