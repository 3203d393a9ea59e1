/** What whole requests do to the router's data when they are served alone, stated without the
    sections they are made of. The methods of `ScaleRouter` and the handlers of `Machine` both
    keep to it. */
module Requests {
  import opened Types
  import opened Sections
  import opened Machine
  import opened References

  // ----- IBV_POST_SEND, IBV_POST_RECV -----

  /** The lkey and the handle are known, a receive carries the pid, and the device takes the request. */
  ghost predicate CanPost(d: Shared, h: Handle, wr: Wr, pid: int, room: bool) {
    && wr.lkey in d.lkeyOffsetMap && (wr.kind.Recv? ==> wr.wrId == pid) && room
    && h in d.srcQpMap && KeyReady(d, d.srcQpMap[h])
    && var state := d.conns[d.hostMap[d.srcQpMap[h]]].qp.value.state;
       if wr.kind.Send? then state.Rts? else !state.Reset?
  }

  /** `hw` is the client's request with its address moved by the stored offset. */
  predicate Moved(wr: Wr, hw: Wr, offset: int) {
    && hw.kind == wr.kind && hw.wrId == wr.wrId && hw.lkey == wr.lkey
    && hw.addr == (wr.addr + offset) % TWO_64 && hw.length == wr.length % TWO_32
    && (wr.kind.Send? ==> hw.opcode == wr.opcode)
    && (wr.kind.Send? && wr.opcode != IBV_WR_SEND ==> hw.remoteAddr == wr.remoteAddr && hw.rkey == wr.rkey)
  }

  /** The moved request is the last of its queue and nothing else has changed. */
  ghost predicate Posted(d: Shared, d': Shared, h: Handle, wr: Wr)
    requires h in d.srcQpMap && KeyReady(d, d.srcQpMap[h]) && wr.lkey in d.lkeyOffsetMap
  {
    var p := d.hostMap[d.srcQpMap[h]];
    && HasQp(d', p) && d' == SetQp(d, p, d'.conns[p].qp.value)
    && var q, q' := d.conns[p].qp.value, d'.conns[p].qp.value;
       && |q'.accepted| == |q.accepted| + 1
       && var hw := q'.accepted[|q.accepted|];
          && Moved(wr, hw, d.lkeyOffsetMap[wr.lkey])
          && q' == if wr.kind.Send? then q.(sq := q.sq + [hw], accepted := q.accepted + [hw])
                   else q.(rq := q.rq + [hw], accepted := q.accepted + [hw])
  }

  /** A post is answered exactly if the router and the device take it; otherwise nothing changes. */
  ghost predicate PostDone(d: Shared, d': Shared, h: Handle, wr: Wr, pid: int, room: bool, reply: Reply) {
    && (CanPost(d, h, wr, pid, room) ==> reply == PostRsp(pid) && Posted(d, d', h, wr))
    && (!CanPost(d, h, wr, pid, room) ==> reply == Killed && d' == d)
  }

  // ----- IBV_POLL_CQ -----

  /** The oldest completion of the handle's connection is taken out and, if it succeeded and carries
      the pid, delivered; otherwise the client gets no answer. */
  ghost predicate PollDone(d: Shared, d': Shared, h: Handle, pid: int, works: bool, reply: Reply) {
    && (h !in d.srcQpMap ==> reply == Killed && d' == d)
    && (h in d.srcQpMap ==>
          && KeyReady(d, d.srcQpMap[h])
          && var p := d.hostMap[d.srcQpMap[h]];
             && HasQp(d', p) && d' == SetQp(d, p, d'.conns[p].qp.value)
             && Polled(d.conns[p].qp.value, d'.conns[p].qp.value, pid, works, reply))
  }

  predicate Polled(q: Qp, q': Qp, pid: int, works: bool, reply: Reply) {
    if !works || q.cq == [] then q' == q && reply == PollRsp(if works then 0 else -1, None)
    else if q.cq[0].ok && q.cq[0].wr.wrId == pid then
      && reply == PollRsp(1, Some(q.cq[0]))
      && q' == q.(cq := q.cq[1..], delivered := q.delivered + [Delivery(pid, q.cq[0])])
    else
      && reply == Killed
      && q' == q.(cq := q.cq[1..], discarded := q.discarded + [Delivery(pid, q.cq[0])])
  }

  // ----- IBV_DESTROY_QP -----

  /** The handle is unmapped and its reference given back; with the last one the key goes and the
      connection is freed. */
  ghost predicate DestroyDone(d: Shared, d': Shared, h: Handle, flags: bool) {
    && (flags <==> h in d.srcQpMap)
    && d' == d.(srcQpMap := d.srcQpMap - {h}, hostMap := d'.hostMap, conns := d'.conns)
    && (!flags ==> d' == d)
    && (flags ==>
          && KeyReady(d, d.srcQpMap[h])
          && var k, p := d.srcQpMap[h], d.hostMap[d.srcQpMap[h]];
             if d.conns[p].refCnt == 1 then d'.hostMap == d.hostMap - {k} && d'.conns == d.conns - {p}
             else
               && d'.hostMap == d.hostMap && d.conns[p].refCnt > 1
               && d'.conns == d.conns[p := d.conns[p].(refCnt := d.conns[p].refCnt - 1)])
  }

  // ----- IBV_MODIFY_QP -----

  /** How IBV_MODIFY_QP ends: killed, still in the loop, or with its answer. */
  datatype Outcome = Aborted | Waiting | Answered(ready: bool)

  /** The connection of `key` with one reference more: the shared one, or a new one with a queue
      pair of number `qpn`. */
  function OneMore(d: Shared, key: HostKey, qpn: Qpn): Conn
    requires key in d.hostMap ==> d.hostMap[key] in d.conns
  {
    if key in d.hostMap then d.conns[d.hostMap[key]].(refCnt := d.conns[d.hostMap[key]].refCnt + 1)
    else Conn(key, 1, 0, Some(Qp(qpn, Reset, None, [], [], [], [], [], [])))
  }

  /** How far a queue pair has come: INIT, RTR and RTS are the first, second and third transition. */
  function Level(s: QpState): nat {
    match s
    case Reset => 0
    case Init => 1
    case Rtr => 2
    case Rts => 3
  }

  /** An attempt in which the device accepts `reach` transitions: a queue pair that is not past INIT
      comes as far as that and never falls back, one that is past INIT stays; it gets the number
      exactly if it comes to RTR. */
  predicate Attempted(q: Qp, q': Qp, dst: Qpn, reach: nat) {
    var n := if reach > 3 then 3 else reach;
    && Level(q'.state) == (if Level(q.state) <= 1 && n > Level(q.state) then n else Level(q.state))
    && q'.dstQpn == (if Level(q.state) < 2 <= Level(q'.state) then Some(dst) else q.dstQpn)
    && q' == q.(state := q'.state, dstQpn := q'.dstQpn)
  }

  /** What the handler of IBV_MODIFY_QP makes of the connection `was`: once the peer's number is
      known, one that is not ready is attempted with it, and is ready exactly if it comes to RTS. */
  predicate Connects(was: Conn, conn: Conn, peers: map<Gid, Qpn>, dst: Gid, reach: nat, outcome: Outcome) {
    && was.qp.Some? && conn.qp.Some? && conn == was.(qp := conn.qp, status := conn.status)
    && (!outcome.Answered? || was.status != 0 ==> conn == was)
    && (outcome.Waiting? ==> dst !in peers)
    && (outcome.Answered? ==> dst in peers && (outcome.ready <==> conn.status == 4))
    && (outcome.Answered? && was.status == 0 ==>
          && Attempted(was.qp.value, conn.qp.value, peers[dst], reach)
          && conn.status == (if Level(was.qp.value.state) < 3 == Level(conn.qp.value.state) then 4 else 0))
  }

  /** The handle is mapped to the host pair and the pair's connection has one reference more; the
      answer, once the peer's number is known, is whether it is ready. */
  ghost predicate ModifyDone(d: Shared, d': Shared, h: Handle, dst: Gid, newConn: Ptr, qpn: Qpn, reach: nat,
                             outcome: Outcome)
  {
    var key := HostKey(d.gid, dst);
    var p := if key in d.hostMap then d.hostMap[key] else newConn;
    && d'.gid == d.gid && d'.lkeyOffsetMap == d.lkeyOffsetMap && d'.mrs == d.mrs
    && d'.srcQpMap == d.srcQpMap[h := key] && d'.hostMap == d.hostMap[key := p]
    && (key in d.hostMap ==> p in d.conns) && p in d'.conns && d'.conns == d.conns[p := d'.conns[p]]
    && Connects(OneMore(d, key, qpn), d'.conns[p], d'.dstQpMap, dst, reach, outcome)
  }

  // ----- IBV_REG_MR, IBV_DEREG_MR -----

  /** A registration is answered exactly if its length as an int is positive and the segment and the
      region can be made; then the lkey stands for the region, with the 64-bit difference of its
      router address and its client address. */
  ghost predicate RegDone(d: Shared, d': Shared, req: Request, lkey: Lkey, ptr: nat, made: bool, reply: Reply)
    requires req.RegMr?
  {
    var size := AsInt32(req.length);
    && (size <= 0 || !made ==> reply == Killed && d' == d)
    && (size > 0 && made ==>
          && reply == RegMrRsp(lkey, ptr)
          && lkey in d'.lkeyOffsetMap && d'.lkeyOffsetMap == d.lkeyOffsetMap[lkey := d'.lkeyOffsetMap[lkey]]
          && (d'.lkeyOffsetMap[lkey] - (ptr - req.clientAddr)) % TWO_64 == 0
          && -0x8000_0000_0000_0000 <= d'.lkeyOffsetMap[lkey] < 0x8000_0000_0000_0000
          && d' == d.(lkeyOffsetMap := d'.lkeyOffsetMap,
                      mrs := d.mrs[lkey := Region(req.pid, req.clientAddr, ptr, size)]))
  }

  /** The lkey loses its offset and its region; an lkey that has none is refused. */
  ghost predicate DeregDone(d: Shared, d': Shared, lkey: Lkey, reply: Reply) {
    && reply == DeregMrRsp(lkey in d.lkeyOffsetMap)
    && d' == if lkey in d.lkeyOffsetMap then d.(lkeyOffsetMap := d.lkeyOffsetMap - {lkey}, mrs := d.mrs - {lkey}) else d
  }
}
