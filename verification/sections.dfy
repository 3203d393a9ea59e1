/** What each critical section of the router does to the router's data.
    These functions are the specification of the methods of `ScaleRouter`
    and the bodies of the steps of `Machine`. */
module Sections {
  import opened Types

  /** Address of a heap-allocated `conn_resources`. */
  type Ptr = nat
  const NULL: Ptr := 0

  type Handle = nat
  type Lkey = nat
  type Qpn = nat

  const IBV_WR_SEND: nat := 2

  datatype WrKind = Send | Recv

  /** A work request with its single scatter/gather element. */
  datatype Wr = Wr(kind: WrKind, wrId: int, addr: nat, length: nat, lkey: Lkey,
                   opcode: nat, remoteAddr: nat, rkey: nat)

  /** A completion: the request it completes and whether its status is IBV_WC_SUCCESS. */
  datatype Wc = Wc(wr: Wr, ok: bool)

  /** A completion taken from the queue on behalf of the client process that polled. */
  datatype Delivery = Delivery(pid: int, wc: Wc)

  datatype QpState = Reset | Init | Rtr | Rts

  /** The physical queue pair and its completion queue. `accepted`, `delivered`
      and `discarded` are histories that no step of the router reads. */
  datatype Qp = Qp(qpn: Qpn, state: QpState, dstQpn: Option<Qpn>,
                   sq: seq<Wr>, rq: seq<Wr>, cq: seq<Wc>,
                   accepted: seq<Wr>, delivered: seq<Delivery>, discarded: seq<Delivery>)

  /** `struct conn_resources`; `key` records the host pair it was allocated for. */
  datatype Conn = Conn(key: HostKey, refCnt: nat, status: nat, qp: Option<Qp>)

  /** A registered memory region: the client range and the router's mapping of it. */
  datatype Region = Region(pid: int, clientAddr: nat, routerAddr: nat, size: nat)

  /** The data the mutexes of `ScaleRouter` protect, the live `conn_resources`
      and the device. `created` and `orphans` are histories. */
  datatype Shared = Shared(
    gid: Gid,
    hostMap: map<HostKey, Ptr>,
    srcQpMap: map<Handle, HostKey>,
    dstQpMap: map<Gid, Qpn>,
    lkeyOffsetMap: map<Lkey, int>,
    conns: map<Ptr, Conn>,
    mrs: map<Lkey, Region>,
    created: set<(HostKey, Qpn)>,
    orphans: multiset<HostKey>)

  datatype Operation = Insert | Delete

  /** `struct info` together with the router it is sent to. */
  datatype Packet = Packet(op: Operation, src: Gid, dst: Gid, qpn: Qpn)

  datatype Reply =
    | Killed
    | ModifyRsp(ready: bool)
    | PostRsp(wrId: int)
    | PollRsp(count: int, wc: Option<Wc>)
    | DestroyRsp(destroyed: bool)
    | RegMrRsp(lkey: Lkey, routerAddr: nat)
    | DeregMrRsp(done: bool)

  // ----- IBV_MODIFY_QP -----

  function AllocConn(d: Shared, key: HostKey, p: Ptr): Shared {
    d.(conns := d.conns[p := Conn(key, 1, 0, None)])
  }

  function FreeConn(d: Shared, p: Ptr): Shared {
    d.(conns := d.conns - {p})
  }

  /** The 32-bit atomic `ref_cnt++` and `ref_cnt--`. */
  function Incremented(n: nat): nat { (n + 1) % TWO_32 }

  function Decremented(n: nat): nat { (n + TWO_32 - 1) % TWO_32 }

  function SetCount(d: Shared, p: Ptr, n: nat): Shared
    requires p in d.conns
  {
    d.(conns := d.conns[p := d.conns[p].(refCnt := n)])
  }

  function Publish(d: Shared, key: HostKey, p: Ptr): Shared {
    d.(hostMap := d.hostMap[key := p])
  }

  /** First host_map section: join the shared connection of `key`, or publish
      `newConn` as that connection. Returns the joined connection or NULL. */
  function JoinHost(d: Shared, key: HostKey, newConn: Ptr): (Shared, Ptr)
    requires key in d.hostMap && d.hostMap[key] != NULL ==> d.hostMap[key] in d.conns
  {
    if key in d.hostMap && d.hostMap[key] != NULL then
      var p := d.hostMap[key];
      (SetCount(d, p, Incremented(d.conns[p].refCnt)), p)
    else
      (Publish(d, key, newConn), NULL)
  }

  /** `resources_create`: a queue pair in state RESET with an empty completion queue. */
  function CreateQp(d: Shared, p: Ptr, qpn: Qpn): Shared
    requires p in d.conns
  {
    d.(conns := d.conns[p := d.conns[p].(qp := Some(Qp(qpn, Reset, None, [], [], [], [], [], [])))],
       created := d.created + {(d.conns[p].key, qpn)})
  }

  /** src_qp_map section; the reference of an overwritten mapping is never given back. */
  function MapHandle(d: Shared, h: Handle, key: HostKey): Shared {
    d.(srcQpMap := d.srcQpMap[h := key],
       orphans := if h in d.srcQpMap then d.orphans + multiset{d.srcQpMap[h]} else d.orphans)
  }

  datatype Lookup = NotFound | NullEntry | Found(conn: Ptr)

  function LookupHost(d: Shared, key: HostKey): Lookup {
    if key !in d.hostMap then NotFound
    else if d.hostMap[key] == NULL then NullEntry
    else Found(d.hostMap[key])
  }

  /** `modify_qp_to_ready`: INIT, RTR, RTS in turn, stopping at the first failure.
      `reach` is the number of transitions the device accepts. */
  function ToReady(q: Qp, dst: Qpn, reach: nat): (Qp, bool) {
    if reach == 0 || !(q.state.Reset? || q.state.Init?) then (q, false)
    else if reach == 1 then (q.(state := Init), false)
    else if reach == 2 then (q.(state := Rtr, dstQpn := Some(dst)), false)
    else (q.(state := Rts, dstQpn := Some(dst)), true)
  }

  /** Section under `conn->mutex` of IBV_MODIFY_QP. */
  function MakeReady(conn: Conn, dst: Qpn, reach: nat): Conn
    requires conn.qp.Some?
  {
    if conn.status == 0 then
      var (q, ok) := ToReady(conn.qp.value, dst, reach);
      conn.(qp := Some(q), status := if ok then 4 else 0)
    else
      conn
  }

  // ----- IBV_POST_SEND, IBV_POST_RECV, IBV_POLL_CQ -----

  function Translate(addr: nat, offset: int): nat {
    (addr + offset) % TWO_64
  }

  /** The request handed to the device for the client's request `wr`. */
  function HardwareWr(wr: Wr, offset: int): Wr {
    var remote := wr.kind.Send? && wr.opcode != IBV_WR_SEND;
    Wr(wr.kind, wr.wrId, Translate(wr.addr, offset), wr.length % TWO_32, wr.lkey,
       if wr.kind.Send? then wr.opcode else 0,
       if remote then wr.remoteAddr else 0,
       if remote then wr.rkey else 0)
  }

  /** The device refuses a send outside RTS and a receive in RESET; it may refuse
      a request for lack of room as well. */
  predicate Accepts(q: Qp, wr: Wr, room: bool) {
    room && match wr.kind { case Send => q.state.Rts? case Recv => !q.state.Reset? }
  }

  function PostWr(q: Qp, wr: Wr, room: bool): (Qp, bool) {
    if !Accepts(q, wr, room) then (q, false)
    else
      var q' := q.(accepted := q.accepted + [wr]);
      (if wr.kind.Send? then q'.(sq := q.sq + [wr]) else q'.(rq := q.rq + [wr]), true)
  }

  /** `ibv_poll_cq` for one entry and the checks on the entry found. */
  function PollOne(q: Qp, pid: int, works: bool): (Qp, Reply) {
    if !works then (q, PollRsp(-1, None))
    else if q.cq == [] then (q, PollRsp(0, None))
    else
      var wc := q.cq[0];
      var q' := q.(cq := q.cq[1..]);
      if !wc.ok || wc.wr.wrId != pid then
        (q'.(discarded := q.discarded + [Delivery(pid, wc)]), Killed)
      else
        (q'.(delivered := q.delivered + [Delivery(pid, wc)]), PollRsp(1, Some(wc)))
  }

  /** The device completes the oldest request of one work queue. */
  function Complete(q: Qp, kind: WrKind, ok: bool): Qp
    requires (if kind.Send? then q.sq else q.rq) != []
  {
    if kind.Send? then q.(sq := q.sq[1..], cq := q.cq + [Wc(q.sq[0], ok)])
    else q.(rq := q.rq[1..], cq := q.cq + [Wc(q.rq[0], ok)])
  }

  function SetConn(d: Shared, p: Ptr, c: Conn): Shared {
    d.(conns := d.conns[p := c])
  }

  function SetQp(d: Shared, p: Ptr, q: Qp): Shared
    requires p in d.conns
  {
    SetConn(d, p, d.conns[p].(qp := Some(q)))
  }

  // ----- IBV_DESTROY_QP -----

  function UnmapHandle(d: Shared, h: Handle): (Shared, Option<HostKey>) {
    if h in d.srcQpMap then (d.(srcQpMap := d.srcQpMap - {h}), Some(d.srcQpMap[h]))
    else (d, None)
  }

  function Unpublish(d: Shared, key: HostKey): Shared {
    d.(hostMap := d.hostMap - {key})
  }

  datatype Dropped = NoKey | NoConn | Kept | Erased(conn: Ptr)

  /** host_map section of IBV_DESTROY_QP: give one reference back, erase the key at zero. */
  function DropRef(d: Shared, key: HostKey): (Shared, Dropped)
    requires key in d.hostMap && d.hostMap[key] != NULL ==> d.hostMap[key] in d.conns
  {
    if key !in d.hostMap then (d, NoKey)
    else if d.hostMap[key] == NULL then (d, NoConn)
    else
      var p := d.hostMap[key];
      var n := Decremented(d.conns[p].refCnt);
      var d' := SetCount(d, p, n);
      if n == 0 then (Unpublish(d', key), Erased(p)) else (d', Kept)
  }

  // ----- handle_remote_router -----

  function ApplyInfo(dstQpMap: map<Gid, Qpn>, m: Packet): map<Gid, Qpn> {
    if m.op.Insert? then dstQpMap[m.src := m.qpn] else dstQpMap - {m.src}
  }

  // ----- IBV_REG_MR, IBV_DEREG_MR -----

  /** The offset stored for a region, as a 64-bit pointer difference. */
  function Offset(routerAddr: nat, clientAddr: nat): int {
    AsInt64((routerAddr - clientAddr) % TWO_64)
  }

  function InsertLkey(d: Shared, lkey: Lkey, clientAddr: nat, routerAddr: nat): Shared {
    if lkey in d.lkeyOffsetMap then d
    else d.(lkeyOffsetMap := d.lkeyOffsetMap[lkey := Offset(routerAddr, clientAddr)])
  }

  function EraseLkey(d: Shared, lkey: Lkey): (Shared, bool) {
    if lkey in d.lkeyOffsetMap then (d.(lkeyOffsetMap := d.lkeyOffsetMap - {lkey}), true)
    else (d, false)
  }
}
