/** Which parts of the router's data each kind of request can touch. */
module Frames {
  import opened Types
  import opened Sections
  import opened Machine

  lemma JoinFrame(d: Shared, key: HostKey, p: Ptr)
    requires LiveOrNull(d, key)
    ensures JoinHost(d, key, p).0 == d.(hostMap := JoinHost(d, key, p).0.hostMap, conns := JoinHost(d, key, p).0.conns)
  {
  }

  lemma ModifyFrame(d: Shared, th: Thread, c: Choice)
    requires th.req.Modify? && ModifyMove(d, th, c).Go?
    ensures var d' := ModifyMove(d, th, c).d;
      && d'.gid == d.gid && d'.dstQpMap == d.dstQpMap && d'.lkeyOffsetMap == d.lkeyOffsetMap && d'.mrs == d.mrs
      && (!th.pc.MSrc? ==> d'.srcQpMap == d.srcQpMap)
      && (!th.pc.MCreate? ==> d'.created == d.created)
  {
    if th.pc.MHost? { JoinFrame(d, th.key, th.pc.newConn); }
    else if th.pc.MConn? { assert ModifyMove(d, th, c).d == d.(conns := ModifyMove(d, th, c).d.conns); }
  }

  lemma DestroyFrame(d: Shared, th: Thread)
    requires th.req.Destroy? && DestroyMove(d, th).Go?
    ensures var d' := DestroyMove(d, th).d;
      d' == d.(hostMap := d'.hostMap, srcQpMap := d'.srcQpMap, conns := d'.conns)
    ensures !th.pc.DSrc? ==> DestroyMove(d, th).d.srcQpMap == d.srcQpMap
  {
  }

  lemma UseFrame(d: Shared, th: Thread, c: Choice)
    requires (th.req.Post? || th.req.Poll?) && UseMove(d, th, c).Go?
    ensures UseMove(d, th, c).d == d.(conns := UseMove(d, th, c).d.conns)
    ensures !th.pc.UConn? ==> UseMove(d, th, c).d == d
  {
  }

  lemma MemoryFrame(d: Shared, th: Thread, c: Choice)
    requires (th.req.RegMr? || th.req.DeregMr?) && MoveOf(d, th, c).Go?
    ensures var d' := MoveOf(d, th, c).d;
      d' == d.(lkeyOffsetMap := d'.lkeyOffsetMap, mrs := d'.mrs)
  {
  }

  /** Requests other than IBV_MODIFY_QP and IBV_DESTROY_QP leave the maps of handles and keys alone. */
  lemma OtherFrame(d: Shared, th: Thread, c: Choice)
    requires !th.req.Modify? && !th.req.Destroy? && MoveOf(d, th, c).Go?
    ensures var d' := MoveOf(d, th, c).d;
      d' == d.(conns := d'.conns, lkeyOffsetMap := d'.lkeyOffsetMap, mrs := d'.mrs)
  {
    if th.req.Post? || th.req.Poll? { UseFrame(d, th, c); } else { MemoryFrame(d, th, c); }
  }
}
