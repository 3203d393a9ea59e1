/** The address a posted request reaches the device with: the offset is looked up in one
    section and used three sections later. */
module Posting {
  import opened Types
  import opened Sections
  import opened Machine
  import opened Registration

  /** The handler of a post between the lkey_offset_map section and its end. */
  predicate Carries(th: Thread) {
    th.req.Post? && (th.pc.USrc? || th.pc.UHost? || th.pc.UConn?) && th.pc.use.UsePost?
  }

  /** In this step handler `t` finds the offset `o` for its request `wr`. */
  predicate LooksUp(r: Router, a: Action, t: Tid, wr: Wr, o: int) {
    && a.Run? && a.t == t && t in r.threads
    && r.threads[t].req.Post? && r.threads[t].req.wr == wr && r.threads[t].pc.ULkey?
    && wr.lkey in r.d.lkeyOffsetMap && r.d.lkeyOffsetMap[wr.lkey] == o
  }

  lemma CarriedOn(r: Router, a: Action, t: Tid)
    requires Enabled(r, a) && t in Next(r, a).threads && Carries(Next(r, a).threads[t])
    ensures var th' := Next(r, a).threads[t];
      || LooksUp(r, a, t, th'.req.wr, th'.pc.use.offset)
      || (t in r.threads && Carries(r.threads[t]) && r.threads[t].req == th'.req && r.threads[t].pc.use == th'.pc.use)
  {
  }

  /** The offset a handler of a post carries was the one stored for its lkey when it looked. */
  lemma {:induction false} OffsetLookedUp(rs: seq<Router>, acts: seq<Action>, i: nat, t: Tid) returns (m: nat)
    requires IsRun(rs, acts) && i < |rs| && t in rs[i].threads && Carries(rs[i].threads[t])
    ensures m < i && LooksUp(rs[m], acts[m], t, rs[i].threads[t].req.wr, rs[i].threads[t].pc.use.offset)
  {
    assert i > 0;
    assert StepAt(rs, acts, i - 1);
    CarriedOn(rs[i - 1], acts[i - 1], t);
    if LooksUp(rs[i - 1], acts[i - 1], t, rs[i].threads[t].req.wr, rs[i].threads[t].pc.use.offset) {
      m := i - 1;
    } else {
      m := OffsetLookedUp(rs, acts, i - 1, t);
    }
  }

  /** The client's address of a byte of the region. */
  function ClientByte(region: Region, x: nat): nat { (region.clientAddr + x) % TWO_64 }

  /** A request for a byte of the region goes to the device with the router's address of that byte. */
  ghost predicate InRegion(region: Region, wr: Wr, o: int) {
    forall x :: 0 <= x < region.size && wr.addr == ClientByte(region, x) ==>
      HardwareWr(wr, o).addr == region.routerAddr + x
  }

  /** At step `m` the handler finds the offset of the region live then, and it translates the
      request into that region. */
  ghost predicate Translates(rs: seq<Router>, acts: seq<Action>, m: nat, t: Tid, wr: Wr, o: int)
    requires |rs| == |acts| + 1 && m < |acts|
  {
    LooksUp(rs[m], acts[m], t, wr, o) && wr.lkey in rs[m].d.mrs && InRegion(rs[m].d.mrs[wr.lkey], wr, o)
  }

  lemma LookupTranslates(rs: seq<Router>, acts: seq<Action>, m: nat, t: Tid, wr: Wr, o: int)
    requires IsRun(rs, acts) && m < |acts| && LooksUp(rs[m], acts[m], t, wr, o)
    ensures Translates(rs, acts, m, t, wr, o)
  {
    RunKeepsRegions(rs, acts, m);
    var region := rs[m].d.mrs[wr.lkey];
    forall x | 0 <= x < region.size && wr.addr == ClientByte(region, x)
      ensures HardwareWr(wr, o).addr == region.routerAddr + x
    {
      TranslateExact(region.routerAddr, region.clientAddr, x);
    }
  }

  /** In this step the device accepts the request of handler `a.t`. */
  predicate Posts(r: Router, a: Action) {
    && a.Run? && CanRun(r, a.t, a.c) && Carries(r.threads[a.t]) && r.threads[a.t].pc.UConn?
    && HasQp(r.d, r.threads[a.t].pc.conn)
    && Accepts(r.d.conns[r.threads[a.t].pc.conn].qp.value,
               HardwareWr(r.threads[a.t].req.wr, r.threads[a.t].pc.use.offset), a.c.ok)
  }

  lemma PostsAppends(r: Router, a: Action)
    requires Posts(r, a)
    ensures var th := r.threads[a.t];
      var q := r.d.conns[th.pc.conn].qp.value;
      && HasQp(Next(r, a).d, th.pc.conn)
      && Next(r, a).d.conns[th.pc.conn].qp.value.accepted == q.accepted + [HardwareWr(th.req.wr, th.pc.use.offset)]
  {
  }

  /** The request a post hands to the device has, for every byte of the region that was registered
      under its lkey when the handler looked the offset up, the router's address of that byte. It
      is the region registered under the lkey now if and only if no deregistration of the lkey has
      been served since. */
  lemma PostsTranslated(rs: seq<Router>, acts: seq<Action>, i: nat) returns (m: nat)
    requires IsRun(rs, acts) && i < |acts| && Posts(rs[i], acts[i])
    ensures var th := rs[i].threads[acts[i].t];
      var wr, o, p := th.req.wr, th.pc.use.offset, th.pc.conn;
      && HasQp(rs[i + 1].d, p)
      && rs[i + 1].d.conns[p].qp.value.accepted == rs[i].d.conns[p].qp.value.accepted + [HardwareWr(wr, o)]
      && m < i && Translates(rs, acts, m, acts[i].t, wr, o)
      && (StoredAt(rs, acts, i, wr.lkey) == StoredAt(rs, acts, m, wr.lkey)
        <==> !DroppedBetween(rs, acts, m, i, wr.lkey))
      && (!DroppedBetween(rs, acts, m, i, wr.lkey) ==>
            && wr.lkey in rs[i].d.lkeyOffsetMap && wr.lkey in rs[i].d.mrs
            && rs[i].d.mrs[wr.lkey] == rs[m].d.mrs[wr.lkey] && InRegion(rs[i].d.mrs[wr.lkey], wr, o))
  {
    var th := rs[i].threads[acts[i].t];
    m := OffsetLookedUp(rs, acts, i, acts[i].t);
    LookupTranslates(rs, acts, m, acts[i].t, th.req.wr, th.pc.use.offset);
    SameEntryIff(rs, acts, m, i, th.req.wr.lkey);
    assert StepAt(rs, acts, i);
    PostsAppends(rs[i], acts[i]);
  }
}
