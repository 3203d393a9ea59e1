/** What a router holds for its peers: the number of the last message delivered from each, in
    every run of all routers, with teardown and with messages lost and reordered. */
module Deliveries {
  import opened Types
  import opened Sections
  import opened Machine
  import opened World
  import opened Frames

  /** An INSERT leaves its number, a DELETE leaves none, and neither touches other peers. */
  lemma MessageLands(r: Router, m: Packet)
    requires Enabled(r, Receive(m))
    ensures var d, d' := r.d, Next(r, Receive(m)).d;
      && (m.op.Insert? ==> m.src in d'.dstQpMap && d'.dstQpMap[m.src] == m.qpn)
      && (m.op.Delete? ==> m.src !in d'.dstQpMap)
      && (forall s :: s != m.src ==> (s in d'.dstQpMap <==> s in d.dstQpMap))
      && (forall s :: s != m.src && s in d.dstQpMap ==> d'.dstQpMap[s] == d.dstQpMap[s])
      && d' == d.(dstQpMap := d'.dstQpMap) && Next(r, Receive(m)).threads == r.threads
  {
  }

  /** The message an event delivers from `s` to `g`, if it delivers one. */
  function Delivered(w: World, e: Event, s: Gid, g: Gid): Option<Packet> {
    if e.Deliver? && e.i < |w.net| && w.net[e.i].src == s && w.net[e.i].dst == g then Some(w.net[e.i]) else None
  }

  /** The last message that has been delivered from `s` to `g` by state `i`. */
  function LastDelivered(ws: seq<World>, es: seq<Event>, i: nat, s: Gid, g: Gid): Option<Packet>
    requires i < |ws| && |ws| == |es| + 1
  {
    if i == 0 then None
    else
      var m := Delivered(ws[i - 1], es[i - 1], s, g);
      if m.Some? then m else LastDelivered(ws, es, i - 1, s, g)
  }

  lemma HandlersKeepNumbers(r: Router, a: Action)
    requires Enabled(r, a) && !a.Receive?
    ensures Next(r, a).d.dstQpMap == r.d.dstQpMap
  {
    if a.Run? && MoveOf(r.d, r.threads[a.t], a.c).Go? {
      var th := r.threads[a.t];
      if th.req.Modify? { ModifyFrame(r.d, th, a.c); }
      else if th.req.Destroy? { DestroyFrame(r.d, th); }
      else { OtherFrame(r.d, th, a.c); }
    }
  }

  /** What router `g` holds for `s`. */
  function Held(w: World, s: Gid, g: Gid): Option<Qpn> {
    if g in w.routers && s in w.routers[g].d.dstQpMap then Some(w.routers[g].d.dstQpMap[s]) else None
  }

  lemma EventLands(w: World, e: Event, s: Gid, g: Gid)
    requires Happens(w, e) && g in w.routers
    ensures g in Then(w, e).routers
    ensures var m := Delivered(w, e, s, g);
      Held(Then(w, e), s, g) == if m.None? then Held(w, s, g)
                                else if m.value.op.Insert? then Some(m.value.qpn) else None
  {
    match e
    case Local(f, a) => HandlersKeepNumbers(w.routers[f], a);
    case Deliver(i) => MessageLands(w.routers[w.net[i].dst], w.net[i]);
  }

  /** In every run a router holds a number for a peer if and only if the last message delivered
      from that peer was an INSERT, and it is that message's number. */
  lemma {:induction false} HoldsLastDelivered(ws: seq<World>, es: seq<Event>, i: nat, s: Gid, g: Gid)
    requires IsHistory(ws, es) && i < |ws| && g in ws[0].routers
    ensures g in ws[i].routers
    ensures var m := LastDelivered(ws, es, i, s, g);
      && (s in ws[i].routers[g].d.dstQpMap <==> m.Some? && m.value.op.Insert?)
      && (m.Some? && m.value.op.Insert? ==> ws[i].routers[g].d.dstQpMap[s] == m.value.qpn)
  {
    if i == 0 {
      assert Initial(ws[0].routers[g]);
    } else {
      HoldsLastDelivered(ws, es, i - 1, s, g);
      assert HappensAt(ws, es, i - 1);
      EventLands(ws[i - 1], es[i - 1], s, g);
    }
  }
}
