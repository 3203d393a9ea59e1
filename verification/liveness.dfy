/** Building up connections: each side announces its queue pair before it waits for the
    other's, so two sides never wait for each other. */
module Liveness {
  import opened Types
  import opened Sections
  import opened Machine
  import opened References
  import opened Safety
  import opened Locks
  import opened World
  import opened Frames
  import opened Agreement
  import opened Measure

  // ----- announcements -----

  /** The handler has sent its INSERT. */
  predicate Spoke(th: Thread) {
    th.req.Modify? && (th.pc.MSpin? || th.pc.MHost2? || th.pc.MConn? || (th.pc.Done? && th.pc.reply.ModifyRsp?))
  }

  predicate IsInsert(m: Packet, s: Gid, g: Gid) { m.op.Insert? && m.src == s && m.dst == g }

  ghost predicate InFlight(net: seq<Packet>, s: Gid, g: Gid) {
    exists i :: 0 <= i < |net| && IsInsert(net[i], s, g)
  }

  /** Router `g` has the number of `s`, or the message with it is on its way. */
  ghost predicate Announced(w: World, s: Gid, g: Gid) {
    InFlight(w.net, s, g) || (g in w.routers && s in w.routers[g].d.dstQpMap)
  }

  ghost predicate Heard(w: World, s: Gid, t: Tid)
    requires s in w.routers && t in w.routers[s].threads
  {
    Spoke(w.routers[s].threads[t]) ==> Announced(w, s, w.routers[s].threads[t].req.dst)
  }

  ghost predicate AllHeard(w: World) {
    forall s, t :: s in w.routers && t in w.routers[s].threads ==> Heard(w, s, t)
  }

  predicate PlainMessage(w: World, m: Packet) { m.op.Insert? && m.dst in w.routers }

  ghost predicate Calm(w: World) {
    && (forall g :: g in w.routers ==> NoTeardown(w.routers[g]) && FillOk(w.routers[g]))
    && (forall m :: m in w.net ==> PlainMessage(w, m))
    && AllHeard(w)
  }

  lemma DstStays(r: Router, a: Action)
    requires Enabled(r, a) && !a.Receive?
    ensures Next(r, a).d.dstQpMap == r.d.dstQpMap
  {
    if a.Run? {
      var th := r.threads[a.t];
      if MoveOf(r.d, th, a.c).Go? {
        if th.req.Modify? { ModifyFrame(r.d, th, a.c); }
        else if th.req.Destroy? { DestroyFrame(r.d, th); }
        else { OtherFrame(r.d, th, a.c); }
      }
    }
  }

  /** A handler goes past its announcement only by sending it. */
  lemma SpeaksBySending(r: Router, t: Tid, c: Choice)
    requires CanRun(r, t, c) && RequestOk(r.d.gid, r.threads[t])
    requires Spoke(RunStep(r, t, c).threads[t]) && !Spoke(r.threads[t])
    ensures Sends(r.d, r.threads[t], c).Some?
    ensures IsInsert(Sends(r.d, r.threads[t], c).value, r.d.gid, r.threads[t].req.dst)
  {
  }

  lemma ActionSpeaks(r: Router, a: Action, t: Tid)
    requires Inv(r) && Enabled(r, a) && t in Next(r, a).threads && Spoke(Next(r, a).threads[t])
    ensures t in r.threads && Next(r, a).threads[t].req == r.threads[t].req
    ensures Spoke(r.threads[t])
      || (Message(r, a).Some? && IsInsert(Message(r, a).value, r.d.gid, r.threads[t].req.dst))
  {
    if a.Run? && a.t == t && !Spoke(r.threads[t]) {
      assert RequestOk(r.d.gid, r.threads[t]);
      SpeaksBySending(r, t, a.c);
    }
  }

  lemma StillInFlight(net: seq<Packet>, more: seq<Packet>, s: Gid, g: Gid)
    requires InFlight(net, s, g)
    ensures InFlight(net + more, s, g)
  {
    var i :| 0 <= i < |net| && IsInsert(net[i], s, g);
    assert IsInsert((net + more)[i], s, g);
  }

  lemma StillAnnounced(w: World, w': World, more: seq<Packet>, s: Gid, g: Gid)
    requires Announced(w, s, g) && w'.net == w.net + more
    requires g in w.routers ==> g in w'.routers && w'.routers[g].d.dstQpMap == w.routers[g].d.dstQpMap
    ensures Announced(w', s, g)
  {
    if InFlight(w.net, s, g) { StillInFlight(w.net, more, s, g); }
  }

  function Sent(w: World, g: Gid, a: Action): seq<Packet>
    requires Happens(w, Local(g, a))
  {
    if Message(w.routers[g], a).Some? then [Message(w.routers[g], a).value] else []
  }

  /** A step of a router adds its message and leaves the numbers routers hold alone. */
  lemma LocalChanges(w: World, g: Gid, a: Action)
    requires Happens(w, Local(g, a))
    ensures var w' := Then(w, Local(g, a));
      && w'.net == w.net + Sent(w, g, a) && w'.routers == w.routers[g := Next(w.routers[g], a)]
      && w'.routers[g].d.dstQpMap == w.routers[g].d.dstQpMap
  {
    DstStays(w.routers[g], a);
  }

  /** A handler that has spoken by now, at the router that took the step. */
  lemma SpeakerHeard(w: World, g: Gid, a: Action, t: Tid)
    requires WorldOk(w) && AllHeard(w) && Happens(w, Local(g, a))
    requires t in Next(w.routers[g], a).threads && Spoke(Next(w.routers[g], a).threads[t])
    ensures var s := Next(w.routers[g], a).threads[t].req.dst;
      Announced(w, g, s) || (Sent(w, g, a) != [] && IsInsert(Sent(w, g, a)[0], g, s))
  {
    assert RouterOk(w, g);
    ActionSpeaks(w.routers[g], a, t);
    if Spoke(w.routers[g].threads[t]) { assert Heard(w, g, t); }
  }

  lemma LocalHeard(w: World, g: Gid, a: Action, s: Gid, t: Tid)
    requires WorldOk(w) && AllHeard(w) && Happens(w, Local(g, a))
    requires s in w.routers && t in Then(w, Local(g, a)).routers[s].threads
    ensures Heard(Then(w, Local(g, a)), s, t)
  {
    var w' := Then(w, Local(g, a));
    LocalChanges(w, g, a);
    var th := w'.routers[s].threads[t];
    if Spoke(th) {
      if s == g { SpeakerHeard(w, g, a, t); } else { assert Heard(w, s, t); }
      if Announced(w, s, th.req.dst) { StillAnnounced(w, w', Sent(w, g, a), s, th.req.dst); }
      else { assert IsInsert(w'.net[|w.net|], s, th.req.dst); }
    }
  }

  lemma DeliveryHeard(w: World, i: nat, s: Gid, t: Tid)
    requires Calm(w) && Happens(w, Deliver(i)) && s in w.routers && t in w.routers[s].threads
    ensures Heard(Then(w, Deliver(i)), s, t)
  {
    var m, w' := w.net[i], Then(w, Deliver(i));
    assert PlainMessage(w, m);
    var th := w.routers[s].threads[t];
    assert w'.routers[s].threads == w.routers[s].threads;
    if Spoke(th) {
      assert Heard(w, s, t);
      var g := th.req.dst;
      if InFlight(w.net, s, g) {
        var j :| 0 <= j < |w.net| && IsInsert(w.net[j], s, g);
        if j != i { assert IsInsert(w'.net[if j < i then j else j - 1], s, g); }
      }
    }
  }

  lemma ThenHeard(w: World, e: Event)
    requires WorldOk(w) && Calm(w) && Happens(w, e)
    ensures AllHeard(Then(w, e))
  {
    var w' := Then(w, e);
    forall s, t | s in w'.routers && t in w'.routers[s].threads ensures Heard(w', s, t) {
      if e.Local? { LocalHeard(w, e.g, e.a, s, t); } else { DeliveryHeard(w, e.i, s, t); }
    }
  }

  /** The action an event is for the router it happens at. */
  function Where(w: World, e: Event): Gid
    requires Happens(w, e)
  {
    if e.Local? then e.g else w.net[e.i].dst
  }

  function What(w: World, e: Event): Action
    requires Happens(w, e)
  {
    if e.Local? then e.a else Receive(w.net[e.i])
  }

  lemma ThenAt(w: World, e: Event)
    requires Happens(w, e)
    ensures Where(w, e) in w.routers && Enabled(w.routers[Where(w, e)], What(w, e))
    ensures Then(w, e).routers == w.routers[Where(w, e) := Next(w.routers[Where(w, e)], What(w, e))]
    ensures forall m :: m in Then(w, e).net ==>
              m in w.net || (e.Local? && Message(w.routers[e.g], e.a) == Some(m) && m.dst in w.routers)
  {
  }

  lemma ThenCalm(w: World, e: Event)
    requires WorldOk(w) && Calm(w) && Happens(w, e) && BuildsUp(e) && WorldOk(Then(w, e))
    ensures Calm(Then(w, e))
  {
    ThenAt(w, e);
    ThenHeard(w, e);
    var g, a, w' := Where(w, e), What(w, e), Then(w, e);
    assert RouterOk(w, g) && RouterOk(w', g);
    StepFills(w.routers[g], a);
    LocalQuiet(w.routers[g], a);
    forall m | m in w'.net ensures PlainMessage(w', m) {
      if m in w.net { assert PlainMessage(w, m); }
    }
  }

  /** Without handlers of IBV_DESTROY_QP only INSERTs are sent. */
  lemma LocalQuiet(r: Router, a: Action)
    requires Enabled(r, a) && NoTeardown(r) && !(a.Start? && a.req.Destroy?)
    ensures NoTeardown(Next(r, a))
    ensures Message(r, a).Some? ==> Message(r, a).value.op.Insert?
  {
    if a.Run? { assert !r.threads[a.t].req.Destroy?; }
  }

  lemma CalmNext(ws: seq<World>, es: seq<Event>, i: nat)
    requires IsBuildUp(ws, es) && i < |es| && Calm(ws[i])
    ensures Calm(ws[i + 1])
  {
    HistoryOk(ws, es, i);
    HistoryOk(ws, es, i + 1);
    assert HappensAt(ws, es, i) && BuildsUp(es[i]);
    ThenCalm(ws[i], es[i]);
  }

  lemma {:induction false} HistoryCalm(ws: seq<World>, es: seq<Event>, i: nat)
    requires IsBuildUp(ws, es) && i < |ws|
    ensures Calm(ws[i])
  {
    if i == 0 {
      assert forall g :: g in ws[0].routers ==> Initial(ws[0].routers[g]);
    } else {
      HistoryCalm(ws, es, i - 1);
      CalmNext(ws, es, i - 1);
    }
  }

  /** No mutual waiting. Handlers for the two directions of a host pair are both in the loop
      and no message of the pair is in flight: each will find the number it waits for, and it
      is the number of the other side's queue pair. */
  lemma NoMutualWaiting(ws: seq<World>, es: seq<Event>, i: nat, g: Gid, t: Tid, s: Gid, u: Tid)
    requires IsBuildUp(ws, es) && i < |ws|
    requires g in ws[i].routers && t in ws[i].routers[g].threads && s in ws[i].routers && u in ws[i].routers[s].threads
    requires ws[i].routers[g].threads[t].pc.MSpin? && ws[i].routers[g].threads[t].req.Modify?
    requires ws[i].routers[g].threads[t].req.dst == s
    requires ws[i].routers[s].threads[u].pc.MSpin? && ws[i].routers[s].threads[u].req.Modify?
    requires ws[i].routers[s].threads[u].req.dst == g
    requires !InFlight(ws[i].net, s, g) && !InFlight(ws[i].net, g, s)
    ensures var here, there := ws[i].routers[g].d, ws[i].routers[s].d;
      && s in here.dstQpMap && Owns(there, HostKey(s, g), here.dstQpMap[s])
      && g in there.dstQpMap && Owns(here, HostKey(g, s), there.dstQpMap[g])
      && LeavesLoop(here, ws[i].routers[g].threads[t]) && LeavesLoop(there, ws[i].routers[s].threads[u])
  {
    HistoryCalm(ws, es, i);
    assert Heard(ws[i], g, t) && Heard(ws[i], s, u);
    PeerNumbersAgree(ws, es, i, g, s);
    PeerNumbersAgree(ws, es, i, s, g);
  }
}
