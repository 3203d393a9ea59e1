/** Any number of routers, one per gid, and the messages in flight between them. */
module World {
  import opened Types
  import opened Sections
  import opened Machine
  import opened References
  import opened Safety
  import opened Frames

  /** `net` lists the messages in flight in the order they were sent; `sent` is the
      history of all messages. */
  datatype World = World(routers: map<Gid, Router>, net: seq<Packet>, sent: set<Packet>)

  datatype Event = Local(g: Gid, a: Action) | Deliver(i: nat)

  /** The message an action of a router sends, if any. */
  function Message(r: Router, a: Action): Option<Packet>
    requires Enabled(r, a)
  {
    if a.Run? then Sends(r.d, r.threads[a.t], a.c) else None
  }

  predicate Happens(w: World, e: Event) {
    match e
    case Local(g, a) =>
      && g in w.routers && !a.Receive? && Enabled(w.routers[g], a)
      && (Message(w.routers[g], a).Some? ==> Message(w.routers[g], a).value.dst in w.routers)
    case Deliver(i) => i < |w.net| && w.net[i].dst in w.routers && DstQpM !in w.routers[w.net[i].dst].owner
  }

  function Post(w: World, m: Option<Packet>): World {
    if m.None? then w else w.(net := w.net + [m.value], sent := w.sent + {m.value})
  }

  function Update(w: World, g: Gid, r: Router): World {
    w.(routers := w.routers[g := r])
  }

  function Then(w: World, e: Event): World
    requires Happens(w, e)
  {
    match e
    case Local(g, a) => Post(Update(w, g, Next(w.routers[g], a)), Message(w.routers[g], a))
    case Deliver(i) =>
      var m := w.net[i];
      Update(w.(net := w.net[..i] + w.net[i + 1..]), m.dst, RecvStep(w.routers[m.dst], m))
  }

  /** The premise on clients: one request per handle. */
  ghost predicate Fair(w: World, e: Event) {
    e.Local? && e.g in w.routers ==> Polite(w.routers[e.g], e.a)
  }

  ghost predicate Begins(w: World) {
    && w.net == [] && w.sent == {}
    && forall g :: g in w.routers ==> Initial(w.routers[g]) && w.routers[g].d.gid == g
  }

  ghost predicate AllFit(w: World) {
    forall g :: g in w.routers ==> Fits(w.routers[g])
  }

  ghost predicate HappensAt(ws: seq<World>, es: seq<Event>, i: nat)
    requires i < |es| && |ws| == |es| + 1
  {
    Happens(ws[i], es[i]) && ws[i + 1] == Then(ws[i], es[i])
  }

  /** A run of all routers. */
  ghost predicate IsHistory(ws: seq<World>, es: seq<Event>) {
    && |ws| == |es| + 1 && Begins(ws[0])
    && (forall i {:trigger AllFit(ws[i])} :: 0 <= i < |ws| ==> AllFit(ws[i]))
    && (forall i {:trigger Fair(ws[i], es[i])} :: 0 <= i < |es| ==> Fair(ws[i], es[i]))
    && (forall i :: 0 <= i < |es| ==> HappensAt(ws, es, i))
  }

  ghost predicate RouterOk(w: World, g: Gid)
    requires g in w.routers
  {
    w.routers[g].d.gid == g && Inv(w.routers[g]) && Safe(w.routers[g])
  }

  ghost predicate WorldOk(w: World) {
    forall g :: g in w.routers ==> RouterOk(w, g)
  }

  lemma GidStays(r: Router, a: Action)
    requires Enabled(r, a)
    ensures Next(r, a).d.gid == r.d.gid
  {
    if a.Run? {
      var th := r.threads[a.t];
      if MoveOf(r.d, th, a.c).Go? {
        if th.req.Modify? { ModifyFrame(r.d, th, a.c); }
        else if th.req.Destroy? { DestroyFrame(r.d, th); }
        else { OtherFrame(r.d, th, a.c); }
      }
    }
  }

  lemma ThenOk(w: World, e: Event)
    requires WorldOk(w) && Happens(w, e) && Fair(w, e) && AllFit(w) && AllFit(Then(w, e))
    ensures WorldOk(Then(w, e))
  {
    var g, a := if e.Local? then e.g else w.net[e.i].dst, if e.Local? then e.a else Receive(w.net[e.i]);
    var r := w.routers[g];
    assert RouterOk(w, g);
    assert Then(w, e).routers == w.routers[g := Next(r, a)];
    assert Fits(r) && Fits(Then(w, e).routers[g]);
    StepKeeps(r, a);
    StepSafe(r, a);
    GidStays(r, a);
    forall f | f in Then(w, e).routers ensures RouterOk(Then(w, e), f) {
      if f != g { assert RouterOk(w, f); }
    }
  }

  lemma BeginsOk(w: World)
    requires Begins(w)
    ensures WorldOk(w)
  {
    forall g | g in w.routers ensures RouterOk(w, g) { InitialOk(w.routers[g]); }
  }

  lemma OkNext(ws: seq<World>, es: seq<Event>, i: nat)
    requires IsHistory(ws, es) && i < |es| && WorldOk(ws[i])
    ensures WorldOk(ws[i + 1]) && ws[i + 1].routers.Keys == ws[i].routers.Keys
  {
    assert HappensAt(ws, es, i) && Fair(ws[i], es[i]) && AllFit(ws[i]) && AllFit(ws[i + 1]);
    ThenOk(ws[i], es[i]);
    SameRouters(ws[i], es[i]);
  }

  lemma SameRouters(w: World, e: Event)
    requires Happens(w, e)
    ensures Then(w, e).routers.Keys == w.routers.Keys
  {
  }

  lemma {:induction false} HistoryOk(ws: seq<World>, es: seq<Event>, i: nat)
    requires IsHistory(ws, es) && i < |ws|
    ensures WorldOk(ws[i]) && ws[i].routers.Keys == ws[0].routers.Keys
  {
    if i == 0 {
      BeginsOk(ws[0]);
    } else {
      HistoryOk(ws, es, i - 1);
      OkNext(ws, es, i - 1);
    }
  }

  lemma InitialOk(r: Router)
    requires Initial(r)
    ensures Inv(r) && Safe(r)
  {
    forall k ensures RefOk(r, k) {
      assert Handles(r.d, k) == {} && ModifyGap(r.threads, k) == {} && DestroyGap(r.threads, k) == {};
    }
  }
}
