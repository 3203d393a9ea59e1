/** The branches that leave the host_map section without unlocking: an IBV_DESTROY_QP that overlaps
    the IBV_MODIFY_QP of its handle can bring a router to a state in which host_map is locked for good. */
module Stuck {
  import opened Types
  import opened Sections
  import opened Machine
  import opened References
  import opened Requests
  import opened Scenarios
  import opened Alone
  import Lost

  /** A handler that has ended still holds the mutex of host_map. */
  predicate IsStuck(r: Router, t: Tid) {
    HostMapM in r.owner && r.owner[HostMapM] == t && t in r.threads && r.threads[t].pc.Done?
  }

  /** The handler waits to enter a section of host_map. */
  predicate WaitsForHosts(r: Router, u: Tid) {
    u in r.threads && Wants(r.threads[u].pc) == Some(HostMapM) && !r.threads[u].inside
  }

  lemma StuckStays(r: Router, a: Action, t: Tid)
    requires LocksOk(r) && Enabled(r, a) && IsStuck(r, t)
    ensures IsStuck(Next(r, a), t)
    ensures forall u :: WaitsForHosts(r, u) ==> WaitsForHosts(Next(r, a), u) && Next(r, a).threads[u] == r.threads[u]
  {
    if a.Run? { assert HoldingOk(r, a.t); }
  }

  /** From then on no handler gets into a section of host_map: one that waits for it waits for ever,
      whatever clients, device and peers do. */
  lemma {:induction false} StuckForGood(rs: seq<Router>, acts: seq<Action>, i: nat, j: nat, t: Tid, u: Tid)
    requires IsRun(rs, acts) && i <= j < |rs| && IsStuck(rs[i], t) && WaitsForHosts(rs[i], u)
    requires forall k {:trigger Fits(rs[k])} :: 0 <= k < |rs| ==> Fits(rs[k])
    ensures IsStuck(rs[j], t) && WaitsForHosts(rs[j], u) && rs[j].threads[u] == rs[i].threads[u]
    decreases j
  {
    if i < j {
      StuckForGood(rs, acts, i, j - 1, t, u);
      RunKeeps(rs, acts, j - 1);
      assert StepAt(rs, acts, j - 1);
      StuckStays(rs[j - 1], acts[j - 1], t);
    }
  }

  /** The second lookup of an IBV_MODIFY_QP whose key is gone ends the handler with the mutex held. */
  lemma LeavesLocked(r: Router, t: Tid, c: Choice)
    requires CanRun(r, t, c) && HoldingOk(r, t) && r.threads[t].req.Modify? && r.threads[t].pc.MHost2?
    ensures IsStuck(RunStep(r, t, c), t) <==> !LookupHost(r.d, r.threads[t].key).Found?
  {
  }

  // ----- the input -----

  /** The handler has told the peer and waits, its handle mapped to the only connection. */
  lemma Waits(gid: Gid, dst: Gid, h: Handle, pid: int) returns (acts: seq<Action>, r': Router)
    ensures Reaches(Lost.FirstRouter(gid), acts, r') && r'.owner == map[]
    ensures r'.threads.Keys == {0} && r'.threads[0].req == Modify(h, dst, pid) && r'.threads[0].pc.MSpin?
    ensures r'.threads[0].key == HostKey(gid, dst) && !r'.threads[0].inside
    ensures r'.d.srcQpMap == map[h := HostKey(gid, dst)] && r'.d.hostMap == map[HostKey(gid, dst) := 1]
    ensures r'.d.gid == gid && r'.d.conns.Keys == {1} && HasQp(r'.d, 1)
    ensures r'.d.conns[1].key == HostKey(gid, dst) && r'.d.conns[1].refCnt == 1
  {
    var r0 := Lost.FirstRouter(gid);
    var d', th', outcome;
    acts, d', th', outcome := ModifyAlone(r0, 0, h, dst, pid, Choice(1, 1, 0, 3, true));
    r' := With(r0, d', 0, th');
  }

  /** The handle is destroyed meanwhile, and the peer's number arrives. */
  lemma LosesKey(r: Router, h: Handle, gid: Gid, dst: Gid) returns (acts: seq<Action>, r': Router)
    requires r.owner == map[] && r.threads.Keys == {0} && r.d.gid == gid && r.d.hostMap == map[HostKey(gid, dst) := 1]
    requires r.d.srcQpMap == map[h := HostKey(gid, dst)] && r.d.conns.Keys == {1} && HasQp(r.d, 1)
    requires r.d.conns[1].key == HostKey(gid, dst) && r.d.conns[1].refCnt == 1
    ensures Reaches(r, acts, r') && r'.owner == map[] && r'.threads.Keys == {0, 1} && r'.threads[0] == r.threads[0]
    ensures r'.threads[1].req == Destroy(h, dst) && r'.threads[1].pc == Done(DestroyRsp(true))
    ensures r'.d.hostMap == map[] && dst in r'.d.dstQpMap
  {
    var d', th';
    acts, d', th' := DestroyAlone(r, 1, h, dst);
    var r1, m := With(r, d', 1, th'), Packet(Insert, dst, gid, 7);
    r' := RecvStep(r1, m);
    ReachesOne(r1, Receive(m));
    ReachesJoin(r, acts, r1, [Receive(m)], r');
    acts := acts + [Receive(m)];
  }

  /** The handler leaves the loop, does not find its key, and is gone with the mutex. */
  lemma Abandons(r: Router) returns (acts: seq<Action>, r': Router)
    requires r.owner == map[] && 0 in r.threads && r.threads[0].req.Modify? && r.threads[0].pc.MSpin?
    requires !r.threads[0].inside && r.d.hostMap == map[] && r.threads[0].req.dst in r.d.dstQpMap
    ensures Reaches(r, acts, r') && IsStuck(r', 0) && r'.threads[0].pc == Done(Killed)
    ensures r'.threads == r.threads[0 := r'.threads[0]] && r'.threads[0].req == r.threads[0].req
  {
    var th, c := r.threads[0], AnyChoice();
    var th1 := th.(pc := MHost2(r.d.dstQpMap[th.req.dst]));
    assert With(r, r.d, 0, th) == r;
    GoesThrough(r, r.d, 0, th, c);
    Enters(r, r.d, 0, th1);
    var r1, r2 := With(r, r.d, 0, th1), Inside(r, r.d, 0, th1);
    r' := Next(r2, Run(0, c));
    ReachesOne(r1, Lock(0));
    ReachesOne(r2, Run(0, c));
    ReachesTwice(r, SectionActs(0, c), r1, [Lock(0)], r2, [Run(0, c)], r');
    acts := SectionActs(0, c) + [Lock(0)] + [Run(0, c)];
  }

  /** A run of a new router: an IBV_MODIFY_QP has told its peer and waits, its handle is destroyed
      with success, the peer's number arrives, and the router is stuck. */
  lemma OverlapLocks(gid: Gid, dst: Gid, h: Handle, pid: int) returns (rs: seq<Router>, acts: seq<Action>)
    ensures IsRun(rs, acts)
    ensures var r := rs[|acts|];
      && IsStuck(r, 0) && r.threads.Keys == {0, 1}
      && r.threads[0].req == Modify(h, dst, pid) && r.threads[0].pc == Done(Killed)
      && r.threads[1].req == Destroy(h, dst) && r.threads[1].pc == Done(DestroyRsp(true))
  {
    var r0 := Lost.FirstRouter(gid);
    var a1, r1 := Waits(gid, dst, h, pid);
    var a2, r2 := LosesKey(r1, h, gid, dst);
    var a3, r3 := Abandons(r2);
    ReachesTwice(r0, a1, r1, a2, r2, a3, r3);
    acts := a1 + a2 + a3;
    rs := ReachesRun([r0], [], acts, r3);
    assert [] + acts == acts;
  }
}
