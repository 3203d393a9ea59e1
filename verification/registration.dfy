/** Registration of memory and translation of addresses, in every interleaving of
    IBV_REG_MR, IBV_DEREG_MR and the posts that look offsets up. */
module Registration {
  import opened Types
  import opened Sections
  import opened Machine
  import opened Frames

  // ----- the arithmetic of one region -----

  /** `(uintptr_t) client_addr + offset` with the stored 64-bit difference. */
  lemma TranslateExact(routerAddr: nat, clientAddr: nat, d: nat)
    requires routerAddr + d < TWO_64
    ensures Translate((clientAddr + d) % TWO_64, Offset(routerAddr, clientAddr)) == routerAddr + d
  {
    var off := Offset(routerAddr, clientAddr);
    var diff := routerAddr - clientAddr;
    assert off == diff % TWO_64 || off == diff % TWO_64 - TWO_64;
    var m := (clientAddr + d) / TWO_64;
    var n := diff / TWO_64;
    assert (clientAddr + d) % TWO_64 == clientAddr + d - m * TWO_64;
    assert diff % TWO_64 == diff - n * TWO_64;
    var wraps := if off == diff % TWO_64 then m + n else m + n + 1;
    assert (clientAddr + d) % TWO_64 + off == routerAddr + d - wraps * TWO_64;
    ModAbsorbs(routerAddr + d, wraps);
  }

  lemma ModAbsorbs(x: nat, k: int)
    requires x < TWO_64
    ensures (x - k * TWO_64) % TWO_64 == x
  {
    var y := x - k * TWO_64;
    assert y == (y / TWO_64) * TWO_64 + y % TWO_64;
    assert (y / TWO_64 + k) * TWO_64 + y % TWO_64 == x;
  }

  // ----- the invariant -----

  /** A handler between the registration and the section that stores its offset. */
  predicate Registering(th: Thread) { th.req.RegMr? && th.pc.RegLkey? }

  /** A handler between the section that drops the offset and the deregistration. */
  predicate Deregistering(th: Thread) { th.req.DeregMr? && th.pc.DeHw? }

  function LkeyOf(th: Thread): Lkey
    requires Registering(th) || Deregistering(th)
  {
    if th.req.DeregMr? then th.req.lkey else th.pc.lkey
  }

  /** Every stored offset is that of a live region. */
  ghost predicate OffsetsOk(d: Shared) {
    forall l :: l in d.lkeyOffsetMap ==>
      l in d.mrs && d.lkeyOffsetMap[l] == Offset(d.mrs[l].routerAddr, d.mrs[l].clientAddr)
  }

  ghost predicate SizesOk(d: Shared) {
    forall l :: l in d.mrs ==> d.mrs[l].size > 0 && d.mrs[l].routerAddr + d.mrs[l].size <= TWO_64
  }

  /** Regions do not overlap in the router. */
  ghost predicate RegionsApart(d: Shared) {
    forall l, m :: l in d.mrs && m in d.mrs && l != m ==>
      Disjoint(d.mrs[l].routerAddr, d.mrs[l].size, d.mrs[m].routerAddr, d.mrs[m].size)
  }

  /** The region a handler registers is the one its client asked for. */
  predicate AsAsked(req: Request, region: Region) {
    req.RegMr? && region.pid == req.pid && region.clientAddr == req.clientAddr && region.size == AsInt32(req.length)
  }

  ghost predicate BusyOk(d: Shared, th: Thread) {
    Registering(th) || Deregistering(th) ==>
      && LkeyOf(th) in d.mrs && LkeyOf(th) !in d.lkeyOffsetMap
      && (Registering(th) ==> d.mrs[LkeyOf(th)] == th.pc.region && AsAsked(th.req, th.pc.region))
  }

  ghost predicate AllBusyOk(r: Router) {
    forall t :: t in r.threads ==> BusyOk(r.d, r.threads[t])
  }

  predicate Busy(th: Thread) { Registering(th) || Deregistering(th) }

  /** No two handlers work on one lkey. */
  ghost predicate BusyApart(r: Router) {
    forall t, u :: t in r.threads && u in r.threads && t != u && Busy(r.threads[t]) && Busy(r.threads[u])
      ==> LkeyOf(r.threads[t]) != LkeyOf(r.threads[u])
  }

  ghost predicate LkeysOk(r: Router) {
    OffsetsOk(r.d) && SizesOk(r.d) && RegionsApart(r.d) && AllBusyOk(r) && BusyApart(r)
  }

  // ----- every step -----

  /** The handler of a registration has the device register the region. */
  predicate Registers(r: Router, t: Tid, c: Choice) {
    t in r.threads && r.threads[t].req.RegMr? && r.threads[t].pc.RegShm? && CanRun(r, t, c)
      && RegMove(r.d, r.threads[t], c).pc.RegLkey?
  }

  lemma RegistersRegion(r: Router, t: Tid, c: Choice)
    requires Registers(r, t, c)
    ensures var th, r' := r.threads[t], RunStep(r, t, c);
      var region := Region(th.req.pid, th.req.clientAddr, c.ptr, AsInt32(th.req.length));
      && c.lkey !in r.d.mrs && region.size > 0 && c.ptr + region.size <= TWO_64
      && (forall l :: l in r.d.mrs ==> Disjoint(c.ptr, region.size, r.d.mrs[l].routerAddr, r.d.mrs[l].size))
      && r'.d == r.d.(mrs := r.d.mrs[c.lkey := region])
      && r'.threads == r.threads[t := Thread(th.req, th.key, RegLkey(c.lkey, region), false)]
  {
  }

  lemma RegistersKeeps(r: Router, t: Tid, c: Choice)
    requires LkeysOk(r) && Registers(r, t, c)
    ensures LkeysOk(RunStep(r, t, c))
  {
    var r' := RunStep(r, t, c);
    RegistersRegion(r, t, c);
    assert OffsetsOk(r'.d) && SizesOk(r'.d) && RegionsApart(r'.d);
    forall u | u in r'.threads ensures BusyOk(r'.d, r'.threads[u]) {
      if u != t { assert BusyOk(r.d, r.threads[u]); }
    }
    NewLkeyApart(r, r', t);
  }

  lemma NewLkeyApart(r: Router, r': Router, t: Tid)
    requires BusyApart(r) && AllBusyOk(r) && t in r'.threads && r'.threads == r.threads[t := r'.threads[t]]
    requires Busy(r'.threads[t]) ==>
      || LkeyOf(r'.threads[t]) !in r.d.mrs
      || (t in r.threads && Busy(r.threads[t]) && LkeyOf(r.threads[t]) == LkeyOf(r'.threads[t]))
    ensures BusyApart(r')
  {
    forall u | u in r.threads ensures BusyOk(r.d, r.threads[u]) { }
  }

  /** The handler of a registration stores the offset. */
  predicate Stores(r: Router, a: Action, l: Lkey) {
    && a.Run? && a.t in r.threads && CanRun(r, a.t, a.c)
    && Registering(r.threads[a.t]) && r.threads[a.t].pc.lkey == l
  }

  /** The handler of a deregistration drops it. */
  predicate Drops(r: Router, a: Action, l: Lkey) {
    a.Run? && a.t in r.threads && r.threads[a.t].req == DeregMr(l) && r.threads[a.t].pc.DeLkey?
  }

  lemma StoresKeeps(r: Router, t: Tid, c: Choice)
    requires LkeysOk(r) && CanRun(r, t, c) && Registering(r.threads[t])
    ensures LkeysOk(RunStep(r, t, c))
  {
    var r' := RunStep(r, t, c);
    assert BusyOk(r.d, r.threads[t]);
    assert OffsetsOk(r'.d) && r'.d.mrs == r.d.mrs;
    forall u | u in r'.threads ensures BusyOk(r'.d, r'.threads[u]) {
      if u != t { assert BusyOk(r.d, r.threads[u]); }
    }
    NewLkeyApart(r, r', t);
  }

  lemma DropsKeeps(r: Router, t: Tid, c: Choice)
    requires LkeysOk(r) && CanRun(r, t, c) && r.threads[t].req.DeregMr? && r.threads[t].pc.DeLkey?
    ensures LkeysOk(RunStep(r, t, c))
  {
    var r' := RunStep(r, t, c);
    assert BusyOk(r.d, r.threads[t]);
    forall u | u in r'.threads ensures BusyOk(r'.d, r'.threads[u]) {
      if u != t { assert BusyOk(r.d, r.threads[u]); }
    }
    DroppedApart(r, t, c);
  }

  /** A stored lkey is nobody's until it is dropped. */
  lemma DroppedApart(r: Router, t: Tid, c: Choice)
    requires LkeysOk(r) && CanRun(r, t, c) && r.threads[t].req.DeregMr? && r.threads[t].pc.DeLkey?
    ensures BusyApart(RunStep(r, t, c))
  {
    forall u | u in r.threads ensures BusyOk(r.d, r.threads[u]) { }
  }

  lemma ReleasesKeeps(r: Router, t: Tid, c: Choice)
    requires LkeysOk(r) && CanRun(r, t, c) && Deregistering(r.threads[t])
    ensures LkeysOk(RunStep(r, t, c))
  {
    var r' := RunStep(r, t, c);
    assert BusyOk(r.d, r.threads[t]);
    forall u | u in r'.threads ensures BusyOk(r'.d, r'.threads[u]) {
      if u != t { assert BusyOk(r.d, r.threads[u]); }
    }
    NewLkeyApart(r, r', t);
  }

  /** A step that leaves the maps alone and starts no registration. */
  lemma QuietMemory(r: Router, r': Router, t: Tid)
    requires LkeysOk(r) && r'.d.mrs == r.d.mrs && r'.d.lkeyOffsetMap == r.d.lkeyOffsetMap
    requires t in r'.threads && r'.threads == r.threads[t := r'.threads[t]]
    requires Busy(r'.threads[t]) ==>
      t in r.threads && r.threads[t].req == r'.threads[t].req && r.threads[t].pc == r'.threads[t].pc
    ensures LkeysOk(r')
  {
    forall u | u in r'.threads ensures BusyOk(r'.d, r'.threads[u]) {
      if u in r.threads { assert BusyOk(r.d, r.threads[u]); }
    }
    NewLkeyApart(r, r', t);
  }

  lemma SameMemory(r: Router, r': Router)
    requires LkeysOk(r) && r'.threads == r.threads && r'.d.mrs == r.d.mrs && r'.d.lkeyOffsetMap == r.d.lkeyOffsetMap
    ensures LkeysOk(r')
  {
    forall u | u in r'.threads ensures BusyOk(r'.d, r'.threads[u]) { assert BusyOk(r.d, r.threads[u]); }
  }

  lemma StepKeepsLkeys(r: Router, a: Action)
    requires LkeysOk(r) && Enabled(r, a)
    ensures LkeysOk(Next(r, a))
  {
    match a
    case Start(t, req) => QuietMemory(r, Next(r, a), t);
    case Lock(t) => QuietMemory(r, Next(r, a), t);
    case Run(t, c) => RunKeepsLkeys(r, t, c);
    case Hardware(p, kind, ok) => SameMemory(r, Next(r, a));
    case Receive(m) => SameMemory(r, Next(r, a));
  }

  /** Requests other than IBV_REG_MR and IBV_DEREG_MR leave regions and offsets alone. */
  lemma OthersLeave(d: Shared, th: Thread, c: Choice)
    requires !th.req.RegMr? && !th.req.DeregMr? && MoveOf(d, th, c).Go?
    ensures MoveOf(d, th, c).d.mrs == d.mrs && MoveOf(d, th, c).d.lkeyOffsetMap == d.lkeyOffsetMap
  {
    if th.req.Modify? { ModifyFrame(d, th, c); }
    else if th.req.Destroy? { DestroyFrame(d, th); }
    else { UseFrame(d, th, c); }
  }

  lemma RunKeepsLkeys(r: Router, t: Tid, c: Choice)
    requires LkeysOk(r) && CanRun(r, t, c)
    ensures LkeysOk(RunStep(r, t, c))
  {
    var th := r.threads[t];
    if Registers(r, t, c) { RegistersKeeps(r, t, c); }
    else if Registering(th) { StoresKeeps(r, t, c); }
    else if th.req.DeregMr? && th.pc.DeLkey? { DropsKeeps(r, t, c); }
    else if Deregistering(th) { ReleasesKeeps(r, t, c); }
    else {
      if MoveOf(r.d, th, c).Go? && !th.req.RegMr? && !th.req.DeregMr? { OthersLeave(r.d, th, c); }
      QuietMemory(r, RunStep(r, t, c), t);
    }
  }

  // ----- every run -----

  lemma {:induction false} RunKeepsRegions(rs: seq<Router>, acts: seq<Action>, i: nat)
    requires IsRun(rs, acts) && i < |rs|
    ensures LkeysOk(rs[i])
  {
    if i > 0 {
      RunKeepsRegions(rs, acts, i - 1);
      assert StepAt(rs, acts, i - 1);
      StepKeepsLkeys(rs[i - 1], acts[i - 1]);
    }
  }

  // ----- which registration an entry is of -----

  /** The step that stored the entry of `l`, or -1 if there is none. */
  ghost function StoredAt(rs: seq<Router>, acts: seq<Action>, i: nat, l: Lkey): int
    requires |rs| == |acts| + 1 && i < |rs|
  {
    if i == 0 then -1
    else if Stores(rs[i - 1], acts[i - 1], l) then i - 1
    else if Drops(rs[i - 1], acts[i - 1], l) then -1
    else StoredAt(rs, acts, i - 1, l)
  }

  /** What a step may do to the entry of `l`. */
  ghost predicate EntryStep(r: Router, a: Action, r': Router, l: Lkey) {
    var d, d' := r.d, r'.d;
    if Stores(r, a, l) then
      var region := r.threads[a.t].pc.region;
      && l !in d.lkeyOffsetMap && l in d'.lkeyOffsetMap && l in d'.mrs && d'.mrs[l] == region
      && d'.lkeyOffsetMap[l] == Offset(region.routerAddr, region.clientAddr)
      && a.t in r'.threads && r'.threads[a.t].pc == Done(RegMrRsp(l, region.routerAddr))
    else if Drops(r, a, l) then l !in d'.lkeyOffsetMap
    else
      && (l in d'.lkeyOffsetMap <==> l in d.lkeyOffsetMap)
      && (l in d.lkeyOffsetMap ==>
            d'.lkeyOffsetMap[l] == d.lkeyOffsetMap[l] && l in d'.mrs && l in d.mrs && d'.mrs[l] == d.mrs[l])
  }

  lemma RegEntry(r: Router, t: Tid, c: Choice, l: Lkey)
    requires LkeysOk(r) && CanRun(r, t, c) && r.threads[t].req.RegMr?
    ensures EntryStep(r, Run(t, c), RunStep(r, t, c), l)
  {
    assert BusyOk(r.d, r.threads[t]);
    if Registers(r, t, c) { RegistersRegion(r, t, c); }
  }

  lemma DeregData(r: Router, t: Tid, c: Choice)
    requires CanRun(r, t, c) && r.threads[t].req.DeregMr?
    ensures var th, d, d' := r.threads[t], r.d, RunStep(r, t, c).d;
      d' == if th.pc.DeLkey? then d.(lkeyOffsetMap := d.lkeyOffsetMap - {th.req.lkey})
            else if th.pc.DeHw? then d.(mrs := d.mrs - {th.req.lkey}) else d
  {
    var th, d := r.threads[t], r.d;
    if th.pc.DeLkey? && th.req.lkey !in d.lkeyOffsetMap {
      assert d.lkeyOffsetMap - {th.req.lkey} == d.lkeyOffsetMap;
    }
  }

  lemma DeregEntry(r: Router, t: Tid, c: Choice, l: Lkey)
    requires LkeysOk(r) && CanRun(r, t, c) && r.threads[t].req.DeregMr?
    ensures EntryStep(r, Run(t, c), RunStep(r, t, c), l)
  {
    DeregData(r, t, c);
    assert OffsetsOk(r.d) && BusyOk(r.d, r.threads[t]);
  }

  lemma OtherEntry(r: Router, t: Tid, c: Choice, l: Lkey)
    requires LkeysOk(r) && CanRun(r, t, c) && !r.threads[t].req.RegMr? && !r.threads[t].req.DeregMr?
    ensures EntryStep(r, Run(t, c), RunStep(r, t, c), l)
  {
    if MoveOf(r.d, r.threads[t], c).Go? { OthersLeave(r.d, r.threads[t], c); }
  }

  lemma EntryNext(r: Router, a: Action, l: Lkey)
    requires LkeysOk(r) && Enabled(r, a)
    ensures EntryStep(r, a, Next(r, a), l)
  {
    if a.Run? {
      if r.threads[a.t].req.RegMr? { RegEntry(r, a.t, a.c, l); }
      else if r.threads[a.t].req.DeregMr? { DeregEntry(r, a.t, a.c, l); }
      else { OtherEntry(r, a.t, a.c, l); }
    }
  }

  /** The entry of `l` is there exactly if its storing step is, and is that step's. */
  ghost predicate EntryOf(rs: seq<Router>, acts: seq<Action>, i: nat, l: Lkey)
    requires |rs| == |acts| + 1 && i < |rs|
  {
    var b, d := StoredAt(rs, acts, i, l), rs[i].d;
    && (l in d.lkeyOffsetMap <==> b >= 0)
    && (b >= 0 ==> b < i && Stores(rs[b], acts[b], l) && l in d.mrs && d.mrs[l] == rs[b].threads[acts[b].t].pc.region
                   && d.lkeyOffsetMap[l] == Offset(d.mrs[l].routerAddr, d.mrs[l].clientAddr))
  }

  lemma {:induction false} EntriesOf(rs: seq<Router>, acts: seq<Action>, i: nat, l: Lkey)
    requires IsRun(rs, acts) && i < |rs|
    ensures EntryOf(rs, acts, i, l)
  {
    if i > 0 {
      EntriesOf(rs, acts, i - 1, l);
      RunKeepsRegions(rs, acts, i - 1);
      assert StepAt(rs, acts, i - 1);
      EntryNext(rs[i - 1], acts[i - 1], l);
    }
  }

  ghost predicate DroppedBetween(rs: seq<Router>, acts: seq<Action>, m: nat, i: nat, l: Lkey)
    requires |rs| == |acts| + 1 && m <= i < |rs|
  {
    exists x :: m <= x < i && Drops(rs[x], acts[x], l)
  }

  lemma {:induction false} DroppedForGood(rs: seq<Router>, acts: seq<Action>, x: nat, i: nat, l: Lkey)
    requires IsRun(rs, acts) && x < i < |rs| && Drops(rs[x], acts[x], l)
    ensures StoredAt(rs, acts, i, l) == -1 || StoredAt(rs, acts, i, l) > x
    decreases i
  {
    if i > x + 1 { DroppedForGood(rs, acts, x, i - 1, l); }
  }

  lemma {:induction false} KeptOn(rs: seq<Router>, acts: seq<Action>, m: nat, i: nat, l: Lkey)
    requires IsRun(rs, acts) && m <= i < |rs| && StoredAt(rs, acts, m, l) >= 0 && !DroppedBetween(rs, acts, m, i, l)
    ensures StoredAt(rs, acts, i, l) == StoredAt(rs, acts, m, l)
    decreases i
  {
    if m < i {
      assert !DroppedBetween(rs, acts, m, i - 1, l);
      KeptOn(rs, acts, m, i - 1, l);
      EntriesOf(rs, acts, i - 1, l);
      RunKeepsRegions(rs, acts, i - 1);
      assert StepAt(rs, acts, i - 1);
      EntryNext(rs[i - 1], acts[i - 1], l);
    }
  }

  /** An entry is still the one of an earlier state if and only if no deregistration of its lkey
      has been served in between, also when the lkey is in use again. */
  lemma SameEntryIff(rs: seq<Router>, acts: seq<Action>, m: nat, i: nat, l: Lkey)
    requires IsRun(rs, acts) && m <= i < |rs| && l in rs[m].d.lkeyOffsetMap
    ensures StoredAt(rs, acts, m, l) >= 0
    ensures StoredAt(rs, acts, i, l) == StoredAt(rs, acts, m, l) <==> !DroppedBetween(rs, acts, m, i, l)
    ensures !DroppedBetween(rs, acts, m, i, l) ==>
      l in rs[i].d.lkeyOffsetMap && l in rs[i].d.mrs && l in rs[m].d.mrs && rs[i].d.mrs[l] == rs[m].d.mrs[l]
  {
    EntriesOf(rs, acts, m, l);
    EntriesOf(rs, acts, i, l);
    if DroppedBetween(rs, acts, m, i, l) {
      var x :| m <= x < i && Drops(rs[x], acts[x], l);
      DroppedForGood(rs, acts, x, i, l);
    } else {
      KeptOn(rs, acts, m, i, l);
    }
  }

  /** Every stored lkey is live in the device and has its own region's offset, also
      when lkeys are used again after a deregistration; the branch for an lkey that
      exists already is never taken. */
  lemma LkeyTable(rs: seq<Router>, acts: seq<Action>, i: nat)
    requires IsRun(rs, acts) && i < |rs|
    ensures var d := rs[i].d;
      && (forall l :: l in d.lkeyOffsetMap ==>
            l in d.mrs && d.lkeyOffsetMap[l] == Offset(d.mrs[l].routerAddr, d.mrs[l].clientAddr))
      && (forall t :: t in rs[i].threads && Registering(rs[i].threads[t]) ==>
        rs[i].threads[t].pc.lkey !in d.lkeyOffsetMap)
  {
    RunKeepsRegions(rs, acts, i);
    forall t | t in rs[i].threads && Registering(rs[i].threads[t])
      ensures rs[i].threads[t].pc.lkey !in rs[i].d.lkeyOffsetMap
    {
      assert BusyOk(rs[i].d, rs[i].threads[t]);
    }
  }

  /** A registration that is answered is stored: from its last section on, the lkey and the
      address of the answer are those of a live region with the range the client asked for and
      with its own offset, until and only until a deregistration of the lkey is served. */
  lemma RegistrationStored(rs: seq<Router>, acts: seq<Action>, b: nat, i: nat, l: Lkey)
    requires IsRun(rs, acts) && b < i < |rs| && Stores(rs[b], acts[b], l)
    ensures var req, region := rs[b].threads[acts[b].t].req, rs[b].threads[acts[b].t].pc.region;
      && AsAsked(req, region) && acts[b].t in rs[b + 1].threads
      && rs[b + 1].threads[acts[b].t].pc == Done(RegMrRsp(l, region.routerAddr))
      && (StoredAt(rs, acts, i, l) == b <==> !DroppedBetween(rs, acts, b + 1, i, l))
      && (!DroppedBetween(rs, acts, b + 1, i, l) ==>
            && l in rs[i].d.lkeyOffsetMap && l in rs[i].d.mrs && rs[i].d.mrs[l] == region
            && rs[i].d.lkeyOffsetMap[l] == Offset(region.routerAddr, region.clientAddr))
  {
    RunKeepsRegions(rs, acts, b);
    assert BusyOk(rs[b].d, rs[b].threads[acts[b].t]) && StepAt(rs, acts, b);
    EntryNext(rs[b], acts[b], l);
    SameEntryIff(rs, acts, b + 1, i, l);
    EntriesOf(rs, acts, i, l);
  }

  /** Translated addresses of different regions differ, whatever the client
      addresses are, those of different processes and equal ones included. */
  lemma RegionsNeverMeet(rs: seq<Router>, acts: seq<Action>, i: nat, l: Lkey, m: Lkey, x: nat, y: nat)
    requires IsRun(rs, acts) && i < |rs|
    requires l in rs[i].d.lkeyOffsetMap && m in rs[i].d.lkeyOffsetMap && l != m
    requires l in rs[i].d.mrs ==> x < rs[i].d.mrs[l].size
    requires m in rs[i].d.mrs ==> y < rs[i].d.mrs[m].size
    ensures l in rs[i].d.mrs && m in rs[i].d.mrs
    ensures var d := rs[i].d;
      Translate((d.mrs[l].clientAddr + x) % TWO_64, d.lkeyOffsetMap[l])
        != Translate((d.mrs[m].clientAddr + y) % TWO_64, d.lkeyOffsetMap[m])
  {
    RunKeepsRegions(rs, acts, i);
    var d := rs[i].d;
    TranslateExact(d.mrs[l].routerAddr, d.mrs[l].clientAddr, x);
    TranslateExact(d.mrs[m].routerAddr, d.mrs[m].clientAddr, y);
    assert Disjoint(d.mrs[l].routerAddr, d.mrs[l].size, d.mrs[m].routerAddr, d.mrs[m].size);
  }
}
