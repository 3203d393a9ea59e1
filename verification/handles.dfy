/** The handles libscale makes, and the client's table that replaces the router's
    lookup of the queue pair of a completion queue. */
module HandleTable {
  import opened Types

  const CQ_TABLE_SIZE: nat := 1024

  /** `uint16_t` and `uint32_t`. */
  type Word = x: int | 0 <= x < 0x1_0000
  type Handle = x: int | 0 <= x < TWO_32

  /** `((uint32_t) process_id << 16) | n`: the shift clears the low word, so the
      `|` is a sum. Bits of the pid above the low sixteen are shifted out. */
  function Pack(pid: nat, n: Word): Handle {
    PackBound(pid);
    (pid * 0x1_0000) % TWO_32 + n
  }

  lemma PackBound(pid: nat)
    ensures (pid * 0x1_0000) % TWO_32 == (pid % 0x1_0000) * 0x1_0000
    ensures (pid * 0x1_0000) % TWO_32 <= TWO_32 - 0x1_0000
  {
    var q := pid / 0x1_0000;
    assert pid * 0x1_0000 == (pid % 0x1_0000) * 0x1_0000 + q * TWO_32;
  }

  /** `handle & 0xFFFF` */
  function LowWord(handle: Handle): Word {
    handle % 0x1_0000
  }

  lemma LowWordOfPack(pid: nat, n: Word)
    ensures LowWord(Pack(pid, n)) == n
    ensures Pack(pid, n) / 0x1_0000 == pid % 0x1_0000
  {
    PackBound(pid);
  }

  /** Handles tell apart numbers and the low sixteen bits of pids, and nothing else. */
  lemma PackInjective(pid: nat, n: Word, pid': nat, n': Word)
    ensures Pack(pid, n) == Pack(pid', n') <==> n == n' && pid % 0x1_0000 == pid' % 0x1_0000
  {
    LowWordOfPack(pid, n);
    LowWordOfPack(pid', n');
    PackBound(pid);
    PackBound(pid');
  }

  /** `cq_refcnt++` and `qp_refcnt++` on 16-bit counters. */
  function Bumped(n: Word): Word { (n + 1) % 0x1_0000 }

  /** The globals of libscale in one process. */
  datatype Proc = Proc(cqRefcnt: Word, qpRefcnt: Word, table: seq<Word>)

  function NewProc(): Proc {
    Proc(0, 0, seq(CQ_TABLE_SIZE, _ => 0))
  }

  function BindQp(p: Proc, n: Word): Proc
    requires n < |p.table|
  {
    Proc(p.cqRefcnt, Bumped(p.qpRefcnt), p.table[n := p.qpRefcnt])
  }

  /** `ibv_get_device_list` clears the table and leaves the counters. */
  function Cleared(p: Proc): Proc {
    Proc(p.cqRefcnt, p.qpRefcnt, seq(|p.table|, _ => 0))
  }

  /** The QP handle `poll_cq` puts into its request. */
  function Rebuilt(pid: nat, p: Proc, cqHandle: Handle): Handle
    requires LowWord(cqHandle) < |p.table|
  {
    Pack(pid, p.table[LowWord(cqHandle)])
  }

  class LibScale {
    const pid: nat
    var cqRefcnt: Word
    var qpRefcnt: Word
    const cqQpMap: array<Word>

    ghost function State(): Proc
      reads this, cqQpMap
    {
      Proc(cqRefcnt, qpRefcnt, cqQpMap[..])
    }

    constructor (pid: nat)
      ensures this.pid == pid && fresh(cqQpMap) && State() == NewProc()
    {
      this.pid := pid;
      cqRefcnt, qpRefcnt := 0, 0;
      cqQpMap := new Word[CQ_TABLE_SIZE](_ => 0);
    }

    /** The `memset` of `ibv_get_device_list`, at every call of it. */
    method GetDeviceList()
      modifies cqQpMap
      ensures State() == Cleared(old(State()))
    {
      for i := 0 to cqQpMap.Length
        invariant forall k :: 0 <= k < i ==> cqQpMap[k] == 0
      {
        cqQpMap[i] := 0;
      }
    }

    method CreateCq() returns (handle: Handle)
      modifies this
      ensures handle == Pack(pid, old(cqRefcnt))
      ensures State() == old(State()).(cqRefcnt := Bumped(old(cqRefcnt)))
    {
      handle := Pack(pid, cqRefcnt);
      cqRefcnt := (cqRefcnt + 1) % 0x1_0000;
    }

    /** `ibv_create_qp` up to the request. The source writes the table without
        checking the index. */
    method CreateQp(cqHandle: Handle) returns (handle: Handle)
      requires LowWord(cqHandle) < cqQpMap.Length
      modifies this, cqQpMap
      ensures handle == Pack(pid, old(qpRefcnt))
      ensures State() == BindQp(old(State()), LowWord(cqHandle))
    {
      handle := Pack(pid, qpRefcnt);
      LowWordOfPack(pid, qpRefcnt);
      qpRefcnt := (qpRefcnt + 1) % 0x1_0000;
      cqQpMap[LowWord(cqHandle)] := LowWord(handle);
    }

    /** `poll_cq` up to the request: polls for more or less than one entry are refused. */
    method PollCq(cqHandle: Handle, numEntries: int) returns (request: Option<Handle>)
      requires LowWord(cqHandle) < cqQpMap.Length
      ensures request == if numEntries == 1 then Some(Rebuilt(pid, State(), cqHandle)) else None
    {
      if numEntries != 1 { return None; }
      request := Some(Pack(pid, cqQpMap[LowWord(cqHandle)]));
    }
  }

  // ----- all processes and the router's cq_qp_map -----

  datatype Cq = Cq(pid: nat, n: Word)

  function CqHandle(cq: Cq): Handle { Pack(cq.pid, cq.n) }

  /** `made` records the number of the queue pair made for a completion queue, `pending`
      the IBV_CREATE_QP requests the router has not served, `cleared` the completion queues
      whose process has listed the devices since; `refused` says that the router refused one. */
  datatype Sys = Sys(procs: map<nat, Proc>, made: map<Cq, Word>, pending: set<Cq>, cleared: set<Cq>,
                     cqQpMap: map<Handle, Handle>, refused: bool)

  datatype Step = Join(pid: nat) | ListDevices(pid: nat) | NewCq(pid: nat) | NewQp(cq: Cq) | Serve(cq: Cq)

  /** Pids below 2^16 and not used again, at most 1024 completion queues and 2^16 - 1
      queue pairs a process, one queue pair a completion queue. */
  predicate Allowed(s: Sys, e: Step) {
    match e
    case Join(pid) => pid < 0x1_0000 && pid !in s.procs
    case ListDevices(pid) => pid in s.procs
    case NewCq(pid) => pid in s.procs && s.procs[pid].cqRefcnt < CQ_TABLE_SIZE
    case NewQp(cq) =>
      && cq.pid in s.procs && cq.n < s.procs[cq.pid].cqRefcnt && cq !in s.made
      && s.procs[cq.pid].qpRefcnt < 0xFFFF && cq.n < |s.procs[cq.pid].table|
    case Serve(cq) => cq in s.pending && cq in s.made
  }

  /** The router's section of IBV_CREATE_QP. */
  function ServeQp(s: Sys, cq: Cq): Sys
    requires cq in s.made
  {
    var s' := s.(pending := s.pending - {cq});
    if CqHandle(cq) in s.cqQpMap then s'.(refused := true)
    else s'.(cqQpMap := s.cqQpMap[CqHandle(cq) := Pack(cq.pid, s.made[cq])])
  }

  function After(s: Sys, e: Step): Sys
    requires Allowed(s, e)
  {
    match e
    case Join(pid) => s.(procs := s.procs[pid := NewProc()])
    case ListDevices(pid) =>
      s.(procs := s.procs[pid := Cleared(s.procs[pid])],
         cleared := s.cleared + set cq | cq in s.made && cq.pid == pid)
    case NewCq(pid) => s.(procs := s.procs[pid := s.procs[pid].(cqRefcnt := Bumped(s.procs[pid].cqRefcnt))])
    case NewQp(cq) =>
      var p := s.procs[cq.pid];
      s.(procs := s.procs[cq.pid := BindQp(p, cq.n)], made := s.made[cq := p.qpRefcnt], pending := s.pending + {cq})
    case Serve(cq) => ServeQp(s, cq)
  }

  ghost predicate ProcOk(p: Proc) {
    p.cqRefcnt <= CQ_TABLE_SIZE && |p.table| == CQ_TABLE_SIZE
  }

  ghost predicate MadeOk(s: Sys, cq: Cq)
    requires cq in s.made
  {
    && cq.pid in s.procs && cq.n < s.procs[cq.pid].cqRefcnt && s.made[cq] < s.procs[cq.pid].qpRefcnt
    && cq.n < |s.procs[cq.pid].table|
    && s.procs[cq.pid].table[cq.n] == if cq in s.cleared then 0 else s.made[cq]
  }

  ghost predicate Served(s: Sys, cq: Cq) {
    cq in s.made && cq !in s.pending
  }

  ghost predicate ServedOk(s: Sys, cq: Cq) {
    Served(s, cq) ==> CqHandle(cq) in s.cqQpMap && s.cqQpMap[CqHandle(cq)] == Pack(cq.pid, s.made[cq])
  }

  ghost predicate EntryOk(s: Sys, h: Handle) {
    exists cq :: Served(s, cq) && CqHandle(cq) == h
  }

  ghost predicate NumbersDiffer(s: Sys, cq: Cq, cq': Cq)
    requires cq in s.made && cq' in s.made
  {
    cq != cq' && cq.pid == cq'.pid ==> s.made[cq] != s.made[cq']
  }

  /** What holds of the client processes. */
  ghost predicate ClientsOk(s: Sys) {
    && (forall pid :: pid in s.procs ==> pid < 0x1_0000 && ProcOk(s.procs[pid]))
    && s.cleared <= s.made.Keys
    && (forall cq :: cq in s.made ==> MadeOk(s, cq))
    && (forall cq, cq' :: cq in s.made && cq' in s.made ==> NumbersDiffer(s, cq, cq'))
  }

  /** What holds of the router's map. */
  ghost predicate TableOk(s: Sys) {
    && s.pending <= s.made.Keys
    && (forall cq :: ServedOk(s, cq))
    && (forall h :: h in s.cqQpMap ==> EntryOk(s, h))
    && !s.refused
  }

  /** The completion queue has been created. */
  predicate Created(s: Sys, cq: Cq) {
    cq.pid in s.procs && cq.n < s.procs[cq.pid].cqRefcnt
  }

  lemma CqHandlesDiffer(s: Sys, cq: Cq, cq': Cq)
    requires ClientsOk(s) && Created(s, cq) && Created(s, cq') && CqHandle(cq) == CqHandle(cq')
    ensures cq == cq'
  {
    PackInjective(cq.pid, cq.n, cq'.pid, cq'.n);
  }

  lemma MadeHandlesDiffer(s: Sys, cq: Cq, cq': Cq)
    requires ClientsOk(s) && cq in s.made && cq' in s.made && CqHandle(cq) == CqHandle(cq')
    ensures cq == cq'
  {
    assert MadeOk(s, cq) && MadeOk(s, cq');
    CqHandlesDiffer(s, cq, cq');
  }

  lemma QpHandlesDiffer(s: Sys, cq: Cq, cq': Cq)
    requires ClientsOk(s) && cq in s.made && cq' in s.made && Pack(cq.pid, s.made[cq]) == Pack(cq'.pid, s.made[cq'])
    ensures cq == cq'
  {
    PackInjective(cq.pid, s.made[cq], cq'.pid, s.made[cq']);
    assert MadeOk(s, cq) && MadeOk(s, cq') && NumbersDiffer(s, cq, cq');
  }

  lemma ServeKeeps(s: Sys, cq: Cq)
    requires ClientsOk(s) && TableOk(s) && Allowed(s, Serve(cq))
    ensures TableOk(ServeQp(s, cq))
  {
    var s' := ServeQp(s, cq);
    if CqHandle(cq) in s.cqQpMap {
      assert EntryOk(s, CqHandle(cq));
      var other :| Served(s, other) && CqHandle(other) == CqHandle(cq);
      MadeHandlesDiffer(s, cq, other);
      assert false;
    }
    forall x ensures ServedOk(s', x) {
      assert ServedOk(s, x);
      if Served(s, x) && CqHandle(x) == CqHandle(cq) { MadeHandlesDiffer(s, x, cq); }
    }
    forall h | h in s'.cqQpMap ensures EntryOk(s', h) {
      if h == CqHandle(cq) { assert Served(s', cq); } else { StillServed(s, s', h); }
    }
  }

  lemma StillServed(s: Sys, s': Sys, h: Handle)
    requires EntryOk(s, h) && forall x :: Served(s, x) ==> Served(s', x)
    ensures EntryOk(s', h)
  {
    var x :| Served(s, x) && CqHandle(x) == h;
    assert Served(s', x);
  }

  lemma ClientKeepsTable(s: Sys, e: Step)
    requires TableOk(s) && Allowed(s, e) && !e.Serve?
    ensures TableOk(After(s, e))
  {
    var s' := After(s, e);
    forall x ensures ServedOk(s', x) { assert ServedOk(s, x); }
    forall h | h in s'.cqQpMap ensures EntryOk(s', h) {
      StillServed(s, s', h);
    }
  }

  lemma MadeKeeps(s: Sys, e: Step, cq: Cq)
    requires ClientsOk(s) && Allowed(s, e) && cq in After(s, e).made
    ensures MadeOk(After(s, e), cq)
  {
    if cq in s.made { assert MadeOk(s, cq); }
  }

  lemma NumbersKeep(s: Sys, e: Step, cq: Cq, cq': Cq)
    requires ClientsOk(s) && Allowed(s, e) && cq in After(s, e).made && cq' in After(s, e).made
    ensures NumbersDiffer(After(s, e), cq, cq')
  {
    if cq in s.made { assert MadeOk(s, cq); }
    if cq' in s.made { assert MadeOk(s, cq'); }
    if cq in s.made && cq' in s.made { assert NumbersDiffer(s, cq, cq'); }
  }

  lemma ClientKeeps(s: Sys, e: Step)
    requires ClientsOk(s) && Allowed(s, e)
    ensures ClientsOk(After(s, e))
  {
    var s' := After(s, e);
    forall x | x in s'.made ensures MadeOk(s', x) { MadeKeeps(s, e, x); }
    forall x, y | x in s'.made && y in s'.made ensures NumbersDiffer(s', x, y) { NumbersKeep(s, e, x, y); }
  }

  ghost predicate IsSysRun(ss: seq<Sys>, es: seq<Step>) {
    && |ss| == |es| + 1 && ss[0] == Sys(map[], map[], {}, {}, map[], false)
    && forall i :: 0 <= i < |es| ==> SysStepAt(ss, es, i)
  }

  ghost predicate SysStepAt(ss: seq<Sys>, es: seq<Step>, i: nat)
    requires i < |es| && |ss| == |es| + 1
  {
    Allowed(ss[i], es[i]) && ss[i + 1] == After(ss[i], es[i])
  }

  lemma {:induction false} SysRunOk(ss: seq<Sys>, es: seq<Step>, i: nat)
    requires IsSysRun(ss, es) && i < |ss|
    ensures ClientsOk(ss[i]) && TableOk(ss[i])
  {
    if i > 0 {
      SysRunOk(ss, es, i - 1);
      assert SysStepAt(ss, es, i - 1);
      ClientKeeps(ss[i - 1], es[i - 1]);
      if es[i - 1].Serve? { ServeKeeps(ss[i - 1], es[i - 1].cq); } else { ClientKeepsTable(ss[i - 1], es[i - 1]); }
    }
  }

  /** In every run, for every completion queue whose IBV_CREATE_QP the router has served: the
      router has refused nothing, and the queue pair handle `poll_cq` rebuilds is the one the
      router's cq_qp_map holds exactly if the process has not listed the devices since it made
      the queue pair, or the queue pair is its first. */
  lemma ShortcutAgreesIff(ss: seq<Sys>, es: seq<Step>, i: nat, cq: Cq)
    requires IsSysRun(ss, es) && i < |ss| && Served(ss[i], cq)
    ensures var s := ss[i];
      && !s.refused
      && CqHandle(cq) in s.cqQpMap
      && cq.pid in s.procs && LowWord(CqHandle(cq)) < |s.procs[cq.pid].table|
      && (Rebuilt(cq.pid, s.procs[cq.pid], CqHandle(cq)) == s.cqQpMap[CqHandle(cq)]
          <==> !ListedSince(es, i, cq) || s.made[cq] == 0)
  {
    SysRunOk(ss, es, i);
    ClearedIff(ss, es, i, cq);
    assert MadeOk(ss[i], cq) && ServedOk(ss[i], cq);
    LowWordOfPack(cq.pid, cq.n);
    PackInjective(cq.pid, 0, cq.pid, ss[i].made[cq]);
  }

  /** Before state `i` the process lists the devices after making the queue pair of `cq`. */
  ghost predicate ListedSince(es: seq<Step>, i: nat, cq: Cq)
    requires i <= |es|
  {
    exists b, l :: 0 <= b < l < i && es[b] == NewQp(cq) && es[l] == ListDevices(cq.pid)
  }

  ghost predicate MadeBefore(es: seq<Step>, i: nat, cq: Cq)
    requires i <= |es|
  {
    exists b :: 0 <= b < i && es[b] == NewQp(cq)
  }

  lemma {:induction false} MadeIff(ss: seq<Sys>, es: seq<Step>, i: nat, cq: Cq)
    requires IsSysRun(ss, es) && i < |ss|
    ensures cq in ss[i].made <==> MadeBefore(es, i, cq)
  {
    if i > 0 {
      MadeIff(ss, es, i - 1, cq);
      assert SysStepAt(ss, es, i - 1);
      if es[i - 1] == NewQp(cq) { assert MadeBefore(es, i, cq); }
      else if b :| 0 <= b < i && es[b] == NewQp(cq) { assert b < i - 1; }
    }
  }

  lemma ListedGrows(es: seq<Step>, i: nat, cq: Cq)
    requires 0 < i <= |es|
    ensures ListedSince(es, i, cq)
      <==> ListedSince(es, i - 1, cq) || (es[i - 1] == ListDevices(cq.pid) && MadeBefore(es, i - 1, cq))
  {
    if es[i - 1] == ListDevices(cq.pid) && MadeBefore(es, i - 1, cq) {
      var b :| 0 <= b < i - 1 && es[b] == NewQp(cq);
      assert ListedSince(es, i, cq);
    }
  }

  lemma {:induction false} ClearedIff(ss: seq<Sys>, es: seq<Step>, i: nat, cq: Cq)
    requires IsSysRun(ss, es) && i < |ss|
    ensures cq in ss[i].cleared <==> ListedSince(es, i, cq)
  {
    if i > 0 {
      ClearedIff(ss, es, i - 1, cq);
      MadeIff(ss, es, i - 1, cq);
      ListedGrows(es, i, cq);
      assert SysStepAt(ss, es, i - 1);
    }
  }

  /** For a process that does not list the devices after making the queue pair, the rebuilt
      handle is the one the router holds. */
  lemma ShortcutAgrees(ss: seq<Sys>, es: seq<Step>, i: nat, cq: Cq)
    requires IsSysRun(ss, es) && i < |ss| && Served(ss[i], cq)
    requires forall b, l :: 0 <= b < l < i && es[b] == NewQp(cq) ==> es[l] != ListDevices(cq.pid)
    ensures var s := ss[i];
      && !s.refused
      && CqHandle(cq) in s.cqQpMap
      && cq.pid in s.procs && LowWord(CqHandle(cq)) < |s.procs[cq.pid].table|
      && Rebuilt(cq.pid, s.procs[cq.pid], CqHandle(cq)) == s.cqQpMap[CqHandle(cq)]
  {
    ShortcutAgreesIff(ss, es, i, cq);
  }

  lemma OneMore(ss: seq<Sys>, es: seq<Step>, e: Step) returns (ss': seq<Sys>, es': seq<Step>)
    requires IsSysRun(ss, es) && Allowed(ss[|es|], e)
    ensures IsSysRun(ss', es') && es' == es + [e] && |ss'| == |es| + 2 && ss'[|es| + 1] == After(ss[|es|], e)
  {
    ss', es' := ss + [After(ss[|es|], e)], es + [e];
    forall i | 0 <= i < |es'| ensures SysStepAt(ss', es', i) {
      if i < |es| { assert SysStepAt(ss, es, i); }
    }
  }

  /** One process that has listed the devices and made two completion queues. */
  function TwoCqs(): Sys {
    Sys(map[1 := Proc(2, 0, NewProc().table)], map[], {}, {}, map[], false)
  }

  /** The process has then made a queue pair for each of them, and the router has served both. */
  function TwoQps(): Sys {
    Sys(map[1 := Proc(2, 2, NewProc().table[1 := 1])], map[Cq(1, 0) := 0, Cq(1, 1) := 1], {}, {},
        map[Pack(1, 0) := Pack(1, 0), Pack(1, 1) := Pack(1, 1)], false)
  }

  lemma MakesCqs() returns (ss: seq<Sys>, es: seq<Step>)
    ensures IsSysRun(ss, es) && es == [Join(1), ListDevices(1), NewCq(1), NewCq(1)] && ss[4] == TwoCqs()
  {
    ss, es := [Sys(map[], map[], {}, {}, map[], false)], [];
    ss, es := OneMore(ss, es, Join(1));
    ss, es := OneMore(ss, es, ListDevices(1));
    assert Cleared(NewProc()) == NewProc();
    ss, es := OneMore(ss, es, NewCq(1));
    ss, es := OneMore(ss, es, NewCq(1));
  }

  lemma MakesQps(s: Sys)
    requires s == TwoCqs()
    ensures Allowed(s, NewQp(Cq(1, 0))) && Allowed(After(s, NewQp(Cq(1, 0))), NewQp(Cq(1, 1)))
    ensures var s' := After(After(s, NewQp(Cq(1, 0))), NewQp(Cq(1, 1)));
      s' == TwoQps().(pending := {Cq(1, 0), Cq(1, 1)}, cqQpMap := map[])
  {
    var t := NewProc().table;
    assert t[0 := 0] == t;
  }

  lemma ServesQps(s: Sys)
    requires s == TwoQps().(pending := {Cq(1, 0), Cq(1, 1)}, cqQpMap := map[])
    ensures Allowed(s, Serve(Cq(1, 0))) && Allowed(After(s, Serve(Cq(1, 0))), Serve(Cq(1, 1)))
    ensures After(After(s, Serve(Cq(1, 0))), Serve(Cq(1, 1))) == TwoQps()
  {
    PackInjective(1, 0, 1, 1);
  }

  lemma ListsAgain(s: Sys)
    requires s == After(TwoQps(), ListDevices(1))
    ensures Served(s, Cq(1, 0)) && Served(s, Cq(1, 1)) && 1 in s.procs && |s.procs[1].table| == CQ_TABLE_SIZE
    ensures LowWord(Pack(1, 1)) == 1 && Pack(1, 0) in s.cqQpMap && Pack(1, 1) in s.cqQpMap
    ensures Rebuilt(1, s.procs[1], Pack(1, 1)) == s.cqQpMap[Pack(1, 0)] != s.cqQpMap[Pack(1, 1)]
  {
    PackInjective(1, 0, 1, 1);
    LowWordOfPack(1, 1);
  }

  /** A process that makes two queue pairs and then lists the devices again polls its second
      completion queue with the handle of the first queue pair. */
  lemma ListedTwice() returns (ss: seq<Sys>, es: seq<Step>)
    ensures IsSysRun(ss, es) && |es| == 9 && es[1] == ListDevices(1) && es[8] == ListDevices(1)
    ensures var s, first, second := ss[9], Cq(1, 0), Cq(1, 1);
      && Served(s, first) && Served(s, second) && 1 in s.procs && |s.procs[1].table| == CQ_TABLE_SIZE
      && CqHandle(first) in s.cqQpMap && CqHandle(second) in s.cqQpMap
      && LowWord(CqHandle(second)) == 1
      && Rebuilt(1, s.procs[1], CqHandle(second)) == s.cqQpMap[CqHandle(first)] != s.cqQpMap[CqHandle(second)]
  {
    ss, es := MakesCqs();
    MakesQps(ss[4]);
    ss, es := OneMore(ss, es, NewQp(Cq(1, 0)));
    ss, es := OneMore(ss, es, NewQp(Cq(1, 1)));
    ServesQps(ss[6]);
    ss, es := OneMore(ss, es, Serve(Cq(1, 0)));
    ss, es := OneMore(ss, es, Serve(Cq(1, 1)));
    ss, es := OneMore(ss, es, ListDevices(1));
    ListsAgain(ss[9]);
  }

  /** Handles of completion queues, and of queue pairs, tell them apart, in one process and
      across processes. */
  lemma HandlesUnique(ss: seq<Sys>, es: seq<Step>, i: nat, cq: Cq, cq': Cq)
    requires IsSysRun(ss, es) && i < |ss|
    ensures Created(ss[i], cq) && Created(ss[i], cq') ==> (CqHandle(cq) == CqHandle(cq') <==> cq == cq')
    ensures cq in ss[i].made && cq' in ss[i].made ==>
      (Pack(cq.pid, ss[i].made[cq]) == Pack(cq'.pid, ss[i].made[cq']) <==> cq == cq')
  {
    SysRunOk(ss, es, i);
    if Created(ss[i], cq) && Created(ss[i], cq') && CqHandle(cq) == CqHandle(cq') { CqHandlesDiffer(ss[i], cq, cq'); }
    if cq in ss[i].made && cq' in ss[i].made && Pack(cq.pid, ss[i].made[cq]) == Pack(cq'.pid, ss[i].made[cq']) {
      QpHandlesDiffer(ss[i], cq, cq');
    }
  }

  /** cq_qp_map is injective. */
  lemma TableInjective(ss: seq<Sys>, es: seq<Step>, i: nat, h: Handle, h': Handle)
    requires IsSysRun(ss, es) && i < |ss| && h in ss[i].cqQpMap && h' in ss[i].cqQpMap
    requires ss[i].cqQpMap[h] == ss[i].cqQpMap[h']
    ensures h == h'
  {
    SysRunOk(ss, es, i);
    assert EntryOk(ss[i], h) && EntryOk(ss[i], h');
    var cq :| Served(ss[i], cq) && CqHandle(cq) == h;
    var cq' :| Served(ss[i], cq') && CqHandle(cq') == h';
    assert ServedOk(ss[i], cq) && ServedOk(ss[i], cq');
    QpHandlesDiffer(ss[i], cq, cq');
  }

  lemma EntryStays(s: Sys, e: Step, h: Handle)
    requires Allowed(s, e) && h in s.cqQpMap
    ensures h in After(s, e).cqQpMap && After(s, e).cqQpMap[h] == s.cqQpMap[h]
  {
  }

  /** Entries of cq_qp_map are written once. */
  lemma {:induction false} WriteOnce(ss: seq<Sys>, es: seq<Step>, i: nat, j: nat, h: Handle)
    requires IsSysRun(ss, es) && i <= j < |ss| && h in ss[i].cqQpMap
    ensures h in ss[j].cqQpMap && ss[j].cqQpMap[h] == ss[i].cqQpMap[h]
    decreases j
  {
    if i < j {
      WriteOnce(ss, es, i, j - 1, h);
      assert SysStepAt(ss, es, j - 1);
      EntryStays(ss[j - 1], es[j - 1], h);
    }
  }

  /** With a second queue pair on one completion queue the shortcut stops agreeing:
      libscale binds the new number before the router refuses it. */
  lemma SecondQpDisagrees(ss: seq<Sys>, es: seq<Step>, i: nat, cq: Cq)
    requires IsSysRun(ss, es) && i < |ss| && Served(ss[i], cq)
    ensures var s := ss[i];
      && CqHandle(cq) in s.cqQpMap && cq.pid in s.procs
      && cq.n < |s.procs[cq.pid].table| && LowWord(CqHandle(cq)) == cq.n
      && Rebuilt(cq.pid, BindQp(s.procs[cq.pid], cq.n), CqHandle(cq)) != s.cqQpMap[CqHandle(cq)]
  {
    SysRunOk(ss, es, i);
    var s := ss[i];
    assert MadeOk(s, cq) && ServedOk(s, cq);
    LowWordOfPack(cq.pid, cq.n);
    PackInjective(cq.pid, s.procs[cq.pid].qpRefcnt, cq.pid, s.made[cq]);
  }
}
