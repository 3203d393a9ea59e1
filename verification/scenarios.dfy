/** Runs given action by action, to show inputs. */
module Scenarios {
  import opened Types
  import opened Sections
  import opened Machine

  /** The actions are possible one after the other from `r` and end in `r'`. */
  ghost predicate Reaches(r: Router, acts: seq<Action>, r': Router)
    decreases |acts|
  {
    if acts == [] then r' == r
    else Enabled(r, acts[0]) && Reaches(Next(r, acts[0]), acts[1..], r')
  }

  lemma {:induction false} ReachesJoin(r: Router, acts: seq<Action>, r1: Router, more: seq<Action>, r2: Router)
    requires Reaches(r, acts, r1) && Reaches(r1, more, r2)
    ensures Reaches(r, acts + more, r2)
    decreases |acts|
  {
    if acts == [] {
      assert acts + more == more;
    } else {
      ReachesJoin(Next(r, acts[0]), acts[1..], r1, more, r2);
      assert (acts + more)[1..] == acts[1..] + more;
    }
  }

  lemma ReachesTwice(r: Router, a: seq<Action>, r1: Router, b: seq<Action>, r2: Router, c: seq<Action>, r3: Router)
    requires Reaches(r, a, r1) && Reaches(r1, b, r2) && Reaches(r2, c, r3)
    ensures Reaches(r, a + b + c, r3)
  {
    ReachesJoin(r, a, r1, b, r2);
    ReachesJoin(r, a + b, r2, c, r3);
  }

  lemma ReachesOne(r: Router, a: Action)
    requires Enabled(r, a)
    ensures Reaches(r, [a], Next(r, a))
  {
    assert [a][1..] == [];
  }

  /** What is reached from an initial state is the end of a run. */
  lemma {:induction false} ReachesRun(rs: seq<Router>, acts: seq<Action>, more: seq<Action>, r': Router)
    returns (rs': seq<Router>)
    requires IsRun(rs, acts) && Reaches(rs[|acts|], more, r')
    ensures IsRun(rs', acts + more) && rs <= rs' && rs'[|acts + more|] == r'
    decreases |more|
  {
    if more == [] {
      assert acts + more == acts;
      return rs;
    }
    var a, r := more[0], rs[|acts|];
    var rs1, acts1 := rs + [Next(r, a)], acts + [a];
    forall i | 0 <= i < |acts1| ensures StepAt(rs1, acts1, i) {
      if i < |acts| { assert StepAt(rs, acts, i); }
    }
    rs' := ReachesRun(rs1, acts1, more[1..], r');
    assert acts1 + more[1..] == acts + more;
  }

  // ----- one handler goes on -----

  /** `r` with handler `t` at `th`, over the data `d`. */
  function With(r: Router, d: Shared, t: Tid, th: Thread): Router {
    Router(d, r.owner, r.threads[t := th])
  }

  lemma WithAgain(r: Router, d: Shared, d': Shared, t: Tid, th: Thread, th': Thread)
    ensures With(With(r, d, t, th), d', t, th') == With(r, d', t, th')
  {
    assert r.threads[t := th][t := th'] == r.threads[t := th'];
  }

  /** The actions of a handler that goes through a section. */
  function SectionActs(t: Tid, c: Choice): seq<Action> { [Lock(t), Run(t, c)] }

  /** The state in which the handler is inside its section. */
  function Inside(r: Router, d: Shared, t: Tid, th: Thread): Router
    requires Wants(th.pc).Some?
  {
    Router(d, r.owner[Wants(th.pc).value := t], r.threads[t := th.(inside := true)])
  }

  lemma Enters(r: Router, d: Shared, t: Tid, th: Thread)
    requires !th.inside && Wants(th.pc).Some? && Wants(th.pc).value !in r.owner
    requires Wants(th.pc).value.ConnM? ==> Wants(th.pc).value.conn in d.conns
    ensures Enabled(With(r, d, t, th), Lock(t)) && Next(With(r, d, t, th), Lock(t)) == Inside(r, d, t, th)
  {
    assert r.threads[t := th][t := th.(inside := true)] == r.threads[t := th.(inside := true)];
  }

  lemma Leaves(r: Router, d: Shared, t: Tid, th: Thread, c: Choice)
    requires Active(th) && Wants(th.pc).Some? && Wants(th.pc).value !in r.owner
    requires Admits(d, th, c) && MoveOf(d, th, c).Go?
    requires NewConn(MoveOf(d, th, c).pc).None? == NewConn(th.pc).None?
    ensures var mv, r1 := MoveOf(d, th, c), Inside(r, d, t, th);
      Enabled(r1, Run(t, c)) && Next(r1, Run(t, c)) == With(r, mv.d, t, Thread(th.req, mv.key, mv.pc, false))
  {
    var r1, mv := Inside(r, d, t, th), MoveOf(d, th, c);
    var th' := Thread(th.req, mv.key, mv.pc, false);
    assert MoveOf(d, th.(inside := true), c) == mv;
    assert r.owner[Wants(th.pc).value := t] - {Wants(th.pc).value} == r.owner;
    assert r.threads[t := th.(inside := true)][t := th'] == r.threads[t := th'];
  }

  /** The handler takes its mutex, runs its section and gives the mutex back. */
  lemma GoesThrough(r: Router, d: Shared, t: Tid, th: Thread, c: Choice)
    requires Active(th) && !th.inside && Wants(th.pc).Some? && Wants(th.pc).value !in r.owner
    requires Wants(th.pc).value.ConnM? ==> Wants(th.pc).value.conn in d.conns
    requires Admits(d, th, c) && MoveOf(d, th, c).Go?
    requires NewConn(MoveOf(d, th, c).pc).None? == NewConn(th.pc).None?
    ensures var mv := MoveOf(d, th, c);
      Reaches(With(r, d, t, th), SectionActs(t, c), With(r, mv.d, t, Thread(th.req, mv.key, mv.pc, false)))
  {
    Enters(r, d, t, th);
    Leaves(r, d, t, th, c);
    ReachesOne(Inside(r, d, t, th), Run(t, c));
    assert SectionActs(t, c)[1..] == [Run(t, c)];
  }

  /** The handler takes a step that needs no mutex and leaves none. */
  lemma StepsOn(r: Router, d: Shared, t: Tid, th: Thread, c: Choice)
    requires Active(th) && !th.inside && Wants(th.pc).None? && Admits(d, th, c) && MoveOf(d, th, c).Go?
    requires NewConn(MoveOf(d, th, c).pc).None? == NewConn(th.pc).None?
    ensures var mv := MoveOf(d, th, c);
      Reaches(With(r, d, t, th), [Run(t, c)], With(r, mv.d, t, Thread(th.req, mv.key, mv.pc, false)))
  {
    var mv := MoveOf(d, th, c);
    WithAgain(r, d, mv.d, t, th, Thread(th.req, mv.key, mv.pc, false));
    ReachesOne(With(r, d, t, th), Run(t, c));
  }

  function AnyChoice(): Choice { Choice(0, 0, 0, 3, true) }
}
