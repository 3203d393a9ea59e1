/** Names of shared-memory segments. */
module Names {
  import opened Types

  // ----- decimal numbers as a stream prints them -----

  function Digit(d: nat): char
    requires d < 10
  {
    '0' + d as char
  }

  predicate IsDigit(c: char) { '0' <= c <= '9' }

  function Digits(n: nat): (s: string)
    ensures s != [] && forall i :: 0 <= i < |s| ==> IsDigit(s[i])
  {
    if n < 10 then [Digit(n)] else Digits(n / 10) + [Digit(n % 10)]
  }

  function Decimal(i: int): string {
    if i < 0 then "-" + Digits(-i) else Digits(i)
  }

  lemma {:induction false} DigitsInjective(m: nat, n: nat)
    requires Digits(m) == Digits(n)
    ensures m == n
  {
    var s := Digits(m);
    if m >= 10 { assert s[|s| - 1] == Digit(m % 10) && s[..|s| - 1] == Digits(m / 10); }
    if n >= 10 { assert s[|s| - 1] == Digit(n % 10) && s[..|s| - 1] == Digits(n / 10); }
    if m >= 10 && n >= 10 { DigitsInjective(m / 10, n / 10); }
  }

  function Pow10(k: nat): (p: nat)
    ensures p > 0
  {
    if k == 0 then 1 else 10 * Pow10(k - 1)
  }

  lemma {:induction false} DigitsFit(n: nat, k: nat)
    requires k > 0
    ensures |Digits(n)| <= k <==> n < Pow10(k)
  {
    assert Pow10(k) == 10 * Pow10(k - 1);
    if n >= 10 && k > 1 { DigitsFit(n / 10, k - 1); }
  }

  /** A number does not run into what follows it. */
  predicate Stops(x: string) { x == [] || !IsDigit(x[0]) }

  lemma NotShorter(u: string, v: string, x: string, y: string)
    requires (forall i :: 0 <= i < |v| ==> IsDigit(v[i])) && Stops(x) && u + x == v + y
    ensures |v| <= |u|
  {
    if x != [] { assert (u + x)[|u|] == x[0]; }
  }

  lemma DigitsStop(m: nat, n: nat, x: string, y: string)
    requires Stops(x) && Stops(y) && Digits(m) + x == Digits(n) + y
    ensures m == n && x == y
  {
    var u, v := Digits(m), Digits(n);
    NotShorter(u, v, x, y);
    NotShorter(v, u, y, x);
    assert (u + x)[..|u|] == u && (v + y)[..|u|] == v && (u + x)[|u|..] == x && (v + y)[|u|..] == y;
    DigitsInjective(m, n);
  }

  lemma DecimalHead(i: int, x: string)
    ensures (Decimal(i) + x)[0] == '-' <==> i < 0
    ensures i < 0 ==> (Decimal(i) + x)[1..] == Digits(-i) + x
  {
    if i >= 0 { assert IsDigit(Digits(i)[0]); }
  }

  lemma DecimalStops(i: int, j: int, x: string, y: string)
    requires Stops(x) && Stops(y) && Decimal(i) + x == Decimal(j) + y
    ensures i == j && x == y
  {
    DecimalHead(i, x);
    DecimalHead(j, y);
    if i < 0 { DigitsStop(-i, -j, x, y); } else { DigitsStop(i, j, x, y); }
  }

  // ----- segment names -----

  function AfterPid(size: int, index: int): string {
    "-memsize-" + (Decimal(size) + ("-index-" + Decimal(index)))
  }

  /** `client-P-memsize-S-index-I` */
  function SegmentName(pid: int, size: int, index: int): string {
    "client-" + (Decimal(pid) + AfterPid(size, index))
  }

  lemma DropCommon(p: string, x: string, y: string)
    requires p + x == p + y
    ensures x == y
  {
    assert (p + x)[|p|..] == x && (p + y)[|p|..] == y;
  }

  /** The printed form is injective, negative sizes included. */
  lemma SegmentNameInjective(p: int, s: int, i: int, p': int, s': int, i': int)
    ensures SegmentName(p, s, i) == SegmentName(p', s', i') <==> p == p' && s == s' && i == i'
  {
    if SegmentName(p, s, i) == SegmentName(p', s', i') {
      DropCommon("client-", Decimal(p) + AfterPid(s, i), Decimal(p') + AfterPid(s', i'));
      DecimalStops(p, p', AfterPid(s, i), AfterPid(s', i'));
      DropCommon("-memsize-", Decimal(s) + ("-index-" + Decimal(i)), Decimal(s') + ("-index-" + Decimal(i')));
      DecimalStops(s, s', "-index-" + Decimal(i), "-index-" + Decimal(i'));
      DropCommon("-index-", Decimal(i), Decimal(i'));
      assert Decimal(i) + [] == Decimal(i') + [];
      DecimalStops(i, i', [], []);
    }
  }

  // ----- reading a name back -----

  function DigitVal(c: char): (d: nat)
    requires IsDigit(c)
    ensures d < 10
  {
    c as int - '0' as int
  }

  predicate AllDigits(s: string) { forall i :: 0 <= i < |s| ==> IsDigit(s[i]) }

  /** The value of a run of decimal digits. */
  function Val(s: string): nat
    requires AllDigits(s)
  {
    if s == [] then 0 else Val(s[..|s| - 1]) * 10 + DigitVal(s[|s| - 1])
  }

  lemma {:induction false} ValOfDigits(n: nat)
    ensures Val(Digits(n)) == n
  {
    var s := Digits(n);
    if n >= 10 {
      ValOfDigits(n / 10);
      assert s[..|s| - 1] == Digits(n / 10);
    } else {
      assert s[..0] == [];
    }
  }

  /** Length of the longest prefix of digits. */
  function DigitRun(s: string): (k: nat)
    ensures k <= |s| && AllDigits(s[..k])
  {
    if s != [] && IsDigit(s[0]) then
      var k := DigitRun(s[1..]);
      assert s[..k + 1] == [s[0]] + s[1..][..k];
      k + 1
    else 0
  }

  function ScanDigits(s: string): Option<(nat, string)> {
    var k := DigitRun(s);
    if k == 0 then None else Some((Val(s[..k]), s[k..]))
  }

  /** `%d`: a sign and the longest run of digits. Gives the number and the rest. */
  function ScanInt(s: string): Option<(int, string)> {
    var signed := s != [] && (s[0] == '-' || s[0] == '+');
    match ScanDigits(if signed then s[1..] else s)
    case None => None
    case Some((n, rest)) =>
      var i: int := n;
      Some((if s[0] == '-' then -i else i, rest))
  }

  /** A literal part of a format, and a number after it. */
  function ScanAfter(literal: string, s: string): Option<(int, string)> {
    if literal <= s then ScanInt(s[|literal|..]) else None
  }

  /** "client-%d-memsize-%d-index-%d" */
  function ScanName(s: string): Option<(int, int, int)> {
    match ScanAfter("client-", s)
    case None => None
    case Some((pid, s1)) =>
      match ScanAfter("-memsize-", s1)
      case None => None
      case Some((size, s2)) =>
        match ScanAfter("-index-", s2)
        case None => None
        case Some((index, s3)) => if s3 == [] then Some((pid, size, index)) else None
  }

  lemma {:induction false} RunStops(s: string, rest: string)
    requires AllDigits(s) && Stops(rest)
    ensures DigitRun(s + rest) == |s|
  {
    if s != [] {
      RunStops(s[1..], rest);
      assert (s + rest)[1..] == s[1..] + rest;
    } else {
      assert s + rest == rest;
    }
  }

  lemma DigitsScan(n: nat, rest: string)
    requires Stops(rest)
    ensures ScanDigits(Digits(n) + rest) == Some((n, rest)) && IsDigit((Digits(n) + rest)[0])
  {
    var s := Digits(n);
    RunStops(s, rest);
    ValOfDigits(n);
    assert (s + rest)[..|s|] == s && (s + rest)[|s|..] == rest && (s + rest)[0] == s[0];
  }

  lemma SignedScans(s: string, n: nat, rest: string)
    requires s != [] && s[0] == '-' && ScanDigits(s[1..]) == Some((n, rest))
    ensures ScanInt(s) == Some((-(n as int), rest))
  {
  }

  lemma PlainScans(s: string, n: nat, rest: string)
    requires s != [] && IsDigit(s[0]) && ScanDigits(s) == Some((n, rest))
    ensures ScanInt(s) == Some((n as int, rest))
  {
  }

  lemma IntScans(i: int, rest: string)
    requires Stops(rest)
    ensures ScanInt(Decimal(i) + rest) == Some((i, rest))
  {
    DecimalHead(i, rest);
    if i < 0 {
      DigitsScan(-i, rest);
      SignedScans(Decimal(i) + rest, -i, rest);
    } else {
      DigitsScan(i, rest);
      PlainScans(Decimal(i) + rest, i, rest);
    }
  }

  lemma DecimalScans(literal: string, i: int, rest: string)
    requires Stops(rest)
    ensures ScanAfter(literal, literal + (Decimal(i) + rest)) == Some((i, rest))
  {
    assert (literal + (Decimal(i) + rest))[|literal|..] == Decimal(i) + rest;
    IntScans(i, rest);
  }

  /** Scanning a name gives the pid, the size and the index it was made of, in this order. */
  lemma NameReadsBack(pid: int, size: int, index: int)
    ensures ScanName(SegmentName(pid, size, index)) == Some((pid, size, index))
  {
    DecimalScans("client-", pid, AfterPid(size, index));
    DecimalScans("-memsize-", size, "-index-" + Decimal(index));
    DecimalScans("-index-", index, []);
    assert Decimal(index) + [] == Decimal(index);
  }

  /** The `char shm_name[100]` of the response. */
  const NAME_FIELD: nat := 100

  lemma DecimalFits(i: int)
    requires IsInt32(i)
    ensures |Decimal(i)| <= if i < 0 then 11 else 10
  {
    assert Pow10(10) == 10_000_000_000 by {
      assert Pow10(5) == 100_000;
      assert Pow10(6) == 1_000_000;
      assert Pow10(8) == 100_000_000;
    }
    DigitsFit(if i < 0 then -i else i, 10);
  }

  /** A name and its terminating zero fit the response. */
  lemma SegmentNameFits(pid: int, size: int, index: int)
    requires IsInt32(pid) && IsInt32(size) && IsInt32(index)
    ensures |SegmentName(pid, size, index)| <= 56 < NAME_FIELD
  {
    DecimalFits(pid);
    DecimalFits(size);
    DecimalFits(index);
  }

  // ----- the table of segments -----

  datatype Mapping = Null | Failed | At(addr: nat)

  class ShmPiece {
    const name: string
    const size: int
    var shmFd: int
    var ptr: Mapping

    constructor (name: string, size: int)
      ensures this.name == name && this.size == size && shmFd == -1 && ptr == Null
    {
      this.name, this.size := name, size;
      shmFd, ptr := -1, Null;
    }

    /** `fd` and `mapped` are what `shm_open` and `mmap` answer. */
    method Open(fd: int, mapped: Mapping) returns (ok: bool)
      modifies this
      ensures shmFd == fd && ptr == mapped && (ok <==> mapped != Failed)
    {
      shmFd := fd;
      ptr := mapped;
      ok := ptr != Failed;
    }
  }

  /** The names handed out so far, in order, for each process. */
  type Table = map<int, seq<string>>

  function Entries(t: Table, pid: int): seq<string> {
    if pid in t then t[pid] else []
  }

  /** The index is the length of a vector cast to int. */
  function NextName(t: Table, pid: int, size: int): string {
    SegmentName(pid, size, AsInt32(|Entries(t, pid)|))
  }

  function Extended(t: Table, pid: int, size: int): Table {
    t[pid := Entries(t, pid) + [NextName(t, pid, size)]]
  }

  /** The table has one name more, of process `pid`, and it reads back as the pid, the size and the
      number of names the process had. */
  ghost predicate Adds(t: Table, t': Table, pid: int, size: int) {
    var n := |Entries(t, pid)|;
    && |Entries(t', pid)| == n + 1 && Entries(t', pid)[..n] == Entries(t, pid)
    && ScanName(Entries(t', pid)[n]) == Some((pid, size, AsInt32(n)))
    && forall p :: p != pid ==> Entries(t', p) == Entries(t, p)
  }

  lemma ExtendedEntries(t: Table, pid: int, size: int)
    ensures Entries(Extended(t, pid, size), pid) == Entries(t, pid) + [NextName(t, pid, size)]
    ensures forall p :: p != pid ==> Entries(Extended(t, pid, size), p) == Entries(t, p)
  {
  }

  lemma ExtendedBy(t: Table, pid: int, size: int)
    ensures Adds(t, Extended(t, pid, size), pid, size)
  {
    var n := |Entries(t, pid)|;
    ExtendedEntries(t, pid, size);
    NameReadsBack(pid, size, AsInt32(n));
    assert Entries(Extended(t, pid, size), pid)[n] == SegmentName(pid, size, AsInt32(n));
  }

  function NamesOf(pieces: seq<ShmPiece>): (s: seq<string>)
    ensures |s| == |pieces| && forall i :: 0 <= i < |s| ==> s[i] == pieces[i].name
  {
    seq(|pieces|, i requires 0 <= i < |pieces| => pieces[i].name)
  }

  function TableOf(m: map<int, seq<ShmPiece>>): Table {
    map pid | pid in m :: NamesOf(m[pid])
  }

  lemma TableOfExtended(m: map<int, seq<ShmPiece>>, pid: int, piece: ShmPiece)
    requires piece.name == NextName(TableOf(m), pid, piece.size)
    ensures TableOf(m[pid := (if pid in m then m[pid] else []) + [piece]]) == Extended(TableOf(m), pid, piece.size)
  {
    var was := if pid in m then m[pid] else [];
    assert NamesOf(was + [piece]) == Entries(TableOf(m), pid) + [piece.name];
  }

  class SegmentTable {
    var shmMap: map<int, seq<ShmPiece>>

    ghost function Issued(): Table
      reads this
    {
      TableOf(shmMap)
    }

    constructor ()
      ensures shmMap == map[] && Issued() == map[]
    {
      shmMap := map[];
    }

    /** `addShmPiece`: the piece is kept also when it cannot be opened. */
    method AddShmPiece(pid: int, memSize: int, fd: int, mapped: Mapping) returns (sp: ShmPiece?)
      modifies this
      ensures Issued() == Extended(old(Issued()), pid, memSize)
      ensures sp == null <==> mapped == Failed
      ensures sp != null ==>
        fresh(sp) && sp.name == NextName(old(Issued()), pid, memSize) && sp.size == memSize && sp.ptr == mapped
    {
      ghost var m := shmMap;
      if pid !in shmMap { shmMap := shmMap[pid := []]; }
      var count := AsInt32(|shmMap[pid]|);
      var piece := new ShmPiece(SegmentName(pid, memSize, count), memSize);
      shmMap := shmMap[pid := shmMap[pid] + [piece]];
      TableOfExtended(m, pid, piece);
      assert shmMap == m[pid := (if pid in m then m[pid] else []) + [piece]];
      var ok := piece.Open(fd, mapped);
      sp := if ok then piece else null;
    }
  }

  // ----- every run of registrations -----

  datatype Request = Request(pid: int, size: int)

  function TableAfter(reqs: seq<Request>): Table {
    if reqs == [] then map[]
    else Extended(TableAfter(reqs[..|reqs| - 1]), reqs[|reqs| - 1].pid, reqs[|reqs| - 1].size)
  }

  /** The name the `k`-th registration gets. */
  function NameAt(reqs: seq<Request>, k: nat): string
    requires k < |reqs|
  {
    NextName(TableAfter(reqs[..k]), reqs[k].pid, reqs[k].size)
  }

  function IndexAt(reqs: seq<Request>, k: nat): nat
    requires k < |reqs|
  {
    |Entries(TableAfter(reqs[..k]), reqs[k].pid)|
  }

  lemma {:induction false} EntriesBounded(reqs: seq<Request>, pid: int)
    ensures |Entries(TableAfter(reqs), pid)| <= |reqs|
  {
    if reqs != [] { EntriesBounded(reqs[..|reqs| - 1], pid); }
  }

  lemma {:induction false} EntriesGrow(reqs: seq<Request>, j: nat, pid: int)
    requires j <= |reqs|
    ensures |Entries(TableAfter(reqs[..j]), pid)| <= |Entries(TableAfter(reqs), pid)|
  {
    if j < |reqs| {
      var prefix := reqs[..|reqs| - 1];
      EntriesGrow(prefix, j, pid);
      assert prefix[..j] == reqs[..j];
    } else {
      assert reqs[..j] == reqs;
    }
  }

  /** The per-process index strictly grows. */
  lemma IndexGrows(reqs: seq<Request>, j: nat, k: nat)
    requires j < k < |reqs| && reqs[j].pid == reqs[k].pid
    ensures IndexAt(reqs, j) < IndexAt(reqs, k)
  {
    var after := reqs[..j + 1];
    assert after[..j] == reqs[..j] && reqs[..k][..j + 1] == after;
    EntriesGrow(reqs[..k], j + 1, reqs[j].pid);
  }

  lemma AsInt32Injective(m: nat, n: nat)
    requires m < TWO_32 && n < TWO_32 && AsInt32(m) == AsInt32(n)
    ensures m == n
  {
  }

  /** No two registrations of a run get the same name, whichever of them failed. */
  lemma NamesDistinct(reqs: seq<Request>, j: nat, k: nat)
    requires |reqs| <= TWO_32 && j < |reqs| && k < |reqs|
    ensures NameAt(reqs, j) == NameAt(reqs, k) <==> j == k
  {
    EntriesBounded(reqs[..j], reqs[j].pid);
    EntriesBounded(reqs[..k], reqs[k].pid);
    SegmentNameInjective(reqs[j].pid, reqs[j].size, AsInt32(IndexAt(reqs, j)),
                         reqs[k].pid, reqs[k].size, AsInt32(IndexAt(reqs, k)));
    if NameAt(reqs, j) == NameAt(reqs, k) {
      AsInt32Injective(IndexAt(reqs, j), IndexAt(reqs, k));
      if j < k { IndexGrows(reqs, j, k); } else if k < j { IndexGrows(reqs, k, j); }
    }
  }
}
