/** What `ibv_reg_mr` does to memory: the client's pages are replaced by a segment
    the router has mapped too, and the client's bytes are carried over. */
module Memory {
  import opened Types
  import opened Sections
  import Registration

  const PAGE: nat := 4096

  type Pid = nat

  /** Where a byte lives: memory of one process, or a shared segment. */
  datatype Cell = Own(pid: Pid, addr: nat) | Segment(name: string, offset: nat)

  /** A virtual address of a process. */
  datatype Place = Place(pid: Pid, addr: nat)

  /** The router is a process of its own. */
  const ROUTER: Pid := 0

  /** The page tables, the bytes and the sizes of the segments of one host. */
  datatype Mem = Mem(at: map<Place, Cell>, store: map<Cell, byte>, sizes: map<string, nat>)

  /** Sizes are mapped in whole pages. */
  function PageUp(n: nat): (r: nat)
    ensures n <= r < n + PAGE && r % PAGE == 0
  {
    (n + PAGE - 1) / PAGE * PAGE
  }

  predicate InRange(p: Place, pid: Pid, addr: nat, n: nat) {
    p.pid == pid && addr <= p.addr < addr + n
  }

  function Range(pid: Pid, addr: nat, n: nat): (s: set<Place>)
    ensures forall p :: p in s <==> InRange(p, pid, addr, n)
  {
    set a | addr <= a < addr + n :: Place(pid, a)
  }

  predicate InSegment(c: Cell, name: string, n: nat) {
    c.Segment? && c.name == name && c.offset < n
  }

  function Cells(name: string, n: nat): (s: set<Cell>)
    ensures forall c :: c in s <==> InSegment(c, name, n)
  {
    set o | 0 <= o < n :: Segment(name, o)
  }

  /** The segment mapped at `addr` holds the byte of `addr + offset`. */
  function PlaceOf(pid: Pid, addr: nat, c: Cell): Place
    requires c.Segment?
  {
    Place(pid, addr + c.offset)
  }

  predicate Readable(m: Mem, p: Place) {
    p in m.at && m.at[p] in m.store
  }

  function Read(m: Mem, p: Place): byte
    requires Readable(m, p)
  {
    m.store[m.at[p]]
  }

  /** `ftruncate`: bytes below both sizes stay, the rest of the last page is zero. */
  function Truncated(m: Mem, name: string, size: nat): Mem {
    var was := if name in m.sizes then m.sizes[name] else 0;
    var others := map c | c in m.store && !(c.Segment? && c.name == name) :: m.store[c];
    var own := map c | c in Cells(name, PageUp(size)) ::
                 if c.offset < was && c.offset < size && c in m.store then m.store[c] else 0;
    m.(store := others + own, sizes := m.sizes[name := size])
  }

  /** `mmap` of a segment at `addr`, in place of what was mapped there. */
  function Mapped(m: Mem, pid: Pid, addr: nat, size: nat, name: string): Mem {
    m.(at := m.at + map p | p in Range(pid, addr, PageUp(size)) :: Segment(name, p.addr - addr))
  }

  function Unmapped(m: Mem, pid: Pid, addr: nat, size: nat): Mem {
    m.(at := map p | p in m.at && !InRange(p, pid, addr, PageUp(size)) :: m.at[p])
  }

  function Stored(m: Mem, p: Place, v: byte): Mem
    requires p in m.at
  {
    m.(store := m.store[m.at[p] := v])
  }

  /** After `ftruncate` a segment has exactly the bytes of its pages: those below both sizes are
      kept, the others are zero; all other memory is as it was. */
  lemma TruncatedAt(m: Mem, name: string, size: nat, c: Cell)
    ensures var m' := Truncated(m, name, size);
      var was := if name in m.sizes then m.sizes[name] else 0;
      && m'.at == m.at && m'.sizes == m.sizes[name := size]
      && (c.Segment? && c.name == name ==>
            && (c in m'.store <==> c.offset < PageUp(size))
            && (c in m'.store && c in m.store && c.offset < was && c.offset < size ==> m'.store[c] == m.store[c])
            && (c in m'.store && (c.offset >= was || c.offset >= size) ==> m'.store[c] == 0))
      && (!(c.Segment? && c.name == name) ==>
            (c in m'.store <==> c in m.store) && (c in m.store ==> m'.store[c] == m.store[c]))
  {
  }

  /** After `mmap` the pages of the range are those of the segment, in order; every other address of
      every process is mapped as it was. */
  lemma MappedAt(m: Mem, pid: Pid, addr: nat, size: nat, name: string, p: Place)
    ensures var m' := Mapped(m, pid, addr, size, name);
      && m'.store == m.store && m'.sizes == m.sizes
      && (InRange(p, pid, addr, PageUp(size)) ==> p in m'.at && m'.at[p] == Segment(name, p.addr - addr))
      && (!InRange(p, pid, addr, PageUp(size)) ==>
            (p in m'.at <==> p in m.at) && (p in m.at ==> m'.at[p] == m.at[p]))
  {
  }

  /** After `munmap` the pages of the range are gone; every other address of every process, and every
      byte, is as it was. */
  lemma UnmappedAt(m: Mem, pid: Pid, addr: nat, size: nat, p: Place)
    ensures var m' := Unmapped(m, pid, addr, size);
      && m'.store == m.store && m'.sizes == m.sizes
      && (p in m'.at <==> p in m.at && !InRange(p, pid, addr, PageUp(size)))
      && (p in m'.at ==> m'.at[p] == m.at[p] && (Readable(m, p) ==> Readable(m', p) && Read(m', p) == Read(m, p)))
  {
  }

  /** A registration: the client's range, the segment made for it and where the router mapped it. */
  datatype Piece = Piece(pid: Pid, addr: nat, length: nat, name: string, routerAddr: nat)

  /** The router keeps the length as an int. */
  function RouterSize(r: Piece): nat {
    var n := AsInt32(r.length);
    if n < 0 then 0 else n
  }

  ghost predicate AllReadable(m: Mem, pid: Pid, addr: nat, length: nat) {
    forall p :: InRange(p, pid, addr, length) ==> Readable(m, p)
  }

  /** Every mapped address has a byte, and every segment in use has a size. */
  ghost predicate Sound(m: Mem) {
    && (forall p :: p in m.at ==> m.at[p] in m.store)
    && (forall c :: c in m.store && c.Segment? ==> c.name in m.sizes)
  }

  /** The caller owns the buffer, the segment's name is new, and the kernel maps the
      segment where the router has nothing. */
  ghost predicate CanRegister(m: Mem, r: Piece) {
    && r.pid != ROUTER
    && AllReadable(m, r.pid, r.addr, r.length)
    && r.name !in m.sizes
    && Sound(m)
    && (forall p :: p in m.at ==> !InRange(p, ROUTER, r.routerAddr, PageUp(RouterSize(r))))
  }

  /** What the router does for the request. */
  function RouterMapped(m: Mem, r: Piece): Mem {
    Mapped(Truncated(m, r.name, RouterSize(r)), ROUTER, r.routerAddr, RouterSize(r), r.name)
  }

  /** The whole effect of a registration that succeeds. */
  ghost function Registered(m: Mem, r: Piece): Mem
    requires CanRegister(m, r)
  {
    var bytes := map c | c in Cells(r.name, PageUp(r.length)) ::
                   if c.offset < r.length then Read(m, PlaceOf(r.pid, r.addr, c)) else 0;
    Mapped(Mapped(Mem(m.at, m.store + bytes, m.sizes[r.name := r.length]),
                  ROUTER, r.routerAddr, RouterSize(r), r.name),
           r.pid, r.addr, r.length, r.name)
  }

  /** Every address that had a byte still has it. */
  ghost predicate KeepsBytes(m: Mem, m': Mem) {
    forall p :: Readable(m, p) ==> Readable(m', p) && Read(m', p) == Read(m, p)
  }

  lemma TruncateKeeps(m: Mem, r: Piece)
    requires CanRegister(m, r)
    ensures var m' := Truncated(m, r.name, RouterSize(r));
      && m'.at == m.at
      && (forall c :: c in m'.store <==> c in m.store || InSegment(c, r.name, PageUp(RouterSize(r))))
      && (forall c :: c in m'.store ==> m'.store[c] == if c in m.store then m.store[c] else 0)
      && KeepsBytes(m, m')
  {
    var m' := Truncated(m, r.name, RouterSize(r));
    forall c | c in m.store
      ensures c in m'.store && m'.store[c] == m.store[c]
    {
      assert c.Segment? ==> c.name in m.sizes;
    }
    forall p | Readable(m, p) ensures Readable(m', p) && Read(m', p) == Read(m, p) { assert m.at[p] in m.store; }
  }

  lemma RouterMapKeeps(m: Mem, r: Piece)
    requires CanRegister(m, r)
    ensures KeepsBytes(m, RouterMapped(m, r))
    ensures AllReadable(RouterMapped(m, r), r.pid, r.addr, r.length)
    ensures forall p :: InRange(p, r.pid, r.addr, r.length) ==> Read(RouterMapped(m, r), p) == Read(m, p)
  {
    TruncateKeeps(m, r);
    var m1 := Truncated(m, r.name, RouterSize(r));
    var m' := RouterMapped(m, r);
    forall p | Readable(m, p) ensures Readable(m', p) && Read(m', p) == Read(m, p) { assert Readable(m1, p); }
  }

  /** The client's `ftruncate` comes after the router's. */
  lemma TruncatedTwice(m: Mem, r: Piece)
    requires CanRegister(m, r) && AsInt32(r.length) > 0
    ensures var m' := Truncated(RouterMapped(m, r), r.name, r.length);
      && m'.at == RouterMapped(m, r).at && m'.sizes == m.sizes[r.name := r.length]
      && (forall c :: c in m'.store <==> c in m.store || InSegment(c, r.name, PageUp(r.length)))
      && (forall c :: c in m'.store ==> m'.store[c] == if c in m.store then m.store[c] else 0)
  {
    TruncateKeeps(m, r);
    forall c | c in m.store ensures !(c.Segment? && c.name == r.name) { assert c.Segment? ==> c.name in m.sizes; }
  }

  lemma RouterSizeFits(r: Piece)
    requires AsInt32(r.length) > 0
    ensures 0 < RouterSize(r) <= r.length && PageUp(RouterSize(r)) <= PageUp(r.length)
  {
  }

  /** `bytes` is what `[addr, addr + length)` holds. */
  ghost predicate IsCopy(m: Mem, pid: Pid, addr: nat, length: nat, bytes: seq<byte>)
    requires AllReadable(m, pid, addr, length)
  {
    |bytes| == length && forall p :: InRange(p, pid, addr, length) ==> bytes[p.addr - addr] == Read(m, p)
  }

  /** `memcpy` of `bytes` to the start of the segment. */
  function Filled(m: Mem, name: string, bytes: seq<byte>): Mem {
    m.(store := map c | c in m.store :: if InSegment(c, name, |bytes|) then bytes[c.offset] else m.store[c])
  }

  /** The client's side: the segment in place of the buffer, then the saved bytes. */
  function ClientMapped(m: Mem, r: Piece, bytes: seq<byte>): Mem {
    Filled(Mapped(Truncated(m, r.name, r.length), r.pid, r.addr, r.length, r.name), r.name, bytes)
  }

  ghost predicate IsBuffer(m: Mem, r: Piece, bytes: seq<byte>)
    requires CanRegister(m, r)
  {
    && |bytes| == r.length
    && forall c :: InSegment(c, r.name, r.length) ==>
         && InRange(PlaceOf(r.pid, r.addr, c), r.pid, r.addr, r.length)
         && bytes[c.offset] == Read(m, PlaceOf(r.pid, r.addr, c))
  }

  lemma SameMapping(m: Mem, m': Mem, pid: Pid, addr: nat, size: nat, name: string)
    requires m.at == m'.at
    ensures Mapped(m, pid, addr, size, name).at == Mapped(m', pid, addr, size, name).at
  {
  }

  lemma BuiltUp(m: Mem, r: Piece, bytes: seq<byte>)
    requires CanRegister(m, r) && AsInt32(r.length) > 0 && IsBuffer(m, r, bytes)
    ensures ClientMapped(RouterMapped(m, r), r, bytes) == Registered(m, r)
  {
    TruncatedTwice(m, r);
    var g, h := Registered(m, r), ClientMapped(RouterMapped(m, r), r, bytes);
    SameMapping(m, Truncated(m, r.name, RouterSize(r)), ROUTER, r.routerAddr, RouterSize(r), r.name);
    var m1 := Mapped(m, ROUTER, r.routerAddr, RouterSize(r), r.name);
    var m2 := Truncated(RouterMapped(m, r), r.name, r.length);
    SameMapping(m1, m2, r.pid, r.addr, r.length, r.name);
    SameBytes(m, r, bytes);
  }

  /** The bytes the segment ends up with. */
  ghost predicate Carried(base: map<Cell, byte>, final: map<Cell, byte>, name: string, size: nat, bytes: seq<byte>) {
    && (forall c :: c in final <==> c in base || InSegment(c, name, size))
    && (forall c :: c in final ==>
          final[c] == if InSegment(c, name, |bytes|) then bytes[c.offset] else if c in base then base[c] else 0)
  }

  lemma CarriedOnce(base: map<Cell, byte>, g: map<Cell, byte>, h: map<Cell, byte>, name: string, size: nat,
          bytes: seq<byte>)
    requires Carried(base, g, name, size, bytes) && Carried(base, h, name, size, bytes)
    ensures g == h
  {
    forall c | c in g ensures c in h && h[c] == g[c] { }
    forall c | c in h ensures c in g { }
  }

  lemma RegisteredCarries(m: Mem, r: Piece, bytes: seq<byte>)
    requires CanRegister(m, r) && IsBuffer(m, r, bytes)
    ensures Carried(m.store, Registered(m, r).store, r.name, PageUp(r.length), bytes)
  {
    forall c | c in m.store ensures !(c.Segment? && c.name == r.name) { assert c.Segment? ==> c.name in m.sizes; }
  }

  lemma FilledCarries(m: Mem, base: map<Cell, byte>, name: string, size: nat, bytes: seq<byte>)
    requires |bytes| <= size
    requires forall c :: c in m.store <==> c in base || InSegment(c, name, size)
    requires forall c :: c in m.store ==> m.store[c] == if c in base then base[c] else 0
    ensures Carried(base, Filled(m, name, bytes).store, name, size, bytes)
  {
  }

  lemma SameBytes(m: Mem, r: Piece, bytes: seq<byte>)
    requires CanRegister(m, r) && AsInt32(r.length) > 0 && IsBuffer(m, r, bytes)
    ensures ClientMapped(RouterMapped(m, r), r, bytes).store == Registered(m, r).store
  {
    TruncatedTwice(m, r);
    var m3 := Truncated(RouterMapped(m, r), r.name, r.length);
    FilledCarries(Mapped(m3, r.pid, r.addr, r.length, r.name), m.store, r.name, PageUp(r.length), bytes);
    RegisteredCarries(m, r, bytes);
    CarriedOnce(m.store, Registered(m, r).store, ClientMapped(RouterMapped(m, r), r, bytes).store, r.name,
      PageUp(r.length), bytes);
  }

  /** The buffer is read after the router has done its part. */
  lemma BufferRead(m: Mem, r: Piece, bytes: seq<byte>)
    requires CanRegister(m, r) && AllReadable(RouterMapped(m, r), r.pid, r.addr, r.length)
    requires IsCopy(RouterMapped(m, r), r.pid, r.addr, r.length, bytes)
    ensures IsBuffer(m, r, bytes)
  {
    RouterMapKeeps(m, r);
    forall c | InSegment(c, r.name, r.length)
      ensures InRange(PlaceOf(r.pid, r.addr, c), r.pid, r.addr, r.length)
      ensures bytes[c.offset] == Read(m, PlaceOf(r.pid, r.addr, c))
    {
      assert InRange(Place(r.pid, r.addr + c.offset), r.pid, r.addr, r.length);
    }
  }

  lemma SegmentThere(m: Mem, name: string, size: nat)
    ensures forall c :: InSegment(c, name, size) ==> c in Truncated(m, name, size).store
  {
    assert forall c :: InSegment(c, name, size) ==> c in Cells(name, PageUp(size));
  }

  /** The segment is mapped over the whole buffer. */
  lemma MappedOver(m: Mem, r: Piece)
    ensures var m' := Mapped(m, r.pid, r.addr, r.length, r.name);
      forall p :: InRange(p, r.pid, r.addr, r.length) ==> p in m'.at && m'.at[p] == Segment(r.name, p.addr - r.addr)
  {
    assert forall p :: InRange(p, r.pid, r.addr, r.length) ==> InRange(p, r.pid, r.addr, PageUp(r.length));
  }

  lemma TwiceKeeps(m: Mem, r: Piece)
    requires CanRegister(m, r) && AsInt32(r.length) > 0
    ensures KeepsBytes(m, Truncated(RouterMapped(m, r), r.name, r.length))
  {
    TruncatedTwice(m, r);
    RouterMapKeeps(m, r);
    var m' := Truncated(RouterMapped(m, r), r.name, r.length);
    forall p | Readable(m, p) ensures Readable(m', p) && Read(m', p) == Read(m, p) {
      assert Readable(RouterMapped(m, r), p);
    }
  }

  /** The memory of one host as `shm_open`, `ftruncate`, `mmap` and `memcpy` change it. */
  class Host {
    var at: map<Place, Cell>
    var store: map<Cell, byte>
    var sizes: map<string, nat>

    ghost function State(): Mem
      reads this
    {
      Mem(at, store, sizes)
    }

    method Truncate(name: string, size: nat)
      modifies this
      ensures State() == Truncated(old(State()), name, size)
    {
      var was := if name in sizes then sizes[name] else 0;
      var others := map c | c in store && !(c.Segment? && c.name == name) :: store[c];
      var own := map c | c in Cells(name, PageUp(size)) ::
                   if c.offset < was && c.offset < size && c in store then store[c] else 0;
      store := others + own;
      sizes := sizes[name := size];
    }

    method Map(pid: Pid, addr: nat, size: nat, name: string)
      modifies this`at
      ensures State() == Mapped(old(State()), pid, addr, size, name)
    {
      at := at + map p | p in Range(pid, addr, PageUp(size)) :: Segment(name, p.addr - addr);
    }

    /** `memcpy(buf, addr, length)` into a buffer outside the range. */
    method CopyOut(pid: Pid, addr: nat, length: nat) returns (buf: array<byte>)
      requires AllReadable(State(), pid, addr, length)
      ensures fresh(buf) && IsCopy(State(), pid, addr, length, buf[..])
    {
      buf := new byte[length];
      var i := 0;
      while i < length
        invariant i <= length
        invariant forall p :: InRange(p, pid, addr, i) ==>
          Readable(State(), p) && buf[p.addr - addr] == Read(State(), p)
      {
        assert InRange(Place(pid, addr + i), pid, addr, length);
        buf[i] := store[at[Place(pid, addr + i)]];
        i := i + 1;
      }
    }

    /** `memcpy(addr, buf, length)` into the freshly mapped segment. */
    method CopyIn(pid: Pid, addr: nat, buf: array<byte>, name: string)
      requires forall p :: InRange(p, pid, addr, buf.Length) ==> p in at && at[p] == Segment(name, p.addr - addr)
      requires forall c :: InSegment(c, name, buf.Length) ==> c in store
      modifies this`store
      ensures State() == Filled(old(State()), name, buf[..])
    {
      var i := 0;
      while i < buf.Length
        invariant i <= buf.Length
        invariant store.Keys == old(store.Keys)
        invariant forall c :: c in store ==>
                    store[c] == if InSegment(c, name, i) then buf[c.offset] else old(store)[c]
      {
        assert InRange(Place(pid, addr + i), pid, addr, buf.Length) && InSegment(Segment(name, i), name, buf.Length);
        store := store[at[Place(pid, addr + i)] := buf[i]];
        i := i + 1;
      }
    }

    /** The router's part of IBV_REG_MR; `maps` is the outcome of its `mmap`. */
    method ServeRegMr(r: Piece, maps: bool) returns (ok: bool)
      requires CanRegister(State(), r)
      modifies this
      ensures ok <==> AsInt32(r.length) > 0 && maps
      ensures ok ==> State() == RouterMapped(old(State()), r)
      ensures KeepsBytes(old(State()), State())
    {
      TruncateKeeps(State(), r);
      RouterMapKeeps(State(), r);
      Truncate(r.name, RouterSize(r));
      ok := AsInt32(r.length) > 0 && maps;
      if ok { Map(ROUTER, r.routerAddr, RouterSize(r), r.name); }
    }

    /** The client's part, after the router has answered. */
    method Remap(r: Piece, maps: bool) returns (ghost bytes: seq<byte>)
      requires AllReadable(State(), r.pid, r.addr, r.length)
      modifies this
      ensures IsCopy(old(State()), r.pid, r.addr, r.length, bytes)
      ensures State() ==
        if maps then ClientMapped(old(State()), r, bytes) else Truncated(old(State()), r.name, r.length)
    {
      var buf := CopyOut(r.pid, r.addr, r.length);
      bytes := buf[..];
      SegmentThere(State(), r.name, r.length);
      Truncate(r.name, r.length);
      if maps {
        MappedOver(State(), r);
        Map(r.pid, r.addr, r.length, r.name);
        CopyIn(r.pid, r.addr, buf, r.name);
      }
    }

    /** `ibv_reg_mr` of the client. */
    method RegMr(r: Piece, routerMaps: bool, clientMaps: bool) returns (ok: bool)
      requires CanRegister(State(), r)
      modifies this
      ensures ok <==> r.addr % PAGE == 0 && AsInt32(r.length) > 0 && routerMaps && clientMaps
      ensures ok ==> State() == Registered(old(State()), r)
      ensures !ok ==> KeepsBytes(old(State()), State())
    {
      ghost var m := State();
      if r.addr % PAGE != 0 { return false; }
      var served := ServeRegMr(r, routerMaps);
      if !served { return false; }
      RouterMapKeeps(m, r);
      ghost var bytes := Remap(r, clientMaps);
      BufferRead(m, r, bytes);
      BuiltUp(m, r, bytes);
      TwiceKeeps(m, r);
      ok := clientMaps;
    }
  }

  // ----- what a registration means -----

  predicate Aligned(r: Piece) { r.addr % PAGE == 0 && AsInt32(r.length) > 0 }

  /** Registration preserves memory: every byte of the buffer is unchanged, the rest of
      its last page reads zero, and no other byte of any process changes. */
  lemma MemoryPreserved(m: Mem, r: Piece, p: Place)
    requires CanRegister(m, r) && Aligned(r) && Readable(m, p)
    ensures var m' := Registered(m, r);
      && Readable(m', p)
      && Read(m', p) == if InRange(p, r.pid, r.addr, PageUp(r.length)) && !InRange(p, r.pid, r.addr, r.length) then 0
                        else Read(m, p)
  {
    var m' := Registered(m, r);
    if InRange(p, r.pid, r.addr, PageUp(r.length)) {
      var c := Segment(r.name, p.addr - r.addr);
      assert m'.at[p] == c && c in m'.store && PlaceOf(r.pid, r.addr, c) == p;
    } else {
      var c := m.at[p];
      assert m'.at[p] == c && (c.Segment? ==> c.name in m.sizes);
    }
  }

  /** The byte at offset `d` of the registration, seen by the client and by the router. */
  predicate Shares(m: Mem, r: Piece, d: nat) {
    && Place(r.pid, r.addr + d) in m.at && m.at[Place(r.pid, r.addr + d)] == Segment(r.name, d)
    && Place(ROUTER, r.routerAddr + d) in m.at && m.at[Place(ROUTER, r.routerAddr + d)] == Segment(r.name, d)
    && Segment(r.name, d) in m.store
  }

  /** Both sides see the same bytes in all pages the router maps. */
  ghost predicate SharesAll(m: Mem, r: Piece) {
    forall d :: 0 <= d < PageUp(RouterSize(r)) ==> Shares(m, r, d)
  }

  lemma ClientSide(m: Mem, r: Piece, d: nat)
    requires CanRegister(m, r) && d < PageUp(r.length)
    ensures Registered(m, r).at[Place(r.pid, r.addr + d)] == Segment(r.name, d)
    ensures Segment(r.name, d) in Registered(m, r).store
  {
    assert Place(r.pid, r.addr + d) in Range(r.pid, r.addr, PageUp(r.length));
    assert Segment(r.name, d) in Cells(r.name, PageUp(r.length));
  }

  lemma RouterSide(m: Mem, r: Piece, d: nat)
    requires CanRegister(m, r) && d < PageUp(RouterSize(r))
    ensures var p := Place(ROUTER, r.routerAddr + d);
      p in Registered(m, r).at && Registered(m, r).at[p] == Segment(r.name, d)
  {
    assert Place(ROUTER, r.routerAddr + d) in Range(ROUTER, r.routerAddr, PageUp(RouterSize(r)));
  }

  lemma RegisteredSharesAt(m: Mem, r: Piece, d: nat)
    requires CanRegister(m, r) && d < PageUp(RouterSize(r)) && d < PageUp(r.length)
    ensures Shares(Registered(m, r), r, d)
  {
    ClientSide(m, r, d);
    RouterSide(m, r, d);
  }

  lemma RegisteredShares(m: Mem, r: Piece)
    requires CanRegister(m, r) && Aligned(r)
    ensures SharesAll(Registered(m, r), r)
  {
    RouterSizeFits(r);
    var m' := Registered(m, r);
    forall d | 0 <= d < PageUp(RouterSize(r)) ensures Shares(m', r, d) { RegisteredSharesAt(m, r, d); }
  }

  // ----- how much is shared -----

  /** The router's place of a byte beyond its pages does not hold the new segment. */
  lemma RouterBeyond(m: Mem, r: Piece, d: nat)
    requires CanRegister(m, r) && PageUp(RouterSize(r)) <= d
    ensures Apart(Registered(m, r), r, d)
  {
    var p := Place(ROUTER, r.routerAddr + d);
    assert !InRange(p, ROUTER, r.routerAddr, PageUp(RouterSize(r)));
    if p in m.at { assert m.at[p].Segment? ==> m.at[p].name in m.sizes; }
  }

  /** The router has something else, or nothing, where the byte at offset `d` would be. */
  predicate Apart(m: Mem, r: Piece, d: nat) {
    && r.name in m.sizes
    && (Place(ROUTER, r.routerAddr + d) in m.at ==> m.at[Place(ROUTER, r.routerAddr + d)] != Segment(r.name, d))
  }

  /** Client and router share the byte at an offset exactly if it lies in the pages of the size
      the router keeps as an int. */
  lemma SharedIff(m: Mem, r: Piece, d: nat)
    requires CanRegister(m, r) && Aligned(r) && d < PageUp(r.length)
    ensures Shares(Registered(m, r), r, d) <==> d < PageUp(RouterSize(r))
  {
    if d < PageUp(RouterSize(r)) { RegisteredSharesAt(m, r, d); } else { RouterBeyond(m, r, d); }
  }

  ghost predicate WholeShared(m: Mem, r: Piece) {
    forall d :: 0 <= d < r.length ==> Shares(m, r, d)
  }

  /** A size that lost its upper bits is shorter by pages. */
  lemma RouterSizeShort(r: Piece)
    requires AsInt32(r.length) > 0
    ensures if r.length < 0x8000_0000 then RouterSize(r) == r.length else PageUp(RouterSize(r)) < r.length
  {
  }

  /** They share the whole buffer if and only if its length is below 2^31. */
  lemma WholeSharedIff(m: Mem, r: Piece)
    requires CanRegister(m, r) && Aligned(r)
    ensures WholeShared(Registered(m, r), r) <==> r.length < 0x8000_0000
  {
    RouterSizeShort(r);
    var m' := Registered(m, r);
    if r.length < 0x8000_0000 {
      forall d | 0 <= d < r.length ensures Shares(m', r, d) { SharedIff(m, r, d); }
    } else {
      SharedIff(m, r, PageUp(RouterSize(r)));
      assert !Shares(m', r, PageUp(RouterSize(r)));
    }
  }

  function OwnCells(pid: Pid, addr: nat, n: nat): (s: set<Cell>)
    ensures forall c :: c in s <==> c.Own? && c.pid == pid && addr <= c.addr < addr + n
  {
    set a | addr <= a < addr + n :: Own(pid, a)
  }

  /** The memory of a host with one process that has one buffer. */
  function OneBuffer(pid: Pid, addr: nat, n: nat): Mem {
    Mem(map p | p in Range(pid, addr, n) :: Own(p.pid, p.addr), map c | c in OwnCells(pid, addr, n) :: 0, map[])
  }

  lemma BufferRegisters(r: Piece)
    requires r.pid != ROUTER
    ensures CanRegister(OneBuffer(r.pid, r.addr, r.length), r)
  {
    var m := OneBuffer(r.pid, r.addr, r.length);
    forall p | InRange(p, r.pid, r.addr, r.length) ensures Readable(m, p) {
      assert p in Range(r.pid, r.addr, r.length);
    }
  }

  /** An input: a page-aligned buffer of 2^32 + 4096 bytes. Its registration succeeds, and the
      router shares the first 4096 bytes and no other. */
  lemma PartlyShared() returns (m: Mem, r: Piece)
    ensures CanRegister(m, r) && Aligned(r) && r.length == TWO_32 + 4096
    ensures forall d :: 0 <= d < r.length ==> (Shares(Registered(m, r), r, d) <==> d < 4096)
  {
    r := Piece(1, PAGE, TWO_32 + 4096, "1", PAGE);
    m := OneBuffer(r.pid, r.addr, r.length);
    BufferRegisters(r);
    var m' := Registered(m, r);
    assert AsInt32(r.length) == 4096 && PageUp(4096) == 4096;
    forall d | 0 <= d < r.length ensures Shares(m', r, d) <==> d < 4096 { SharedIff(m, r, d); }
  }

  // ----- what happens afterwards -----

  /** Later events on the host: another registration, the router's `munmap` for a
      deregistration, or a store by a process or by the router's device. */
  datatype Step = Register(r: Piece) | Unmap(addr: nat, length: nat) | Store(p: Place, v: byte)

  ghost predicate Possible(m: Mem, e: Step) {
    match e
    case Register(r) => CanRegister(m, r) && Aligned(r)
    case Unmap(_, _) => true
    case Store(p, _) => Readable(m, p)
  }

  ghost function After(m: Mem, e: Step): Mem
    requires Possible(m, e)
  {
    match e
    case Register(r) => Registered(m, r)
    case Unmap(addr, length) => Unmapped(m, ROUTER, addr, length)
    case Store(p, v) => Stored(m, p, v)
  }

  /** `Sound` is kept, so a later registration needs no more than a new name and room. */
  lemma StaysSound(m: Mem, e: Step)
    requires Sound(m) && Possible(m, e)
    ensures Sound(After(m, e))
  {
    if e.Register? { RegisterSound(m, e.r); }
  }

  lemma RegisterSound(m: Mem, r: Piece)
    requires CanRegister(m, r) && Aligned(r)
    ensures Sound(Registered(m, r))
  {
    RouterSizeFits(r);
    var m' := Registered(m, r);
    forall p | p in m'.at ensures m'.at[p] in m'.store {
      if InRange(p, r.pid, r.addr, PageUp(r.length)) { ClientSide(m, r, p.addr - r.addr); }
      else if InRange(p, ROUTER, r.routerAddr, PageUp(RouterSize(r))) {
        RouterSide(m, r, p.addr - r.routerAddr);
        ClientSide(m, r, p.addr - r.routerAddr);
      } else { assert m'.at[p] == m.at[p]; }
    }
  }

  /** The step takes a page of the registration away on one side. */
  predicate Breaks(e: Step, r: Piece) {
    match e
    case Register(s) => s.pid == r.pid && !Disjoint(s.addr, PageUp(s.length), r.addr, PageUp(RouterSize(r)))
    case Unmap(addr, length) => length > 0 && !Disjoint(addr, PageUp(length), r.routerAddr, PageUp(RouterSize(r)))
    case Store(_, _) => false
  }

  lemma RegisterBreaks(m: Mem, r: Piece, s: Piece)
    requires RouterSize(r) > 0 && SharesAll(m, r) && CanRegister(m, s) && Aligned(s) && Breaks(Register(s), r)
    ensures !SharesAll(Registered(m, s), r)
  {
    var d := if s.addr <= r.addr then 0 else s.addr - r.addr;
    assert 0 <= d < PageUp(RouterSize(r)) && InRange(Place(r.pid, r.addr + d), s.pid, s.addr, PageUp(s.length));
    assert Shares(m, r, d);
    assert s.name != r.name;
    assert Registered(m, s).at[Place(r.pid, r.addr + d)].name == s.name;
    assert !Shares(Registered(m, s), r, d);
  }

  lemma RegisterSpares(m: Mem, r: Piece, s: Piece)
    requires RouterSize(r) > 0 && r.pid != ROUTER && SharesAll(m, r) && CanRegister(m, s) && !Breaks(Register(s), r)
    ensures SharesAll(Registered(m, s), r)
  {
    var m' := Registered(m, s);
    forall d | 0 <= d < PageUp(RouterSize(r)) ensures Shares(m', r, d) {
      assert Shares(m, r, d);
      assert !InRange(Place(r.pid, r.addr + d), s.pid, s.addr, PageUp(s.length));
      assert !InRange(Place(ROUTER, r.routerAddr + d), ROUTER, s.routerAddr, PageUp(RouterSize(s)));
    }
  }

  lemma UnmapBreaks(m: Mem, r: Piece, addr: nat, length: nat)
    requires RouterSize(r) > 0 && r.pid != ROUTER && SharesAll(m, r)
    ensures SharesAll(Unmapped(m, ROUTER, addr, length), r) <==> !Breaks(Unmap(addr, length), r)
  {
    var m' := Unmapped(m, ROUTER, addr, length);
    if Breaks(Unmap(addr, length), r) {
      var d := if addr <= r.routerAddr then 0 else addr - r.routerAddr;
      assert InRange(Place(ROUTER, r.routerAddr + d), ROUTER, addr, PageUp(length));
      assert !Shares(m', r, d);
    } else {
      forall d | 0 <= d < PageUp(RouterSize(r)) ensures Shares(m', r, d) { assert Shares(m, r, d); }
    }
  }

  /** A step ends the sharing exactly when it maps something else over a page of the
      registration or unmaps one. */
  lemma SharingEndsIff(m: Mem, r: Piece, e: Step)
    requires RouterSize(r) > 0 && r.pid != ROUTER && SharesAll(m, r) && Possible(m, e)
    ensures SharesAll(After(m, e), r) <==> !Breaks(e, r)
  {
    match e
    case Register(s) => if Breaks(e, r) { RegisterBreaks(m, r, s); } else { RegisterSpares(m, r, s); }
    case Unmap(addr, length) => UnmapBreaks(m, r, addr, length);
    case Store(p, v) =>
      forall d | 0 <= d < PageUp(RouterSize(r)) ensures Shares(After(m, e), r, d) { assert Shares(m, r, d); }
  }

  ghost predicate IsLife(ms: seq<Mem>, es: seq<Step>, r: Piece) {
    && |ms| == |es| + 1
    && (forall i :: 0 <= i < |es| ==> LifeAt(ms, es, i))
    && (forall i {:trigger Breaks(es[i], r)} :: 0 <= i < |es| ==> !Breaks(es[i], r))
  }

  ghost predicate LifeAt(ms: seq<Mem>, es: seq<Step>, i: nat)
    requires i < |es| && |ms| == |es| + 1
  {
    Possible(ms[i], es[i]) && ms[i + 1] == After(ms[i], es[i])
  }

  lemma SharesNext(ms: seq<Mem>, es: seq<Step>, r: Piece, i: nat)
    requires IsLife(ms, es, r) && i < |es| && RouterSize(r) > 0 && r.pid != ROUTER && SharesAll(ms[i], r)
    ensures SharesAll(ms[i + 1], r)
  {
    assert LifeAt(ms, es, i) && !Breaks(es[i], r);
    SharingEndsIff(ms[i], r, es[i]);
  }

  lemma {:induction false} SharesOn(ms: seq<Mem>, es: seq<Step>, r: Piece, i: nat)
    requires IsLife(ms, es, r) && i < |ms| && RouterSize(r) > 0 && r.pid != ROUTER && SharesAll(ms[0], r)
    ensures SharesAll(ms[i], r)
  {
    if i > 0 {
      SharesOn(ms, es, r, i - 1);
      SharesNext(ms, es, r, i - 1);
    }
  }

  lemma ApartNext(m: Mem, r: Piece, e: Step, d: nat)
    requires Possible(m, e) && Apart(m, r, d)
    ensures Apart(After(m, e), r, d)
  {
  }

  lemma {:induction false} ApartOn(ms: seq<Mem>, es: seq<Step>, r: Piece, i: nat, d: nat)
    requires IsLife(ms, es, r) && i < |ms| && Apart(ms[0], r, d)
    ensures Apart(ms[i], r, d)
  {
    if i > 0 {
      ApartOn(ms, es, r, i - 1, d);
      assert LifeAt(ms, es, i - 1);
      ApartNext(ms[i - 1], r, es[i - 1], d);
    }
  }

  lemma SharedReads(ms: seq<Mem>, es: seq<Step>, r: Piece, i: nat, d: nat)
    requires IsLife(ms, es, r) && i < |ms| && d < PageUp(RouterSize(r))
    requires RouterSize(r) > 0 && r.pid != ROUTER && SharesAll(ms[0], r)
    ensures Readable(ms[i], Place(r.pid, r.addr + d)) && Readable(ms[i], Place(ROUTER, r.routerAddr + d))
    ensures Read(ms[i], Place(r.pid, r.addr + d)) == Read(ms[i], Place(ROUTER, r.routerAddr + d))
  {
    SharesOn(ms, es, r, i);
    assert Shares(ms[i], r, d);
  }

  /** From the registration on, and until a step of the kind named by `Breaks`, client and router
      share the byte at an offset of the buffer exactly if it lies in the router's pages. At
      those offsets they read the same byte, whoever wrote it; at the others nothing that is
      stored at the router's address changes a byte the segment gives the client. */
  lemma ReadsAgree(m: Mem, r: Piece, ms: seq<Mem>, es: seq<Step>, i: nat, d: nat)
    requires CanRegister(m, r) && Aligned(r) && IsLife(ms, es, r) && ms[0] == Registered(m, r)
    requires i < |ms| && d < PageUp(r.length)
    ensures var here, there := Place(r.pid, r.addr + d), Place(ROUTER, r.routerAddr + d);
      && (Shares(ms[i], r, d) <==> d < PageUp(RouterSize(r)))
      && (d < PageUp(RouterSize(r)) ==>
            Readable(ms[i], here) && Readable(ms[i], there) && Read(ms[i], here) == Read(ms[i], there))
      && (d >= PageUp(RouterSize(r)) && there in ms[i].at && Readable(ms[i], here)
            && ms[i].at[here] == Segment(r.name, d) ==>
            forall v :: Read(Stored(ms[i], there, v), here) == Read(ms[i], here))
  {
    RegisteredShares(m, r);
    if d < PageUp(RouterSize(r)) {
      SharedReads(ms, es, r, i, d);
      SharesOn(ms, es, r, i);
    } else {
      RouterBeyond(m, r, d);
      ApartOn(ms, es, r, i, d);
    }
  }

  /** A transfer of the device to the translated address of a client address arrives at
      that client address, and at no other offset of the buffer. */
  lemma TransferArrives(m: Mem, r: Piece, d: nat, e: nat, v: byte)
    requires SharesAll(m, r) && d < PageUp(RouterSize(r)) && e < PageUp(RouterSize(r))
    requires r.routerAddr + d < TWO_64
    ensures var target := Place(ROUTER, Translate((r.addr + d) % TWO_64, Offset(r.routerAddr, r.addr)));
      && Readable(m, target) && Readable(m, Place(r.pid, r.addr + e))
      && Readable(Stored(m, target, v), Place(r.pid, r.addr + e))
      && Read(Stored(m, target, v), Place(r.pid, r.addr + e)) == if d == e then v else Read(m, Place(r.pid, r.addr + e))
  {
    Registration.TranslateExact(r.routerAddr, r.addr, d);
    assert Shares(m, r, d) && Shares(m, r, e);
  }
}
