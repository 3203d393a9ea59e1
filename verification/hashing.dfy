/** Hash-table lookup of host keys and gids, against plain finite maps. */
module Hashing {
  import opened Types

  // ----- the hash of a host key -----

  /** The 32 packed bytes of a HostKey. */
  datatype Key = Key(src: seq<byte>, dst: seq<byte>)

  predicate Packed(k: Key) { |k.src| == 16 && |k.dst| == 16 }

  /** A string as `std::string(char *)` reads it: up to the first zero byte. */
  function CString(mem: seq<byte>): (s: seq<byte>)
    ensures s <= mem && 0 !in s
    ensures |s| < |mem| ==> mem[|s|] == 0
  {
    if mem == [] || mem[0] == 0 then [] else [mem[0]] + CString(mem[1..])
  }

  /** `hash<HostKey>` of a key that `tail` follows in memory, for any string hash. */
  function HostHash(strHash: seq<byte> -> bv64, k: Key, tail: seq<byte>): bv64 {
    strHash(CString(k.src + k.dst + tail)) ^ (strHash(CString(k.dst + tail)) << 1)
  }

  /** The hash of either string can be taken out of the hash of the key. */
  lemma HashParts(strHash: seq<byte> -> bv64, k: Key, tail: seq<byte>)
    ensures HostHash(strHash, k, tail) ^ strHash(CString(k.src + k.dst + tail)) == strHash(CString(k.dst + tail)) << 1
    ensures HostHash(strHash, k, tail) ^ (strHash(CString(k.dst + tail)) << 1) == strHash(CString(k.src + k.dst + tail))
  {
  }

  lemma {:induction false} CStringStops(mem: seq<byte>, tail: seq<byte>)
    requires 0 in mem
    ensures CString(mem + tail) == CString(mem) && |CString(mem)| < |mem|
  {
    if mem[0] != 0 {
      CStringStops(mem[1..], tail);
      assert (mem + tail)[1..] == mem[1..] + tail;
    }
  }

  /** The string is the one prefix without a zero byte that a zero byte or the end follows. */
  lemma CStringIs(mem: seq<byte>, s: seq<byte>)
    requires s <= mem && 0 !in s && (|s| < |mem| ==> mem[|s|] == 0)
    ensures CString(mem) == s
  {
    var c := CString(mem);
    assert forall i :: 0 <= i < |s| ==> mem[i] == s[i] && s[i] != 0;
    assert forall i :: 0 <= i < |c| ==> mem[i] == c[i] && c[i] != 0;
  }

  lemma CStringRuns(mem: seq<byte>, tail: seq<byte>)
    requires 0 !in mem
    ensures CString(mem + tail) == mem + CString(tail)
  {
    CStringIs(mem + tail, mem + CString(tail));
  }

  /** Both walks stop inside the key's own 32 bytes exactly when dst_gid has a zero byte. */
  lemma WalksStayInside(k: Key, tail: seq<byte>)
    requires Packed(k)
    ensures (|CString(k.src + k.dst + tail)| < 32 && |CString(k.dst + tail)| < 16) <==> 0 in k.dst
  {
    if 0 in k.dst {
      var i :| 0 <= i < |k.dst| && k.dst[i] == 0;
      assert (k.src + k.dst)[16 + i] == 0;
      CStringStops(k.dst, tail);
      CStringStops(k.src + k.dst, tail);
    } else {
      CStringRuns(k.dst, tail);
    }
  }

  /** A string hash that tells strings of 17 bytes from the others. */
  function LengthHash(s: seq<byte>): bv64 { if |s| == 17 then 1 else 0 }

  lemma TailShows(k: Key)
    requires Packed(k) && 0 !in k.dst
    ensures HostHash(LengthHash, k, [0]) == 0 && HostHash(LengthHash, k, [1, 0]) == 2
  {
    CStringRuns(k.dst, [0]);
    CStringRuns(k.dst, [1, 0]);
    assert CString([0]) == [] && [1, 0][1..] == [0] && CString([1, 0]) == [1] + CString([0]);
    assert |CString(k.dst + [0])| == 16 && |CString(k.dst + [1, 0])| == 17;
    SourceLength(k, [0]);
    SourceLength(k, [1, 0]);
  }

  /** The walk from src_gid ends within the first 16 bytes or runs on through all of dst_gid. */
  lemma SourceLength(k: Key, tail: seq<byte>)
    requires Packed(k) && 0 !in k.dst
    ensures var n := |CString(k.src + k.dst + tail)|; n < 16 || n >= 32
  {
    assert k.src + k.dst + tail == k.src + (k.dst + tail);
    if 0 in k.src { CStringStops(k.src, k.dst + tail); }
    else {
      CStringRuns(k.src, k.dst + tail);
      CStringRuns(k.dst, tail);
    }
  }

  ghost predicate TailBlind(k: Key) {
    forall strHash: seq<byte> -> bv64, t: seq<byte>, t': seq<byte> ::
      HostHash(strHash, k, t) == HostHash(strHash, k, t')
  }

  /** The hash is a function of the key, whatever the string hash and wherever the key
      lies in memory, exactly when dst_gid has a zero byte. */
  lemma HashOfKeyIff(k: Key)
    requires Packed(k)
    ensures TailBlind(k) <==> 0 in k.dst
  {
    if 0 in k.dst {
      forall strHash: seq<byte> -> bv64, t: seq<byte>, t': seq<byte>
        ensures HostHash(strHash, k, t) == HostHash(strHash, k, t')
      {
        HashStable(strHash, k, t);
        HashStable(strHash, k, t');
      }
    } else {
      TailShows(k);
    }
  }

  lemma HashStable(strHash: seq<byte> -> bv64, k: Key, tail: seq<byte>)
    requires Packed(k) && 0 in k.dst
    ensures HostHash(strHash, k, tail) == strHash(CString(k.src + k.dst)) ^ (strHash(CString(k.dst)) << 1)
  {
    StringsStable(k, tail);
  }

  lemma StringsStable(k: Key, tail: seq<byte>)
    requires Packed(k) && 0 in k.dst
    ensures CString(k.src + k.dst + tail) == CString(k.src + k.dst) && CString(k.dst + tail) == CString(k.dst)
  {
    var i :| 0 <= i < |k.dst| && k.dst[i] == 0;
    assert (k.src + k.dst)[16 + i] == 0;
    CStringStops(k.dst, tail);
    CStringStops(k.src + k.dst, tail);
  }

  // ----- the hash of a gid -----

  function Mixed(h: bv64, i: bv8): bv64 {
    h ^ ((i as bv64) + 0x9e3779b9 + (h << 6) + (h >> 2))
  }

  /** Bytes in order, starting from zero. */
  function GidHash(s: seq<bv8>): bv64 {
    if s == [] then 0 else Mixed(GidHash(s[..|s| - 1]), s[|s| - 1])
  }

  /** Two known values; the order of the bytes matters. */
  lemma GidHashValues()
    ensures GidHash([1]) == 0x9e3779ba && GidHash([1, 2]) == 0x28cd94bf13 && GidHash([2, 1]) != GidHash([1, 2])
  {
    assert [1][..0] == [] && [1, 2][..1] == [1] && [2][..0] == [] && [2, 1][..1] == [2];
    assert GidHash([]) == 0;
    assert Mixed(0, 1) == 0x9e3779ba && Mixed(0x9e3779ba, 2) == 0x28cd94bf13;
    assert Mixed(0, 2) == 0x9e3779bb && Mixed(0x9e3779bb, 1) == 0x28cd94bf53;
  }

  /** `ArrayHasher` */
  method ArrayHash(arr: array<bv8>) returns (h: bv64)
    ensures h == GidHash(arr[..])
  {
    h := 0;
    for i := 0 to arr.Length
      invariant h == GidHash(arr[..i])
    {
      h := Mixed(h, arr[i]);
      assert arr[..i + 1][..i] == arr[..i];
    }
    assert arr[..arr.Length] == arr[..];
  }

  // ----- a chained table -----

  /** The table keeps the hash code with each entry. */
  datatype Entry<K, V> = Entry(code: nat, key: K, val: V)

  type Chain<K, V> = seq<Entry<K, V>>

  function BucketOf(code: nat, n: nat): (b: nat)
    requires n > 0
    ensures b < n
  {
    code % n
  }

  predicate Matches<K(==), V>(e: Entry<K, V>, code: nat, key: K) {
    e.code == code && e.key == key
  }

  /** Position of the first entry that matches, or the length. */
  function Position<K(==), V>(c: Chain<K, V>, code: nat, key: K): (i: nat)
    ensures i <= |c| && (i < |c| ==> Matches(c[i], code, key))
    ensures forall j :: 0 <= j < i ==> !Matches(c[j], code, key)
  {
    if c == [] || Matches(c[0], code, key) then 0 else 1 + Position(c[1..], code, key)
  }

  function Found<K(==), V>(c: Chain<K, V>, code: nat, key: K): Option<V> {
    var i := Position(c, code, key);
    if i < |c| then Some(c[i].val) else None
  }

  function ChainPut<K(==), V>(c: Chain<K, V>, code: nat, key: K, val: V): Chain<K, V> {
    var i := Position(c, code, key);
    if i < |c| then c[i := Entry(code, key, val)] else [Entry(code, key, val)] + c
  }

  function ChainErase<K(==), V>(c: Chain<K, V>, code: nat, key: K): Chain<K, V> {
    var i := Position(c, code, key);
    if i < |c| then c[..i] + c[i + 1..] else c
  }

  type Buckets<K, V> = seq<Chain<K, V>>

  function Lookup<K(==), V>(bs: Buckets<K, V>, code: nat, key: K): Option<V>
    requires |bs| > 0
  {
    Found(bs[BucketOf(code, |bs|)], code, key)
  }

  function Put<K(==), V>(bs: Buckets<K, V>, code: nat, key: K, val: V): Buckets<K, V>
    requires |bs| > 0
  {
    var b := BucketOf(code, |bs|);
    bs[b := ChainPut(bs[b], code, key, val)]
  }

  function Erase<K(==), V>(bs: Buckets<K, V>, code: nat, key: K): Buckets<K, V>
    requires |bs| > 0
  {
    var b := BucketOf(code, |bs|);
    bs[b := ChainErase(bs[b], code, key)]
  }

  /** The table in place. */
  class Table<K(==), V> {
    var buckets: array<Chain<K, V>>

    constructor (n: nat)
      requires n > 0
      ensures fresh(buckets) && buckets.Length == n && forall b :: 0 <= b < n ==> buckets[b] == []
    {
      buckets := new Chain<K, V>[n](_ => []);
    }

    /** Walks the chain of the code's bucket. */
    method Locate(code: nat, key: K) returns (b: nat, i: nat)
      requires buckets.Length > 0
      ensures b == BucketOf(code, buckets.Length) && i == Position(buckets[b], code, key)
    {
      b := BucketOf(code, buckets.Length);
      i := 0;
      while i < |buckets[b]| && !Matches(buckets[b][i], code, key)
        invariant i <= |buckets[b]|
        invariant forall j :: 0 <= j < i ==> !Matches(buckets[b][j], code, key)
      {
        i := i + 1;
      }
    }

    method Find(code: nat, key: K) returns (r: Option<V>)
      requires buckets.Length > 0
      ensures r == Lookup(buckets[..], code, key)
    {
      var b, i := Locate(code, key);
      r := if i < |buckets[b]| then Some(buckets[b][i].val) else None;
    }

    method Insert(code: nat, key: K, val: V)
      requires buckets.Length > 0
      modifies buckets
      ensures buckets[..] == Put(old(buckets[..]), code, key, val)
    {
      var b, i := Locate(code, key);
      buckets[b] := if i < |buckets[b]| then buckets[b][i := Entry(code, key, val)]
                    else [Entry(code, key, val)] + buckets[b];
    }

    method Remove(code: nat, key: K)
      requires buckets.Length > 0
      modifies buckets
      ensures buckets[..] == Erase(old(buckets[..]), code, key)
    {
      var b, i := Locate(code, key);
      if i < |buckets[b]| { buckets[b] := buckets[b][..i] + buckets[b][i + 1..]; }
    }
  }

  // ----- refinement -----

  /** Every entry lies in the bucket of its code, its code is that of its key, and no
      key occurs twice. */
  ghost predicate Valid<K(!new), V(!new)>(bs: Buckets<K, V>, codeOf: K -> nat) {
    && |bs| > 0
    && (forall b, i :: 0 <= b < |bs| && 0 <= i < |bs[b]| ==> EntryOk(bs[b][i], b, |bs|, codeOf))
    && (forall b :: 0 <= b < |bs| ==> Unique(bs[b]))
  }

  ghost predicate EntryOk<K(!new), V(!new)>(e: Entry<K, V>, b: nat, n: nat, codeOf: K -> nat)
    requires n > 0
  {
    e.code == codeOf(e.key) && BucketOf(e.code, n) == b
  }

  ghost predicate Unique<K(!new), V(!new)>(c: Chain<K, V>) {
    forall i, j :: 0 <= i < j < |c| ==> c[i].key != c[j].key
  }

  ghost predicate Represents<K(!new), V(!new)>(bs: Buckets<K, V>, codeOf: K -> nat, m: map<K, V>) {
    Valid(bs, codeOf) && forall k :: Lookup(bs, codeOf(k), k) == if k in m then Some(m[k]) else None
  }

  lemma FirstIs<K, V>(c: Chain<K, V>, code: nat, key: K, i: nat)
    requires i <= |c| && (i < |c| ==> Matches(c[i], code, key))
    requires forall j :: 0 <= j < i ==> !Matches(c[j], code, key)
    ensures Position(c, code, key) == i
  {
  }

  lemma FoundAfterPut<K, V>(c: Chain<K, V>, code: nat, key: K, val: V, code': nat, key': K)
    ensures Found(ChainPut(c, code, key, val), code', key') ==
      if code' == code && key' == key then Some(val) else Found(c, code', key')
  {
    var c' := ChainPut(c, code, key, val);
    var i, j := Position(c, code, key), Position(c, code', key');
    if i < |c| {
      FirstIs(c', code', key', j);
    } else {
      var same := code' == code && key' == key;
      forall k | 0 <= k < (if same then 0 else j + 1) ensures !Matches(c'[k], code', key') {
        if k > 0 { assert c'[k] == c[k - 1]; }
      }
      FirstIs(c', code', key', if same then 0 else j + 1);
    }
  }

  lemma FoundAfterErase<K(!new), V(!new)>(c: Chain<K, V>, code: nat, key: K, code': nat, key': K)
    requires Unique(c)
    ensures Found(ChainErase(c, code, key), code', key') ==
      if code' == code && key' == key then None else Found(c, code', key')
  {
    var c' := ChainErase(c, code, key);
    var i, j := Position(c, code, key), Position(c, code', key');
    if i < |c| {
      var same := code' == code && key' == key;
      var j' := if same then |c'| else if j < i then j else j - 1;
      forall k | 0 <= k < j' ensures !Matches(c'[k], code', key') {
        assert c'[k] == c[if k < i then k else k + 1];
      }
      FirstIs(c', code', key', j');
    }
  }

  lemma UniqueAfterPut<K(!new), V(!new)>(c: Chain<K, V>, codeOf: K -> nat, key: K, val: V)
    requires Unique(c) && forall i :: 0 <= i < |c| ==> c[i].code == codeOf(c[i].key)
    ensures Unique(ChainPut(c, codeOf(key), key, val))
  {
    var c' := ChainPut(c, codeOf(key), key, val);
    var i := Position(c, codeOf(key), key);
    forall a, b | 0 <= a < b < |c'| ensures c'[a].key != c'[b].key {
      if i == |c| {
        assert c'[b] == c[b - 1];
        assert !Matches(c[b - 1], codeOf(key), key);
        if a > 0 { assert c'[a] == c[a - 1]; }
      }
    }
  }

  lemma UniqueAfterErase<K(!new), V(!new)>(c: Chain<K, V>, code: nat, key: K)
    requires Unique(c)
    ensures Unique(ChainErase(c, code, key))
  {
    var c' := ChainErase(c, code, key);
    var i := Position(c, code, key);
    forall a, b | 0 <= a < b < |c'| ensures c'[a].key != c'[b].key {
      if i < |c| { assert c'[a] == c[if a < i then a else a + 1] && c'[b] == c[if b < i then b else b + 1]; }
    }
  }

  ghost predicate ChainOk<K(!new), V(!new)>(c: Chain<K, V>, b: nat, n: nat, codeOf: K -> nat)
    requires n > 0
  {
    Unique(c) && forall i :: 0 <= i < |c| ==> EntryOk(c[i], b, n, codeOf)
  }

  lemma PutRepresents<K(!new), V(!new)>(bs: Buckets<K, V>, codeOf: K -> nat, m: map<K, V>, key: K, val: V)
    requires Represents(bs, codeOf, m)
    ensures Represents(Put(bs, codeOf(key), key, val), codeOf, m[key := val])
  {
    var bs' := Put(bs, codeOf(key), key, val);
    var at := BucketOf(codeOf(key), |bs|);
    UniqueAfterPut(bs[at], codeOf, key, val);
    forall b | 0 <= b < |bs| ensures ChainOk(bs'[b], b, |bs|, codeOf) {
      assert ChainOk(bs[b], b, |bs|, codeOf);
    }
    forall k ensures Lookup(bs', codeOf(k), k) == if k in m[key := val] then Some(m[key := val][k]) else None {
      FoundAfterPut(bs[at], codeOf(key), key, val, codeOf(k), k);
      assert Lookup(bs, codeOf(k), k) == if k in m then Some(m[k]) else None;
    }
  }

  lemma EraseRepresents<K(!new), V(!new)>(bs: Buckets<K, V>, codeOf: K -> nat, m: map<K, V>, key: K)
    requires Represents(bs, codeOf, m)
    ensures Represents(Erase(bs, codeOf(key), key), codeOf, m - {key})
  {
    var bs' := Erase(bs, codeOf(key), key);
    var at := BucketOf(codeOf(key), |bs|);
    UniqueAfterErase(bs[at], codeOf(key), key);
    forall b | 0 <= b < |bs| ensures ChainOk(bs'[b], b, |bs|, codeOf) {
      assert ChainOk(bs[b], b, |bs|, codeOf);
    }
    forall k ensures Lookup(bs', codeOf(k), k) == if k in m - {key} then Some((m - {key})[k]) else None {
      FoundAfterErase(bs[at], codeOf(key), key, codeOf(k), k);
      assert Lookup(bs, codeOf(k), k) == if k in m then Some(m[k]) else None;
    }
  }

  // ----- growing the table -----

  function Flat<K, V>(bs: Buckets<K, V>): Chain<K, V> {
    if bs == [] then [] else bs[0] + Flat(bs[1..])
  }

  /** The entries of `c` that belong to bucket `b` of `n`. */
  function Share<K, V>(c: Chain<K, V>, b: nat, n: nat): Chain<K, V>
    requires n > 0
  {
    if c == [] then [] else (if BucketOf(c[0].code, n) == b then [c[0]] else []) + Share(c[1..], b, n)
  }

  /** The codes kept with the entries are spread over `n` buckets. */
  function Rehashed<K, V>(bs: Buckets<K, V>, n: nat): Buckets<K, V>
    requires n > 0
  {
    seq(n, b requires 0 <= b < n => Share(Flat(bs), b, n))
  }

  lemma FoundInParts<K, V>(c: Chain<K, V>, d: Chain<K, V>, code: nat, key: K)
    ensures Found(c + d, code, key) == if Found(c, code, key).Some? then Found(c, code, key) else Found(d, code, key)
  {
    var i, j, k := Position(c, code, key), Position(d, code, key), Position(c + d, code, key);
    assert forall a :: 0 <= a < |c| ==> (c + d)[a] == c[a];
    assert forall a :: 0 <= a < |d| ==> (c + d)[|c| + a] == d[a];
  }

  lemma {:induction false} FoundInShare<K, V>(c: Chain<K, V>, n: nat, code: nat, key: K)
    requires n > 0
    ensures Found(Share(c, BucketOf(code, n), n), code, key) == Found(c, code, key)
  {
    if c != [] {
      FoundInShare(c[1..], n, code, key);
      FoundInParts([c[0]], c[1..], code, key);
      FoundInParts([c[0]], Share(c[1..], BucketOf(code, n), n), code, key);
      assert c == [c[0]] + c[1..];
      assert [] + Share(c[1..], BucketOf(code, n), n) == Share(c[1..], BucketOf(code, n), n);
      assert BucketOf(c[0].code, n) != BucketOf(code, n) ==> !Matches(c[0], code, key);
    }
  }

  lemma {:induction false} NotFoundElsewhere<K(!new), V(!new)>(c: Chain<K, V>, b: nat, n: nat,
          codeOf: K -> nat, code: nat, key: K)
    requires n > 0 && (forall i :: 0 <= i < |c| ==> EntryOk(c[i], b, n, codeOf)) && BucketOf(code, n) != b
    ensures Found(c, code, key) == None
  {
    FirstIs(c, code, key, |c|);
  }

  /** The buckets from number `t` on hold the entries of those buckets and no others. */
  ghost predicate PlacedFrom<K(!new), V(!new)>(bs: Buckets<K, V>, t: nat, n: nat, codeOf: K -> nat) {
    n == t + |bs| && n > 0 && forall b :: 0 <= b < |bs| ==> ChainOk(bs[b], t + b, n, codeOf)
  }

  lemma PlacedTail<K(!new), V(!new)>(bs: Buckets<K, V>, t: nat, n: nat, codeOf: K -> nat)
    requires PlacedFrom(bs, t, n, codeOf) && bs != []
    ensures PlacedFrom(bs[1..], t + 1, n, codeOf) && ChainOk(bs[0], t, n, codeOf)
  {
    forall b | 0 <= b < |bs| - 1 ensures ChainOk(bs[1..][b], t + 1 + b, n, codeOf) {
      assert ChainOk(bs[b + 1], t + (b + 1), n, codeOf);
    }
    assert ChainOk(bs[0], t + 0, n, codeOf);
  }

  lemma {:induction false} FoundInFlat<K(!new), V(!new)>(bs: Buckets<K, V>, t: nat, n: nat, codeOf: K -> nat,
          code: nat, key: K)
    requires PlacedFrom(bs, t, n, codeOf)
    ensures Found(Flat(bs), code, key) ==
      if BucketOf(code, n) < t then None else Found(bs[BucketOf(code, n) - t], code, key)
  {
    if bs != [] {
      PlacedTail(bs, t, n, codeOf);
      FoundInFlat(bs[1..], t + 1, n, codeOf, code, key);
      FoundInParts(bs[0], Flat(bs[1..]), code, key);
      if BucketOf(code, n) != t { NotFoundElsewhere(bs[0], t, n, codeOf, code, key); }
    }
  }

  /** Entries of a chain all of whose buckets are `t` or later. */
  ghost predicate From<K(!new), V(!new)>(c: Chain<K, V>, t: nat, n: nat, codeOf: K -> nat)
    requires n > 0
  {
    forall i :: 0 <= i < |c| ==> c[i].code == codeOf(c[i].key) && BucketOf(c[i].code, n) >= t
  }

  lemma {:induction false} FlatUnique<K(!new), V(!new)>(bs: Buckets<K, V>, t: nat, n: nat, codeOf: K -> nat)
    requires PlacedFrom(bs, t, n, codeOf)
    ensures Unique(Flat(bs)) && From(Flat(bs), t, n, codeOf)
  {
    if bs != [] {
      PlacedTail(bs, t, n, codeOf);
      FlatUnique(bs[1..], t + 1, n, codeOf);
      var rest := Flat(bs[1..]);
      forall i, j | 0 <= i < j < |Flat(bs)| ensures Flat(bs)[i].key != Flat(bs)[j].key {
        if i < |bs[0]| <= j { assert EntryOk(bs[0][i], t, n, codeOf) && Flat(bs)[j] == rest[j - |bs[0]|]; }
      }
      forall i | 0 <= i < |Flat(bs)|
        ensures Flat(bs)[i].code == codeOf(Flat(bs)[i].key) && BucketOf(Flat(bs)[i].code, n) >= t
      {
        if i < |bs[0]| { assert EntryOk(bs[0][i], t, n, codeOf); }
      }
    }
  }

  lemma {:induction false} ShareOk<K(!new), V(!new)>(c: Chain<K, V>, b: nat, n: nat, codeOf: K -> nat)
    requires n > 0 && Unique(c) && forall i :: 0 <= i < |c| ==> c[i].code == codeOf(c[i].key)
    ensures ChainOk(Share(c, b, n), b, n, codeOf)
    ensures forall e :: e in Share(c, b, n) ==> e in c
  {
    if c != [] {
      ShareOk(c[1..], b, n, codeOf);
      var s, rest := Share(c, b, n), Share(c[1..], b, n);
      assert forall e :: e in rest ==> e.key != c[0].key;
      forall i | 0 <= i < |s| ensures EntryOk(s[i], b, n, codeOf) {
        if |s| > |rest| && i > 0 { assert s[i] == rest[i - 1]; }
      }
      forall i, j | 0 <= i < j < |s| ensures s[i].key != s[j].key {
        if |s| > |rest| { assert s[j] == rest[j - 1] && rest[j - 1] in rest; }
      }
    }
  }

  lemma RehashRepresents<K(!new), V(!new)>(bs: Buckets<K, V>, codeOf: K -> nat, m: map<K, V>, n: nat)
    requires Represents(bs, codeOf, m) && n > 0
    ensures Represents(Rehashed(bs, n), codeOf, m)
  {
    var bs' := Rehashed(bs, n);
    forall b | 0 <= b < |bs| ensures ChainOk(bs[b], 0 + b, |bs|, codeOf) { }
    FlatUnique(bs, 0, |bs|, codeOf);
    forall b | 0 <= b < n ensures ChainOk(bs'[b], b, n, codeOf) { ShareOk(Flat(bs), b, n, codeOf); }
    forall k ensures Lookup(bs', codeOf(k), k) == if k in m then Some(m[k]) else None {
      FoundInFlat(bs, 0, |bs|, codeOf, codeOf(k), k);
      FoundInShare(Flat(bs), n, codeOf(k), k);
    }
  }

  // ----- any sequence of operations -----

  /** The operations of the router on host_map, and the table's own growth. `tail` is what
      follows the key argument in memory. */
  datatype Op<V> =
    | OpFind(key: Key, tail: seq<byte>)
    | OpPut(key: Key, tail: seq<byte>, val: V)
    | OpErase(key: Key, tail: seq<byte>)
    | OpGrow(n: nat)

  predicate Possible<V>(op: Op<V>) {
    if op.OpGrow? then op.n > 0 else Packed(op.key) && 0 in op.key.dst
  }

  function CodeAt(strHash: seq<byte> -> bv64, k: Key, tail: seq<byte>): nat {
    HostHash(strHash, k, tail) as nat
  }

  function TableStep<V>(strHash: seq<byte> -> bv64, bs: Buckets<Key, V>, op: Op<V>): Buckets<Key, V>
    requires |bs| > 0 && Possible(op)
  {
    match op
    case OpFind(_, _) => bs
    case OpPut(k, t, v) => Put(bs, CodeAt(strHash, k, t), k, v)
    case OpErase(k, t) => Erase(bs, CodeAt(strHash, k, t), k)
    case OpGrow(n) => Rehashed(bs, n)
  }

  function MapStep<V>(m: map<Key, V>, op: Op<V>): map<Key, V> {
    match op
    case OpFind(_, _) => m
    case OpPut(k, _, v) => m[k := v]
    case OpErase(k, _) => m - {k}
    case OpGrow(_) => m
  }

  function TableRun<V>(strHash: seq<byte> -> bv64, bs: Buckets<Key, V>, ops: seq<Op<V>>): (r: Buckets<Key, V>)
    requires |bs| > 0 && forall i :: 0 <= i < |ops| ==> Possible(ops[i])
    ensures |r| > 0
  {
    if ops == [] then bs else TableStep(strHash, TableRun(strHash, bs, ops[..|ops| - 1]), ops[|ops| - 1])
  }

  function MapRun<V>(m: map<Key, V>, ops: seq<Op<V>>): map<Key, V> {
    if ops == [] then m else MapStep(MapRun(m, ops[..|ops| - 1]), ops[|ops| - 1])
  }

  ghost function CodeOf(strHash: seq<byte> -> bv64): Key -> nat {
    k => CodeAt(strHash, k, [])
  }

  lemma CodeSettled(strHash: seq<byte> -> bv64, k: Key, tail: seq<byte>)
    requires Packed(k) && 0 in k.dst
    ensures CodeAt(strHash, k, tail) == CodeOf(strHash)(k)
  {
    HashStable(strHash, k, tail);
    HashStable(strHash, k, []);
  }

  function Empty<K, V>(n: nat): (bs: Buckets<K, V>)
    ensures |bs| == n && forall b :: 0 <= b < n ==> bs[b] == []
  {
    seq(n, _ => [])
  }

  lemma EmptyRepresents<K(!new), V(!new)>(n: nat, codeOf: K -> nat)
    requires n > 0
    ensures Represents<K, V>(Empty(n), codeOf, map[])
  {
  }

  lemma LookupAnswers<K(!new), V(!new)>(bs: Buckets<K, V>, codeOf: K -> nat, m: map<K, V>, k: K)
    requires Represents(bs, codeOf, m)
    ensures Lookup(bs, codeOf(k), k) == if k in m then Some(m[k]) else None
  {
  }

  lemma StepRefines<V(!new)>(strHash: seq<byte> -> bv64, bs: Buckets<Key, V>, m: map<Key, V>, op: Op<V>)
    requires Represents(bs, CodeOf(strHash), m) && Possible(op)
    ensures Represents(TableStep(strHash, bs, op), CodeOf(strHash), MapStep(m, op))
  {
    match op
    case OpFind(_, _) =>
    case OpPut(k, t, v) => CodeSettled(strHash, k, t); PutRepresents(bs, CodeOf(strHash), m, k, v);
    case OpErase(k, t) => CodeSettled(strHash, k, t); EraseRepresents(bs, CodeOf(strHash), m, k);
    case OpGrow(n) => RehashRepresents(bs, CodeOf(strHash), m, n);
  }

  lemma {:induction false} RunRefines<V(!new)>(strHash: seq<byte> -> bv64, bs: Buckets<Key, V>, m: map<Key, V>,
          ops: seq<Op<V>>)
    requires Represents(bs, CodeOf(strHash), m) && forall i :: 0 <= i < |ops| ==> Possible(ops[i])
    ensures Represents(TableRun(strHash, bs, ops), CodeOf(strHash), MapRun(m, ops))
  {
    if ops != [] {
      RunRefines(strHash, bs, m, ops[..|ops| - 1]);
      StepRefines(strHash, TableRun(strHash, bs, ops[..|ops| - 1]), MapRun(m, ops[..|ops| - 1]), ops[|ops| - 1]);
    }
  }

  /** After any sequence of operations on an empty table, a lookup answers as the plain
      map does, wherever the key it is given lies in memory. */
  lemma LookupRefinesMap<V(!new)>(strHash: seq<byte> -> bv64, n: nat, ops: seq<Op<V>>, k: Key, tail: seq<byte>)
    requires n > 0 && (forall i :: 0 <= i < |ops| ==> Possible(ops[i])) && Packed(k) && 0 in k.dst
    ensures var m := MapRun(map[], ops);
      Lookup(TableRun(strHash, Empty(n), ops), CodeAt(strHash, k, tail), k) == if k in m then Some(m[k]) else None
  {
    EmptyRepresents<Key, V>(n, CodeOf(strHash));
    RunRefines(strHash, Empty(n), map[], ops);
    CodeSettled(strHash, k, tail);
    LookupAnswers(TableRun(strHash, Empty(n), ops), CodeOf(strHash), MapRun(map[], ops), k);
  }

  lemma LookupAfterPut<K, V>(bs: Buckets<K, V>, code: nat, code': nat, k: K, v: V)
    requires |bs| > 0
    ensures Lookup(Put(bs, code, k, v), code', k) == if code' == code then Some(v) else Lookup(bs, code', k)
  {
    FoundAfterPut(bs[BucketOf(code, |bs|)], code, k, v, code', k);
  }

  /** In any table and for any string hash: the lookup after the insertion of a key that was not
      there misses it if and only if what follows the two key arguments in memory changes the code. */
  lemma LookupMisses<V>(strHash: seq<byte> -> bv64, bs: Buckets<Key, V>, k: Key, v: V, tail: seq<byte>,
          tail': seq<byte>)
    requires |bs| > 0 && Lookup(bs, CodeAt(strHash, k, tail'), k) == None
    ensures Lookup(Put(bs, CodeAt(strHash, k, tail), k, v), CodeAt(strHash, k, tail'), k) == None
      <==> CodeAt(strHash, k, tail') != CodeAt(strHash, k, tail)
  {
    LookupAfterPut(bs, CodeAt(strHash, k, tail), CodeAt(strHash, k, tail'), k, v);
  }

  /** That can happen to a key exactly if its dst_gid has no zero byte. */
  lemma MissesIff(k: Key)
    requires Packed(k)
    ensures (exists strHash, tail, tail' :: CodeAt(strHash, k, tail') != CodeAt(strHash, k, tail)) <==> 0 !in k.dst
  {
    if 0 in k.dst {
      forall strHash, tail, tail' ensures CodeAt(strHash, k, tail') == CodeAt(strHash, k, tail) {
        CodeSettled(strHash, k, tail);
        CodeSettled(strHash, k, tail');
      }
    } else {
      TailShows(k);
      assert CodeAt(LengthHash, k, [1, 0]) != CodeAt(LengthHash, k, [0]);
    }
  }
}
