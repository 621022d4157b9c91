/**
 The hash that assigns every request to one shard: 64-bit FNV-1a (section 2 of
 draft-eastlake-fnv) of the request ID, modulo the number of shards.
 */
module Sharding {
  import opened Capture

  const OFFSET_BASIS: bv64 := 0xcbf2_9ce4_8422_2325
  const PRIME: bv64 := 0x0000_0100_0000_01b3

  /** The UTF-8 bytes of one character. */
  function Utf8(c: char): (bytes: seq<int>)
    ensures forall i :: 0 <= i < |bytes| ==> 0 <= bytes[i] < 256
  {
    var n := c as int;
    if n < 0x80 then [n]
    else if n < 0x800 then [0xc0 + n / 0x40, 0x80 + n % 0x40]
    else if n < 0x1_0000 then [0xe0 + n / 0x40 / 0x40, 0x80 + n / 0x40 % 0x40, 0x80 + n % 0x40]
    else [0xf0 + n / 0x40 / 0x40 / 0x40, 0x80 + n / 0x40 / 0x40 % 0x40, 0x80 + n / 0x40 % 0x40, 0x80 + n % 0x40]
  }

  /** The code point in a sequence of UTF-8 bytes, as section 3 of RFC 3629 lays it out: the first byte tells how many
      there are, and the others carry six bits each. */
  function CodePoint(bytes: seq<int>): int
    requires bytes != []
  {
    var lead := bytes[0];
    if lead < 0x80 && |bytes| == 1 then lead
    else if 0xc0 <= lead < 0xe0 && |bytes| == 2 then Joined(lead - 0xc0, bytes[1])
    else if 0xe0 <= lead < 0xf0 && |bytes| == 3 then Joined(Joined(lead - 0xe0, bytes[1]), bytes[2])
    else if 0xf0 <= lead < 0xf8 && |bytes| == 4 then
      Joined(Joined(Joined(lead - 0xf0, bytes[1]), bytes[2]), bytes[3])
    else -1
  }

  function Joined(high: int, byte: int): int {
    high * 0x40 + (byte - 0x80)
  }

  lemma JoinedBack(n: nat)
    ensures Joined(n / 0x40, 0x80 + n % 0x40) == n
  {
  }

  /** A character can be read back from its bytes, and only the first of them is not a continuation. */
  lemma Utf8Reads(c: char)
    ensures Utf8(c) != [] && CodePoint(Utf8(c)) == c as int
    ensures forall i :: 1 <= i < |Utf8(c)| ==> 0x80 <= Utf8(c)[i] < 0xc0
  {
    var n := c as int;
    JoinedBack(n);
    JoinedBack(n / 0x40);
    JoinedBack(n / 0x40 / 0x40);
  }

  function Bytes(s: string): seq<bv64> {
    if s == "" then [] else Words(Utf8(s[0])) + Bytes(s[1..])
  }

  function Words(bytes: seq<int>): seq<bv64>
    requires forall i :: 0 <= i < |bytes| ==> 0 <= bytes[i] < 256
  {
    seq(|bytes|, i requires 0 <= i < |bytes| => bytes[i] as bv64)
  }

  /** Each byte is mixed in before the multiplication; 64-bit arithmetic wraps. */
  function Fold(h: bv64, bytes: seq<bv64>): bv64
    decreases |bytes|
  {
    if bytes == [] then h else Fold((h ^ bytes[0]) * PRIME, bytes[1..])
  }

  function Fnv1a(s: string): bv64 {
    Fold(OFFSET_BASIS, Bytes(s))
  }

  /** A published value for two bytes, which pins their order. */
  lemma Fnv1aOfTwo()
    ensures Fnv1a("fo") == 0x0898_5907_b541_d342
  {
    assert Utf8('f') == [0x66] && Words([0x66]) == [0x66] && Utf8('o') == [0x6f] && Words([0x6f]) == [0x6f];
    assert "fo"[1..] == "o" && "o"[1..] == "";
    assert Bytes("o") == [0x6f] && Bytes("fo") == [0x66, 0x6f];
    var h: bv64 := (OFFSET_BASIS ^ 0x66) * PRIME;
    assert [0x66 as bv64, 0x6f][1..] == [0x6f] && [0x6f as bv64][1..] == [];
    assert Fold(OFFSET_BASIS, [0x66, 0x6f]) == Fold(h, [0x6f]);
    assert Fold(h, [0x6f]) == Fold((h ^ 0x6f) * PRIME, []);
  }

  /** Published test values. */
  lemma Fnv1aVectors()
    ensures Fnv1a("") == 0xcbf2_9ce4_8422_2325
    ensures Fnv1a("a") == 0xaf63_dc4c_8601_ec8c
  {
    assert Utf8('a') == [0x61] && Words([0x61]) == [0x61];
    assert Bytes("a") == [0x61];
    assert [0x61 as bv64][1..] == [];
    assert Fold(OFFSET_BASIS, [0x61]) == Fold((OFFSET_BASIS ^ 0x61) * PRIME, []);
  }

  function ShardOf(id: string, count: nat): (i: nat)
    requires count > 0
    ensures i < count
  {
    Fnv1a(id) as nat % count
  }

  /** The shard is what is left of the hash when as many whole counts as possible are taken away. */
  lemma ShardIsRemainder(id: string, count: nat) returns (times: nat)
    requires count > 0
    ensures Fnv1a(id) as nat == times * count + ShardOf(id, count)
  {
    times := WholeCounts(Fnv1a(id) as nat, count);
  }

  lemma WholeCounts(n: nat, count: nat) returns (times: nat)
    requires count > 0
    ensures n == times * count + n % count
  {
    times := n / count;
  }

  /** `index` and `count` are signed in the program; a negative index owns nothing of a real split. */
  predicate ShardOwns(id: string, index: int, count: int) {
    count <= 1 || ShardOf(id, count) == index
  }

  function ShardIndexOf(id: string, count: int): nat {
    if count <= 1 then 0 else ShardOf(id, count)
  }

  /** Of the shards 0 .. count - 1 exactly one owns a request, and it is the one the index function names. */
  lemma ExactlyOneOwner(id: string, count: int)
    requires count >= 1
    ensures ShardIndexOf(id, count) < count
    ensures forall i :: 0 <= i < count ==> (ShardOwns(id, i, count) <==> i == ShardIndexOf(id, count))
  {
  }

  // ---------------------------------------------------------------------
  // Slices of a capture
  // ---------------------------------------------------------------------

  /** The requests a predicate keeps, in capture order. */
  function Filter(rs: seq<CapturedRequest>, keep: CapturedRequest -> bool): seq<CapturedRequest> {
    if rs == [] then []
    else Filter(rs[..|rs| - 1], keep) + if keep(rs[|rs| - 1]) then [rs[|rs| - 1]] else []
  }

  function Owned(index: int, count: int): CapturedRequest -> bool {
    (r: CapturedRequest) => ShardOwns(r.id, index, count)
  }

  /** The requests of one shard. */
  function Slice(rs: seq<CapturedRequest>, index: int, count: int): seq<CapturedRequest> {
    Filter(rs, Owned(index, count))
  }

  lemma FilterSnoc(rs: seq<CapturedRequest>, r: CapturedRequest, keep: CapturedRequest -> bool)
    ensures Filter(rs + [r], keep) == if keep(r) then Filter(rs, keep) + [r] else Filter(rs, keep)
  {
    assert (rs + [r])[..|rs|] == rs;
  }

  lemma {:induction false} FilterMembers(rs: seq<CapturedRequest>, keep: CapturedRequest -> bool, r: CapturedRequest)
    ensures r in Filter(rs, keep) <==> r in rs && keep(r)
  {
    if rs == [] {
    } else {
      FilterMembers(rs[..|rs| - 1], keep, r);
      assert rs == rs[..|rs| - 1] + [rs[|rs| - 1]];
    }
  }

  /** Disjoint: a request appears only in the slice of the shard that owns it. */
  lemma SlicesDisjoint(rs: seq<CapturedRequest>, i: int, j: int, count: int, r: CapturedRequest)
    requires 0 <= i < count && 0 <= j < count
    requires r in Slice(rs, i, count) && r in Slice(rs, j, count)
    ensures i == j
  {
    FilterMembers(rs, Owned(i, count), r);
    FilterMembers(rs, Owned(j, count), r);
    ExactlyOneOwner(r.id, count);
  }

  /** Filters 0 .. n - 1 poured together. */
  ghost function Union(rs: seq<CapturedRequest>, keeps: seq<CapturedRequest -> bool>): multiset<CapturedRequest> {
    if keeps == [] then multiset{}
    else Union(rs, keeps[..|keeps| - 1]) + multiset(Filter(rs, keeps[|keeps| - 1]))
  }

  /** Exactly one of the filters keeps the request. */
  ghost predicate KeptOnce(keeps: seq<CapturedRequest -> bool>, r: CapturedRequest, owner: nat) {
    owner < |keeps| && forall i :: 0 <= i < |keeps| ==> (keeps[i](r) <==> i == owner)
  }

  ghost predicate HasOwner(keeps: seq<CapturedRequest -> bool>, r: CapturedRequest) {
    exists owner: nat :: KeptOnce(keeps, r, owner)
  }

  lemma {:induction false} UnionSnoc(rs: seq<CapturedRequest>, r: CapturedRequest, keeps: seq<CapturedRequest -> bool>,
                                     owner: nat)
    requires forall i :: 0 <= i < |keeps| ==> (keeps[i](r) <==> i == owner)
    ensures Union(rs + [r], keeps) == Union(rs, keeps) + if owner < |keeps| then multiset{r} else multiset{}
  {
    if keeps == [] {
    } else {
      UnionSnoc(rs, r, keeps[..|keeps| - 1], owner);
      FilterSnoc(rs, r, keeps[|keeps| - 1]);
    }
  }

  lemma {:induction false} FiltersPartition(rs: seq<CapturedRequest>, keeps: seq<CapturedRequest -> bool>)
    requires forall i :: 0 <= i < |rs| ==> HasOwner(keeps, rs[i])
    ensures Union(rs, keeps) == multiset(rs)
  {
    if rs == [] {
      UnionEmpty(keeps);
    } else {
      var front, last := rs[..|rs| - 1], rs[|rs| - 1];
      FiltersPartition(front, keeps);
      assert HasOwner(keeps, last);
      var owner: nat :| KeptOnce(keeps, last, owner);
      UnionSnoc(front, last, keeps, owner);
      assert rs == front + [last];
    }
  }

  lemma {:induction false} UnionEmpty(keeps: seq<CapturedRequest -> bool>)
    ensures Union([], keeps) == multiset{}
  {
    if keeps == [] {
    } else {
      UnionEmpty(keeps[..|keeps| - 1]);
    }
  }

  function Owners(count: int): (keeps: seq<CapturedRequest -> bool>)
    requires count >= 1
    ensures |keeps| == count && forall i :: 0 <= i < count ==> keeps[i] == Owned(i, count)
  {
    seq(count, i => Owned(i, count))
  }

  /** Exhaustive and disjoint: the slices together are the capture, each request as often as it was captured. */
  lemma SlicesPartition(rs: seq<CapturedRequest>, count: int)
    requires count >= 1
    ensures Union(rs, Owners(count)) == multiset(rs)
  {
    forall i | 0 <= i < |rs| ensures HasOwner(Owners(count), rs[i]) {
      ExactlyOneOwner(rs[i].id, count);
      assert KeptOnce(Owners(count), rs[i], ShardIndexOf(rs[i].id, count));
    }
    FiltersPartition(rs, Owners(count));
  }
}
