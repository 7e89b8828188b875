/** The cache of AEAD ciphers: a map kept beside a ring of 64 keys
    (internal/hostabi/crypto.go:35-46, 70-110).  Ciphers are of an opaque type, and building
    one from a key is a function given to the cache. */
module AeadCache {
  import opened Core

  const AES_128_GCM := 1
  const AES_256_GCM := 2
  const CAPACITY := 64

  // The algorithm with its key, zero-padded to 32 bytes.
  datatype CacheKey = CacheKey(algorithm: nat, key: seq<u8>)

  predicate Supported(algorithm: nat, key: seq<u8>) {
    (algorithm == AES_128_GCM && |key| == 16) || (algorithm == AES_256_GCM && |key| == 32)
  }

  function Padded(algorithm: nat, key: seq<u8>): CacheKey
    requires |key| <= 32
  {
    CacheKey(algorithm, key + seq(32 - |key|, _ => 0))
  }

  /** Two requests that share a cache key are for the same cipher. */
  lemma PaddedKeysDiffer(a: nat, k: seq<u8>, b: nat, l: seq<u8>)
    requires Supported(a, k) && Supported(b, l) && Padded(a, k) == Padded(b, l)
    ensures a == b && k == l
  {
    assert k == Padded(a, k).key[..|k|] && l == Padded(b, l).key[..|l|];
  }

  // What get returns without a cache.
  function Uncached<C>(make: seq<u8> -> Option<C>, algorithm: nat, key: seq<u8>): Option<C> {
    if Supported(algorithm, key) then make(key) else None
  }

  // The keys held, oldest first, after one more has been looked up.
  function Touch(held: seq<CacheKey>, k: CacheKey): seq<CacheKey> {
    if k in held then held
    else if |held| < CAPACITY then held + [k]
    else held[1..] + [k]
  }

  function TouchAll(held: seq<CacheKey>, ks: seq<CacheKey>): seq<CacheKey>
    decreases |ks|
  {
    if ks == [] then held else TouchAll(Touch(held, ks[0]), ks[1..])
  }

  ghost predicate Distinct(held: seq<CacheKey>) {
    forall i, j | 0 <= i < j < |held| :: held[i] != held[j]
  }

  /** Eviction is oldest first: the key at position i survives the next i lookups, whatever
      they are for. */
  lemma {:induction false} SurvivesItsTurn(held: seq<CacheKey>, i: nat, ks: seq<CacheKey>)
    requires i < |held| <= CAPACITY && |ks| <= i
    ensures held[i] in TouchAll(held, ks)
    decreases |ks|
  {
    if ks != [] {
      var next := Touch(held, ks[0]);
      if next == held || |held| < CAPACITY {
        assert next[i] == held[i];
        SurvivesItsTurn(next, i, ks[1..]);
      } else {
        assert next[i - 1] == held[i];
        SurvivesItsTurn(next, i - 1, ks[1..]);
      }
    }
  }

  /** A full cache that misses gives up its oldest key and no other. */
  lemma MissEvictsOldest(held: seq<CacheKey>, k: CacheKey)
    requires Distinct(held) && |held| == CAPACITY && k !in held
    ensures Distinct(Touch(held, k)) && |Touch(held, k)| == CAPACITY
    ensures forall x :: x in Touch(held, k) <==> x == k || (x in held && x != held[0])
  {
    var after := Touch(held, k);
    forall x ensures x in after <==> x == k || (x in held && x != held[0]) {
      if x in held && x != held[0] {
        var i :| 0 <= i < |held| && held[i] == x;
        assert after[i - 1] == x;
      }
      if x in after && x != k {
        var i :| 0 <= i < |after| && after[i] == x;
        assert held[i + 1] == x && held[0] != held[i + 1];
      }
    }
  }

  // The map holds exactly these keys, each with the cipher of every request that has the key.
  ghost predicate Agrees<C(!new)>(entries: map<CacheKey, C>, held: seq<CacheKey>, make: seq<u8> -> Option<C>) {
    && Distinct(held)
    && (forall k :: k in entries <==> k in held)
    && forall a, k | Supported(a, k) && Padded(a, k) in entries :: make(k) == Some(entries[Padded(a, k)])
  }

  lemma MissAgrees<C(!new)>(entries: map<CacheKey, C>, held: seq<CacheKey>, make: seq<u8> -> Option<C>, a: nat, k: seq<u8>)
    requires Agrees(entries, held, make) && |held| < CAPACITY
    requires Supported(a, k) && Padded(a, k) !in entries && make(k).Some?
    ensures Agrees(entries[Padded(a, k) := make(k).value], held + [Padded(a, k)], make)
  {
    forall b, l | Supported(b, l) && Padded(b, l) == Padded(a, k) ensures l == k { PaddedKeysDiffer(b, l, a, k); }
  }

  lemma EvictAgrees<C(!new)>(entries: map<CacheKey, C>, held: seq<CacheKey>, make: seq<u8> -> Option<C>)
    requires Agrees(entries, held, make) && held != []
    ensures Agrees(entries - {held[0]}, held[1..], make)
  {
    forall k ensures k in entries - {held[0]} <==> k in held[1..] {
      assert held == [held[0]] + held[1..];
      if k in held[1..] {
        var i :| 0 <= i < |held[1..]| && held[1..][i] == k;
        assert held[i + 1] == k;
      }
    }
  }

  // The keys in the ring, oldest first.
  function Oldest(ring: seq<CacheKey>, size: nat, next: nat): seq<CacheKey>
    requires next <= size <= |ring|
  {
    ring[next..size] + ring[..next]
  }

  lemma AppendNewest(ring: seq<CacheKey>, size: nat, k: CacheKey)
    requires size < |ring|
    ensures |Oldest(ring, size, 0)| == size
    ensures Oldest(ring[size := k], size + 1, 0) == Oldest(ring, size, 0) + [k]
  {}

  lemma OverwriteOldest(ring: seq<CacheKey>, next: nat, k: CacheKey)
    requires next < |ring|
    ensures |Oldest(ring, |ring|, next)| == |ring| && Oldest(ring, |ring|, next)[0] == ring[next]
    ensures next + 1 < |ring| ==> Oldest(ring[next := k], |ring|, next + 1) == Oldest(ring, |ring|, next)[1..] + [k]
    ensures next + 1 == |ring| ==> Oldest(ring[next := k], |ring|, 0) == Oldest(ring, |ring|, next)[1..] + [k]
  {
    var after := ring[next := k];
    assert after[..next + 1] == ring[..next] + [k] && after[next + 1..] == ring[next + 1..];
    assert Oldest(ring, |ring|, next)[1..] == ring[next + 1..] + ring[..next];
    if next + 1 == |ring| { assert after == after[..next + 1]; }
  }

  // The slot after this one in the ring.
  function Following(slot: nat): (n: nat)
    requires slot < CAPACITY
    ensures n == if slot + 1 < CAPACITY then slot + 1 else 0
  {
    (slot + 1) % CAPACITY
  }

  // What a miss does to map and ring, with a free slot and without.
  lemma FillSlot<C(!new)>(entries: map<CacheKey, C>, ring: seq<CacheKey>, size: nat, make: seq<u8> -> Option<C>, a: nat, k: seq<u8>)
    requires size < |ring| == CAPACITY && Agrees(entries, Oldest(ring, size, 0), make)
    requires Supported(a, k) && Padded(a, k) !in entries && make(k).Some?
    ensures var x, after := Padded(a, k), Oldest(ring[size := Padded(a, k)], size + 1, 0);
            Agrees(entries[x := make(k).value], after, make) && after == Touch(Oldest(ring, size, 0), x)
  {
    AppendNewest(ring, size, Padded(a, k));
    MissAgrees(entries, Oldest(ring, size, 0), make, a, k);
  }

  lemma TurnRing<C(!new)>(entries: map<CacheKey, C>, ring: seq<CacheKey>, next: nat, make: seq<u8> -> Option<C>, a: nat, k: seq<u8>)
    requires next < |ring| == CAPACITY && Agrees(entries, Oldest(ring, CAPACITY, next), make)
    requires Supported(a, k) && Padded(a, k) !in entries && make(k).Some?
    ensures var x, after := Padded(a, k), Oldest(ring[next := Padded(a, k)], CAPACITY, Following(next));
            Agrees((entries - {ring[next]})[x := make(k).value], after, make) && after == Touch(Oldest(ring, CAPACITY, next), x)
  {
    var x, held := Padded(a, k), Oldest(ring, CAPACITY, next);
    OverwriteOldest(ring, next, x);
    EvictAgrees(entries, held, make);
    MissAgrees(entries - {held[0]}, held[1..], make, a, k);
    assert x !in held;
    hide Agrees, Oldest, Padded;
  }

  class Cache<C(!new)> {
    const make: seq<u8> -> Option<C>
    var entries: map<CacheKey, C>
    const order: array<CacheKey>
    var size: nat
    var next: nat

    ghost function Queue(): seq<CacheKey>
      requires next <= size <= order.Length
      reads this, order
    {
      Oldest(order[..], size, next)
    }

    ghost predicate Valid()
      reads this, order
    {
      && order.Length == CAPACITY && size <= CAPACITY
      && next < CAPACITY && (size < CAPACITY ==> next == 0)
      && Agrees(entries, Queue(), make)
    }

    constructor (make: seq<u8> -> Option<C>)
      ensures Valid() && Queue() == [] && this.make == make && fresh(order)
    {
      this.make := make;
      entries := map[];
      size, next := 0, 0;
      order := new CacheKey[CAPACITY](_ => CacheKey(0, []));
    }

    /** Every lookup returns the cipher for its own key, and the ring becomes what Touch says. */
    method Get(algorithm: nat, key: seq<u8>) returns (aead: Option<C>)
      requires Valid()
      modifies this, order
      ensures Valid()
      ensures aead == Uncached(make, algorithm, key)
      ensures Queue() == if aead.Some? then Touch(old(Queue()), Padded(algorithm, key)) else old(Queue())
    {
      if (algorithm != AES_128_GCM || |key| != 16) && (algorithm != AES_256_GCM || |key| != 32) {
        return None;
      }
      var cacheKey := Padded(algorithm, key);
      assert cacheKey in entries <==> cacheKey in Queue();
      if cacheKey in entries {
        return Some(entries[cacheKey]);
      }
      aead := make(key);
      if aead == None {
        return None;
      }
      hide Agrees, Oldest, Padded, Touch, Following;
      ghost var ring := order[..];
      if size < CAPACITY {
        FillSlot(entries, ring, size, make, algorithm, key);
        order[size] := cacheKey;
        assert order[..] == ring[size := cacheKey];
        size := size + 1;
        assert Queue() == Oldest(ring[size - 1 := cacheKey], size, 0);
      } else {
        TurnRing(entries, ring, next, make, algorithm, key);
        entries := entries - {order[next]};
        order[next] := cacheKey;
        assert order[..] == ring[next := cacheKey];
        ghost var oldest := next;
        next := Following(next);
        assert Queue() == Oldest(ring[oldest := cacheKey], CAPACITY, Following(oldest));
      }
      entries := entries[cacheKey := aead.value];
    }
  }
}
