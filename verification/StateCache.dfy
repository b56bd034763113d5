/**
 * The collision-safe state cache of the explorer (explore/explore.go): a hash only selects a
 * bucket, and only equal bytes count as seen.
 */
module StateCache {
  import opened Octets

  // ----- the identity of a state, as bytes -----

  /** Fields, each after its length. */
  function AppendFields(fields: seq<Bytes>): Bytes {
    if fields == [] then [] else BigEndian(|fields[0]|, 8) + fields[0] + AppendFields(fields[1..])
  }

  ghost predicate Short(fields: seq<Bytes>) {
    forall i | 0 <= i < |fields| :: |fields[i]| < Power256(8)
  }

  lemma Associate(a: Bytes, b: Bytes, c: Bytes, d: Bytes)
    ensures (a + b + c) + d == a + (b + (c + d))
  {
  }

  /** LENGTH PREFIXES MAKE IDENTITIES UNAMBIGUOUS: different fields give different bytes, whatever follows. */
  lemma {:induction false} FieldsInjective(a: seq<Bytes>, b: seq<Bytes>, x: Bytes, y: Bytes)
    requires |a| == |b| && Short(a) && Short(b)
    requires AppendFields(a) + x == AppendFields(b) + y
    ensures a == b && x == y
  {
    hide BigEndian;
    if a != [] {
      var restA, restB := AppendFields(a[1..]) + x, AppendFields(b[1..]) + y;
      var la, lb := BigEndian(|a[0]|, 8), BigEndian(|b[0]|, 8);
      Associate(la, a[0], AppendFields(a[1..]), x);
      Associate(lb, b[0], AppendFields(b[1..]), y);
      SplitEqual(la, a[0] + restA, lb, b[0] + restB);
      BigEndianInjective(|a[0]|, |b[0]|, 8);
      SplitEqual(a[0], restA, b[0], restB);
      FieldsInjective(a[1..], b[1..], x, y);
      assert a == [a[0]] + a[1..] && b == [b[0]] + b[1..];
    } else {
      assert AppendFields(a) + x == x && AppendFields(b) + y == y;
    }
  }

  /** The bytes of a state at an open choice with so many choices left. */
  function Identity(tag: Bytes, state: Bytes, id: Bytes, kind: Bytes, domain: Bytes, context: Bytes, remaining: nat): Bytes {
    AppendFields([tag, state, id, kind, domain, context]) + BigEndian(remaining, 8)
  }

  lemma IdentityInjective(tag: Bytes, a: seq<Bytes>, b: seq<Bytes>, m: nat, n: nat)
    requires |a| == |b| == 5 && Short(a) && Short(b) && |tag| < Power256(8) && m < Power256(8) && n < Power256(8)
    requires Identity(tag, a[0], a[1], a[2], a[3], a[4], m) == Identity(tag, b[0], b[1], b[2], b[3], b[4], n)
    ensures a == b && m == n
  {
    var x, y := [tag, a[0], a[1], a[2], a[3], a[4]], [tag, b[0], b[1], b[2], b[3], b[4]];
    FieldsInjective(x, y, BigEndian(m, 8), BigEndian(n, 8));
    BigEndianInjective(m, n, 8);
    forall i | 0 <= i < 5
      ensures a[i] == b[i]
    {
      assert x[i + 1] == y[i + 1];
    }
  }

  // ----- the cache -----

  function Bucket(buckets: map<nat, seq<Bytes>>, digest: nat): seq<Bytes> {
    if digest in buckets then buckets[digest] else []
  }

  /** The buckets hold what was stored, each under its own hash. */
  ghost predicate Filed(buckets: map<nat, seq<Bytes>>, stored: set<Bytes>, hash: Bytes -> nat) {
    && (forall s | s in stored :: s in Bucket(buckets, hash(s)))
    && (forall d, s | d in buckets && s in buckets[d] :: s in stored && hash(s) == d)
  }

  lemma FilingKeeps(buckets: map<nat, seq<Bytes>>, stored: set<Bytes>, hash: Bytes -> nat, s: Bytes)
    requires Filed(buckets, stored, hash)
    ensures s in stored <==> s in Bucket(buckets, hash(s))
    ensures Filed(buckets[hash(s) := Bucket(buckets, hash(s)) + [s]], stored + {s}, hash)
  {
  }

  /** Looks for exactly these bytes in a bucket, and counts the others it passes. */
  method Scan(bucket: seq<Bytes>, canonical: Bytes) returns (found: bool, passed: nat)
    ensures found <==> canonical in bucket
    ensures passed <= |bucket| && canonical !in bucket[..passed] && (found ==> passed < |bucket| && bucket[passed] == canonical)
  {
    passed := 0;
    for index := 0 to |bucket|
      invariant passed == index && canonical !in bucket[..index]
    {
      if bucket[index] == canonical {
        return true, passed;
      }
      passed := passed + 1;
    }
    found := false;
  }

  class StateCache {
    const maxEntries: nat
    const maxBytes: nat
    const hash: Bytes -> nat
    var buckets: map<nat, seq<Bytes>>
    var lookups: nat
    var hits: nat
    var misses: nat
    var collisions: nat
    var entries: nat
    var bytes: nat
    var budgetSkips: nat
    /** Everything ever stored. */
    ghost var stored: set<Bytes>

    ghost predicate Valid()
      reads this
    {
      && Filed(buckets, stored, hash)
      && Counted()
      && lookups == hits + misses
    }

    ghost predicate Counted()
      reads this
    {
      |stored| == entries <= maxEntries && bytes <= maxBytes && entries + budgetSkips == misses
    }

    constructor (maxEntries: nat, maxBytes: nat, hash: Bytes -> nat)
      ensures Valid() && stored == {} && lookups == 0
    {
      this.maxEntries, this.maxBytes, this.hash := maxEntries, maxBytes, hash;
      buckets := map[];
      lookups, hits, misses, collisions, entries, bytes, budgetSkips := 0, 0, 0, 0, 0, 0, 0;
      stored := {};
    }

    /** A miss: these bytes are stored if there is room for them. */
    method Keep(canonical: Bytes)
      requires Filed(buckets, stored, hash) && Counted() && lookups == hits + misses + 1 && canonical !in stored
      modifies this
      ensures Valid() && lookups == old(lookups)
      ensures stored == old(stored) || stored == old(stored) + {canonical}
      ensures old(entries) < maxEntries && |canonical| <= maxBytes - old(bytes) ==> canonical in stored
    {
      hide Filed, Bucket;
      misses := misses + 1;
      if entries >= maxEntries || |canonical| > maxBytes - bytes {
        budgetSkips := budgetSkips + 1;
        return;
      }
      FilingKeeps(buckets, stored, hash, canonical);
      var digest := hash(canonical);
      buckets := buckets[digest := Bucket(buckets, digest) + [canonical]];
      entries := entries + 1;
      bytes := bytes + |canonical|;
      stored := stored + {canonical};
    }

    /** Whether these exact bytes were stored before, whatever the hash does; if not, they are stored when there is room. */
    method Seen(canonical: Bytes) returns (seen: bool)
      requires Valid()
      modifies this
      ensures Valid() && lookups == old(lookups) + 1
      ensures seen <==> canonical in old(stored)
      ensures stored == old(stored) || (!seen && stored == old(stored) + {canonical})
      ensures !seen && old(entries) < maxEntries && |canonical| <= maxBytes - old(bytes) ==> canonical in stored
    {
      hide Filed, Bucket;
      FilingKeeps(buckets, stored, hash, canonical);
      lookups := lookups + 1;
      var passed;
      seen, passed := Scan(Bucket(buckets, hash(canonical)), canonical);
      collisions := collisions + passed;
      if seen {
        hits := hits + 1;
      } else {
        Keep(canonical);
      }
    }
  }
}
