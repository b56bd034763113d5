/** Bytes, and numbers as bytes. */
module Octets {
  newtype Byte = x: int | 0 <= x < 256
  type Bytes = seq<Byte>

  function Power256(n: nat): nat {
    if n == 0 then 1 else 256 * Power256(n - 1)
  }

  /** The low bytes of a number, most significant first. */
  function BigEndian(value: nat, bytes: nat): (r: Bytes)
    ensures |r| == bytes
  {
    if bytes == 0 then [] else BigEndian(value / 256, bytes - 1) + [(value % 256) as Byte]
  }

  function FromBigEndian(bytes: Bytes): nat {
    if bytes == [] then 0 else 256 * FromBigEndian(bytes[..|bytes| - 1]) + bytes[|bytes| - 1] as nat
  }

  lemma {:induction false} ReadsWhatItWrites(value: nat, bytes: nat)
    requires value < Power256(bytes)
    ensures FromBigEndian(BigEndian(value, bytes)) == value
  {
    if bytes > 0 {
      ReadsWhatItWrites(value / 256, bytes - 1);
      assert BigEndian(value, bytes)[..bytes - 1] == BigEndian(value / 256, bytes - 1);
    }
  }

  lemma {:induction false} WritesWhatItReads(bytes: Bytes)
    ensures FromBigEndian(bytes) < Power256(|bytes|)
    ensures BigEndian(FromBigEndian(bytes), |bytes|) == bytes
  {
    if bytes != [] {
      WritesWhatItReads(bytes[..|bytes| - 1]);
      assert bytes == bytes[..|bytes| - 1] + [bytes[|bytes| - 1]];
    }
  }

  lemma BigEndianInjective(a: nat, b: nat, bytes: nat)
    requires a < Power256(bytes) && b < Power256(bytes) && BigEndian(a, bytes) == BigEndian(b, bytes)
    ensures a == b
  {
    ReadsWhatItWrites(a, bytes);
    ReadsWhatItWrites(b, bytes);
  }

  lemma SplitEqual(a: Bytes, x: Bytes, b: Bytes, y: Bytes)
    requires |a| == |b| && a + x == b + y
    ensures a == b && x == y
  {
    assert a == (a + x)[..|a|] && b == (b + y)[..|b|];
    assert x == (a + x)[|a|..] && y == (b + y)[|b|..];
  }

  // ----- the order of byte strings -----

  /** Lexicographic order. */
  predicate Less(a: Bytes, b: Bytes) {
    if b == [] then false
    else if a == [] then true
    else a[0] < b[0] || (a[0] == b[0] && Less(a[1..], b[1..]))
  }

  lemma {:induction false} LessTotal(a: Bytes, b: Bytes)
    ensures Less(a, b) || a == b || Less(b, a)
    ensures !(Less(a, b) && Less(b, a))
    ensures !Less(a, a)
  {
    if a != [] {
      LessTotal(a[1..], a[1..]);
    }
    if a != [] && b != [] {
      LessTotal(a[1..], b[1..]);
      assert a == [a[0]] + a[1..] && b == [b[0]] + b[1..];
    }
  }

  lemma {:induction false} LessTransitive(a: Bytes, b: Bytes, c: Bytes)
    requires Less(a, b) && Less(b, c)
    ensures Less(a, c)
  {
    if a != [] && a[0] == b[0] == c[0] {
      LessTransitive(a[1..], b[1..], c[1..]);
    }
  }
}
