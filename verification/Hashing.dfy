/** Bytes and a hash with 32-byte digests. SHA-256 itself stays a parameter: every result
    holds for any such function, and collisions are named, never assumed away. */
module Hashing {
  newtype Byte = x: int | 0 <= x < 256
  type Bytes = seq<Byte>
  type Digest = d: Bytes | |d| == 32 witness Zeros()
  type Hash = Bytes -> Digest

  function Zeros(): (d: Bytes)
    ensures |d| == 32 && forall i :: 0 <= i < 32 ==> d[i] == 0
  {
    [0, 0, 0, 0, 0, 0, 0, 0, 0, 0, 0, 0, 0, 0, 0, 0, 0, 0, 0, 0, 0, 0, 0, 0, 0, 0, 0, 0, 0, 0, 0, 0]
  }

  /** Two different messages with one digest, each among the messages actually hashed. */
  ghost predicate Collide(h: Hash, x: Bytes, xs: set<Bytes>, y: Bytes, ys: set<Bytes>) {
    x in xs && y in ys && x != y && h(x) == h(y)
  }

  lemma CollideAmongMore(h: Hash, x: Bytes, xs: set<Bytes>, y: Bytes, ys: set<Bytes>, xs': set<Bytes>, ys': set<Bytes>)
    requires Collide(h, x, xs, y, ys) && xs <= xs' && ys <= ys'
    ensures Collide(h, x, xs', y, ys')
  {}
}
