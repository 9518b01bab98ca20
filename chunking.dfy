/** Splitting `n` rows into consecutive parts of at most `c` rows: part `i`
    holds rows `[i * c, min(n, i * c + c))`. Both the streaming generator
    (`take = min(chunksize, count - produced)`) and the chunked exporter
    (`start = i * chunksize; end = min(n, start + chunksize)`) cut a table
    this way. */
module Chunking {
  import opened Values

  lemma MulMono(a: int, b: int, c: int)
    requires a <= b && c >= 0
    ensures a * c <= b * c
  {
  }

  lemma MulLess(a: int, b: int, c: int)
    requires c > 0 && a * c < b * c
    ensures a < b
  {
    if a >= b {
      MulMono(b, a, c);
    }
  }

  lemma MulSucc(k: int, c: int)
    ensures (k + 1) * c == k * c + c
    ensures (k - 1) * c == k * c - c
  {
  }

  /** The number of parts: `ceil(n / c)` for `n > 0`, and no part otherwise. */
  function NumParts(n: int, c: int): (k: nat)
    requires c > 0
    ensures n <= 0 ==> k == 0
    ensures n > 0 ==> k >= 1 && (k - 1) * c < n <= k * c
  {
    if n <= 0 then 0
    else
      var q, r := (n + c - 1) / c, (n + c - 1) % c;
      assert q * c + r == n + c - 1 && 0 <= r < c;
      assert (q - 1) * c == q * c - c;
      q
  }

  /** The bracketing `(k - 1) * c < n <= k * c` determines the number of parts. */
  lemma NumPartsUnique(n: int, c: int, k: int)
    requires c > 0 && n > 0
    requires (k - 1) * c < n <= k * c
    ensures NumParts(n, c) == k
  {
    var m := NumParts(n, c);
    MulLess(k - 1, m, c);
    MulLess(m - 1, k, c);
  }

  /** The size of part `i`, `min(c, n - i * c)`. */
  function PartSize(n: int, c: int, i: int): int
  {
    Min(c, n - i * c)
  }

  /** Every part starts inside the table. */
  lemma PartStartInside(n: int, c: int, i: int)
    requires c > 0 && 0 <= i < NumParts(n, c)
    ensures 0 <= i * c < n
  {
    var k := NumParts(n, c);
    MulMono(i, k - 1, c);
    MulMono(0, i, c);
  }

  /** Each part is non-empty and holds at most `c` rows; every part but the
      last holds exactly `c`. */
  lemma PartSizeBounds(n: int, c: int, i: int)
    requires c > 0 && 0 <= i < NumParts(n, c)
    ensures 1 <= PartSize(n, c, i) <= c
    ensures i < NumParts(n, c) - 1 ==> PartSize(n, c, i) == c
  {
    PartStartInside(n, c, i);
    if i < NumParts(n, c) - 1 {
      PartStartInside(n, c, i + 1);
      MulSucc(i, c);
    }
  }

  /** Part `i` of the sequence `t`. */
  function Part<T>(t: seq<T>, c: int, i: int): (p: seq<T>)
    requires c > 0 && 0 <= i < NumParts(|t|, c)
    ensures |p| == PartSize(|t|, c, i)
  {
    PartStartInside(|t|, c, i);
    t[i * c .. Min(|t|, i * c + c)]
  }

  /** All parts of `t`, in order. */
  function Parts<T>(t: seq<T>, c: int): (ps: seq<seq<T>>)
    requires c > 0
    ensures |ps| == NumParts(|t|, c)
    ensures forall i :: 0 <= i < |ps| ==> ps[i] == Part(t, c, i)
  {
    seq(NumParts(|t|, c), i requires 0 <= i < NumParts(|t|, c) => Part(t, c, i))
  }

  /** Concatenation, left to right. */
  function Flatten<T>(ss: seq<seq<T>>): seq<T>
  {
    if ss == [] then [] else Flatten(ss[..|ss| - 1]) + ss[|ss| - 1]
  }

  lemma FlattenSnoc<T>(ss: seq<seq<T>>, s: seq<T>)
    ensures Flatten(ss + [s]) == Flatten(ss) + s
  {
    assert (ss + [s])[..|ss|] == ss;
  }

  /** The first `k` parts are exactly the first `min(n, k * c)` rows. */
  lemma {:induction false} FlattenPrefix<T>(t: seq<T>, c: int, k: nat)
    requires c > 0 && k <= NumParts(|t|, c)
    ensures Flatten(Parts(t, c)[..k]) == t[..Min(|t|, k * c)]
  {
    var ps := Parts(t, c);
    if k > 0 {
      FlattenPrefix(t, c, k - 1);
      PartStartInside(|t|, c, k - 1);
      assert ps[..k] == ps[..k - 1] + [ps[k - 1]];
      FlattenSnoc(ps[..k - 1], ps[k - 1]);
      MulSucc(k - 1, c);
      assert t[..(k - 1) * c] + t[(k - 1) * c .. Min(|t|, k * c)] == t[..Min(|t|, k * c)];
    }
  }

  /** The parts are contiguous, disjoint, in order and cover the whole
      sequence: concatenating them gives it back. */
  lemma FlattenParts<T>(t: seq<T>, c: int)
    requires c > 0
    ensures Flatten(Parts(t, c)) == t
  {
    var ps := Parts(t, c);
    FlattenPrefix(t, c, |ps|);
    assert ps[..|ps|] == ps;
  }

  /** Where row `r` of `t` lies: in part `r / c`, at offset `r % c`. */
  lemma PartOfRow<T>(t: seq<T>, c: int, r: int)
    requires c > 0 && 0 <= r < |t|
    ensures 0 <= r / c < NumParts(|t|, c)
    ensures r % c < |Part(t, c, r / c)| && Part(t, c, r / c)[r % c] == t[r]
  {
    var k := NumParts(|t|, c);
    var q := r / c;
    assert q * c + r % c == r;
    assert q * c <= r;
    if q >= k {
      MulMono(k, q, c);
    }
    PartStartInside(|t|, c, q);
  }

  /** The part sizes add up to the number of rows. */
  lemma PartSizesSum(n: int, c: int)
    requires c > 0 && n >= 0
    ensures SizeSum(n, c, NumParts(n, c)) == n
  {
    SizeSumPrefix(n, c, NumParts(n, c));
  }

  function SizeSum(n: int, c: int, k: nat): int
  {
    if k == 0 then 0 else SizeSum(n, c, k - 1) + PartSize(n, c, k - 1)
  }

  lemma {:induction false} SizeSumPrefix(n: int, c: int, k: nat)
    requires c > 0 && n >= 0 && k <= NumParts(n, c)
    ensures SizeSum(n, c, k) == Min(n, k * c)
  {
    if k > 0 {
      SizeSumPrefix(n, c, k - 1);
      PartStartInside(n, c, k - 1);
      MulSucc(k - 1, c);
    }
  }
}
