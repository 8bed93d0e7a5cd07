/**
 * The chunk arithmetic of the streaming loop: how a file of `fsBytes` bytes is cut into batches of at
 * most `chunk` bytes, the last one clamped to what is left.
 */
module Chunking {
  import Arith

  /**
   * `(int)Math.Ceiling((decimal)a / b)` for a non-negative `a` and a non-zero `b`: for a positive `b`
   * the least `q` with `a <= q * b`; for a negative `b` the quotient is at most zero.
   */
  function CeilDiv(a: nat, b: int): (q: int)
    requires b != 0
    ensures b > 0 ==> q >= 0 && (q - 1) * b < a <= q * b
    ensures b < 0 ==> q <= 0
  {
    if b > 0 then
      var q := (a + b - 1) / b;
      Arith.DivModUnique(a + b - 1, b, q, (a + b - 1) % b);
      assert (q - 1) * b == q * b - b;
      q
    else
      -(a / -b)
  }

  /**
   * The batches the loop reads from `s`, in order: each `chunk` bytes long except the last, which is
   * clamped to the bytes that remain.
   */
  function Batches<T>(s: seq<T>, chunk: nat): (bs: seq<seq<T>>)
    requires chunk > 0
    ensures bs == [] <==> |s| == 0
    ensures bs != [] ==> bs[0] == s[..if chunk < |s| then chunk else |s|]
    decreases |s|
  {
    if |s| == 0 then []
    else if |s| <= chunk then [s]
    else [s[..chunk]] + Batches(s[chunk..], chunk)
  }

  /** The first batch is the first `k` elements, `k` being `chunk` clamped to the length. */
  lemma BatchesStep<T>(s: seq<T>, chunk: nat, k: nat)
    requires chunk > 0 && |s| > 0 && k == (if chunk > |s| then |s| else chunk)
    ensures Batches(s, chunk) == [s[..k]] + Batches(s[k..], chunk)
  {
    if chunk >= |s| {
      assert s[..k] == s && s[k..] == [];
    }
  }

  /** The batches written one after another. */
  function Flatten<T>(ss: seq<seq<T>>): (s: seq<T>)
  {
    if ss == [] then [] else ss[0] + Flatten(ss[1..])
  }

  /** The number of batches is the loop bound `ceil(|s| / chunk)`; an empty input has none. */
  lemma {:induction false} BatchesCount<T>(s: seq<T>, chunk: nat)
    requires chunk > 0
    ensures |Batches(s, chunk)| == CeilDiv(|s|, chunk)
    decreases |s|
  {
    var n := CeilDiv(|s|, chunk);
    if |s| == 0 {
      assert (n - 1) * chunk < 0;
      CeilUnique(|s|, chunk, n, 0);
    } else if |s| <= chunk {
      CeilUnique(|s|, chunk, n, 1);
    } else {
      BatchesCount(s[chunk..], chunk);
      var m := CeilDiv(|s| - chunk, chunk);
      assert (m + 1 - 1) * chunk == m * chunk;
      assert (m + 1) * chunk == m * chunk + chunk;
      assert (m - 1) * chunk == m * chunk - chunk;
      CeilUnique(|s|, chunk, n, m + 1);
    }
  }

  /** `ceil(a / b)` is the only `q` with `(q - 1) * b < a <= q * b`. */
  lemma CeilUnique(a: nat, b: nat, q: int, q': int)
    requires b > 0
    requires (q - 1) * b < a <= q * b && (q' - 1) * b < a <= q' * b
    ensures q == q'
  {
    if q < q' {
      assert false by { Arith.MulMonotone(q, q' - 1, b); }
    } else if q' < q {
      assert false by { Arith.MulMonotone(q', q - 1, b); }
    }
  }

  /**
   * The batches cover the input exactly and in order; every batch but the last is `chunk` bytes, and
   * the last one holds the `|s| - (n - 1) * chunk` bytes that remain, between 1 and `chunk`.
   */
  lemma {:induction false} BatchesShape<T>(s: seq<T>, chunk: nat)
    requires chunk > 0
    ensures Flatten(Batches(s, chunk)) == s
    ensures var bs := Batches(s, chunk);
      forall i :: 0 <= i < |bs| - 1 ==> |bs[i]| == chunk
    ensures var bs := Batches(s, chunk);
      |bs| > 0 ==> 0 < |bs[|bs| - 1]| <= chunk && |bs[|bs| - 1]| == |s| - (|bs| - 1) * chunk
    decreases |s|
  {
    var bs := Batches(s, chunk);
    if |s| == 0 {
    } else if |s| <= chunk {
      assert Flatten(bs) == s + Flatten([]);
    } else {
      var rest := Batches(s[chunk..], chunk);
      BatchesShape(s[chunk..], chunk);
      assert bs == [s[..chunk]] + rest;
      assert bs[1..] == rest;
      assert Flatten(bs) == s[..chunk] + s[chunk..];
      if |rest| > 0 {
        assert (|bs| - 1) * chunk == (|rest| - 1) * chunk + chunk;
      }
    }
  }
}
