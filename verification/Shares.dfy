/**
 How the worker threads of the synthetic benchmarks divide a key list among themselves.
 */
module Shares {
  import opened Bits

  /** Worker i's share of a key list: keys[i * n .. (i + 1) * n] with n = |keys| / workers. */
  function Share(keys: seq<nat>, workers: nat, i: nat): (r: seq<nat>)
    requires i < workers
    ensures |r| == |keys| / workers
    ensures forall p :: 0 <= p < |r| ==> i * (|keys| / workers) + p < |keys| && r[p] == keys[i * (|keys| / workers) + p]
  {
    var n := |keys| / workers;
    ShareFits(|keys|, workers, i);
    keys[i * n..(i + 1) * n]
  }

  lemma ShareFits(size: nat, workers: nat, i: nat)
    requires i < workers
    ensures 0 <= i * (size / workers) && (i + 1) * (size / workers) == i * (size / workers) + size / workers <= size
  {
    var n := size / workers;
    Distribute(n, i, 1);
    Distribute(n, workers, i + 1);
    MulNonneg(n, i);
    MulNonneg(n, workers - (i + 1));
    assert workers * n <= size;
  }

  lemma SharesNonEmpty(size: nat, workers: nat)
    requires 1 <= workers <= size
    ensures size / workers >= 1
  {
    if size / workers == 0 {
      ModUnique(size, workers, 0, size);
    }
  }

  lemma SharesApart(n: nat, i: nat, j: nat, p: nat, q: nat)
    requires p < n && q < n && i * n + p == j * n + q
    ensures i == j && p == q
  {
    ModUnique(i * n + p, n, i, p);
    ModUnique(i * n + p, n, j, q);
  }
}
