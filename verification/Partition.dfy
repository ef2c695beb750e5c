/**
 How run_tpcc hands the warehouses 1 .. warehouse_num to its worker threads.
 */
module Partition {

  datatype Config = Config(warehouses: nat, workers: nat) {
    /** What the command line asserts, with at least one warehouse for every worker. */
    ghost predicate Ok() {
      1 <= workers <= warehouses < 255
    }
  }

  /** The number of warehouses given to the workers before worker i. */
  function Bound(cfg: Config, i: nat): nat
    requires cfg.workers > 0
  {
    var q, r := cfg.warehouses / cfg.workers, cfg.warehouses % cfg.workers;
    q * i + if i < r then i else r
  }

  /** Worker i owns warehouse w: w_id_start <= w < w_id_end. */
  predicate Owns(cfg: Config, i: nat, w: nat)
    requires cfg.workers > 0
  {
    i < cfg.workers && Bound(cfg, i) + 1 <= w < Bound(cfg, i + 1) + 1
  }

  lemma BoundStep(cfg: Config, i: nat)
    requires cfg.workers > 0
    ensures Bound(cfg, i + 1) == Bound(cfg, i) + cfg.warehouses / cfg.workers
              + (if i < cfg.warehouses % cfg.workers then 1 else 0)
  {
    assert cfg.warehouses / cfg.workers * (i + 1)
        == cfg.warehouses / cfg.workers * i + cfg.warehouses / cfg.workers;
  }

  lemma BoundEnds(cfg: Config)
    requires cfg.workers > 0
    ensures Bound(cfg, 0) == 0 && Bound(cfg, cfg.workers) == cfg.warehouses
  {
  }

  lemma {:induction false} BoundMonotone(cfg: Config, i: nat, j: nat)
    requires cfg.workers > 0 && i <= j
    ensures Bound(cfg, i) <= Bound(cfg, j)
    decreases j
  {
    if i < j {
      BoundMonotone(cfg, i, j - 1);
      BoundStep(cfg, j - 1);
    }
  }

  /** The owner of a warehouse: the worker whose range it falls into. */
  function Owner(cfg: Config, w: nat): (i: nat)
    requires cfg.workers > 0
  {
    OwnerBelow(cfg, w, cfg.workers - 1)
  }

  function OwnerBelow(cfg: Config, w: nat, i: nat): nat
    requires cfg.workers > 0
  {
    if i == 0 || Bound(cfg, i) < w then i else OwnerBelow(cfg, w, i - 1)
  }

  lemma {:induction false} OwnerBelowOwns(cfg: Config, w: nat, i: nat)
    requires cfg.workers > 0 && i < cfg.workers && 1 <= w <= Bound(cfg, i + 1)
    ensures Owns(cfg, OwnerBelow(cfg, w, i), w)
  {
    BoundEnds(cfg);
    if i != 0 && Bound(cfg, i) >= w {
      OwnerBelowOwns(cfg, w, i - 1);
    }
  }

  /** The ranges are disjoint and cover: a warehouse is owned by exactly one worker, its Owner. */
  lemma OwnerIsUnique(cfg: Config, w: nat)
    requires cfg.workers > 0 && 1 <= w <= cfg.warehouses
    ensures forall i: nat :: Owns(cfg, i, w) <==> i == Owner(cfg, w)
  {
    BoundEnds(cfg);
    OwnerBelowOwns(cfg, w, cfg.workers - 1);
    var o := Owner(cfg, w);
    forall i: nat | Owns(cfg, i, w)
      ensures i == o
    {
      if i < o {
        BoundMonotone(cfg, i + 1, o);
      } else if o < i {
        BoundMonotone(cfg, o + 1, i);
      }
    }
  }

  /** Only warehouses 1 .. warehouse_num are owned. */
  lemma OwnedExists(cfg: Config, i: nat, w: nat)
    requires cfg.workers > 0 && Owns(cfg, i, w)
    ensures 1 <= w <= cfg.warehouses
  {
    BoundEnds(cfg);
    BoundMonotone(cfg, i + 1, cfg.workers);
  }

  /** With no more workers than warehouses, the draw of a warehouse is from a non-empty range. */
  lemma RangesAreNonEmpty(cfg: Config, i: nat)
    requires cfg.Ok() && i < cfg.workers
    ensures Owns(cfg, i, Bound(cfg, i) + 1)
  {
    BoundStep(cfg, i);
    assert cfg.warehouses / cfg.workers >= 1;
  }

  datatype Range = Range(start: nat, end: nat)

  lemma Remainder(cfg: Config)
    requires cfg.workers > 0
    ensures cfg.warehouses - cfg.warehouses / cfg.workers * cfg.workers == cfg.warehouses % cfg.workers
  {
  }

  function Trailing(cfg: Config, i: nat): nat
    requires cfg.workers > 0
  {
    var r := cfg.warehouses % cfg.workers;
    if i < r then r - i else 0
  }

  /** The loop of run_tpcc that fills w_id_start and w_id_end. */
  method AssignWarehouses(cfg: Config) returns (ranges: seq<Range>)
    requires cfg.workers > 0
    ensures |ranges| == cfg.workers
    ensures forall i, w: nat {:trigger Owns(cfg, i, w)} :: 0 <= i < cfg.workers ==>
              (Owns(cfg, i, w) <==> ranges[i].start <= w < ranges[i].end)
    ensures ranges[0].start == 1 && ranges[cfg.workers - 1].end == cfg.warehouses + 1
    ensures forall i :: 0 < i < cfg.workers ==> ranges[i].start == ranges[i - 1].end
    ensures forall i :: 0 <= i < cfg.workers ==>
              ranges[i].end - ranges[i].start
                == cfg.warehouses / cfg.workers + if i < cfg.warehouses % cfg.workers then 1 else 0
  {
    hide Bound;
    var perThread, prevEnd := cfg.warehouses / cfg.workers, 0;
    var trailing := cfg.warehouses - perThread * cfg.workers;
    Remainder(cfg);
    BoundEnds(cfg);
    ranges := [];
    var i := 0;
    while i < cfg.workers
      invariant 0 <= i <= cfg.workers
      invariant |ranges| == i
      invariant prevEnd == Bound(cfg, i)
      invariant trailing == Trailing(cfg, i)
      invariant i > 0 ==> ranges[0].start == 1 && ranges[i - 1].end == prevEnd + 1
      invariant forall j :: 0 < j < i ==> ranges[j].start == ranges[j - 1].end
      invariant forall j :: 0 <= j < i ==>
                  ranges[j].end - ranges[j].start
                    == cfg.warehouses / cfg.workers + if j < cfg.warehouses % cfg.workers then 1 else 0
      invariant forall j, w: nat {:trigger Owns(cfg, j, w)} :: 0 <= j < i ==>
                  (Owns(cfg, j, w) <==> ranges[j].start <= w < ranges[j].end)
    {
      BoundStep(cfg, i);
      var begin := prevEnd;
      var end := begin + perThread;
      if trailing > 0 {
        end := end + 1;
        trailing := trailing - 1;
      }
      prevEnd := end;
      ranges := ranges + [Range(begin + 1, end + 1)];
      i := i + 1;
    }
  }
}
