/**
 With a single worker the fine grain is the coarse one: every state of every behaviour lies inside a run of atomic
 transactions, so all the laws hold whenever the worker is between transactions.
 */
module SingleWorker {
  import opened Partition
  import opened Tables
  import opened Transactions
  import opened Workers
  import opened Solo
  import opened Loader
  import opened Runs
  import opened Safety

  lemma {:induction false} IdleStays(me: nat, db: Db, n: nat)
    ensures Steps(me, After(db, Idle), n) == After(db, Idle)
  {
    if n > 0 {
      IdleStays(me, db, n - 1);
    }
  }

  /** A worker that has got from the start of a transaction to its end has performed the atomic transaction. */
  lemma FinishedIsAtomic(me: nat, db: Db, t: Txn, n: nat)
    requires me == Worker(db.cfg, t.w) && Steps(me, After(db, Begin(t)), n).pc.Idle?
    ensures Steps(me, After(db, Begin(t)), n) == After(Execute(db, t).db, Idle)
  {
    var a, b, end := After(db, Begin(t)), Steps(me, After(db, Begin(t)), n), After(Execute(db, t).db, Idle);
    SoloIsAtomic(db, t);
    var m: nat :| Steps(me, a, m) == end;
    hide Steps, Execute;
    if n <= m {
      StepsAdd(me, a, n, m - n);
      IdleStays(me, b.db, m - n);
    } else {
      StepsAdd(me, a, m, n - m);
      IdleStays(me, end.db, n - m);
    }
  }

  /** a is what n operations of transaction t, alone on the database last, lead to. */
  ghost predicate Into(last: Db, t: Txn, n: nat, a: After) {
    Drawn(last.cfg, t) && Steps(0, After(last, Begin(t)), n) == a
  }

  /** The database of a between two transactions, or on the way through one, of an atomic run from db. */
  ghost predicate Follows(dbs: seq<Db>, ts: seq<Txn>, a: After) {
    Atomic(dbs, ts) && (a == After(dbs[|ts|], Idle) || exists t: Txn, n: nat :: Into(dbs[|ts|], t, n, a))
  }

  ghost predicate InsideRun(db: Db, a: After) {
    exists dbs: seq<Db>, ts: seq<Txn> :: Follows(dbs, ts, a) && dbs[0] == db
  }

  lemma AtomicExtends(dbs: seq<Db>, ts: seq<Txn>, t: Txn)
    requires Atomic(dbs, ts) && Drawn(dbs[|ts|].cfg, t)
    ensures Atomic(dbs + [Execute(dbs[|ts|], t).db], ts + [t])
  {
    hide Execute, Drawn;
    var longer, more := dbs + [Execute(dbs[|ts|], t).db], ts + [t];
    forall j | 0 <= j < |more|
      ensures Drawn(longer[j].cfg, more[j]) && longer[j + 1] == Execute(longer[j], more[j]).db
    {
      if j < |ts| {
        assert more[j] == ts[j];
      }
    }
  }

  ghost predicate EndsAt(dbs: seq<Db>, ts: seq<Txn>, db: Db) {
    Atomic(dbs, ts) && dbs[|ts|] == db
  }

  lemma FinishedExtends(dbs: seq<Db>, ts: seq<Txn>, t: Txn, n: nat, a: After)
    requires Atomic(dbs, ts) && Into(dbs[|ts|], t, n, a) && a.pc.Idle? && dbs[|ts|].cfg.workers == 1
    ensures EndsAt(dbs + [a.db], ts + [t], a.db)
  {
    AtomicSize(dbs, ts);
    hide Steps, Execute, Drawn, Atomic, Begin;
    FinishedIsAtomic(0, dbs[|ts|], t, n);
    AtomicExtends(dbs, ts, t);
  }

  /** An idle worker stands at the end of an atomic run. */
  lemma IdleEndsRun(db: Db, a: After)
    requires InsideRun(db, a) && a.pc.Idle? && Loaded(db) && db.cfg.workers == 1
    ensures exists dbs: seq<Db>, ts: seq<Txn> :: EndsAt(dbs, ts, a.db) && dbs[0] == db
  {
    var dbs: seq<Db>, ts: seq<Txn> :| Follows(dbs, ts, a) && dbs[0] == db;
    LastConfig(dbs, ts);
    AtomicSize(dbs, ts);
    hide Loaded, Into, Atomic;
    if a == After(dbs[|ts|], Idle) {
      assert EndsAt(dbs, ts, a.db);
    } else {
      var t: Txn, n: nat :| Into(dbs[|ts|], t, n, a);
      FinishedExtends(dbs, ts, t, n, a);
      assert (dbs + [a.db])[0] == db;
    }
  }

  lemma LastConfig(dbs: seq<Db>, ts: seq<Txn>)
    requires Atomic(dbs, ts) && Loaded(dbs[0])
    ensures dbs[|ts|].cfg == dbs[0].cfg
  {
    EveryRunKeepsLaws(dbs, ts, |ts|);
  }

  lemma StartStaysInside(db: Db, a: After, t: Txn)
    requires InsideRun(db, a) && a.pc.Idle? && Loaded(db) && db.cfg.workers == 1 && Drawn(db.cfg, t)
    ensures InsideRun(db, After(a.db, Begin(t)))
  {
    IdleEndsRun(db, a);
    var dbs: seq<Db>, ts: seq<Txn> :| EndsAt(dbs, ts, a.db) && dbs[0] == db;
    LastConfig(dbs, ts);
    hide Loaded, Atomic;
    assert Into(dbs[|ts|], t, 0, After(a.db, Begin(t)));
    assert Follows(dbs, ts, After(a.db, Begin(t)));
  }

  lemma GoStaysInside(db: Db, a: After)
    requires InsideRun(db, a) && !a.pc.Idle?
    ensures InsideRun(db, Step(a.db, 0, a.pc))
  {
    var dbs: seq<Db>, ts: seq<Txn> :| Follows(dbs, ts, a) && dbs[0] == db;
    var t: Txn, n: nat :| Into(dbs[|ts|], t, n, a);
    hide Atomic, Step, Begin, Drawn;
    StepsAdd(0, After(dbs[|ts|], Begin(t)), n, 1);
    assert Steps(0, a, 1) == Step(a.db, 0, a.pc) by { OneStep(0, a); }
    assert Into(dbs[|ts|], t, n + 1, Step(a.db, 0, a.pc));
    assert Follows(dbs, ts, Step(a.db, 0, a.pc));
  }

  lemma OneStep(me: nat, a: After)
    ensures Steps(me, a, 1) == Step(a.db, me, a.pc)
  {
    hide Step;
    assert Steps(me, Step(a.db, me, a.pc), 0) == Step(a.db, me, a.pc);
  }

  lemma MoveStaysInside(db: Db, s: Sys, m: Move)
    requires Loaded(db) && db.cfg.workers == 1 && s.db.cfg == db.cfg && |s.pcs| == 1 && Enabled(s, m)
    requires InsideRun(db, After(s.db, s.pcs[0]))
    ensures |Perform(s, m).pcs| == 1 && InsideRun(db, After(Perform(s, m).db, Perform(s, m).pcs[0]))
  {
    hide Loaded, InsideRun, Step, Drawn, Owns;
    match m
    case Start(i, t) => StartStaysInside(db, After(s.db, s.pcs[0]), t);
    case Go(i) => GoStaysInside(db, After(s.db, s.pcs[0]));
  }

  /** Every state of every behaviour of a single worker lies inside an atomic run. */
  lemma {:induction false} SingleWorkerIsAtomic(db: Db, ss: seq<Sys>, ms: seq<Move>, k: nat)
    requires Loaded(db) && db.cfg.workers == 1 && Behaviour(db, ss, ms) && k < |ss|
    ensures |ss[k].pcs| == 1 && InsideRun(db, After(ss[k].db, ss[k].pcs[0]))
  {
    hide Loaded, InsideRun, Behaviour, Perform, Enabled;
    BehaviourStarts(db, ss, ms);
    if k == 0 {
      NothingYet(db);
    } else {
      BehaviourMoves(db, ss, ms, k - 1);
      SingleWorkerIsAtomic(db, ss, ms, k - 1);
      StatesAreOk(db, ss, ms, k - 1);
      MoveStaysInside(db, ss[k - 1], ms[k - 1]);
    }
  }

  lemma NothingYet(db: Db)
    ensures InsideRun(db, After(db, Idle))
  {
    assert Atomic([db], []);
    assert Follows([db], [], After(db, Idle));
  }

  /** So all the laws of atomic runs hold of a single worker's database whenever it is between transactions. */
  lemma SingleWorkerKeepsLaws(db: Db, ss: seq<Sys>, ms: seq<Move>, k: nat)
    requires Loaded(db) && db.cfg.workers == 1 && Behaviour(db, ss, ms) && k < |ss|
    requires forall i :: 0 <= i < |ss[k].pcs| ==> ss[k].pcs[i].Idle?
    ensures Laws(db, ss[k].db)
  {
    SingleWorkerIsAtomic(db, ss, ms, k);
    hide Loaded, InsideRun, Behaviour, Laws, Atomic;
    IdleEndsRun(db, After(ss[k].db, ss[k].pcs[0]));
    var dbs: seq<Db>, ts: seq<Txn> :| EndsAt(dbs, ts, ss[k].db) && dbs[0] == db;
    assert |dbs| == |ts| + 1 by { AtomicSize(dbs, ts); }
    EveryRunKeepsLaws(dbs, ts, |ts|);
  }

  lemma AtomicSize(dbs: seq<Db>, ts: seq<Txn>)
    requires Atomic(dbs, ts)
    ensures |dbs| == |ts| + 1
  {
  }
}
