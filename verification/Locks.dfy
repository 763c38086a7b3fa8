/** Deadlock freedom: the lock order written down on app.Repos, held to by every
    transaction in every reachable state. */
module Locks {
  import opened Prelude
  import opened Domain
  import opened Store
  import opened Netting
  import opened Movement
  import opened MovementInvariant
  import opened MovementSteps
  import opened MovementRuns

  /** How far through the lock order a transaction stands. */
  function Stand(proc: Proc): nat {
    match proc
    case Submitting(_, point) => if point.InboxMissed? then 0 else if point.Locked? || point.Stamped? then 3 else if point.Entered? then 4 else 1
    case Resuming(_, at) => if at.Holding? then 3 else 0
    case Moving(_, _, _, _, _, stage) => if stage.Appended? then 7 else 6
    case OpeningWallet(_, step) => if step.Unseen? then 0 else if step.Inserted? then 2 else 7
    case Answered(_, _) => 0
  }

  /** Nothing is held beyond where a transaction stands, and what it asks for
      next is beyond it, unless it is a transaction row. */
  lemma LocksAreTakenInOrder(db: DB, proc: Proc)
    ensures forall r :: r in Held(proc) ==> Rank(r) <= Stand(proc)
    ensures forall r :: r in Wants(db, proc) && !r.TransactionRow? ==> Stand(proc) < Rank(r)
  {
    hide Store.Wake;
  }

  /** A transaction asks only for rows of the wallet it holds. */
  lemma WantedRows(cfg: Config, db: DB, clock: Time, m: Proc, id: TransactionId)
    requires ValidConfig(cfg) && ProcOk(cfg, db, clock, m) && TransactionRow(id) in Wants(db, m)
    ensures (m.Resuming? && m.at.Holding? && OnWallet(db, id, m.at.wallet)) || (m.Moving? && OnWallet(db, id, m.base.op.wallet))
  {
    hide ViewSound, ContinueOf, SettleOf, Store.Wake, CallerOk;
    if m.Moving? {
      var d := m.stage.delta;
      ContinueKeepsOp(cfg, m, m.stage.view);
      WakeRows(db, d, m.stage.out.row, m.now, id);
    }
  }

  /** No transaction row is ever waited for: whoever holds one holds its wallet. */
  lemma RowsAreNeverWaitedFor(cfg: Config, s: State, p: Pid, q: Pid, id: TransactionId)
    requires ValidConfig(cfg) && p in s.procs && q in s.procs && p != q
    requires ProcOk(cfg, s.db, s.clock, s.procs[p]) && ProcOk(cfg, s.db, s.clock, s.procs[q])
    requires Exclusive(s.procs)
    requires TransactionRow(id) in Wants(s.db, s.procs[p])
    ensures TransactionRow(id) !in Held(s.procs[q])
  {
    hide ProcOk, Wants;
    WantedRows(cfg, s.db, s.clock, s.procs[p], id);
    if TransactionRow(id) in Held(s.procs[q]) {
      HeldRows(cfg, s.db, s.clock, s.procs[q], id);
      HoldsWalletRow(s.procs[p]);
      HoldsWalletRow(s.procs[q]);
    }
  }

  lemma HoldsWalletRow(proc: Proc)
    ensures proc.Moving? ==> WalletRow(proc.base.op.wallet) in Held(proc)
    ensures proc.Resuming? && proc.at.Holding? ==> WalletRow(proc.at.wallet) in Held(proc)
  {
    hide StageHeld, CallerHeld;
  }

  /** Waiting always points further along the lock order. */
  lemma WaitingClimbs(cfg: Config, s: State, p: Pid, q: Pid)
    requires ValidConfig(cfg) && Inv(cfg, s) && WaitsOn(s, p, q)
    ensures Stand(s.procs[p]) < Stand(s.procs[q])
  {
    hide Tables, AwakeOn, ProcOk, Held, Wants, History, BookOf, Backed, AnswerLogged, Stand, Rank;
    var r :| r in Wants(s.db, s.procs[p]) * Held(s.procs[q]);
    if r.TransactionRow? {
      RowsAreNeverWaitedFor(cfg, s, p, q, r.id);
    }
    LocksAreTakenInOrder(s.db, s.procs[p]);
    LocksAreTakenInOrder(s.db, s.procs[q]);
  }

  /** Deadlock freedom: in no reachable state does a chain of waiting
      transactions, of any length, come back to where it began. */
  lemma NoDeadlock(cfg: Config, s: State, chain: seq<Pid>)
    requires ValidConfig(cfg) && Reachable(cfg, s) && |chain| >= 2
    requires forall i :: 0 <= i < |chain| - 1 ==> WaitsOn(s, chain[i], chain[i + 1])
    ensures chain[0] != chain[|chain| - 1]
  {
    hide Reachable, Inv, Stand, Held, Wants;
    ReachableIsSafe(cfg, s);
    ChainClimbs(cfg, s, chain);
  }

  lemma {:induction false} ChainClimbs(cfg: Config, s: State, chain: seq<Pid>)
    requires ValidConfig(cfg) && Inv(cfg, s) && |chain| >= 2
    requires forall i :: 0 <= i < |chain| - 1 ==> WaitsOn(s, chain[i], chain[i + 1])
    ensures chain[0] in s.procs && chain[|chain| - 1] in s.procs
    ensures Stand(s.procs[chain[0]]) < Stand(s.procs[chain[|chain| - 1]])
  {
    hide Inv, Stand, Held, Wants;
    WaitingClimbs(cfg, s, chain[0], chain[1]);
    assert WaitsOn(s, chain[0], chain[1]);
    if |chain| > 2 {
      var rest := chain[1..];
      forall i | 0 <= i < |rest| - 1
        ensures WaitsOn(s, rest[i], rest[i + 1])
      {
        assert WaitsOn(s, chain[i + 1], chain[i + 1 + 1]);
      }
      ChainClimbs(cfg, s, rest);
    }
  }

  /** And so somebody can always go on: whoever stands furthest waits for no one. */
  lemma SomeoneIsUnblocked(cfg: Config, s: State)
    requires ValidConfig(cfg) && Reachable(cfg, s) && s.procs != map[]
    ensures exists p :: p in s.procs && Unblocked(s, p)
  {
    hide Reachable, Inv, Stand, Held, Wants;
    ReachableIsSafe(cfg, s);
    assert s.procs.Keys == {} ==> s.procs == map[];
    var p := Furthest(s, s.procs.Keys);
    forall q | q in s.procs && q != p
      ensures Wants(s.db, s.procs[p]) * Held(s.procs[q]) == {}
    {
      if WaitsOn(s, p, q) {
        WaitingClimbs(cfg, s, p, q);
      }
    }
  }

  lemma {:induction false} Furthest(s: State, among: set<Pid>) returns (p: Pid)
    requires among != {} && among <= s.procs.Keys
    ensures p in among && forall q :: q in among ==> Stand(s.procs[q]) <= Stand(s.procs[p])
  {
    hide Stand;
    var x :| x in among;
    p := x;
    if among != {x} {
      assert among - {x} == {} ==> among == {x};
      var y := Furthest(s, among - {x});
      if Stand(s.procs[y]) > Stand(s.procs[x]) {
        p := y;
      }
      assert forall q :: q in among ==> q == x || q in among - {x};
    }
  }
}
