/**
 The doors without the lock: wallets opened, operations recorded, and outcomes
 brought to the settle door that were computed from any wallet and any view at
 all, read at any time or never. What the door refuses leaves nothing behind.
 */
module StaleReads {
  import opened Prelude
  import opened Domain
  import opened Store
  import opened Ledger
  import opened Movement
  import opened MovementSafety
  import opened Session

  datatype Step =
    | OpenWallet(o: OpenCommand, now: Time)
    | RecordOperation(id: TransactionId, op: Operation, now: Time)
    | SettleOutcome(
        id: TransactionId, wallet: Wallet, view: Option<View>, policy: WaitPolicy, next: Option<Time>, now: Time)

  /** What the processor makes of the wallet it was handed. */
  function OutcomeOf(db: DB, step: Step): Result<Outcome, DomainError>
    requires step.SettleOutcome? && step.id in db.rows
  {
    Continue(step.id, db.rows[step.id], step.wallet, step.view, step.policy, step.now)
  }

  ghost predicate Next(db: DB, step: Step, after: DB) {
    match step
    case OpenWallet(o, now) => MayOpen(db, o) && after == Opened(db, o, now)
    case RecordOperation(id, op, now) =>
      op.kind != Opening && !Conflicts(db, id, op) && after == db.(rows := db.rows[id := NewRow(op, now)])
    case SettleOutcome(id, _, _, _, next, now) =>
      && id in db.rows && OutcomeOf(db, step).Ok?
      && var out := OutcomeOf(db, step).value;
         && DoorAnswer(db, id, out, next) == None
         && after == Merge(db, Staged(db, id, out, next, now))
  }

  // ----- Steps keep the ledgers ----------------------------------------------

  lemma OpeningKeeps(db: DB, o: OpenCommand, now: Time)
    requires Ledgers(db) && MayOpen(db, o)
    ensures Ledgers(Opened(db, o, now))
  {
    hide Ledgers;
    OpeningKeepsLedgers(db, Opened(db, o, now), o, now);
  }

  lemma RecordingKeeps(db: DB, id: TransactionId, row: Row)
    requires Ledgers(db) && id !in db.rows
    ensures Ledgers(db.(rows := db.rows[id := row]))
  {
    hide Chain, OneEntryEach, WalletMatches;
    var after := db.(rows := db.rows[id := row]);
    forall w
      ensures LedgerFor(after, w) && (LedgerOf(after, w) != [] ==> w in after.wallets)
    {
      assert LedgerFor(db, w);
      var l := LedgerOf(db, w);
      forall i | 0 <= i < |l|
        ensures OnWallet(after, l[i].tx, w) && (w in after.wallets ==> InCurrency(after, l[i].tx, w))
      {
        assert OnWallet(db, l[i].tx, w);
        assert w in db.wallets ==> InCurrency(db, l[i].tx, w);
      }
    }
  }

  /** What any outcome of the processor has, whatever it was computed from. */
  lemma OutcomesAreOwn(db: DB, step: Step)
    requires step.SettleOutcome? && step.id in db.rows && OutcomeOf(db, step).Ok?
    ensures var out := OutcomeOf(db, step).value;
            && out.row.op == db.rows[step.id].op && !Terminal(db.rows[step.id].status)
            && (out.entry.Some? ==> out.entry.value.tx == step.id && out.row.status == Processed)
  {
    hide Evaluate;
  }

  /** The door and MakeDue stage a ledger move the wallet's own, or none. */
  lemma DoorMovesLedger(db: DB, id: TransactionId, out: Outcome, next: Option<Time>, now: Time)
    requires DoorAnswer(db, id, out, next) == None && out.row.op == db.rows[id].op && !Terminal(db.rows[id].status)
    requires out.entry.Some? ==> out.entry.value.tx == id && out.row.status == Processed
    ensures MovesLedger(db, Staged(db, id, out, next, now), out.row.op.kind == Opening)
    ensures KeepsSettled(db, Staged(db, id, out, next, now))
  {
    hide Store.Settle, Store.Wake, MovesLedger, KeepsSettled;
    var d := Store.Settle(db, id, db.rows[id], out, next).value;
    SettleMovesLedger(db, id, out, next);
    WakesOnlyParked(db, d, out.row, now);
    WokenMovesLedger(db, d, Staged(db, id, out, next, now), out.row.op.kind == Opening);
  }

  lemma SettleMovesLedger(db: DB, id: TransactionId, out: Outcome, next: Option<Time>)
    requires DoorAnswer(db, id, out, next) == None && out.row.op == db.rows[id].op && !Terminal(db.rows[id].status)
    requires out.entry.Some? ==> out.entry.value.tx == id && out.row.status == Processed
    ensures var d := Store.Settle(db, id, db.rows[id], out, next).value;
            MovesLedger(db, d, out.row.op.kind == Opening) && KeepsSettled(db, d)
  {
    hide ChainAccepts, HoldOf;
    if out.row.status == Processed {
      DoorKeepsCurrency(db, id, db.rows[id], out, next);
    }
  }

  lemma WokenMovesLedger(db: DB, d: Delta, e: Delta, opening: bool)
    requires MovesLedger(db, d, opening) && KeepsSettled(db, d) && e == d.(rows := e.rows, counter := e.counter)
    requires forall x :: x in d.rows ==> x in e.rows && e.rows[x].op == d.rows[x].op && e.rows[x].status == d.rows[x].status
    requires forall x :: x in e.rows && x !in d.rows ==>
               x in db.rows && db.rows[x].status == PendingReference && e.rows[x].op == db.rows[x].op
    ensures MovesLedger(db, e, opening) && KeepsSettled(db, e)
  {
    hide ChainAccepts;
  }

  lemma DoorKeepsCurrency(db: DB, id: TransactionId, base: Row, out: Outcome, next: Option<Time>)
    requires Store.Settle(db, id, base, out, next).Ok? && out.row.status == Processed
    ensures out.row.op.wallet in db.wallets && db.wallets[out.row.op.wallet].currency == out.row.op.currency
  {
    hide ChainAccepts, KindTaken, TakeHold;
  }

  lemma WakesOnlyParked(db: DB, d: Delta, row: Row, now: Time)
    ensures var e := Store.Wake(db, d, row, now);
            && e == d.(rows := e.rows)
            && (forall x :: x in d.rows ==> x in e.rows && e.rows[x].op == d.rows[x].op && e.rows[x].status == d.rows[x].status)
            && (forall x :: x in e.rows && x !in d.rows ==>
                  x in db.rows && db.rows[x].status == PendingReference && e.rows[x].op == db.rows[x].op)
  {
  }

  lemma StepKeeps(db: DB, step: Step, after: DB)
    requires Ledgers(db) && Next(db, step, after)
    ensures Ledgers(after)
  {
    hide Ledgers, OutcomeOf, DoorAnswer, Staged, Merge, Opened;
    match step
    case OpenWallet(o, now) => OpeningKeeps(db, o, now);
    case RecordOperation(id, op, now) => RecordingKeeps(db, id, NewRow(op, now));
    case SettleOutcome(id, _, _, _, next, now) =>
      var out := OutcomeOf(db, step).value;
      OutcomesAreOwn(db, step);
      DoorMovesLedger(db, id, out, next, now);
      MergeKeepsLedgers(db, Staged(db, id, out, next, now), out.row.op.kind == Opening);
  }

  // ----- Every run -----------------------------------------------------------

  ghost predicate IsRun(states: seq<DB>, steps: seq<Step>) {
    && |states| == |steps| + 1 && states[0] == EMPTY
    && forall i {:trigger steps[i]} :: 0 <= i < |steps| ==> Next(states[i], steps[i], states[i + 1])
  }

  /** Versions contiguous, each entry starting where the last one ended, one entry
      a transaction, in the wallet's currency, and the wallet at the end of it, in
      every state of every run, however stale what the movements were computed
      from. */
  lemma {:induction false} StaleReadsCannotBreakALedger(states: seq<DB>, steps: seq<Step>, i: nat)
    requires IsRun(states, steps) && i <= |steps|
    ensures Ledgers(states[i])
  {
    hide Ledgers, Next;
    if i == 0 {
      EmptyLedgers();
    } else {
      StaleReadsCannotBreakALedger(states, steps, i - 1);
      var step := steps[i - 1];
      StepKeeps(states[i - 1], step, states[i]);
    }
  }

  lemma EmptyLedgers()
    ensures Ledgers(EMPTY)
  {
  }

  /** And so Reconcile finds nothing, for any wallet, at any point of any run. */
  method ReconcileAnyRun(ghost states: seq<DB>, ghost steps: seq<Step>, ghost i: nat, db: DB, w: WalletId)
    returns (finding: Option<Finding>)
    requires IsRun(states, steps) && i <= |steps| && db == states[i]
    ensures finding == if w in db.wallets then Some(Agrees) else None
  {
    StaleReadsCannotBreakALedger(states, steps, i);
    finding := ReconcileWallet(db, w);
  }

  /** A movement computed from any other version of its wallet is refused. */
  lemma StaleVersionsAreRefused(db: DB, step: Step, w: WalletId)
    requires step.SettleOutcome? && step.id in db.rows && OutcomeOf(db, step).Ok? && OutcomeOf(db, step).value.entry.Some?
    requires w == db.rows[step.id].op.wallet && w in db.wallets && db.wallets[w].version != step.wallet.version
    ensures DoorAnswer(db, step.id, OutcomeOf(db, step).value, step.next).Some?
  {
    hide Evaluate, KindTaken, TakeHold, ChainAccepts;
  }
}
