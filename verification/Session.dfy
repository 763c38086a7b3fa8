/**
 The statements of internal/adapters/postgres as one transaction issues them:
 the tables it sees, updated in place. Each is proved against the statement
 functions of Store, so that a whole commitOutcome leaves exactly the writes the
 write path stages.
 */
module Session {
  import opened Prelude
  import opened Domain
  import opened Store
  import Movement
  import Backoff

  datatype DoorError = NoSuchTransaction | Refused(error: SettleError)

  /** ON CONFLICT DO NOTHING with no target: any unique key counts. */
  predicate Conflicts(db: DB, id: TransactionId, op: Operation) {
    || id in db.rows
    || exists r :: r in db.rows && External(db.rows[r]) && db.rows[r].op.provider == op.provider
                   && (db.rows[r].op.key == op.key || db.rows[r].op.external == op.external)
  }

  /** r is parked, on op's wallet, by op's provider, and names op. */
  predicate Awaits(r: Row, op: Operation) {
    && r.status == PendingReference && r.op.kind != Opening && r.op.wallet == op.wallet
    && r.op.provider == op.provider && r.op.reference == Some(op.external)
  }

  /** wager_transaction_due_idx order: the schedule, then the identifier. */
  predicate DueBefore(db: DB, a: TransactionId, b: TransactionId)
    requires a in db.rows && b in db.rows && db.rows[a].nextAttempt.Some? && db.rows[b].nextAttempt.Some?
  {
    || db.rows[a].nextAttempt.value < db.rows[b].nextAttempt.value
    || (db.rows[a].nextAttempt.value == db.rows[b].nextAttempt.value && a <= b)
  }

  class Transaction {
    var rows: map<TransactionId, Row>
    var wallets: map<WalletId, Wallet>
    var ledger: map<WalletId, seq<Entry>>
    var holds: map<TransactionId, Hold>
    var inbox: map<MessageId, Operation>
    var counters: map<WalletId, nat>

    function Sees(): DB
      reads this
    {
      DB(rows, wallets, ledger, holds, inbox, counters)
    }

    constructor Begin(db: DB)
      ensures Sees() == db
    {
      rows, wallets, ledger, holds, inbox, counters :=
        db.rows, db.wallets, db.ledger, db.holds, db.inbox, db.counters;
    }

    // ----- transactions.go ---------------------------------------------------

    /** Record: claims both keys, or does nothing and reports a duplicate. */
    method Record(id: TransactionId, row: Row) returns (inserted: bool)
      modifies this
      ensures inserted <==> !Conflicts(old(Sees()), id, row.op)
      ensures Sees() == if inserted then old(Sees()).(rows := old(rows)[id := row]) else old(Sees())
    {
      inserted := !Conflicts(Sees(), id, row.op);
      if inserted {
        rows := rows[id := row];
      }
    }

    /** ReferenceFor: one pass over the reference and the reversals resolved to
        it, each flagged with whether active_reversal still names it. */
    method ReferenceFor(p: Provider, e: ExternalId) returns (view: Option<View>)
      requires KeysUnique(Sees())
      ensures IsView(Sees(), p, e, view)
    {
      var reference: Option<TransactionId> := None;
      var todo := rows.Keys;
      while todo != {}
        invariant todo <= rows.Keys
        invariant reference.Some? ==> ExternalAt(Sees(), reference.value, p, e)
        invariant reference.None? ==> forall t :: ExternalAt(Sees(), t, p, e) ==> t in todo
      {
        var t :| t in todo;
        todo := todo - {t};
        if External(rows[t]) && rows[t].op.provider == p && rows[t].op.external == e {
          reference := Some(t);
        }
      }
      if reference.None? {
        return None;
      }
      var v := View(reference.value, rows[reference.value], []);
      todo := rows.Keys;
      while todo != {}
        invariant todo <= rows.Keys
        invariant v.id == reference.value && v.row == rows[v.id]
        invariant forall r :: r in v.reversals ==>
          ReversesIn(Sees(), r.id, v.id) && r.row == rows[r.id] && r.reversed == HoldsNothing(Sees(), r.id)
        invariant forall h :: ReversesIn(Sees(), h, v.id) && h !in todo ==> Listed(v, h)
      {
        var h :| h in todo;
        todo := todo - {h};
        if Reverses(rows[h], v.id) {
          ghost var before := v;
          v := v.(reversals := v.reversals + [Reversal(h, rows[h], HoldsNothing(Sees(), h))]);
          ListedGrows(before, v, h);
        }
      }
      return Some(v);
    }

    /** MakeDue: every waiter on the wallet, and nothing about it but its schedule. */
    method MakeDue(op: Operation, at: Time) returns (woke: nat)
      modifies this
      ensures Sees() == old(Sees()).(rows := rows) && rows.Keys == old(rows).Keys
      ensures forall x :: x in rows ==>
        rows[x] == if Awaits(old(rows)[x], op) then old(rows)[x].(nextAttempt := Some(at)) else old(rows)[x]
      ensures woke == |set x | x in old(rows) && Awaits(old(rows)[x], op)|
    {
      var waiting := set x | x in rows && WaitsFor(rows[x], op.wallet, op.provider, op.external);
      assert waiting == set x | x in rows && Awaits(rows[x], op);
      rows := map x | x in rows :: if x in waiting then rows[x].(nextAttempt := Some(at)) else rows[x];
      woke := |waiting|;
    }

    /** NextDue: the one that has been due longest, or none. */
    method NextDue(at: Time) returns (candidate: Option<TransactionId>)
      ensures candidate.None? <==> forall x :: x in rows ==> !Movement.DueAt(rows[x], at)
      ensures candidate.Some? ==>
        && candidate.value in rows && rows[candidate.value].status == PendingReference
        && rows[candidate.value].nextAttempt.Some? && rows[candidate.value].nextAttempt.value <= at
        && forall x :: x in rows && rows[x].status == PendingReference && rows[x].nextAttempt.Some? && rows[x].nextAttempt.value <= at ==>
             var mine, other := rows[candidate.value].nextAttempt.value, rows[x].nextAttempt.value;
             mine < other || (mine == other && candidate.value <= x)
    {
      candidate := None;
      var todo := rows.Keys;
      while todo != {}
        invariant todo <= rows.Keys
        invariant candidate.None? ==> forall x :: x in rows && x !in todo ==> !Movement.DueAt(rows[x], at)
        invariant candidate.Some? ==> candidate.value in rows && Movement.DueAt(rows[candidate.value], at)
        invariant candidate.Some? ==>
          forall x :: x in rows && x !in todo && Movement.DueAt(rows[x], at) ==> DueBefore(Sees(), candidate.value, x)
      {
        var t :| t in todo;
        todo := todo - {t};
        if Movement.DueAt(rows[t], at) && (candidate.None? || DueBefore(Sees(), t, candidate.value)) {
          candidate := Some(t);
        }
      }
    }

    /** ClaimForUpdate: still parked and still due, or nothing. */
    method ClaimForUpdate(id: TransactionId, at: Time) returns (claimed: Option<Row>)
      ensures claimed.Some? <==> id in rows && Movement.DueAt(rows[id], at)
      ensures claimed.Some? ==> claimed.value == rows[id]
    {
      claimed := if id in rows && Movement.DueAt(rows[id], at) then Some(rows[id]) else None;
    }

    /** Reschedule: a parked operation's schedule and nothing else of it. */
    method Reschedule(id: TransactionId, at: Time) returns (ok: bool)
      modifies this
      ensures ok <==> id in old(rows) && old(rows)[id].status == PendingReference
      ensures Sees() == old(Sees()).(rows := rows)
      ensures rows == if ok then old(rows)[id := old(rows)[id].(nextAttempt := Some(at))] else old(rows)
    {
      ok := id in rows && rows[id].status == PendingReference;
      if ok {
        rows := rows[id := rows[id].(nextAttempt := Some(at))];
      }
    }

    /** Fail: leaving PENDING_REFERENCE clears the schedule in one statement, under
        the same guard and clock every update of a row meets. */
    method Fail(id: TransactionId, at: Time) returns (refused: Option<DoorError>)
      modifies this
      ensures id !in old(rows) ==> refused == Some(NoSuchTransaction)
      ensures id in old(rows) ==>
        var row := old(rows)[id].(status := Status.Failed, updatedAt := at, nextAttempt := None);
        && refused == (if old(rows)[id].status == Processed || old(rows)[id].status == Rejected then Some(Refused(GuardRefused))
                       else if at < old(rows)[id].updatedAt then Some(Refused(ClockRefused)) else None)
        && rows == (if refused.None? then old(rows)[id := row] else old(rows))
      ensures Sees() == old(Sees()).(rows := rows)
    {
      if id !in rows {
        return Some(NoSuchTransaction);
      }
      var row := rows[id].(status := Status.Failed, updatedAt := at, nextAttempt := None);
      if GuardRefuses(rows[id], row) {
        return Some(Refused(GuardRefused));
      }
      if at < rows[id].updatedAt {
        return Some(Refused(ClockRefused));
      }
      rows := rows[id := row];
      return None;
    }

    /** cannotCarryForward for an operation this transaction has claimed. It writes
        the row the write path defers to, and is refused exactly where that step is
        not taken. */
    method CannotCarryForward(cfg: Movement.Config, id: TransactionId, now: Time) returns (refused: Option<DoorError>)
      requires Movement.ValidConfig(cfg) && id in rows && rows[id].status == PendingReference
      modifies this
      ensures var row := Movement.DeferredRow(cfg, id, old(rows)[id], now);
              && (refused.None? <==> row.updatedAt >= old(rows)[id].updatedAt)
              && Sees() == if refused.None? then old(Sees()).(rows := old(rows)[id := row]) else old(Sees())
      ensures rows[id].attempts == old(rows)[id].attempts && rows[id].op == old(rows)[id].op
      ensures refused.None? && rows[id].status == PendingReference ==>
                Backoff.OnTime(cfg.backoff, rows[id].attempts, now, rows[id].deadline, rows[id].nextAttempt)
    {
      hide Backoff.OnTime, Backoff.Next;
      Backoff.NextIsOnTime(cfg.backoff, rows[id].attempts, now, rows[id].deadline, id);
      var tx := rows[id];
      if tx.deadline.Some? && now >= tx.deadline.value {
        refused := Fail(id, now);
      } else {
        var at := Backoff.Next(cfg.backoff, tx.attempts, now, tx.deadline, id);
        var moved := Reschedule(id, at);
        refused := if moved then None else Some(NoSuchTransaction);
      }
    }

    // ----- doors.go ----------------------------------------------------------

    /** The settling update and maintain_active_reversal, which it fires. */
    method UpdateRow(id: TransactionId, row: Row) returns (refused: Option<SettleError>)
      requires id in rows
      modifies this
      ensures var hold := HoldOf(old(Sees()), id, old(rows)[id], row);
              && refused == (if hold.Err? then Some(hold.error) else None)
              && (hold.Ok? ==> Sees() == old(Sees()).(
                                 rows := old(rows)[id := row], holds := (old(holds) - hold.value.0) + hold.value.1))
    {
      var was := rows[id].status;
      if GuardRefuses(rows[id], row) || CurrencyRefuses(Sees(), row) {
        return Some(GuardRefused);
      }
      if row.updatedAt < rows[id].updatedAt {
        return Some(ClockRefused);
      }
      if TakesHold(row) && KindTaken(Sees(), id, row.op.kind, row.resolved.value) {
        return Some(AlreadyReversed);
      }
      rows := rows[id := row];
      if !TakesHold(row) || was == Processed {
        assert (holds - {}) + map[] == holds;
        return None;
      }
      var t := row.resolved.value;
      var released := ReleasedBy(Sees(), t);
      if exists x :: x in released && (row.op.kind == Refund || holds[x].kind == Rollback) {
        return Some(NotReversible);
      }
      holds := holds - released;
      if t in holds {
        return Some(AlreadyReversed);
      }
      holds := holds + map[t := Hold(id, row.op.kind)];
      return None;
    }

    /** The wallet's new state, read out of the entry, and then the entry. */
    method MoveMoney(w: WalletId, e: Entry, opening: bool) returns (refused: Option<SettleError>)
      modifies this
      ensures refused == MoneyRefused(old(Sees()), w, e, opening)
      ensures refused.None? ==> Sees() == old(Sees()).(
                                  wallets := old(wallets)[w := MovedBy(old(wallets)[w], e)],
                                  ledger := old(ledger)[w := LedgerOf(old(Sees()), w) + [e]])
    {
      if w !in wallets || wallets[w].version != e.version - 1 {
        return Some(LostUpdate);
      }
      if e.after != wallets[w].balance && e.at <= wallets[w].updatedAt {
        return Some(ClockRefused);
      }
      if e.after == wallets[w].balance {
        return Some(ChainRefused);
      }
      wallets := wallets[w := wallets[w].(balance := e.after, version := e.version, updatedAt := e.at)];
      if !ChainAccepts(LedgerOf(Sees(), w), e, opening) {
        return Some(ChainRefused);
      }
      ledger := ledger[w := LedgerOf(Sees(), w) + [e]];
      return None;
    }

    /** settle: the transaction row and what its trigger does, then the wallet
        conditioned on the version, then the ledger entry. */
    method Settle(id: TransactionId, out: Outcome, next: Option<Time>) returns (refused: Option<DoorError>)
      modifies this
      ensures refused == DoorAnswer(old(Sees()), id, out, next)
      ensures refused == None ==>
        Sees() == Merge(old(Sees()), Store.Settle(old(Sees()), id, old(rows)[id], out, next).value)
    {
      hide HoldOf, MoneyRefused;
      if id !in rows {
        return Some(NoSuchTransaction);
      }
      ghost var was := Sees();
      var w, row := rows[id].op.wallet, SettledRow(out, next);
      var broken := UpdateRow(id, row);
      if broken.Some? {
        return Some(Refused(broken.value));
      }
      assert was.rows + map[id := row] == was.rows[id := row];
      if out.entry.None? {
        return None;
      }
      MoneyReadsNoRow(was, Sees(), w, out.entry.value, row.op.kind == Opening);
      broken := MoveMoney(w, out.entry.value, row.op.kind == Opening);
      if broken.Some? {
        return Some(Refused(broken.value));
      }
      return None;
    }

    /** open: the wallet, and with money its opening row and first entry; the
        player's currency decides who of two wins. */
    method Open(o: Movement.OpenCommand, now: Time) returns (ok: bool)
      requires Ledgers(Sees())
      modifies this
      ensures ok <==> MayOpen(old(Sees()), o)
      ensures ok ==> Sees() == Movement.Opened(old(Sees()), o, now).(counters := old(counters))
    {
      hide Chain, OneEntryEach, WalletMatches, LedgerFor;
      assert o.wallet !in wallets ==> LedgerOf(Sees(), o.wallet) == [];
      ok := o.wallet !in wallets
            && !exists w :: w in wallets && wallets[w].player == o.player && wallets[w].currency == o.currency;
      if !ok {
        return;
      }
      wallets := wallets[o.wallet := Movement.OpenedWallet(o, now)];
      if o.amount == 0 {
        return;
      }
      ok := o.tx !in rows;
      if !ok {
        return;
      }
      rows := rows[o.tx := Movement.OpeningRow(o, now)];
      var entry := Entry(o.tx, Credit, o.amount, 0, o.amount, 1, now);
      ok := ChainAccepts(LedgerOf(Sees(), o.wallet), entry, true);
      if ok {
        ledger := ledger[o.wallet := [entry]];
      }
    }

    // ----- inbox.go ----------------------------------------------------------

    method FindInbox(m: MessageId) returns (body: Option<Operation>)
      ensures body.Some? <==> m in inbox
      ensures body.Some? ==> body.value == inbox[m]
    {
      body := if m in inbox then Some(inbox[m]) else None;
    }

    /** inbox_pkey decides which of two consumers handles a message. */
    method RecordInbox(m: MessageId, body: Operation) returns (ok: bool)
      modifies this
      ensures ok <==> m !in old(inbox)
      ensures Sees() == old(Sees()).(inbox := if ok then old(inbox)[m := body] else old(inbox))
    {
      ok := m !in inbox;
      if ok {
        inbox := inbox[m := body];
      }
    }

    /** The head of submitOnce: a message already handled with this body is passed
        over, one handled with another can never succeed, and a new one is claimed.
        What is left behind is what the submission's commit will publish of it. */
    method ClaimMessage(cmd: Movement.Command) returns (next: Movement.Proc)
      modifies this
      ensures next == AfterTheInbox(old(Sees()), cmd)
      ensures Sees() == Movement.WithInbox(old(Sees()), cmd, next.Submitting? && next.point.claimed)
    {
      if cmd.message.None? {
        return Movement.Submitting(cmd, Movement.Ready(false));
      }
      var handled := FindInbox(cmd.message.value);
      if handled.None? {
        var ok := RecordInbox(cmd.message.value, cmd.op);
        return if ok then Movement.Submitting(cmd, Movement.Ready(true)) else Movement.Answered(cmd, Movement.Retryable);
      }
      if handled.value != cmd.op {
        return Movement.Answered(cmd, Movement.Unretryable);
      }
      return Movement.Submitting(cmd, Movement.Ready(false));
    }

    // ----- commitOutcome -----------------------------------------------------

    /** commitOutcome: the door, the waiters, then the outbox numbering. What it
        leaves behind is exactly the delta the write path publishes. */
    method CommitOutcome(id: TransactionId, out: Outcome, next: Option<Time>, now: Time) returns (refused: Option<DoorError>)
      requires id in rows ==> out.row.op == rows[id].op
      modifies this
      ensures refused == DoorAnswer(old(Sees()), id, out, next)
      ensures refused == None ==>
        Sees() == Merge(old(Sees()), Staged(old(Sees()), id, out, next, now))
    {
      hide Store.Settle, Awaits, Woken;
      ghost var was := Sees();
      refused := Settle(id, out, next);
      if refused.Some? {
        return;
      }
      ghost var d := Store.Settle(was, id, was.rows[id], out, next).value;
      DoorStaysOnItsWallet(was, id, was.rows[id], out, next);
      if out.row.status == Processed && External(out.row) {
        var _ := MakeDue(out.row.op, now);
        WakeIsMakeDue(was, d, out.row, now, rows);
      }
      var w := out.row.op.wallet;
      counters := counters[w := CounterOf(Sees(), w) + EventsOf(out)];
    }
  }

  /** Where a submission stands once its message has been looked for. */
  function AfterTheInbox(db: DB, cmd: Movement.Command): (next: Movement.Proc)
    ensures next.Submitting? ==> next.point.Ready?
  {
    if cmd.message.None? then Movement.Submitting(cmd, Movement.Ready(false))
    else if cmd.message.value !in db.inbox then Movement.Submitting(cmd, Movement.Ready(true))
    else if db.inbox[cmd.message.value] == cmd.op then Movement.Submitting(cmd, Movement.Ready(false))
    else Movement.Answered(cmd, Movement.Unretryable)
  }

  /** What the open door needs of the tables: the identifier and the player's
      currency unused, and an amount the ledger holds. */
  predicate MayOpen(db: DB, o: Movement.OpenCommand) {
    && o.wallet !in db.wallets
    && (forall w :: w in db.wallets ==> db.wallets[w].player != o.player || db.wallets[w].currency != o.currency)
    && (o.amount != 0 ==> o.tx !in db.rows && 0 < o.amount <= MAX_MINOR)
  }

  // ----- tx.go ---------------------------------------------------------------

  /** What the server did with a COMMIT, and whether it managed to say so. */
  datatype CommitFate = Acknowledged | LandedInSilence | NotLanded

  datatype RunError<E> = NotBegun | NotBounded | FromBody(error: E) | CommitFailed

  class Manager {
    var committed: DB

    constructor (db: DB)
      ensures committed == db
    {
      committed := db;
    }

    /** run: a body's error is returned as it came and leaves nothing behind; no
        error means the body's writes landed; and a commit's error says neither. */
    method Run<E>(begun: bool, bounded: bool, body: Result<DB, E>, commit: CommitFate) returns (error: Option<RunError<E>>)
      modifies this
      ensures error.None? <==> begun && bounded && body.Ok? && commit.Acknowledged?
      ensures error.None? ==> committed == body.value
      ensures error.Some? && error != Some(CommitFailed) ==> committed == old(committed)
      ensures error == Some(CommitFailed) ==> body.Ok? && (committed == old(committed) || committed == body.value)
      ensures begun && bounded && body.Err? ==> error == Some(FromBody(body.error))
    {
      if !begun {
        return Some(NotBegun);
      }
      var undo, settled := committed, false;
      if !bounded {
        error := Some(NotBounded);
      } else if body.Err? {
        error := Some(FromBody(body.error));
      } else {
        match commit
        case Acknowledged =>
          committed, settled, error := body.value, true, None;
        case LandedInSilence =>
          // The rollback that follows reaches a transaction that is already over.
          committed, undo, error := body.value, body.value, Some(CommitFailed);
        case NotLanded =>
          error := Some(CommitFailed);
      }
      if !settled {
        committed := undo;
      }
    }
  }

  /** What settle reports: a missing row, the first refusal met, or nothing. */
  function DoorAnswer(db: DB, id: TransactionId, out: Outcome, next: Option<Time>): Option<DoorError> {
    if id !in db.rows then Some(NoSuchTransaction)
    else match Store.Settle(db, id, db.rows[id], out, next)
         case Err(e) => Some(Refused(e))
         case Ok(_) => None
  }

  /** The delta of Movement's stage Appended. */
  function Staged(db: DB, id: TransactionId, out: Outcome, next: Option<Time>, now: Time): Delta
    requires DoorAnswer(db, id, out, next) == None
  {
    Append(db, Wake(db, Store.Settle(db, id, db.rows[id], out, next).value, out.row, now), EventsOf(out))
  }

  lemma MoneyReadsNoRow(db: DB, after: DB, w: WalletId, e: Entry, opening: bool)
    requires after.wallets == db.wallets && after.ledger == db.ledger
    ensures MoneyRefused(after, w, e, opening) == MoneyRefused(db, w, e, opening) && LedgerOf(after, w) == LedgerOf(db, w)
  {
  }

  lemma DoorStaysOnItsWallet(db: DB, id: TransactionId, base: Row, out: Outcome, next: Option<Time>)
    requires Store.Settle(db, id, base, out, next).Ok?
    ensures Store.Settle(db, id, base, out, next).value.wallet == base.op.wallet
    ensures Store.Settle(db, id, base, out, next).value.counter == None
  {
  }

  lemma ListedGrows(v: View, w: View, h: TransactionId)
    requires |w.reversals| == |v.reversals| + 1 && w.reversals[..|v.reversals|] == v.reversals && w.reversals[|v.reversals|].id == h
    ensures Listed(w, h)
    ensures forall x :: Listed(v, x) ==> Listed(w, x)
  {
    forall x | Listed(v, x)
      ensures Listed(w, x)
    {
      var i :| 0 <= i < |v.reversals| && v.reversals[i].id == x;
      assert w.reversals[i] == v.reversals[i];
    }
  }

  lemma WakeIsMakeDue(db: DB, d: Delta, row: Row, now: Time, rows: map<TransactionId, Row>)
    requires row.status == Processed && External(row)
    requires rows.Keys == (db.rows + d.rows).Keys
    requires forall x :: x in rows ==>
      rows[x] == if Awaits((db.rows + d.rows)[x], row.op)
                 then (db.rows + d.rows)[x].(nextAttempt := Some(now)) else (db.rows + d.rows)[x]
    ensures rows == db.rows + Wake(db, d, row, now).rows
  {
  }
}
