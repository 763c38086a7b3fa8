/**
 What holds in every reachable state of the write path: of the committed
 tables, of every transaction in flight, and between any two of them.
 */
module MovementInvariant {
  import opened Prelude
  import opened Domain
  import opened Store
  import opened Movement
  import opened Netting
  import Backoff

  // ----- The committed tables ------------------------------------------------

  /** A committed transaction is never PENDING, carries a next attempt exactly
      when it is parked, and a parked one is scheduled no later than its deadline
      or is already due. */
  ghost predicate RowShape(r: Row, clock: Time) {
    && r.status != Pending
    && (r.op.kind == Opening ==> r.status == Processed)
    && (r.op.kind != Opening ==> ValidCommand(r.op))
    && (r.nextAttempt.Some? <==> r.status == PendingReference)
    && (r.result.Some? <==> r.status == Processed)
    && (r.code.Some? <==> r.status == Rejected)
    && (r.status == PendingReference ==>
          && r.attempts > 0 && r.deadline.Some? && r.resolved.None? && NamesReference(r.op)
          && (r.nextAttempt.value <= r.deadline.value || r.nextAttempt.value <= clock))
    && r.updatedAt <= clock
  }

  ghost predicate RowShapes(db: DB, clock: Time) {
    forall id :: id in db.rows ==> RowShape(db.rows[id], clock)
  }

  /** x is parked on t, on one wallet, and t has been processed. */
  predicate WaitsOnProcessed(db: DB, x: TransactionId, t: TransactionId) {
    && x in db.rows && t in db.rows
    && External(db.rows[t]) && db.rows[t].status == Processed
    && WaitsFor(db.rows[x], db.rows[t].op.wallet, db.rows[t].op.provider, db.rows[t].op.external)
  }

  /** No lost wake-up: such an operation is due from the very instant t settled. */
  ghost predicate AwakeOn(db: DB, defective: set<WalletId>) {
    forall x, t :: WaitsOnProcessed(db, x, t) && db.rows[x].op.wallet !in defective ==>
      db.rows[x].nextAttempt == Some(db.rows[t].updatedAt)
  }

  /** A row is committed under the operation's key, with its payload. */
  ghost predicate Backed(db: DB, op: Operation) {
    exists r :: KeyAt(db, r, op.provider, op.key) && db.rows[r].op == op
  }

  ghost predicate InboxBacked(db: DB) {
    forall m :: m in db.inbox ==> Backed(db, db.inbox[m])
  }

  ghost predicate WalletsSound(db: DB, clock: Time) {
    && (forall w :: w in db.wallets ==> db.wallets[w].updatedAt <= clock)
    && (forall a, b ::
          (a in db.wallets && b in db.wallets
           && db.wallets[a].player == db.wallets[b].player && db.wallets[a].currency == db.wallets[b].currency)
          ==> a == b)
  }

  ghost predicate Tables(db: DB, clock: Time) {
    && KeysUnique(db) && ReversalRules(db) && Ledgers(db) && Nets(db)
    && RowShapes(db, clock) && WalletsSound(db, clock) && InboxBacked(db)
  }

  // ----- Transactions in flight ----------------------------------------------

  /** A view read earlier still tells the truth about this operation's wallet. */
  ghost predicate ViewSound(db: DB, op: Operation, view: Option<View>) {
    match view
    case None =>
      op.reference.Some? ==>
        forall t :: ExternalAt(db, t, op.provider, op.reference.value) ==> db.rows[t].op.wallet != op.wallet
    case Some(v) =>
      && op.reference.Some? && ExternalAt(db, v.id, op.provider, op.reference.value)
      && db.rows[v.id].op == v.row.op
      && (v.row.op.wallet == op.wallet ==> v.row == db.rows[v.id] && ReversalsOf(db, v))
  }

  /** A message this transaction claimed is in nobody's committed inbox; one it did
      not claim is there already, with this body. */
  ghost predicate ClaimOk(db: DB, cmd: Command, claimed: bool) {
    if claimed then cmd.message.Some? && cmd.message.value !in db.inbox
    else cmd.message.Some? ==> cmd.message.value in db.inbox && db.inbox[cmd.message.value] == cmd.op
  }

  ghost predicate CallerOk(db: DB, m: Proc)
    requires m.Moving?
  {
    match m.caller
    case BySubmit(cmd, claimed) =>
      && cmd.op == m.base.op && cmd.id == m.id && m.id !in db.rows && !Clashes(db, cmd.op)
      && m.base == NewRow(cmd.op, m.now) && m.wallet.updatedAt <= m.now && ClaimOk(db, cmd, claimed)
    case ByResume =>
      && m.id in db.rows && db.rows[m.id] == m.base && m.base.status == PendingReference && DueAt(m.base, m.now)
  }

  /** The writes a movement has staged so far are the ones its statements would
      make against the tables as they are committed now. */
  ghost predicate StageOk(cfg: Config, db: DB, m: Proc)
    requires ValidConfig(cfg) && m.Moving?
  {
    match m.stage
    case Begun => true
    case Viewed(view) => ViewSound(db, m.base.op, view)
    case Settled(view, out, d) =>
      && ViewSound(db, m.base.op, view) && ContinueOf(cfg, m, view) == Ok(out)
      && SettleOf(cfg, db, m, out) == Ok(d)
    case Woke(view, out, d) =>
      && ViewSound(db, m.base.op, view) && ContinueOf(cfg, m, view) == Ok(out)
      && SettleOf(cfg, db, m, out).Ok?
      && d == Store.Wake(db, SettleOf(cfg, db, m, out).value, out.row, m.now)
    case Appended(view, out, d) =>
      && ViewSound(db, m.base.op, view) && ContinueOf(cfg, m, view) == Ok(out)
      && SettleOf(cfg, db, m, out).Ok?
      && d == Store.Append(db, Store.Wake(db, SettleOf(cfg, db, m, out).value, out.row, m.now), EventsOf(out))
    case Deferring(row) =>
      && m.caller.ByResume? && row == DeferredRow(cfg, m.id, m.base, m.now) && row.updatedAt >= m.base.updatedAt
  }

  ghost predicate MovingOk(cfg: Config, db: DB, clock: Time, m: Proc)
    requires ValidConfig(cfg) && m.Moving?
  {
    && ValidCommand(m.base.op) && m.now <= clock
    && m.base.op.wallet in db.wallets && db.wallets[m.base.op.wallet] == m.wallet
    && m.wallet.player == m.base.op.player
    && CallerOk(db, m) && StageOk(cfg, db, m)
  }

  /** The row a replay answers from is committed under the submission's key. */
  ghost predicate AnswersFrom(db: DB, op: Operation, id: TransactionId, row: Row) {
    KeyAt(db, id, op.provider, op.key) && db.rows[id].op == op && db.rows[id].op == row.op
  }

  /** The wallet a submission has locked, as it stands. */
  ghost predicate LockOk(db: DB, op: Operation, wallet: Wallet) {
    op.wallet in db.wallets && db.wallets[op.wallet] == wallet && wallet.player == op.player
  }

  ghost predicate PointOk(db: DB, clock: Time, cmd: Command, point: Point) {
    match point
    case Started => true
    case InboxMissed => true
    case Ready(claimed) => ClaimOk(db, cmd, claimed)
    case KeyMissed(claimed) => ClaimOk(db, cmd, claimed)
    case BothMissed(claimed) => ClaimOk(db, cmd, claimed)
    case Locked(claimed, wallet) => ClaimOk(db, cmd, claimed) && LockOk(db, cmd.op, wallet)
    case Stamped(claimed, wallet, now) =>
      ClaimOk(db, cmd, claimed) && LockOk(db, cmd.op, wallet) && wallet.updatedAt <= now <= clock
    case Entered(claimed, wallet, now) =>
      && ClaimOk(db, cmd, claimed) && LockOk(db, cmd.op, wallet) && wallet.updatedAt <= now <= clock
      && forall r :: !ExternalAt(db, r, cmd.op.provider, cmd.op.external)
    case Replaying(claimed, id, row) => ClaimOk(db, cmd, claimed) && AnswersFrom(db, cmd.op, id, row)
    case Lost => Clashes(db, cmd.op)
  }

  ghost predicate ProcOk(cfg: Config, db: DB, clock: Time, proc: Proc)
    requires ValidConfig(cfg)
  {
    match proc
    case Submitting(cmd, point) =>
      ValidCommand(cmd.op) && (!point.Lost? ==> cmd.id !in db.rows) && PointOk(db, clock, cmd, point)
    case Resuming(now, at) => now <= clock && (!at.Looking? ==> OnWallet(db, at.id, at.wallet))
    case Moving(_, _, _, _, _, _) => MovingOk(cfg, db, clock, proc)
    case OpeningWallet(o, step) =>
      && o.tx !in db.rows && o.wallet !in db.wallets && 0 <= o.amount <= MAX_MINOR && step.now <= clock
      && (!step.Unseen? ==>
            forall w :: w in db.wallets ==> db.wallets[w].player != o.player || db.wallets[w].currency != o.currency)
    case Answered(cmd, answer) =>
      answer.Accepted? ==> AnswersFrom(db, cmd.op, answer.id, answer.row)
  }

  /** No two transactions hold the same lock. */
  ghost predicate Exclusive(procs: map<Pid, Proc>) {
    forall p, q :: p in procs && q in procs && p != q ==> Held(procs[p]) !! Held(procs[q])
  }

  // ----- The atomic specification --------------------------------------------

  /** What a provider can observe of the store: the operations recorded. */
  type Book = map<TransactionId, Operation>

  function BookOf(db: DB): Book {
    map id | id in db.rows && External(db.rows[id]) :: db.rows[id].op
  }

  predicate HasKey(b: Book, r: TransactionId, op: Operation) {
    r in b && b[r].provider == op.provider && b[r].key == op.key
  }

  predicate HasExternal(b: Book, r: TransactionId, op: Operation) {
    r in b && b[r].provider == op.provider && b[r].external == op.external
  }

  /** One atomic submission: look up the key, then the external id, else record
      the operation under the identifier minted for it. */
  ghost predicate Atomic(b: Book, cmd: Command, decision: Decision, after: Book) {
    if exists r :: HasKey(b, r, cmd.op) then
      && after == b
      && (match decision
          case Recorded(_) => false
          case Replayed(id) => HasKey(b, id, cmd.op) && b[id] == cmd.op
          case Refused => exists r :: HasKey(b, r, cmd.op) && b[r] != cmd.op)
    else if exists r :: HasExternal(b, r, cmd.op) then after == b && decision == Refused
    else cmd.id !in b && after == b[cmd.id := cmd.op] && decision == Recorded(cmd.id)
  }

  function BookAfter(log: seq<LogEntry>): Book {
    if log == [] then map[]
    else
      var before := BookAfter(log[..|log| - 1]);
      var last := log[|log| - 1];
      if last.decision.Recorded? then before[last.decision.id := last.cmd.op] else before
  }

  /** log is a run of atomic submissions from an empty store to b. */
  ghost predicate History(log: seq<LogEntry>, b: Book) {
    && b == BookAfter(log)
    && forall i {:trigger log[i]} :: 0 <= i < |log| ==>
         Atomic(BookAfter(log[..i]), log[i].cmd, log[i].decision, BookAfter(log[..i + 1]))
  }

  /** Every answer given is one the log decided. */
  ghost predicate AnswerLogged(log: seq<LogEntry>, proc: Proc) {
    match proc
    case Answered(cmd, Accepted(id, _, replay)) =>
      LogEntry(cmd, if replay then Replayed(id) else Recorded(id)) in log
    case Answered(cmd, Conflicted) => LogEntry(cmd, Refused) in log
    case Submitting(cmd, Replaying(_, id, _)) => LogEntry(cmd, Replayed(id)) in log
    case _ => true
  }

  // ----- Together ------------------------------------------------------------

  ghost predicate Inv(cfg: Config, s: State)
    requires ValidConfig(cfg)
  {
    && Tables(s.db, s.clock)
    && AwakeOn(s.db, s.defective)
    && (forall p :: p in s.procs ==> ProcOk(cfg, s.db, s.clock, s.procs[p]))
    && Exclusive(s.procs)
    && (forall x :: x in s.deleted ==> Backed(s.db, x.1))
    && History(s.log, BookOf(s.db))
    && (forall p :: p in s.procs ==> AnswerLogged(s.log, s.procs[p]))
  }
}
