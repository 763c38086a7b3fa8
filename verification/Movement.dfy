/**
 The write path as a state machine: any number of submissions, resume turns and
 wallet openings, each a transaction whose steps are the statements of
 internal/app/wagering.go and internal/app/wallets.go. A statement reads the
 committed tables of its own instant (READ COMMITTED) and its transaction's own
 writes; the writes stay private until the commit. A statement that needs a
 lock another transaction holds is not enabled. A transaction may be abandoned
 before any statement, a commit may land and be reported as failed, and the
 process may vanish at any point.
 */
module Movement {
  import opened Prelude
  import opened Domain
  import opened Store
  import Backoff

  type Pid = nat

  datatype Config = Config(backoff: Backoff.Policy, wait: WaitPolicy)

  predicate ValidConfig(cfg: Config) {
    Backoff.Valid(cfg.backoff) && cfg.wait.maxAttempts >= 1 && cfg.wait.ttl > 0
  }

  /** A submission: the operation, the identifier minted for it, the queue message
      it arrived in, if any, and which submission it is, counted from the first. */
  datatype Command = Command(op: Operation, id: TransactionId, message: Option<MessageId>, attempt: nat)

  datatype Answer =
    | Accepted(id: TransactionId, row: Row, replay: bool)
    | Conflicted
    | NotFound
    | Retryable
    | Unretryable

  datatype Point =
    | Started
    | InboxMissed
    | Ready(claimed: bool)
    | KeyMissed(claimed: bool)
    | BothMissed(claimed: bool)
    | Locked(claimed: bool, wallet: Wallet)
    | Stamped(claimed: bool, wallet: Wallet, now: Time)
    | Entered(claimed: bool, wallet: Wallet, now: Time)
    | Replaying(claimed: bool, id: TransactionId, row: Row)
    | Lost

  datatype Caller = BySubmit(cmd: Command, claimed: bool) | ByResume

  /** How far a transaction that holds its wallet and its row has got. */
  datatype Stage =
    | Begun
    | Viewed(view: Option<View>)
    | Settled(view: Option<View>, out: Outcome, delta: Delta)
    | Woke(view: Option<View>, out: Outcome, delta: Delta)
    | Appended(view: Option<View>, out: Outcome, delta: Delta)
    | Deferring(row: Row)

  datatype ResumePoint =
    | Looking
    | Candidate(id: TransactionId, wallet: WalletId)
    | Holding(id: TransactionId, wallet: WalletId)

  datatype OpenCommand = OpenCommand(
    wallet: WalletId, tx: TransactionId, player: PlayerId, currency: Currency, amount: int)

  datatype OpenPoint = Unseen(now: Time) | Inserted(now: Time) | Announced(now: Time)

  datatype Proc =
    | Submitting(cmd: Command, point: Point)
    | Resuming(now: Time, at: ResumePoint)
    | Moving(caller: Caller, id: TransactionId, base: Row, wallet: Wallet, now: Time, stage: Stage)
    | OpeningWallet(open: OpenCommand, step: OpenPoint)
    | Answered(cmd: Command, answer: Answer)

  /** What an atomic look-up-else-insert decides. */
  datatype Decision = Recorded(id: TransactionId) | Replayed(id: TransactionId) | Refused

  datatype LogEntry = LogEntry(cmd: Command, decision: Decision)

  /** db is what is committed; deleted is the messages acknowledged, with their
      bodies; defective the wallets on which a parked operation could not be
      carried forward; log the decisions in the order they took effect; starts
      how many had been taken when each submission began. */
  datatype State = State(
    db: DB, procs: map<Pid, Proc>, clock: Time,
    deleted: set<(MessageId, Operation)>, defective: set<WalletId>, log: seq<LogEntry>, starts: seq<nat>)

  const INITIAL := State(EMPTY, map[], 0, {}, {}, [], [])

  // ----- Locks ---------------------------------------------------------------

  datatype Resource =
    | NewId(id: TransactionId)
    | NewWallet(wallet: WalletId)
    | InboxRow(message: MessageId)
    | PlayerCurrency(player: PlayerId, currency: Currency)
    | WalletRow(wallet: WalletId)
    | ExternalKey(provider: Provider, external: ExternalId)
    | SubmissionKey(provider: Provider, key: IdempotencyKey)
    | TransactionRow(id: TransactionId)
    | Counter(wallet: WalletId)

  /** The lock order written down on app.Repos. */
  function Rank(r: Resource): nat {
    match r
    case NewId(_) => 0
    case NewWallet(_) => 0
    case InboxRow(_) => 1
    case PlayerCurrency(_, _) => 2
    case WalletRow(_) => 3
    case ExternalKey(_, _) => 4
    case SubmissionKey(_, _) => 5
    case TransactionRow(_) => 6
    case Counter(_) => 7
  }

  function InboxHeld(cmd: Command, claimed: bool): set<Resource> {
    if claimed && cmd.message.Some? then {InboxRow(cmd.message.value)} else {}
  }

  function KeysOf(op: Operation): set<Resource> {
    {ExternalKey(op.provider, op.external), SubmissionKey(op.provider, op.key)}
  }

  function RowsOf(ids: set<TransactionId>): set<Resource> {
    set id | id in ids :: TransactionRow(id)
  }

  function StageHeld(id: TransactionId, w: WalletId, stage: Stage): set<Resource> {
    match stage
    case Begun => {}
    case Viewed(_) => {}
    case Settled(_, _, d) => RowsOf(d.rows.Keys)
    case Woke(_, _, d) => RowsOf(d.rows.Keys)
    case Appended(_, _, d) => RowsOf(d.rows.Keys) + {Counter(w)}
    case Deferring(_) => {TransactionRow(id)}
  }

  function CallerHeld(caller: Caller, id: TransactionId): set<Resource> {
    match caller
    case BySubmit(cmd, claimed) => {NewId(id), TransactionRow(id)} + InboxHeld(cmd, claimed) + KeysOf(cmd.op)
    case ByResume => {TransactionRow(id)}
  }

  /** What a transaction keeps until it ends. An identifier it minted counts:
      no other transaction mints the same one. */
  function Held(proc: Proc): set<Resource> {
    match proc
    case Submitting(cmd, Started) => {NewId(cmd.id)}
    case Submitting(cmd, InboxMissed) => {NewId(cmd.id)}
    case Submitting(cmd, Ready(c)) => {NewId(cmd.id)} + InboxHeld(cmd, c)
    case Submitting(cmd, KeyMissed(c)) => {NewId(cmd.id)} + InboxHeld(cmd, c)
    case Submitting(cmd, BothMissed(c)) => {NewId(cmd.id)} + InboxHeld(cmd, c)
    case Submitting(cmd, Locked(c, _)) => {NewId(cmd.id), WalletRow(cmd.op.wallet)} + InboxHeld(cmd, c)
    case Submitting(cmd, Stamped(c, _, _)) => {NewId(cmd.id), WalletRow(cmd.op.wallet)} + InboxHeld(cmd, c)
    case Submitting(cmd, Entered(c, _, _)) =>
      {NewId(cmd.id), WalletRow(cmd.op.wallet), ExternalKey(cmd.op.provider, cmd.op.external)} + InboxHeld(cmd, c)
    case Submitting(cmd, Replaying(c, _, _)) => {NewId(cmd.id)} + InboxHeld(cmd, c)
    case Submitting(cmd, Lost) => {}
    case Resuming(_, Looking) => {}
    case Resuming(_, Candidate(_, _)) => {}
    case Resuming(_, Holding(_, w)) => {WalletRow(w)}
    case Moving(caller, id, base, _, _, stage) =>
      {WalletRow(base.op.wallet)} + CallerHeld(caller, id) + StageHeld(id, base.op.wallet, stage)
    case OpeningWallet(o, Unseen(_)) => {NewId(o.tx), NewWallet(o.wallet)}
    case OpeningWallet(o, Inserted(_)) => {NewId(o.tx), NewWallet(o.wallet), PlayerCurrency(o.player, o.currency)}
    case OpeningWallet(o, Announced(_)) =>
      {NewId(o.tx), NewWallet(o.wallet), PlayerCurrency(o.player, o.currency), Counter(o.wallet)}
    case Answered(_, _) => {}
  }

  /** What the next statement of a transaction has to lock. */
  function Wants(db: DB, proc: Proc): set<Resource> {
    match proc
    case Submitting(cmd, InboxMissed) =>
      if cmd.message.Some? then {InboxRow(cmd.message.value)} else {}
    case Submitting(cmd, BothMissed(_)) => {WalletRow(cmd.op.wallet)}
    case Submitting(cmd, Stamped(_, _, _)) => {ExternalKey(cmd.op.provider, cmd.op.external)}
    case Submitting(cmd, Entered(_, _, _)) => {SubmissionKey(cmd.op.provider, cmd.op.key)}
    case Resuming(_, Candidate(_, w)) => {WalletRow(w)}
    case Resuming(_, Holding(id, _)) => {TransactionRow(id)}
    case Moving(_, _, base, _, now, Settled(_, out, d)) => RowsOf(Store.Wake(db, d, out.row, now).rows.Keys - d.rows.Keys)
    case Moving(_, _, base, _, _, Woke(_, _, _)) => {Counter(base.op.wallet)}
    case OpeningWallet(o, Unseen(_)) => {PlayerCurrency(o.player, o.currency)}
    case OpeningWallet(o, Inserted(_)) => {Counter(o.wallet)}
    case _ => {}
  }

  /** p waits for q: q holds something p's next statement needs. */
  predicate WaitsOn(s: State, p: Pid, q: Pid) {
    p in s.procs && q in s.procs && p != q && Wants(s.db, s.procs[p]) * Held(s.procs[q]) != {}
  }

  predicate Unblocked(s: State, p: Pid) {
    forall q :: q in s.procs && q != p ==> p in s.procs && Wants(s.db, s.procs[p]) * Held(s.procs[q]) == {}
  }

  // ----- The pieces of a step ------------------------------------------------

  function With(s: State, p: Pid, proc: Proc): State {
    s.(procs := s.procs[p := proc])
  }

  function Decided(s: State, cmd: Command, decision: Decision): State {
    s.(log := s.log + [LogEntry(cmd, decision)])
  }

  /** replayOf: what a row under the submission's own key means for it. */
  function Replay(s: State, p: Pid, cmd: Command, claimed: bool, id: TransactionId): State
    requires id in s.db.rows
  {
    if SamePayload(s.db.rows[id].op, cmd.op)
    then Decided(With(s, p, Submitting(cmd, Replaying(claimed, id, s.db.rows[id]))), cmd, Replayed(id))
    else Decided(With(s, p, Answered(cmd, Conflicted)), cmd, Refused)
  }

  ghost predicate FoundByKey(db: DB, op: Operation, found: Option<TransactionId>) {
    match found
    case None => forall r :: !KeyAt(db, r, op.provider, op.key)
    case Some(r) => KeyAt(db, r, op.provider, op.key)
  }

  ghost predicate FoundByExternal(db: DB, op: Operation, found: Option<TransactionId>) {
    match found
    case None => forall r :: !ExternalAt(db, r, op.provider, op.external)
    case Some(r) => ExternalAt(db, r, op.provider, op.external)
  }

  /** An insert of op would collide with a committed row. */
  ghost predicate Clashes(db: DB, op: Operation) {
    exists r :: KeyAt(db, r, op.provider, op.key) || ExternalAt(db, r, op.provider, op.external)
  }

  /** The schedule commitOutcome writes beside a parked operation. */
  function NextAttempt(cfg: Config, id: TransactionId, out: Outcome, now: Time): Option<Time>
    requires ValidConfig(cfg)
  {
    if out.row.status == PendingReference
    then Some(Backoff.Next(cfg.backoff, out.row.attempts, now, out.row.deadline, id))
    else None
  }

  function SettleOf(cfg: Config, db: DB, m: Proc, out: Outcome): Result<Delta, SettleError>
    requires ValidConfig(cfg) && m.Moving?
  {
    Store.Settle(db, m.id, m.base, out, NextAttempt(cfg, m.id, out, m.now))
  }

  function ContinueOf(cfg: Config, m: Proc, view: Option<View>): Result<Outcome, DomainError>
    requires m.Moving?
  {
    Domain.Continue(m.id, m.base, m.wallet, view, cfg.wait, m.now)
  }

  /** cannotCarryForward: fail past the deadline, otherwise push the next attempt
      out and count nothing. */
  function DeferredRow(cfg: Config, id: TransactionId, base: Row, now: Time): Row
    requires ValidConfig(cfg)
  {
    if base.deadline.Some? && now >= base.deadline.value
    then base.(status := Failed, updatedAt := now, nextAttempt := None)
    else base.(nextAttempt := Some(Backoff.Next(cfg.backoff, base.attempts, now, base.deadline, id)))
  }

  /** What a commit publishes: the movement's writes and the inbox row. */
  function WithInbox(db: DB, cmd: Command, claimed: bool): DB {
    if claimed && cmd.message.Some? then db.(inbox := db.inbox[cmd.message.value := cmd.op]) else db
  }

  function OpenedWallet(o: OpenCommand, now: Time): Wallet {
    Wallet(o.player, o.currency, o.amount, 1, now)
  }

  function OpeningRow(o: OpenCommand, now: Time): Row {
    Row(Operation(0, 0, 0, o.player, o.wallet, 0, 0, Opening, o.amount, o.currency, None),
        Processed, None, 0, None, None, now, Some(o.amount), None)
  }

  /** The open door: the wallet, and its opening and first entry when it was
      opened with money in it. */
  function Opened(db: DB, o: OpenCommand, now: Time): DB {
    var bare := db.(wallets := db.wallets[o.wallet := OpenedWallet(o, now)]);
    if o.amount == 0 then bare
    else bare.(
      rows := db.rows[o.tx := OpeningRow(o, now)],
      ledger := db.ledger[o.wallet := [Entry(o.tx, Credit, o.amount, 0, o.amount, 1, now)]],
      counters := db.counters[o.wallet := CounterOf(db, o.wallet) + 2])
  }

  // ----- Steps ---------------------------------------------------------------

  datatype Step =
    | Tick(now: Time)
    | Submit(p: Pid, cmd: Command)
    | FindInbox(p: Pid)
    | RecordInbox(p: Pid)
    | ReadKey(p: Pid, found: Option<TransactionId>)
    | ReadExternal(p: Pid, found: Option<TransactionId>)
    | LockWallet(p: Pid)
    | Stamp(p: Pid)
    | EnterExternal(p: Pid)
    | Record(p: Pid)
    | Resolve(p: Pid, byKey: Option<TransactionId>, byExternal: Option<TransactionId>)
    | ReadReference(p: Pid, view: Option<View>)
    | Settle(p: Pid)
    | Wake(p: Pid)
    | Append(p: Pid)
    | Defer(p: Pid)
    | Commit(p: Pid, reported: bool)
    | Fault(p: Pid)
    | Crash(p: Pid)
    | Delete(p: Pid)
    | Resume(p: Pid)
    | NextDue(p: Pid, id: TransactionId)
    | LockCandidate(p: Pid)
    | Claim(p: Pid)
    | Open(p: Pid, open: OpenCommand)
    | OpenInsert(p: Pid)
    | OpenAppend(p: Pid)

  ghost predicate Next(cfg: Config, s: State, step: Step, t: State)
    requires ValidConfig(cfg)
  {
    match step
    case Tick(now) => now >= s.clock && t == s.(clock := now)
    case Submit(p, cmd) => SubmitStep(s, p, cmd, t)
    case FindInbox(p) => FindInboxStep(s, p, t)
    case RecordInbox(p) => RecordInboxStep(s, p, t)
    case ReadKey(p, found) => ReadKeyStep(s, p, found, t)
    case ReadExternal(p, found) => ReadExternalStep(s, p, found, t)
    case LockWallet(p) => LockWalletStep(s, p, t)
    case Stamp(p) => StampStep(s, p, t)
    case EnterExternal(p) => EnterExternalStep(s, p, t)
    case Record(p) => RecordStep(s, p, t)
    case Resolve(p, byKey, byExternal) => ResolveStep(s, p, byKey, byExternal, t)
    case ReadReference(p, view) => ReadReferenceStep(s, p, view, t)
    case Settle(p) => SettleStep(cfg, s, p, t)
    case Wake(p) => WakeStep(s, p, t)
    case Append(p) => AppendStep(s, p, t)
    case Defer(p) => DeferStep(cfg, s, p, t)
    case Commit(p, reported) => CommitStep(s, p, reported, t)
    case Fault(p) => FaultStep(s, p, t)
    case Crash(p) => p in s.procs && t == s.(procs := s.procs - {p})
    case Delete(p) => DeleteStep(s, p, t)
    case Resume(p) => p !in s.procs && t == With(s, p, Resuming(s.clock, Looking))
    case NextDue(p, id) => NextDueStep(s, p, id, t)
    case LockCandidate(p) => LockCandidateStep(s, p, t)
    case Claim(p) => ClaimStep(s, p, t)
    case Open(p, o) => OpenStep(s, p, o, t)
    case OpenInsert(p) => OpenInsertStep(s, p, t)
    case OpenAppend(p) => OpenAppendStep(s, p, t)
  }

  /** Submit, once its command has been parsed, validated and hashed. */
  ghost predicate SubmitStep(s: State, p: Pid, cmd: Command, t: State) {
    && p !in s.procs && ValidCommand(cmd.op)
    && cmd.id !in s.db.rows && (forall q :: q in s.procs ==> NewId(cmd.id) !in Held(s.procs[q]))
    && cmd.attempt == |s.starts|
    && t == With(s, p, Submitting(cmd, Started)).(starts := s.starts + [|s.log|])
  }

  ghost predicate FindInboxStep(s: State, p: Pid, t: State) {
    && p in s.procs && s.procs[p].Submitting? && s.procs[p].point.Started?
    && var cmd := s.procs[p].cmd;
       t == With(s, p,
         if cmd.message.None? then Submitting(cmd, Ready(false))
         else if cmd.message.value !in s.db.inbox then Submitting(cmd, InboxMissed)
         else if s.db.inbox[cmd.message.value] == cmd.op then Submitting(cmd, Ready(false))
         else Answered(cmd, Unretryable))
  }

  ghost predicate RecordInboxStep(s: State, p: Pid, t: State) {
    && p in s.procs && s.procs[p].Submitting? && s.procs[p].point.InboxMissed?
    && s.procs[p].cmd.message.Some? && Unblocked(s, p)
    && var cmd := s.procs[p].cmd;
       t == With(s, p,
         if cmd.message.value in s.db.inbox then Answered(cmd, Retryable) else Submitting(cmd, Ready(true)))
  }

  ghost predicate ReadKeyStep(s: State, p: Pid, found: Option<TransactionId>, t: State) {
    && p in s.procs && s.procs[p].Submitting? && s.procs[p].point.Ready?
    && var cmd := s.procs[p].cmd;
       var claimed := s.procs[p].point.claimed;
       && FoundByKey(s.db, cmd.op, found)
       && t == if found.Some? then Replay(s, p, cmd, claimed, found.value)
               else With(s, p, Submitting(cmd, KeyMissed(claimed)))
  }

  ghost predicate ReadExternalStep(s: State, p: Pid, found: Option<TransactionId>, t: State) {
    && p in s.procs && s.procs[p].Submitting? && s.procs[p].point.KeyMissed?
    && var cmd := s.procs[p].cmd;
       var claimed := s.procs[p].point.claimed;
       && FoundByExternal(s.db, cmd.op, found)
       && t == if found.None? then With(s, p, Submitting(cmd, BothMissed(claimed)))
               else if s.db.rows[found.value].op.key == cmd.op.key then Replay(s, p, cmd, claimed, found.value)
               else Decided(With(s, p, Answered(cmd, Conflicted)), cmd, Refused)
  }

  ghost predicate LockWalletStep(s: State, p: Pid, t: State) {
    && p in s.procs && s.procs[p].Submitting? && s.procs[p].point.BothMissed?
    && Unblocked(s, p)
    && var cmd := s.procs[p].cmd;
       var w := cmd.op.wallet;
       t == With(s, p,
         if w !in s.db.wallets || s.db.wallets[w].player != cmd.op.player then Answered(cmd, NotFound)
         else Submitting(cmd, Locked(s.procs[p].point.claimed, s.db.wallets[w])))
  }

  /** The one instant of the submission, read under the wallet lock. */
  ghost predicate StampStep(s: State, p: Pid, t: State) {
    && p in s.procs && s.procs[p].Submitting? && s.procs[p].point.Locked?
    && var point := s.procs[p].point;
       t == With(s, p, Submitting(s.procs[p].cmd, Stamped(point.claimed, point.wallet, s.clock)))
  }

  /** The insert meets its unique keys one after the other, in the order their
      indexes were made: at each it blocks on an in-flight duplicate, loses to a
      committed one, and otherwise holds the key. */
  ghost predicate EnterExternalStep(s: State, p: Pid, t: State) {
    && p in s.procs && s.procs[p].Submitting? && s.procs[p].point.Stamped?
    && Unblocked(s, p)
    && var cmd := s.procs[p].cmd;
       var point := s.procs[p].point;
       t == With(s, p,
         if exists r :: ExternalAt(s.db, r, cmd.op.provider, cmd.op.external) then Submitting(cmd, Lost)
         else Submitting(cmd, Entered(point.claimed, point.wallet, point.now)))
  }

  ghost predicate RecordStep(s: State, p: Pid, t: State) {
    && p in s.procs && s.procs[p].Submitting? && s.procs[p].point.Entered?
    && Unblocked(s, p)
    && var cmd := s.procs[p].cmd;
       var point := s.procs[p].point;
       t == With(s, p,
         if exists r :: KeyAt(s.db, r, cmd.op.provider, cmd.op.key) then Submitting(cmd, Lost)
         else Moving(BySubmit(cmd, point.claimed), cmd.id, NewRow(cmd.op, point.now), point.wallet, point.now, Begun))
  }

  /** resolveDuplicate: both look-ups in one snapshot. */
  ghost predicate ResolveStep(
    s: State, p: Pid, byKey: Option<TransactionId>, byExternal: Option<TransactionId>, t: State)
  {
    && p in s.procs && s.procs[p].Submitting? && s.procs[p].point.Lost?
    && var cmd := s.procs[p].cmd;
       && FoundByKey(s.db, cmd.op, byKey) && FoundByExternal(s.db, cmd.op, byExternal)
       && var found := if byKey.Some? then byKey else byExternal;
          t == if found.None? then With(s, p, Answered(cmd, Unretryable))
               else if s.db.rows[found.value].op.key == cmd.op.key && SamePayload(s.db.rows[found.value].op, cmd.op) then
                 Decided(With(s, p, Answered(cmd, Accepted(found.value, s.db.rows[found.value], true))),
                         cmd, Replayed(found.value))
               else Decided(With(s, p, Answered(cmd, Conflicted)), cmd, Refused)
  }

  ghost predicate InStage(s: State, p: Pid) {
    p in s.procs && s.procs[p].Moving?
  }

  ghost predicate ReadReferenceStep(s: State, p: Pid, view: Option<View>, t: State) {
    && InStage(s, p) && s.procs[p].stage.Begun?
    && var op := s.procs[p].base.op;
       && (if op.reference.Some? then IsView(s.db, op.provider, op.reference.value, view) else view.None?)
       && t == With(s, p, s.procs[p].(stage := Viewed(view)))
  }

  /** The processor and the settle door. A refusal rolls the transaction back,
      which is the step Fault. */
  ghost predicate SettleStep(cfg: Config, s: State, p: Pid, t: State)
    requires ValidConfig(cfg)
  {
    && InStage(s, p) && s.procs[p].stage.Viewed?
    && var view := s.procs[p].stage.view;
       && ContinueOf(cfg, s.procs[p], view).Ok?
       && var out := ContinueOf(cfg, s.procs[p], view).value;
          && SettleOf(cfg, s.db, s.procs[p], out).Ok?
          && t == With(s, p, s.procs[p].(stage := Settled(view, out, SettleOf(cfg, s.db, s.procs[p], out).value)))
  }

  ghost predicate WakeStep(s: State, p: Pid, t: State) {
    && InStage(s, p) && s.procs[p].stage.Settled? && Unblocked(s, p)
    && var g := s.procs[p].stage;
       t == With(s, p, s.procs[p].(stage :=
         Woke(g.view, g.out, Store.Wake(s.db, g.delta, g.out.row, s.procs[p].now))))
  }

  ghost predicate AppendStep(s: State, p: Pid, t: State) {
    && InStage(s, p) && s.procs[p].stage.Woke? && Unblocked(s, p)
    && var g := s.procs[p].stage;
       t == With(s, p, s.procs[p].(stage :=
         Appended(g.view, g.out, Store.Append(s.db, g.delta, EventsOf(g.out)))))
  }

  /** cannotCarryForward, reached on the resume path when the operation cannot be
      rebuilt or the processor refuses it. */
  ghost predicate DeferStep(cfg: Config, s: State, p: Pid, t: State)
    requires ValidConfig(cfg)
  {
    && InStage(s, p) && s.procs[p].caller.ByResume? && (s.procs[p].stage.Begun? || s.procs[p].stage.Viewed?)
    && DeferredRow(cfg, s.procs[p].id, s.procs[p].base, s.procs[p].now).updatedAt >= s.procs[p].base.updatedAt
    && t == With(s, p, s.procs[p].(stage := Deferring(DeferredRow(cfg, s.procs[p].id, s.procs[p].base, s.procs[p].now))))
  }

  /** The commit. Reported false is the ambiguous exit: it landed, and the caller
      is told it failed. */
  ghost predicate CommitStep(s: State, p: Pid, reported: bool, t: State) {
    && p in s.procs
    && match s.procs[p]
       case Submitting(cmd, Replaying(claimed, id, row)) =>
         t == With(s.(db := WithInbox(s.db, cmd, claimed)), p,
                Answered(cmd, if reported then Accepted(id, row, true) else Retryable))
       case Moving(BySubmit(cmd, claimed), id, _, _, _, Appended(_, out, d)) =>
         && id in d.rows
         && t == Decided(With(s.(db := WithInbox(Merge(s.db, d), cmd, claimed)), p,
                   Answered(cmd, if reported then Accepted(id, d.rows[id], false) else Retryable)), cmd, Recorded(id))
       case Moving(ByResume, _, _, _, _, Appended(_, _, d)) =>
         t == s.(db := Merge(s.db, d), procs := s.procs - {p})
       case Moving(ByResume, id, base, _, _, Deferring(row)) =>
         t == s.(db := s.db.(rows := s.db.rows[id := row]), procs := s.procs - {p},
                 defective := s.defective + {base.op.wallet})
       case OpeningWallet(o, Announced(now)) =>
         t == s.(db := Opened(s.db, o, now), procs := s.procs - {p})
       case _ => false
  }

  /** A statement failed, or was refused: the transaction rolls back. */
  ghost predicate FaultStep(s: State, p: Pid, t: State) {
    && p in s.procs
    && match s.procs[p]
       case Submitting(cmd, _) => t == With(s, p, Answered(cmd, Retryable))
       case Moving(BySubmit(cmd, _), _, _, _, _, _) => t == With(s, p, Answered(cmd, Retryable))
       case Answered(_, _) => false
       case _ => t == s.(procs := s.procs - {p})
  }

  /** The consumer's acknowledgement: only after Submit answered without error. */
  ghost predicate DeleteStep(s: State, p: Pid, t: State) {
    && p in s.procs && s.procs[p].Answered? && s.procs[p].answer.Accepted?
    && s.procs[p].cmd.message.Some?
    && t == s.(procs := s.procs - {p},
               deleted := s.deleted + {(s.procs[p].cmd.message.value, s.procs[p].cmd.op)})
  }

  predicate DueAt(r: Row, now: Time) {
    r.status == PendingReference && r.nextAttempt.Some? && r.nextAttempt.value <= now
  }

  ghost predicate NextDueStep(s: State, p: Pid, id: TransactionId, t: State) {
    && p in s.procs && s.procs[p].Resuming? && s.procs[p].at.Looking?
    && id in s.db.rows && DueAt(s.db.rows[id], s.procs[p].now)
    && t == With(s, p, s.procs[p].(at := Candidate(id, s.db.rows[id].op.wallet)))
  }

  ghost predicate LockCandidateStep(s: State, p: Pid, t: State) {
    && p in s.procs && s.procs[p].Resuming? && s.procs[p].at.Candidate?
    && Unblocked(s, p) && s.procs[p].at.wallet in s.db.wallets
    && t == With(s, p, s.procs[p].(at := Holding(s.procs[p].at.id, s.procs[p].at.wallet)))
  }

  /** ClaimForUpdate: still parked and still due, or there is nothing to do. */
  ghost predicate ClaimStep(s: State, p: Pid, t: State) {
    && p in s.procs && s.procs[p].Resuming? && s.procs[p].at.Holding? && Unblocked(s, p)
    && var at := s.procs[p].at;
       var now := s.procs[p].now;
       && at.wallet in s.db.wallets
       && t == if at.id in s.db.rows && s.db.rows[at.id].op.wallet == at.wallet && DueAt(s.db.rows[at.id], now)
               then With(s, p, Moving(ByResume, at.id, s.db.rows[at.id], s.db.wallets[at.wallet], now, Begun))
               else s.(procs := s.procs - {p})
  }

  /** Wallets.Open after its unlocked look-up found no wallet. */
  ghost predicate OpenStep(s: State, p: Pid, o: OpenCommand, t: State) {
    && p !in s.procs && 0 <= o.amount <= MAX_MINOR
    && (forall w :: w in s.db.wallets ==> s.db.wallets[w].player != o.player || s.db.wallets[w].currency != o.currency)
    && o.tx !in s.db.rows && o.wallet !in s.db.wallets
    && (forall q :: q in s.procs ==> NewId(o.tx) !in Held(s.procs[q]) && NewWallet(o.wallet) !in Held(s.procs[q]))
    && t == With(s, p, OpeningWallet(o, Unseen(s.clock)))
  }

  /** wallet_player_currency_key decides the race; losing it ends the opening. */
  ghost predicate OpenInsertStep(s: State, p: Pid, t: State) {
    && p in s.procs && s.procs[p].OpeningWallet? && s.procs[p].step.Unseen? && Unblocked(s, p)
    && var o := s.procs[p].open;
       t == if exists w :: w in s.db.wallets && s.db.wallets[w].player == o.player && s.db.wallets[w].currency == o.currency
            then s.(procs := s.procs - {p})
            else With(s, p, OpeningWallet(o, Inserted(s.procs[p].step.now)))
  }

  ghost predicate OpenAppendStep(s: State, p: Pid, t: State) {
    && p in s.procs && s.procs[p].OpeningWallet? && s.procs[p].step.Inserted? && Unblocked(s, p)
    && t == With(s, p, OpeningWallet(s.procs[p].open, Announced(s.procs[p].step.now)))
  }
}
