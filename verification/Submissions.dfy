/** What the invariant means for a provider: submissions are atomic, replays and
    refusals are final, and a redelivered message is never applied again. */
module Submissions {
  import opened Prelude
  import opened Domain
  import opened Store
  import opened Movement
  import opened MovementInvariant
  import opened MovementRuns
  import opened Netting
  import MovementSteps

  // ----- The atomic history --------------------------------------------------

  ghost predicate BookUnique(b: Book) {
    && (forall x, y, op :: HasKey(b, x, op) && HasKey(b, y, op) ==> x == y)
    && (forall x, y, op :: HasExternal(b, x, op) && HasExternal(b, y, op) ==> x == y)
  }

  lemma AtomicKeepsUnique(b: Book, cmd: Command, decision: Decision, after: Book)
    requires BookUnique(b) && Atomic(b, cmd, decision, after)
    ensures BookUnique(after)
    ensures forall x :: x in b ==> x in after && after[x] == b[x]
  {
    if !(exists r :: HasKey(b, r, cmd.op)) && !(exists r :: HasExternal(b, r, cmd.op)) {
      forall x, y, op | HasKey(after, x, op) && HasKey(after, y, op)
        ensures x == y
      {
        assert x != cmd.id ==> HasKey(b, x, op);
        assert y != cmd.id ==> HasKey(b, y, op);
        assert x == cmd.id && y != cmd.id ==> HasKey(b, y, cmd.op);
        assert y == cmd.id && x != cmd.id ==> HasKey(b, x, cmd.op);
      }
      forall x, y, op | HasExternal(after, x, op) && HasExternal(after, y, op)
        ensures x == y
      {
        assert x != cmd.id ==> HasExternal(b, x, op);
        assert y != cmd.id ==> HasExternal(b, y, op);
        assert x == cmd.id && y != cmd.id ==> HasExternal(b, y, cmd.op);
        assert y == cmd.id && x != cmd.id ==> HasExternal(b, x, cmd.op);
      }
    }
  }

  /** Along a history the book only grows, and never binds a key twice. */
  lemma {:induction false} BooksGrow(log: seq<LogEntry>, b: Book, i: nat, j: nat)
    requires History(log, b) && i <= j <= |log|
    ensures BookUnique(BookAfter(log[..j]))
    ensures forall x :: x in BookAfter(log[..i]) ==> x in BookAfter(log[..j]) && BookAfter(log[..j])[x] == BookAfter(log[..i])[x]
  {
    hide Atomic, BookUnique;
    if j == 0 {
      assert BookUnique(BookAfter(log[..0])) by { EmptyIsUnique(); assert log[..0] == []; }
    } else {
      BooksGrow(log, b, if i < j then i else j - 1, j - 1);
      var e := log[j - 1];
      assert log[..j - 1 + 1] == log[..j];
      AtomicKeepsUnique(BookAfter(log[..j - 1]), e.cmd, e.decision, BookAfter(log[..j]));
    }
  }

  lemma EmptyIsUnique()
    ensures BookUnique(map[])
  {
  }

  /** The row an accepting decision names is in the book from then on. */
  lemma AcceptedIsBooked(b: Book, cmd: Command, decision: Decision, after: Book)
    requires Atomic(b, cmd, decision, after) && !decision.Refused?
    ensures HasKey(after, decision.id, cmd.op) && after[decision.id] == cmd.op
  {
  }

  lemma BookedIsReplayed(b: Book, cmd: Command, decision: Decision, after: Book, id: TransactionId)
    requires BookUnique(b) && Atomic(b, cmd, decision, after)
    requires HasKey(b, id, cmd.op) && b[id] == cmd.op
    ensures decision == Replayed(id)
  {
  }

  /** Once a submission has been accepted, the same submission is answered with
      the same transaction every time, and never recorded again. */
  lemma AcceptanceIsFinal(log: seq<LogEntry>, b: Book, i: nat, j: nat)
    requires History(log, b) && i < j < |log|
    requires !log[i].decision.Refused? && log[j].cmd.op == log[i].cmd.op
    ensures log[j].decision == Replayed(log[i].decision.id)
  {
    hide Atomic, BookUnique, BookAfter;
    var e, f := log[i], log[j];
    AcceptedIsBooked(BookAfter(log[..i]), e.cmd, e.decision, BookAfter(log[..i + 1]));
    BooksGrow(log, b, i + 1, j);
    BookedIsReplayed(BookAfter(log[..j]), f.cmd, f.decision, BookAfter(log[..j + 1]), e.decision.id);
  }

  /** What makes a submission refused: its key under another payload, or its
      external id under another key. */
  ghost predicate Barred(b: Book, op: Operation) {
    || (exists r :: HasKey(b, r, op) && b[r] != op)
    || (exists r :: HasExternal(b, r, op) && b[r].key != op.key)
  }

  lemma RefusedIsBarred(b: Book, cmd: Command, decision: Decision, after: Book)
    requires BookUnique(b) && Atomic(b, cmd, decision, after)
    ensures decision.Refused? <==> Barred(b, cmd.op)
    ensures decision.Refused? ==> after == b
  {
    if exists r :: HasKey(b, r, cmd.op) {
      var r :| HasKey(b, r, cmd.op);
      forall x | HasExternal(b, x, cmd.op) && b[x].key != cmd.op.key
        ensures b[r] != cmd.op
      {
        assert b[r] == cmd.op ==> HasExternal(b, r, cmd.op);
      }
    } else if exists r :: HasExternal(b, r, cmd.op) {
      var r :| HasExternal(b, r, cmd.op);
      assert b[r].key == cmd.op.key ==> HasKey(b, r, cmd.op);
    }
  }

  lemma BarredStays(b: Book, after: Book, op: Operation)
    requires Barred(b, op) && forall x :: x in b ==> x in after && after[x] == b[x]
    ensures Barred(after, op)
  {
    if r :| HasKey(b, r, op) && b[r] != op {
      assert HasKey(after, r, op) && after[r] != op;
    } else {
      var r :| HasExternal(b, r, op) && b[r].key != op.key;
      assert HasExternal(after, r, op) && after[r].key != op.key;
    }
  }

  /** What a conflict promises: the same submission sent again unchanged is
      refused again. */
  lemma RefusalIsFinal(log: seq<LogEntry>, b: Book, i: nat, j: nat)
    requires History(log, b) && i < j < |log|
    requires log[i].decision.Refused? && log[j].cmd.op == log[i].cmd.op
    ensures log[j].decision.Refused?
  {
    hide Atomic, BookUnique, BookAfter, Barred;
    var e, f := log[i], log[j];
    BooksGrow(log, b, 0, i);
    RefusedIsBarred(BookAfter(log[..i]), e.cmd, e.decision, BookAfter(log[..i + 1]));
    BooksGrow(log, b, i, j);
    BarredStays(BookAfter(log[..i]), BookAfter(log[..j]), e.cmd.op);
    RefusedIsBarred(BookAfter(log[..j]), f.cmd, f.decision, BookAfter(log[..j + 1]));
  }

  // ----- In every reachable state --------------------------------------------

  /** A row of exactly this operation, key and all, is committed. */
  ghost predicate Holds(db: DB, op: Operation) {
    exists r :: r in db.rows && db.rows[r].op == op
  }

  /** r is a provider's row under the same key for something else, or under the
      same external id with another key. */
  predicate Bars(db: DB, r: TransactionId, op: Operation) {
    && r in db.rows && db.rows[r].op.kind != Opening && db.rows[r].op.provider == op.provider
    && ((db.rows[r].op.key == op.key && db.rows[r].op != op)
        || (db.rows[r].op.external == op.external && db.rows[r].op.key != op.key))
  }

  /** A provider's key, or external id, names r. */
  predicate Under(db: DB, r: TransactionId, op: Operation) {
    && r in db.rows && db.rows[r].op.kind != Opening && db.rows[r].op.provider == op.provider
    && (db.rows[r].op.key == op.key || db.rows[r].op.external == op.external)
  }

  lemma BackedHolds(db: DB, op: Operation)
    requires op.kind != Opening
    ensures Backed(db, op) <==> Holds(db, op)
  {
    if r :| r in db.rows && db.rows[r].op == op {
      assert KeyAt(db, r, op.provider, op.key);
    }
  }

  /** The log of a reachable state is an atomic history of exactly the rows
      committed, every answer given is one it decided, and an answer without an
      error names the one row under the submission's key. */
  lemma SubmissionsAreAtomic(cfg: Config, s: State, p: Pid)
    requires ValidConfig(cfg) && Reachable(cfg, s)
    ensures History(s.log, BookOf(s.db))
    ensures p in s.procs ==> AnswerLogged(s.log, s.procs[p])
    ensures p in s.procs && s.procs[p].Answered? && s.procs[p].answer.Accepted? ==>
              var cmd, answer := s.procs[p].cmd, s.procs[p].answer;
              && answer.id in s.db.rows && s.db.rows[answer.id].op == cmd.op && answer.row.op == cmd.op
              && forall r :: r in s.db.rows && s.db.rows[r].op.kind != Opening ==>
                   s.db.rows[r].op.provider == cmd.op.provider && s.db.rows[r].op.key == cmd.op.key ==> r == answer.id
  {
    hide Reachable, AwakeOn, Atomic, Exclusive, Nets, Ledgers, ReversalRules, RowShapes, WalletsSound, InboxBacked, BookOf, History;
    ReachableIsSafe(cfg, s);
    if p in s.procs {
      assert ProcOk(cfg, s.db, s.clock, s.procs[p]);
      if s.procs[p].Answered? {
        var op := s.procs[p].cmd.op;
        assert forall r :: r in s.db.rows && s.db.rows[r].op.kind != Opening ==>
                 s.db.rows[r].op.provider == op.provider && s.db.rows[r].op.key == op.key ==> KeyAt(s.db, r, op.provider, op.key);
      }
    }
  }

  /** A process still at work on a submission. */
  predicate AtWorkOn(proc: Proc, cmd: Command) {
    match proc
    case Submitting(c, _) => c == cmd
    case Moving(BySubmit(c, _), _, _, _, _, _) => c == cmd
    case _ => false
  }

  lemma LogIsKept(cfg: Config, s: State, step: Step, t: State)
    requires ValidConfig(cfg) && Next(cfg, s, step, t)
    ensures !step.ReadKey? && !step.ReadExternal? && !step.Resolve? && !step.Commit? ==> t.log == s.log
  {
    hide ContinueOf, SettleOf, Store.Wake, Held, Unblocked, ValidCommand, IsView, DeferredRow, Clashes, DueAt,
      ReadKeyStep, ReadExternalStep, ResolveStep, CommitStep;
  }

  /** A decision takes effect at one step of the submission it decides, between
      its first statement and its answer. */
  lemma DecisionsAreTakenInFlight(cfg: Config, s: State, step: Step, t: State)
    requires ValidConfig(cfg) && Next(cfg, s, step, t)
    ensures t.log == s.log
            || exists p: Pid, e: LogEntry :: p in s.procs && AtWorkOn(s.procs[p], e.cmd) && t.log == s.log + [e]
  {
    hide ContinueOf, SettleOf, Store.Wake, Merge, Held, Unblocked, Opened, ValidCommand, IsView, DeferredRow, Clashes,
      FoundByKey, FoundByExternal, WithInbox, DueAt, NextDueStep, LockCandidateStep, ClaimStep, OpenStep, OpenInsertStep,
      OpenAppendStep, SubmitStep, WakeStep, AppendStep, DeferStep, DeleteStep;
    LogIsKept(cfg, s, step, t);
    if t.log != s.log {
      var p := step.p;
      var e := t.log[|s.log|];
      assert p in s.procs && AtWorkOn(s.procs[p], e.cmd) && t.log == s.log + [e];
    }
  }

  /** One row, and at most one ledger entry, under each key and external id. */
  lemma OneRowOneEntry(cfg: Config, s: State, a: TransactionId, b: TransactionId)
    requires ValidConfig(cfg) && Reachable(cfg, s)
    requires a in s.db.rows && b in s.db.rows && s.db.rows[a].op.kind != Opening && s.db.rows[b].op.kind != Opening
    requires s.db.rows[a].op.provider == s.db.rows[b].op.provider
    requires s.db.rows[a].op.key == s.db.rows[b].op.key || s.db.rows[a].op.external == s.db.rows[b].op.external
    ensures a == b
    ensures forall w, i, v, j ::
              (0 <= i < |LedgerOf(s.db, w)| && 0 <= j < |LedgerOf(s.db, v)|
               && LedgerOf(s.db, w)[i].tx == a && LedgerOf(s.db, v)[j].tx == a) ==> w == v && i == j
  {
    hide Reachable, AwakeOn, Atomic, Exclusive, Nets, ReversalRules, RowShapes, WalletsSound, InboxBacked, BookOf, History, ProcOk, AnswerLogged, Backed, Chain, WalletMatches;
    ReachableIsSafe(cfg, s);
    var op := s.db.rows[a].op;
    assert KeyAt(s.db, a, op.provider, op.key) && ExternalAt(s.db, a, op.provider, op.external);
    assert KeyAt(s.db, b, op.provider, op.key) || ExternalAt(s.db, b, op.provider, op.external);
    forall w, i, v, j | 0 <= i < |LedgerOf(s.db, w)| && 0 <= j < |LedgerOf(s.db, v)|
                        && LedgerOf(s.db, w)[i].tx == a && LedgerOf(s.db, v)[j].tx == a
      ensures w == v && i == j
    {
      assert LedgerFor(s.db, w) && LedgerFor(s.db, v);
      assert OnWallet(s.db, LedgerOf(s.db, w)[i].tx, w) && OnWallet(s.db, LedgerOf(s.db, v)[j].tx, v);
    }
  }

  /** The insert loses exactly when a committed row of the provider has the key it
      is entering: its external id first, then its idempotency key. */
  lemma TheInsertLosesExactly(s: State, t: State, p: Pid)
    requires EnterExternalStep(s, p, t) || RecordStep(s, p, t)
    ensures var op := s.procs[p].cmd.op;
            (t.procs[p].Submitting? && t.procs[p].point.Lost?) <==>
              exists r :: && r in s.db.rows && s.db.rows[r].op.kind != Opening && s.db.rows[r].op.provider == op.provider
                          && (if EnterExternalStep(s, p, t) then s.db.rows[r].op.external == op.external
                              else s.db.rows[r].op.key == op.key)
  {
    hide Unblocked;
    var op := s.procs[p].cmd.op;
    assert forall r :: ExternalAt(s.db, r, op.provider, op.external) ==> r in s.db.rows;
    assert forall r :: KeyAt(s.db, r, op.provider, op.key) ==> r in s.db.rows;
    forall r | r in s.db.rows && s.db.rows[r].op.kind != Opening && s.db.rows[r].op.provider == op.provider
      ensures ExternalAt(s.db, r, op.provider, op.external) <==> s.db.rows[r].op.external == op.external
      ensures KeyAt(s.db, r, op.provider, op.key) <==> s.db.rows[r].op.key == op.key
    {
    }
  }

  /** A submission that lost the insert race finds the winner: the re-read that
      matched nothing is unreachable. It accepts exactly when the winner is its own
      operation, and otherwise some row bars it. */
  lemma TheLoserFindsTheWinner(
    cfg: Config, s: State, t: State, p: Pid, byKey: Option<TransactionId>, byExternal: Option<TransactionId>)
    requires ValidConfig(cfg) && Reachable(cfg, s) && ResolveStep(s, p, byKey, byExternal, t)
    ensures byKey.Some? || byExternal.Some?
    ensures t.procs[p].answer.Accepted? || t.procs[p].answer.Conflicted?
    ensures t.procs[p].answer.Accepted? <==> Holds(s.db, s.procs[p].cmd.op)
    ensures t.procs[p].answer.Accepted? ==>
              t.procs[p].answer.id in s.db.rows && s.db.rows[t.procs[p].answer.id].op == s.procs[p].cmd.op
    ensures t.procs[p].answer.Conflicted? ==> exists r :: Bars(s.db, r, s.procs[p].cmd.op)
  {
    hide Reachable, Tables, AwakeOn, Atomic, Exclusive, BookOf, History, AnswerLogged;
    ReachableIsSafe(cfg, s);
    assert ProcOk(cfg, s.db, s.clock, s.procs[p]) && Clashes(s.db, s.procs[p].cmd.op);
    MovementSteps.TablesKeys(s.db, s.clock);
    OwnKeyIsBacked(s.db, s.procs[p].cmd.op);
    BackedHolds(s.db, s.procs[p].cmd.op);
    var r := if byKey.Some? then byKey.value else byExternal.value;
    assert t.procs[p].answer.Conflicted? ==> Bars(s.db, r, s.procs[p].cmd.op);
  }

  lemma OwnKeyIsBacked(db: DB, op: Operation)
    requires KeysUnique(db)
    ensures forall r :: KeyAt(db, r, op.provider, op.key) ==> (Backed(db, op) <==> db.rows[r].op == op)
    ensures (forall r :: !KeyAt(db, r, op.provider, op.key)) ==> !Backed(db, op)
  {
  }

  /** Between its two look-ups a submission never mistakes its own row for
      another's: whichever look-up found a row, it answers a conflict exactly when
      no row of this very operation is committed, and then some row bars it;
      otherwise it replays the row that is. */
  lemma ConflictIsNeverItsOwnRow(cfg: Config, s: State, t: State, p: Pid, found: Option<TransactionId>)
    requires ValidConfig(cfg) && Reachable(cfg, s) && found.Some?
    requires ReadKeyStep(s, p, found, t) || ReadExternalStep(s, p, found, t)
    ensures t.procs[p].Answered? <==> !Holds(s.db, s.procs[p].cmd.op)
    ensures t.procs[p].Answered? <==> t.procs[p] == Answered(s.procs[p].cmd, Conflicted)
    ensures t.procs[p].Answered? ==> exists r :: Bars(s.db, r, s.procs[p].cmd.op)
    ensures !t.procs[p].Answered? ==>
              t.procs[p].point.Replaying? && t.procs[p].point.id in s.db.rows
              && s.db.rows[t.procs[p].point.id].op == s.procs[p].cmd.op
  {
    hide Reachable, AwakeOn, Atomic, Exclusive, BookOf, History, AnswerLogged, ReversalRules, Ledgers, Nets, RowShapes, WalletsSound, InboxBacked, KeysUnique;
    ReachableIsSafe(cfg, s);
    assert ProcOk(cfg, s.db, s.clock, s.procs[p]);
    var op := s.procs[p].cmd.op;
    BackedHolds(s.db, op);
    assert t.procs[p].Answered? ==> Bars(s.db, found.value, op);
    OwnKeyIsBacked(s.db, op);
    OtherKeyBars(s.db, op, found.value);
  }

  lemma OtherKeyBars(db: DB, op: Operation, r: TransactionId)
    requires KeysUnique(db)
    ensures ExternalAt(db, r, op.provider, op.external) && db.rows[r].op.key != op.key ==> !Backed(db, op)
  {
    if Backed(db, op) && ExternalAt(db, r, op.provider, op.external) {
      var b: TransactionId :| KeyAt(db, b, op.provider, op.key) && db.rows[b].op == op;
      assert ExternalAt(db, b, op.provider, op.external);
    }
  }

  // ----- Messages ------------------------------------------------------------

  /** A message is deleted, and an inbox row committed, only behind a committed
      operation that is its body, field for field. */
  lemma DeletedAndHandledAreBacked(cfg: Config, s: State, m: MessageId, op: Operation)
    requires ValidConfig(cfg) && Reachable(cfg, s)
    requires (m, op) in s.deleted || (m in s.db.inbox && s.db.inbox[m] == op)
    ensures Holds(s.db, op)
  {
    hide Reachable, AwakeOn, Exclusive, BookOf, History, AnswerLogged, ProcOk, ReversalRules, Ledgers, Nets, RowShapes, WalletsSound, KeysUnique;
    ReachableIsSafe(cfg, s);
    assert (m, op) in s.deleted ==> Backed(s.db, (m, op).1);
    var r: TransactionId :| KeyAt(s.db, r, op.provider, op.key) && s.db.rows[r].op == op;
  }

  /** A submission that commits leaves its message in the inbox with its body,
      whether this transaction claimed it or found it there. */
  lemma CommittedMessagesAreRecorded(cfg: Config, s: State, t: State, p: Pid, reported: bool)
    requires ValidConfig(cfg) && Reachable(cfg, s) && CommitStep(s, p, reported, t)
    requires p in t.procs && t.procs[p].Answered? && t.procs[p].cmd.message.Some?
    ensures var cmd := t.procs[p].cmd;
            cmd.message.value in t.db.inbox && t.db.inbox[cmd.message.value] == cmd.op
  {
    hide Reachable, Tables, AwakeOn, Exclusive, BookOf, History, AnswerLogged, StageOk, Clashes, AnswersFrom;
    ReachableIsSafe(cfg, s);
    assert ProcOk(cfg, s.db, s.clock, s.procs[p]);
  }

  /** Once an operation is committed, a submission of it that looks up its key
      finds it and replays, and none can be on its way to applying it. */
  lemma RedeliveryReplays(cfg: Config, s: State, t: State, p: Pid, found: Option<TransactionId>)
    requires ValidConfig(cfg) && Reachable(cfg, s) && ReadKeyStep(s, p, found, t)
    requires Holds(s.db, s.procs[p].cmd.op)
    ensures t.procs[p].Submitting? && t.procs[p].point.Replaying? && t.procs[p].point.id in s.db.rows
    ensures s.db.rows[t.procs[p].point.id].op == s.procs[p].cmd.op && t.db == s.db
  {
    hide Reachable, Tables, AwakeOn, Exclusive, BookOf, History, AnswerLogged;
    ReachableIsSafe(cfg, s);
    assert ProcOk(cfg, s.db, s.clock, s.procs[p]);
    var op := s.procs[p].cmd.op;
    var r: TransactionId :| r in s.db.rows && s.db.rows[r].op == op;
    assert KeyAt(s.db, r, op.provider, op.key);
    ConflictIsNeverItsOwnRow(cfg, s, t, p, found);
  }

  lemma NothingIsAppliedTwice(cfg: Config, s: State, p: Pid)
    requires ValidConfig(cfg) && Reachable(cfg, s) && p in s.procs
    requires s.procs[p].Moving? && s.procs[p].caller.BySubmit?
    ensures forall r :: !Under(s.db, r, s.procs[p].base.op)
  {
    hide Reachable, Tables, AwakeOn, Exclusive, BookOf, History, AnswerLogged, StageOk;
    ReachableIsSafe(cfg, s);
    assert ProcOk(cfg, s.db, s.clock, s.procs[p]);
    var op := s.procs[p].base.op;
    forall r | r in s.db.rows
      ensures !Under(s.db, r, op)
    {
      assert !KeyAt(s.db, r, op.provider, op.key) && !ExternalAt(s.db, r, op.provider, op.external);
    }
  }
}
