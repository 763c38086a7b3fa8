/** Every commit keeps the invariant. */
module MovementCommit {
  import opened Prelude
  import opened Domain
  import opened Store
  import opened Reversals
  import opened Netting
  import opened Movement
  import opened MovementInvariant
  import opened MovementSteps
  import opened MovementFrame
  import opened MovementDelta
  import Backoff

  // ----- The tables after a movement -----------------------------------------

  /** Committed operations keep their identity; a new one clashes with none. */
  ghost predicate AddsOneRow(db: DB, after: DB, id: TransactionId) {
    && (forall x :: x in db.rows ==> x in after.rows && after.rows[x].op == db.rows[x].op)
    && (forall x :: x in after.rows && x !in db.rows ==> x == id)
    && (id in after.rows && id !in db.rows && External(after.rows[id]) ==> !Clashes(db, after.rows[id].op))
  }

  lemma KeysStayUnique(db: DB, after: DB, id: TransactionId)
    requires KeysUnique(db) && AddsOneRow(db, after, id)
    ensures KeysUnique(after)
  {
    forall a, b, p, k | KeyAt(after, a, p, k) && KeyAt(after, b, p, k)
      ensures a == b
    {
      KeyWasThere(db, after, id, a, p, k);
      KeyWasThere(db, after, id, b, p, k);
    }
    forall a, b, p, e | ExternalAt(after, a, p, e) && ExternalAt(after, b, p, e)
      ensures a == b
    {
      ExternalWasThere(db, after, id, a, p, e);
      ExternalWasThere(db, after, id, b, p, e);
    }
  }

  lemma KeyWasThere(db: DB, after: DB, id: TransactionId, a: TransactionId, p: Provider, k: IdempotencyKey)
    requires AddsOneRow(db, after, id) && KeyAt(after, a, p, k)
    ensures KeyAt(db, a, p, k) || (a == id && forall r :: !KeyAt(db, r, p, k))
  {
  }

  lemma ExternalWasThere(db: DB, after: DB, id: TransactionId, a: TransactionId, p: Provider, e: ExternalId)
    requires AddsOneRow(db, after, id) && ExternalAt(after, a, p, e)
    ensures ExternalAt(db, a, p, e) || (a == id && forall r :: !ExternalAt(db, r, p, e))
  {
  }

  lemma PublishAddsOneRow(cfg: Config, db: DB, clock: Time, m: Proc)
    requires ValidConfig(cfg) && CommitReady(cfg, db, clock, m)
    ensures AddsOneRow(db, Merge(db, m.stage.delta), m.id)
  {
    hide Clashes, StageOk, NextAttempt, StagesMoney, StagesHold;
    ReadyStages(cfg, db, clock, m);
  }

  /** The base a movement starts from says nothing that is yet to be decided. */
  ghost predicate Undecided(r: Row) {
    r.result.None? && r.code.None? && r.resolved.None?
  }

  lemma OwnRowShape(cfg: Config, clock: Time, m: Proc, view: Option<View>, out: Outcome)
    requires ValidConfig(cfg) && m.Moving? && ValidCommand(m.base.op) && Undecided(m.base) && m.now <= clock
    requires ContinueOf(cfg, m, view) == Ok(out)
    ensures RowShape(SettledRow(out, NextAttempt(cfg, m.id, out, m.now)), clock)
  {
    hide HasActiveReversal, HasSuccessfulReversalOfKind, Backoff.Next;
    ContinueFacts(m.id, m.base, m.wallet, view, cfg.wait, m.now);
    if out.row.status == PendingReference {
      Backoff.NextIsClamped(cfg.backoff, out.row.attempts, m.now, out.row.deadline, m.id);
    }
  }

  lemma BaseUndecided(cfg: Config, db: DB, clock: Time, m: Proc)
    requires ValidConfig(cfg) && m.Moving? && MovingOk(cfg, db, clock, m) && RowShapes(db, clock)
    ensures Undecided(m.base) && Carries(db, m)
  {
    hide StageOk, Clashes;
    if m.caller.ByResume? {
      assert RowShape(db.rows[m.id], clock);
    }
  }

  lemma PublishKeepsShapes(cfg: Config, db: DB, clock: Time, m: Proc)
    requires ValidConfig(cfg) && CommitReady(cfg, db, clock, m) && RowShapes(db, clock)
    ensures RowShapes(Merge(db, m.stage.delta), clock)
  {
    hide NextAttempt, StagesMoney, StagesHold, Clashes, ContinueOf, SettleOf, ViewSound, CallerOk, Store.Wake;
    ReadyStages(cfg, db, clock, m);
    BaseUndecided(cfg, db, clock, m);
    OwnRowShape(cfg, clock, m, m.stage.view, m.stage.out);
    var d := m.stage.delta;
    forall x | x in d.rows && x != m.id
      ensures RowShape(d.rows[x], clock)
    {
      assert RowShape(db.rows[x], clock);
    }
  }

  lemma PublishKeepsWallets(cfg: Config, db: DB, clock: Time, m: Proc, out: Outcome, d: Delta)
    requires ValidConfig(cfg) && m.Moving? && m.now <= clock && StagesMoney(db, m, out, d) && OutcomeFits(db, m, out)
    requires WalletsSound(db, clock)
    ensures WalletsSound(Merge(db, d), clock)
  {
    hide ChainAccepts, ResolvesTo;
    var after := Merge(db, d);
    forall w | w in after.wallets
      ensures w in db.wallets && after.wallets[w].updatedAt <= clock
      ensures after.wallets[w].player == db.wallets[w].player && after.wallets[w].currency == db.wallets[w].currency
    {
    }
  }

  // ----- Wake-ups ------------------------------------------------------------

  /** An operation parks only when nothing it names has been processed on its
      wallet. */
  lemma ParksUnprocessed(cfg: Config, db: DB, m: Proc, view: Option<View>, out: Outcome)
    requires m.Moving? && ValidCommand(m.base.op) && ViewSound(db, m.base.op, view) && KeysUnique(db)
    requires ContinueOf(cfg, m, view) == Ok(out) && out.row.status == PendingReference
    ensures m.base.op.reference.Some?
    ensures forall t :: ExternalAt(db, t, m.base.op.provider, m.base.op.reference.value) ==>
              db.rows[t].op.wallet == m.base.op.wallet ==> db.rows[t].status != Processed
  {
    hide ReversalsOf, HasActiveReversal, HasSuccessfulReversalOfKind;
    ContinueFacts(m.id, m.base, m.wallet, view, cfg.wait, m.now);
  }

  /** No committed row but a movement's own answers to its external id. */
  lemma OwnExternal(cfg: Config, db: DB, clock: Time, m: Proc, t: TransactionId)
    requires ValidConfig(cfg) && m.Moving? && MovingOk(cfg, db, clock, m) && KeysUnique(db)
    ensures ExternalAt(db, t, m.base.op.provider, m.base.op.external) ==> t == m.id
  {
    hide StageOk;
    assert m.id in db.rows ==> ExternalAt(db, m.id, m.base.op.provider, m.base.op.external);
  }

  lemma PublishKeepsAwake(cfg: Config, db: DB, clock: Time, m: Proc, defective: set<WalletId>)
    requires ValidConfig(cfg) && CommitReady(cfg, db, clock, m) && Carries(db, m)
    requires KeysUnique(db) && AwakeOn(db, defective)
    ensures AwakeOn(Merge(db, m.stage.delta), defective)
  {
    hide StagesMoney, StagesHold, NextAttempt, CallerOk, ContinueOf, SettleOf, Store.Wake, KeysUnique;
    ReadyStages(cfg, db, clock, m);
    var after, out, d := Merge(db, m.stage.delta), m.stage.out, m.stage.delta;
    ContinueKeepsOp(cfg, m, m.stage.view);
    if out.row.status == PendingReference {
      ParksUnprocessed(cfg, db, m, m.stage.view, out);
    }
    forall x, t | WaitsOnProcessed(after, x, t) && after.rows[x].op.wallet !in defective
      ensures after.rows[x].nextAttempt == Some(after.rows[t].updatedAt)
    {
      if x !in d.rows && t !in d.rows {
        assert WaitsOnProcessed(db, x, t);
      } else if x in d.rows && x != m.id {
        OwnExternal(cfg, db, clock, m, t);
        assert t in db.rows ==> ExternalAt(db, t, m.base.op.provider, m.base.op.external);
        assert t == m.id;
      }
    }
  }

  // ----- What else a commit may write ----------------------------------------

  /** A commit that leaves rows, ledgers and holds alone. */
  ghost predicate SameHistory(db: DB, after: DB) {
    after.rows == db.rows && after.ledger == db.ledger && after.holds == db.holds
  }

  lemma HistoryKeepsNets(db: DB, after: DB)
    requires Nets(db) && SameHistory(db, after)
    ensures Nets(after)
  {
    forall b | IsBase(after, b)
      ensures NetsFor(after, b)
    {
      assert IsBase(db, b);
      FamilyIsOfRows(db, after, b);
    }
  }

  lemma FamilyIsOfRows(db: DB, after: DB, b: TransactionId)
    requires after.rows == db.rows
    ensures Family(after, b) == Family(db, b)
  {
    assert forall x, y :: ReversesIn(after, x, y) <==> ReversesIn(db, x, y);
    forall x
      ensures InFamily(after, x, b) <==> InFamily(db, x, b)
    {
      if InFamily(db, x, b) && x != b && !ReversesIn(db, x, b) {
        var m: TransactionId :| ReversesIn(db, m, b) && ReversesIn(db, x, m);
        assert ReversesIn(after, m, b) && ReversesIn(after, x, m);
      }
      if InFamily(after, x, b) && x != b && !ReversesIn(after, x, b) {
        var m: TransactionId :| ReversesIn(after, m, b) && ReversesIn(after, x, m);
        assert ReversesIn(db, m, b) && ReversesIn(db, x, m);
      }
    }
  }

  lemma HistoryKeepsReversals(db: DB, after: DB)
    requires ReversalRules(db) && SameHistory(db, after) && RowsOwned(after)
    ensures ReversalRules(after)
  {
    hide Resolution, OnePerKind, HoldsExact, RowsOwned;
    assert HistoryStep(db, after, false, 0, 0);
    PlainStep(db, after, 0);
  }

  /** Recording a message changes nothing but the inbox. */
  lemma InboxKeepsTables(db: DB, after: DB, clock: Time)
    requires Tables(db, clock) && after == db.(inbox := after.inbox) && InboxBacked(after)
    ensures Tables(after, clock)
  {
    hide Nets, Resolution, OnePerKind, HoldsExact, LedgerFor, InboxBacked;
    HistoryKeepsNets(db, after);
    HistoryKeepsReversals(db, after);
    KeysStayUnique(db, after, 0);
    forall w
      ensures LedgerFor(after, w) && (LedgerOf(after, w) != [] ==> w in after.wallets)
    {
      LedgerIsOfHistory(db, after, w);
    }
  }

  lemma LedgerIsOfHistory(db: DB, after: DB, w: WalletId)
    requires LedgerFor(db, w) && SameHistory(db, after) && (w in after.wallets ==> w in db.wallets && after.wallets[w] == db.wallets[w])
    ensures LedgerFor(after, w)
  {
    var l := LedgerOf(db, w);
    forall i | 0 <= i < |l|
      ensures OnWallet(after, l[i].tx, w) && after.rows[l[i].tx].status == Processed
      ensures w in after.wallets ==> InCurrency(after, l[i].tx, w)
    {
      assert OnWallet(db, l[i].tx, w);
      assert w in db.wallets ==> InCurrency(db, l[i].tx, w);
    }
  }

  lemma InboxStaysBacked(db: DB, after: DB)
    requires InboxBacked(db) && after.inbox == db.inbox
    requires forall x :: x in db.rows ==> x in after.rows && after.rows[x].op == db.rows[x].op
    ensures InboxBacked(after)
  {
    hide Backed;
    forall m | m in after.inbox
      ensures Backed(after, after.inbox[m])
    {
      BackedStays(db, after, after.inbox[m]);
    }
  }

  lemma WithInboxBacked(db: DB, cmd: Command, claimed: bool)
    requires InboxBacked(db) && Backed(db, cmd.op)
    ensures InboxBacked(WithInbox(db, cmd, claimed))
  {
    hide Backed;
    var after := WithInbox(db, cmd, claimed);
    forall m | m in after.inbox
      ensures Backed(after, after.inbox[m])
    {
      BackedStays(db, after, after.inbox[m]);
    }
  }

  // ----- The tables after a submission or a resumed operation ----------------

  lemma ReadyIsFit(cfg: Config, db: DB, clock: Time, m: Proc)
    requires ValidConfig(cfg) && CommitReady(cfg, db, clock, m) && ReversalRules(db) && Ledgers(db)
    ensures OutcomeFits(db, m, m.stage.out)
  {
    hide ContinueOf, SettleOf, ViewSound, ReversalRules, ResolvesTo, Store.Wake, Clashes;
    BalanceIsNatural(db, m.base.op.wallet);
    OutcomeIsFit(cfg, db, m, m.stage.view, m.stage.out);
  }

  lemma BalanceIsNatural(db: DB, w: WalletId)
    requires Ledgers(db) && w in db.wallets
    ensures db.wallets[w].balance >= 0
  {
    assert LedgerFor(db, w);
  }

  lemma PublishKeepsTables(cfg: Config, db: DB, clock: Time, m: Proc)
    requires ValidConfig(cfg) && CommitReady(cfg, db, clock, m) && Tables(db, clock)
    ensures Tables(Merge(db, m.stage.delta), clock)
  {
    hide MovingOk, KeysUnique, ReversalRules, Ledgers, Nets, RowShapes, WalletsSound, InboxBacked, Merge,
      StagesRows, StagesHold, StagesMoney, OutcomeFits, Carries, AddsOneRow;
    var out, d := m.stage.out, m.stage.delta;
    ReadyStages(cfg, db, clock, m);
    ReadyCarries(cfg, db, clock, m);
    ReadyIsFit(cfg, db, clock, m);
    PublishAddsOneRow(cfg, db, clock, m);
    KeysStayUnique(db, Merge(db, d), m.id);
    PublishKeepsReversals(cfg, db, m, out, d);
    PublishKeepsLedgers(cfg, db, m, out, d);
    PublishKeepsNets(cfg, db, m, out, d);
    PublishKeepsShapes(cfg, db, clock, m);
    PublishKeepsWallets(cfg, db, clock, m, out, d);
    PublishKeepsInbox(cfg, db, clock, m);
  }

  lemma ReadyCarries(cfg: Config, db: DB, clock: Time, m: Proc)
    requires ValidConfig(cfg) && CommitReady(cfg, db, clock, m) && RowShapes(db, clock)
    ensures Carries(db, m) && m.now <= clock
  {
    hide StageOk, CallerOk;
    BaseUndecided(cfg, db, clock, m);
  }

  lemma PublishKeepsInbox(cfg: Config, db: DB, clock: Time, m: Proc)
    requires ValidConfig(cfg) && CommitReady(cfg, db, clock, m) && InboxBacked(db)
    ensures InboxBacked(Merge(db, m.stage.delta))
  {
    hide StageOk, CallerOk, InboxBacked;
    PublishAddsOneRow(cfg, db, clock, m);
    InboxStaysBacked(db, Merge(db, m.stage.delta));
  }
}
