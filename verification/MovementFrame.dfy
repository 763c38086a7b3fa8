/**
 What one commit leaves alone: a transaction in flight that shares no lock with
 the one that committed finds everything it has read and staged still true.
 */
module MovementFrame {
  import opened Prelude
  import opened Domain
  import opened Store
  import opened Reversals
  import opened Movement
  import opened MovementInvariant
  import opened MovementSteps

  /** Rows keep their operations; a new one is on w under identifiers and keys
      that were held; nothing off w changes. */
  ghost predicate RowsFrame(db: DB, after: DB, w: WalletId, held: set<Resource>) {
    && (forall x :: x in db.rows ==> x in after.rows && after.rows[x].op == db.rows[x].op)
    && (forall x :: x in db.rows && db.rows[x].op.wallet != w ==> after.rows[x] == db.rows[x])
    && (forall x :: x in after.rows && x !in db.rows ==>
          && after.rows[x].op.wallet == w && NewId(x) in held
          && (External(after.rows[x]) ==> KeysOf(after.rows[x].op) <= held))
  }

  ghost predicate WalletsFrame(db: DB, after: DB, w: WalletId, held: set<Resource>) {
    && (forall x :: x != w ==> (x in after.wallets <==> x in db.wallets))
    && (forall x :: x != w && x in db.wallets ==> after.wallets[x] == db.wallets[x])
    && (w in db.wallets ==>
          && w in after.wallets && WalletRow(w) in held
          && after.wallets[w].player == db.wallets[w].player && after.wallets[w].currency == db.wallets[w].currency)
    && (w in after.wallets && w !in db.wallets ==>
          NewWallet(w) in held && PlayerCurrency(after.wallets[w].player, after.wallets[w].currency) in held)
  }

  /** The ledgers, the counters and the holds off w. */
  ghost predicate RestFrame(db: DB, after: DB, w: WalletId) {
    && (forall x :: x != w ==> LedgerOf(after, x) == LedgerOf(db, x) && CounterOf(after, x) == CounterOf(db, x))
    && (forall t :: !OnWallet(db, t, w) ==>
          && (t in after.holds <==> t in db.holds)
          && (t in db.holds ==> after.holds[t] == db.holds[t]))
  }

  ghost predicate InboxFrame(db: DB, after: DB, held: set<Resource>) {
    && (forall m :: m in db.inbox ==> m in after.inbox && after.inbox[m] == db.inbox[m])
    && (forall m :: m in after.inbox && m !in db.inbox ==> InboxRow(m) in held)
  }

  ghost predicate Frame(db: DB, after: DB, w: WalletId, held: set<Resource>) {
    RowsFrame(db, after, w, held) && WalletsFrame(db, after, w, held) && RestFrame(db, after, w) && InboxFrame(db, after, held)
  }

  // ----- What rows say, after ------------------------------------------------

  lemma BackedStays(db: DB, after: DB, op: Operation)
    requires forall x :: x in db.rows ==> x in after.rows && after.rows[x].op == db.rows[x].op
    requires Backed(db, op)
    ensures Backed(after, op)
  {
    var r: TransactionId :| KeyAt(db, r, op.provider, op.key) && db.rows[r].op == op;
    assert KeyAt(after, r, op.provider, op.key) && after.rows[r].op == op;
  }

  lemma ClashStays(db: DB, after: DB, op: Operation)
    requires forall x :: x in db.rows ==> x in after.rows && after.rows[x].op == db.rows[x].op
    requires Clashes(db, op)
    ensures Clashes(after, op)
  {
    var r: TransactionId :| KeyAt(db, r, op.provider, op.key) || ExternalAt(db, r, op.provider, op.external);
    assert KeyAt(after, r, op.provider, op.key) || ExternalAt(after, r, op.provider, op.external);
  }

  lemma NoClashStays(db: DB, after: DB, w: WalletId, held: set<Resource>, op: Operation)
    requires RowsFrame(db, after, w, held) && KeysOf(op) !! held && !Clashes(db, op)
    ensures !Clashes(after, op)
  {
    forall r
      ensures !KeyAt(after, r, op.provider, op.key) && !ExternalAt(after, r, op.provider, op.external)
    {
      assert ExternalKey(op.provider, op.external) in KeysOf(op) && SubmissionKey(op.provider, op.key) in KeysOf(op);
      if r in after.rows && r !in db.rows && External(after.rows[r]) {
        assert ExternalKey(after.rows[r].op.provider, after.rows[r].op.external) in KeysOf(after.rows[r].op);
        assert SubmissionKey(after.rows[r].op.provider, after.rows[r].op.key) in KeysOf(after.rows[r].op);
      } else {
        assert !KeyAt(db, r, op.provider, op.key) && !ExternalAt(db, r, op.provider, op.external);
      }
    }
  }

  lemma NoExternalStays(db: DB, after: DB, w: WalletId, held: set<Resource>, op: Operation)
    requires RowsFrame(db, after, w, held) && ExternalKey(op.provider, op.external) !in held
    requires forall r :: !ExternalAt(db, r, op.provider, op.external)
    ensures forall r :: !ExternalAt(after, r, op.provider, op.external)
  {
    forall r
      ensures !ExternalAt(after, r, op.provider, op.external)
    {
      if r in after.rows && r !in db.rows && External(after.rows[r]) {
        assert ExternalKey(after.rows[r].op.provider, after.rows[r].op.external) in KeysOf(after.rows[r].op);
      } else {
        assert !ExternalAt(db, r, op.provider, op.external);
      }
    }
  }

  // ----- A view, after -------------------------------------------------------

  /** Who reverses an operation of another wallet does not change. */
  lemma ReversesStays(db: DB, after: DB, w: WalletId, held: set<Resource>, h: TransactionId, t: TransactionId)
    requires RowsFrame(db, after, w, held) && Resolution(db) && Resolution(after)
    requires t in db.rows && db.rows[t].op.wallet != w
    ensures ReversesIn(after, h, t) <==> ReversesIn(db, h, t)
    ensures ReversesIn(db, h, t) ==> after.rows[h] == db.rows[h] && db.rows[h].op.wallet != w
  {
    assert ReversesIn(db, h, t) ==> ResolvesTo(db, db.rows[h].op, t);
    assert ReversesIn(after, h, t) ==> ResolvesTo(after, after.rows[h].op, t);
  }

  lemma UndoneStays(db: DB, after: DB, w: WalletId, held: set<Resource>, t: TransactionId)
    requires RowsFrame(db, after, w, held) && Resolution(db) && Resolution(after)
    requires t in db.rows && db.rows[t].op.wallet != w
    ensures Undone(after, t) <==> Undone(db, t)
  {
    forall h
      ensures ReversesIn(after, h, t) <==> ReversesIn(db, h, t)
    {
      ReversesStays(db, after, w, held, h, t);
    }
  }

  lemma ReversalsStay(db: DB, after: DB, w: WalletId, held: set<Resource>, v: View)
    requires RowsFrame(db, after, w, held) && ReversalRules(db) && ReversalRules(after)
    requires v.id in db.rows && db.rows[v.id].op.wallet != w && ReversalsOf(db, v)
    ensures ReversalsOf(after, v)
  {
    hide HoldsNothing, Listed, RowsOwned, OnePerKind, HoldsExact;
    forall r | r in v.reversals
      ensures ReversesIn(after, r.id, v.id) && r.row == after.rows[r.id] && r.reversed == HoldsNothing(after, r.id)
    {
      assert ReversesIn(db, r.id, v.id);
      ReversesStays(db, after, w, held, r.id, v.id);
      UndoneStays(db, after, w, held, r.id);
      ReversedFlagIsHistory(db, r.id, v.id);
      ReversedFlagIsHistory(after, r.id, v.id);
    }
    forall h | ReversesIn(after, h, v.id)
      ensures Listed(v, h)
    {
      ReversesStays(db, after, w, held, h, v.id);
    }
  }

  lemma ViewStays(db: DB, after: DB, w: WalletId, held: set<Resource>, op: Operation, view: Option<View>)
    requires RowsFrame(db, after, w, held) && ReversalRules(db) && ReversalRules(after)
    requires op.wallet != w && ViewSound(db, op, view)
    ensures ViewSound(after, op, view)
  {
    hide ReversalRules, ReversalsOf;
    if view.Some? {
      if view.value.row.op.wallet == op.wallet {
        ReversalsStay(db, after, w, held, view.value);
      }
      assert ExternalAt(after, view.value.id, op.provider, op.reference.value);
    } else if op.reference.Some? {
      forall t | ExternalAt(after, t, op.provider, op.reference.value)
        ensures after.rows[t].op.wallet != op.wallet
      {
        assert t in db.rows ==> ExternalAt(db, t, op.provider, op.reference.value);
      }
    }
  }

  // ----- A staged settle, after ----------------------------------------------

  /** A processed reversal names an operation of its own wallet. */
  lemma ResolvedIsOnWallet(cfg: Config, db: DB, m: Proc, view: Option<View>, out: Outcome)
    requires m.Moving? && ValidCommand(m.base.op) && ViewSound(db, m.base.op, view)
    requires ContinueOf(cfg, m, view) == Ok(out) && out.row.status == Processed && IsReversal(m.base.op.kind)
    ensures out.row.op == m.base.op
    ensures view.Some? && out.row.resolved == Some(view.value.id)
    ensures OnWallet(db, view.value.id, m.base.op.wallet)
    ensures view.value.row == db.rows[view.value.id] && ReversalsOf(db, view.value)
    ensures ResolvesTo(db, m.base.op, view.value.id)
    ensures !HasActiveReversal(view.value) && !HasSuccessfulReversalOfKind(view.value, m.base.op.kind)
  {
    hide ReversalsOf, HasActiveReversal, HasSuccessfulReversalOfKind;
    ContinueFacts(m.id, m.base, m.wallet, view, cfg.wait, m.now);
  }

  lemma KindTakenStays(
    db: DB, after: DB, w: WalletId, held: set<Resource>, id: TransactionId, k: Kind, t: TransactionId)
    requires RowsFrame(db, after, w, held) && ReversalRules(db) && ReversalRules(after)
    requires t in db.rows && db.rows[t].op.wallet != w
    ensures KindTaken(after, id, k, t) <==> KindTaken(db, id, k, t)
  {
    forall h
      ensures ReversesIn(after, h, t) <==> ReversesIn(db, h, t)
      ensures ReversesIn(db, h, t) ==> after.rows[h] == db.rows[h]
    {
      ReversesStays(db, after, w, held, h, t);
    }
    assert forall h :: h in db.rows && Reverses(db.rows[h], t) <==> ReversesIn(db, h, t);
    assert forall h :: h in after.rows && Reverses(after.rows[h], t) <==> ReversesIn(after, h, t);
  }

  lemma ReleasedStays(db: DB, after: DB, w: WalletId, held: set<Resource>, t: TransactionId)
    requires RowsFrame(db, after, w, held) && RestFrame(db, after, w) && ReversalRules(db) && ReversalRules(after)
    requires t in db.rows && db.rows[t].op.wallet != w
    ensures ReleasedBy(after, t) == ReleasedBy(db, t)
    ensures forall x :: x in ReleasedBy(db, t) ==> x in after.holds && after.holds[x] == db.holds[x]
  {
    forall x
      ensures x in ReleasedBy(after, t) <==> x in ReleasedBy(db, t)
      ensures x in ReleasedBy(db, t) ==> x in after.holds && after.holds[x] == db.holds[x]
    {
      if x in ReleasedBy(db, t) {
        HolderShares(db, x, t);
      }
      if x in ReleasedBy(after, t) {
        HolderShares(after, x, t);
      }
    }
  }

  lemma HolderShares(db: DB, x: TransactionId, t: TransactionId)
    requires ReversalRules(db) && x in ReleasedBy(db, t) && t in db.rows
    ensures x in db.rows && db.rows[x].op.wallet == db.rows[t].op.wallet
  {
    assert ReversesIn(db, t, x);
    assert ResolvesTo(db, db.rows[t].op, x);
  }

  lemma TakeHoldStays(db: DB, after: DB, w: WalletId, held: set<Resource>, id: TransactionId, r: Row)
    requires RowsFrame(db, after, w, held) && RestFrame(db, after, w) && ReversalRules(db) && ReversalRules(after)
    requires TakesHold(r) && r.resolved.value in db.rows && db.rows[r.resolved.value].op.wallet != w
    ensures TakeHold(after, id, r) == TakeHold(db, id, r)
  {
    hide ReversalRules;
    ReleasedStays(db, after, w, held, r.resolved.value);
  }

  /** The door gives the same answer whatever another wallet's commit did. */
  lemma SettleStays(
    db: DB, after: DB, w: WalletId, held: set<Resource>, id: TransactionId, base: Row, out: Outcome, next: Option<Time>)
    requires Frame(db, after, w, held) && ReversalRules(db) && ReversalRules(after)
    requires base.op.wallet != w && out.row.op.wallet != w
    requires TakesHold(out.row) ==> out.row.resolved.value in db.rows && db.rows[out.row.resolved.value].op.wallet != w
    ensures Store.Settle(after, id, base, out, next) == Store.Settle(db, id, base, out, next)
  {
    hide ReversalRules, TakeHold, KindTaken, RowsFrame, ChainAccepts;
    var row := SettledRow(out, next);
    if TakesHold(row) {
      KindTakenStays(db, after, w, held, id, row.op.kind, row.resolved.value);
      TakeHoldStays(db, after, w, held, id, row);
    }
  }

  lemma WakeStays(db: DB, after: DB, w: WalletId, held: set<Resource>, d: Delta, row: Row, now: Time)
    requires RowsFrame(db, after, w, held) && row.op.wallet != w
    ensures Store.Wake(after, d, row, now) == Store.Wake(db, d, row, now)
  {
    forall x
      ensures x in Woken(after, d, row.op, now) <==> x in Woken(db, d, row.op, now)
      ensures x in Woken(db, d, row.op, now) ==> Woken(after, d, row.op, now)[x] == Woken(db, d, row.op, now)[x]
    {
    }
    assert Woken(after, d, row.op, now) == Woken(db, d, row.op, now);
  }

  // ----- A transaction in flight, after --------------------------------------

  lemma StageStays(cfg: Config, db: DB, after: DB, w: WalletId, held: set<Resource>, m: Proc)
    requires ValidConfig(cfg) && Frame(db, after, w, held) && ReversalRules(db) && ReversalRules(after)
    requires m.Moving? && ValidCommand(m.base.op) && m.base.op.wallet != w && StageOk(cfg, db, m)
    ensures StageOk(cfg, after, m)
  {
    hide ReversalRules, ViewSound, RowsFrame, WalletsFrame, InboxFrame, ContinueOf, Store.Settle, Store.Wake, NextAttempt, DeferredRow;
    if !m.stage.Begun? && !m.stage.Deferring? {
      ViewStays(db, after, w, held, m.base.op, m.stage.view);
      if !m.stage.Viewed? {
        var out := m.stage.out;
        SettleOfStays(cfg, db, after, w, held, m, m.stage.view, out);
        ContinueKeepsOp(cfg, m, m.stage.view);
        WakeStays(db, after, w, held, SettleOf(cfg, db, m, out).value, out.row, m.now);
        SettleWallet(cfg, db, m, out);
        WakeWallet(db, SettleOf(cfg, db, m, out).value, out.row, m.now);
      }
    }
  }

  lemma SettleWallet(cfg: Config, db: DB, m: Proc, out: Outcome)
    requires ValidConfig(cfg) && m.Moving? && SettleOf(cfg, db, m, out).Ok?
    ensures SettleOf(cfg, db, m, out).value.wallet == m.base.op.wallet
  {
  }

  lemma WakeWallet(db: DB, d: Delta, row: Row, now: Time)
    ensures Store.Wake(db, d, row, now).wallet == d.wallet
  {
  }

  lemma SettleOfStays(
    cfg: Config, db: DB, after: DB, w: WalletId, held: set<Resource>, m: Proc, view: Option<View>, out: Outcome)
    requires ValidConfig(cfg) && Frame(db, after, w, held) && ReversalRules(db) && ReversalRules(after)
    requires m.Moving? && ValidCommand(m.base.op) && m.base.op.wallet != w
    requires ViewSound(db, m.base.op, view) && ContinueOf(cfg, m, view) == Ok(out)
    ensures SettleOf(cfg, after, m, out) == SettleOf(cfg, db, m, out)
  {
    hide ReversalRules, ViewSound, Frame, ContinueOf, Store.Settle, NextAttempt;
    ContinueKeepsOp(cfg, m, view);
    if TakesHold(out.row) {
      ResolvedIsOnWallet(cfg, db, m, view, out);
    }
    SettleStays(db, after, w, held, m.id, m.base, out, NextAttempt(cfg, m.id, out, m.now));
  }

  lemma MovingStays(cfg: Config, db: DB, after: DB, clock: Time, w: WalletId, held: set<Resource>, m: Proc)
    requires ValidConfig(cfg) && Frame(db, after, w, held) && ReversalRules(db) && ReversalRules(after)
    requires m.Moving? && MovingOk(cfg, db, clock, m) && Held(m) !! held
    ensures MovingOk(cfg, after, clock, m)
  {
    hide ReversalRules, StageOk, Clashes, RestFrame, StageHeld;
    assert WalletRow(m.base.op.wallet) in Held(m);
    StageStays(cfg, db, after, w, held, m);
    if m.caller.BySubmit? {
      assert KeysOf(m.caller.cmd.op) <= Held(m) && NewId(m.id) in Held(m);
      NoClashStays(db, after, w, held, m.caller.cmd.op);
      ClaimStays(db, after, held, m.caller.cmd, m.caller.claimed, Held(m));
    }
  }

  lemma ClaimStays(db: DB, after: DB, held: set<Resource>, cmd: Command, claimed: bool, mine: set<Resource>)
    requires InboxFrame(db, after, held) && ClaimOk(db, cmd, claimed) && InboxHeld(cmd, claimed) <= mine && mine !! held
    ensures ClaimOk(after, cmd, claimed)
  {
    if claimed {
      assert InboxRow(cmd.message.value) in mine;
    }
  }

  lemma SubmittingStays(cfg: Config, db: DB, after: DB, clock: Time, w: WalletId, held: set<Resource>, x: Proc)
    requires ValidConfig(cfg) && RowsFrame(db, after, w, held) && WalletsFrame(db, after, w, held) && InboxFrame(db, after, held)
    requires x.Submitting? && ProcOk(cfg, db, clock, x) && Held(x) !! held
    ensures ProcOk(cfg, after, clock, x)
  {
    hide Clashes, ClaimOk;
    if x.point.Lost? {
      ClashStays(db, after, x.cmd.op);
    } else {
      assert NewId(x.cmd.id) in Held(x);
      if !x.point.Started? && !x.point.InboxMissed? {
        ClaimStays(db, after, held, x.cmd, x.point.claimed, Held(x));
        if x.point.Locked? || x.point.Stamped? || x.point.Entered? {
          assert WalletRow(x.cmd.op.wallet) in Held(x);
        }
        if x.point.Entered? {
          assert ExternalKey(x.cmd.op.provider, x.cmd.op.external) in Held(x);
          NoExternalStays(db, after, w, held, x.cmd.op);
        }
      }
    }
  }

  lemma OpeningStays(cfg: Config, db: DB, after: DB, clock: Time, w: WalletId, held: set<Resource>, x: Proc)
    requires ValidConfig(cfg) && RowsFrame(db, after, w, held) && WalletsFrame(db, after, w, held)
    requires x.OpeningWallet? && ProcOk(cfg, db, clock, x) && Held(x) !! held
    ensures ProcOk(cfg, after, clock, x)
  {
    assert NewId(x.open.tx) in Held(x) && NewWallet(x.open.wallet) in Held(x);
    assert !x.step.Unseen? ==> PlayerCurrency(x.open.player, x.open.currency) in Held(x);
  }

  lemma ProcStays(cfg: Config, db: DB, after: DB, clock: Time, w: WalletId, held: set<Resource>, x: Proc)
    requires ValidConfig(cfg) && Frame(db, after, w, held) && ReversalRules(db) && ReversalRules(after)
    requires ProcOk(cfg, db, clock, x) && Held(x) !! held
    ensures ProcOk(cfg, after, clock, x)
  {
    hide ReversalRules, MovingOk, Held, WalletsFrame, RestFrame, InboxFrame;
    match x
    case Submitting(_, _) => SubmittingStays(cfg, db, after, clock, w, held, x);
    case Resuming(_, _) =>
    case Moving(_, _, _, _, _, _) => MovingStays(cfg, db, after, clock, w, held, x);
    case OpeningWallet(_, _) => OpeningStays(cfg, db, after, clock, w, held, x);
    case Answered(_, _) =>
  }
}
