/** What a movement that is ready to commit has staged, and what publishing it
    does to the tables. */
module MovementDelta {
  import opened Prelude
  import opened Domain
  import opened Store
  import opened Reversals
  import opened Netting
  import opened Movement
  import opened MovementInvariant
  import opened MovementSteps
  import opened MovementFrame
  import Backoff

  /** The transaction's own row, and the parked operations it woke. */
  ghost predicate StagesRows(cfg: Config, db: DB, m: Proc, out: Outcome, d: Delta)
    requires ValidConfig(cfg) && m.Moving?
  {
    && m.id in d.rows && d.rows[m.id] == SettledRow(out, NextAttempt(cfg, m.id, out, m.now))
    && (forall x :: x in d.rows && x != m.id ==>
          && out.row.status == Processed && x in db.rows
          && WaitsFor(db.rows[x], m.base.op.wallet, m.base.op.provider, m.base.op.external)
          && d.rows[x] == db.rows[x].(nextAttempt := Some(m.now)))
    && (out.row.status == Processed ==> forall x :: x in db.rows && x != m.id ==>
          WaitsFor(db.rows[x], m.base.op.wallet, m.base.op.provider, m.base.op.external) ==> x in d.rows)
  }

  /** The wallet conditioned on its version, and the entry beside it. */
  ghost predicate StagesMoney(db: DB, m: Proc, out: Outcome, d: Delta)
    requires m.Moving?
  {
    && d.wallet == m.base.op.wallet && d.entry == out.entry && (d.moved.Some? <==> d.entry.Some?)
    && (d.entry.Some? ==>
          && d.wallet in db.wallets
          && d.moved.value == db.wallets[d.wallet].(
               balance := d.entry.value.after, version := d.entry.value.version, updatedAt := d.entry.value.at)
          && ChainAccepts(LedgerOf(db, d.wallet), d.entry.value, false)
          && (out.row.status == Processed ==> db.wallets[d.wallet].currency == out.row.op.currency))
  }

  /** active_reversal, as the trigger writes it. */
  ghost predicate StagesHold(db: DB, m: Proc, out: Outcome, d: Delta)
    requires m.Moving?
  {
    if TakesHold(out.row) then
      && !KindTaken(db, m.id, out.row.op.kind, out.row.resolved.value)
      && TakeHold(db, m.id, out.row) == Ok((d.released, d.held))
    else d.released == {} && d.held == map[]
  }

  lemma SettleStages(cfg: Config, db: DB, m: Proc, out: Outcome)
    requires ValidConfig(cfg) && m.Moving? && SettleOf(cfg, db, m, out).Ok? && out.row.op == m.base.op && m.base.op.kind != Opening
    requires m.base.status != Processed
    ensures var d := SettleOf(cfg, db, m, out).value;
            && d.rows == map[m.id := SettledRow(out, NextAttempt(cfg, m.id, out, m.now))]
            && StagesMoney(db, m, out, d) && StagesHold(db, m, out, d)
  {
    hide KindTaken, ChainAccepts, ReleasedBy, Backoff.Next;
    assert TakesHold(SettledRow(out, NextAttempt(cfg, m.id, out, m.now))) == TakesHold(out.row);
    if TakesHold(out.row) {
      TakeHoldReads(db, m.id, out, NextAttempt(cfg, m.id, out, m.now));
    }
  }

  lemma TakeHoldReads(db: DB, id: TransactionId, out: Outcome, next: Option<Time>)
    requires TakesHold(out.row)
    ensures TakesHold(SettledRow(out, next)) && TakeHold(db, id, SettledRow(out, next)) == TakeHold(db, id, out.row)
  {
  }

  lemma WakeStages(db: DB, d: Delta, id: TransactionId, row: Row, now: Time)
    requires d.rows.Keys == {id} && d.rows[id].status == row.status && External(row)
    ensures var e := Store.Wake(db, d, row, now);
            && e == d.(rows := e.rows)
            && id in e.rows && e.rows[id] == d.rows[id]
            && (forall x :: x in e.rows && x != id ==>
                  && row.status == Processed && x in db.rows
                  && WaitsFor(db.rows[x], row.op.wallet, row.op.provider, row.op.external)
                  && e.rows[x] == db.rows[x].(nextAttempt := Some(now)))
            && (row.status == Processed ==> forall x :: x in db.rows && x != id ==>
                  WaitsFor(db.rows[x], row.op.wallet, row.op.provider, row.op.external) ==> x in e.rows)
  {
  }

  ghost predicate CommitReady(cfg: Config, db: DB, clock: Time, m: Proc)
    requires ValidConfig(cfg)
  {
    m.Moving? && m.stage.Appended? && MovingOk(cfg, db, clock, m)
  }

  lemma ReadyStages(cfg: Config, db: DB, clock: Time, m: Proc)
    requires ValidConfig(cfg) && CommitReady(cfg, db, clock, m)
    ensures StagesRows(cfg, db, m, m.stage.out, m.stage.delta)
    ensures StagesMoney(db, m, m.stage.out, m.stage.delta)
    ensures StagesHold(db, m, m.stage.out, m.stage.delta)
    ensures m.stage.out.row.op == m.base.op
    ensures !Terminal(m.base.status)
  {
    hide ViewSound, ContinueOf, SettleOf, Store.Wake, NextAttempt, KindTaken, TakeHold, ChainAccepts, Clashes;
    var out := m.stage.out;
    ContinueKeepsOp(cfg, m, m.stage.view);
    SettleStages(cfg, db, m, out);
    var d := SettleOf(cfg, db, m, out).value;
    assert d.rows.Keys == {m.id};
    WakeStages(db, d, m.id, out.row, m.now);
  }

  // ----- The outcome ---------------------------------------------------------

  /** What the processor decided, against the tables committed now. */
  ghost predicate OutcomeFits(db: DB, m: Proc, out: Outcome)
    requires m.Moving?
  {
    && out.row.op == m.base.op && out.row.updatedAt == m.now
    && out.row.status in {Processed, Rejected, PendingReference}
    && (out.entry.Some? <==> out.row.status == Processed && m.base.op.kind != Loss)
    && (out.row.status == Processed ==> m.wallet.currency == m.base.op.currency)
    && (out.entry.Some? ==> out.entry.value.tx == m.id && out.entry.value.at == m.now && EntryArithmetic(out.entry.value))
    && (out.row.status == Processed && IsReversal(m.base.op.kind) ==>
          && out.row.resolved.Some? && ResolvesTo(db, m.base.op, out.row.resolved.value)
          && out.row.resolved.value !in db.holds
          && SignedOf(out.entry.value) == ReversalMovement(m.base.op, db.rows[out.row.resolved.value].op))
    && (out.row.status == Processed && (m.base.op.kind == Bet || m.base.op.kind == Win) ==>
          SignedOf(out.entry.value) == OwnMovement(m.base.op))
  }

  lemma HeldIsActive(db: DB, v: View)
    requires ReversalRules(db) && ReversalsOf(db, v) && v.id in db.holds
    ensures HasActiveReversal(v)
  {
    var h := db.holds[v.id].reversal;
    assert ReversesIn(db, h, v.id) && Listed(v, h);
    var i :| 0 <= i < |v.reversals| && v.reversals[i].id == h;
    assert v.reversals[i] in v.reversals && !HoldsNothing(db, h);
  }

  lemma OutcomeIsFit(cfg: Config, db: DB, m: Proc, view: Option<View>, out: Outcome)
    requires m.Moving? && ValidCommand(m.base.op) && ReversalRules(db) && ViewSound(db, m.base.op, view)
    requires ContinueOf(cfg, m, view) == Ok(out) && m.wallet.balance >= 0
    ensures OutcomeFits(db, m, out)
  {
    hide ReversalRules, ReversalsOf, HasActiveReversal, HasSuccessfulReversalOfKind, ResolvesTo, ViewSound;
    ContinueFacts(m.id, m.base, m.wallet, view, cfg.wait, m.now);
    if out.row.status == Processed && IsReversal(m.base.op.kind) {
      ResolvedIsOnWallet(cfg, db, m, view, out);
      if view.value.id in db.holds {
        HeldIsActive(db, view.value);
      }
      assert out.entry.Some?;
      assert SignedOf(out.entry.value) == ReversalMovement(m.base.op, view.value.row.op);
    }
  }

  // ----- Publishing it -------------------------------------------------------

  /** The row a movement carries forward, if committed, is still parked. */
  ghost predicate Carries(db: DB, m: Proc)
    requires m.Moving?
  {
    && (m.id in db.rows ==> db.rows[m.id] == m.base && m.base.status == PendingReference)
    && ValidCommand(m.base.op)
    && m.base.op.wallet in db.wallets && db.wallets[m.base.op.wallet].player == m.base.op.player
  }

  lemma PublishSettlesOnly(cfg: Config, db: DB, m: Proc, out: Outcome, d: Delta)
    requires ValidConfig(cfg) && m.Moving? && Carries(db, m) && StagesRows(cfg, db, m, out, d) && OutcomeFits(db, m, out)
    ensures SettlesOnly(db, d, m.id)
    ensures d.rows[m.id].op == m.base.op && d.rows[m.id].status == out.row.status
    ensures d.rows[m.id].resolved == out.row.resolved && TakesHold(d.rows[m.id]) == TakesHold(out.row)
  {
    hide ResolvesTo, NextAttempt;
  }

  lemma PublishOwnsRows(cfg: Config, db: DB, m: Proc, out: Outcome, d: Delta)
    requires ValidConfig(cfg) && m.Moving? && Carries(db, m) && StagesRows(cfg, db, m, out, d) && StagesMoney(db, m, out, d)
    requires RowsOwned(db) && out.row.op == m.base.op
    ensures OwnsRows(db, d)
  {
    hide NextAttempt, ChainAccepts;
  }

  lemma PublishTakesOneHold(cfg: Config, db: DB, m: Proc, out: Outcome, d: Delta)
    requires ValidConfig(cfg) && m.Moving? && Carries(db, m)
    requires StagesRows(cfg, db, m, out, d) && StagesHold(db, m, out, d) && OutcomeFits(db, m, out)
    requires TakesHold(out.row)
    ensures TakesOneHold(db, d, m.id, out.row.resolved.value)
  {
    hide ResolvesTo, NextAttempt, KindTaken;
    PublishSettlesOnly(cfg, db, m, out, d);
  }

  lemma PublishKeepsReversals(cfg: Config, db: DB, m: Proc, out: Outcome, d: Delta)
    requires ValidConfig(cfg) && m.Moving? && Carries(db, m)
    requires StagesRows(cfg, db, m, out, d) && StagesMoney(db, m, out, d) && StagesHold(db, m, out, d) && OutcomeFits(db, m, out)
    requires ReversalRules(db)
    ensures ReversalRules(Merge(db, d))
  {
    hide StagesRows, StagesMoney, Carries, Merge, Resolution, OnePerKind, HoldsExact, SettlesOnly, TakesOneHold, RowsOwned, OwnsRows;
    PublishOwnsRows(cfg, db, m, out, d);
    PublishSettlesOnly(cfg, db, m, out, d);
    if TakesHold(out.row) {
      PublishTakesOneHold(cfg, db, m, out, d);
      HoldingMergeKeepsReversals(db, d, m.id, out.row.resolved.value);
    } else {
      PlainMergeKeepsReversals(db, d, m.id);
    }
  }

  lemma PublishKeepsLedgers(cfg: Config, db: DB, m: Proc, out: Outcome, d: Delta)
    requires ValidConfig(cfg) && m.Moving? && Carries(db, m)
    requires StagesRows(cfg, db, m, out, d) && StagesMoney(db, m, out, d) && OutcomeFits(db, m, out)
    requires Ledgers(db)
    ensures Ledgers(Merge(db, d))
  {
    hide Ledgers, ChainAccepts, Merge, Carries, StagesRows;
    PublishSettlesOnly(cfg, db, m, out, d);
    assert m.id in d.rows by { PublishRow(cfg, db, m, out, d); }
    MergeKeepsLedgers(db, d, false);
  }

  lemma PublishRow(cfg: Config, db: DB, m: Proc, out: Outcome, d: Delta)
    requires ValidConfig(cfg) && m.Moving? && StagesRows(cfg, db, m, out, d)
    ensures m.id in d.rows && m.id in Merge(db, d).rows && Merge(db, d).rows[m.id] == d.rows[m.id]
  {
  }

  /** A merge in the terms the netting argument uses. */
  lemma MergeIsSettleStep(db: DB, d: Delta, id: TransactionId, t: TransactionId)
    requires SettlesOnly(db, d, id) && id in d.rows && (id in db.rows ==> db.rows[id].status != Processed)
    requires d.wallet == d.rows[id].op.wallet && (d.entry.Some? ==> d.entry.value.tx == id)
    requires if TakesHold(d.rows[id]) then TakesOneHold(db, d, id, t) else d.released == {} && d.held == map[]
    requires TakesHold(d.rows[id]) ==> d.entry.Some? && SignedOf(d.entry.value) == ReversalMovement(d.rows[id].op, db.rows[t].op)
    requires d.rows[id].status == Processed && (d.rows[id].op.kind == Bet || d.rows[id].op.kind == Win) ==>
               d.entry.Some? && SignedOf(d.entry.value) == OwnMovement(d.rows[id].op)
    ensures Netting.SettleStep(db, Merge(db, d), TakesHold(d.rows[id]), id, t, d.entry)
  {
    hide ResolvesTo, HistoryStep, KindTaken, HoldsMove, LedgerStep;
    MergeIsHistoryStep(db, d, id, t);
    if TakesHold(d.rows[id]) {
      OneHeld(db, d, id, t);
    } else {
      NothingHeld(db, d);
    }
    MergeIsLedgerStep(db, d);
  }

  lemma MergeIsLedgerStep(db: DB, d: Delta)
    ensures LedgerStep(db, Merge(db, d), d.wallet, d.entry)
  {
  }

  lemma PublishKeepsNets(cfg: Config, db: DB, m: Proc, out: Outcome, d: Delta)
    requires ValidConfig(cfg) && m.Moving? && Carries(db, m)
    requires StagesRows(cfg, db, m, out, d) && StagesMoney(db, m, out, d) && StagesHold(db, m, out, d) && OutcomeFits(db, m, out)
    requires ReversalRules(db) && Ledgers(db) && Nets(db) && ReversalRules(Merge(db, d))
    ensures Nets(Merge(db, d))
  {
    hide ReversalRules, Ledgers, Nets, Merge, StagesRows, ResolvesTo, ChainAccepts, KindTaken, TakeHold, SettlesOnly, TakesOneHold;
    PublishSettlesOnly(cfg, db, m, out, d);
    PublishRow(cfg, db, m, out, d);
    var t := if TakesHold(out.row) then out.row.resolved.value else m.id;
    if TakesHold(out.row) {
      PublishTakesOneHold(cfg, db, m, out, d);
    }
    MergeIsSettleStep(db, d, m.id, t);
    HoldsExactly(Merge(db, d));
    SettleKeepsNets(db, Merge(db, d), TakesHold(d.rows[m.id]), m.id, t, d.entry);
  }

  lemma HoldsExactly(db: DB)
    requires ReversalRules(db)
    ensures HoldsExact(db)
  {
  }
}
