/** What the invariant means for an operation being settled: what can refuse it,
    when it is looked at again, and what reversals come to. */
module Settling {
  import opened Prelude
  import opened Domain
  import opened Store
  import opened Reversals
  import opened Netting
  import opened Movement
  import opened MovementInvariant
  import opened MovementSteps
  import opened MovementFrame
  import opened MovementDelta
  import opened MovementCommit
  import opened MovementRuns
  import opened MovementSafety
  import Backoff

  // ----- What can refuse a settle --------------------------------------------

  /** The processor never refuses an operation these doors carried to it: every
      carry-forward defect comes from outside this protocol. */
  lemma ProcessorNeverRefuses(cfg: Config, s: State, p: Pid)
    requires ValidConfig(cfg) && Reachable(cfg, s) && p in s.procs && s.procs[p].Moving? && s.procs[p].stage.Viewed?
    ensures ContinueOf(cfg, s.procs[p], s.procs[p].stage.view).Ok?
  {
    hide Reachable, AwakeOn, Exclusive, BookOf, History, AnswerLogged, ViewSound, Clashes, KeysUnique, ReversalRules, Ledgers, Nets, RowShape;
    ReachableIsSafe(cfg, s);
    assert ProcOk(cfg, s.db, s.clock, s.procs[p]);
    BaseUndecided(cfg, s.db, s.clock, s.procs[p]);
    NeverRefuses(cfg, s.procs[p], s.procs[p].stage.view);
  }

  lemma NeverRefuses(cfg: Config, m: Proc, view: Option<View>)
    requires m.Moving? && ValidCommand(m.base.op) && !Terminal(m.base.status) && m.base.resolved.None?
    requires m.wallet.player == m.base.op.player
    ensures ContinueOf(cfg, m, view).Ok?
  {
    hide HasActiveReversal, HasSuccessfulReversalOfKind;
  }

  /** The two rules a stale clock breaks: a row's and a wallet's update times
      only go forward. */
  predicate ClockBehind(m: Proc, out: Outcome)
    requires m.Moving?
  {
    m.now < m.base.updatedAt || (out.entry.Some? && m.now <= m.wallet.updatedAt)
  }

  /** A kind index that is hit would have been in the view. */
  lemma KindIsFree(db: DB, id: TransactionId, op: Operation, v: View)
    requires ReversalsOf(db, v) && IsReversal(op.kind) && !HasSuccessfulReversalOfKind(v, op.kind)
    ensures !KindTaken(db, id, op.kind, v.id)
  {
    forall h | h in db.rows && Reverses(db.rows[h], v.id)
      ensures db.rows[h].op.kind != op.kind
    {
      assert ReversesIn(db, h, v.id) && Listed(v, h);
      var i :| 0 <= i < |v.reversals| && v.reversals[i].id == h;
      assert v.reversals[i] in v.reversals;
    }
  }

  /** The trigger's own kind rule is never broken either. */
  lemma HoldIsTaken(db: DB, id: TransactionId, r: Row)
    requires ReversalRules(db) && TakesHold(r) && ResolvesTo(db, r.op, r.resolved.value) && r.resolved.value !in db.holds
    ensures TakeHold(db, id, r).Ok?
  {
    hide RowsOwned, OnePerKind;
    var t := r.resolved.value;
    forall x | x in ReleasedBy(db, t)
      ensures r.op.kind != Refund && db.holds[x].kind != Rollback
    {
      assert ReversesIn(db, t, x);
      assert ResolvesTo(db, db.rows[t].op, x);
    }
  }

  lemma ChainIsReady(db: DB, id: TransactionId, w: WalletId, e: Entry)
    requires Ledgers(db) && w in db.wallets && (id in db.rows ==> db.rows[id].status != Processed)
    requires EntryArithmetic(e) && e.tx == id && e.before == db.wallets[w].balance && e.version == db.wallets[w].version + 1
    ensures ChainAccepts(LedgerOf(db, w), e, false)
  {
    assert LedgerFor(db, w);
    NotInLedger(db, w, id);
  }

  /** Under the wallet lock neither the transition guard, nor the version condition,
      nor a reversal index, nor the maintainer, nor the ledger chain ever refuses: only a clock does,
      and exactly when the instant sampled is behind the row or the wallet. */
  lemma OnlyTheClockRefuses(cfg: Config, s: State, p: Pid)
    requires ValidConfig(cfg) && Reachable(cfg, s) && p in s.procs && s.procs[p].Moving? && s.procs[p].stage.Viewed?
    requires ContinueOf(cfg, s.procs[p], s.procs[p].stage.view).Ok?
    ensures var m := s.procs[p];
            var out := ContinueOf(cfg, m, m.stage.view).value;
            && (SettleOf(cfg, s.db, m, out).Err? <==> ClockBehind(m, out))
            && (SettleOf(cfg, s.db, m, out).Err? ==> SettleOf(cfg, s.db, m, out).error == ClockRefused)
  {
    hide Reachable, AwakeOn, Exclusive, BookOf, History, AnswerLogged, ViewSound, Clashes, KeysUnique, ReversalRules,
      Ledgers, Nets, RowShape, ContinueOf, SettleOf, ClockBehind, Carries, RowShapes;
    ReachableIsSafe(cfg, s);
    var m := s.procs[p];
    assert ProcOk(cfg, s.db, s.clock, m);
    BaseUndecided(cfg, s.db, s.clock, m);
    BalanceIsNatural(s.db, m.base.op.wallet);
    SettleMeets(cfg, s.db, m, m.stage.view, ContinueOf(cfg, m, m.stage.view).value);
  }

  /** For a submission, which samples its instant under the wallet lock, that
      leaves one case: the wallet last moved in that very instant. A resumed
      operation samples before it has the lock, and may be further behind. */
  lemma SubmissionsAreRefusedOnlyInTheSameInstant(cfg: Config, s: State, p: Pid, out: Outcome)
    requires ValidConfig(cfg) && Reachable(cfg, s) && p in s.procs && s.procs[p].Moving? && s.procs[p].caller.BySubmit?
    ensures ClockBehind(s.procs[p], out) <==> out.entry.Some? && s.procs[p].now == s.procs[p].wallet.updatedAt
  {
    hide Reachable, Tables, AwakeOn, Exclusive, BookOf, History, AnswerLogged, StageOk, Clashes;
    ReachableIsSafe(cfg, s);
    assert ProcOk(cfg, s.db, s.clock, s.procs[p]);
  }

  /** What woke a parked operation never stands in its way: a turn that carries it
      has sampled no earlier than t settled. So while the wallet has not moved
      since, and the row was not parked since, the door refuses it only in the
      very instant t settled. */
  lemma TheWakerIsNeverAhead(cfg: Config, s: State, p: Pid, t: TransactionId, out: Outcome)
    requires ValidConfig(cfg) && Reachable(cfg, s) && p in s.procs && s.procs[p].Moving? && s.procs[p].caller.ByResume?
    requires WaitsOnProcessed(s.db, s.procs[p].id, t) && s.procs[p].base.op.wallet !in s.defective
    ensures s.db.rows[t].updatedAt <= s.procs[p].now
    ensures s.procs[p].wallet.updatedAt <= s.db.rows[t].updatedAt && s.procs[p].base.updatedAt <= s.procs[p].now ==>
              (ClockBehind(s.procs[p], out) <==>
                 out.entry.Some? && s.procs[p].now == s.db.rows[t].updatedAt == s.procs[p].wallet.updatedAt)
  {
    hide Reachable, Tables, Exclusive, BookOf, History, AnswerLogged, StageOk;
    ReachableIsSafe(cfg, s);
    assert ProcOk(cfg, s.db, s.clock, s.procs[p]);
  }

  lemma SettleMeets(cfg: Config, db: DB, m: Proc, view: Option<View>, out: Outcome)
    requires ValidConfig(cfg) && m.Moving? && ReversalRules(db) && Ledgers(db) && Carries(db, m)
    requires db.wallets[m.base.op.wallet] == m.wallet && m.wallet.balance >= 0
    requires ViewSound(db, m.base.op, view) && ContinueOf(cfg, m, view) == Ok(out)
    requires Undecided(m.base) && !Terminal(m.base.status)
    ensures SettleOf(cfg, db, m, out).Err? <==> ClockBehind(m, out)
    ensures SettleOf(cfg, db, m, out).Err? ==> SettleOf(cfg, db, m, out).error == ClockRefused
  {
    hide ReversalRules, Ledgers, ViewSound, ContinueOf, Backoff.Next, ChainAccepts, KindTaken, TakeHold, ResolvesTo;
    OutcomeIsFit(cfg, db, m, view, out);
    var row := SettledRow(out, NextAttempt(cfg, m.id, out, m.now));
    if TakesHold(row) {
      ResolvedIsOnWallet(cfg, db, m, view, out);
      KindIsFree(db, m.id, m.base.op, view.value);
      HoldIsTaken(db, m.id, row);
    }
    if out.entry.Some? {
      EntryStartsFromTheWallet(cfg, m, view, out);
      ChainIsReady(db, m.id, m.base.op.wallet, out.entry.value);
    }
  }

  lemma EntryStartsFromTheWallet(cfg: Config, m: Proc, view: Option<View>, out: Outcome)
    requires m.Moving? && ValidCommand(m.base.op) && ContinueOf(cfg, m, view) == Ok(out) && out.entry.Some?
    ensures out.entry.value.before == m.wallet.balance && out.entry.value.version == m.wallet.version + 1
    ensures out.entry.value.after != m.wallet.balance
  {
    ContinueFacts(m.id, m.base, m.wallet, view, cfg.wait, m.now);
  }

  // ----- When a parked operation is looked at again --------------------------

  /** No lost wake-up: an operation parked on one that has been processed on its
      wallet is due now, and a turn that looks will find it. */
  lemma NoLostWakeUp(cfg: Config, s: State, x: TransactionId, t: TransactionId)
    requires ValidConfig(cfg) && Reachable(cfg, s)
    requires x in s.db.rows && t in s.db.rows && s.db.rows[x].op.wallet !in s.defective
    requires s.db.rows[t].status == Processed && s.db.rows[t].op.kind != Opening
    requires s.db.rows[x].status == PendingReference && s.db.rows[x].op.reference == Some(s.db.rows[t].op.external)
    requires s.db.rows[x].op.provider == s.db.rows[t].op.provider && s.db.rows[x].op.wallet == s.db.rows[t].op.wallet
    ensures s.db.rows[x].nextAttempt == Some(s.db.rows[t].updatedAt) && s.db.rows[t].updatedAt <= s.clock
    ensures forall now :: DueAt(s.db.rows[x], now) <==> now >= s.db.rows[t].updatedAt
  {
    hide Reachable, KeysUnique, ReversalRules, Ledgers, Nets, WalletsSound, InboxBacked, Exclusive, BookOf, History, AnswerLogged, ProcOk;
    ReachableIsSafe(cfg, s);
    assert RowShape(s.db.rows[t], s.clock) && RowShape(s.db.rows[x], s.clock);
    assert WaitsOnProcessed(s.db, x, t);
  }

  /** Between the unlocked look and the claim anything may have happened to the
      candidate but this: it is still on the wallet that was locked. So the turn
      goes on exactly when the row is still parked and still due, with that row and
      the wallet it belongs to. */
  lemma TheClaimIsOnTheLockedWallet(cfg: Config, s: State, p: Pid, t: State)
    requires ValidConfig(cfg) && Reachable(cfg, s) && ClaimStep(s, p, t)
    ensures var at, now := s.procs[p].at, s.procs[p].now;
            && at.id in s.db.rows && s.db.rows[at.id].op.wallet == at.wallet
            && (p in t.procs <==> DueAt(s.db.rows[at.id], now))
            && (p in t.procs ==>
                  t.procs[p] == Moving(ByResume, at.id, s.db.rows[at.id], s.db.wallets[at.wallet], now, Begun))
  {
    hide Reachable, Tables, AwakeOn, Exclusive, BookOf, History, AnswerLogged, Unblocked;
    ReachableIsSafe(cfg, s);
    assert ProcOk(cfg, s.db, s.clock, s.procs[p]);
  }

  /** A committed transaction carries a next attempt exactly when it is parked,
      and that is no later than its deadline or is already due. */
  lemma SchedulesHold(cfg: Config, s: State, id: TransactionId)
    requires ValidConfig(cfg) && Reachable(cfg, s) && id in s.db.rows
    ensures var r := s.db.rows[id];
            && r.status != Pending
            && (r.nextAttempt.Some? <==> r.status == PendingReference)
            && (r.status == PendingReference ==>
                  r.deadline.Some? && (r.nextAttempt.value <= r.deadline.value || r.nextAttempt.value <= s.clock))
  {
    hide Reachable, AwakeOn, Exclusive, BookOf, History, AnswerLogged, ProcOk, KeysUnique, ReversalRules, Ledgers, Nets, WalletsSound, InboxBacked;
    ReachableIsSafe(cfg, s);
    assert RowShape(s.db.rows[id], s.clock);
  }

  /** The defect path spends no attempt and moves no money: it reschedules within
      the deadline or, past it, fails. */
  lemma DefectsCountNothing(cfg: Config, s: State, t: State, p: Pid, reported: bool)
    requires ValidConfig(cfg) && Reachable(cfg, s) && CommitStep(s, p, reported, t)
    requires s.procs[p].Moving? && s.procs[p].stage.Deferring?
    ensures var m := s.procs[p];
            && t.db == s.db.(rows := s.db.rows[m.id := t.db.rows[m.id]])
            && m.id in s.db.rows && t.db.rows[m.id].attempts == s.db.rows[m.id].attempts
            && (var late := s.db.rows[m.id].deadline.Some? && m.now >= s.db.rows[m.id].deadline.value;
                && t.db.rows[m.id].status == (if late then Failed else PendingReference)
                && (late ==> t.db.rows[m.id].nextAttempt == None && t.db.rows[m.id].updatedAt == m.now)
                && (!late ==>
                      && t.db.rows[m.id] == s.db.rows[m.id].(nextAttempt := t.db.rows[m.id].nextAttempt)
                      && Backoff.OnTime(cfg.backoff, s.db.rows[m.id].attempts, m.now, s.db.rows[m.id].deadline,
                                        t.db.rows[m.id].nextAttempt)))
  {
    hide Reachable, AwakeOn, Exclusive, BookOf, History, AnswerLogged, Merge, RowShape, Backoff.Next, Backoff.OnTime, KeysUnique, ReversalRules, Ledgers, Nets, WalletsSound, InboxBacked;
    ReachableIsSafe(cfg, s);
    var base := s.procs[p].base;
    Backoff.NextIsOnTime(cfg.backoff, base.attempts, s.procs[p].now, base.deadline, s.procs[p].id);
    assert ProcOk(cfg, s.db, s.clock, s.procs[p]) && DeferReady(cfg, s.db, s.clock, s.procs[p]);
    DeferralFacts(cfg, s.db, s.clock, s.procs[p]);
  }

  // ----- Reversals -----------------------------------------------------------

  /** In every view read, Reversed says what the plain history says. */
  lemma ViewFlagsAreHistory(cfg: Config, s: State, v: View, p: Provider, e: ExternalId, r: Reversal)
    requires ValidConfig(cfg) && Reachable(cfg, s) && IsView(s.db, p, e, Some(v)) && r in v.reversals
    ensures r.reversed <==> Undone(s.db, r.id)
  {
    hide Reachable, AwakeOn, Exclusive, BookOf, History, AnswerLogged, ProcOk, KeysUnique, ReversalRules, Ledgers, Nets, WalletsSound, InboxBacked, RowShapes, HoldsNothing, Undone;
    ReachableIsSafe(cfg, s);
    assert ReversesIn(s.db, r.id, v.id);
    ReversedFlagIsHistory(s.db, r.id, v.id);
  }

  /** What stands in a reversal's way is plain history: a processed reversal of its
      reference that is of its own kind, or that no processed reversal has undone. */
  lemma WhatStandsInTheWay(cfg: Config, s: State, p: Pid, v: View)
    requires ValidConfig(cfg) && Reachable(cfg, s) && p in s.procs && s.procs[p].Moving? && s.procs[p].stage == Viewed(Some(v))
    requires v.row.op.wallet == s.procs[p].base.op.wallet
    ensures (exists i :: 0 <= i < |v.reversals| && InTheWay(v.reversals[i], s.procs[p].base.op.kind)) <==>
            (exists h :: && h in s.db.rows && s.db.rows[h].status == Processed && s.db.rows[h].resolved == Some(v.id)
                         && (s.db.rows[h].op.kind == Refund || s.db.rows[h].op.kind == Rollback)
                         && (s.db.rows[h].op.kind == s.procs[p].base.op.kind || !Undone(s.db, h)))
    ensures v.id in s.db.rows && v.row == s.db.rows[v.id]
  {
    hide Reachable, AwakeOn, Exclusive, BookOf, History, AnswerLogged, KeysUnique, ReversalRules, Ledgers, Nets, WalletsSound, InboxBacked, RowShapes, HoldsNothing, Undone, CallerOk;
    ReachableIsSafe(cfg, s);
    assert ProcOk(cfg, s.db, s.clock, s.procs[p]);
    StandsInTheWay(s.db, v, s.procs[p].base.op.kind);
  }

  lemma StandsInTheWay(db: DB, v: View, k: Kind)
    requires ReversalRules(db) && ReversalsOf(db, v)
    ensures (exists i :: 0 <= i < |v.reversals| && InTheWay(v.reversals[i], k)) <==>
            (exists h :: && h in db.rows && db.rows[h].status == Processed && db.rows[h].resolved == Some(v.id)
                         && (db.rows[h].op.kind == Refund || db.rows[h].op.kind == Rollback)
                         && (db.rows[h].op.kind == k || !Undone(db, h)))
  {
    hide ReversalRules, HoldsNothing, Undone;
    if i :| 0 <= i < |v.reversals| && InTheWay(v.reversals[i], k) {
      var r := v.reversals[i];
      assert r in v.reversals && ReversesIn(db, r.id, v.id);
      ReversedFlagIsHistory(db, r.id, v.id);
      assert r.id in db.rows && db.rows[r.id].resolved == Some(v.id);
    }
    if h :| && h in db.rows && db.rows[h].status == Processed && db.rows[h].resolved == Some(v.id)
            && (db.rows[h].op.kind == Refund || db.rows[h].op.kind == Rollback)
            && (db.rows[h].op.kind == k || !Undone(db, h)) {
      assert ReversesIn(db, h, v.id) && Listed(v, h);
      ReversedFlagIsHistory(db, h, v.id);
      var i :| 0 <= i < |v.reversals| && v.reversals[i].id == h;
      assert v.reversals[i] in v.reversals && InTheWay(v.reversals[i], k);
    }
  }

  /** Every committed movement numbers one event, and a second when money moved. */
  lemma EventsAreNumbered(cfg: Config, s: State, t: State, p: Pid, reported: bool)
    requires ValidConfig(cfg) && Reachable(cfg, s) && CommitStep(s, p, reported, t)
    requires s.procs[p].Moving? && s.procs[p].stage.Appended?
    ensures var w := s.procs[p].base.op.wallet;
            CounterOf(t.db, w) == CounterOf(s.db, w) + (if |LedgerOf(t.db, w)| > |LedgerOf(s.db, w)| then 2 else 1)
  {
    hide Reachable, Tables, AwakeOn, Exclusive, BookOf, History, AnswerLogged, CallerOk, ContinueOf, SettleOf, ViewSound, Store.Wake;
    ReachableIsSafe(cfg, s);
    var m := s.procs[p];
    assert ProcOk(cfg, s.db, s.clock, m);
    SettleWallet(cfg, s.db, m, m.stage.out);
    WakeWallet(s.db, SettleOf(cfg, s.db, m, m.stage.out).value, m.stage.out.row, m.now);
    StagesEntry(cfg, s.db, s.clock, m);
  }

  /** What opening a wallet commits: the wallet at version one, and with money in it
      a processed opening, its one entry and two events, and nothing else. */
  lemma OpeningsWriteExactly(cfg: Config, s: State, t: State, p: Pid, reported: bool)
    requires ValidConfig(cfg) && Reachable(cfg, s) && CommitStep(s, p, reported, t) && s.procs[p].OpeningWallet?
    ensures var o, now := s.procs[p].open, s.procs[p].step.now;
            && o.wallet !in s.db.wallets
            && t.db.wallets == s.db.wallets[o.wallet := Wallet(o.player, o.currency, o.amount, 1, now)]
            && t.db.holds == s.db.holds && t.db.inbox == s.db.inbox
            && (if o.amount == 0 then t.db.rows == s.db.rows && t.db.ledger == s.db.ledger && t.db.counters == s.db.counters
                else
                  && o.tx !in s.db.rows && o.tx in t.db.rows && t.db.rows == s.db.rows[o.tx := t.db.rows[o.tx]]
                  && t.db.rows[o.tx].status == Processed && t.db.rows[o.tx].result == Some(o.amount)
                  && t.db.rows[o.tx].op.kind == Opening && t.db.rows[o.tx].op.amount == o.amount
                  && t.db.rows[o.tx].op.wallet == o.wallet && t.db.rows[o.tx].op.player == o.player
                  && t.db.rows[o.tx].op.currency == o.currency && t.db.rows[o.tx].updatedAt == now
                  && t.db.ledger == s.db.ledger[o.wallet := [Entry(o.tx, Credit, o.amount, 0, o.amount, 1, now)]]
                  && CounterOf(t.db, o.wallet) == CounterOf(s.db, o.wallet) + 2)
  {
    hide Reachable, Tables, AwakeOn, Exclusive, BookOf, History, AnswerLogged;
    ReachableIsSafe(cfg, s);
    assert ProcOk(cfg, s.db, s.clock, s.procs[p]);
  }

  lemma StagesEntry(cfg: Config, db: DB, clock: Time, m: Proc)
    requires ValidConfig(cfg) && CommitReady(cfg, db, clock, m)
    ensures m.stage.delta.entry == m.stage.out.entry && m.stage.delta.wallet == m.base.op.wallet
  {
    hide MovingOk;
    ReadyStages(cfg, db, clock, m);
  }

  /** A bet or a win with everything that reverses it comes to its own movement
      or to nothing, in at most three reversing movements. */
  lemma FamiliesNet(cfg: Config, s: State, b: TransactionId)
    requires ValidConfig(cfg) && Reachable(cfg, s) && IsBase(s.db, b)
    ensures var net := Net(LedgerOf(s.db, s.db.rows[b].op.wallet), Family(s.db, b));
            net == 0 || net == OwnMovement(s.db.rows[b].op)
    ensures OwnMovement(s.db.rows[b].op) == if s.db.rows[b].op.kind == Bet then -s.db.rows[b].op.amount else s.db.rows[b].op.amount
    ensures |Family(s.db, b) - {b}| <= 3
  {
    hide Reachable, AwakeOn, Exclusive, BookOf, History, AnswerLogged, ProcOk, KeysUnique, ReversalRules, Ledgers, Nets, WalletsSound, InboxBacked, RowShapes, Net, Family;
    ReachableIsSafe(cfg, s);
    FamilyNetsToItsOwnMovementOrNothing(s.db, b);
  }

  /** In every reachable state the ledgers are what reconciliation asks for. */
  lemma LedgersHold(cfg: Config, s: State, w: WalletId)
    requires ValidConfig(cfg) && Reachable(cfg, s)
    ensures Ledgers(s.db)
    ensures w in s.db.wallets ==> s.db.wallets[w].balance == Sum(LedgerOf(s.db, w))
  {
    hide Reachable, AwakeOn, Exclusive, BookOf, History, AnswerLogged, ProcOk, KeysUnique, ReversalRules, Ledgers, Nets, WalletsSound, InboxBacked, RowShapes;
    ReachableIsSafe(cfg, s);
    if w in s.db.wallets {
      BalanceIsTheLedger(s.db, w);
    }
  }
}
