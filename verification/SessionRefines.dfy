/** The statements a transaction issues in place leave what the write path
    stages: an inserted row that is not yet committed changes no answer. */
module SessionRefines {
  import opened Prelude
  import opened Domain
  import opened Store
  import opened Movement
  import opened MovementInvariant
  import opened MovementDelta
  import opened MovementSteps
  import opened Session

  /** What a movement's own transaction sees: the committed tables and the row it
      inserted or claimed. */
  function OwnSight(db: DB, m: Proc): DB
    requires m.Moving?
  {
    db.(rows := db.rows[m.id := m.base])
  }

  lemma OwnRowTakesNoKind(db: DB, m: Proc, k: Kind, t: TransactionId)
    requires m.Moving?
    ensures KindTaken(OwnSight(db, m), m.id, k, t) <==> KindTaken(db, m.id, k, t)
  {
    var seen := OwnSight(db, m);
    forall h | h != m.id
      ensures (h in seen.rows && Reverses(seen.rows[h], t)) <==> (h in db.rows && Reverses(db.rows[h], t))
    {
    }
  }

  lemma OwnRowIsInvisible(db: DB, m: Proc, out: Outcome, next: Option<Time>)
    requires m.Moving?
    ensures Store.Settle(OwnSight(db, m), m.id, m.base, out, next) == Store.Settle(db, m.id, m.base, out, next)
  {
    hide KindTaken, ChainAccepts;
    var row := SettledRow(out, next);
    if TakesHold(row) {
      OwnRowTakesNoKind(db, m, row.op.kind, row.resolved.value);
    }
  }

  lemma OwnRowWakesNobody(db: DB, m: Proc, d: Delta, row: Row, now: Time)
    requires m.Moving? && m.id in d.rows
    ensures Store.Wake(OwnSight(db, m), d, row, now) == Store.Wake(db, d, row, now)
  {
    assert OwnSight(db, m).rows + d.rows == db.rows + d.rows;
  }

  lemma MergeOverOwnRow(db: DB, m: Proc, d: Delta)
    requires m.Moving? && m.id in d.rows
    ensures Merge(OwnSight(db, m), d) == Merge(db, d)
  {
    assert OwnSight(db, m).rows + d.rows == db.rows + d.rows;
  }

  /** commitOutcome run in place over what its transaction sees is accepted, and
      its result is the committed tables with the staged delta published. */
  lemma CommitOutcomeIsTheStagedDelta(cfg: Config, db: DB, clock: Time, m: Proc)
    requires ValidConfig(cfg) && CommitReady(cfg, db, clock, m)
    ensures var next := NextAttempt(cfg, m.id, m.stage.out, m.now);
            var seen := OwnSight(db, m);
            && DoorAnswer(seen, m.id, m.stage.out, next) == None
            && Merge(seen, Staged(seen, m.id, m.stage.out, next, m.now)) == Merge(db, m.stage.delta)
  {
    hide Store.Settle, Store.Wake, Merge, ViewSound, CallerOk, ContinueOf, NextAttempt;
    var out, seen := m.stage.out, OwnSight(db, m);
    var next := NextAttempt(cfg, m.id, out, m.now);
    OwnRowIsInvisible(db, m, out, next);
    SettleRows(cfg, db, m, out);
    var d := SettleOf(cfg, db, m, out).value;
    assert m.id in d.rows;
    OwnRowWakesNobody(db, m, d, out.row, m.now);
    WakeKeepsOwnRow(db, d, m.id, out.row, m.now);
    MergeOverOwnRow(db, m, m.stage.delta);
    assert seen.rows[m.id] == m.base;
  }

  lemma WakeKeepsOwnRow(db: DB, d: Delta, id: TransactionId, row: Row, now: Time)
    requires id in d.rows
    ensures id in Store.Wake(db, d, row, now).rows
  {
  }

  /** The two statements on the inbox, taken with no other consumer between them,
      leave the submission where ClaimMessage does; and what the submission then
      commits is what ClaimMessage wrote. */
  lemma ClaimMessageIsTheInboxSteps(s: State, t: State, u: State, p: Pid)
    requires FindInboxStep(s, p, t)
    requires if t.procs[p].Submitting? && t.procs[p].point.InboxMissed? then RecordInboxStep(t, p, u) else u == t
    ensures u.procs[p] == AfterTheInbox(s.db, s.procs[p].cmd) && u.db == s.db
    ensures u.procs[p].Submitting? ==> ClaimOk(s.db, s.procs[p].cmd, u.procs[p].point.claimed)
  {
    hide Unblocked;
  }

  /** The insert does nothing exactly when its identifier is taken or the machine's
      insert would lose on one of its two keys. */
  lemma ConflictsAreClashes(db: DB, id: TransactionId, op: Operation)
    ensures Conflicts(db, id, op) <==> id in db.rows || Clashes(db, op)
  {
    if r: TransactionId :| KeyAt(db, r, op.provider, op.key) || ExternalAt(db, r, op.provider, op.external) {
      assert r in db.rows && External(db.rows[r]);
    }
    forall r | r in db.rows && External(db.rows[r]) && db.rows[r].op.provider == op.provider
               && (db.rows[r].op.key == op.key || db.rows[r].op.external == op.external)
      ensures KeyAt(db, r, op.provider, op.key) || ExternalAt(db, r, op.provider, op.external)
    {
    }
  }
}
