/**
 Reversals: the active_reversal index against the plain history, the indexes a
 settle can never hit, and what a bet or a win and everything that reverses it
 come to together.
 */
module Reversals {
  import opened Prelude
  import opened Domain
  import opened Store

  /** The flag read from active_reversal says exactly what the history says. */
  lemma ReversedFlagIsHistory(db: DB, h: TransactionId, t: TransactionId)
    requires ReversalRules(db) && ReversesIn(db, h, t)
    ensures HoldsNothing(db, h) <==> Undone(db, h)
  {
    assert !Undone(db, h) ==> t in db.holds && db.holds[t].reversal == h;
  }

  // ----- One step of the history ---------------------------------------------

  /** Only `id` may newly reach PROCESSED, and nothing settled is rewritten. */
  ghost predicate SettlesOnly(db: DB, d: Delta, id: TransactionId) {
    && KeepsSettled(db, d)
    && (forall x :: x in d.rows && x != id ==> d.rows[x].status != Processed)
  }

  /** after is db with settled rows kept, and possibly one reversal added:
      `id`, of t, when `added` says so. */
  ghost predicate HistoryStep(db: DB, after: DB, added: bool, id: TransactionId, t: TransactionId) {
    && (forall x :: x in db.rows && db.rows[x].status == Processed ==> x in after.rows && after.rows[x] == db.rows[x])
    && (forall h, x :: ReversesIn(after, h, x) <==> ReversesIn(db, h, x) || (added && h == id && x == t))
    && (added ==> id in after.rows && (id in db.rows ==> db.rows[id].status != Processed))
  }

  lemma MergeIsHistoryStep(db: DB, d: Delta, id: TransactionId, t: TransactionId)
    requires SettlesOnly(db, d, id)
    requires id in d.rows && TakesHold(d.rows[id]) ==> d.rows[id].resolved == Some(t)
    ensures HistoryStep(db, Merge(db, d), id in d.rows && TakesHold(d.rows[id]), id, t)
  {
  }

  lemma UndoneStep(db: DB, after: DB, added: bool, id: TransactionId, t: TransactionId)
    requires Resolution(db) && HistoryStep(db, after, added, id, t)
    ensures forall h :: Undone(after, h) <==> Undone(db, h) || (added && h == t)
    ensures added ==> !Undone(db, id)
  {
    forall h
      ensures Undone(after, h) <==> Undone(db, h) || (added && h == t)
    {
      assert added ==> ReversesIn(after, id, t);
      if Undone(db, h) {
        var u :| ReversesIn(db, u, h);
        assert ReversesIn(after, u, h);
      }
    }
  }

  lemma ResolutionStep(db: DB, after: DB, added: bool, id: TransactionId, t: TransactionId)
    requires Resolution(db) && HistoryStep(db, after, added, id, t)
    requires added ==> ResolvesTo(db, after.rows[id].op, t)
    ensures Resolution(after)
  {
    forall h, x | ReversesIn(after, h, x)
      ensures ResolvesTo(after, after.rows[h].op, x)
    {
      if added && h == id && x == t {
      } else {
        assert ReversesIn(db, h, x) && ResolvesTo(db, db.rows[h].op, x);
      }
    }
  }

  lemma OnePerKindStep(db: DB, after: DB, added: bool, id: TransactionId, t: TransactionId)
    requires OnePerKind(db) && HistoryStep(db, after, added, id, t)
    requires added ==> forall h :: ReversesIn(db, h, t) ==> db.rows[h].op.kind != after.rows[id].op.kind
    ensures OnePerKind(after)
  {
    forall a, b, x | ReversesIn(after, a, x) && ReversesIn(after, b, x) && after.rows[a].op.kind == after.rows[b].op.kind
      ensures a == b
    {
      assert (ReversesIn(db, a, x) || a == id) && (ReversesIn(db, b, x) || b == id);
    }
  }

  /** The trigger's delete and insert, as they change who holds what. */
  ghost predicate HoldsMove(db: DB, after: DB, id: TransactionId, t: TransactionId) {
    && t !in db.holds
    && (forall x :: x in after.holds <==> x == t || (x in db.holds && db.holds[x].reversal != t))
    && (forall x :: x in after.holds && x != t ==> after.holds[x] == db.holds[x])
    && t in after.holds && after.holds[t].reversal == id
    && id in after.rows && after.holds[t].kind == after.rows[id].op.kind
  }

  lemma HoldsStep(db: DB, after: DB, id: TransactionId, t: TransactionId)
    requires Resolution(db) && HoldsExact(db)
    requires HistoryStep(db, after, true, id, t) && HoldsMove(db, after, id, t)
    requires t in db.rows && db.rows[t].status == Processed
    ensures HoldsExact(after)
  {
    UndoneStep(db, after, true, id, t);
    forall h, x | ReversesIn(after, h, x) && !Undone(after, h)
      ensures x in after.holds && after.holds[x].reversal == h
    {
      assert ReversesIn(db, h, x) || h == id;
    }
  }

  // ----- Whole merges --------------------------------------------------------

  /** The owner of every row a delta writes. */
  ghost predicate OwnsRows(db: DB, d: Delta) {
    && (forall x :: x in d.rows ==>
          d.rows[x].op.wallet in db.wallets && db.wallets[d.rows[x].op.wallet].player == d.rows[x].op.player)
    && (d.moved.Some? ==> d.wallet in db.wallets && d.moved.value.player == db.wallets[d.wallet].player)
  }

  lemma MergeKeepsOwners(db: DB, d: Delta)
    requires RowsOwned(db) && OwnsRows(db, d)
    ensures RowsOwned(Merge(db, d))
  {
  }

  /** A delta that takes no hold leaves every rule about reversals standing. */
  lemma PlainMergeKeepsReversals(db: DB, d: Delta, id: TransactionId)
    requires ReversalRules(db) && SettlesOnly(db, d, id) && OwnsRows(db, d)
    requires d.released == {} && d.held == map[]
    requires id in d.rows ==> !TakesHold(d.rows[id])
    ensures ReversalRules(Merge(db, d))
  {
    MergeKeepsOwners(db, d);
    MergeIsHistoryStep(db, d, id, id);
    NothingHeld(db, d);
    PlainStep(db, Merge(db, d), id);
  }

  lemma NothingHeld(db: DB, d: Delta)
    requires d.released == {} && d.held == map[]
    ensures Merge(db, d).holds == db.holds
  {
  }

  lemma PlainStep(db: DB, after: DB, id: TransactionId)
    requires ReversalRules(db) && HistoryStep(db, after, false, id, id) && after.holds == db.holds
    ensures Resolution(after) && OnePerKind(after) && HoldsExact(after)
  {
    ResolutionStep(db, after, false, id, id);
    OnePerKindStep(db, after, false, id, id);
    UndoneStep(db, after, false, id, id);
  }

  /** What a delta that takes one hold has established. */
  ghost predicate TakesOneHold(db: DB, d: Delta, id: TransactionId, t: TransactionId) {
    && SettlesOnly(db, d, id) && id in d.rows && Reverses(d.rows[id], t)
    && !KindTaken(db, id, d.rows[id].op.kind, t)
    && t !in db.holds
    && d.released == ReleasedBy(db, t)
    && d.held == map[t := Hold(id, d.rows[id].op.kind)]
    && ResolvesTo(db, d.rows[id].op, t)
  }

  lemma HoldingMergeKeepsReversals(db: DB, d: Delta, id: TransactionId, t: TransactionId)
    requires ReversalRules(db) && OwnsRows(db, d) && TakesOneHold(db, d, id, t)
    ensures ReversalRules(Merge(db, d))
  {
    MergeKeepsOwners(db, d);
    MergeIsHistoryStep(db, d, id, t);
    OneHeld(db, d, id, t);
    HoldingStep(db, Merge(db, d), id, t);
  }

  lemma OneHeld(db: DB, d: Delta, id: TransactionId, t: TransactionId)
    requires TakesOneHold(db, d, id, t)
    ensures HoldsMove(db, Merge(db, d), id, t) && Merge(db, d).rows[id] == d.rows[id]
    ensures forall h :: ReversesIn(db, h, t) ==> db.rows[h].op.kind != d.rows[id].op.kind
  {
    assert forall h :: ReversesIn(db, h, t) ==> h != id;
  }

  lemma HoldingStep(db: DB, after: DB, id: TransactionId, t: TransactionId)
    requires ReversalRules(db) && HistoryStep(db, after, true, id, t) && HoldsMove(db, after, id, t)
    requires ResolvesTo(db, after.rows[id].op, t)
    requires forall h :: ReversesIn(db, h, t) ==> db.rows[h].op.kind != after.rows[id].op.kind
    ensures Resolution(after) && OnePerKind(after) && HoldsExact(after)
  {
    ResolutionStep(db, after, true, id, t);
    OnePerKindStep(db, after, true, id, t);
    HoldsStep(db, after, id, t);
  }
}
