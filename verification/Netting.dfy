/**
 What a bet or a win and everything that reverses it move together. Every
 statement is over the committed ledger: the sum of the entries of one family
 of transactions.
 */
module Netting {
  import opened Prelude
  import opened Domain
  import opened Store
  import opened Reversals

  /** Credits less debits over the entries of the given transactions. */
  function Net(l: seq<Entry>, f: set<TransactionId>): int {
    if l == [] then 0
    else Net(l[..|l| - 1], f) + (if l[|l| - 1].tx in f then SignedOf(l[|l| - 1]) else 0)
  }

  /** b itself, the reversals of b, and the reversals of those. */
  ghost predicate InFamily(db: DB, id: TransactionId, b: TransactionId) {
    || id == b
    || ReversesIn(db, id, b)
    || exists m :: ReversesIn(db, m, b) && ReversesIn(db, id, m)
  }

  ghost function Family(db: DB, b: TransactionId): set<TransactionId> {
    set id | id in db.rows && InFamily(db, id, b)
  }

  /** A processed bet or win: what reversals ultimately act on. */
  predicate IsBase(db: DB, b: TransactionId) {
    b in db.rows && db.rows[b].status == Processed && (db.rows[b].op.kind == Bet || db.rows[b].op.kind == Win)
  }

  function OwnMovement(op: Operation): int
    requires op.kind == Bet || op.kind == Win
  {
    Signed(DirectionOf(op.kind).value, op.amount)
  }

  /** A family nets to nothing while its base is held by a reversal, and to the
      base's own movement otherwise. */
  ghost predicate NetsFor(db: DB, b: TransactionId)
    requires IsBase(db, b)
  {
    Net(LedgerOf(db, db.rows[b].op.wallet), Family(db, b))
      == if b in db.holds then 0 else OwnMovement(db.rows[b].op)
  }

  ghost predicate Nets(db: DB) {
    forall b :: IsBase(db, b) ==> NetsFor(db, b)
  }

  lemma {:induction false} NetIgnores(l: seq<Entry>, f: set<TransactionId>, x: TransactionId)
    requires forall i :: 0 <= i < |l| ==> l[i].tx != x
    ensures Net(l, f + {x}) == Net(l, f)
  {
    if l != [] {
      NetIgnores(l[..|l| - 1], f, x);
    }
  }

  lemma {:induction false} NetOfNone(l: seq<Entry>, f: set<TransactionId>)
    requires forall i :: 0 <= i < |l| ==> l[i].tx !in f
    ensures Net(l, f) == 0
  {
    if l != [] {
      NetOfNone(l[..|l| - 1], f);
    }
  }

  lemma NetAppends(l: seq<Entry>, e: Entry, f: set<TransactionId>)
    ensures Net(l + [e], f) == Net(l, f) + (if e.tx in f then SignedOf(e) else 0)
  {
    assert (l + [e])[..|l|] == l;
  }

  // ----- One settled transaction ---------------------------------------------

  /** The ledger of every wallet is kept, with at most e appended to w's. */
  ghost predicate LedgerStep(db: DB, after: DB, w: WalletId, e: Option<Entry>) {
    && (forall x :: x != w || e.None? ==> LedgerOf(after, x) == LedgerOf(db, x))
    && (e.Some? ==> LedgerOf(after, w) == LedgerOf(db, w) + [e.value])
  }

  /** Everything one settled transaction changed, with the movement it made. */
  ghost predicate SettleStep(db: DB, after: DB, added: bool, id: TransactionId, t: TransactionId, e: Option<Entry>) {
    && HistoryStep(db, after, added, id, t)
    && id in after.rows && (id in db.rows ==> db.rows[id].status != Processed)
    && (forall x :: x in after.rows && x != id && after.rows[x].status == Processed ==> x in db.rows && db.rows[x] == after.rows[x])
    && LedgerStep(db, after, after.rows[id].op.wallet, e)
    && (if added then HoldsMove(db, after, id, t) && ResolvesTo(db, after.rows[id].op, t) else after.holds == db.holds)
    && (e.Some? ==> e.value.tx == id)
    && (added ==> e.Some? && IsReversal(after.rows[id].op.kind)
                  && SignedOf(e.value) == ReversalMovement(after.rows[id].op, db.rows[t].op))
    && (IsBase(after, id) ==> e.Some? && SignedOf(e.value) == OwnMovement(after.rows[id].op))
    && (added ==> !IsBase(after, id))
  }

  /** A refund credits; a rollback moves against what it undoes. */
  function ReversalMovement(op: Operation, target: Operation): int {
    if op.kind == Refund then op.amount
    else match DirectionOf(target.kind)
         case None => 0
         case Some(d) => Signed(Opposite(d), op.amount)
  }

  lemma FamilyStep(db: DB, after: DB, added: bool, id: TransactionId, t: TransactionId, b: TransactionId)
    requires Resolution(db) && HistoryStep(db, after, added, id, t)
    requires IsBase(db, b) && b != id
    requires forall x :: x in after.rows && x !in db.rows ==> x == id || after.rows[x].status != Processed
    requires added ==> ResolvesTo(db, after.rows[id].op, t)
    ensures Family(after, b) == if added && (t == b || ReversesIn(db, t, b)) then Family(db, b) + {id} else Family(db, b)
  {
    forall x
      ensures x in after.rows && InFamily(after, x, b) <==>
                (x in db.rows && InFamily(db, x, b)) || (added && x == id && (t == b || ReversesIn(db, t, b)))
    {
      Member(db, after, added, id, t, b, x);
    }
  }

  lemma Member(db: DB, after: DB, added: bool, id: TransactionId, t: TransactionId, b: TransactionId, x: TransactionId)
    requires Resolution(db) && HistoryStep(db, after, added, id, t)
    requires IsBase(db, b) && b != id
    requires added ==> ResolvesTo(db, after.rows[id].op, t)
    ensures x in after.rows && InFamily(after, x, b) <==>
              (x in db.rows && InFamily(db, x, b)) || (added && x == id && (t == b || ReversesIn(db, t, b)))
  {
    if x in after.rows && InFamily(after, x, b) && x != b && !ReversesIn(after, x, b) {
      var m :| ReversesIn(after, m, b) && ReversesIn(after, x, m);
      // Nothing reverses the new transaction yet: what is reversed was processed.
      assert ReversesIn(db, x, m) ==> m in db.rows && db.rows[m].status == Processed;
    }
    if x in db.rows && InFamily(db, x, b) && x != b && !ReversesIn(db, x, b) {
      var m :| ReversesIn(db, m, b) && ReversesIn(db, x, m);
      assert ReversesIn(after, m, b) && ReversesIn(after, x, m);
    }
    if added && x == id {
      assert ReversesIn(after, id, t);
      if ReversesIn(db, t, b) {
        assert ReversesIn(after, t, b);
      }
    }
  }

  /** A reversal that can still be undone has not been undone unless something
      holds it. */
  lemma UnheldIsNotUndone(db: DB, t: TransactionId, b: TransactionId)
    requires ReversalRules(db) && ReversesIn(db, t, b) && t !in db.holds
    ensures !Undone(db, t)
  {
  }

  lemma NewBaseNets(db: DB, after: DB, id: TransactionId, t: TransactionId, e: Option<Entry>)
    requires ReversalRules(db) && Ledgers(db) && HoldsExact(after) && SettleStep(db, after, false, id, t, e)
    requires IsBase(after, id)
    ensures NetsFor(after, id)
  {
    hide Ledgers, Net, RowsOwned, OnePerKind;
    var l := LedgerOf(db, after.rows[id].op.wallet);
    assert forall h :: ReversesIn(after, h, id) ==> ResolvesTo(db, db.rows[h].op, id);
    assert forall h :: !ReversesIn(after, h, id);
    assert Family(after, id) == {id};
    NotInLedger(db, after.rows[id].op.wallet, id);
    NetOfNone(l, {id});
    NetAppends(l, e.value, {id});
  }

  lemma NotInLedger(db: DB, w: WalletId, id: TransactionId)
    requires Ledgers(db) && (id in db.rows ==> db.rows[id].status != Processed)
    ensures forall i :: 0 <= i < |LedgerOf(db, w)| ==> LedgerOf(db, w)[i].tx != id
  {
    assert LedgerFor(db, w);
    forall i | 0 <= i < |LedgerOf(db, w)|
      ensures LedgerOf(db, w)[i].tx != id
    {
      assert OnWallet(db, LedgerOf(db, w)[i].tx, w);
    }
  }

  lemma OldBaseNets(
    db: DB, after: DB, added: bool, id: TransactionId, t: TransactionId, e: Option<Entry>, b: TransactionId)
    requires ReversalRules(db) && Ledgers(db) && SettleStep(db, after, added, id, t, e)
    requires IsBase(db, b) && NetsFor(db, b) && b != id
    ensures NetsFor(after, b)
  {
    hide Ledgers, Net, RowsOwned, OnePerKind, HoldsExact, HoldsMove;
    FamilyStep(db, after, added, id, t, b);
    var w := db.rows[b].op.wallet;
    var l, f := LedgerOf(db, w), Family(db, b);
    NotInLedger(db, w, id);
    NetIgnores(l, f, id);
    if e.Some? {
      NetAppends(l, e.value, Family(after, b));
    }
    assert id !in f by {
      assert forall m :: !ReversesIn(db, id, m);
    }
    if added {
      HeldStep(db, after, id, t, b);
    }
  }

  /** Who holds b before and after a reversal of t, and on which wallet. */
  lemma HeldStep(db: DB, after: DB, id: TransactionId, t: TransactionId, b: TransactionId)
    requires ReversalRules(db) && HoldsMove(db, after, id, t) && ResolvesTo(db, after.rows[id].op, t)
    requires IsBase(db, b) && b != id
    ensures t == b ==> b !in db.holds && b in after.holds
    ensures ReversesIn(db, t, b) ==>
              && b in db.holds && b !in after.holds
              && db.rows[b].op.kind == Bet && db.rows[t].op.kind == Refund && after.rows[id].op.kind == Rollback
              && db.rows[b].op.wallet == after.rows[id].op.wallet
              && db.rows[b].op.amount == after.rows[id].op.amount
    ensures t != b && !ReversesIn(db, t, b) ==> (b in after.holds <==> b in db.holds)
  {
    if ReversesIn(db, t, b) {
      UnheldIsNotUndone(db, t, b);
      assert ResolvesTo(db, db.rows[t].op, b);
    }
  }

  /** The step every settled transaction takes keeps every family netting. */
  lemma SettleKeepsNets(db: DB, after: DB, added: bool, id: TransactionId, t: TransactionId, e: Option<Entry>)
    requires ReversalRules(db) && Ledgers(db) && Nets(db) && HoldsExact(after)
    requires SettleStep(db, after, added, id, t, e)
    ensures Nets(after)
  {
    forall b | IsBase(after, b)
      ensures NetsFor(after, b)
    {
      if b == id {
        NewBaseNets(db, after, id, t, e);
      } else {
        OldBaseNets(db, after, added, id, t, e, b);
      }
    }
  }

  // ----- What it comes to ----------------------------------------------------

  lemma Bounded4(f: set<TransactionId>, a: TransactionId, b: TransactionId, c: TransactionId, d: TransactionId)
    requires f <= {a, b, c, d}
    ensures |f| <= 4
  {
    Smaller(f, {a, b, c, d});
    assert {a, b, c, d} == {a} + {b} + {c} + {d};
  }

  lemma {:induction false} Smaller(f: set<TransactionId>, g: set<TransactionId>)
    requires f <= g
    ensures |f| <= |g|
  {
    if f != {} {
      var x :| x in f;
      Smaller(f - {x}, g - {x});
    }
  }

  /** The one processed reversal of t of kind k, or t itself when there is none. */
  ghost function TheReversal(db: DB, t: TransactionId, k: Kind): TransactionId {
    if exists r: TransactionId :: ReversesIn(db, r, t) && db.rows[r].op.kind == k
    then var r: TransactionId :| ReversesIn(db, r, t) && db.rows[r].op.kind == k; r
    else t
  }

  lemma ReversalIsTheOne(db: DB, x: TransactionId, t: TransactionId)
    requires OnePerKind(db) && ReversesIn(db, x, t)
    ensures x == TheReversal(db, t, db.rows[x].op.kind)
  {
  }

  lemma FamilyIsSmall(db: DB, b: TransactionId)
    requires ReversalRules(db) && IsBase(db, b)
    ensures b in Family(db, b) && |Family(db, b) - {b}| <= 3
  {
    var refund, rollback := TheReversal(db, b, Refund), TheReversal(db, b, Rollback);
    var undo := TheReversal(db, refund, Rollback);
    forall x | x in Family(db, b)
      ensures x in {b, refund, rollback, undo}
    {
      if ReversesIn(db, x, b) {
        ReversalIsTheOne(db, x, b);
      } else if x != b {
        var m :| ReversesIn(db, m, b) && ReversesIn(db, x, m);
        ReversalIsTheOne(db, m, b);
        ReversalIsTheOne(db, x, m);
        assert ResolvesTo(db, db.rows[x].op, m);
      }
    }
    Bounded4(Family(db, b), b, refund, rollback, undo);
  }

  /** A bet or win with everything that reverses it moves its own amount or
      nothing at all, through at most three reversing transactions. */
  lemma FamilyNetsToItsOwnMovementOrNothing(db: DB, b: TransactionId)
    requires ReversalRules(db) && Nets(db) && IsBase(db, b)
    ensures var net := Net(LedgerOf(db, db.rows[b].op.wallet), Family(db, b));
            && (b in db.holds ==> net == 0)
            && (b !in db.holds ==> net == OwnMovement(db.rows[b].op))
    ensures |Family(db, b) - {b}| <= 3
  {
    assert NetsFor(db, b);
    FamilyIsSmall(db, b);
  }
}
