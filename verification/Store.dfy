/**
 The committed tables, and the statements a movement transaction issues
 (internal/adapters/postgres). A statement yields the rows it writes, as a
 Delta that stays private to its transaction until Merge publishes it. The
 triggers and constraints a statement meets are part of the statement.
 */
module Store {
  import opened Prelude
  import opened Domain

  type MessageId = nat

  /** A row of active_reversal: which reversal holds a reference. */
  datatype Hold = Hold(reversal: TransactionId, kind: Kind)

  /** counters is outbox_aggregate_sequence: how far each wallet's event
      numbering has got. The inbox records a message with its body. */
  datatype DB = DB(
    rows: map<TransactionId, Row>, wallets: map<WalletId, Wallet>,
    ledger: map<WalletId, seq<Entry>>, holds: map<TransactionId, Hold>,
    inbox: map<MessageId, Operation>, counters: map<WalletId, nat>)

  const EMPTY := DB(map[], map[], map[], map[], map[], map[])

  /** The uncommitted writes of one movement on one wallet. */
  datatype Delta = Delta(
    wallet: WalletId, rows: map<TransactionId, Row>, moved: Option<Wallet>, entry: Option<Entry>,
    released: set<TransactionId>, held: map<TransactionId, Hold>, counter: Option<nat>)

  /** The refusals a settle can meet: the transition guard, the version
      condition, either reversal index, the maintainer's kind rule, a clock guard,
      the ledger chain. */
  datatype SettleError = GuardRefused | LostUpdate | AlreadyReversed | NotReversible | ClockRefused | ChainRefused

  function LedgerOf(db: DB, w: WalletId): seq<Entry> {
    if w in db.ledger then db.ledger[w] else []
  }

  function CounterOf(db: DB, w: WalletId): nat {
    if w in db.counters then db.counters[w] else 0
  }

  function Merge(db: DB, d: Delta): DB {
    db.(rows := db.rows + d.rows,
        wallets := if d.moved.Some? then db.wallets[d.wallet := d.moved.value] else db.wallets,
        ledger := if d.entry.Some? then db.ledger[d.wallet := LedgerOf(db, d.wallet) + [d.entry.value]] else db.ledger,
        holds := (db.holds - d.released) + d.held,
        counters := if d.counter.Some? then db.counters[d.wallet := d.counter.value] else db.counters)
  }

  // ----- What the rows say ---------------------------------------------------

  predicate External(r: Row) { r.op.kind != Opening }

  predicate OnWallet(db: DB, id: TransactionId, w: WalletId) {
    id in db.rows && db.rows[id].op.wallet == w
  }

  /** id is the row a provider's idempotency key is bound to. */
  predicate KeyAt(db: DB, id: TransactionId, p: Provider, k: IdempotencyKey) {
    id in db.rows && External(db.rows[id]) && db.rows[id].op.provider == p && db.rows[id].op.key == k
  }

  /** id is the row a provider's external id names. */
  predicate ExternalAt(db: DB, id: TransactionId, p: Provider, e: ExternalId) {
    id in db.rows && External(db.rows[id]) && db.rows[id].op.provider == p && db.rows[id].op.external == e
  }

  predicate Reverses(r: Row, t: TransactionId) {
    r.status == Processed && IsReversal(r.op.kind) && r.resolved == Some(t)
  }

  /** h is a processed reversal that resolved to t. */
  predicate ReversesIn(db: DB, h: TransactionId, t: TransactionId) {
    h in db.rows && Reverses(db.rows[h], t)
  }

  /** The plain history: some processed reversal resolved to t. */
  ghost predicate Undone(db: DB, t: TransactionId) {
    exists u :: ReversesIn(db, u, t)
  }

  /** The indexed answer: no row of active_reversal names h as its holder. */
  predicate HoldsNothing(db: DB, h: TransactionId) {
    forall t :: t in db.holds ==> db.holds[t].reversal != h
  }

  // ----- ReferenceFor --------------------------------------------------------

  /** The view selectReference builds: the row under (p, e) and every processed
      reversal resolved to it, flagged from active_reversal. */
  ghost predicate IsView(db: DB, p: Provider, e: ExternalId, view: Option<View>) {
    match view
    case None => forall t :: !ExternalAt(db, t, p, e)
    case Some(v) =>
      && ExternalAt(db, v.id, p, e)
      && v.row == db.rows[v.id]
      && ReversalsOf(db, v)
  }

  ghost predicate ReversalsOf(db: DB, v: View) {
    && (forall r :: r in v.reversals ==>
          ReversesIn(db, r.id, v.id) && r.row == db.rows[r.id] && r.reversed == HoldsNothing(db, r.id))
    && (forall h :: ReversesIn(db, h, v.id) ==> Listed(v, h))
  }

  predicate Listed(v: View, h: TransactionId) {
    exists i :: 0 <= i < |v.reversals| && v.reversals[i].id == h
  }

  // ----- Settle --------------------------------------------------------------

  predicate EntryArithmetic(e: Entry) {
    e.amount > 0 && e.before >= 0 && 0 <= e.after <= MAX_MINOR && e.after == e.before + SignedOf(e)
  }

  /** ledger_chain and the ledger's unique keys. */
  predicate ChainAccepts(l: seq<Entry>, e: Entry, opening: bool) {
    && EntryArithmetic(e)
    && (forall i :: 0 <= i < |l| ==> l[i].tx != e.tx)
    && (if l == [] then e.version == (if opening then 1 else 2) && e.before == 0
        else e.version == l[|l| - 1].version + 1 && e.before == l[|l| - 1].after)
  }

  /** The row settleTransaction leaves behind. */
  function SettledRow(out: Outcome, next: Option<Time>): Row {
    out.row.(nextAttempt := if out.row.status == PendingReference then next else None)
  }

  predicate TakesHold(r: Row) {
    r.status == Processed && IsReversal(r.op.kind) && r.resolved.Some?
  }

  /** What maintain_active_reversal deletes for a reversal of r. */
  function ReleasedBy(db: DB, r: TransactionId): set<TransactionId> {
    set t | t in db.holds && db.holds[t].reversal == r
  }

  /** wager_transaction_one_successful_reversal_per_kind. */
  predicate KindTaken(db: DB, id: TransactionId, k: Kind, t: TransactionId) {
    exists h :: h in db.rows && h != id && Reverses(db.rows[h], t) && db.rows[h].op.kind == k
  }

  /** maintain_active_reversal, fired by the status reaching PROCESSED. */
  function TakeHold(db: DB, id: TransactionId, r: Row): Result<(set<TransactionId>, map<TransactionId, Hold>), SettleError>
    requires TakesHold(r)
  {
    var t := r.resolved.value;
    var released := ReleasedBy(db, t);
    if exists x :: x in released && (r.op.kind == Refund || db.holds[x].kind == Rollback) then Err(NotReversible)
    else if t in db.holds && t !in released then Err(AlreadyReversed)
    else Ok((released, map[t := Hold(id, r.op.kind)]))
  }

  /** wager_transaction_guard: a resolution is decided once, a terminal status is
      final, and nothing returns to PENDING. */
  predicate GuardRefuses(base: Row, row: Row) {
    || (base.resolved.Some? && row.resolved != base.resolved)
    || (row.status != base.status && (Terminal(base.status) || row.status == Pending))
  }

  /** wager_transaction_processed_in_wallet_currency. */
  predicate CurrencyRefuses(db: DB, row: Row) {
    row.status == Processed
    && !(row.op.wallet in db.wallets && db.wallets[row.op.wallet].currency == row.op.currency)
  }

  /** The transaction row: the transition and currency guards and the clock, the
      per-kind index, then the maintainer, which a status already PROCESSED does not fire. */
  function HoldOf(db: DB, id: TransactionId, base: Row, row: Row): Result<(set<TransactionId>, map<TransactionId, Hold>), SettleError> {
    if GuardRefuses(base, row) || CurrencyRefuses(db, row) then Err(GuardRefused)
    else if row.updatedAt < base.updatedAt then Err(ClockRefused)
    else if TakesHold(row) && KindTaken(db, id, row.op.kind, row.resolved.value) then Err(AlreadyReversed)
    else if TakesHold(row) && base.status != Processed then TakeHold(db, id, row)
    else Ok(({}, map[]))
  }

  /** The wallet, conditioned on its version and guarded by its clock, then the
      entry. */
  function MoneyRefused(db: DB, w: WalletId, e: Entry, opening: bool): Option<SettleError> {
    if w !in db.wallets || db.wallets[w].version + 1 != e.version then Some(LostUpdate)
    else if e.after != db.wallets[w].balance && e.at <= db.wallets[w].updatedAt then Some(ClockRefused)
    else if e.after == db.wallets[w].balance then Some(ChainRefused)
    else if !ChainAccepts(LedgerOf(db, w), e, opening) then Some(ChainRefused)
    else None
  }

  function MovedBy(wallet: Wallet, e: Entry): Wallet {
    wallet.(balance := e.after, version := e.version, updatedAt := e.at)
  }

  /** The settle door: the transaction row and its trigger, then the wallet
      conditioned on its version, then the ledger entry. The wallet row written
      comes out of the entry, which may have been computed from any read. */
  function Settle(db: DB, id: TransactionId, base: Row, out: Outcome, next: Option<Time>): Result<Delta, SettleError>
  {
    var w := base.op.wallet;
    var row := SettledRow(out, next);
    var hold := HoldOf(db, id, base, row);
    if hold.Err? then Err(hold.error)
    else
      var (released, held) := hold.value;
      var d := Delta(w, map[id := row], None, None, released, held, None);
      match out.entry
      case None => Ok(d)
      case Some(e) =>
        var refused := MoneyRefused(db, w, e, row.op.kind == Opening);
        if refused.Some? then Err(refused.value)
        else Ok(d.(moved := Some(MovedBy(db.wallets[w], e)), entry := Some(e)))
  }

  // ----- MakeDue, Append -----------------------------------------------------

  predicate WaitsFor(r: Row, w: WalletId, p: Provider, e: ExternalId) {
    && r.op.wallet == w && r.status == PendingReference
    && External(r) && r.op.provider == p && r.op.reference == Some(e)
  }

  /** MakeDue over what this transaction sees: the committed rows and its own. */
  function Woken(db: DB, d: Delta, op: Operation, at: Time): map<TransactionId, Row> {
    var seen := db.rows + d.rows;
    map id | id in seen && WaitsFor(seen[id], op.wallet, op.provider, op.external)
      :: seen[id].(nextAttempt := Some(at))
  }

  /** commitOutcome between the settle door and the outbox. */
  function Wake(db: DB, d: Delta, row: Row, now: Time): Delta {
    if row.status == Processed && External(row) then d.(rows := d.rows + Woken(db, d, row.op, now)) else d
  }

  function EventsOf(out: Outcome): nat {
    if out.entry.Some? then 2 else 1
  }

  /** Outbox.Append: the trigger numbers each event after the last one. */
  function Append(db: DB, d: Delta, n: nat): Delta {
    d.(counter := Some(CounterOf(db, d.wallet) + n))
  }

  // ----- Invariants of the committed tables ----------------------------------

  /** Each (provider, key) and each (provider, external id) names one row. */
  ghost predicate KeysUnique(db: DB) {
    && (forall a, b, p, k :: KeyAt(db, a, p, k) && KeyAt(db, b, p, k) ==> a == b)
    && (forall a, b, p, e :: ExternalAt(db, a, p, e) && ExternalAt(db, b, p, e) ==> a == b)
  }

  /** Every row belongs to an open wallet of its own player. */
  ghost predicate RowsOwned(db: DB) {
    forall id :: id in db.rows ==>
      db.rows[id].op.wallet in db.wallets && db.wallets[db.rows[id].op.wallet].player == db.rows[id].op.player
  }

  /** A processed reversal resolved a processed operation of its own wallet,
      provider and round, of a kind it may reverse, for exactly its amount. */
  ghost predicate Resolution(db: DB) {
    forall h, t :: ReversesIn(db, h, t) ==> ResolvesTo(db, db.rows[h].op, t)
  }

  ghost predicate ResolvesTo(db: DB, op: Operation, t: TransactionId) {
    && t in db.rows && db.rows[t].status == Processed && External(db.rows[t])
    && db.rows[t].op.wallet == op.wallet && db.rows[t].op.provider == op.provider
    && db.rows[t].op.round == op.round && db.rows[t].op.player == op.player
    && op.reference == Some(db.rows[t].op.external)
    && CanReverse(op.kind, db.rows[t].op.kind)
    && op.amount == db.rows[t].op.amount
  }

  /** A reference receives at most one successful reversal of each kind. */
  ghost predicate OnePerKind(db: DB) {
    forall a, b, t :: ReversesIn(db, a, t) && ReversesIn(db, b, t) && db.rows[a].op.kind == db.rows[b].op.kind ==> a == b
  }

  /** active_reversal is exactly the reversals that have not been undone. */
  ghost predicate HoldsExact(db: DB) {
    && (forall t :: t in db.holds ==>
          && ReversesIn(db, db.holds[t].reversal, t)
          && db.holds[t].kind == db.rows[db.holds[t].reversal].op.kind
          && !Undone(db, db.holds[t].reversal))
    && (forall h, t :: ReversesIn(db, h, t) && !Undone(db, h) ==> t in db.holds && db.holds[t].reversal == h)
  }

  ghost predicate ReversalRules(db: DB) {
    RowsOwned(db) && Resolution(db) && OnePerKind(db) && HoldsExact(db)
  }

  predicate Chain(l: seq<Entry>) {
    && (l != [] ==> l[0].before == 0 && 1 <= l[0].version <= 2)
    && (forall i :: 0 <= i < |l| ==> EntryArithmetic(l[i]))
    && (forall i {:trigger l[i].version} :: 0 <= i < |l| ==> l[i].version == l[0].version + i)
    && (forall i {:trigger l[i].before} :: 0 < i < |l| ==> l[i].before == l[i - 1].after)
  }

  predicate OneEntryEach(l: seq<Entry>) {
    forall i, j :: 0 <= i < j < |l| ==> l[i].tx != l[j].tx
  }

  predicate WalletMatches(wallet: Wallet, l: seq<Entry>) {
    if l == [] then wallet.balance == 0 && wallet.version == 1
    else wallet.balance == l[|l| - 1].after && wallet.version == l[|l| - 1].version
  }

  ghost predicate LedgerFor(db: DB, w: WalletId) {
    var l := LedgerOf(db, w);
    && Chain(l) && OneEntryEach(l)
    && (w in db.wallets ==> WalletMatches(db.wallets[w], l))
    && (forall i :: 0 <= i < |l| ==> OnWallet(db, l[i].tx, w) && db.rows[l[i].tx].status == Processed)
    && (forall i :: 0 <= i < |l| ==> l[i].tx in db.rows && w in db.wallets ==> InCurrency(db, l[i].tx, w))
  }

  predicate InCurrency(db: DB, id: TransactionId, w: WalletId)
    requires id in db.rows && w in db.wallets
  {
    db.rows[id].op.currency == db.wallets[w].currency
  }

  ghost predicate Ledgers(db: DB) {
    forall w :: LedgerFor(db, w) && (LedgerOf(db, w) != [] ==> w in db.wallets)
  }

  // ----- The ledger ----------------------------------------------------------

  /** The ledger side of a delta that wrote the wallet and the entry together. */
  ghost predicate MovesLedger(db: DB, d: Delta, opening: bool) {
    match d.entry
    case None => d.moved.None?
    case Some(e) =>
      && d.wallet in db.wallets && d.moved.Some?
      && d.moved.value.balance == e.after && d.moved.value.version == e.version
      && ChainAccepts(LedgerOf(db, d.wallet), e, opening)
      && e.tx in d.rows && d.rows[e.tx].op.wallet == d.wallet && d.rows[e.tx].status == Processed
      && d.moved.value.currency == db.wallets[d.wallet].currency == d.rows[e.tx].op.currency
  }

  /** No settled row is rewritten, and no row changes wallet. */
  ghost predicate KeepsSettled(db: DB, d: Delta) {
    forall id :: id in d.rows && id in db.rows ==>
      db.rows[id].status != Processed && d.rows[id].op == db.rows[id].op
  }

  lemma MergeKeepsLedger(db: DB, d: Delta, opening: bool, w: WalletId)
    requires LedgerFor(db, w) && MovesLedger(db, d, opening) && KeepsSettled(db, d)
    ensures LedgerFor(Merge(db, d), w)
  {
    hide Chain, OneEntryEach, ChainAccepts;
    var after := Merge(db, d);
    var l := LedgerOf(db, w);
    forall i | 0 <= i < |l|
      ensures OnWallet(after, l[i].tx, w) && after.rows[l[i].tx].status == Processed
      ensures w in after.wallets ==> InCurrency(after, l[i].tx, w)
    {
      assert OnWallet(db, l[i].tx, w) && db.rows[l[i].tx].status == Processed;
      assert w in db.wallets ==> InCurrency(db, l[i].tx, w);
    }
    if w == d.wallet && d.entry.Some? {
      AppendKeepsChain(l, d.entry.value, opening);
      assert LedgerOf(after, w) == l + [d.entry.value];
    } else {
      assert LedgerOf(after, w) == l;
    }
  }

  lemma MergeKeepsLedgers(db: DB, d: Delta, opening: bool)
    requires Ledgers(db) && MovesLedger(db, d, opening) && KeepsSettled(db, d)
    ensures Ledgers(Merge(db, d))
  {
    var after := Merge(db, d);
    forall w
      ensures LedgerFor(after, w) && (LedgerOf(after, w) != [] ==> w in after.wallets)
    {
      assert LedgerFor(db, w);
      MergeKeepsLedger(db, d, opening, w);
    }
  }

  lemma AppendKeepsChain(l: seq<Entry>, e: Entry, opening: bool)
    requires Chain(l) && OneEntryEach(l) && ChainAccepts(l, e, opening)
    ensures Chain(l + [e]) && OneEntryEach(l + [e])
  {
    AppendExtendsChain(l, e, opening);
    assert forall i :: 0 <= i < |l| ==> (l + [e])[i] == l[i];
    hide Chain, EntryArithmetic;
  }

  lemma AppendExtendsChain(l: seq<Entry>, e: Entry, opening: bool)
    requires Chain(l) && ChainAccepts(l, e, opening)
    ensures Chain(l + [e])
  {
    var m := l + [e];
    hide EntryArithmetic;
    assert |m| == |l| + 1 && m[|l|] == e && forall i :: 0 <= i < |l| ==> m[i] == l[i];
    forall i {:trigger m[i].version} | 0 <= i < |m|
      ensures m[i].version == m[0].version + i
    {
      if i == |l| && l != [] {
        assert l[|l| - 1].version == l[0].version + (|l| - 1);
      }
    }
    forall i {:trigger m[i].before} | 0 < i < |m|
      ensures m[i].before == m[i - 1].after
    {
    }
  }

  /** Credits less debits. */
  function Sum(l: seq<Entry>): int {
    if l == [] then 0 else Sum(l[..|l| - 1]) + SignedOf(l[|l| - 1])
  }

  lemma {:induction false} ChainSums(l: seq<Entry>)
    requires Chain(l)
    ensures Sum(l) == if l == [] then 0 else l[|l| - 1].after
  {
    if |l| > 0 {
      var shorter := l[..|l| - 1];
      assert Chain(shorter);
      ChainSums(shorter);
    }
  }

  /** The stored balance is the ledger summed, for every wallet. */
  lemma BalanceIsTheLedger(db: DB, w: WalletId)
    requires Ledgers(db) && w in db.wallets
    ensures db.wallets[w].balance == Sum(LedgerOf(db, w))
  {
    assert LedgerFor(db, w);
    ChainSums(LedgerOf(db, w));
  }
}
