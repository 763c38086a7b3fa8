/**
 The rules one operation is decided by: what a kind may do, what a reference
 says about an operation that names it, and what carrying an operation forward
 produces (internal/domain/wagering). Identifiers are opaque, and the payload
 hash is the payload itself: two submissions hash alike exactly when their
 business fields are equal.
 */
module Domain {
  import opened Prelude

  type TransactionId = nat
  type WalletId = nat
  type PlayerId = nat
  type Provider = nat
  type ExternalId = nat
  type IdempotencyKey = nat
  type RoundId = nat
  type GameId = nat
  type Currency = nat

  const MAX_MINOR: int := 0x7fff_ffff_ffff_ffff

  datatype Kind = Opening | Bet | Win | Loss | Refund | Rollback

  datatype Status = Pending | PendingReference | Processed | Rejected | Failed

  datatype Direction = Debit | Credit

  datatype Code =
    | CurrencyMismatch
    | ReferenceNotFound
    | ReferenceNotProcessed
    | ReferenceMismatch
    | ReferenceNotReversible
    | ReversalAmountMismatch
    | ReferenceAlreadyReversed
    | InsufficientFunds
    | ReversalInsufficientFunds
    | BalanceOutOfRange

  /** What an operation is. An opening has no provider side: its provider,
      external id, key, round, game and reference are never read. */
  datatype Operation = Operation(
    provider: Provider, external: ExternalId, key: IdempotencyKey,
    player: PlayerId, wallet: WalletId, round: RoundId, game: GameId,
    kind: Kind, amount: int, currency: Currency, reference: Option<ExternalId>)

  /** A wager transaction as stored. */
  datatype Row = Row(
    op: Operation, status: Status, resolved: Option<TransactionId>,
    attempts: nat, deadline: Option<Time>, nextAttempt: Option<Time>,
    updatedAt: Time, result: Option<int>, code: Option<Code>)

  datatype Wallet = Wallet(
    player: PlayerId, currency: Currency, balance: int, version: nat, updatedAt: Time)

  datatype Entry = Entry(
    tx: TransactionId, direction: Direction, amount: int,
    before: int, after: int, version: nat, at: Time)

  /** One processed reversal pointing at a reference, and whether it has since
      been undone itself. */
  datatype Reversal = Reversal(id: TransactionId, row: Row, reversed: bool)

  datatype View = View(id: TransactionId, row: Row, reversals: seq<Reversal>)

  datatype WaitPolicy = WaitPolicy(maxAttempts: int, ttl: Time)

  /** What one operation produced. */
  datatype Outcome = Outcome(row: Row, entry: Option<Entry>)

  predicate IsReversal(k: Kind) { k == Refund || k == Rollback }

  predicate AllowsReference(k: Kind) { k == Win || IsReversal(k) }

  predicate CanReverse(k: Kind, target: Kind) {
    match k
    case Refund => target == Bet
    case Rollback => target == Bet || target == Win || target == Refund
    case _ => false
  }

  /** How a kind moves money on its own terms; a rollback and a loss do not. */
  function DirectionOf(k: Kind): Option<Direction> {
    match k
    case Opening => Some(Credit)
    case Win => Some(Credit)
    case Refund => Some(Credit)
    case Bet => Some(Debit)
    case Loss => None
    case Rollback => None
  }

  function Opposite(d: Direction): Direction {
    if d == Debit then Credit else Debit
  }

  function Signed(d: Direction, amount: int): int {
    if d == Credit then amount else -amount
  }

  function SignedOf(e: Entry): int {
    Signed(e.direction, e.amount)
  }

  predicate Terminal(s: Status) { s == Processed || s == Rejected || s == Failed }

  /** Command.Validate, as far as the kind decides it. */
  predicate ValidCommand(op: Operation) {
    && op.kind != Opening
    && (if op.kind == Loss then op.amount == 0 else 0 < op.amount <= MAX_MINOR)
    && (IsReversal(op.kind) ==> op.reference.Some?)
    && (op.reference.Some? ==> AllowsReference(op.kind) && op.reference.value != op.external)
  }

  /** AssertSamePayload: everything but the idempotency key. */
  predicate SamePayload(a: Operation, b: Operation) {
    a.(key := b.key) == b
  }

  predicate NamesReference(op: Operation) {
    AllowsReference(op.kind) && op.reference.Some?
  }

  predicate HasActiveReversal(v: View) {
    exists r :: r in v.reversals && IsReversal(r.row.op.kind) && r.row.status == Processed && !r.reversed
  }

  predicate HasSuccessfulReversalOfKind(v: View, k: Kind) {
    IsReversal(k) && exists r :: r in v.reversals && r.row.op.kind == k && r.row.status == Processed
  }

  predicate ReferenceAgrees(op: Operation, wallet: Wallet, target: Row) {
    && target.op.wallet == op.wallet && target.op.player == op.player
    && target.op.currency == op.currency
    && target.op.kind != Opening
    && target.op.provider == op.provider
    && target.op.round == op.round
  }

  datatype Verdict = Apply | Wait | Refuse(code: Code)

  /** evaluateReference: availability, then agreement, then kind, then amount,
      then history. */
  function Evaluate(op: Operation, wallet: Wallet, view: Option<View>): Verdict {
    if !NamesReference(op) then Apply
    else if view.None? then Wait
    else
      var target := view.value.row;
      if target.status == Pending || target.status == PendingReference then Wait
      else if target.status != Processed then Refuse(ReferenceNotProcessed)
      else if !ReferenceAgrees(op, wallet, target) then Refuse(ReferenceMismatch)
      else if IsReversal(op.kind) then
        if !CanReverse(op.kind, target.op.kind) then Refuse(ReferenceNotReversible)
        else if op.amount != target.op.amount then Refuse(ReversalAmountMismatch)
        else if HasSuccessfulReversalOfKind(view.value, op.kind) then Refuse(ReferenceAlreadyReversed)
        else if HasActiveReversal(view.value) then Refuse(ReferenceAlreadyReversed)
        else Apply
      else if target.op.kind != Bet then Refuse(ReferenceMismatch)
      else Apply
  }

  function NewRow(op: Operation, now: Time): Row {
    Row(op, Pending, None, 0, None, None, now, None, None)
  }

  function Reject(row: Row, code: Code, now: Time): Outcome {
    Outcome(row.(status := Rejected, code := Some(code), nextAttempt := None, updatedAt := now), None)
  }

  predicate BudgetExhausted(row: Row, policy: WaitPolicy, now: Time) {
    || row.attempts >= policy.maxAttempts
    || (row.deadline.Some? && now >= row.deadline.value)
  }

  /** MarkPendingReference; the schedule itself is written by the caller. */
  function Park(row: Row, policy: WaitPolicy, now: Time): Outcome {
    Outcome(
      row.(status := PendingReference, attempts := row.attempts + 1, updatedAt := now,
           deadline := if row.deadline.None? then Some(now + policy.ttl) else row.deadline),
      None)
  }

  function Complete(row: Row, balance: int, now: Time): Row {
    row.(status := Processed, result := Some(balance), nextAttempt := None, updatedAt := now)
  }

  /** The direction money moves in, given what a rollback undoes. */
  function MovementOf(op: Operation, view: Option<View>): Option<Direction> {
    if op.kind == Rollback then
      if view.None? then None
      else match DirectionOf(view.value.row.op.kind)
           case None => None
           case Some(d) => Some(Opposite(d))
    else DirectionOf(op.kind)
  }

  datatype DomainError = NotContinuable | WrongWallet | Repointed | NoDirection

  /** Processor.Continue: carry an unsettled operation forward. */
  function Continue(
    id: TransactionId, row: Row, wallet: Wallet, view: Option<View>, policy: WaitPolicy, now: Time)
    : Result<Outcome, DomainError>
  {
    var op := row.op;
    if Terminal(row.status) then Err(NotContinuable)
    else if wallet.player != op.player then Err(WrongWallet)
    else if op.currency != wallet.currency then Ok(Reject(row, CurrencyMismatch, now))
    else match Evaluate(op, wallet, view)
      case Refuse(code) => Ok(Reject(row, code, now))
      case Wait =>
        if BudgetExhausted(row, policy, now) then Ok(Reject(row, ReferenceNotFound, now))
        else Ok(Park(row, policy, now))
      case Apply =>
        if NamesReference(op) && view.Some? && row.resolved.Some? && row.resolved.value != view.value.id then
          Err(Repointed)
        else
          var found := if NamesReference(op) && view.Some?
                       then row.(resolved := Some(view.value.id)) else row;
          if op.kind == Loss then Ok(Outcome(Complete(found, wallet.balance, now), None))
          else match MovementOf(op, view)
            case None => Err(NoDirection)
            case Some(d) => Ok(Move(id, found, wallet, d, now))
  }

  /** Wallet.move and the settling tail: a movement the wallet cannot hold
      settles the operation as a rejection and leaves the wallet alone. */
  function Move(id: TransactionId, row: Row, wallet: Wallet, d: Direction, now: Time): Outcome {
    var after := wallet.balance + Signed(d, row.op.amount);
    if after > MAX_MINOR then Reject(row, BalanceOutOfRange, now)
    else if after < 0 then
      Reject(row, if IsReversal(row.op.kind) then ReversalInsufficientFunds else InsufficientFunds, now)
    else
      Outcome(
        Complete(row, after, now),
        Some(Entry(id, d, row.op.amount, wallet.balance, after, wallet.version + 1, now)))
  }

  /** What a caller can rely on about an outcome, whatever the inputs were: the
      operation itself never changes; a ledger entry exists exactly when money
      moved, starts from the wallet that was read and reports the balance the
      transaction reports; and a reversal is only ever processed against a
      processed reference of the same wallet, provider and round, for exactly
      its amount, when neither an active reversal nor one of its kind exists. */
  lemma ContinueFacts(
    id: TransactionId, row: Row, wallet: Wallet, view: Option<View>, policy: WaitPolicy, now: Time)
    requires ValidCommand(row.op)
    requires Continue(id, row, wallet, view, policy, now).Ok?
    ensures var out := Continue(id, row, wallet, view, policy, now).value;
            && !Terminal(row.status)
            && out.row.op == row.op && out.row.updatedAt == now
            && out.row.status in {Processed, Rejected, PendingReference}
            && (out.entry.Some? <==> out.row.status == Processed && row.op.kind != Loss)
            && (out.row.status == Processed ==>
                  wallet.currency == row.op.currency && out.row.result.Some? && out.row.nextAttempt == None)
            && (out.entry.Some? ==>
                  var e := out.entry.value;
                  && MovementOf(row.op, view) == Some(e.direction)
                  && e == Entry(id, e.direction, row.op.amount, wallet.balance,
                                wallet.balance + Signed(e.direction, row.op.amount), wallet.version + 1, now)
                  && 0 <= e.after <= MAX_MINOR
                  && out.row.result == Some(e.after))
            && (out.row.status == Processed && NamesReference(row.op) ==>
                  && view.Some? && view.value.row.status == Processed
                  && ReferenceAgrees(row.op, wallet, view.value.row)
                  && out.row.resolved == Some(view.value.id))
            && (out.row.status == Processed && IsReversal(row.op.kind) ==>
                  && CanReverse(row.op.kind, view.value.row.op.kind)
                  && row.op.amount == view.value.row.op.amount
                  && !HasSuccessfulReversalOfKind(view.value, row.op.kind)
                  && !HasActiveReversal(view.value))
            && (out.row.status == PendingReference ==>
                  && NamesReference(row.op)
                  && (view.None? || view.value.row.status != Processed)
                  && !BudgetExhausted(row, policy, now)
                  && out == Park(row, policy, now))
            && (out.row.status == Rejected ==> out.row.code.Some? && out.row.nextAttempt == None)
  {
  }

  // ----- What the processor decides, field by field --------------------------

  /** An operation these rules are asked about: unsettled, of this wallet's owner. */
  predicate Carried(row: Row, wallet: Wallet) {
    (row.status == Pending || row.status == PendingReference) && wallet.player == row.op.player
  }

  /** It names a reference that has not arrived or has not settled. */
  predicate Unanswered(op: Operation, view: Option<View>) {
    && (op.kind == Win || op.kind == Refund || op.kind == Rollback) && op.reference.Some?
    && (view.None? || view.value.row.status == Pending || view.value.row.status == PendingReference)
  }

  /** Waiting ends exactly when the attempts are spent or the deadline has come:
      the operation is then rejected as having no reference, and until then it is
      parked with one more attempt and its first deadline kept. Nothing else parks
      and nothing else is rejected so. */
  lemma WaitingEndsExactly(
    id: TransactionId, row: Row, wallet: Wallet, view: Option<View>, policy: WaitPolicy, now: Time)
    requires Carried(row, wallet)
    ensures var r := Continue(id, row, wallet, view, policy, now);
            var spent := row.attempts >= policy.maxAttempts || (row.deadline.Some? && now >= row.deadline.value);
            if wallet.currency == row.op.currency && Unanswered(row.op, view) then
              r == Ok(Outcome(
                if spent then
                  row.(status := Rejected, code := Some(ReferenceNotFound), nextAttempt := None, updatedAt := now)
                else
                  row.(status := PendingReference, attempts := row.attempts + 1, updatedAt := now,
                       deadline := Some(if row.deadline.Some? then row.deadline.value else now + policy.ttl)),
                None))
            else r.Ok? && r.value.row.status == Rejected ==> r.value.row.code != Some(ReferenceNotFound)
    ensures var r := Continue(id, row, wallet, view, policy, now);
            r.Ok? && r.value.row.status == PendingReference ==> wallet.currency == row.op.currency && Unanswered(row.op, view)
  {
    hide HasActiveReversal, HasSuccessfulReversalOfKind;
  }

  /** A reversal in the view stands in the way of one of kind k: it is of that
      kind, or has not been undone. */
  predicate InTheWay(r: Reversal, k: Kind) {
    && r.row.status == Processed && (r.row.op.kind == Refund || r.row.op.kind == Rollback)
    && (r.row.op.kind == k || !r.reversed)
  }

  /** Why a settled reference refuses an operation that names it, in the order the
      rules are asked: None when it does not. */
  function Objection(op: Operation, view: View): Option<Code> {
    var target := view.row;
    if target.status != Processed then Some(ReferenceNotProcessed)
    else if target.op.kind == Opening || target.op.wallet != op.wallet || target.op.player != op.player
            || target.op.currency != op.currency || target.op.provider != op.provider || target.op.round != op.round then
      Some(ReferenceMismatch)
    else if op.kind == Win then (if target.op.kind == Bet then None else Some(ReferenceMismatch))
    else if target.op.kind == Loss || target.op.kind == Rollback || (op.kind == Refund && target.op.kind != Bet) then
      Some(ReferenceNotReversible)
    else if target.op.amount != op.amount then Some(ReversalAmountMismatch)
    else if exists i :: 0 <= i < |view.reversals| && InTheWay(view.reversals[i], op.kind) then Some(ReferenceAlreadyReversed)
    else None
  }

  /** What an operation would move, signed: a bet takes, a win and a refund give,
      a rollback takes back what was given and gives back what was taken. */
  function Moves(op: Operation, view: Option<View>): int {
    match op.kind
    case Bet => -op.amount
    case Loss => 0
    case Rollback => if view.Some? && view.value.row.op.kind == Bet then op.amount else -op.amount
    case _ => op.amount
  }

  /** The answer when nothing is left to wait for: the currency, then the
      reference's objection, then what the wallet can hold, then the movement. */
  function Answer(id: TransactionId, row: Row, wallet: Wallet, view: Option<View>, now: Time): Outcome {
    var op := row.op;
    var named := (op.kind == Win || op.kind == Refund || op.kind == Rollback) && op.reference.Some? && view.Some?;
    var objection := if named then Objection(op, view.value) else None;
    var found := if named then row.(resolved := Some(view.value.id)) else row;
    var after := wallet.balance + Moves(op, view);
    var code :=
      if wallet.currency != op.currency then Some(CurrencyMismatch)
      else if objection.Some? then objection
      else if after > MAX_MINOR then Some(BalanceOutOfRange)
      else if after < 0 then
        Some(if op.kind == Refund || op.kind == Rollback then ReversalInsufficientFunds else InsufficientFunds)
      else None;
    if code.Some? then
      Outcome((if wallet.currency == op.currency && objection.None? then found else row).(
                status := Rejected, code := code, nextAttempt := None, updatedAt := now), None)
    else
      Outcome(found.(status := Processed, result := Some(after), nextAttempt := None, updatedAt := now),
              if op.kind == Loss then None
              else Some(Entry(id, if Moves(op, view) > 0 then Credit else Debit, op.amount, wallet.balance, after,
                              wallet.version + 1, now)))
  }

  lemma ObjectionsAreInTheWay(op: Operation, view: View)
    requires op.kind == Refund || op.kind == Rollback
    ensures (exists i :: 0 <= i < |view.reversals| && InTheWay(view.reversals[i], op.kind)) <==>
              HasSuccessfulReversalOfKind(view, op.kind) || HasActiveReversal(view)
  {
    if HasSuccessfulReversalOfKind(view, op.kind) {
      var r :| r in view.reversals && r.row.op.kind == op.kind && r.row.status == Processed;
      var i :| 0 <= i < |view.reversals| && view.reversals[i] == r;
      assert InTheWay(view.reversals[i], op.kind);
    }
    if HasActiveReversal(view) {
      var r :| r in view.reversals && IsReversal(r.row.op.kind) && r.row.status == Processed && !r.reversed;
      var i :| 0 <= i < |view.reversals| && view.reversals[i] == r;
      assert InTheWay(view.reversals[i], op.kind);
    }
    if i :| 0 <= i < |view.reversals| && InTheWay(view.reversals[i], op.kind) {
      assert view.reversals[i] in view.reversals;
    }
  }

  /** The processor gives that answer, and no other, to every valid operation that
      is not waiting and has not resolved anything yet. */
  lemma AnsweredExactly(
    id: TransactionId, row: Row, wallet: Wallet, view: Option<View>, policy: WaitPolicy, now: Time)
    requires Carried(row, wallet) && ValidCommand(row.op) && row.resolved.None? && 0 <= wallet.balance <= MAX_MINOR
    requires wallet.currency == row.op.currency ==> !Unanswered(row.op, view)
    ensures Continue(id, row, wallet, view, policy, now) == Ok(Answer(id, row, wallet, view, now))
  {
    if view.Some? && IsReversal(row.op.kind) {
      ObjectionsAreInTheWay(row.op, view.value);
    }
    hide HasActiveReversal, HasSuccessfulReversalOfKind, InTheWay;
  }
}
