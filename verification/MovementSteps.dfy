/** Every step that does not commit keeps the invariant. */
module MovementSteps {
  import opened Prelude
  import opened Domain
  import opened Store
  import opened Movement
  import opened MovementInvariant
  import opened Netting

  /** A process advanced, or began, and nothing was committed. */
  lemma Advances(cfg: Config, s: State, t: State, p: Pid, x: Proc)
    requires ValidConfig(cfg) && Inv(cfg, s)
    requires t == With(s, p, x)
    requires ProcOk(cfg, s.db, s.clock, x) && AnswerLogged(s.log, x)
    requires forall q :: q in s.procs && q != p ==> Held(x) !! Held(s.procs[q])
    ensures Inv(cfg, t)
  {
  }

  /** A process holds no more than it did, or takes only what it waited for. */
  lemma TakesOnlyItsWants(s: State, p: Pid, x: Proc)
    requires Exclusive(s.procs) && p in s.procs
    requires Held(x) <= Held(s.procs[p]) || (Unblocked(s, p) && Held(x) <= Held(s.procs[p]) + Wants(s.db, s.procs[p]))
    ensures forall q :: q in s.procs && q != p ==> Held(x) !! Held(s.procs[q])
  {
  }

  lemma Ends(cfg: Config, s: State, t: State, p: Pid)
    requires ValidConfig(cfg) && Inv(cfg, s)
    requires t == s.(procs := s.procs - {p})
    ensures Inv(cfg, t)
  {
  }

  lemma {:induction false} LogGrows(log: seq<LogEntry>, b: Book, e: LogEntry, after: Book)
    requires History(log, b) && Atomic(b, e.cmd, e.decision, after)
    requires e.decision.Recorded? ==> after == b[e.decision.id := e.cmd.op]
    ensures History(log + [e], after)
  {
    var l := log + [e];
    assert l[..|log|] == log;
    assert l[..|l|] == l;
    forall i {:trigger l[i]} | 0 <= i < |l|
      ensures Atomic(BookAfter(l[..i]), l[i].cmd, l[i].decision, BookAfter(l[..i + 1]))
    {
      if i < |log| {
        assert l[..i] == log[..i] && l[..i + 1] == log[..i + 1] && l[i] == log[i];
      }
    }
  }

  /** A process advanced and its submission was decided without a write. */
  lemma Decides(cfg: Config, s: State, t: State, p: Pid, x: Proc, cmd: Command, decision: Decision)
    requires ValidConfig(cfg) && Inv(cfg, s)
    requires t == Decided(With(s, p, x), cmd, decision) && !decision.Recorded?
    requires Atomic(BookOf(s.db), cmd, decision, BookOf(s.db))
    requires ProcOk(cfg, s.db, s.clock, x) && AnswerLogged(t.log, x)
    requires forall q :: q in s.procs && q != p ==> Held(x) !! Held(s.procs[q])
    ensures Inv(cfg, t)
  {
    hide Tables, AwakeOn, ProcOk, Held, Atomic, History, Backed, AnswerLogged, BookOf;
    LogGrows(s.log, BookOf(s.db), LogEntry(cmd, decision), BookOf(s.db));
    forall q | q in t.procs
      ensures AnswerLogged(t.log, t.procs[q])
    {
      if q != p {
        LoggedStays(s.log, s.procs[q], LogEntry(cmd, decision));
      }
    }
  }

  lemma LoggedStays(log: seq<LogEntry>, proc: Proc, e: LogEntry)
    requires AnswerLogged(log, proc)
    ensures AnswerLogged(log + [e], proc)
  {
  }

  lemma TablesKeys(db: DB, clock: Time)
    requires Tables(db, clock)
    ensures KeysUnique(db)
  {
  }

  // ----- What the look-ups decide --------------------------------------------

  /** A row under the submission's own key decides it: a replay or a refusal. */
  lemma KeyDecides(db: DB, cmd: Command, r: TransactionId)
    requires KeysUnique(db) && KeyAt(db, r, cmd.op.provider, cmd.op.key)
    ensures db.rows[r].op == cmd.op ==> Atomic(BookOf(db), cmd, Replayed(r), BookOf(db))
    ensures db.rows[r].op != cmd.op ==> Atomic(BookOf(db), cmd, Refused, BookOf(db))
  {
    var b := BookOf(db);
    assert HasKey(b, r, cmd.op);
  }

  /** A row under the submission's external id and another key is a refusal, even
      if a row under its own key has been committed since that was looked for. */
  lemma ExternalDecides(db: DB, cmd: Command, r: TransactionId)
    requires KeysUnique(db) && ExternalAt(db, r, cmd.op.provider, cmd.op.external) && db.rows[r].op.key != cmd.op.key
    ensures Atomic(BookOf(db), cmd, Refused, BookOf(db))
  {
    var b := BookOf(db);
    assert HasExternal(b, r, cmd.op);
    if exists k :: HasKey(b, k, cmd.op) {
      var k :| HasKey(b, k, cmd.op);
      assert KeyAt(db, k, cmd.op.provider, cmd.op.key) && k != r;
      assert b[k] == cmd.op ==> ExternalAt(db, k, cmd.op.provider, cmd.op.external);
    }
  }

  // ----- The steps of a submission -------------------------------------------

  lemma ReplayKeeps(cfg: Config, s: State, t: State, p: Pid, cmd: Command, claimed: bool, r: TransactionId)
    requires ValidConfig(cfg) && Inv(cfg, s)
    requires p in s.procs && s.procs[p].Submitting? && s.procs[p].cmd == cmd
    requires ValidCommand(cmd.op) && cmd.id !in s.db.rows && ClaimOk(s.db, cmd, claimed)
    requires Held(s.procs[p]) == {NewId(cmd.id)} + InboxHeld(cmd, claimed)
    requires KeyAt(s.db, r, cmd.op.provider, cmd.op.key) && t == Replay(s, p, cmd, claimed, r)
    ensures Inv(cfg, t)
  {
    hide Tables, AwakeOn, Atomic, History, Backed, BookOf;
    TablesKeys(s.db, s.clock);
    KeyDecides(s.db, cmd, r);
    if s.db.rows[r].op == cmd.op {
      var x := Submitting(cmd, Replaying(claimed, r, s.db.rows[r]));
      TakesOnlyItsWants(s, p, x);
      Decides(cfg, s, t, p, x, cmd, Replayed(r));
    } else {
      Decides(cfg, s, t, p, Answered(cmd, Conflicted), cmd, Refused);
    }
  }

  lemma ReadKeyKeeps(cfg: Config, s: State, t: State, p: Pid, found: Option<TransactionId>)
    requires ValidConfig(cfg) && Inv(cfg, s) && ReadKeyStep(s, p, found, t)
    ensures Inv(cfg, t)
  {
    hide Tables, AwakeOn, Atomic, History, Backed, BookOf;
    var cmd, claimed := s.procs[p].cmd, s.procs[p].point.claimed;
    assert ProcOk(cfg, s.db, s.clock, s.procs[p]);
    if found.Some? {
      ReplayKeeps(cfg, s, t, p, cmd, claimed, found.value);
    } else {
      var x := Submitting(cmd, KeyMissed(claimed));
      TakesOnlyItsWants(s, p, x);
      Advances(cfg, s, t, p, x);
    }
  }

  lemma ReadExternalKeeps(cfg: Config, s: State, t: State, p: Pid, found: Option<TransactionId>)
    requires ValidConfig(cfg) && Inv(cfg, s) && ReadExternalStep(s, p, found, t)
    ensures Inv(cfg, t)
  {
    hide Tables, AwakeOn, Atomic, History, Backed, BookOf;
    var cmd, claimed := s.procs[p].cmd, s.procs[p].point.claimed;
    assert ProcOk(cfg, s.db, s.clock, s.procs[p]);
    TablesKeys(s.db, s.clock);
    if found.None? {
      var x := Submitting(cmd, BothMissed(claimed));
      TakesOnlyItsWants(s, p, x);
      Advances(cfg, s, t, p, x);
    } else if s.db.rows[found.value].op.key == cmd.op.key {
      ReplayKeeps(cfg, s, t, p, cmd, claimed, found.value);
    } else {
      ExternalDecides(s.db, cmd, found.value);
      Decides(cfg, s, t, p, Answered(cmd, Conflicted), cmd, Refused);
    }
  }

  lemma SubmitKeeps(cfg: Config, s: State, t: State, p: Pid, cmd: Command)
    requires ValidConfig(cfg) && Inv(cfg, s) && SubmitStep(s, p, cmd, t)
    ensures Inv(cfg, t)
  {
    hide Tables, AwakeOn, Atomic, History, Backed, BookOf;
    var x := Submitting(cmd, Started);
    Advances(cfg, s, With(s, p, x), p, x);
  }

  lemma FindInboxKeeps(cfg: Config, s: State, t: State, p: Pid)
    requires ValidConfig(cfg) && Inv(cfg, s) && FindInboxStep(s, p, t)
    ensures Inv(cfg, t)
  {
    hide Tables, AwakeOn, Atomic, History, Backed, BookOf;
    assert ProcOk(cfg, s.db, s.clock, s.procs[p]);
    TakesOnlyItsWants(s, p, t.procs[p]);
    Advances(cfg, s, t, p, t.procs[p]);
  }

  lemma RecordInboxKeeps(cfg: Config, s: State, t: State, p: Pid)
    requires ValidConfig(cfg) && Inv(cfg, s) && RecordInboxStep(s, p, t)
    ensures Inv(cfg, t)
  {
    hide Tables, AwakeOn, Atomic, History, Backed, BookOf;
    assert ProcOk(cfg, s.db, s.clock, s.procs[p]);
    TakesOnlyItsWants(s, p, t.procs[p]);
    Advances(cfg, s, t, p, t.procs[p]);
  }

  lemma LockWalletKeeps(cfg: Config, s: State, t: State, p: Pid)
    requires ValidConfig(cfg) && Inv(cfg, s) && LockWalletStep(s, p, t)
    ensures Inv(cfg, t)
  {
    hide Tables, AwakeOn, Atomic, History, Backed, BookOf;
    assert ProcOk(cfg, s.db, s.clock, s.procs[p]);
    TakesOnlyItsWants(s, p, t.procs[p]);
    Advances(cfg, s, t, p, t.procs[p]);
  }

  lemma StampKeeps(cfg: Config, s: State, t: State, p: Pid)
    requires ValidConfig(cfg) && Inv(cfg, s) && StampStep(s, p, t)
    ensures Inv(cfg, t)
  {
    hide Tables, AwakeOn, Atomic, History, Backed, BookOf;
    assert ProcOk(cfg, s.db, s.clock, s.procs[p]);
    WalletIsPast(s.db, s.clock, s.procs[p].cmd.op.wallet);
    TakesOnlyItsWants(s, p, t.procs[p]);
    Advances(cfg, s, t, p, t.procs[p]);
  }

  lemma EnterExternalKeeps(cfg: Config, s: State, t: State, p: Pid)
    requires ValidConfig(cfg) && Inv(cfg, s) && EnterExternalStep(s, p, t)
    ensures Inv(cfg, t)
  {
    hide Tables, AwakeOn, Atomic, History, Backed, BookOf, Held, Wants, Unblocked;
    assert ProcOk(cfg, s.db, s.clock, s.procs[p]);
    EnteredOk(cfg, s.db, s.clock, s.procs[p], t.procs[p]);
    TakesOnlyItsWants(s, p, t.procs[p]);
    Advances(cfg, s, t, p, t.procs[p]);
  }

  lemma EnteredOk(cfg: Config, db: DB, clock: Time, m: Proc, x: Proc)
    requires ValidConfig(cfg) && ProcOk(cfg, db, clock, m) && m.Submitting? && m.point.Stamped?
    requires x == if exists r :: ExternalAt(db, r, m.cmd.op.provider, m.cmd.op.external) then Submitting(m.cmd, Lost)
                  else Submitting(m.cmd, Entered(m.point.claimed, m.point.wallet, m.point.now))
    ensures ProcOk(cfg, db, clock, x) && Held(x) <= Held(m) + Wants(db, m)
  {
  }

  lemma RecordKeeps(cfg: Config, s: State, t: State, p: Pid)
    requires ValidConfig(cfg) && Inv(cfg, s) && RecordStep(s, p, t)
    ensures Inv(cfg, t)
  {
    hide Tables, AwakeOn, Atomic, History, Backed, BookOf, StageOk;
    assert ProcOk(cfg, s.db, s.clock, s.procs[p]);
    var x := t.procs[p];
    if x.Moving? {
      BegunOk(cfg, s.db, s.clock, s.procs[p], x);
      RowUnheld(cfg, s, p, x.id);
      InsertedIsExclusive(s, p, x);
    }
    Advances(cfg, s, t, p, x);
  }

  lemma WalletIsPast(db: DB, clock: Time, w: WalletId)
    requires Tables(db, clock) && w in db.wallets
    ensures db.wallets[w].updatedAt <= clock
  {
  }

  lemma BegunOk(cfg: Config, db: DB, clock: Time, m: Proc, x: Proc)
    requires ValidConfig(cfg) && ProcOk(cfg, db, clock, m) && m.Submitting? && m.point.Entered?
    requires forall r :: !KeyAt(db, r, m.cmd.op.provider, m.cmd.op.key)
    requires var point := m.point;
             x == Moving(BySubmit(m.cmd, point.claimed), m.cmd.id, NewRow(m.cmd.op, point.now), point.wallet, point.now, Begun)
    ensures ProcOk(cfg, db, clock, x)
    ensures Held(x) == Held(m) + Wants(db, m) + {TransactionRow(x.id)}
    ensures NewId(x.id) in Held(m) && x.id !in db.rows
  {
  }

  lemma Apart(held: set<Resource>, wanted: set<Resource>, r: Resource, others: set<Resource>)
    requires held !! others && wanted * others == {} && r !in others
    ensures (held + wanted + {r}) !! others
  {
    assert forall x :: x in wanted && x in others ==> x in wanted * others;
  }

  lemma InsertedIsExclusive(s: State, p: Pid, x: Proc)
    requires p in s.procs && x.Moving? && Unblocked(s, p) && Exclusive(s.procs)
    requires Held(x) == Held(s.procs[p]) + Wants(s.db, s.procs[p]) + {TransactionRow(x.id)}
    requires forall q :: q in s.procs && q != p ==> TransactionRow(x.id) !in Held(s.procs[q])
    ensures forall q :: q in s.procs && q != p ==> Held(x) !! Held(s.procs[q])
  {
    hide Held, Wants;
    forall q | q in s.procs && q != p
      ensures Held(x) !! Held(s.procs[q])
    {
      Apart(Held(s.procs[p]), Wants(s.db, s.procs[p]), TransactionRow(x.id), Held(s.procs[q]));
    }
  }

  /** A row that is not committed is locked by nobody but its own transaction. */
  lemma RowUnheld(cfg: Config, s: State, p: Pid, id: TransactionId)
    requires ValidConfig(cfg) && p in s.procs && NewId(id) in Held(s.procs[p]) && id !in s.db.rows
    requires forall q :: q in s.procs ==> ProcOk(cfg, s.db, s.clock, s.procs[q])
    requires Exclusive(s.procs)
    ensures forall q :: q in s.procs && q != p ==> TransactionRow(id) !in Held(s.procs[q])
  {
    hide ProcOk, Held;
    forall q | q in s.procs && q != p
      ensures TransactionRow(id) !in Held(s.procs[q])
    {
      assert NewId(id) !in Held(s.procs[q]);
      if TransactionRow(id) in Held(s.procs[q]) {
        HeldRows(cfg, s.db, s.clock, s.procs[q], id);
      }
    }
  }

  /** A transaction locks rows of its own wallet, and the row it inserted. */
  lemma HeldRows(cfg: Config, db: DB, clock: Time, x: Proc, id: TransactionId)
    requires ValidConfig(cfg) && ProcOk(cfg, db, clock, x) && TransactionRow(id) in Held(x)
    ensures x.Moving?
    ensures OnWallet(db, id, x.base.op.wallet) || (id !in db.rows && NewId(id) in Held(x))
  {
    hide StageOk, Clashes;
    if id != x.id {
      StagedRows(cfg, db, x, id);
    }
  }

  /** The rows a movement stages are its own and parked ones of its wallet. */
  lemma StagedRows(cfg: Config, db: DB, m: Proc, id: TransactionId)
    requires ValidConfig(cfg) && m.Moving? && StageOk(cfg, db, m) && id != m.id
    requires TransactionRow(id) in StageHeld(m.id, m.base.op.wallet, m.stage)
    ensures OnWallet(db, id, m.base.op.wallet)
  {
    hide ViewSound, ContinueOf, SettleOf;
    var out := m.stage.out;
    SettleRows(cfg, db, m, out);
    ContinueKeepsOp(cfg, m, m.stage.view);
    if !m.stage.Settled? {
      WakeRows(db, SettleOf(cfg, db, m, out).value, out.row, m.now, id);
    }
  }

  lemma SettleRows(cfg: Config, db: DB, m: Proc, out: Outcome)
    requires ValidConfig(cfg) && m.Moving? && SettleOf(cfg, db, m, out).Ok?
    ensures SettleOf(cfg, db, m, out).value.rows.Keys == {m.id}
  {
  }

  lemma ContinueKeepsOp(cfg: Config, m: Proc, view: Option<View>)
    requires m.Moving? && ContinueOf(cfg, m, view).Ok?
    ensures ContinueOf(cfg, m, view).value.row.op == m.base.op
    ensures ContinueOf(cfg, m, view).value.row.updatedAt == m.now
  {
  }

  lemma WakeRows(db: DB, d: Delta, row: Row, now: Time, id: TransactionId)
    requires id in Store.Wake(db, d, row, now).rows && id !in d.rows
    ensures OnWallet(db, id, row.op.wallet)
  {
  }

  lemma ResolveKeeps(
    cfg: Config, s: State, t: State, p: Pid, byKey: Option<TransactionId>, byExternal: Option<TransactionId>)
    requires ValidConfig(cfg) && Inv(cfg, s) && ResolveStep(s, p, byKey, byExternal, t)
    ensures Inv(cfg, t)
  {
    hide Tables, AwakeOn, Atomic, History, Backed, BookOf;
    var cmd := s.procs[p].cmd;
    assert ProcOk(cfg, s.db, s.clock, s.procs[p]);
    TablesKeys(s.db, s.clock);
    if byKey.Some? {
      KeyDecides(s.db, cmd, byKey.value);
      if s.db.rows[byKey.value].op == cmd.op {
        Decides(cfg, s, t, p, t.procs[p], cmd, Replayed(byKey.value));
      } else {
        Decides(cfg, s, t, p, t.procs[p], cmd, Refused);
      }
    } else if byExternal.Some? {
      assert !KeyAt(s.db, byExternal.value, cmd.op.provider, cmd.op.key);
      ExternalDecides(s.db, cmd, byExternal.value);
      Decides(cfg, s, t, p, t.procs[p], cmd, Refused);
    } else {
      Advances(cfg, s, t, p, t.procs[p]);
    }
  }

  // ----- The steps of a movement ---------------------------------------------

  lemma ReadReferenceKeeps(cfg: Config, s: State, t: State, p: Pid, view: Option<View>)
    requires ValidConfig(cfg) && Inv(cfg, s) && ReadReferenceStep(s, p, view, t)
    ensures Inv(cfg, t)
  {
    hide Tables, AwakeOn, Atomic, History, Backed, BookOf, Held, Wants, Unblocked, CallerOk;
    var m, x := s.procs[p], s.procs[p].(stage := Viewed(view));
    assert ProcOk(cfg, s.db, s.clock, m);
    ViewedOk(cfg, s.db, s.clock, m, x, view);
    MovingAdvances(cfg, s, t, p, x);
  }

  lemma ViewedOk(cfg: Config, db: DB, clock: Time, m: Proc, x: Proc, view: Option<View>)
    requires ValidConfig(cfg) && m.Moving? && MovingOk(cfg, db, clock, m) && m.stage.Begun?
    requires x == m.(stage := Viewed(view))
    requires var op := m.base.op;
             if op.reference.Some? then IsView(db, op.provider, op.reference.value, view) else view.None?
    ensures MovingOk(cfg, db, clock, x) && Held(x) <= Held(m)
  {
    hide ReversalsOf, Clashes;
  }

  lemma SettleKeeps(cfg: Config, s: State, t: State, p: Pid)
    requires ValidConfig(cfg) && Inv(cfg, s) && Movement.SettleStep(cfg, s, p, t)
    ensures Inv(cfg, t)
  {
    hide Tables, AwakeOn, Atomic, History, Backed, BookOf, ContinueOf, SettleOf, Held;
    var m, x := s.procs[p], t.procs[p];
    assert ProcOk(cfg, s.db, s.clock, m);
    SettledOk(cfg, s.db, s.clock, m, x);
    MovingAdvances(cfg, s, t, p, x);
  }

  lemma SettledOk(cfg: Config, db: DB, clock: Time, m: Proc, x: Proc)
    requires ValidConfig(cfg) && m.Moving? && MovingOk(cfg, db, clock, m) && m.stage.Viewed?
    requires x.Moving? && x == m.(stage := x.stage) && x.stage.Settled?
    requires ContinueOf(cfg, m, m.stage.view) == Ok(x.stage.out) && SettleOf(cfg, db, m, x.stage.out) == Ok(x.stage.delta)
    requires x.stage.view == m.stage.view
    ensures MovingOk(cfg, db, clock, x) && Held(x) <= Held(m)
  {
    hide ContinueOf, SettleOf, ViewSound;
    SettleRows(cfg, db, m, x.stage.out);
    SameRest(cfg, db, m, x, m.stage.view, x.stage.out);
  }

  lemma MovingAdvances(cfg: Config, s: State, t: State, p: Pid, x: Proc)
    requires ValidConfig(cfg) && Inv(cfg, s) && p in s.procs
    requires x.Moving? && MovingOk(cfg, s.db, s.clock, x) && t == With(s, p, x)
    requires Held(x) <= Held(s.procs[p]) || (Unblocked(s, p) && Held(x) <= Held(s.procs[p]) + Wants(s.db, s.procs[p]))
    ensures Inv(cfg, t)
  {
    hide Tables, AwakeOn, Atomic, History, Backed, BookOf, MovingOk, Held, Wants, Unblocked;
    TakesOnlyItsWants(s, p, x);
    Advances(cfg, s, t, p, x);
  }

  lemma WakeKeeps(cfg: Config, s: State, t: State, p: Pid)
    requires ValidConfig(cfg) && Inv(cfg, s) && WakeStep(s, p, t)
    ensures Inv(cfg, t)
  {
    hide Tables, AwakeOn, Atomic, History, Backed, BookOf, ContinueOf, SettleOf, Held, Wants, Unblocked;
    var m, x := s.procs[p], t.procs[p];
    assert ProcOk(cfg, s.db, s.clock, m);
    WokeOk(cfg, s.db, s.clock, m, x);
    MovingAdvances(cfg, s, t, p, x);
  }

  lemma WokeOk(cfg: Config, db: DB, clock: Time, m: Proc, x: Proc)
    requires ValidConfig(cfg) && m.Moving? && MovingOk(cfg, db, clock, m) && m.stage.Settled?
    requires x == m.(stage := Woke(m.stage.view, m.stage.out, Store.Wake(db, m.stage.delta, m.stage.out.row, m.now)))
    ensures MovingOk(cfg, db, clock, x) && Held(x) <= Held(m) + Wants(db, m)
  {
    hide ContinueOf, SettleOf, ViewSound, Store.Wake;
    SameRest(cfg, db, m, x, m.stage.view, m.stage.out);
  }

  lemma AppendKeeps(cfg: Config, s: State, t: State, p: Pid)
    requires ValidConfig(cfg) && Inv(cfg, s) && AppendStep(s, p, t)
    ensures Inv(cfg, t)
  {
    hide Tables, AwakeOn, Atomic, History, Backed, BookOf, ContinueOf, SettleOf, Held, Wants, Unblocked;
    var m, x := s.procs[p], t.procs[p];
    assert ProcOk(cfg, s.db, s.clock, m);
    AppendedOk(cfg, s.db, s.clock, m, x);
    MovingAdvances(cfg, s, t, p, x);
  }

  lemma AppendedOk(cfg: Config, db: DB, clock: Time, m: Proc, x: Proc)
    requires ValidConfig(cfg) && m.Moving? && MovingOk(cfg, db, clock, m) && m.stage.Woke?
    requires x == m.(stage := Appended(m.stage.view, m.stage.out, Store.Append(db, m.stage.delta, EventsOf(m.stage.out))))
    ensures MovingOk(cfg, db, clock, x) && Held(x) <= Held(m) + Wants(db, m)
  {
    hide ContinueOf, SettleOf, ViewSound, Store.Wake;
    SameRest(cfg, db, m, x, m.stage.view, m.stage.out);
  }

  /** Only the stage differs, and neither the processor nor the door reads it. */
  lemma SameRest(cfg: Config, db: DB, m: Proc, x: Proc, view: Option<View>, out: Outcome)
    requires ValidConfig(cfg) && m.Moving? && x.Moving? && x == m.(stage := x.stage)
    ensures ContinueOf(cfg, x, view) == ContinueOf(cfg, m, view)
    ensures SettleOf(cfg, db, x, out) == SettleOf(cfg, db, m, out)
    ensures CallerOk(db, x) == CallerOk(db, m)
  {
  }

  lemma DeferKeeps(cfg: Config, s: State, t: State, p: Pid)
    requires ValidConfig(cfg) && Inv(cfg, s) && DeferStep(cfg, s, p, t)
    ensures Inv(cfg, t)
  {
    hide Tables, AwakeOn, Atomic, History, Backed, BookOf, ContinueOf, SettleOf, Held, Wants, Unblocked, DeferredRow;
    var m, x := s.procs[p], t.procs[p];
    assert ProcOk(cfg, s.db, s.clock, m);
    DeferringOk(cfg, s.db, s.clock, m, x);
    MovingAdvances(cfg, s, t, p, x);
  }

  lemma DeferringOk(cfg: Config, db: DB, clock: Time, m: Proc, x: Proc)
    requires ValidConfig(cfg) && m.Moving? && MovingOk(cfg, db, clock, m) && (m.stage.Begun? || m.stage.Viewed?)
    requires m.caller.ByResume? && DeferredRow(cfg, m.id, m.base, m.now).updatedAt >= m.base.updatedAt
    requires x == m.(stage := Deferring(DeferredRow(cfg, m.id, m.base, m.now)))
    ensures MovingOk(cfg, db, clock, x) && Held(x) <= Held(m)
  {
    hide DeferredRow, ViewSound;
    SameRest(cfg, db, m, x, None, Outcome(m.base, None));
  }

  // ----- The steps of a resume turn and of an opening ------------------------

  lemma ResumeKeeps(cfg: Config, s: State, t: State, step: Step)
    requires ValidConfig(cfg) && Inv(cfg, s) && Next(cfg, s, step, t)
    requires step.Resume? || step.NextDue? || step.LockCandidate?
    ensures Inv(cfg, t)
  {
    hide Tables, AwakeOn, Atomic, History, Backed, BookOf;
    var p := step.p;
    if !step.Resume? {
      assert ProcOk(cfg, s.db, s.clock, s.procs[p]);
      TakesOnlyItsWants(s, p, t.procs[p]);
    }
    Advances(cfg, s, t, p, t.procs[p]);
  }

  lemma ClaimKeeps(cfg: Config, s: State, t: State, p: Pid)
    requires ValidConfig(cfg) && Inv(cfg, s) && ClaimStep(s, p, t)
    ensures Inv(cfg, t)
  {
    hide Tables, AwakeOn, Atomic, History, Backed, BookOf, Held, Wants, Unblocked;
    if p in t.procs {
      ClaimedOk(cfg, s.db, s.clock, s.procs[p], t.procs[p]);
      MovingAdvances(cfg, s, t, p, t.procs[p]);
    } else {
      Ends(cfg, s, t, p);
    }
  }

  lemma ClaimedOk(cfg: Config, db: DB, clock: Time, m: Proc, x: Proc)
    requires ValidConfig(cfg) && Tables(db, clock) && ProcOk(cfg, db, clock, m) && m.Resuming? && m.at.Holding?
    requires m.at.id in db.rows && db.rows[m.at.id].op.wallet == m.at.wallet && m.at.wallet in db.wallets
    requires DueAt(db.rows[m.at.id], m.now)
    requires x == Moving(ByResume, m.at.id, db.rows[m.at.id], db.wallets[m.at.wallet], m.now, Begun)
    ensures MovingOk(cfg, db, clock, x) && Held(x) <= Held(m) + Wants(db, m)
  {
    hide KeysUnique, Resolution, OnePerKind, HoldsExact, Ledgers, Nets, WalletsSound, InboxBacked;
    assert RowShape(x.base, clock);
  }

  lemma OpenKeeps(cfg: Config, s: State, t: State, step: Step)
    requires ValidConfig(cfg) && Inv(cfg, s) && Next(cfg, s, step, t)
    requires step.Open? || step.OpenInsert? || step.OpenAppend?
    ensures Inv(cfg, t)
  {
    hide Tables, AwakeOn, Atomic, History, Backed, BookOf;
    var p := step.p;
    if step.OpenInsert? && p !in t.procs {
      Ends(cfg, s, t, p);
    } else {
      if !step.Open? {
        assert ProcOk(cfg, s.db, s.clock, s.procs[p]);
        TakesOnlyItsWants(s, p, t.procs[p]);
      }
      Advances(cfg, s, t, p, t.procs[p]);
    }
  }

  lemma FaultKeeps(cfg: Config, s: State, t: State, p: Pid)
    requires ValidConfig(cfg) && Inv(cfg, s) && FaultStep(s, p, t)
    ensures Inv(cfg, t)
  {
    hide Tables, AwakeOn, Atomic, History, Backed, BookOf;
    if p in t.procs {
      Advances(cfg, s, t, p, t.procs[p]);
    } else {
      Ends(cfg, s, t, p);
    }
  }

  lemma DeleteKeeps(cfg: Config, s: State, t: State, p: Pid)
    requires ValidConfig(cfg) && Inv(cfg, s) && DeleteStep(s, p, t)
    ensures Inv(cfg, t)
  {
    hide Tables, AwakeOn, Atomic, History, BookOf, Held;
    assert ProcOk(cfg, s.db, s.clock, s.procs[p]);
    assert Backed(s.db, s.procs[p].cmd.op);
  }

  /** The clock only moves the "already due" half of what is promised. */
  lemma TickKeeps(cfg: Config, s: State, t: State, now: Time)
    requires ValidConfig(cfg) && Inv(cfg, s) && now >= s.clock && t == s.(clock := now)
    ensures Inv(cfg, t)
  {
    forall p | p in t.procs
      ensures ProcOk(cfg, t.db, t.clock, t.procs[p])
    {
      assert ProcOk(cfg, s.db, s.clock, s.procs[p]);
    }
  }
}
