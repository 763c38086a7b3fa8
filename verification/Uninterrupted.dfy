/** Whole transactions run from their first statement to their commit while nobody
    else holds a lock: the pieces explicit runs are put together from. */
module Uninterrupted {
  import opened Prelude
  import opened Domain
  import opened Store
  import opened Movement
  import opened MovementRuns

  lemma InitialIsReachable(cfg: Config)
    requires ValidConfig(cfg)
    ensures Reachable(cfg, INITIAL)
  {
    hide Next;
    assert IsRun(cfg, [INITIAL], []) && [INITIAL][0] == INITIAL;
  }

  lemma Extends(cfg: Config, s: State, step: Step, t: State)
    requires ValidConfig(cfg) && Reachable(cfg, s) && Next(cfg, s, step, t)
    ensures Reachable(cfg, t)
  {
    hide Next;
    var states, steps :| IsRun(cfg, states, steps) && states[|steps|] == s;
    var more, longer := states + [t], steps + [step];
    forall i {:trigger longer[i]} | 0 <= i < |longer|
      ensures Next(cfg, more[i], longer[i], more[i + 1])
    {
      if i < |steps| {
        assert longer[i] == steps[i] && more[i] == states[i] && more[i + 1] == states[i + 1];
      }
    }
    assert IsRun(cfg, more, longer) && more[|longer|] == t;
  }

  /** One process takes one step and stays. */
  lemma Goes(cfg: Config, s: State, p: Pid, x: Proc, step: Step, y: Proc)
    requires ValidConfig(cfg) && Reachable(cfg, With(s, p, x)) && Next(cfg, With(s, p, x), step, With(s, p, y))
    ensures Reachable(cfg, With(s, p, y))
  {
    hide Next, Reachable;
    Extends(cfg, With(s, p, x), step, With(s, p, y));
  }

  lemma Overwrites(s: State, p: Pid, x: Proc, y: Proc)
    ensures With(With(s, p, x), p, y) == With(s, p, y)
  {
    assert s.procs[p := x][p := y] == s.procs[p := y];
  }

  /** Nobody else holds anything. */
  ghost predicate Idle(s: State) {
    forall q :: q in s.procs ==> Held(s.procs[q]) == {}
  }

  lemma IdleUnblocks(s: State, p: Pid, x: Proc)
    requires Idle(s)
    ensures Unblocked(With(s, p, x), p)
  {
    hide Held, Wants;
  }

  lemma Ticks(cfg: Config, s: State, now: Time)
    requires ValidConfig(cfg) && Reachable(cfg, s) && now >= s.clock
    ensures Reachable(cfg, s.(clock := now))
  {
    hide Reachable;
    Extends(cfg, s, Tick(now), s.(clock := now));
  }

  // ----- A submission --------------------------------------------------------

  /** What a submission with no message needs to find. */
  ghost predicate MaySubmit(s: State, p: Pid, cmd: Command) {
    && p !in s.procs && Idle(s)
    && ValidCommand(cmd.op) && cmd.message.None? && cmd.attempt == |s.starts| && cmd.id !in s.db.rows
    && !Clashes(s.db, cmd.op)
    && cmd.op.wallet in s.db.wallets && s.db.wallets[cmd.op.wallet].player == cmd.op.player
  }

  function Began(s: State): State {
    s.(starts := s.starts + [|s.log|])
  }

  lemma SubmitsToReady(cfg: Config, s: State, p: Pid, cmd: Command)
    requires ValidConfig(cfg) && Reachable(cfg, s) && MaySubmit(s, p, cmd)
    ensures Reachable(cfg, With(Began(s), p, Submitting(cmd, BothMissed(false))))
  {
    hide Reachable, Clashes, Held;
    var b := Began(s);
    assert forall q :: q in s.procs ==> NewId(cmd.id) !in Held(s.procs[q]);
    Extends(cfg, s, Submit(p, cmd), With(b, p, Submitting(cmd, Started)));
    var x0, x1 := Submitting(cmd, Started), Submitting(cmd, Ready(false));
    Overwrites(b, p, x0, x1);
    Goes(cfg, b, p, x0, FindInbox(p), x1);
    var x2, x3 := Submitting(cmd, KeyMissed(false)), Submitting(cmd, BothMissed(false));
    Unclashed(s.db, cmd.op);
    Overwrites(b, p, x1, x2);
    Goes(cfg, b, p, x1, ReadKey(p, None), x2);
    Overwrites(b, p, x2, x3);
    Goes(cfg, b, p, x2, ReadExternal(p, None), x3);
  }

  lemma Unclashed(db: DB, op: Operation)
    requires !Clashes(db, op)
    ensures forall r :: !KeyAt(db, r, op.provider, op.key) && !ExternalAt(db, r, op.provider, op.external)
  {
  }

  /** The movement a submission at the head of its insert becomes. */
  function Application(s: State, cmd: Command, stage: Stage): Proc
    requires cmd.op.wallet in s.db.wallets
  {
    Moving(BySubmit(cmd, false), cmd.id, NewRow(cmd.op, s.clock), s.db.wallets[cmd.op.wallet], s.clock, stage)
  }

  lemma SubmitsToInsert(cfg: Config, s: State, p: Pid, cmd: Command)
    requires ValidConfig(cfg) && MaySubmit(s, p, cmd)
    requires Reachable(cfg, With(Began(s), p, Submitting(cmd, BothMissed(false))))
    ensures Reachable(cfg, With(Began(s), p, Application(s, cmd, Begun)))
  {
    hide Reachable, Clashes, Held, Unblocked;
    var b, wallet := Began(s), s.db.wallets[cmd.op.wallet];
    var x3, x4 := Submitting(cmd, BothMissed(false)), Submitting(cmd, Locked(false, wallet));
    var x5, x6 := Submitting(cmd, Stamped(false, wallet, s.clock)), Submitting(cmd, Entered(false, wallet, s.clock));
    var x7 := Application(s, cmd, Begun);
    IdleUnblocks(b, p, x3);
    Overwrites(b, p, x3, x4);
    Goes(cfg, b, p, x3, LockWallet(p), x4);
    Overwrites(b, p, x4, x5);
    Goes(cfg, b, p, x4, Stamp(p), x5);
    Unclashed(s.db, cmd.op);
    IdleUnblocks(b, p, x5);
    Overwrites(b, p, x5, x6);
    Goes(cfg, b, p, x5, EnterExternal(p), x6);
    IdleUnblocks(b, p, x6);
    Overwrites(b, p, x6, x7);
    Goes(cfg, b, p, x6, Step.Record(p), x7);
  }

  ghost predicate Reads(db: DB, op: Operation, view: Option<View>) {
    if op.reference.Some? then IsView(db, op.provider, op.reference.value, view) else view.None?
  }

  // ----- A movement, whoever began it ----------------------------------------

  lemma MovesToView(cfg: Config, s: State, p: Pid, m: Proc, view: Option<View>)
    requires ValidConfig(cfg) && m.Moving? && m.stage.Begun? && Reads(s.db, m.base.op, view)
    requires Reachable(cfg, With(s, p, m))
    ensures Reachable(cfg, With(s, p, m.(stage := Viewed(view))))
  {
    hide Reachable, IsView;
    Overwrites(s, p, m, m.(stage := Viewed(view)));
    Goes(cfg, s, p, m, ReadReference(p, view), m.(stage := Viewed(view)));
  }

  /** Everything the movement stages, once its outcome and its door agree. */
  function Everything(db: DB, d: Delta, out: Outcome, now: Time): Delta {
    Store.Append(db, Store.Wake(db, d, out.row, now), EventsOf(out))
  }

  lemma MovesToAppended(cfg: Config, s: State, p: Pid, m: Proc, view: Option<View>, out: Outcome, d: Delta)
    requires ValidConfig(cfg) && Idle(s) && m.Moving? && m.stage == Viewed(view)
    requires ContinueOf(cfg, m, view) == Ok(out) && SettleOf(cfg, s.db, m, out) == Ok(d)
    requires Reachable(cfg, With(s, p, m))
    ensures Reachable(cfg, With(s, p, m.(stage := Appended(view, out, Everything(s.db, d, out, m.now)))))
  {
    hide Reachable, ContinueOf, SettleOf, Store.Wake, Store.Append, Unblocked;
    var x1 := m.(stage := Settled(view, out, d));
    var x2 := m.(stage := Woke(view, out, Store.Wake(s.db, d, out.row, m.now)));
    var x3 := m.(stage := Appended(view, out, Everything(s.db, d, out, m.now)));
    Overwrites(s, p, m, x1);
    Goes(cfg, s, p, m, Step.Settle(p), x1);
    IdleUnblocks(s, p, x1);
    Overwrites(s, p, x1, x2);
    Goes(cfg, s, p, x1, Step.Wake(p), x2);
    IdleUnblocks(s, p, x2);
    Overwrites(s, p, x2, x3);
    Goes(cfg, s, p, x2, Step.Append(p), x3);
  }

  /** A submission's commit, and its caller gone. */
  lemma SubmissionCommits(cfg: Config, b: State, p: Pid, m: Proc, t: State)
    requires ValidConfig(cfg) && p !in b.procs && m.Moving? && m.caller.BySubmit? && !m.caller.claimed && m.stage.Appended?
    requires m.id in m.stage.delta.rows
    requires t == b.(db := Merge(b.db, m.stage.delta), log := b.log + [LogEntry(m.caller.cmd, Recorded(m.id))])
    requires Reachable(cfg, With(b, p, m))
    ensures Reachable(cfg, t)
  {
    hide Reachable, Merge;
    var cmd := m.caller.cmd;
    var done := Answered(cmd, Accepted(m.id, m.stage.delta.rows[m.id], false));
    Overwrites(b, p, m, done);
    assert CommitStep(With(b, p, m), p, true, With(t, p, done));
    Extends(cfg, With(b, p, m), Commit(p, true), With(t, p, done));
    assert t.procs[p := done] - {p} == t.procs;
    Extends(cfg, With(t, p, done), Crash(p), t);
  }

  /** A submission from first to last. */
  lemma SubmissionRuns(cfg: Config, s: State, p: Pid, cmd: Command, view: Option<View>, out: Outcome, d: Delta)
    requires ValidConfig(cfg) && Reachable(cfg, s) && MaySubmit(s, p, cmd) && Reads(s.db, cmd.op, view)
    requires ContinueOf(cfg, Application(s, cmd, Viewed(view)), view) == Ok(out)
    requires SettleOf(cfg, s.db, Application(s, cmd, Viewed(view)), out) == Ok(d)
    ensures Reachable(cfg, Began(s).(db := Merge(s.db, Everything(s.db, d, out, s.clock)),
                                     log := s.log + [LogEntry(cmd, Recorded(cmd.id))]))
  {
    hide Reachable, Clashes, Held, Unblocked, ContinueOf, SettleOf, Everything, Merge, Reads, ValidCommand, With;
    var b, all := Began(s), Everything(s.db, d, out, s.clock);
    SubmitsToReady(cfg, s, p, cmd);
    SubmitsToInsert(cfg, s, p, cmd);
    MovesToView(cfg, b, p, Application(s, cmd, Begun), view);
    MovesToAppended(cfg, b, p, Application(s, cmd, Viewed(view)), view, out, d);
    StagesItsRow(cfg, s.db, Application(s, cmd, Viewed(view)), out, d, s.clock);
    SubmissionCommits(cfg, b, p, Application(s, cmd, Appended(view, out, all)),
      b.(db := Merge(s.db, all), log := s.log + [LogEntry(cmd, Recorded(cmd.id))]));
  }

  lemma StagesItsRow(cfg: Config, db: DB, m: Proc, out: Outcome, d: Delta, now: Time)
    requires ValidConfig(cfg) && m.Moving? && SettleOf(cfg, db, m, out) == Ok(d)
    ensures m.id in Everything(db, d, out, now).rows
  {
  }

  // ----- A resume turn -------------------------------------------------------

  lemma ResumeBegins(cfg: Config, s: State, p: Pid)
    requires ValidConfig(cfg) && Reachable(cfg, s) && p !in s.procs
    ensures Reachable(cfg, With(s, p, Resuming(s.clock, Looking)))
  {
    hide Reachable;
    Extends(cfg, s, Resume(p), With(s, p, Resuming(s.clock, Looking)));
  }

  lemma ResumeFinds(cfg: Config, s: State, p: Pid, now: Time, id: TransactionId)
    requires ValidConfig(cfg) && Reachable(cfg, With(s, p, Resuming(now, Looking)))
    requires id in s.db.rows && DueAt(s.db.rows[id], now)
    ensures Reachable(cfg, With(s, p, Resuming(now, Candidate(id, s.db.rows[id].op.wallet))))
  {
    hide Reachable;
    var x := Resuming(now, Candidate(id, s.db.rows[id].op.wallet));
    Overwrites(s, p, Resuming(now, Looking), x);
    Goes(cfg, s, p, Resuming(now, Looking), NextDue(p, id), x);
  }

  function Resumption(db: DB, id: TransactionId, now: Time, stage: Stage): Proc
    requires id in db.rows && db.rows[id].op.wallet in db.wallets
  {
    Moving(ByResume, id, db.rows[id], db.wallets[db.rows[id].op.wallet], now, stage)
  }

  /** From the candidate to its view. */
  lemma ResumeViews(cfg: Config, s: State, p: Pid, now: Time, id: TransactionId, view: Option<View>)
    requires ValidConfig(cfg) && Idle(s)
    requires id in s.db.rows && DueAt(s.db.rows[id], now) && s.db.rows[id].op.wallet in s.db.wallets
    requires Reads(s.db, s.db.rows[id].op, view)
    requires Reachable(cfg, With(s, p, Resuming(now, Candidate(id, s.db.rows[id].op.wallet))))
    ensures Reachable(cfg, With(s, p, Resumption(s.db, id, now, Viewed(view))))
  {
    hide Reachable, Unblocked, IsView;
    var w := s.db.rows[id].op.wallet;
    var x0, x1, x2 := Resuming(now, Candidate(id, w)), Resuming(now, Holding(id, w)), Resumption(s.db, id, now, Begun);
    IdleUnblocks(s, p, x0);
    Overwrites(s, p, x0, x1);
    Goes(cfg, s, p, x0, LockCandidate(p), x1);
    IdleUnblocks(s, p, x1);
    Overwrites(s, p, x1, x2);
    Goes(cfg, s, p, x1, Step.Claim(p), x2);
    MovesToView(cfg, s, p, x2, view);
  }

  /** From the view to the commit. */
  lemma ResumeSettles(cfg: Config, s: State, p: Pid, now: Time, id: TransactionId, view: Option<View>, out: Outcome, d: Delta)
    requires ValidConfig(cfg) && Idle(s) && p !in s.procs && id in s.db.rows && s.db.rows[id].op.wallet in s.db.wallets
    requires ContinueOf(cfg, Resumption(s.db, id, now, Viewed(view)), view) == Ok(out)
    requires SettleOf(cfg, s.db, Resumption(s.db, id, now, Viewed(view)), out) == Ok(d)
    requires Reachable(cfg, With(s, p, Resumption(s.db, id, now, Viewed(view))))
    ensures Reachable(cfg, s.(db := Merge(s.db, Everything(s.db, d, out, now))))
  {
    hide Reachable, Unblocked, ContinueOf, SettleOf, Store.Wake, Merge;
    MovesToAppended(cfg, s, p, Resumption(s.db, id, now, Viewed(view)), view, out, d);
    var all := Everything(s.db, d, out, now);
    var m := Resumption(s.db, id, now, Appended(view, out, all));
    var t := s.(db := Merge(s.db, all));
    assert s.procs[p := m] - {p} == s.procs;
    Extends(cfg, With(s, p, m), Commit(p, true), t);
  }

  // ----- An opening ----------------------------------------------------------

  lemma OpeningAnnounces(cfg: Config, s: State, p: Pid, o: OpenCommand)
    requires ValidConfig(cfg) && Idle(s)
    requires forall w :: w in s.db.wallets ==> s.db.wallets[w].player != o.player || s.db.wallets[w].currency != o.currency
    requires Reachable(cfg, With(s, p, OpeningWallet(o, Unseen(s.clock))))
    ensures Reachable(cfg, With(s, p, OpeningWallet(o, Announced(s.clock))))
  {
    hide Reachable, Unblocked;
    var x0, x1, x2 := OpeningWallet(o, Unseen(s.clock)), OpeningWallet(o, Inserted(s.clock)), OpeningWallet(o, Announced(s.clock));
    IdleUnblocks(s, p, x0);
    Overwrites(s, p, x0, x1);
    Goes(cfg, s, p, x0, OpenInsert(p), x1);
    IdleUnblocks(s, p, x1);
    Overwrites(s, p, x1, x2);
    Goes(cfg, s, p, x1, OpenAppend(p), x2);
  }

  lemma OpeningRuns(cfg: Config, s: State, p: Pid, o: OpenCommand)
    requires ValidConfig(cfg) && Reachable(cfg, s) && Idle(s) && p !in s.procs
    requires 0 <= o.amount <= MAX_MINOR && o.tx !in s.db.rows && o.wallet !in s.db.wallets
    requires forall w :: w in s.db.wallets ==> s.db.wallets[w].player != o.player || s.db.wallets[w].currency != o.currency
    ensures Reachable(cfg, s.(db := Opened(s.db, o, s.clock)))
  {
    hide Reachable, Unblocked, Opened, Held;
    var x0, x2 := OpeningWallet(o, Unseen(s.clock)), OpeningWallet(o, Announced(s.clock));
    assert OpenStep(s, p, o, With(s, p, x0));
    Extends(cfg, s, Open(p, o), With(s, p, x0));
    OpeningAnnounces(cfg, s, p, o);
    assert s.procs[p := x2] - {p} == s.procs;
    assert CommitStep(With(s, p, x2), p, true, s.(db := Opened(s.db, o, s.clock)));
    Extends(cfg, With(s, p, x2), Commit(p, true), s.(db := Opened(s.db, o, s.clock)));
  }
}
