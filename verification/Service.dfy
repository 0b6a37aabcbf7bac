/** The workers as they are written: retry loops and settlement steps over a
    store that every other thread changes in between. Each call a worker makes
    is shown to be a step of the transition system, so what holds of its runs
    holds of this code. */
module Service {
  import opened Conservation
  import Currency
  import Exclusion
  import GivenBack
  import opened Ledger
  import opened Numbers
  import opened PaymentMatch
  import opened Steps
  import Records

  /** The checks of the chain that a worker has made. */
  predicate IsCheck(e: Event, me: nat) {
    e.Call? && e.worker == me && e.outcome.Chain?
  }

  /** What they came out with, in order. */
  function Answers(history: seq<Event>, me: nat): seq<Answer> {
    if history == [] then []
    else
      var last := history[|history| - 1];
      Answers(history[..|history| - 1], me) + if IsCheck(last, me) then [last.outcome.answer] else []
  }

  lemma AnswersOfOneMore(history: seq<Event>, e: Event, me: nat)
    ensures Answers(history + [e], me) == Answers(history, me) + if IsCheck(e, me) then [e.outcome.answer] else []
  {
    assert (history + [e])[..|history|] == history;
  }

  /** The run has gone on, without a check by this worker. */
  ghost predicate GoneOn(earlier: seq<Event>, history: seq<Event>, me: nat) {
    earlier <= history && Answers(history, me) == Answers(earlier, me)
  }

  /** The answers of one pass through the retry loop. All but the last are
      neither verified nor final errors, and the last is one of those unless the
      retries are used up. */
  predicate Retried(answers: seq<Answer>, retries: nat) {
    && 1 <= |answers| <= retries + 1
    && (forall i :: 0 <= i < |answers| - 1 ==> answers[i].Unpaid? || answers[i].Transient?)
    && (|answers| <= retries ==> answers[|answers| - 1].Paid? || answers[|answers| - 1].Permanent?)
  }

  /** The sleep after attempt n, twice as long as the one before. */
  function Pause(n: nat, base: nat): nat {
    base * Pow2(n)
  }

  /** The sleeps that these answers call for: one after each transient error, but
      for the last attempt. */
  function SleptFor(answers: seq<Answer>, retries: nat, base: nat): nat {
    if answers == [] then 0
    else
      var n := |answers| - 1;
      SleptFor(answers[..n], retries, base) + if answers[n].Transient? && n < retries then Pause(n, base) else 0
  }

  lemma SleptForOneMore(answers: seq<Answer>, answer: Answer, retries: nat, base: nat)
    ensures SleptFor(answers + [answer], retries, base)
            == SleptFor(answers, retries, base)
               + if answer.Transient? && |answers| < retries then Pause(|answers|, base) else 0
  {
    assert (answers + [answer])[..|answers|] == answers;
  }

  /** At most (2^retries - 1) times the base, which it takes when every answer is
      a transient error. */
  lemma {:induction false} SleepIsBounded(answers: seq<Answer>, retries: nat, base: nat)
    ensures var n := if |answers| <= retries then |answers| else retries;
            && SleptFor(answers, retries, base) <= (Pow2(n) - 1) * base
            && ((forall i :: 0 <= i < |answers| ==> answers[i].Transient?) ==>
                  SleptFor(answers, retries, base) == (Pow2(n) - 1) * base)
  {
    if answers != [] {
      var n := |answers| - 1;
      SleepIsBounded(answers[..n], retries, base);
      if n < retries { OneMorePause(Pow2(n), base); }
    }
  }

  lemma OneMorePause(p: nat, base: nat)
    ensures (2 * p - 1) * base == (p - 1) * base + base * p && base * p >= 0
  {
  }

  /** A worker's sleeping. */
  class Timer {
    var slept: nat

    constructor ()
      ensures slept == 0
    {
      slept := 0;
    }

    method Sleep(time: nat)
      modifies this
      ensures slept == old(slept) + time
    {
      slept := slept + time;
    }
  }

  /** How a settlement ends: it returns, or it fails and is to be reset. */
  datatype Settlement = Returned(exit: Exit) | ToReset

  class Service {
    const retries: nat
    const base: nat                     // the polling interval, the unit of the back-off

    var now: int

    // The tables.
    var rows: map<Item, Row>
    var balances: map<string, Balance>

    // What has been written, and where every thread is.
    var log: seq<Entry>
    var workers: map<nat, Worker>
    var page: map<Item, string>
    var job: Job
    var backlog: multiset<Snapshot>
    var held: set<Item>

    // The run that led here.
    ghost const start: World
    ghost var history: seq<Event>

    function State(): World
      reads this
    {
      World(retries, base, now, rows, balances, log, workers, page, job, backlog, held)
    }

    ghost predicate Valid()
      reads this
    {
      Quiet(start) && IsRun(start, history) && Final(start, history) == State()
    }

    constructor (retries: nat, base: nat, now: int, rows: map<Item, Row>, balances: map<string, Balance>,
                 held: set<Item>)
      ensures Valid() && history == [] && start == State()
      ensures this.retries == retries && this.base == base && this.now == now
      ensures this.rows == rows && this.balances == balances && this.held == held
    {
      this.retries, this.base, this.now := retries, base, now;
      this.rows, this.balances := rows, balances;
      log, workers, page, job, backlog, this.held := [], map[], map[], Idle, multiset{}, held;
      start := World(retries, base, now, rows, balances, [], map[], map[], Idle, multiset{}, held);
      history := [];
    }

    // ---- The store's statements ----

    method SetStatus(item: Item, status: Status, hash: string)
      requires item in rows
      modifies this`rows
      ensures rows == old(rows)[item := UpdateRow(old(rows)[item], status, hash)]
    {
      rows := rows[item := UpdateRow(rows[item], status, hash)];
    }

    method UpdateBalance(user: string, cents: int, units: real)
      modifies this`balances
      ensures balances == Ledger.UpdateBalance(old(balances), user, cents, units)
    {
      if user in balances {
        balances := balances[user := balances[user].(cents := cents, units := units)];
      }
    }

    method ReleaseReservedBalance(user: string, c: nat)
      modifies this`balances
      ensures balances == Ledger.ReleaseReservedBalance(old(balances), user, c)
    {
      if user in balances && balances[user].reserved >= c {
        var b := balances[user];
        balances := balances[user := b.(cents := b.cents + c, reserved := b.reserved - c)];
      }
    }

    // ---- Steps ----

    /** The run goes on by a step whose effect on the tables is already there. */
    method Record(ghost e: Event, after: World)
      requires Quiet(start) && IsRun(start, history + [e]) && Final(start, history + [e]) == after
      requires after.retries == retries && after.interval == base && after.rows == rows && after.balances == balances
      modifies this`now, this`log, this`workers, this`page, this`job, this`backlog, this`held, this`history
      ensures Valid() && State() == after && history == old(history) + [e]
    {
      now, log, workers := after.now, after.log, after.workers;
      page, job, backlog, held := after.page, after.job, after.backlog, after.held;
      history := history + [e];
      assert State() == after;
    }

    /** A worker's call has come out as `outcome`: what it did to the tables is
        what the protocol says, and the worker moves on. */
    method Took(before: World, me: nat, outcome: Outcome)
      requires Quiet(start) && IsRun(start, history) && Final(start, history) == before && CanCall(before, me, outcome)
      requires retries == before.retries && base == before.interval
      requires rows == Next(before, Call(me, outcome)).rows && balances == Next(before, Call(me, outcome)).balances
      modifies this`now, this`log, this`workers, this`page, this`job, this`backlog, this`held, this`history
      ensures Valid() && State() == Next(before, Call(me, outcome))
      ensures history == old(history) + [Call(me, outcome)]
      ensures old(history) <= history
      ensures Answers(history, me) == Answers(old(history), me) + if outcome.Chain? then [outcome.answer] else []
    {
      RunSnoc(start, history, Call(me, outcome));
      StepKeepsTime(before, Call(me, outcome));
      AnswersOfOneMore(history, Call(me, outcome), me);
      Record(Call(me, outcome), Next(before, Call(me, outcome)));
    }

    /** Where this worker is, on which item. */
    ghost predicate At(me: nat, worker: Worker, terms: Row)
      reads this
    {
      && Valid() && me in workers && workers[me] == worker
      && worker.item in rows && SameTerms(rows[worker.item], terms)
    }

    /** A step of another thread. */
    method Interfere(e: Event)
      requires Valid() && Enabled(State(), e)
      modifies this
      ensures Valid() && State() == Next(old(State()), e) && history == old(history) + [e]
    {
      var after := Next(State(), e);
      RunSnoc(start, history, e);
      StepKeepsTime(State(), e);
      rows, balances := after.rows, after.balances;
      Record(e, after);
    }

    /** Any steps of any other threads. They leave a withdrawal failed that this
        worker has marked, and hold nothing for one that is no longer held. */
    method Preempt(me: nat, ghost worker: Worker, ghost terms: Row)
      requires At(me, worker, terms)
      modifies this
      ensures At(me, worker, terms) && GoneOn(old(history), history, me)
      ensures old(rows[worker.item].status) == Failed && worker.item.Withdrawal? && worker.Active() ==>
                rows[worker.item].status == Failed
      ensures old(worker.item !in held) ==> worker.item !in held
    {
      ghost var failed := rows[worker.item].status == Failed && worker.item.Withdrawal? && worker.Active();
      var steps: int :| steps >= 0;
      for i := 0 to steps
        invariant At(me, worker, terms) && GoneOn(old(history), history, me)
        invariant failed ==> rows[worker.item].status == Failed
        invariant old(worker.item !in held) ==> worker.item !in held
      {
        var e: Event := *;
        if Enabled(State(), e) && !(e.Call? && e.worker == me) {
          OthersLeaveMe(me, worker, terms, e);
          AnswersOfOneMore(history, e, me);
          Interfere(e);
        }
      }
    }

    lemma OthersLeaveMe(me: nat, worker: Worker, terms: Row, e: Event)
      requires At(me, worker, terms) && Enabled(State(), e) && !(e.Call? && e.worker == me)
      ensures var v := Next(State(), e);
              && me in v.workers && v.workers[me] == worker
              && worker.item in v.rows && SameTerms(v.rows[worker.item], terms)
              && (rows[worker.item].status == Failed && worker.item.Withdrawal? && worker.Active() ==>
                    v.rows[worker.item].status == Failed)
              && (worker.item !in held ==> worker.item !in v.held)
    {
      if worker.item !in held { GivenBack.HeldStaysOut(State(), e, worker.item); }
      StepKeepsTerms(State(), e, worker.item);
      StepKeepsWorkers(State(), e);
      StepMovesOneWorker(State(), e, me);
      if rows[worker.item].status == Failed && worker.item.Withdrawal? && worker.Active() {
        Keeps();
        FailedStays(State(), e, me);
      }
    }

    static lemma FailedStays(w: World, e: Event, me: nat)
      requires Exclusion.Exclusive(w) && Enabled(w, e) && !(e.Call? && e.worker == me)
      requires me in w.workers && w.workers[me].Active()
      requires w.workers[me].item.Withdrawal? && w.workers[me].item in w.rows
      requires w.rows[w.workers[me].item].status == Failed
      ensures w.workers[me].item in Next(w, e).rows && Next(w, e).rows[w.workers[me].item].status == Failed
    {
      if e.Call? {
        OthersCallLeavesFailed(w, e.worker, e.outcome, me);
      } else if e.Work? {
        ApplyKeepsRows(w, w.job.item, JobChange(w.job));
      }
    }

    static lemma OthersCallLeavesFailed(w: World, k: nat, outcome: Outcome, me: nat)
      requires Exclusion.Exclusive(w) && CanCall(w, k, outcome) && k != me
      requires me in w.workers && w.workers[me].Active() && w.workers[me].item in w.rows
      requires w.rows[w.workers[me].item].status == Failed
      ensures w.workers[me].item in Next(w, Call(k, outcome)).rows
      ensures Next(w, Call(k, outcome)).rows[w.workers[me].item].status == Failed
    {
      ApplyKeepsRows(w, w.workers[k].item, EffectOf(w, k, outcome).change);
    }

    /** What the code therefore keeps, whatever fails and however the threads
        interleave: one worker at a time past the claim of an item, a record of
        its own behind every balance write, no settled withdrawal still held, and
        no negative balance. */
    lemma Keeps()
      requires Valid()
      ensures forall k :: k in workers && workers[k].pc == Done(Settled) ==> GivenBack.Returned(State(), workers[k])
      ensures Exclusion.Exclusive(State())
      ensures Records.WritesAreBacked(log)
      ensures NonNegative(start.balances) ==> NonNegative(balances)
    {
      Exclusion.RunKeepsExclusive(start, history);
      GivenBack.RunKeepsReturned(start, history);
      Records.EveryWriteHasItsRecord(start, history, Session(""));
      if NonNegative(start.balances) {
        BalancesStayNonNegative(start, history);
      }
    }

    // ---- verifySolanaSession ----

    /** The claim: one database transaction, taken as one step. */
    method Claim(me: nat, item: Item, hash: string, ghost terms: Row) returns (claimed: bool)
      requires At(me, Worker(item, hash, Start), terms)
      modifies this
      ensures At(me, Worker(item, hash, if claimed then Claimed else Done(NotClaimed)), terms)
      ensures GoneOn(old(history), history, me)
    {
      Preempt(me, Worker(item, hash, Start), terms);
      var before := State();
      var ok: bool := *;
      claimed := false;
      if ok && rows[item].status == Pending {
        SetStatus(item, Processing, "");
        claimed := true;
      }
      Took(before, me, if ok then Ok else Err);
    }

    /** The lookups between the claim and the first check, any of which may make
        the worker give up; a withdrawal without a hash is to be marked failed. */
    method Prepare(me: nat, item: Item, hash: string, ghost terms: Row) returns (ready: bool)
      requires At(me, Worker(item, hash, Claimed), terms)
      modifies this
      ensures ready ==>
                At(me, Worker(item, hash, if item.Withdrawal? && hash == "" then Failing else Checking(0)), terms)
      ensures !ready ==> At(me, Worker(item, hash, Done(LeftProcessing)), terms)
      ensures GoneOn(old(history), history, me)
    {
      Preempt(me, Worker(item, hash, Claimed), terms);
      var before := State();
      ready := *;
      Took(before, me, if ready then Ok else Leave);
    }

    /** One check of the chain. */
    method Check(me: nat, item: Item, hash: string, attempt: nat, ghost terms: Row) returns (answer: Answer)
      requires At(me, Worker(item, hash, Checking(attempt)), terms)
      modifies this
      ensures At(me, Worker(item, hash, AfterCheck(item, terms, retries, attempt, answer)), terms)
      ensures old(history) <= history && Answers(history, me) == Answers(old(history), me) + [answer]
    {
      Preempt(me, Worker(item, hash, Checking(attempt)), terms);
      var before := State();
      answer :| FitsAnswer(item, rows[item], answer);
      SameAnswer(item, rows[item], terms, retries, attempt, answer);
      Took(before, me, Chain(answer));
    }

    /** Back to pending after an error. */
    method ResetToPending(me: nat, item: Item, hash: string, ghost terms: Row) returns (exit: Exit)
      requires At(me, Worker(item, hash, Resetting), terms)
      modifies this
      ensures At(me, Worker(item, hash, Done(exit)), terms) && (exit == Reset || exit == ResetFailed)
      ensures exit == Reset ==> rows[item].status == Pending
      ensures GoneOn(old(history), history, me)
    {
      Preempt(me, Worker(item, hash, Resetting), terms);
      var before := State();
      var ok: bool := *;
      exit := ResetFailed;
      if ok {
        SetStatus(item, Pending, "");
        exit := Reset;
      }
      Took(before, me, if ok then Ok else Err);
    }

    /** Records the transaction; a duplicate of it ends the work. */
    method CreateTransaction(me: nat, item: Item, hash: string, cents: int, units: real, payment: Payment,
                             ghost terms: Row)
      returns (outcome: Outcome, record: nat)
      requires At(me, Worker(item, hash, Recording(cents, units, payment)), terms)
      modifies this
      ensures outcome.Ok? || outcome.Err? || outcome.Leave?
      ensures outcome.Ok? ==> At(me, Worker(item, hash, Reading(cents, units, record)), terms)
      ensures outcome.Err? ==> At(me, Worker(item, hash, Resetting), terms)
      ensures outcome.Leave? ==> At(me, Worker(item, hash, Done(Duplicate)), terms)
      ensures GoneOn(old(history), history, me)
    {
      Preempt(me, Worker(item, hash, Recording(cents, units, payment)), terms);
      var before := State();
      record := |log|;
      outcome :| outcome.Ok? || outcome.Err? || outcome.Leave?;
      Took(before, me, outcome);
    }

    method GetBalance(me: nat, item: Item, hash: string, user: string, cents: int, units: real, record: nat,
                      ghost terms: Row)
      returns (ok: bool, balance: Balance)
      requires At(me, Worker(item, hash, Reading(cents, units, record)), terms) && user == terms.user
      modifies this
      ensures ok ==> At(me, Worker(item, hash, Writing(cents, units, record, balance)), terms)
      ensures !ok ==> At(me, Worker(item, hash, Resetting), terms)
      ensures GoneOn(old(history), history, me)
    {
      Preempt(me, Worker(item, hash, Reading(cents, units, record)), terms);
      var before := State();
      var answered: bool := *;
      ok := answered && user in balances;
      balance := if ok then balances[user] else Balance(0, 0.0, 0);
      Took(before, me, if answered then Ok else Err);
    }

    /** From the record to the completed status, for a deposit or a withdrawal. */
    method Settle(me: nat, item: Item, hash: string, user: string, cents: int, units: real, payment: Payment,
                  reserved: nat, released: bool,
                  ghost terms: Row)
      returns (result: Settlement)
      requires At(me, Worker(item, hash, Recording(cents, units, payment)), terms)
      requires user == terms.user && reserved == terms.reservedCents && released == terms.released
      modifies this
      ensures result.ToReset? ==> At(me, Worker(item, hash, Resetting), terms)
      ensures result.Returned? ==> At(me, Worker(item, hash, Done(result.exit)), terms)
      ensures result.Returned? ==>
                result.exit == Duplicate || (result.exit == Settled && rows[item].status == Completed)
      ensures GoneOn(old(history), history, me)
    {
      var outcome, record := CreateTransaction(me, item, hash, cents, units, payment, terms);
      if outcome.Leave? {
        return Returned(Duplicate);
      } else if outcome.Err? {
        return ToReset;
      }
      var wrote := MoveBalance(me, item, hash, user, cents, units, record, released, terms);
      if !wrote {
        return ToReset;
      }
      if item.Withdrawal? && !released {
        var freed := Release(me, item, hash, user, reserved, terms);
        if !freed {
          return ToReset;
        }
      }
      result := Complete(me, item, hash, terms);
    }

    /** The read, and the write of what comes of it. */
    method MoveBalance(me: nat, item: Item, hash: string, user: string, cents: int, units: real, record: nat,
                       released: bool, ghost terms: Row)
      returns (ok: bool)
      requires At(me, Worker(item, hash, Reading(cents, units, record)), terms)
      requires user == terms.user && released == terms.released
      modifies this
      ensures var pc := if !ok then Resetting else if item.Session? || released then Completing else Releasing;
              At(me, Worker(item, hash, pc), terms)
      ensures GoneOn(old(history), history, me)
      ensures ok ==> log != [] && log[|log| - 1] == Wrote(item, user, cents, units, record)
    {
      var read, balance := GetBalance(me, item, hash, user, cents, units, record, terms);
      if read {
        ok := WriteBalance(me, item, hash, user, cents, units, record, balance, released, terms);
      } else {
        ok := false;
      }
    }

    /** The new balance is computed from the one read, and written over it. */
    method WriteBalance(me: nat, item: Item, hash: string, user: string, cents: int, units: real, record: nat,
                        balance: Balance, released: bool,
                        ghost terms: Row)
      returns (ok: bool)
      requires At(me, Worker(item, hash, Writing(cents, units, record, balance)), terms)
      requires user == terms.user && released == terms.released
      modifies this
      ensures var pc := if !ok then Resetting else if item.Session? || released then Completing else Releasing;
              At(me, Worker(item, hash, pc), terms)
      ensures GoneOn(old(history), history, me) && |history| > |old(history)|
      ensures var cents', units' := balance.cents + Signed(item, cents), balance.units + SignedUnits(item, units);
              && (ok ==>
                    && cents' >= 0 && units' >= 0.0
                    && (user in balances ==> balances[user].cents == cents' && balances[user].units == units')
                    && log != [] && log[|log| - 1] == Wrote(item, user, cents, units, record))
              && (!ok ==> cents' < 0 || units' < 0.0 || history[|history| - 1] == Call(me, Err))
    {
      var newCents := if item.Session? then balance.cents + cents else balance.cents - cents;
      var newUnits := if item.Session? then balance.units + units else balance.units - units;
      Preempt(me, Worker(item, hash, Writing(cents, units, record, balance)), terms);
      var before := State();
      var answered: bool := *;
      ok := answered && newCents >= 0 && newUnits >= 0.0;
      ghost var worker := Worker(item, hash, Writing(cents, units, record, balance));
      WriteOutcome(before, me, worker, answered, ok, newCents, newUnits);
      if ok {
        UpdateBalance(user, newCents, newUnits);
      }
      Took(before, me, if answered then Ok else Err);
    }

    /** The protocol's balance write, spelt out. */
    static lemma WriteOutcome(w: World, k: nat, worker: Worker, answered: bool, ok: bool, cents: int, units: real)
      requires k in w.workers && w.workers[k] == worker && worker.item in w.rows && worker.pc.Writing?
      requires cents == worker.pc.seen.cents + Signed(worker.item, worker.pc.cents)
      requires units == worker.pc.seen.units + SignedUnits(worker.item, worker.pc.units)
      requires ok == (answered && cents >= 0 && units >= 0.0)
      ensures var row, pc, v := w.rows[worker.item], worker.pc, Next(w, Call(k, if answered then Ok else Err));
              && v.rows == w.rows
              && v.balances == (if ok then Ledger.UpdateBalance(w.balances, row.user, cents, units) else w.balances)
              && (ok ==> v.log == w.log + [Wrote(worker.item, row.user, pc.cents, pc.units, pc.record)])
              && v.workers == w.workers[k := worker.(pc :=
                   if !ok then Resetting else if worker.item.Session? || row.released then Completing else Releasing)]
    {
    }

    method Release(me: nat, item: Item, hash: string, user: string, reserved: nat, ghost terms: Row) returns (ok: bool)
      requires At(me, Worker(item, hash, Releasing), terms)
      requires user == terms.user && reserved == terms.reservedCents
      modifies this
      ensures At(me, Worker(item, hash, if ok then Completing else Resetting), terms)
      ensures GoneOn(old(history), history, me)
    {
      Preempt(me, Worker(item, hash, Releasing), terms);
      var before := State();
      ok := *;
      if ok {
        ReleaseReservedBalance(user, reserved);
      }
      Took(before, me, if ok then Ok else Err);
    }

    method Complete(me: nat, item: Item, hash: string, ghost terms: Row) returns (result: Settlement)
      requires At(me, Worker(item, hash, Completing), terms)
      modifies this
      ensures result.ToReset? ==> At(me, Worker(item, hash, Resetting), terms)
      ensures result.Returned? ==>
                && result.exit == Settled && At(me, Worker(item, hash, Done(Settled)), terms)
                && rows[item].status == Completed
      ensures GoneOn(old(history), history, me)
    {
      Preempt(me, Worker(item, hash, Completing), terms);
      var before := State();
      var ok: bool := *;
      result := ToReset;
      if ok {
        SetStatus(item, Completed, hash);
        result := Returned(Settled);
      }
      Took(before, me, if ok then Ok else Err);
    }

    /** A verified item is settled, or put back to pending. */
    method SettleOrReset(me: nat, item: Item, hash: string, cents: int, units: real, payment: Payment, ghost terms: Row)
      returns (exit: Exit)
      requires At(me, Worker(item, hash, Recording(cents, units, payment)), terms)
      modifies this
      ensures At(me, Worker(item, hash, Done(exit)), terms) && GoneOn(old(history), history, me)
      ensures Concluded(exit) && Reflected(item, exit)
    {
      var row := rows[item];
      var result := Settle(me, item, hash, row.user, cents, units, payment, row.reservedCents, row.released, terms);
      if result.Returned? {
        exit := result.exit;
        Keeps();
        assert exit == Settled ==> GivenBack.Returned(State(), workers[me]);
      } else {
        exit := ResetToPending(me, item, hash, terms);
      }
    }

    /** The exits of a retry loop. */
    predicate Concluded(exit: Exit) {
      exit.Duplicate? || exit.Settled? || exit.Reset? || exit.ResetFailed?
    }

    predicate Marks(exit: Exit) {
      exit.MarkedAsFailed? || exit.MarkingFailed?
    }

    /** The final status write shows in the row. */
    predicate Reflected(item: Item, exit: Exit)
      reads this
    {
      && item in rows
      && (exit == Settled ==> rows[item].status == Completed)
      && (exit == Reset ==> rows[item].status == Pending)
      && (exit == MarkedAsFailed ==> rows[item].status == Failed)
      && (exit == Settled && item.Withdrawal? && !rows[item].released ==> item !in held)
    }

    /** What a deposit's worker does with an answer: it settles, gives up, or
        goes on to the next check. */
    method TakeDepositAnswer(me: nat, item: Item, attempt: nat, answer: Answer, ghost terms: Row)
      returns (done: bool, exit: Exit)
      requires item.Session? && attempt <= retries
      requires At(me, Worker(item, "", AfterCheck(item, terms, retries, attempt, answer)), terms)
      modifies this
      ensures GoneOn(old(history), history, me)
      ensures done ==> At(me, Worker(item, "", Done(exit)), terms) && Concluded(exit) && Reflected(item, exit)
      ensures done ==> answer.Paid? || exit.Reset? || exit.ResetFailed?
      ensures !done ==> attempt < retries && At(me, Worker(item, "", Checking(attempt + 1)), terms)
      ensures !done <==> attempt < retries && (answer.Unpaid? || answer.Transient?)
    {
      done, exit := true, Reset;
      if answer.Paid? {
        var amount := Amount(answer.payment, rows[item].terms.decimals);
        var cents, units := Currency.CryptoToUSDCents(amount, answer.rate), amount * answer.rate;
        assert AfterCheck(item, terms, retries, attempt, answer) == Recording(cents, units, answer.payment);
        exit := SettleOrReset(me, item, "", cents, units, answer.payment, terms);
      } else if attempt == retries || answer.Permanent? {
        exit := ResetToPending(me, item, "", terms);
      } else {
        done := false;
      }
    }

    /** The retry loop for a deposit. It goes on after an answer that is neither
        verified nor a final error, as long as there are retries, and sleeps
        after each transient error, twice as long as before. */
    method RetryDeposit(me: nat, item: Item, timer: Timer, ghost terms: Row)
      returns (exit: Exit, ghost made: seq<Answer>)
      requires item.Session? && At(me, Worker(item, "", Checking(0)), terms)
      modifies this, timer
      ensures At(me, Worker(item, "", Done(exit)), terms) && Concluded(exit) && Reflected(item, exit)
      ensures old(history) <= history && Answers(history, me) == Answers(old(history), me) + made
      ensures Retried(made, retries) && (made[|made| - 1].Paid? || exit.Reset? || exit.ResetFailed?)
      ensures timer.slept == old(timer.slept) + SleptFor(made, retries, base)
    {
      var attempt := 0;
      made := [];
      while attempt <= retries
        invariant 0 <= attempt <= retries && At(me, Worker(item, "", Checking(attempt)), terms)
        invariant old(history) <= history && Answers(history, me) == Answers(old(history), me) + made
        invariant |made| == attempt && forall i :: 0 <= i < |made| ==> made[i].Unpaid? || made[i].Transient?
        invariant timer.slept == old(timer.slept) + SleptFor(made, retries, base)
      {
        var answer := Check(me, item, "", attempt, terms);
        SleptForOneMore(made, answer, retries, base);
        made := made + [answer];
        var done;
        done, exit := TakeDepositAnswer(me, item, attempt, answer, terms);
        if done {
          return;
        }
        if answer.Transient? {
          timer.Sleep(Pause(attempt, base));
        }
        attempt := attempt + 1;
      }
      assert false;
    }

    /** One worker's work on a deposit session. */
    method VerifySolanaSession(me: nat, item: Item, timer: Timer, ghost terms: Row)
      returns (exit: Exit, ghost made: seq<Answer>)
      requires item.Session? && At(me, Worker(item, "", Start), terms)
      modifies this, timer
      ensures At(me, Worker(item, "", Done(exit)), terms)
      ensures (exit.NotClaimed? || exit.LeftProcessing? || Concluded(exit)) && Reflected(item, exit)
      ensures old(history) <= history && Answers(history, me) == Answers(old(history), me) + made
      ensures if Concluded(exit) then Retried(made, retries) else made == []
      ensures timer.slept == old(timer.slept) + SleptFor(made, retries, base)
    {
      made := [];
      var claimed := Claim(me, item, "", terms);
      if !claimed {
        exit := NotClaimed;
        return;
      }
      var ready := Prepare(me, item, "", terms);
      if !ready {
        exit := LeftProcessing;
        return;
      }
      exit, made := RetryDeposit(me, item, timer, terms);
    }

    // ---- verifySolanaWithdrawal ----

    /** The status, then the reservation, then the status again; a failure after
        the first write is only logged. */
    method MarkWithdrawalFailed(me: nat, item: Item, hash: string, ghost terms: Row) returns (exit: Exit)
      requires item.Withdrawal? && At(me, Worker(item, hash, Failing), terms)
      modifies this
      ensures At(me, Worker(item, hash, Done(exit)), terms) && GoneOn(old(history), history, me)
      ensures (exit == MarkedAsFailed && rows[item].status == Failed) || exit == MarkingFailed
      // Marked, it has its reservation given back, unless that call failed.
      ensures exit == MarkedAsFailed && !terms.released ==>
                item !in held || (history != [] && history[|history| - 1] == Call(me, Err))
    {
      var row := rows[item];
      var ok := FailRow(me, item, hash, row.released, terms);
      if !ok {
        return MarkingFailed;
      }
      exit := MarkedAsFailed;
      if !row.released {
        var freed := FailRelease(me, item, hash, row.user, row.reservedCents, terms);
        if freed {
          Save(me, item, hash, terms);
        }
      }
    }

    method FailRelease(me: nat, item: Item, hash: string, user: string, reserved: nat, ghost terms: Row)
      returns (ok: bool)
      requires At(me, Worker(item, hash, FailReleasing), terms) && item.Withdrawal? && rows[item].status == Failed
      requires user == terms.user && reserved == terms.reservedCents
      modifies this
      ensures At(me, Worker(item, hash, if ok then FailSaving else Done(MarkedAsFailed)), terms)
      ensures rows[item].status == Failed
      ensures GoneOn(old(history), history, me)
      ensures if ok then item !in held else history != [] && history[|history| - 1] == Call(me, Err)
    {
      Preempt(me, Worker(item, hash, FailReleasing), terms);
      var before := State();
      ok := *;
      if ok {
        ReleaseReservedBalance(user, reserved);
      }
      Took(before, me, if ok then Ok else Err);
    }

    method FailRow(me: nat, item: Item, hash: string, released: bool, ghost terms: Row) returns (ok: bool)
      requires At(me, Worker(item, hash, Failing), terms) && released == terms.released
      modifies this
      ensures var pc := if !ok then Done(MarkingFailed) else if released then Done(MarkedAsFailed) else FailReleasing;
              At(me, Worker(item, hash, pc), terms)
      ensures ok ==> rows[item].status == Failed
      ensures GoneOn(old(history), history, me)
    {
      Preempt(me, Worker(item, hash, Failing), terms);
      var before := State();
      ok := *;
      if ok {
        SetStatus(item, Failed, hash);
      }
      Took(before, me, if ok then Ok else Err);
    }

    method Save(me: nat, item: Item, hash: string, ghost terms: Row)
      requires At(me, Worker(item, hash, FailSaving), terms) && item.Withdrawal?
      requires rows[item].status == Failed && item !in held
      modifies this
      ensures At(me, Worker(item, hash, Done(MarkedAsFailed)), terms) && rows[item].status == Failed
      ensures GoneOn(old(history), history, me) && item !in held
    {
      Preempt(me, Worker(item, hash, FailSaving), terms);
      var before := State();
      var ok: bool := *;
      if ok {
        SetStatus(item, Failed, hash);
      }
      Took(before, me, if ok then Ok else Err);
    }

    /** What a withdrawal's worker does with an answer: only one that is neither
        verified nor an error leads to the failed mark. */
    method TakeWithdrawalAnswer(me: nat, item: Item, hash: string, attempt: nat, answer: Answer, ghost terms: Row)
      returns (done: bool, exit: Exit)
      requires item.Withdrawal? && attempt <= retries
      requires At(me, Worker(item, hash, AfterCheck(item, terms, retries, attempt, answer)), terms)
      modifies this
      ensures GoneOn(old(history), history, me)
      ensures done ==> At(me, Worker(item, hash, Done(exit)), terms) && Reflected(item, exit)
      ensures done ==> if answer.Unpaid? then Marks(exit) else Concluded(exit)
      ensures done ==> answer.Paid? || answer.Unpaid? || exit.Reset? || exit.ResetFailed?
      ensures !done ==> attempt < retries && At(me, Worker(item, hash, Checking(attempt + 1)), terms)
      ensures !done <==> attempt < retries && (answer.Unpaid? || answer.Transient?)
    {
      done, exit := true, Reset;
      if answer.Paid? {
        exit := SettleOrReset(me, item, hash, rows[item].usdCents, rows[item].units, answer.payment, terms);
      } else if answer.Unpaid? && attempt == retries {
        exit := MarkWithdrawalFailed(me, item, hash, terms);
      } else if attempt == retries || answer.Permanent? {
        exit := ResetToPending(me, item, hash, terms);
      } else {
        done := false;
      }
    }

    /** The retry loop for a withdrawal, which ends in the failed mark exactly
        when the last answer is neither verified nor an error. */
    method RetryWithdrawal(me: nat, item: Item, hash: string, timer: Timer, ghost terms: Row)
      returns (exit: Exit, ghost made: seq<Answer>)
      requires item.Withdrawal? && At(me, Worker(item, hash, Checking(0)), terms)
      modifies this, timer
      ensures At(me, Worker(item, hash, Done(exit)), terms) && Reflected(item, exit)
      ensures Concluded(exit) || Marks(exit)
      ensures old(history) <= history && Answers(history, me) == Answers(old(history), me) + made
      ensures Retried(made, retries) && (made[|made| - 1].Unpaid? <==> Marks(exit))
      ensures made[|made| - 1].Paid? || Marks(exit) || exit.Reset? || exit.ResetFailed?
      ensures timer.slept == old(timer.slept) + SleptFor(made, retries, base)
    {
      var attempt := 0;
      made := [];
      while attempt <= retries
        invariant 0 <= attempt <= retries && At(me, Worker(item, hash, Checking(attempt)), terms)
        invariant old(history) <= history && Answers(history, me) == Answers(old(history), me) + made
        invariant |made| == attempt && forall i :: 0 <= i < |made| ==> made[i].Unpaid? || made[i].Transient?
        invariant timer.slept == old(timer.slept) + SleptFor(made, retries, base)
      {
        var answer := Check(me, item, hash, attempt, terms);
        SleptForOneMore(made, answer, retries, base);
        made := made + [answer];
        var done;
        done, exit := TakeWithdrawalAnswer(me, item, hash, attempt, answer, terms);
        if done {
          return;
        }
        if answer.Transient? {
          timer.Sleep(Pause(attempt, base));
        }
        attempt := attempt + 1;
      }
      assert false;
    }

    /** One worker's work on a withdrawal. */
    method VerifySolanaWithdrawal(me: nat, item: Item, hash: string, timer: Timer, ghost terms: Row)
      returns (exit: Exit, ghost made: seq<Answer>)
      requires item.Withdrawal? && At(me, Worker(item, hash, Start), terms)
      modifies this, timer
      ensures At(me, Worker(item, hash, Done(exit)), terms) && Reflected(item, exit)
      ensures old(history) <= history && Answers(history, me) == Answers(old(history), me) + made
      ensures if exit.NotClaimed? || exit.LeftProcessing? || hash == "" then made == []
              else Retried(made, retries) && (made[|made| - 1].Unpaid? <==> Marks(exit))
      ensures Concluded(exit) ==> hash != ""
      ensures timer.slept == old(timer.slept) + SleptFor(made, retries, base)
    {
      made := [];
      var claimed := Claim(me, item, hash, terms);
      if !claimed {
        exit := NotClaimed;
        return;
      }
      var ready := Prepare(me, item, hash, terms);
      if !ready {
        exit := LeftProcessing;
      } else if hash == "" {
        exit := MarkWithdrawalFailed(me, item, hash, terms);
      } else {
        exit, made := RetryWithdrawal(me, item, hash, timer, terms);
      }
    }
  }
}
