/** Reserved cents are the sum over the withdrawals whose release step has not
    run, exactly as long as no release gives back what it does not hold. */
module Reservation {
  import opened Conservation
  import opened Exclusion
  import opened FailedOrDebited
  import opened Ledger
  import opened Paths
  import opened PaymentMatch
  import opened Steps

  /** The reservations of one user among the withdrawals of a set. */
  ghost function HeldCents(rows: map<Item, Row>, held: set<Item>, user: string): nat {
    if held == {} then 0
    else
      var i :| i in held;
      HeldCents(rows, held - {i}, user) + Part(rows, i, user)
  }

  function Part(rows: map<Item, Row>, i: Item, user: string): nat {
    if i in rows && rows[i].user == user then rows[i].reservedCents else 0
  }

  lemma {:induction false} HeldWithout(rows: map<Item, Row>, held: set<Item>, user: string, i: Item)
    requires i in held
    ensures HeldCents(rows, held, user) == HeldCents(rows, held - {i}, user) + Part(rows, i, user)
    decreases held
  {
    var j :| j in held && HeldCents(rows, held, user) == HeldCents(rows, held - {j}, user) + Part(rows, j, user);
    if j != i {
      HeldWithout(rows, held - {j}, user, i);
      HeldWithout(rows, held - {i}, user, j);
      assert held - {j} - {i} == held - {i} - {j};
    }
  }

  lemma {:induction false} HeldSame(rows: map<Item, Row>, after: map<Item, Row>, held: set<Item>, user: string)
    requires forall i :: i in held ==> i in rows && i in after && SameTerms(after[i], rows[i])
    ensures HeldCents(after, held, user) == HeldCents(rows, held, user)
    decreases held
  {
    if held != {} {
      var i :| i in held;
      HeldWithout(rows, held, user, i);
      HeldWithout(after, held, user, i);
      HeldSame(rows, after, held - {i}, user);
    }
  }

  /** The hypotheses: checks answer as the client does, every withdrawal is
      opened by a reservation that takes effect, and no completed-status write
      of a withdrawal fails after its release. */
  predicate Allowed(w: World, e: Event) {
    && ClientAnswers(w, e)
    && OpensEffectively(w, e)
    && (e.Call? && e.worker in w.workers && w.workers[e.worker].pc.Completing?
        && w.workers[e.worker].item.Withdrawal? ==>
          !e.outcome.Err?)
  }

  predicate OpensEffectively(w: World, e: Event) {
    e.OpenWithdrawal? ==> e.row.user in w.balances && w.balances[e.row.user].cents >= e.row.reservedCents
  }

  ghost predicate ReservedIsHeld(w: World) {
    forall u :: u in w.balances ==> w.balances[u].reserved == HeldCents(w.rows, w.held, u)
  }

  ghost predicate HeldIsOpen(w: World) {
    forall i :: i in w.held ==> i in w.rows && i.Withdrawal? && !w.rows[i].released && w.rows[i].user in w.balances
  }

  predicate Unreleased(w: World, i: Item) {
    i in w.rows && i.Withdrawal? && !w.rows[i].released
  }

  // Everything that may still release a reservation holds it: the withdrawals
  // there to be claimed, those being worked on, and those being marked failed.

  ghost predicate RowsHold(w: World) {
    forall i :: Unreleased(w, i) && Claimable(w.rows[i].status) ==> i in w.held
  }

  predicate WorkerHolds(w: World, worker: Worker) {
    && (worker.Active() && !worker.pc.Completing? && Unreleased(w, worker.item) ==> worker.item in w.held)
    && (worker.pc.Releasing? ==> Unreleased(w, worker.item))
  }

  ghost predicate WorkersHold(w: World) {
    forall k :: k in w.workers ==> WorkerHolds(w, w.workers[k])
  }

  ghost predicate PollerHolds(w: World) {
    && (forall i :: i in w.page && w.page[i] == "" && Unreleased(w, i) ==> i in w.held)
    && ((w.job.Update? || w.job.Release?) && Unreleased(w, w.job.item) ==> w.job.item in w.held)
    && (w.job.Release? ==> Unreleased(w, w.job.item))
  }

  ghost predicate ReleasersHold(w: World) {
    RowsHold(w) && WorkersHold(w) && PollerHolds(w)
  }

  ghost predicate Accounted(w: World) {
    ReservedIsHeld(w) && HeldIsOpen(w) && ReleasersHold(w)
  }

  ghost predicate All(w: World) {
    Exclusive(w) && FailedOrDebited.Inv(w) && Accounted(w)
  }

  // ---- Reserved cents ----

  lemma HeldIsReserved(w: World, i: Item)
    requires ReservedIsHeld(w) && HeldIsOpen(w) && i in w.held
    ensures w.rows[i].user in w.balances && w.balances[w.rows[i].user].reserved >= w.rows[i].reservedCents
  {
    HeldWithout(w.rows, w.held, w.rows[i].user, i);
  }

  /** The step releases a reservation. */
  predicate Releases(w: World, e: Event, item: Item) {
    || (e == Work(true) && w.job == Release(item))
    || (e.Call? && e.outcome.Ok? && e.worker in w.workers && w.workers[e.worker].item == item
        && (w.workers[e.worker].pc.Releasing? || w.workers[e.worker].pc.FailReleasing?))
  }

  /** The release moves what is held for the item, or nothing at all. */
  ghost predicate Harmless(w: World, item: Item)
    requires item in w.rows
  {
    || item in w.held || w.rows[item].reservedCents == 0
    || w.rows[item].user !in w.balances || w.balances[w.rows[item].user].reserved < w.rows[item].reservedCents
  }

  ghost predicate ReleasesHarmlessly(w: World, e: Event) {
    forall item :: Releases(w, e, item) && item in w.rows ==> Harmless(w, item)
  }

  lemma HeldAfterRelease(w: World, i: Item, user: string)
    requires i in w.rows
    ensures var v := Apply(w, i, FreeReservation);
            HeldCents(v.rows, v.held, user)
            == HeldCents(w.rows, w.held, user) - if i in w.held then Part(w.rows, i, user) else 0
  {
    if i in w.held {
      HeldWithout(w.rows, w.held, user, i);
    } else {
      assert w.held - {i} == w.held;
    }
  }

  /** A release keeps the sums if and only if it is harmless, and moves money of
      its own if and only if that is still held. */
  lemma ReleaseIsRightExactlyIfHarmless(w: World, i: Item)
    requires ReservedIsHeld(w) && HeldIsOpen(w) && i in w.rows
    ensures var v := Apply(w, i, FreeReservation); HeldIsOpen(v) && (ReservedIsHeld(v) <==> Harmless(w, i))
    ensures var v, user, c := Apply(w, i, FreeReservation), w.rows[i].user, w.rows[i].reservedCents;
            user in w.balances && c > 0 ==>
              (i in w.held) == (v.balances[user].reserved == w.balances[user].reserved - c
                                && HeldCents(v.rows, v.held, user) == HeldCents(w.rows, w.held, user) - c)
  {
    var v, user := Apply(w, i, FreeReservation), w.rows[i].user;
    if i in w.held { HeldIsReserved(w, i); }
    forall u
      ensures HeldCents(v.rows, v.held, u)
              == HeldCents(w.rows, w.held, u) - if i in w.held then Part(w.rows, i, u) else 0
    {
      HeldAfterRelease(w, i, u);
    }
  }

  lemma ChangeKeepsReserved(w: World, i: Item, change: Change)
    requires ReservedIsHeld(w) && HeldIsOpen(w) && i in w.rows && !change.FreeReservation?
    ensures var v := Apply(w, i, change); ReservedIsHeld(v) && HeldIsOpen(v)
  {
    var v := Apply(w, i, change);
    forall j | j in w.held ensures j in v.rows && SameTerms(v.rows[j], w.rows[j]) {
      ChangeKeepsTerms(w, i, change, j);
    }
    forall u ensures HeldCents(v.rows, v.held, u) == HeldCents(w.rows, w.held, u) {
      HeldSame(w.rows, v.rows, w.held, u);
    }
  }

  lemma OpeningKeepsReserved(w: World, e: Event)
    requires ReservedIsHeld(w) && HeldIsOpen(w) && Enabled(w, e)
    requires OpensEffectively(w, e) && (e.OpenSession? || e.OpenWithdrawal?)
    ensures ReservedIsHeld(Next(w, e)) && HeldIsOpen(Next(w, e))
  {
    var v := Next(w, e);
    forall u ensures HeldCents(v.rows, w.held, u) == HeldCents(w.rows, w.held, u) {
      HeldSame(w.rows, v.rows, w.held, u);
    }
    if e.OpenWithdrawal? {
      assert e.item !in w.held && v.held - {e.item} == w.held;
      forall u ensures HeldCents(v.rows, v.held, u) == HeldCents(w.rows, w.held, u) + Part(v.rows, e.item, u) {
        HeldWithout(v.rows, v.held, u, e.item);
      }
    }
  }

  /** What one call or one piece of the poller's work does to the sums. */
  lemma ChangeReservesExactly(w: World, i: Item, change: Change)
    requires ReservedIsHeld(w) && HeldIsOpen(w) && i in w.rows
    ensures var v := Apply(w, i, change);
            HeldIsOpen(v) && (ReservedIsHeld(v) <==> (change.FreeReservation? ==> Harmless(w, i)))
  {
    if change.FreeReservation? {
      ReleaseIsRightExactlyIfHarmless(w, i);
    } else {
      ChangeKeepsReserved(w, i, change);
    }
  }

  lemma CallReservesExactly(w: World, k: nat, outcome: Outcome)
    requires ReservedIsHeld(w) && HeldIsOpen(w) && CanCall(w, k, outcome)
    ensures var e := Call(k, outcome);
            HeldIsOpen(Next(w, e)) && (ReservedIsHeld(Next(w, e)) <==> ReleasesHarmlessly(w, e))
  {
    var item, change := w.workers[k].item, EffectOf(w, k, outcome).change;
    ChangeReservesExactly(w, item, change);
    CallOnBalance(w, k, outcome);
    assert change.FreeReservation? <==> Releases(w, Call(k, outcome), item);
  }

  lemma WorkReservesExactly(w: World, ok: bool)
    requires ReservedIsHeld(w) && HeldIsOpen(w) && Enabled(w, Work(ok))
    ensures var e := Work(ok); HeldIsOpen(Next(w, e)) && (ReservedIsHeld(Next(w, e)) <==> ReleasesHarmlessly(w, e))
  {
    ChangeReservesExactly(w, w.job.item, JobChange(w.job));
    assert ok && JobChange(w.job).FreeReservation? <==> Releases(w, Work(ok), w.job.item);
  }

  lemma StepReservesExactly(w: World, e: Event)
    requires ReservedIsHeld(w) && HeldIsOpen(w) && Enabled(w, e) && OpensEffectively(w, e)
    ensures HeldIsOpen(Next(w, e)) && (ReservedIsHeld(Next(w, e)) <==> ReleasesHarmlessly(w, e))
  {
    if e.OpenSession? || e.OpenWithdrawal? {
      OpeningKeepsReserved(w, e);
    } else if RowStep(e) {
      ChangeKeepsReserved(w, e.item, RowChange(w, e));
    } else if e.Work? {
      WorkReservesExactly(w, e.ok);
    } else if e.Call? {
      CallReservesExactly(w, e.worker, e.outcome);
    }
  }

  lemma {:induction false} RunReservesExactly(w: World, run: seq<Event>)
    requires ReservedIsHeld(w) && HeldIsOpen(w) && Along(w, run, OpensEffectively)
    ensures Along(w, run, ReleasesHarmlessly) <==> Throughout(w, run, ReservedIsHeld)
    decreases |run|
  {
    if run != [] {
      StepReservesExactly(w, run[0]);
      if ReleasesHarmlessly(w, run[0]) {
        RunReservesExactly(Next(w, run[0]), run[1..]);
      }
    }
  }

  /** In every run whose withdrawals are opened by effective reservations,
      whatever fails: reserved cents are the sum over the withdrawals still held
      in all its states if and only if every release moves what is held for its
      own withdrawal, or nothing at all. */
  lemma ReservationsAddUpExactlyIfReleasesAreHarmless(w: World, run: seq<Event>)
    requires Quiet(w) && ReservedIsHeld(w) && HeldIsOpen(w) && Along(w, run, OpensEffectively)
    ensures Along(w, run, ReleasesHarmlessly) <==> Throughout(w, run, ReservedIsHeld)
  {
    RunReservesExactly(w, run);
  }

  /** Under the hypotheses a release finds its withdrawal held. */
  lemma ReleasedIsHeld(w: World, e: Event, item: Item)
    requires All(w) && Enabled(w, e) && Releases(w, e, item)
    ensures item in w.held && item in w.rows && (e.Call? ==> w.workers[e.worker].pc.Releasing?)
  {
    if e.Call? {
      assert !Marking(w.workers[e.worker].pc) && WorkerHolds(w, w.workers[e.worker]);
    }
  }

  lemma StepKeepsReserved(w: World, e: Event)
    requires All(w) && Enabled(w, e) && Allowed(w, e)
    ensures ReservedIsHeld(Next(w, e)) && HeldIsOpen(Next(w, e))
  {
    StepReservesExactly(w, e);
    forall item | Releases(w, e, item) ensures item in w.held {
      ReleasedIsHeld(w, e, item);
    }
  }

  // ---- Who may still release ----

  lemma SameUnreleased(w: World, e: Event, i: Item)
    requires Enabled(w, e) && i in w.rows
    ensures i in Next(w, e).rows && (Unreleased(Next(w, e), i) <==> Unreleased(w, i))
  {
    StepKeepsTerms(w, e, i);
  }

  /** What a call does to the row and the reservation of its item. */
  lemma CallOnItem(w: World, k: nat, outcome: Outcome)
    requires WorkersHold(w) && CanCall(w, k, outcome) && Allowed(w, Call(k, outcome)) && DispatchedHaveHash(w)
    requires RowsHold(w)
    ensures var v, effect := Next(w, Call(k, outcome)), EffectOf(w, k, outcome);
            && (effect.change.FreeReservation? ==> w.workers[k].pc.Releasing? && effect.pc.Completing?)
            && (effect.change.SetStatus? && Claimable(effect.change.status) ==> w.workers[k].pc.Resetting?)
            && WorkerHolds(v, v.workers[k])
  {
    CallDoesNotMark(w, k, outcome);
    SameUnreleased(w, Call(k, outcome), w.workers[k].item);
    assert WorkerHolds(w, w.workers[k]);
  }

  /** A call leaves the withdrawals of everyone else held. */
  lemma CallKeepsOthersHeld(w: World, k: nat, outcome: Outcome, i: Item)
    requires CanCall(w, k, outcome) && i in w.rows && i != w.workers[k].item
    ensures var v := Next(w, Call(k, outcome));
            i in v.rows && v.rows[i] == w.rows[i] && (i in v.held <==> i in w.held)
  {
    ChangeKeepsOthersHeld(w, w.workers[k].item, EffectOf(w, k, outcome).change, i);
  }

  lemma ChangeKeepsOthersHeld(w: World, item: Item, change: Change, i: Item)
    requires item in w.rows && i in w.rows && i != item
    ensures var v := Apply(w, item, change); i in v.rows && v.rows[i] == w.rows[i] && (i in v.held <==> i in w.held)
  {
  }

  /** The poller goes by the same withdrawals as before, none of them this one,
      and the others are as they were. */
  lemma SamePollerHolds(w: World, v: World, item: Item)
    requires PollerHolds(w) && v.page == w.page && v.job == w.job
    requires forall i :: i in w.page && w.page[i] == "" ==> i != item && i in w.rows
    requires !w.job.Idle? ==> w.job.item != item && w.job.item in w.rows
    requires forall i :: i in w.rows && i != item ==>
               (Unreleased(v, i) <==> Unreleased(w, i)) && (i in v.held <==> i in w.held)
    ensures PollerHolds(v)
  {
  }

  lemma CallKeepsRowsHold(w: World, k: nat, outcome: Outcome)
    requires Exclusive(w) && DispatchedHaveHash(w) && RowsHold(w) && WorkersHold(w)
    requires CanCall(w, k, outcome) && Allowed(w, Call(k, outcome))
    ensures RowsHold(Next(w, Call(k, outcome)))
  {
    var item, v := w.workers[k].item, Next(w, Call(k, outcome));
    CallOnItem(w, k, outcome);
    ApplyKeepsRows(w, item, EffectOf(w, k, outcome).change);
    assert WorkerHolds(w, w.workers[k]);
    SameUnreleased(w, Call(k, outcome), item);
    forall i | Unreleased(v, i) && Claimable(v.rows[i].status) ensures i in v.held {
      if i != item { CallKeepsOthersHeld(w, k, outcome, i); }
    }
  }

  lemma CallKeepsWorkersHold(w: World, k: nat, outcome: Outcome)
    requires Known(w) && Exclusive(w) && DispatchedHaveHash(w) && RowsHold(w) && WorkersHold(w)
    requires CanCall(w, k, outcome) && Allowed(w, Call(k, outcome))
    ensures WorkersHold(Next(w, Call(k, outcome)))
  {
    var v := Next(w, Call(k, outcome));
    CallOnItem(w, k, outcome);
    forall n | n in v.workers ensures WorkerHolds(v, v.workers[n]) {
      if n != k {
        assert WorkerHolds(w, w.workers[n]);
        SameUnreleased(w, Call(k, outcome), w.workers[n].item);
        if w.workers[n].item != w.workers[k].item { CallKeepsOthersHeld(w, k, outcome, w.workers[n].item); }
      }
    }
  }

  lemma CallKeepsPollerHolds(w: World, k: nat, outcome: Outcome)
    requires Known(w) && Apart(w) && PollerHolds(w) && CanCall(w, k, outcome)
    ensures PollerHolds(Next(w, Call(k, outcome)))
  {
    var item, v := w.workers[k].item, Next(w, Call(k, outcome));
    assert Dispatched(w, item) && !Doomed(w, item);
    forall i | i in w.rows && i != item
      ensures (Unreleased(v, i) <==> Unreleased(w, i)) && (i in v.held <==> i in w.held)
    {
      CallKeepsOthersHeld(w, k, outcome, i);
    }
    ApplyKeepsThreads(w, item, EffectOf(w, k, outcome).change);
    assert forall i :: i in w.page && w.page[i] == "" ==> Doomed(w, i);
    assert !w.job.Idle? ==> Doomed(w, w.job.item);
    SamePollerHolds(w, v, item);
  }

  /** A piece of the poller's work, on the others. */
  lemma WorkKeepsOthersHeld(w: World, ok: bool, i: Item)
    requires Enabled(w, Work(ok)) && i in w.rows && i != w.job.item
    ensures var v := Next(w, Work(ok)); i in v.rows && v.rows[i] == w.rows[i] && (i in v.held <==> i in w.held)
  {
    ChangeKeepsOthersHeld(w, w.job.item, JobChange(w.job), i);
  }

  /** And on the one it is at: it is not claimable, and stays so. */
  lemma WorkOnItem(w: World, ok: bool)
    requires Apart(w) && ReleasersHold(w) && Enabled(w, Work(ok))
    ensures var item, v := w.job.item, Next(w, Work(ok));
            && item in v.rows && (Unreleased(v, item) <==> Unreleased(w, item))
            && (v.rows[item].status == Failed || (v.rows[item] == w.rows[item] && v.held == w.held))
  {
    SameUnreleased(w, Work(ok), w.job.item);
    assert w.job.Release? || w.job.Save? ==> w.rows[w.job.item].status == Failed;
  }

  lemma WorkKeepsRowsHold(w: World, ok: bool)
    requires Apart(w) && ReleasersHold(w) && Enabled(w, Work(ok))
    ensures RowsHold(Next(w, Work(ok)))
  {
    var v := Next(w, Work(ok));
    WorkOnItem(w, ok);
    ApplyKeepsRows(w, w.job.item, JobChange(w.job));
    forall i | Unreleased(v, i) && Claimable(v.rows[i].status) ensures i in v.held {
      if i != w.job.item { WorkKeepsOthersHeld(w, ok, i); }
    }
  }

  lemma WorkKeepsWorkersHold(w: World, ok: bool)
    requires Known(w) && Apart(w) && ReleasersHold(w) && Enabled(w, Work(ok))
    ensures WorkersHold(Next(w, Work(ok)))
  {
    var v := Next(w, Work(ok));
    ApplyKeepsThreads(w, w.job.item, JobChange(w.job));
    forall k | k in v.workers ensures WorkerHolds(v, v.workers[k]) {
      WorkersAreNotDoomed(w, k);
      assert WorkerHolds(w, w.workers[k]);
      WorkKeepsOthersHeld(w, ok, w.workers[k].item);
    }
  }

  lemma WorkKeepsPollerHolds(w: World, ok: bool)
    requires Known(w) && Apart(w) && ReleasersHold(w) && Enabled(w, Work(ok))
    ensures PollerHolds(Next(w, Work(ok)))
  {
    var v := Next(w, Work(ok));
    ApplyKeepsThreads(w, w.job.item, JobChange(w.job));
    WorkOnItem(w, ok);
    forall i | i in v.page && v.page[i] == "" && Unreleased(v, i) ensures i in v.held {
      WorkKeepsOthersHeld(w, ok, i);
    }
  }

  /** The other steps leave the terms of every row as they were, and what was
      held stays held. */
  lemma RowStepKeepsHeld(w: World, e: Event, i: Item)
    requires Enabled(w, e) && !e.Call? && !e.Work? && i in w.rows
    ensures i in Next(w, e).rows && (Unreleased(Next(w, e), i) <==> Unreleased(w, i))
    ensures i in w.held ==> i in Next(w, e).held
  {
    SameUnreleased(w, e, i);
  }

  lemma RowStepKeepsRowsHold(w: World, e: Event)
    requires Enabled(w, e) && !e.Call? && !e.Work? && RowsHold(w)
    ensures RowsHold(Next(w, e))
  {
    var v := Next(w, e);
    forall i | Unreleased(v, i) && Claimable(v.rows[i].status) ensures i in v.held {
      if i in w.rows { RowStepKeepsHeld(w, e, i); }
    }
  }

  lemma RowStepKeepsWorkersHold(w: World, e: Event)
    requires Known(w) && Enabled(w, e) && !e.Call? && !e.Work? && RowsHold(w) && WorkersHold(w)
    ensures WorkersHold(Next(w, e))
  {
    var v := Next(w, e);
    forall k | k in v.workers ensures WorkerHolds(v, v.workers[k]) {
      StepMovesOneWorker(w, e, k);
      if k in w.workers {
        assert WorkerHolds(w, w.workers[k]);
        RowStepKeepsHeld(w, e, w.workers[k].item);
      }
    }
  }

  /** The poller's own steps leave the rows and what is held alone. */
  lemma PollKeepsPollerHolds(w: World, e: Event)
    requires Enabled(w, e) && (e.LoadPage? || e.Pass? || e.Collect? || e.Mark?) && RowsHold(w) && PollerHolds(w)
    ensures PollerHolds(Next(w, e))
  {
    var v := Next(w, e);
    assert v.rows == w.rows && v.held == w.held;
  }

  lemma RowStepKeepsPollerHolds(w: World, e: Event)
    requires Known(w) && Enabled(w, e) && !e.Call? && !e.Work? && RowsHold(w) && PollerHolds(w)
    ensures PollerHolds(Next(w, e))
  {
    if e.LoadPage? || e.Pass? || e.Collect? || e.Mark? {
      PollKeepsPollerHolds(w, e);
    } else {
      var v := Next(w, e);
      forall i | i in w.rows ensures (Unreleased(v, i) <==> Unreleased(w, i)) && (i in w.held ==> i in v.held) {
        RowStepKeepsHeld(w, e, i);
      }
      PollerIsElsewhere(w, e);
    }
  }

  lemma PollerIsElsewhere(w: World, e: Event)
    requires Enabled(w, e) && !e.Call? && !e.Work? && !(e.LoadPage? || e.Pass? || e.Collect? || e.Mark?)
    ensures Next(w, e).page == w.page && Next(w, e).job == w.job
  {
    if RowStep(e) { ApplyKeepsThreads(w, e.item, RowChange(w, e)); }
  }

  lemma StepKeepsAll(w: World, e: Event)
    requires All(w) && Enabled(w, e) && Allowed(w, e)
    ensures All(Next(w, e))
  {
    StepKeepsExclusive(w, e);
    FailedOrDebited.StepKeepsInv(w, e);
    StepKeepsReserved(w, e);
    if e.Call? {
      CallKeepsRowsHold(w, e.worker, e.outcome);
      CallKeepsWorkersHold(w, e.worker, e.outcome);
      CallKeepsPollerHolds(w, e.worker, e.outcome);
    } else if e.Work? {
      WorkKeepsRowsHold(w, e.ok);
      WorkKeepsWorkersHold(w, e.ok);
      WorkKeepsPollerHolds(w, e.ok);
    } else {
      RowStepKeepsRowsHold(w, e);
      RowStepKeepsWorkersHold(w, e);
      RowStepKeepsPollerHolds(w, e);
    }
  }

  lemma {:induction false} RunKeepsAll(w: World, run: seq<Event>)
    requires All(w) && Along(w, run, Allowed)
    ensures IsRun(w, run) && All(Final(w, run))
    decreases |run|
  {
    if run != [] {
      StepKeepsAll(w, run[0]);
      RunKeepsAll(Next(w, run[0]), run[1..]);
    }
  }

  /** Reservations are in order when the service starts. */
  ghost predicate Opening(w: World) {
    Quiet(w) && ReservedIsHeld(w) && HeldIsOpen(w) && RowsHold(w)
  }

  /** A release step finds its withdrawal held, so its guard holds and it moves
      exactly that reservation. */
  lemma ReleaseTakesEffect(w: World, e: Event, item: Item)
    requires All(w) && Enabled(w, e) && Releases(w, e, item)
    ensures item in w.held && Next(w, e).held == w.held - {item}
    ensures item in w.rows && w.rows[item].user in w.balances
    ensures var c, b := w.rows[item].reservedCents, w.balances[w.rows[item].user];
            && b.reserved >= c
            && Next(w, e).balances == w.balances[w.rows[item].user := Balance(b.cents + c, b.units, b.reserved - c)]
  {
    ReleasedIsHeld(w, e, item);
    ReleaseOfHeld(w, e, item);
  }

  lemma ReleaseOfHeld(w: World, e: Event, item: Item)
    requires ReservedIsHeld(w) && HeldIsOpen(w) && item in w.held && item in w.rows
    requires Enabled(w, e) && Releases(w, e, item) && (e.Call? ==> w.workers[e.worker].pc.Releasing?)
    ensures Next(w, e).held == w.held - {item} && w.rows[item].user in w.balances
    ensures var c, b := w.rows[item].reservedCents, w.balances[w.rows[item].user];
            && b.reserved >= c
            && Next(w, e).balances == w.balances[w.rows[item].user := Balance(b.cents + c, b.units, b.reserved - c)]
  {
    HeldIsReserved(w, item);
    ReleaseApplies(w, e, item);
  }

  lemma ReleaseApplies(w: World, e: Event, item: Item)
    requires Enabled(w, e) && Releases(w, e, item) && item in w.rows && (e.Call? ==> w.workers[e.worker].pc.Releasing?)
    ensures var v := Apply(w, item, FreeReservation); Next(w, e).balances == v.balances && Next(w, e).held == v.held
  {
    if e.Call? { ReleaseCall(w, e.worker); }
  }

  /** Over every allowed run, reserved cents are the sum over the withdrawals
      whose release step has not run, and a release is never a silent no-op. */
  lemma ReservationsAddUp(w: World, run: seq<Event>, user: string, e: Event, item: Item)
    requires Opening(w) && Along(w, run, Allowed)
    ensures IsRun(w, run)
    ensures var v := Final(w, run); user in v.balances ==> v.balances[user].reserved == HeldCents(v.rows, v.held, user)
    ensures var v := Final(w, run);
            Enabled(v, e) && Releases(v, e, item) ==>
              && item in v.held && item !in Next(v, e).held && item in v.rows && v.rows[item].user in v.balances
              && v.balances[v.rows[item].user].reserved >= v.rows[item].reservedCents
  {
    RunKeepsAll(w, run);
    if Enabled(Final(w, run), e) && Releases(Final(w, run), e, item) {
      ReleaseTakesEffect(Final(w, run), e, item);
    }
  }

  // ---- The hypothesis on the completed status is needed ----

  /** One failing call is enough. Up to a withdrawal's completed status nothing
      fails; that write fails, and the reset puts the withdrawal back; then
      again nothing fails, up to a second release, for which nothing is held any
      more. If the user's other withdrawals hold enough, it releases theirs;
      otherwise it is a silent no-op. */
  lemma LateFailureLosesTheReservation(w: World, item: Item)
    returns (first: seq<Event>, released: World, reopened: World, second: seq<Event>, again: World)
    requires Opening(w) && item in w.held && w.rows[item].status == Pending && w.rows[item].hash != ""
    requires var row, b := w.rows[item], w.balances[w.rows[item].user];
             && row.reservedCents > 0 && b.cents >= row.usdCents && b.units >= row.units
             && b.cents + row.reservedCents >= 2 * row.usdCents && b.units >= 2.0 * row.units
    ensures Leads(w, first, released, NothingFails)
    ensures released.workers == map[0 := Worker(item, w.rows[item].hash, Completing)]
    ensures Leads(released, [Call(0, Err), Call(0, Ok)], reopened, Anything)
    ensures Leads(reopened, second, again, NothingFails) && ReservedIsHeld(again) && HeldIsOpen(again)
    ensures Enabled(again, Call(1, Ok)) && Releases(again, Call(1, Ok), item)
    ensures item in again.rows && item !in again.held
    ensures var v, user, c := Next(again, Call(1, Ok)), w.rows[item].user, w.rows[item].reservedCents;
            var others := HeldCents(w.rows, w.held - {item}, user);
            && user in v.balances
            && (others >= c ==> v.balances[user].reserved == HeldCents(v.rows, v.held, user) - c)
            && (others < c ==> v.balances == again.balances)
  {
    var row := w.rows[item];
    first, released := PendingWithdrawalIsReleased(w, item);
    var steps;
    steps, reopened := CompletionFails(released, 0, item);
    second, again := PendingWithdrawalIsWritten(reopened, 1, item, CommonPayment(row.terms, row.terms));
    OthersAreHeld(w, again, item);
    SecondRelease(again, item);
  }

  lemma PendingWithdrawalIsReleased(w: World, item: Item) returns (more: seq<Event>, after: World)
    requires Opening(w) && item in w.held && w.rows[item].status == Pending && w.rows[item].hash != ""
    requires var row, b := w.rows[item], w.balances[w.rows[item].user]; b.cents >= row.usdCents && b.units >= row.units
    ensures Leads(w, more, after, NothingFails)
    ensures var row, b := w.rows[item], w.balances[w.rows[item].user];
            after == w.(rows := w.rows[item := row.(status := Processing)],
                        workers := map[0 := Worker(item, row.hash, Completing)],
                        log := after.log, held := w.held - {item},
                        balances := w.balances[row.user := Debited(row, b)])
  {
    HeldIsReserved(w, item);
    more, after := WithdrawalIsReleased(w, item);
  }

  /** The balance once the withdrawal is written and its reservation released. */
  function Debited(row: Row, b: Balance): Balance {
    Balance(b.cents - row.usdCents + row.reservedCents, b.units - row.units, b.reserved - row.reservedCents)
  }

  lemma WithdrawalIsReleased(w: World, item: Item) returns (more: seq<Event>, after: World)
    requires item in w.rows && item.Withdrawal? && w.rows[item].status == Pending && w.rows[item].hash != ""
    requires w.workers == map[] && w.page == map[] && w.job.Idle?
    requires !w.rows[item].released && w.rows[item].user in w.balances
    requires var row, b := w.rows[item], w.balances[w.rows[item].user];
             b.cents >= row.usdCents && b.units >= row.units && b.reserved >= row.reservedCents
    ensures Leads(w, more, after, NothingFails)
    ensures var row, b := w.rows[item], w.balances[w.rows[item].user];
            after == w.(rows := w.rows[item := row.(status := Processing)],
                        workers := map[0 := Worker(item, row.hash, Completing)],
                        log := after.log, held := w.held - {item},
                        balances := w.balances[row.user := Debited(row, b)])
  {
    var row := w.rows[item];
    var written;
    more, written := PendingWithdrawalIsWritten(w, 0, item, CommonPayment(row.terms, row.terms));
    ReleaseCall(written, 0);
    more, after := Extend(w, more, written, Call(0, Ok), NothingFails);
    assert after.workers == map[0 := Worker(item, row.hash, Completing)];
  }

  /** The sums once the withdrawal's own reservation is gone. */
  lemma OthersAreHeld(w: World, again: World, item: Item)
    requires ReservedIsHeld(w) && HeldIsOpen(w) && item in w.held
    requires again.rows == w.rows[item := w.rows[item].(status := Processing)] && again.held == w.held - {item}
    requires again.balances.Keys == w.balances.Keys
    requires forall u :: u in w.balances ==>
               again.balances[u].reserved == w.balances[u].reserved - Part(w.rows, item, u)
    ensures ReservedIsHeld(again) && HeldIsOpen(again)
    ensures var user := w.rows[item].user;
            HeldCents(again.rows, again.held, user) == HeldCents(w.rows, w.held - {item}, user)
  {
    forall u ensures HeldCents(again.rows, again.held, u) == HeldCents(w.rows, w.held - {item}, u)
                  && HeldCents(w.rows, w.held - {item}, u) == HeldCents(w.rows, w.held, u) - Part(w.rows, item, u)
    {
      HeldWithout(w.rows, w.held, u, item);
      HeldSame(w.rows, again.rows, again.held, u);
    }
  }

  lemma SecondRelease(again: World, item: Item)
    requires CanCall(again, 1, Ok) && again.workers[1].item == item
    requires again.workers[1].pc.Releasing? && item !in again.held
    requires ReservedIsHeld(again) && again.rows[item].user in again.balances
    ensures var v, user, c := Next(again, Call(1, Ok)), again.rows[item].user, again.rows[item].reservedCents;
            && user in v.balances && HeldCents(v.rows, v.held, user) == again.balances[user].reserved
            && (again.balances[user].reserved >= c ==> v.balances[user].reserved == HeldCents(v.rows, v.held, user) - c)
            && (again.balances[user].reserved < c ==> v.balances == again.balances)
  {
    ReleaseCall(again, 1);
    HeldAfterRelease(again, item, again.rows[item].user);
  }

  // ---- When a withdrawal can complete ----

  /** Nothing fails, and of the threads only this worker touches the balance. */
  ghost function Alone(k: nat, user: string): (World, Event) -> bool {
    (v: World, e: Event) => NothingFails(v, e) && (Touches(v, e, user) ==> e.Call? && e.worker == k)
  }

  /** Not settled, and with too little in the balance to settle it. */
  ghost predicate Short(v: World, k: nat, item: Item, user: string, cents: int, units: real) {
    && k in v.workers && v.workers[k].item == item && item.Withdrawal? && item in v.rows && v.rows[item].user == user
    && user in v.balances && v.balances[user].cents == cents && v.balances[user].units == units
    && (cents < v.rows[item].usdCents || units < v.rows[item].units)
    && match v.workers[k].pc
       case Recording(c, u, _) => c == v.rows[item].usdCents && u == v.rows[item].units
       case Reading(c, u, _) => c == v.rows[item].usdCents && u == v.rows[item].units
       case Writing(c, u, _, seen) =>
         c == v.rows[item].usdCents && u == v.rows[item].units && seen.cents == cents && seen.units == units
       case Resetting => true
       case Done(exit) => !exit.Settled?
       case _ => false
  }

  lemma CallKeepsShort(v: World, k: nat, outcome: Outcome, item: Item, user: string, cents: int, units: real)
    requires Short(v, k, item, user, cents, units) && CanCall(v, k, outcome) && NothingFails(v, Call(k, outcome))
    ensures Short(Next(v, Call(k, outcome)), k, item, user, cents, units)
  {
    assert outcome.Ok?;
  }

  lemma StepKeepsShort(v: World, e: Event, k: nat, item: Item, user: string, cents: int, units: real)
    requires Short(v, k, item, user, cents, units) && Enabled(v, e) && Alone(k, user)(v, e)
    ensures Short(Next(v, e), k, item, user, cents, units)
  {
    if e.Call? && e.worker == k {
      CallKeepsShort(v, k, e.outcome, item, user, cents, units);
    } else {
      StepKeepsWorkers(v, e);
      StepMovesOneWorker(v, e, k);
      StepKeepsTerms(v, e, item);
      UntouchedStays(v, e, user);
    }
  }

  lemma {:induction false} ShortIsNotSettled(v: World, run: seq<Event>, k: nat, item: Item, user: string, cents: int,
                                             units: real)
    requires Short(v, k, item, user, cents, units) && Along(v, run, Alone(k, user))
    ensures IsRun(v, run) && Short(Final(v, run), k, item, user, cents, units)
    decreases |run|
  {
    if run != [] {
      StepKeepsShort(v, run[0], k, item, user, cents, units);
      ShortIsNotSettled(Next(v, run[0]), run[1..], k, item, user, cents, units);
    }
  }

  lemma CoveredSettles(v: World, k: nat, item: Item) returns (run: seq<Event>, after: World)
    requires item in v.rows && item.Withdrawal? && k in v.workers
    requires v.workers[k].item == item && v.rows[item].user in v.balances
    requires var row := v.rows[item];
             v.workers[k].pc.Recording? && v.workers[k].pc.cents == row.usdCents && v.workers[k].pc.units == row.units
    requires var row, b := v.rows[item], v.balances[v.rows[item].user];
             !row.released && b.cents >= row.usdCents && b.units >= row.units
    ensures Leads(v, run, after, Alone(k, v.rows[item].user))
    ensures k in after.workers && after.workers[k].pc == Done(Settled)
  {
    run, after := PaidIsWritten(v, k);
    Weaken(v, run, OnlyGoesOn(k), Alone(k, v.rows[item].user));
    ReleaseCall(after, k);
    run, after := Extend(v, run, after, Call(k, Ok), Alone(k, v.rows[item].user));
    CompleteCall(after, k);
    run, after := Extend(v, run, after, Call(k, Ok), Alone(k, v.rows[item].user));
  }

  /** A withdrawal that has been verified, and whose reservation has taken its
      cents out of the balance, can complete with nothing failing and nobody
      else touching the balance if and only if the balance it was opened on
      covered the reservation and the withdrawal both. */
  lemma CompletesExactlyIfCoveredTwice(opening: Balance, v: World, k: nat, item: Item)
    requires item in v.rows && item.Withdrawal? && k in v.workers
    requires v.workers[k].item == item && v.rows[item].user in v.balances
    requires var row := v.rows[item];
             v.workers[k].pc.Recording? && v.workers[k].pc.cents == row.usdCents && v.workers[k].pc.units == row.units
    requires var row := v.rows[item];
             !row.released && opening.cents >= row.reservedCents
             && v.balances[row.user] == ReserveBalance(map[row.user := opening], row.user, row.reservedCents)[row.user]
    ensures (exists run :: Along(v, run, Alone(k, v.rows[item].user)) && IsRun(v, run)
                        && k in Final(v, run).workers && Final(v, run).workers[k].pc == Done(Settled))
            <==> && opening.cents >= v.rows[item].reservedCents + v.rows[item].usdCents
                 && opening.units >= v.rows[item].units
  {
    var row := v.rows[item];
    var b := v.balances[row.user];
    if b.cents >= row.usdCents && b.units >= row.units {
      var run, after := CoveredSettles(v, k, item);
    } else {
      forall run | Along(v, run, Alone(k, row.user)) && IsRun(v, run)
        ensures k in Final(v, run).workers && Final(v, run).workers[k].pc != Done(Settled)
      {
        ShortIsNotSettled(v, run, k, item, row.user, b.cents, b.units);
      }
    }
  }
}
