/** Every withdrawal that is done with has its reservation given back, unless
    the call that was to give it back failed. */
module GivenBack {
  import opened Exclusion
  import opened FailedOrDebited
  import opened Ledger
  import opened Reservation
  import opened Steps

  /** Only an opening reserves, and for a withdrawal there was no row of. */
  lemma HeldStaysOut(w: World, e: Event, i: Item)
    requires Enabled(w, e) && i in w.rows && i !in w.held
    ensures i !in Next(w, e).held
  {
    if e.Call? { ChangeHoldsNothing(w, w.workers[e.worker].item, EffectOf(w, e.worker, e.outcome).change, i); }
    if e.Work? { ChangeHoldsNothing(w, w.job.item, JobChange(w.job), i); }
    if RowStep(e) { ChangeHoldsNothing(w, e.item, RowChange(w, e), i); }
  }

  lemma ChangeHoldsNothing(w: World, item: Item, change: Change, i: Item)
    requires item in w.rows && i !in w.held
    ensures i !in Apply(w, item, change).held
  {
  }

  // ---- Settled withdrawals ----

  /** Past the release, on the way to the completed or the failed status. */
  predicate PastRelease(pc: Pc) {
    pc.Completing? || pc == Done(Settled) || pc.FailSaving?
  }

  predicate Returned(w: World, worker: Worker) {
    PastRelease(worker.pc) && worker.item.Withdrawal? && worker.item in w.rows && !w.rows[worker.item].released ==>
      worker.item !in w.held
  }

  lemma CallReturns(w: World, k: nat, outcome: Outcome)
    requires CanCall(w, k, outcome) && Returned(w, w.workers[k])
    ensures Returned(Next(w, Call(k, outcome)), Next(w, Call(k, outcome)).workers[k])
  {
    StepKeepsTerms(w, Call(k, outcome), w.workers[k].item);
  }

  lemma StepKeepsReturned(w: World, e: Event, k: nat)
    requires Known(w) && Enabled(w, e) && (forall n :: n in w.workers ==> Returned(w, w.workers[n]))
    requires k in Next(w, e).workers
    ensures Returned(Next(w, e), Next(w, e).workers[k])
  {
    if e.Call? && e.worker == k {
      CallReturns(w, k, e.outcome);
    } else {
      StepMovesOneWorker(w, e, k);
      if k in w.workers {
        var item := w.workers[k].item;
        StepKeepsTerms(w, e, item);
        if item !in w.held { HeldStaysOut(w, e, item); }
      }
    }
  }

  lemma {:induction false} RunKeepsReturned(w: World, run: seq<Event>)
    requires Known(w) && IsRun(w, run) && (forall n :: n in w.workers ==> Returned(w, w.workers[n]))
    ensures Known(Final(w, run))
    ensures forall n :: n in Final(w, run).workers ==> Returned(Final(w, run), Final(w, run).workers[n])
    decreases |run|
  {
    if run != [] {
      var v := Next(w, run[0]);
      StepKeepsKnown(w, run[0]);
      forall k | k in v.workers ensures Returned(v, v.workers[k]) {
        StepKeepsReturned(w, run[0], k);
      }
      RunKeepsReturned(v, run[1..]);
    }
  }

  /** In every run, whatever fails, a withdrawal that a worker has settled is no
      longer held. */
  lemma SettledIsGivenBack(w: World, run: seq<Event>, k: nat)
    requires Quiet(w) && IsRun(w, run) && k in Final(w, run).workers && Final(w, run).workers[k].pc == Done(Settled)
    ensures var v := Final(w, run);
            var item := v.workers[k].item;
            item in v.rows && (item.Withdrawal? && !v.rows[item].released ==> item !in v.held)
  {
    RunKeepsReturned(w, run);
    assert Returned(Final(w, run), Final(w, run).workers[k]);
  }

  // ---- Withdrawals that came with their reservation released ----

  /** Whoever is to release a reservation has seen that it is not released yet. */
  predicate SawUnreleased(w: World, worker: Worker)
    requires worker.item in w.rows
  {
    worker.pc.Releasing? || worker.pc.FailReleasing? ==> !w.rows[worker.item].released
  }

  ghost predicate AllSawUnreleased(w: World) {
    && Known(w)
    && (forall k :: k in w.workers ==> SawUnreleased(w, w.workers[k]))
    && (w.job.Release? ==> !w.rows[w.job.item].released)
  }

  lemma CallSeesUnreleased(w: World, k: nat, outcome: Outcome)
    requires CanCall(w, k, outcome) && SawUnreleased(w, w.workers[k])
    ensures var v := Next(w, Call(k, outcome));
            v.workers[k].item in v.rows && SawUnreleased(v, v.workers[k])
  {
    StepKeepsTerms(w, Call(k, outcome), w.workers[k].item);
  }

  lemma PollerSeesUnreleased(w: World, e: Event)
    requires AllSawUnreleased(w) && Enabled(w, e) && Next(w, e).job.Release?
    ensures Next(w, e).job.item in Next(w, e).rows && !Next(w, e).rows[Next(w, e).job.item].released
  {
    if e.Call? { ApplyKeepsThreads(w, w.workers[e.worker].item, EffectOf(w, e.worker, e.outcome).change); }
    if RowStep(e) { ApplyKeepsThreads(w, e.item, RowChange(w, e)); }
    StepKeepsTerms(w, e, w.job.item);
  }

  lemma StepSeesUnreleased(w: World, e: Event)
    requires AllSawUnreleased(w) && Enabled(w, e)
    ensures AllSawUnreleased(Next(w, e))
  {
    var v := Next(w, e);
    StepKeepsKnown(w, e);
    if v.job.Release? { PollerSeesUnreleased(w, e); }
    forall k | k in v.workers ensures SawUnreleased(v, v.workers[k]) {
      if e.Call? && e.worker == k {
        CallSeesUnreleased(w, k, e.outcome);
      } else {
        StepMovesOneWorker(w, e, k);
        if k in w.workers { StepKeepsTerms(w, e, w.workers[k].item); }
      }
    }
  }

  lemma {:induction false} RunSeesUnreleased(w: World, run: seq<Event>)
    requires AllSawUnreleased(w) && IsRun(w, run)
    ensures AllSawUnreleased(Final(w, run))
    decreases |run|
  {
    if run != [] {
      StepSeesUnreleased(w, run[0]);
      RunSeesUnreleased(Next(w, run[0]), run[1..]);
    }
  }

  /** In every run, whatever fails, no step releases the reservation of a
      withdrawal whose row says that it has been released. */
  lemma ReleasedIsNotReleasedAgain(w: World, run: seq<Event>, e: Event, i: Item)
    requires Quiet(w) && IsRun(w, run) && Enabled(Final(w, run), e) && Releases(Final(w, run), e, i)
    ensures i in Final(w, run).rows && !Final(w, run).rows[i].released
  {
    RunSeesUnreleased(w, run);
  }

  // ---- Withdrawals marked failed ----

  /** Some step of the run is the poller's release for the item, and fails. */
  ghost predicate ReleaseFails(w: World, run: seq<Event>, i: Item)
    decreases |run|
  {
    run != [] &&
      (FailsToRelease(w, run[0], i) || (Enabled(w, run[0]) && ReleaseFails(Next(w, run[0]), run[1..], i)))
  }

  predicate FailsToRelease(w: World, e: Event, i: Item) {
    e == Work(false) && w.job == Release(i)
  }

  predicate IsMarked(w: World, i: Item) {
    MarkedFailed(i) in w.log && Unreleased(w, i)
  }

  /** A marked withdrawal is held while its release is to come, and if it has
      failed; then the poller never comes back to it. */
  ghost predicate HeldIfLost(w: World, i: Item, lost: bool) {
    && (IsMarked(w, i) ==> (i in w.held <==> lost || w.job == Release(i)))
    && (lost ==> IsMarked(w, i) && (w.job.Idle? || w.job.item != i))
  }

  lemma CallKeepsLost(w: World, k: nat, outcome: Outcome, i: Item, lost: bool)
    requires All(w) && HeldIfLost(w, i, lost) && CanCall(w, k, outcome) && Allowed(w, Call(k, outcome))
    ensures HeldIfLost(Next(w, Call(k, outcome)), i, lost)
  {
    var v := Next(w, Call(k, outcome));
    CallDoesNotMark(w, k, outcome);
    WorkersAreNotDoomed(w, k);
    CallMarksNothing(w, k, outcome, i);
    if IsMarked(w, i) {
      SameUnreleased(w, Call(k, outcome), i);
      CallKeepsOthersHeld(w, k, outcome, i);
    } else if i in w.rows {
      SameUnreleased(w, Call(k, outcome), i);
    }
    ApplyKeepsThreads(w, w.workers[k].item, EffectOf(w, k, outcome).change);
  }

  lemma CallMarksNothing(w: World, k: nat, outcome: Outcome, i: Item)
    requires CanCall(w, k, outcome) && !EffectOf(w, k, outcome).change.FailRow?
    ensures MarkedFailed(i) in Next(w, Call(k, outcome)).log <==> MarkedFailed(i) in w.log
    ensures Next(w, Call(k, outcome)).rows.Keys == w.rows.Keys
  {
    var item, effect := w.workers[k].item, EffectOf(w, k, outcome);
    ApplyLog(w, item, effect.change);
    ApplyKeepsRows(w, item, effect.change);
    CallOnBalance(w, k, outcome);
  }

  lemma WorkMarksItsItem(w: World, ok: bool, i: Item)
    requires Enabled(w, Work(ok)) && w.job.item != i
    ensures var v := Next(w, Work(ok));
            && (MarkedFailed(i) in v.log <==> MarkedFailed(i) in w.log) && v.rows.Keys == w.rows.Keys
            && (!v.job.Idle? ==> v.job.item != i)
  {
    ApplyLog(w, w.job.item, JobChange(w.job));
    ApplyKeepsRows(w, w.job.item, JobChange(w.job));
  }

  lemma WorkOnOtherKeepsLost(w: World, ok: bool, i: Item, lost: bool)
    requires HeldIfLost(w, i, lost) && Enabled(w, Work(ok)) && w.job.item != i
    ensures HeldIfLost(Next(w, Work(ok)), i, lost)
  {
    WorkMarksItsItem(w, ok, i);
    if i in w.rows {
      SameUnreleased(w, Work(ok), i);
      WorkKeepsOthersHeld(w, ok, i);
    }
  }

  lemma WorkOnItemKeepsLost(w: World, ok: bool, i: Item, lost: bool)
    requires All(w) && HeldIfLost(w, i, lost) && Enabled(w, Work(ok)) && w.job.item == i
    ensures HeldIfLost(Next(w, Work(ok)), i, lost || FailsToRelease(w, Work(ok), i))
  {
    assert !lost;
    SameUnreleased(w, Work(ok), i);
    if ok {
      ApplyLog(w, i, JobChange(w.job));
      assert w.job.Update? && Unreleased(w, i) ==> i in w.held;
      assert w.job.Update? ==> Next(w, Work(ok)).log[|w.log|] == MarkedFailed(i);
    } else if w.job.Release? {
      assert MarkedFailed(i) in w.log && Unreleased(w, i);
    }
  }

  lemma OtherStepKeepsLost(w: World, e: Event, i: Item, lost: bool)
    requires All(w) && HeldIfLost(w, i, lost) && Enabled(w, e) && !e.Call? && !e.Work?
    ensures HeldIfLost(Next(w, e), i, lost)
  {
    var v := Next(w, e);
    LogStays(w, e);
    if i in w.rows {
      SameUnreleased(w, e, i);
      HeldStays(w, e, i);
    }
    assert MarkedFailed(i) in w.log ==> i in w.rows && i !in w.page;
    StepOfPoller(w, e);
  }

  lemma LogStays(w: World, e: Event)
    requires Enabled(w, e) && !e.Call? && !e.Work?
    ensures Next(w, e).log == w.log && (e.Mark? || Next(w, e).job == w.job)
  {
    if RowStep(e) {
      ApplyLog(w, e.item, RowChange(w, e));
      ApplyKeepsThreads(w, e.item, RowChange(w, e));
    }
  }

  lemma HeldStays(w: World, e: Event, i: Item)
    requires Enabled(w, e) && !e.Call? && !e.Work? && i in w.rows
    ensures i in Next(w, e).held <==> i in w.held
  {
    RowStepKeepsHeld(w, e, i);
    if i !in w.held { HeldStaysOut(w, e, i); }
  }

  lemma StepKeepsLost(w: World, e: Event, i: Item, lost: bool)
    requires All(w) && HeldIfLost(w, i, lost) && Enabled(w, e) && Allowed(w, e)
    ensures HeldIfLost(Next(w, e), i, lost || FailsToRelease(w, e, i))
  {
    if e.Call? {
      CallKeepsLost(w, e.worker, e.outcome, i, lost);
    } else if e.Work? {
      if w.job.item == i { WorkOnItemKeepsLost(w, e.ok, i, lost); } else { WorkOnOtherKeepsLost(w, e.ok, i, lost); }
    } else {
      OtherStepKeepsLost(w, e, i, lost);
    }
  }

  lemma {:induction false} RunKeepsLost(w: World, run: seq<Event>, i: Item, lost: bool)
    requires All(w) && HeldIfLost(w, i, lost) && Along(w, run, Allowed)
    ensures IsRun(w, run) && HeldIfLost(Final(w, run), i, lost || ReleaseFails(w, run, i))
    decreases |run|
  {
    if run != [] {
      StepKeepsAll(w, run[0]);
      StepKeepsLost(w, run[0], i, lost);
      RunKeepsLost(Next(w, run[0]), run[1..], i, lost || FailsToRelease(w, run[0], i));
    }
  }

  /** Over every allowed run, once the poller is done with it, a withdrawal that
      was marked failed is still held if and only if the release for it failed. */
  lemma MarkedIsHeldExactlyIfItsReleaseFails(w: World, run: seq<Event>, i: Item)
    requires Opening(w) && Along(w, run, Allowed)
    ensures IsRun(w, run)
    ensures var v := Final(w, run);
            MarkedFailed(i) in v.log && i in v.rows && !v.rows[i].released && v.job != Release(i) ==>
              (i in v.held <==> ReleaseFails(w, run, i))
  {
    RunKeepsLost(w, run, i, false);
    if MarkedFailed(i) in Final(w, run).log { OnlyWithdrawalsAreMarked(w, run, i); }
  }

  lemma OnlyWithdrawalsAreMarked(w: World, run: seq<Event>, i: Item)
    requires Opening(w) && Along(w, run, Allowed) && IsRun(w, run) && MarkedFailed(i) in Final(w, run).log
    ensures i.Withdrawal?
  {
    RunKeepsAll(w, run);
    assert Doomed(Final(w, run), i);
  }

  /** The poller's writes succeed. */
  predicate PollerSucceeds(w: World, e: Event) {
    Allowed(w, e) && (e.Work? ==> e.ok)
  }

  lemma {:induction false} NoReleaseFails(w: World, run: seq<Event>, i: Item)
    requires Along(w, run, PollerSucceeds)
    ensures !ReleaseFails(w, run, i)
    decreases |run|
  {
    if run != [] {
      NoReleaseFails(Next(w, run[0]), run[1..], i);
    }
  }

  /** So if its writes succeed, every withdrawal it has marked failed and is done
      with has had its reservation given back. */
  lemma MarkedIsGivenBack(w: World, run: seq<Event>, i: Item)
    requires Opening(w) && Along(w, run, PollerSucceeds)
    ensures IsRun(w, run)
    ensures var v := Final(w, run);
            MarkedFailed(i) in v.log && i in v.rows && !v.rows[i].released && v.job.Idle? ==> i !in v.held
  {
    Weaken(w, run, PollerSucceeds, Allowed);
    NoReleaseFails(w, run, i);
    MarkedIsHeldExactlyIfItsReleaseFails(w, run, i);
  }
}
