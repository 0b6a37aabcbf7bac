/** What becomes of an item once the worker that claimed it has finished with
    it: only a reset brings it back, and the exits that leave it processing leave
    it there for good. */
module Finished {
  import opened Exclusion
  import opened Ledger
  import opened Settlement
  import opened Steps

  /** There is no claiming it, and nobody has. */
  ghost predicate Closed(w: World, item: Item) {
    && item in w.rows && !Claimable(w.rows[item].status)
    && forall k :: k in w.workers && w.workers[k].item == item ==> !w.workers[k].Active()
  }

  /** A closed item's status, but for a late expiry or mark of the pollers. */
  predicate SameOrGivenUp(item: Item, before: Status, after: Status) {
    after == before || (item.Session? && after == Expired) || (item.Withdrawal? && after == Failed)
  }

  /** Closed as it was, with no balance write since. */
  ghost predicate StillClosed(w: World, v: World, item: Item)
    requires item in w.rows
  {
    Closed(v, item) && SameOrGivenUp(item, w.rows[item].status, v.rows[item].status)
    && Writes(v.log, item) == Writes(w.log, item)
  }

  /** A worker that has yet to claim a closed item does not get to. */
  lemma NoneIsClaimed(w: World, k: nat, outcome: Outcome)
    requires CanCall(w, k, outcome) && Closed(w, w.workers[k].item)
    ensures var effect := EffectOf(w, k, outcome); effect.change == Nothing && effect.pc == Done(NotClaimed)
  {
    assert !w.workers[k].Active();
  }

  lemma CallOnOtherKeepsClosed(w: World, k: nat, outcome: Outcome, item: Item)
    requires Closed(w, item) && CanCall(w, k, outcome) && w.workers[k].item != item
    ensures StillClosed(w, Next(w, Call(k, outcome)), item)
  {
    var i, effect := w.workers[k].item, EffectOf(w, k, outcome);
    CallOnBalance(w, k, outcome);
    OtherChangeKeepsClosed(w, i, effect.change, item);
    MovedStaysClosed(Apply(w, i, effect.change), k, effect.pc, item);
  }

  lemma OtherChangeKeepsClosed(w: World, i: Item, change: Change, item: Item)
    requires Closed(w, item) && i in w.rows && i != item
    requires change.Write? ==> change.entry.Wrote? && change.entry.item != item
    ensures StillClosed(w, Apply(w, i, change), item)
  {
    ApplyKeepsRows(w, i, change);
    ApplyLog(w, i, change);
    OtherChangeIsNoWrite(w, i, change, item);
  }

  /** A worker of another item, or one that is done, may be anywhere. */
  lemma MovedStaysClosed(w: World, k: nat, pc: Pc, item: Item)
    requires Closed(w, item) && k in w.workers && (w.workers[k].item != item || pc.Done?)
    ensures Closed(w.(workers := w.workers[k := w.workers[k].(pc := pc)]), item)
  {
  }

  lemma CallKeepsClosed(w: World, k: nat, outcome: Outcome, item: Item)
    requires Closed(w, item) && CanCall(w, k, outcome)
    ensures StillClosed(w, Next(w, Call(k, outcome)), item)
  {
    if w.workers[k].item == item {
      NoneIsClaimed(w, k, outcome);
      MovedStaysClosed(w, k, Done(NotClaimed), item);
    } else {
      CallOnOtherKeepsClosed(w, k, outcome, item);
    }
  }

  lemma OtherChangeIsNoWrite(w: World, i: Item, change: Change, item: Item)
    requires i in w.rows && (change.Write? ==> change.entry.Wrote? && change.entry.item != item)
    ensures Writes(Apply(w, i, change).log, item) == Writes(w.log, item)
  {
    if change.Write? { WritesOfOneMore(w.log, change.entry, item); }
    if change.Create? { WritesOfOneMore(w.log, Recorded(i, change.cents, change.payment), item); }
    if change.FailRow? { WritesOfOneMore(w.log, MarkedFailed(i), item); }
  }

  lemma PollerKeepsClosed(w: World, ok: bool, item: Item)
    requires Known(w) && Closed(w, item) && Enabled(w, Work(ok))
    ensures StillClosed(w, Next(w, Work(ok)), item)
  {
    if ok {
      ApplyKeepsRows(w, w.job.item, JobChange(w.job));
      ApplyLog(w, w.job.item, JobChange(w.job));
      OtherChangeIsNoWrite(w, w.job.item, JobChange(w.job), item);
    }
  }

  lemma RowStepKeepsClosed(w: World, e: Event, item: Item)
    requires Closed(w, item) && Enabled(w, e) && RowStep(e)
    ensures StillClosed(w, Next(w, e), item)
  {
    ApplyKeepsRows(w, e.item, RowChange(w, e));
    ApplyLog(w, e.item, RowChange(w, e));
  }

  lemma StepKeepsClosed(w: World, e: Event, item: Item)
    requires Known(w) && Closed(w, item) && Enabled(w, e)
    ensures StillClosed(w, Next(w, e), item)
  {
    if e.Call? {
      CallKeepsClosed(w, e.worker, e.outcome, item);
    } else if e.Work? {
      PollerKeepsClosed(w, e.ok, item);
    } else if RowStep(e) {
      RowStepKeepsClosed(w, e, item);
    }
  }

  lemma {:induction false} RunKeepsClosed(w: World, run: seq<Event>, item: Item)
    requires Known(w) && Closed(w, item) && IsRun(w, run)
    ensures StillClosed(w, Final(w, run), item)
    decreases |run|
  {
    if run != [] {
      StepKeepsKnown(w, run[0]);
      StepKeepsClosed(w, run[0], item);
      RunKeepsClosed(Next(w, run[0]), run[1..], item);
    }
  }

  /** A call that ends the work on a claimed item, other than by a reset. */
  lemma LastCallCloses(w: World, k: nat, outcome: Outcome)
    requires Exclusive(w) && CanCall(w, k, outcome) && w.workers[k].Active()
    requires var pc := Next(w, Call(k, outcome)).workers[k].pc; pc.Done? && pc != Done(Reset)
    ensures Closed(Next(w, Call(k, outcome)), w.workers[k].item)
  {
    var item, effect := w.workers[k].item, EffectOf(w, k, outcome);
    ApplyKeepsRows(w, item, effect.change);
    ApplyLog(w, item, effect.change);
  }

  /** The state after a run, and then one call of a worker that has claimed its
      item, which ends the work on it. */
  ghost predicate EndsWork(w: World, run: seq<Event>, k: nat, outcome: Outcome) {
    && Quiet(w) && IsRun(w, run) && CanCall(Final(w, run), k, outcome) && Final(w, run).workers[k].Active()
    && Next(Final(w, run), Call(k, outcome)).workers[k].pc.Done?
  }

  /** In every run, whatever fails: once a worker has finished with an item and
      not put it back, its status stays for good, but for a late expiry of a
      session or a late mark of a withdrawal, and it is not written to a balance
      any more. */
  lemma FinishedForGood(w: World, run: seq<Event>, k: nat, outcome: Outcome, more: seq<Event>)
    requires EndsWork(w, run, k, outcome) && IsRun(Next(Final(w, run), Call(k, outcome)), more)
    requires Next(Final(w, run), Call(k, outcome)).workers[k].pc != Done(Reset)
    ensures var v := Next(Final(w, run), Call(k, outcome));
            var item := v.workers[k].item;
            && item in v.rows && StillClosed(v, Final(v, more), item)
            && Final(v, more).rows[item].status != Pending
  {
    RunKeepsExclusive(w, run);
    StepKeepsKnown(Final(w, run), Call(k, outcome));
    LastCallCloses(Final(w, run), k, outcome);
    RunKeepsClosed(Next(Final(w, run), Call(k, outcome)), more, Final(w, run).workers[k].item);
  }

  /** Some run on from here makes the item pending. */
  ghost predicate MayBePending(v: World, item: Item) {
    exists more :: IsRun(v, more) && item in Final(v, more).rows && Final(v, more).rows[item].status == Pending
  }

  /** So an item can be pending again if and only if it was put back. */
  lemma PendingAgainExactlyIfReset(w: World, run: seq<Event>, k: nat, outcome: Outcome)
    requires EndsWork(w, run, k, outcome)
    ensures var v := Next(Final(w, run), Call(k, outcome));
            MayBePending(v, v.workers[k].item) <==> v.workers[k].pc == Done(Reset)
  {
    var u, v := Final(w, run), Next(Final(w, run), Call(k, outcome));
    var item := u.workers[k].item;
    if v.workers[k].pc == Done(Reset) {
      assert v.rows[item].status == Pending;
      assert IsRun(v, []) && Final(v, []) == v;
    } else {
      forall more | IsRun(v, more) ensures item in Final(v, more).rows && Final(v, more).rows[item].status != Pending {
        FinishedForGood(w, run, k, outcome, more);
      }
    }
  }

  /** The early exits, for an unknown currency or chain, an unreadable amount, a
      missing rate or a transaction that is there already, are of this kind: they
      leave the row as the claim left it, and no worker ever comes back to it. */
  lemma LeavingIsForGood(w: World, run: seq<Event>, k: nat, more: seq<Event>)
    requires Quiet(w) && IsRun(w, run) && CanCall(Final(w, run), k, Leave)
    requires IsRun(Next(Final(w, run), Call(k, Leave)), more)
    ensures var u, v := Final(w, run), Next(Final(w, run), Call(k, Leave));
            var item := u.workers[k].item;
            && v.rows == u.rows && v.balances == u.balances && v.log == u.log
            && StillClosed(u, Final(v, more), item) && Final(v, more).rows[item].status != Pending
  {
    assert EndsWork(w, run, k, Leave);
    FinishedForGood(w, run, k, Leave, more);
  }
}
