/** At most one worker is past the claim of any item, whatever fails and however
    late the expiry writes of the poller land. */
module Exclusion {
  import opened Ledger
  import opened Steps

  /** Rows that can still become pending without a worker's reset. */
  predicate Claimable(status: Status) {
    status == Pending || status == AwaitingReview
  }

  /** Every item a thread knows of has a row. */
  ghost predicate Known(w: World) {
    && (forall k :: k in w.workers ==> w.workers[k].item in w.rows)
    && (forall i :: i in w.page ==> i in w.rows && i.Withdrawal?)
    && (forall s :: s in w.backlog ==> s.item in w.rows && s.item.Withdrawal?)
    && (!w.job.Idle? ==> w.job.item in w.rows && w.job.item.Withdrawal?)
  }

  ghost predicate Exclusive(w: World) {
    && (forall k :: k in w.workers && w.workers[k].Active() ==>
          w.workers[k].item in w.rows && !Claimable(w.rows[w.workers[k].item].status))
    && (forall a, b :: a in w.workers && b in w.workers && a != b && w.workers[a].Active() && w.workers[b].Active() ==>
          w.workers[a].item != w.workers[b].item)
  }

  lemma StepKeepsKnown(w: World, e: Event)
    requires Known(w) && Enabled(w, e)
    ensures Known(Next(w, e))
  {
    var v := Next(w, e);
    StepKeepsRows(w, e);
    StepOfPoller(w, e);
    forall k | k in v.workers ensures v.workers[k].item in v.rows {
      if e.Call? && e.worker == k { StepKeepsWorkers(w, e); } else { StepMovesOneWorker(w, e, k); }
    }
    forall s | s in v.backlog ensures s.item in v.rows && s.item.Withdrawal? {
      StepOfBacklog(w, e, s);
    }
  }

  /** A change to one item's row by a thread that is not one of the workers. */
  lemma RowChangeKeepsExclusive(w: World, item: Item, change: Change)
    requires Exclusive(w) && item in w.rows
    requires change.SetStatus? && Claimable(change.status) ==> Claimable(w.rows[item].status)
    ensures Exclusive(Apply(w, item, change))
  {
    ApplyKeepsRows(w, item, change);
  }

  lemma CallKeepsExclusive(w: World, k: nat, outcome: Outcome)
    requires Exclusive(w) && CanCall(w, k, outcome)
    ensures Exclusive(AfterCall(w, k, EffectOf(w, k, outcome)))
  {
    var worker, effect := w.workers[k], EffectOf(w, k, outcome);
    var item := worker.item;
    ApplyKeepsRows(w, item, effect.change);
    var v := AfterCall(w, k, effect);
    // Only a claim of a pending row makes a worker active, and only the reset
    // that ends its work makes its row claimable again.
    assert v.workers[k].Active() ==> worker.Active() || w.rows[item].status == Pending;
    assert v.workers[k].Active() ==> !Claimable(v.rows[item].status);
    assert worker.Active() || v.workers[k].Active() || effect.change == Nothing;
  }

  lemma StepKeepsExclusive(w: World, e: Event)
    requires Known(w) && Exclusive(w) && Enabled(w, e)
    ensures Exclusive(Next(w, e))
  {
    if RowStep(e) {
      RowChangeKeepsExclusive(w, e.item, RowChange(w, e));
    } else if e.Work? {
      RowChangeKeepsExclusive(w, w.job.item, JobChange(w.job));
    } else if e.Call? {
      CallKeepsExclusive(w, e.worker, e.outcome);
    }
  }

  lemma {:induction false} RunKeepsExclusive(w: World, run: seq<Event>)
    requires Known(w) && Exclusive(w) && IsRun(w, run)
    ensures Known(Final(w, run)) && Exclusive(Final(w, run))
    decreases |run|
  {
    if run != [] {
      StepKeepsKnown(w, run[0]);
      StepKeepsExclusive(w, run[0]);
      RunKeepsExclusive(Next(w, run[0]), run[1..]);
    }
  }

  /** In every state of every run, two different workers past the claim are on
      different items, and no item with such a worker is there to be claimed. */
  lemma OneWorkerPerItem(w: World, run: seq<Event>, a: nat, b: nat)
    requires Quiet(w) && IsRun(w, run)
    requires var v := Final(w, run); a in v.workers && b in v.workers && v.workers[a].Active() && v.workers[b].Active()
    requires Final(w, run).workers[a].item == Final(w, run).workers[b].item
    ensures a == b
    ensures var v := Final(w, run); v.workers[a].item in v.rows && v.rows[v.workers[a].item].status != Pending
  {
    RunKeepsExclusive(w, run);
  }
}
