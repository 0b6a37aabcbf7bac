/** What one step of the protocol leaves as it was. */
module Steps {
  import opened Ledger

  lemma ApplyKeepsRows(w: World, item: Item, change: Change)
    requires item in w.rows
    ensures Apply(w, item, change).rows.Keys == w.rows.Keys
    ensures forall i :: i in w.rows && i != item ==> Apply(w, item, change).rows[i] == w.rows[i]
    ensures change.SetStatus? ==> Apply(w, item, change).rows[item].status == change.status
    ensures change.FailRow? ==> Apply(w, item, change).rows[item].status == Failed
    ensures !change.SetStatus? && !change.FailRow? ==> Apply(w, item, change).rows == w.rows
  {
  }

  lemma ApplyLog(w: World, item: Item, change: Change)
    requires item in w.rows
    ensures change.Write? ==> Apply(w, item, change).log == w.log + [change.entry]
    ensures change.Create? ==> Apply(w, item, change).log == w.log + [Recorded(item, change.cents, change.payment)]
    ensures change.FailRow? ==> Apply(w, item, change).log == w.log + [MarkedFailed(item)]
    ensures change.Nothing? || change.SetStatus? || change.FreeReservation? ==> Apply(w, item, change).log == w.log
    ensures Apply(w, item, change).workers == w.workers
  {
  }

  /** A change of the store leaves the poller, the workers and the clock alone. */
  lemma ApplyKeepsThreads(w: World, item: Item, change: Change)
    requires item in w.rows
    ensures var v := Apply(w, item, change);
            && v.page == w.page && v.job == w.job && v.backlog == w.backlog && v.workers == w.workers
            && v.now == w.now && v.interval == w.interval && v.retries == w.retries
  {
  }

  /** What a step never changes in a row. */
  predicate SameTerms(a: Row, b: Row) {
    && a.user == b.user && a.createdAt == b.createdAt && a.terms == b.terms
    && a.usdCents == b.usdCents && a.units == b.units && a.reservedCents == b.reservedCents && a.released == b.released
  }

  /** What becomes of an answer depends on the terms of the row alone. */
  lemma SameAnswer(item: Item, a: Row, b: Row, retries: nat, attempt: nat, answer: Answer)
    requires SameTerms(a, b)
    ensures AfterCheck(item, a, retries, attempt, answer) == AfterCheck(item, b, retries, attempt, answer)
  {
    match answer
    case Paid(_, _) =>
    case Unpaid =>
    case Transient =>
    case Permanent =>
  }

  lemma ChangeKeepsTerms(w: World, i: Item, change: Change, item: Item)
    requires i in w.rows && item in w.rows
    ensures item in Apply(w, i, change).rows && SameTerms(Apply(w, i, change).rows[item], w.rows[item])
  {
  }

  lemma StepKeepsTerms(w: World, e: Event, item: Item)
    requires Enabled(w, e) && item in w.rows
    ensures item in Next(w, e).rows && SameTerms(Next(w, e).rows[item], w.rows[item])
  {
    if RowStep(e) { ChangeKeepsTerms(w, e.item, RowChange(w, e), item); }
    if e.Work? { ChangeKeepsTerms(w, w.job.item, JobChange(w.job), item); }
    if e.Call? { ChangeKeepsTerms(w, w.workers[e.worker].item, EffectOf(w, e.worker, e.outcome).change, item); }
  }

  lemma {:induction false} RunKeepsTerms(w: World, run: seq<Event>, item: Item)
    requires IsRun(w, run) && item in w.rows
    ensures item in Final(w, run).rows && SameTerms(Final(w, run).rows[item], w.rows[item])
    decreases |run|
  {
    if run != [] {
      StepKeepsTerms(w, run[0], item);
      RunKeepsTerms(Next(w, run[0]), run[1..], item);
    }
  }

  lemma StepKeepsRows(w: World, e: Event)
    requires Enabled(w, e)
    ensures forall i :: i in w.rows ==> i in Next(w, e).rows
  {
    forall i | i in w.rows ensures i in Next(w, e).rows {
      StepKeepsTerms(w, e, i);
    }
  }

  /** Balances change when a worker writes what it has carried, for its own
      item, or releases a reservation. */
  lemma CallOnBalance(w: World, k: nat, outcome: Outcome)
    requires CanCall(w, k, outcome)
    ensures var worker, effect := w.workers[k], EffectOf(w, k, outcome);
            && (effect.change.Write? ==>
                  && worker.pc.Writing? && outcome.Ok?
                  && effect.change.entry == Wrote(worker.item, w.rows[worker.item].user,
                                                  worker.pc.cents, worker.pc.units, worker.pc.record))
            && (effect.change.FreeReservation? ==> outcome.Ok? && (worker.pc.Releasing? || worker.pc.FailReleasing?))
  {
  }

  /** A worker other than the one that calls stays as it is, or has just been
      started: a withdrawal's from the backlog. */
  lemma StepMovesOneWorker(w: World, e: Event, k: nat)
    requires Enabled(w, e) && k in Next(w, e).workers && !(e.Call? && e.worker == k)
    ensures || (k in w.workers && Next(w, e).workers[k] == w.workers[k])
            || (e.StartSession? && Next(w, e).workers[k] == Worker(e.item, "", Start) && e.item.Session?)
            || (e.StartWithdrawal? && e.snapshot in w.backlog
                && Next(w, e).workers[k] == Worker(e.snapshot.item, e.snapshot.hash, Start))
  {
    if e.Call? { ApplyKeepsThreads(w, w.workers[e.worker].item, EffectOf(w, e.worker, e.outcome).change); }
    if e.Work? { ApplyKeepsThreads(w, w.job.item, JobChange(w.job)); }
    if RowStep(e) { ApplyKeepsThreads(w, e.item, RowChange(w, e)); }
  }

  lemma StepKeepsWorkers(w: World, e: Event)
    requires Enabled(w, e)
    ensures forall k :: k in w.workers ==> k in Next(w, e).workers && Next(w, e).workers[k].item == w.workers[k].item
  {
    if e.Call? { ApplyKeepsThreads(w, w.workers[e.worker].item, EffectOf(w, e.worker, e.outcome).change); }
    if e.Work? { ApplyKeepsThreads(w, w.job.item, JobChange(w.job)); }
    if RowStep(e) { ApplyKeepsThreads(w, e.item, RowChange(w, e)); }
  }

  lemma StepGrowsLog(w: World, e: Event)
    requires Enabled(w, e)
    ensures var v := Next(w, e);
            || v.log == w.log
            || (|v.log| == |w.log| + 1 && v.log[..|w.log|] == w.log
                && (v.log[|w.log|].Wrote? ==>
                      e.Call? && EffectOf(w, e.worker, e.outcome).change.Write?
                      && v.log[|w.log|] == EffectOf(w, e.worker, e.outcome).change.entry))
  {
    if e.Call? {
      ApplyLog(w, w.workers[e.worker].item, EffectOf(w, e.worker, e.outcome).change);
    }
    if e.Work? {
      ApplyLog(w, w.job.item, JobChange(w.job));
    }
  }

  /** What the withdrawal poller goes by grows only by what it reads. */
  lemma StepOfPoller(w: World, e: Event)
    requires Enabled(w, e)
    ensures var v := Next(w, e);
            && (forall i :: i in v.page ==> i in w.page || (e.LoadPage? && i in e.page && i in w.rows && i.Withdrawal?))
            && (!v.job.Idle? ==>
                  (!w.job.Idle? && v.job.item == w.job.item) || (v.job.item in w.page && e == Mark(v.job.item)))
  {
    if e.Call? { ApplyKeepsThreads(w, w.workers[e.worker].item, EffectOf(w, e.worker, e.outcome).change); }
    if e.Work? { ApplyKeepsThreads(w, w.job.item, JobChange(w.job)); }
  }

  lemma StepOfBacklog(w: World, e: Event, s: Snapshot)
    requires Enabled(w, e) && s in Next(w, e).backlog
    ensures || s in w.backlog
            || (e.Collect? && e.item in w.page && w.page[e.item] != "" && s == Snapshot(e.item, w.page[e.item]))
  {
    BacklogStays(w, e);
  }

  lemma BacklogStays(w: World, e: Event)
    requires Enabled(w, e)
    ensures !e.Collect? && !e.StartWithdrawal? ==> Next(w, e).backlog == w.backlog
  {
    if e.Call? { ApplyKeepsThreads(w, w.workers[e.worker].item, EffectOf(w, e.worker, e.outcome).change); }
    if e.Work? { ApplyKeepsThreads(w, w.job.item, JobChange(w.job)); }
  }

  /** Time passes, and the interval is what it is. */
  lemma StepKeepsTime(w: World, e: Event)
    requires Enabled(w, e)
    ensures Next(w, e).now >= w.now && Next(w, e).interval == w.interval && Next(w, e).retries == w.retries
  {
    if e.Call? { ApplyKeepsThreads(w, w.workers[e.worker].item, EffectOf(w, e.worker, e.outcome).change); }
    if e.Work? { ApplyKeepsThreads(w, w.job.item, JobChange(w.job)); }
  }

  /** One step more. */
  lemma Extend(w: World, run: seq<Event>, v: World, e: Event, allowed: (World, Event) -> bool)
    returns (longer: seq<Event>, after: World)
    requires Leads(w, run, v, allowed) && Enabled(v, e) && allowed(v, e)
    ensures longer == run + [e] && after == Next(v, e) && Leads(w, longer, after, allowed)
  {
    longer, after := run + [e], Next(v, e);
    assert [e][1..] == [];
    Join(w, run, v, [e], after, allowed);
  }

  lemma RunSnoc(w: World, run: seq<Event>, e: Event)
    requires IsRun(w, run) && Enabled(Final(w, run), e)
    ensures IsRun(w, run + [e]) && Final(w, run + [e]) == Next(Final(w, run), e)
  {
    var longer, after := Extend(w, run, Final(w, run), e, Anything);
  }
}
