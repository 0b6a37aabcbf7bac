/** How often an item is settled against the balance, by the status protocol
    alone: at most once as long as no reset puts a settled item back, and again
    once one does. */
module Settlement {
  import opened Exclusion
  import opened Ledger
  import opened Paths
  import opened PaymentMatch
  import opened Steps

  /** Past the claim, and before the balance write. */
  predicate Settling(pc: Pc) {
    pc.Claimed? || pc.Checking? || pc.Recording? || pc.Reading? || pc.Writing?
  }

  /** Between the balance write and the completed status. */
  predicate Late(pc: Pc) {
    pc.Releasing? || pc.Completing?
  }

  ghost predicate HasWrite(log: seq<Entry>, item: Item) {
    exists i :: 0 <= i < |log| && log[i].Wrote? && log[i].item == item
  }

  /** The number of balance writes for an item. */
  function Writes(log: seq<Entry>, item: Item): nat {
    if log == [] then 0
    else
      var last := log[|log| - 1];
      Writes(log[..|log| - 1], item) + if last.Wrote? && last.item == item then 1 else 0
  }

  ghost predicate WrittenOnce(log: seq<Entry>) {
    forall i, j :: 0 <= i < j < |log| && log[i].Wrote? && log[j].Wrote? ==> log[i].item != log[j].item
  }

  /** The exact hypothesis: no reset puts back an item with a balance write. */
  ghost predicate NoResetOfSettled(w: World, e: Event) {
    e.Call? && e.outcome.Ok? && e.worker in w.workers && w.workers[e.worker].pc.Resetting? ==>
      !HasWrite(w.log, w.workers[e.worker].item)
  }

  /** A hypothesis on calls alone: those after the balance write do not fail. */
  predicate NoLateFailure(w: World, e: Event) {
    e.Call? && e.worker in w.workers && Late(w.workers[e.worker].pc) ==> !e.outcome.Err?
  }

  /** A settled item is not claimable, and no worker is about to settle it. */
  ghost predicate SettledAreClosed(w: World) {
    && (forall i :: 0 <= i < |w.log| && w.log[i].Wrote? ==>
          w.log[i].item in w.rows && !Claimable(w.rows[w.log[i].item].status))
    && (forall k, i :: k in w.workers && Settling(w.workers[k].pc) && 0 <= i < |w.log| && w.log[i].Wrote? ==>
          w.log[i].item != w.workers[k].item)
  }

  ghost predicate Once(w: World) {
    WrittenOnce(w.log) && SettledAreClosed(w)
  }

  lemma HasWriteGrows(log: seq<Entry>, e: Entry)
    ensures forall i :: HasWrite(log, i) ==> HasWrite(log + [e], i)
    ensures e.Wrote? ==> HasWrite(log + [e], e.item)
  {
    forall i | HasWrite(log, i) ensures HasWrite(log + [e], i) {
      var n :| 0 <= n < |log| && log[n].Wrote? && log[n].item == i;
      assert (log + [e])[n] == log[n];
    }
    if e.Wrote? {
      assert (log + [e])[|log|] == e;
    }
  }

  lemma WritesOfOneMore(log: seq<Entry>, e: Entry, item: Item)
    ensures Writes(log + [e], item) == Writes(log, item) + if e.Wrote? && e.item == item then 1 else 0
  {
    assert (log + [e])[..|log|] == log;
  }

  // ---- At most once ----

  /** A change to one item by a thread that is not one of the workers. */
  lemma RowChangeKeepsOnce(w: World, item: Item, change: Change)
    requires Once(w) && item in w.rows && !change.Write?
    requires change.SetStatus? && Claimable(change.status) ==> Claimable(w.rows[item].status)
    ensures Once(Apply(w, item, change))
  {
    ApplyKeepsRows(w, item, change);
    ApplyLog(w, item, change);
  }

  /** What a call may do: only a settling worker writes, only for its own item;
      only a reset makes a row claimable; only a claim starts the settling. */
  lemma CallMoves(w: World, k: nat, outcome: Outcome)
    requires CanCall(w, k, outcome)
    ensures var worker, effect := w.workers[k], EffectOf(w, k, outcome);
            && (effect.change.Write? ==>
                  && worker.pc.Writing? && !Settling(effect.pc)
                  && effect.change.entry.Wrote? && effect.change.entry.item == worker.item)
            && (effect.change.SetStatus? && Claimable(effect.change.status) ==>
                  worker.pc.Resetting? && outcome.Ok? && effect.pc.Done?)
            && (Settling(effect.pc) ==> Settling(worker.pc) || w.rows[worker.item].status == Pending)
            && (worker.pc.Resetting? && outcome.Ok? ==> effect == Effect(Done(Reset), SetStatus(Pending, "")))
  {
  }

  lemma CallKeepsWrittenOnce(w: World, k: nat, outcome: Outcome)
    requires Once(w) && CanCall(w, k, outcome)
    ensures WrittenOnce(Next(w, Call(k, outcome)).log)
  {
    CallMoves(w, k, outcome);
    ApplyLog(w, w.workers[k].item, EffectOf(w, k, outcome).change);
  }

  lemma CallKeepsSettledRows(w: World, k: nat, outcome: Outcome, i: nat)
    requires Exclusive(w) && Once(w) && CanCall(w, k, outcome) && NoResetOfSettled(w, Call(k, outcome))
    requires i < |Next(w, Call(k, outcome)).log| && Next(w, Call(k, outcome)).log[i].Wrote?
    ensures var v := Next(w, Call(k, outcome)); v.log[i].item in v.rows && !Claimable(v.rows[v.log[i].item].status)
  {
    CallMoves(w, k, outcome);
    ApplyLog(w, w.workers[k].item, EffectOf(w, k, outcome).change);
    ApplyKeepsRows(w, w.workers[k].item, EffectOf(w, k, outcome).change);
    var v := Next(w, Call(k, outcome));
    if i < |w.log| {
      assert v.log[i] == w.log[i];
      assert HasWrite(w.log, w.log[i].item);
    }
  }

  lemma CallKeepsSettledWorkers(w: World, k: nat, outcome: Outcome, n: nat, i: nat)
    requires Exclusive(w) && Once(w) && CanCall(w, k, outcome)
    requires n in w.workers && Settling(Next(w, Call(k, outcome)).workers[n].pc)
    requires i < |Next(w, Call(k, outcome)).log| && Next(w, Call(k, outcome)).log[i].Wrote?
    ensures Next(w, Call(k, outcome)).log[i].item != w.workers[n].item
  {
    CallMoves(w, k, outcome);
    ApplyLog(w, w.workers[k].item, EffectOf(w, k, outcome).change);
    if i < |w.log| {
      assert Next(w, Call(k, outcome)).log[i] == w.log[i];
    }
  }

  lemma CallKeepsOnce(w: World, k: nat, outcome: Outcome)
    requires Exclusive(w) && Once(w) && CanCall(w, k, outcome) && NoResetOfSettled(w, Call(k, outcome))
    ensures Once(Next(w, Call(k, outcome)))
  {
    var v := Next(w, Call(k, outcome));
    CallKeepsWrittenOnce(w, k, outcome);
    forall i | 0 <= i < |v.log| && v.log[i].Wrote?
      ensures v.log[i].item in v.rows && !Claimable(v.rows[v.log[i].item].status)
    {
      CallKeepsSettledRows(w, k, outcome, i);
    }
    forall n, i | n in v.workers && Settling(v.workers[n].pc) && 0 <= i < |v.log| && v.log[i].Wrote?
      ensures v.log[i].item != v.workers[n].item
    {
      CallKeepsSettledWorkers(w, k, outcome, n, i);
    }
  }

  lemma StepKeepsOnce(w: World, e: Event)
    requires Exclusive(w) && Once(w) && Enabled(w, e) && NoResetOfSettled(w, e)
    ensures Once(Next(w, e))
  {
    if RowStep(e) {
      RowChangeKeepsOnce(w, e.item, RowChange(w, e));
    } else if e.Work? {
      RowChangeKeepsOnce(w, w.job.item, JobChange(w.job));
    } else if e.Call? {
      CallKeepsOnce(w, e.worker, e.outcome);
    }
  }

  /** The reset of a settled item makes it claimable. */
  lemma ResetReopens(w: World, e: Event)
    requires Enabled(w, e) && !NoResetOfSettled(w, e)
    ensures !SettledAreClosed(Next(w, e))
  {
    var item, v := w.workers[e.worker].item, Next(w, e);
    CallMoves(w, e.worker, e.outcome);
    assert v.log == w.log && v.rows[item].status == Pending;
    var i :| 0 <= i < |w.log| && w.log[i].Wrote? && w.log[i].item == item;
    assert v.log[i].item == item;
  }

  lemma {:induction false} RunKeepsOnce(w: World, run: seq<Event>)
    requires Known(w) && Exclusive(w) && Once(w) && IsRun(w, run)
    ensures Along(w, run, NoResetOfSettled) ==> Once(Final(w, run))
    ensures Along(w, run, NoResetOfSettled) <==> Throughout(w, run, SettledAreClosed)
    decreases |run|
  {
    if run != [] {
      StepKeepsKnown(w, run[0]);
      StepKeepsExclusive(w, run[0]);
      if NoResetOfSettled(w, run[0]) {
        StepKeepsOnce(w, run[0]);
        RunKeepsOnce(Next(w, run[0]), run[1..]);
      } else {
        ResetReopens(w, run[0]);
      }
    }
  }

  /** As long as no reset puts a settled item back, whatever fails, each item's
      balance write happens at most once. */
  lemma SettledAtMostOnce(w: World, run: seq<Event>)
    requires Quiet(w) && Along(w, run, NoResetOfSettled)
    ensures IsRun(w, run) && WrittenOnce(Final(w, run).log)
  {
    AlongIsRun(w, run, NoResetOfSettled);
    RunKeepsOnce(w, run);
  }

  /** The resets of settled items are exactly what reopens one: in every run,
      there is none if and only if in every state no settled item is claimable
      or on its way to be settled. */
  lemma OnlyResetsReopen(w: World, run: seq<Event>)
    requires Quiet(w) && IsRun(w, run)
    ensures Along(w, run, NoResetOfSettled) <==> Throughout(w, run, SettledAreClosed)
  {
    RunKeepsOnce(w, run);
  }

  // ---- Without late failures ----

  ghost predicate ResettersHaveNotWritten(w: World) {
    forall k :: k in w.workers && w.workers[k].pc.Resetting? ==> !HasWrite(w.log, w.workers[k].item)
  }

  lemma StepKeepsResetters(w: World, e: Event)
    requires Exclusive(w) && Once(w) && ResettersHaveNotWritten(w) && Enabled(w, e) && NoLateFailure(w, e)
    ensures ResettersHaveNotWritten(Next(w, e))
  {
    var v := Next(w, e);
    forall k | k in v.workers && v.workers[k].pc.Resetting? ensures !HasWrite(v.log, v.workers[k].item) {
      ResetterHasNotWritten(w, e, k);
    }
  }

  lemma ResetterHasNotWritten(w: World, e: Event, k: nat)
    requires Exclusive(w) && Once(w) && ResettersHaveNotWritten(w) && Enabled(w, e) && NoLateFailure(w, e)
    requires k in Next(w, e).workers && Next(w, e).workers[k].pc.Resetting?
    ensures !HasWrite(Next(w, e).log, Next(w, e).workers[k].item)
  {
    if e.Call? && e.worker == k {
      CallToResetDoesNotWrite(w, k, e.outcome);
    } else {
      StepMovesOneWorker(w, e, k);
      OthersDoNotWrite(w, e, k);
    }
  }

  lemma CallToResetDoesNotWrite(w: World, k: nat, outcome: Outcome)
    requires Once(w) && CanCall(w, k, outcome) && NoLateFailure(w, Call(k, outcome))
    requires EffectOf(w, k, outcome).pc.Resetting?
    ensures !HasWrite(Next(w, Call(k, outcome)).log, w.workers[k].item)
  {
    assert Settling(w.workers[k].pc) && EffectOf(w, k, outcome).change.Nothing?;
  }

  lemma OthersDoNotWrite(w: World, e: Event, k: nat)
    requires Exclusive(w) && Enabled(w, e) && !(e.Call? && e.worker == k)
    requires k in w.workers && w.workers[k].Active() && !HasWrite(w.log, w.workers[k].item)
    ensures !HasWrite(Next(w, e).log, w.workers[k].item)
  {
    StepGrowsLog(w, e);
    if e.Call? { CallMoves(w, e.worker, e.outcome); }
    NoNewWrite(w.log, Next(w, e).log, w.workers[k].item);
  }

  lemma NoNewWrite(log: seq<Entry>, log': seq<Entry>, item: Item)
    requires !HasWrite(log, item)
    requires log' == log
          || (|log'| == |log| + 1 && log'[..|log|] == log && (log'[|log|].Wrote? ==> log'[|log|].item != item))
    ensures !HasWrite(log', item)
  {
    forall i | 0 <= i < |log'| && log'[i].Wrote? ensures log'[i].item != item {
      assert i < |log| ==> log'[..|log|][i] == log[i];
    }
  }

  lemma {:induction false} NoLateFailureMeansNoReset(w: World, run: seq<Event>)
    requires Known(w) && Exclusive(w) && Once(w) && ResettersHaveNotWritten(w) && Along(w, run, NoLateFailure)
    ensures Along(w, run, NoResetOfSettled)
    decreases |run|
  {
    if run != [] {
      StepKeepsKnown(w, run[0]);
      StepKeepsExclusive(w, run[0]);
      StepKeepsOnce(w, run[0]);
      StepKeepsResetters(w, run[0]);
      NoLateFailureMeansNoReset(Next(w, run[0]), run[1..]);
    }
  }

  /** So it is enough that no call after a balance write fails. */
  lemma SettledAtMostOnceWithoutLateFailure(w: World, run: seq<Event>)
    requires Quiet(w) && Along(w, run, NoLateFailure)
    ensures Along(w, run, NoResetOfSettled) && IsRun(w, run) && WrittenOnce(Final(w, run).log)
  {
    NoLateFailureMeansNoReset(w, run);
    SettledAtMostOnce(w, run);
  }

  // ---- A late failure ----

  lemma WritesOfTwoMore(log: seq<Entry>, record: Entry, write: Entry, item: Item)
    requires record.Recorded? && write.Wrote?
    ensures Writes(log + [record] + [write], item) == Writes(log, item) + if write.item == item then 1 else 0
  {
    WritesOfOneMore(log, record, item);
    WritesOfOneMore(log + [record], write, item);
  }

  /** One failing call is enough. Up to a session's completed status nothing
      fails; that write fails, and the reset puts the session back; then again
      nothing fails, and the session is credited a second time. */
  lemma LateFailureSettlesTwice(w: World, item: Item, payment: Payment, rate: real)
    returns (first: seq<Event>, settled: World, reopened: World, second: seq<Event>, again: World)
    requires Quiet(w) && item in w.rows && item.Session? && w.rows[item].status == Pending
    requires FitsAnswer(item, w.rows[item], Paid(payment, rate)) && w.rows[item].user in w.balances
    requires var b := w.balances[w.rows[item].user]; b.cents >= 0 && b.units >= 0.0
    ensures Leads(w, first, settled, NothingFails)
    ensures settled.workers == map[0 := Worker(item, "", Completing)] && Writes(settled.log, item) == 1
    ensures Leads(settled, [Call(0, Err), Call(0, Ok)], reopened, Anything)
    ensures Leads(reopened, second, again, NothingFails) && Writes(again.log, item) == 2
  {
    first, settled := PendingSessionIsWritten(w, 0, item, payment, rate);
    WritesOfTwoMore([], settled.log[0], settled.log[1], item);
    assert settled.log == [] + [settled.log[0]] + [settled.log[1]];
    var steps;
    steps, reopened := CompletionFails(settled, 0, item);
    second, again := PendingSessionIsWritten(reopened, 1, item, payment, rate);
    WritesOfTwoMore(settled.log, again.log[2], again.log[3], item);
    assert again.log == settled.log + [again.log[2]] + [again.log[3]];
  }
}
