/** No withdrawal is both debited and marked failed. The poller marks only
    withdrawals it read without a hash, workers are started only for those it
    read with one, and a stored hash stays. */
module FailedOrDebited {
  import opened Ledger
  import Paging
  import opened Steps
  import WithdrawalPoller
  import opened Exclusion

  /** The hypothesis: the checks answer as the client does. */
  predicate ClientAnswers(w: World, e: Event) {
    e.Call? && e.outcome.Chain? ==> e.outcome.answer.FromClient()
  }

  predicate Marking(pc: Pc) {
    pc.Failing? || pc.FailReleasing? || pc.FailSaving?
  }

  /** Some worker was started, or may still be, to settle the item. */
  ghost predicate Dispatched(w: World, item: Item) {
    || (exists k :: k in w.workers && w.workers[k].item == item)
    || (exists s :: s in w.backlog && s.item == item)
  }

  /** A dispatched withdrawal was read with a hash, and has one. */
  ghost predicate DispatchedHaveHash(w: World) {
    && (forall s :: s in w.backlog ==> s.hash != "" && s.item in w.rows && w.rows[s.item].hash != "")
    && (forall k :: k in w.workers && w.workers[k].item.Withdrawal? ==>
          w.workers[k].hash != "" && w.workers[k].item in w.rows && w.rows[w.workers[k].item].hash != "")
    && (forall k :: k in w.workers ==> !Marking(w.workers[k].pc))
  }

  /** The poller is about to mark the item, or has marked it. */
  ghost predicate Doomed(w: World, item: Item) {
    || (item in w.page && w.page[item] == "")
    || (!w.job.Idle? && w.job.item == item)
    || MarkedFailed(item) in w.log
  }

  ghost predicate Apart(w: World) {
    && (forall item :: Doomed(w, item) ==> item.Withdrawal? && !Dispatched(w, item))
    && (forall item :: MarkedFailed(item) in w.log ==>
          item in w.rows && w.rows[item].status == Failed && item !in w.page)
    && (!w.job.Idle? ==> w.job.item !in w.page)
    && (forall item :: item in w.page ==> item in w.rows && (w.page[item] != "" ==> w.rows[item].hash != ""))
    && (w.job.Save? || w.job.Release? ==> MarkedFailed(w.job.item) in w.log)
  }

  ghost predicate WritersShow(log: seq<Entry>, workers: map<nat, Worker>) {
    forall i :: 0 <= i < |log| && log[i].Wrote? ==> exists k :: k in workers && workers[k].item == log[i].item
  }

  /** Every balance write was made by a worker that still shows. */
  ghost predicate DebitsWereDispatched(w: World) {
    WritersShow(w.log, w.workers)
  }

  /** A stored hash is never erased. */
  lemma StepKeepsHash(w: World, e: Event, item: Item)
    requires Enabled(w, e) && item in w.rows
    ensures item in Next(w, e).rows && (w.rows[item].hash != "" ==> Next(w, e).rows[item].hash != "")
  {
    if RowStep(e) { ChangeKeepsHash(w, e.item, RowChange(w, e), item); }
    if e.Work? { ChangeKeepsHash(w, w.job.item, JobChange(w.job), item); }
    if e.Call? { ChangeKeepsHash(w, w.workers[e.worker].item, EffectOf(w, e.worker, e.outcome).change, item); }
  }

  lemma ChangeKeepsHash(w: World, i: Item, change: Change, item: Item)
    requires i in w.rows && item in w.rows
    ensures item in Apply(w, i, change).rows && (w.rows[item].hash != "" ==> Apply(w, i, change).rows[item].hash != "")
  {
  }

  /** Each of the poller's two status writes leaves the row failed, whatever
      other threads have made of it in between. */
  lemma PollerLeavesFailed(w: World)
    requires Enabled(w, Work(true)) && !w.job.Release?
    ensures w.job.item in Next(w, Work(true)).rows && Next(w, Work(true)).rows[w.job.item].status == Failed
  {
  }

  /** A hash that is given is stored, over any other, when another service sets
      it and when a worker completes the withdrawal or marks it failed. */
  lemma GivenHashIsStored(w: World, e: Event, item: Item)
    requires Enabled(w, e)
    ensures e.SetHash? && e.item == item ==>
              item in Next(w, e).rows && Next(w, e).rows[item].hash == e.hash
    ensures e.Call? && w.workers[e.worker].item == item && w.workers[e.worker].hash != "" && e.outcome.Ok?
            && (w.workers[e.worker].pc.Completing? || w.workers[e.worker].pc.Failing?) ==>
              item in Next(w, e).rows && Next(w, e).rows[item].hash == w.workers[e.worker].hash
  {
  }

  lemma {:induction false} StoredHashesStay(w: World, run: seq<Event>, item: Item)
    requires IsRun(w, run) && item in w.rows && w.rows[item].hash != ""
    ensures item in Final(w, run).rows && Final(w, run).rows[item].hash != ""
    decreases |run|
  {
    if run != [] {
      StepKeepsHash(w, run[0], item);
      StoredHashesStay(Next(w, run[0]), run[1..], item);
    }
  }

  /** The branch of the retry loop that marks a withdrawal failed is not taken. */
  lemma CallDoesNotMark(w: World, k: nat, outcome: Outcome)
    requires CanCall(w, k, outcome) && ClientAnswers(w, Call(k, outcome)) && !Marking(w.workers[k].pc)
    requires w.workers[k].item.Withdrawal? ==> w.workers[k].hash != ""
    ensures !Marking(EffectOf(w, k, outcome).pc) && !EffectOf(w, k, outcome).change.FailRow?
  {
  }

  lemma StepKeepsDispatchedHaveHash(w: World, e: Event)
    requires Known(w) && DispatchedHaveHash(w) && Apart(w) && Enabled(w, e) && ClientAnswers(w, e)
    ensures DispatchedHaveHash(Next(w, e))
  {
    BacklogKeepsHash(w, e);
    var v := Next(w, e);
    forall k | k in v.workers
      ensures v.workers[k].item.Withdrawal? ==>
                v.workers[k].hash != "" && v.workers[k].item in v.rows && v.rows[v.workers[k].item].hash != ""
      ensures !Marking(v.workers[k].pc)
    {
      if e.Call? && e.worker == k {
        CallDoesNotMark(w, k, e.outcome);
      } else {
        StepMovesOneWorker(w, e, k);
      }
      if v.workers[k].item.Withdrawal? { StepKeepsHash(w, e, v.workers[k].item); }
    }
  }

  lemma BacklogKeepsHash(w: World, e: Event)
    requires DispatchedHaveHash(w) && Apart(w) && Enabled(w, e)
    ensures var v := Next(w, e);
            forall s :: s in v.backlog ==> s.hash != "" && s.item in v.rows && v.rows[s.item].hash != ""
  {
    var v := Next(w, e);
    forall s | s in v.backlog ensures s.hash != "" && s.item in v.rows && v.rows[s.item].hash != "" {
      StepOfBacklog(w, e, s);
      StepKeepsHash(w, e, s.item);
    }
  }

  /** Steps that change rows and log only, and mark nothing. */
  lemma ChangeKeepsApart(w: World, item: Item, change: Change)
    requires Apart(w) && item in w.rows && !change.FailRow?
    requires change.SetStatus? && MarkedFailed(item) in w.log ==> change.status == Failed
    requires change.Write? ==> change.entry.Wrote?
    ensures Apart(Apply(w, item, change))
  {
    ApplyKeepsRows(w, item, change);
    ApplyLog(w, item, change);
    var v := Apply(w, item, change);
    forall i ensures MarkedFailed(i) in v.log <==> MarkedFailed(i) in w.log {
    }
    forall i ensures Doomed(v, i) <==> Doomed(w, i) {
    }
    forall i ensures Dispatched(v, i) <==> Dispatched(w, i) {
    }
    forall i | i in w.rows ensures w.rows[i].hash != "" ==> v.rows[i].hash != "" {
      ChangeKeepsHash(w, item, change, i);
    }
  }

  lemma MovingOnKeepsApart(w: World, k: nat, pc: Pc)
    requires Apart(w) && k in w.workers
    ensures Apart(w.(workers := w.workers[k := w.workers[k].(pc := pc)]))
  {
    var v := w.(workers := w.workers[k := w.workers[k].(pc := pc)]);
    assert forall n :: n in v.workers <==> n in w.workers;
    assert forall n :: n in w.workers ==> v.workers[n].item == w.workers[n].item;
    forall i ensures Dispatched(v, i) ==> Dispatched(w, i) {
    }
    forall i ensures Doomed(v, i) <==> Doomed(w, i) {
    }
  }

  lemma WorkersAreNotDoomed(w: World, k: nat)
    requires Apart(w) && k in w.workers
    ensures !Doomed(w, w.workers[k].item) && MarkedFailed(w.workers[k].item) !in w.log
  {
    assert Dispatched(w, w.workers[k].item);
  }

  lemma CallKeepsApart(w: World, k: nat, outcome: Outcome)
    requires Known(w) && DispatchedHaveHash(w) && Apart(w)
    requires CanCall(w, k, outcome) && ClientAnswers(w, Call(k, outcome))
    ensures Apart(Next(w, Call(k, outcome)))
  {
    var worker, effect := w.workers[k], EffectOf(w, k, outcome);
    CallDoesNotMark(w, k, outcome);
    WorkersAreNotDoomed(w, k);
    CallOnBalance(w, k, outcome);
    ChangeKeepsApart(w, worker.item, effect.change);
    var v := Apply(w, worker.item, effect.change);
    ApplyLog(w, worker.item, effect.change);
    assert Next(w, Call(k, outcome)) == v.(workers := v.workers[k := v.workers[k].(pc := effect.pc)]);
    MovingOnKeepsApart(v, k, effect.pc);
  }

  /** The poller's first write, of a withdrawal it is about to mark. */
  lemma MarkKeepsApart(w: World, item: Item, hash: string)
    requires Apart(w) && item in w.rows && Doomed(w, item) && item !in w.page
    ensures Apart(Apply(w, item, FailRow(hash))) && MarkedFailed(item) in Apply(w, item, FailRow(hash)).log
  {
    var v := Apply(w, item, FailRow(hash));
    ApplyKeepsRows(w, item, FailRow(hash));
    assert v.log[|w.log|] == MarkedFailed(item);
    forall i ensures MarkedFailed(i) in v.log <==> MarkedFailed(i) in w.log || i == item {
    }
    forall i ensures Doomed(v, i) <==> Doomed(w, i) {
    }
    forall i ensures Dispatched(v, i) <==> Dispatched(w, i) {
    }
    forall i | i in w.rows ensures w.rows[i].hash != "" ==> v.rows[i].hash != "" {
      ChangeKeepsHash(w, item, FailRow(hash), i);
    }
  }

  /** The poller goes on with the withdrawal, or is done with it. */
  lemma NextJobKeepsApart(v: World, job: Job)
    requires Apart(v) && (!job.Idle? ==> !v.job.Idle? && job.item == v.job.item && MarkedFailed(job.item) in v.log)
    ensures Apart(v.(job := job))
  {
    var u := v.(job := job);
    forall i ensures Doomed(u, i) ==> Doomed(v, i) {
    }
    forall i ensures Dispatched(u, i) <==> Dispatched(v, i) {
    }
  }

  lemma WorkKeepsApart(w: World, ok: bool)
    requires Known(w) && Apart(w) && Enabled(w, Work(ok))
    ensures Apart(Next(w, Work(ok)))
  {
    if ok {
      var v := Apply(w, w.job.item, JobChange(w.job));
      ApplyLog(w, w.job.item, JobChange(w.job));
      ApplyKeepsThreads(w, w.job.item, JobChange(w.job));
      if w.job.Update? {
        assert Doomed(w, w.job.item);
        MarkKeepsApart(w, w.job.item, "");
      } else {
        ChangeKeepsApart(w, w.job.item, JobChange(w.job));
      }
      NextJobKeepsApart(v, NextJob(w));
    } else {
      NextJobKeepsApart(w, Idle);
    }
  }

  /** A step of the poller, or the start of a worker. */
  predicate PollStep(e: Event) {
    e.LoadPage? || e.Pass? || e.Collect? || e.Mark? || e.StartWithdrawal? || e.StartSession?
  }

  lemma PollDoomsNotDispatched(w: World, e: Event, i: Item)
    requires Known(w) && DispatchedHaveHash(w) && Apart(w) && Enabled(w, e) && PollStep(e) && Doomed(Next(w, e), i)
    ensures i.Withdrawal? && !Dispatched(Next(w, e), i)
  {
    if e.LoadPage? && i in e.page && e.page[i] == "" {
      HashlessAreNotDispatched(w, i);
    } else {
      assert Doomed(w, i);
    }
    PollDispatches(w, e, i);
  }

  lemma PollKeepsApart(w: World, e: Event)
    requires Known(w) && DispatchedHaveHash(w) && Apart(w) && Enabled(w, e) && PollStep(e)
    ensures Apart(Next(w, e))
  {
    var v := Next(w, e);
    assert v.rows == w.rows && v.log == w.log;
    forall i | Doomed(v, i) ensures i.Withdrawal? && !Dispatched(v, i) {
      PollDoomsNotDispatched(w, e, i);
    }
  }

  lemma HashlessAreNotDispatched(w: World, i: Item)
    requires DispatchedHaveHash(w) && i in w.rows && i.Withdrawal? && w.rows[i].hash == ""
    ensures !Dispatched(w, i)
  {
  }

  /** Besides the sessions, a poll step dispatches what it collects. */
  lemma PollDispatches(w: World, e: Event, i: Item)
    requires Enabled(w, e) && i.Withdrawal? && !Dispatched(w, i)
    requires PollStep(e)
    ensures Dispatched(Next(w, e), i) ==> e.Collect? && e.item == i
  {
  }

  lemma RowStepKeepsApart(w: World, e: Event)
    requires Known(w) && Apart(w) && Enabled(w, e) && RowStep(e)
    ensures Apart(Next(w, e))
  {
    assert MarkedFailed(e.item) in w.log ==> w.rows[e.item].status == Failed && Doomed(w, e.item) && e.item.Withdrawal?;
    ChangeKeepsApart(w, e.item, RowChange(w, e));
  }

  lemma OpeningKeepsApart(w: World, e: Event)
    requires Known(w) && Apart(w) && Enabled(w, e) && (e.Tick? || e.OpenSession? || e.OpenWithdrawal?)
    ensures Apart(Next(w, e))
  {
    var v := Next(w, e);
    assert v.log == w.log && v.workers == w.workers && v.page == w.page && v.job == w.job && v.backlog == w.backlog;
    forall i ensures (Doomed(v, i) <==> Doomed(w, i)) && (Dispatched(v, i) <==> Dispatched(w, i)) {
    }
    assert forall i :: i in w.rows ==> i in v.rows && v.rows[i] == w.rows[i];
  }

  lemma StepKeepsApart(w: World, e: Event)
    requires Known(w) && DispatchedHaveHash(w) && Apart(w) && Enabled(w, e) && ClientAnswers(w, e)
    ensures Apart(Next(w, e))
  {
    if e.Call? {
      CallKeepsApart(w, e.worker, e.outcome);
    } else if e.Work? {
      WorkKeepsApart(w, e.ok);
    } else if RowStep(e) {
      RowStepKeepsApart(w, e);
    } else if e.Tick? || e.OpenSession? || e.OpenWithdrawal? {
      OpeningKeepsApart(w, e);
    } else {
      PollKeepsApart(w, e);
    }
  }

  /** Workers stay, so the one that made a balance write still shows. */
  lemma StepKeepsDebitsDispatched(w: World, e: Event)
    requires DebitsWereDispatched(w) && Enabled(w, e)
    ensures DebitsWereDispatched(Next(w, e))
  {
    var v := Next(w, e);
    StepGrowsLog(w, e);
    StepKeepsWorkers(w, e);
    WritersStillShow(w.log, w.workers, v.log, v.workers);
  }

  lemma WritersStillShow(log: seq<Entry>, workers: map<nat, Worker>, log': seq<Entry>, workers': map<nat, Worker>)
    requires WritersShow(log, workers)
    requires forall k :: k in workers ==> k in workers' && workers'[k].item == workers[k].item
    requires log' == log || (|log'| == |log| + 1 && log'[..|log|] == log)
    requires |log'| == |log| + 1 && log'[|log|].Wrote? ==>
               exists k :: k in workers' && workers'[k].item == log'[|log|].item
    ensures WritersShow(log', workers')
  {
    forall i | 0 <= i < |log'| && log'[i].Wrote? ensures exists k :: k in workers' && workers'[k].item == log'[i].item {
      if i < |log| {
        assert log[i] == log'[..|log|][i];
        var k :| k in workers && workers[k].item == log[i].item;
        assert workers'[k].item == log'[i].item;
      }
    }
  }

  ghost predicate Inv(w: World) {
    Known(w) && DispatchedHaveHash(w) && Apart(w) && DebitsWereDispatched(w)
  }

  lemma StepKeepsInv(w: World, e: Event)
    requires Inv(w) && Enabled(w, e) && ClientAnswers(w, e)
    ensures Inv(Next(w, e))
  {
    StepKeepsKnown(w, e);
    StepKeepsDispatchedHaveHash(w, e);
    StepKeepsApart(w, e);
    StepKeepsDebitsDispatched(w, e);
  }

  lemma {:induction false} RunKeepsInv(w: World, run: seq<Event>)
    requires Inv(w) && Along(w, run, ClientAnswers)
    ensures IsRun(w, run) && Inv(Final(w, run))
    decreases |run|
  {
    if run != [] {
      StepKeepsInv(w, run[0]);
      RunKeepsInv(Next(w, run[0]), run[1..]);
    }
  }

  /** In every run, whatever fails, no item has both a balance write and a
      failed mark, and no worker ever takes the marking branch. */
  lemma NeverDebitedAndFailed(w: World, run: seq<Event>, i: nat, j: nat, k: nat)
    requires Quiet(w) && Along(w, run, ClientAnswers)
    ensures IsRun(w, run)
    ensures var log := Final(w, run).log;
            i < |log| && j < |log| && log[i].Wrote? && log[j].MarkedFailed? ==> log[i].item != log[j].item
    ensures var v := Final(w, run); k in v.workers ==> !Marking(v.workers[k].pc)
  {
    RunKeepsInv(w, run);
    var v := Final(w, run);
    if i < |v.log| && j < |v.log| && v.log[i].Wrote? && v.log[j].MarkedFailed? {
      assert MarkedFailed(v.log[j].item) in v.log;
      assert Doomed(v, v.log[j].item);
      assert Dispatched(v, v.log[i].item);
    }
  }

  // ---- What is marked ----

  /** The poller may take a withdrawal of its page up to mark it exactly if its
      paging loop would fail the row: see the module of that loop. */
  lemma TakenUpExactlyIfAbandoned(w: World, item: Item, id: string, chain: string)
    requires w.job.Idle? && item in w.page && item in w.rows && !Paging.IsPDMChain(chain)
    ensures var row := Paging.Row(id, chain, w.rows[item].createdAt, w.page[item]);
            Enabled(w, Mark(item)) <==> WithdrawalPoller.Abandoned(row, w.now, w.interval)
  {
  }

  /** Step i of the run read the item as pending and without a hash. */
  ghost predicate ReadHashless(w: World, run: seq<Event>, i: nat, item: Item)
    requires IsRun(w, run)
  {
    && i < |run| && IsRun(w, run[..i])
    && run[i].LoadPage? && item in run[i].page && run[i].page[item] == ""
    && var v := Final(w, run[..i]); item in v.rows && v.rows[item].status == Pending && v.rows[item].hash == ""
  }

  lemma CallDoomsNothing(w: World, k: nat, outcome: Outcome, item: Item)
    requires Inv(w) && CanCall(w, k, outcome) && ClientAnswers(w, Call(k, outcome))
    requires Doomed(Next(w, Call(k, outcome)), item)
    ensures Doomed(w, item)
  {
    CallDoesNotMark(w, k, outcome);
    ApplyLog(w, w.workers[k].item, EffectOf(w, k, outcome).change);
    CallOnBalance(w, k, outcome);
  }

  lemma WorkDoomsNothing(w: World, ok: bool, item: Item)
    requires Enabled(w, Work(ok)) && Doomed(Next(w, Work(ok)), item)
    ensures Doomed(w, item)
  {
    ApplyLog(w, w.job.item, JobChange(w.job));
    ApplyKeepsThreads(w, w.job.item, JobChange(w.job));
  }

  lemma RowStepDoomsNothing(w: World, e: Event, item: Item)
    requires Enabled(w, e) && RowStep(e) && Doomed(Next(w, e), item)
    ensures Doomed(w, item)
  {
    ApplyLog(w, e.item, RowChange(w, e));
    ApplyKeepsThreads(w, e.item, RowChange(w, e));
  }

  lemma OnlyReadingDooms(w: World, e: Event, item: Item)
    requires Inv(w) && Enabled(w, e) && ClientAnswers(w, e) && Doomed(Next(w, e), item) && !Doomed(w, item)
    ensures e.LoadPage? && item in e.page && e.page[item] == ""
  {
    if e.Call? {
      CallDoomsNothing(w, e.worker, e.outcome, item);
    } else if e.Work? {
      WorkDoomsNothing(w, e.ok, item);
    } else if RowStep(e) {
      RowStepDoomsNothing(w, e, item);
    }
  }

  lemma FirstStep(w: World, run: seq<Event>)
    requires Along(w, run, ClientAnswers) && IsRun(w, run) && run != []
    ensures Enabled(w, run[0]) && ClientAnswers(w, run[0])
    ensures Along(Next(w, run[0]), run[1..], ClientAnswers) && IsRun(Next(w, run[0]), run[1..])
    ensures Final(w, run) == Final(Next(w, run[0]), run[1..])
  {
  }

  /** What step i + 1 of the run reads is what step i of the rest of it reads. */
  lemma ReadLater(w: World, run: seq<Event>, i: nat, item: Item)
    requires IsRun(w, run) && run != [] && ReadHashless(Next(w, run[0]), run[1..], i, item)
    ensures ReadHashless(w, run, i + 1, item)
  {
    assert run[..i + 1][1..] == run[1..][..i];
  }

  lemma {:induction false} DoomedWasRead(w: World, run: seq<Event>, item: Item) returns (i: nat)
    requires Inv(w) && Along(w, run, ClientAnswers) && IsRun(w, run)
    requires !Doomed(w, item) && Doomed(Final(w, run), item)
    ensures ReadHashless(w, run, i, item)
    decreases |run|
  {
    FirstStep(w, run);
    if Doomed(Next(w, run[0]), item) {
      OnlyReadingDooms(w, run[0], item);
      i := 0;
    } else {
      StepKeepsInv(w, run[0]);
      i := DoomedWasRead(Next(w, run[0]), run[1..], item);
      ReadLater(w, run, i, item);
      i := i + 1;
    }
  }

  /** Step j of the run takes the item up to mark it, two polling intervals or
      more after it was created. */
  ghost predicate TakenUpOld(w: World, run: seq<Event>, j: nat, item: Item)
    requires IsRun(w, run)
  {
    && j < |run| && IsRun(w, run[..j]) && run[j] == Mark(item)
    && var v := Final(w, run[..j]);
       item in v.page && v.page[item] == "" && item in v.rows && v.now - v.rows[item].createdAt >= 2 * v.interval
  }

  predicate TakenUp(w: World, item: Item) {
    (!w.job.Idle? && w.job.item == item) || MarkedFailed(item) in w.log
  }

  lemma CallTakesUpNothing(w: World, k: nat, outcome: Outcome, item: Item)
    requires Inv(w) && CanCall(w, k, outcome) && ClientAnswers(w, Call(k, outcome))
    requires TakenUp(Next(w, Call(k, outcome)), item)
    ensures TakenUp(w, item)
  {
    CallDoesNotMark(w, k, outcome);
    ApplyLog(w, w.workers[k].item, EffectOf(w, k, outcome).change);
    ApplyKeepsThreads(w, w.workers[k].item, EffectOf(w, k, outcome).change);
    CallOnBalance(w, k, outcome);
  }

  lemma OnlyMarkingTakesUp(w: World, e: Event, item: Item)
    requires Inv(w) && Enabled(w, e) && ClientAnswers(w, e) && TakenUp(Next(w, e), item) && !TakenUp(w, item)
    ensures e == Mark(item)
  {
    if e.Call? {
      CallTakesUpNothing(w, e.worker, e.outcome, item);
    } else if e.Work? {
      ApplyLog(w, w.job.item, JobChange(w.job));
      ApplyKeepsThreads(w, w.job.item, JobChange(w.job));
    } else if RowStep(e) {
      ApplyLog(w, e.item, RowChange(w, e));
      ApplyKeepsThreads(w, e.item, RowChange(w, e));
    }
  }

  lemma TakenUpLater(w: World, run: seq<Event>, j: nat, item: Item)
    requires IsRun(w, run) && run != [] && TakenUpOld(Next(w, run[0]), run[1..], j, item)
    ensures TakenUpOld(w, run, j + 1, item)
  {
    assert run[..j + 1][1..] == run[1..][..j];
  }

  lemma {:induction false} TakenUpWasOld(w: World, run: seq<Event>, item: Item) returns (j: nat)
    requires Inv(w) && Along(w, run, ClientAnswers) && IsRun(w, run)
    requires !TakenUp(w, item) && TakenUp(Final(w, run), item)
    ensures TakenUpOld(w, run, j, item)
    decreases |run|
  {
    FirstStep(w, run);
    if TakenUp(Next(w, run[0]), item) {
      OnlyMarkingTakesUp(w, run[0], item);
      j := 0;
    } else {
      StepKeepsInv(w, run[0]);
      j := TakenUpWasOld(Next(w, run[0]), run[1..], item);
      TakenUpLater(w, run, j, item);
      j := j + 1;
    }
  }

  lemma {:induction false} Prefix(w: World, run: seq<Event>, n: nat)
    requires Along(w, run, ClientAnswers) && IsRun(w, run) && n <= |run|
    ensures Along(w, run[..n], ClientAnswers) && IsRun(w, run[..n])
    decreases n
  {
    if n > 0 {
      FirstStep(w, run);
      Prefix(Next(w, run[0]), run[1..], n - 1);
      assert run[..n][1..] == run[1..][..n - 1];
    }
  }

  lemma ReadBefore(w: World, run: seq<Event>, n: nat, i: nat, item: Item)
    requires IsRun(w, run) && n <= |run| && IsRun(w, run[..n]) && ReadHashless(w, run[..n], i, item)
    ensures ReadHashless(w, run, i, item) && i < n
  {
    assert run[..n][..i] == run[..i] && run[..n][i] == run[i];
  }

  /** In every run, whatever fails, an item marked failed was read before, by
      the poller of that run, as a pending withdrawal without a hash, and was
      then taken up two polling intervals or more after it was created. */
  lemma OnlyAbandonedAreMarked(w: World, run: seq<Event>, item: Item)
    requires Quiet(w) && Along(w, run, ClientAnswers)
    ensures IsRun(w, run)
    ensures MarkedFailed(item) in Final(w, run).log ==>
              item.Withdrawal? && exists i, j :: i < j && ReadHashless(w, run, i, item) && TakenUpOld(w, run, j, item)
  {
    RunKeepsInv(w, run);
    if MarkedFailed(item) in Final(w, run).log {
      assert Doomed(Final(w, run), item);
      var j := TakenUpWasOld(w, run, item);
      Prefix(w, run, j);
      var i := DoomedWasRead(w, run[..j], item);
      ReadBefore(w, run, j, i, item);
    }
  }
}
