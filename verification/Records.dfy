/** Every balance write has a transaction record of its own behind it. */
module Records {
  import opened Exclusion
  import opened Ledger
  import opened Paths
  import opened PaymentMatch
  import opened Settlement
  import opened Steps

  /** The record behind write i: earlier, for the same item and cents. */
  ghost predicate Backed(log: seq<Entry>, i: nat)
    requires i < |log| && log[i].Wrote?
  {
    && log[i].record < i && log[log[i].record].Recorded?
    && log[log[i].record].item == log[i].item && log[log[i].record].cents == log[i].cents
  }

  ghost predicate WritesAreBacked(log: seq<Entry>) {
    && (forall i :: 0 <= i < |log| && log[i].Wrote? ==> Backed(log, i))
    && (forall i, j :: 0 <= i < j < |log| && log[i].Wrote? && log[j].Wrote? ==> log[i].record != log[j].record)
  }

  predicate HoldsRecord(pc: Pc) {
    pc.Reading? || pc.Writing?
  }

  /** The record a worker has made for the write it is about to make. */
  ghost predicate HasRecord(log: seq<Entry>, worker: Worker) {
    HoldsRecord(worker.pc) ==>
      && worker.pc.record < |log| && log[worker.pc.record].Recorded?
      && log[worker.pc.record].item == worker.item && log[worker.pc.record].cents == worker.pc.cents
      && forall i :: 0 <= i < |log| && log[i].Wrote? ==> log[i].record != worker.pc.record
  }

  predicate RecordsApart(a: Worker, b: Worker) {
    HoldsRecord(a.pc) && HoldsRecord(b.pc) ==> a.pc.record != b.pc.record
  }

  ghost predicate WorkerRecords(w: World) {
    && (forall k :: k in w.workers ==> HasRecord(w.log, w.workers[k]))
    && (forall a, b :: a in w.workers && b in w.workers && a != b ==> RecordsApart(w.workers[a], w.workers[b]))
  }

  /** Items completed since, and those about to be, have a balance write. */
  ghost predicate CompletedAreWritten(w: World, before: set<Item>) {
    && (forall i :: i in w.rows && w.rows[i].status == Completed && i !in before ==> HasWrite(w.log, i))
    && (forall k :: k in w.workers && Late(w.workers[k].pc) ==> HasWrite(w.log, w.workers[k].item))
  }

  /** A record is taken when it is made, kept by the read, given up by the write. */
  lemma CallOnRecord(w: World, k: nat, outcome: Outcome)
    requires CanCall(w, k, outcome)
    ensures var worker, effect := w.workers[k], EffectOf(w, k, outcome);
            && (HoldsRecord(effect.pc) ==>
                  || (effect.change.Create? && effect.change.cents == effect.pc.cents && effect.pc.record == |w.log|)
                  || (effect.change.Nothing? && worker.pc.Reading?
                      && effect.pc.record == worker.pc.record && effect.pc.cents == worker.pc.cents))
            && (effect.change.Write? ==>
                  worker.pc.Writing? && effect.change.entry.Wrote? && effect.change.entry.item == worker.item
                  && effect.change.entry.cents == worker.pc.cents && effect.change.entry.record == worker.pc.record)
  {
  }

  lemma CallKeepsBacked(w: World, k: nat, outcome: Outcome)
    requires WritesAreBacked(w.log) && WorkerRecords(w) && CanCall(w, k, outcome)
    ensures WritesAreBacked(AfterCall(w, k, EffectOf(w, k, outcome)).log)
  {
    CallOnRecord(w, k, outcome);
    ApplyLog(w, w.workers[k].item, EffectOf(w, k, outcome).change);
    assert HasRecord(w.log, w.workers[k]);
  }

  lemma CallKeepsItsRecord(w: World, k: nat, outcome: Outcome)
    requires WritesAreBacked(w.log) && WorkerRecords(w) && CanCall(w, k, outcome)
    ensures var v := AfterCall(w, k, EffectOf(w, k, outcome)); HasRecord(v.log, v.workers[k])
  {
    CallOnRecord(w, k, outcome);
    ApplyLog(w, w.workers[k].item, EffectOf(w, k, outcome).change);
    assert HasRecord(w.log, w.workers[k]);
    assert forall i :: 0 <= i < |w.log| && w.log[i].Wrote? ==> Backed(w.log, i);
  }

  lemma CallKeepsOthersRecord(w: World, k: nat, outcome: Outcome, n: nat)
    requires WorkerRecords(w) && CanCall(w, k, outcome) && n in w.workers && n != k
    ensures var v := AfterCall(w, k, EffectOf(w, k, outcome));
            HasRecord(v.log, v.workers[n]) && RecordsApart(v.workers[k], v.workers[n])
  {
    CallOnRecord(w, k, outcome);
    ApplyLog(w, w.workers[k].item, EffectOf(w, k, outcome).change);
    assert HasRecord(w.log, w.workers[n]) && RecordsApart(w.workers[k], w.workers[n]);
  }

  lemma CallKeepsWorkerRecords(w: World, k: nat, outcome: Outcome)
    requires WritesAreBacked(w.log) && WorkerRecords(w) && CanCall(w, k, outcome)
    ensures WorkerRecords(AfterCall(w, k, EffectOf(w, k, outcome)))
  {
    var v := AfterCall(w, k, EffectOf(w, k, outcome));
    assert v.workers == w.workers[k := v.workers[k]];
    CallKeepsItsRecord(w, k, outcome);
    forall n | n in w.workers && n != k
      ensures HasRecord(v.log, v.workers[n]) && RecordsApart(v.workers[k], v.workers[n]) && v.workers[n] == w.workers[n]
    {
      CallKeepsOthersRecord(w, k, outcome, n);
    }
  }

  lemma CallKeepsCompletedWritten(w: World, k: nat, outcome: Outcome, before: set<Item>)
    requires CompletedAreWritten(w, before) && CanCall(w, k, outcome)
    ensures CompletedAreWritten(AfterCall(w, k, EffectOf(w, k, outcome)), before)
  {
    var worker, effect := w.workers[k], EffectOf(w, k, outcome);
    var item := worker.item;
    ApplyKeepsRows(w, item, effect.change);
    ApplyLog(w, item, effect.change);
    if effect.change.Write? { HasWriteGrows(w.log, effect.change.entry); }
    if effect.change.Create? { HasWriteGrows(w.log, Recorded(item, effect.change.cents, effect.change.payment)); }
    if effect.change.FailRow? { HasWriteGrows(w.log, MarkedFailed(item)); }
    assert Late(effect.pc) ==>
      Late(worker.pc) || (effect.change.Write? && effect.change.entry.Wrote? && effect.change.entry.item == item);
    assert effect.change.SetStatus? && effect.change.status == Completed ==> Late(worker.pc);
  }

  ghost predicate Inv(w: World, before: set<Item>) {
    WritesAreBacked(w.log) && WorkerRecords(w) && CompletedAreWritten(w, before)
  }

  /** A change to one item by a thread that is not one of the workers. */
  lemma RowChangeKeepsInv(w: World, item: Item, change: Change, before: set<Item>)
    requires Inv(w, before) && item in w.rows && !change.Write? && !change.Create?
    requires change.SetStatus? && change.status == Completed ==> w.rows[item].status == Completed
    ensures Inv(Apply(w, item, change), before)
  {
    ApplyKeepsRows(w, item, change);
    ApplyLog(w, item, change);
    if change.FailRow? { HasWriteGrows(w.log, MarkedFailed(item)); }
  }

  /** A step of the poller on its own state leaves what this is about alone. */
  lemma PollerStepKeepsInv(w: World, e: Event, before: set<Item>)
    requires Inv(w, before) && Enabled(w, e)
    requires e.Tick? || e.LoadPage? || e.Pass? || e.Collect? || e.Mark? || (e.Work? && !e.ok)
    ensures Inv(Next(w, e), before)
  {
    var v := Next(w, e);
    assert v.log == w.log && v.rows == w.rows && v.workers == w.workers;
  }

  lemma StartKeepsInv(w: World, e: Event, before: set<Item>)
    requires Inv(w, before) && Enabled(w, e) && (e.StartSession? || e.StartWithdrawal?)
    ensures Inv(Next(w, e), before)
  {
  }

  lemma OpeningKeepsInv(w: World, e: Event, before: set<Item>)
    requires Inv(w, before) && Enabled(w, e) && (e.OpenSession? || e.OpenWithdrawal?)
    ensures Inv(Next(w, e), before)
  {
  }

  lemma CallKeepsInv(w: World, k: nat, outcome: Outcome, before: set<Item>)
    requires Inv(w, before) && CanCall(w, k, outcome)
    ensures Inv(Next(w, Call(k, outcome)), before)
  {
    CallKeepsBacked(w, k, outcome);
    CallKeepsWorkerRecords(w, k, outcome);
    CallKeepsCompletedWritten(w, k, outcome, before);
  }

  lemma StepKeepsInv(w: World, e: Event, before: set<Item>)
    requires Known(w) && Inv(w, before) && Enabled(w, e)
    ensures Inv(Next(w, e), before)
  {
    if e.Call? {
      CallKeepsInv(w, e.worker, e.outcome, before);
    } else if e.OpenSession? || e.OpenWithdrawal? {
      OpeningKeepsInv(w, e, before);
    } else if RowStep(e) {
      RowChangeKeepsInv(w, e.item, RowChange(w, e), before);
    } else if e.Work? && e.ok {
      RowChangeKeepsInv(w, w.job.item, JobChange(w.job), before);
    } else if e.StartSession? || e.StartWithdrawal? {
      StartKeepsInv(w, e, before);
    } else {
      PollerStepKeepsInv(w, e, before);
    }
  }

  lemma {:induction false} RunKeepsInv(w: World, run: seq<Event>, before: set<Item>)
    requires Known(w) && Inv(w, before) && IsRun(w, run)
    ensures Inv(Final(w, run), before)
    decreases |run|
  {
    if run != [] {
      StepKeepsKnown(w, run[0]);
      StepKeepsInv(w, run[0], before);
      RunKeepsInv(Next(w, run[0]), run[1..], before);
    }
  }

  ghost predicate RecordedOnce(log: seq<Entry>, item: Item) {
    forall i, j :: 0 <= i < j < |log| && log[i].Recorded? && log[j].Recorded? && log[i].item == item ==>
      log[j].item != item
  }

  /** In every run, whatever fails: each balance write is backed by an earlier
      record of its own for the same item and cents, and every item completed
      during the run has such a write. */
  lemma EveryWriteHasItsRecord(w: World, run: seq<Event>, item: Item)
    requires Quiet(w) && IsRun(w, run)
    ensures WritesAreBacked(Final(w, run).log)
    ensures var v := Final(w, run);
            && item in v.rows && v.rows[item].status == Completed
            && !(item in w.rows && w.rows[item].status == Completed) ==>
              HasWrite(v.log, item)
  {
    var before := set i | i in w.rows && w.rows[i].status == Completed;
    RunKeepsInv(w, run, before);
  }

  /** So if the store keeps at most one record of an item, the item's balance
      write happens at most once, whatever fails. */
  lemma UniqueRecordsMeanUniqueWrites(w: World, run: seq<Event>, item: Item)
    requires Quiet(w) && IsRun(w, run) && RecordedOnce(Final(w, run).log, item)
    ensures var log := Final(w, run).log;
            forall i, j :: 0 <= i < j < |log| && log[i].Wrote? && log[j].Wrote? && log[i].item == item ==>
              log[j].item != item
  {
    EveryWriteHasItsRecord(w, run, item);
    var log := Final(w, run).log;
    forall i, j | 0 <= i < j < |log| && log[i].Wrote? && log[j].Wrote? && log[i].item == item
      ensures log[j].item != item
    {
      assert Backed(log, i) && Backed(log, j);
      var a, b := log[i].record, log[j].record;
      assert a < b || b < a;
    }
  }

  // ---- One payment, one credit? ----

  /** The transfer a balance write was made for. */
  ghost function PaymentOf(log: seq<Entry>, i: nat): Payment
    requires i < |log| && log[i].Wrote? && Backed(log, i)
  {
    log[log[i].record].payment
  }

  /** The record's transfer settles its session. */
  predicate PaidFor(w: World, item: Item, payment: Payment) {
    item.Session? ==> item in w.rows && Pays(payment, w.rows[item].terms)
  }

  ghost predicate RecordsArePaid(w: World) {
    && (forall k :: k in w.workers && w.workers[k].pc.Recording? ==>
          PaidFor(w, w.workers[k].item, w.workers[k].pc.payment))
    && (forall i :: 0 <= i < |w.log| && w.log[i].Recorded? ==> PaidFor(w, w.log[i].item, w.log[i].payment))
  }

  lemma StepKeepsPaidFor(w: World, e: Event, item: Item, payment: Payment)
    requires Enabled(w, e) && PaidFor(w, item, payment)
    ensures PaidFor(Next(w, e), item, payment)
  {
    if item.Session? { StepKeepsTerms(w, e, item); }
  }

  lemma CallIsPaid(w: World, k: nat, outcome: Outcome)
    requires CanCall(w, k, outcome)
    ensures var worker, effect := w.workers[k], EffectOf(w, k, outcome);
            && (effect.pc.Recording? ==> PaidFor(w, worker.item, effect.pc.payment))
            && (effect.change.Create? ==> worker.pc.Recording? && effect.change.payment == worker.pc.payment)
            && (effect.change.Write? ==> effect.change.entry.Wrote?)
  {
  }

  lemma StepPaysWorker(w: World, e: Event, k: nat)
    requires RecordsArePaid(w) && Enabled(w, e) && k in Next(w, e).workers && Next(w, e).workers[k].pc.Recording?
    ensures PaidFor(Next(w, e), Next(w, e).workers[k].item, Next(w, e).workers[k].pc.payment)
  {
    if e.Call? && e.worker == k { CallIsPaid(w, k, e.outcome); } else { StepMovesOneWorker(w, e, k); }
    StepKeepsPaidFor(w, e, Next(w, e).workers[k].item, Next(w, e).workers[k].pc.payment);
  }

  /** A record that a step makes is a worker's, of what it carries. */
  lemma StepRecords(w: World, e: Event)
    requires Enabled(w, e)
    ensures var v := Next(w, e);
            |v.log| == |w.log| + 1 && v.log[|w.log|].Recorded? ==>
              && e.Call? && e.worker in w.workers && w.workers[e.worker].pc.Recording?
              && v.log[|w.log|].item == w.workers[e.worker].item
              && v.log[|w.log|].payment == w.workers[e.worker].pc.payment
  {
    if e.Call? {
      CallIsPaid(w, e.worker, e.outcome);
      ApplyLog(w, w.workers[e.worker].item, EffectOf(w, e.worker, e.outcome).change);
    } else if e.Work? {
      ApplyLog(w, w.job.item, JobChange(w.job));
    }
  }

  lemma StepPaysEntry(w: World, e: Event, i: nat)
    requires RecordsArePaid(w) && Enabled(w, e) && i < |Next(w, e).log| && Next(w, e).log[i].Recorded?
    ensures PaidFor(Next(w, e), Next(w, e).log[i].item, Next(w, e).log[i].payment)
  {
    var v := Next(w, e);
    StepGrowsLog(w, e);
    StepRecords(w, e);
    if i < |w.log| {
      assert v.log[i] == v.log[..|w.log|][i] == w.log[i];
    }
    StepKeepsPaidFor(w, e, v.log[i].item, v.log[i].payment);
  }

  lemma {:induction false} RunKeepsPaid(w: World, run: seq<Event>)
    requires RecordsArePaid(w) && IsRun(w, run)
    ensures RecordsArePaid(Final(w, run))
    decreases |run|
  {
    if run != [] {
      var v := Next(w, run[0]);
      forall k | k in v.workers && v.workers[k].pc.Recording?
        ensures PaidFor(v, v.workers[k].item, v.workers[k].pc.payment)
      {
        StepPaysWorker(w, run[0], k);
      }
      forall i | 0 <= i < |v.log| && v.log[i].Recorded? ensures PaidFor(v, v.log[i].item, v.log[i].payment) {
        StepPaysEntry(w, run[0], i);
      }
      RunKeepsPaid(v, run[1..]);
    }
  }

  /** One transfer is behind balance writes of both sessions. */
  ghost predicate CreditedByOne(log: seq<Entry>, a: Item, b: Item) {
    WritesAreBacked(log) && exists i, j ::
      && 0 <= i < |log| && log[i].Wrote? && log[i].item == a
      && 0 <= j < |log| && log[j].Wrote? && log[j].item == b
      && PaymentOf(log, i) == PaymentOf(log, j)
  }

  /** In every run, whatever fails, two sessions credited for one transfer wait
      for the same kind of transfer to the same wallet. So with a wallet for each
      session, each transfer credits at most one. */
  lemma OneTransferCreditsOnlyAlike(w: World, run: seq<Event>, a: Item, b: Item)
    requires Quiet(w) && IsRun(w, run) && a.Session? && b.Session? && CreditedByOne(Final(w, run).log, a, b)
    ensures a in Final(w, run).rows && b in Final(w, run).rows
    ensures Alike(Final(w, run).rows[a].terms, Final(w, run).rows[b].terms)
  {
    RunKeepsPaid(w, run);
    var v := Final(w, run);
    var i, j :|
      && 0 <= i < |v.log| && v.log[i].Wrote? && v.log[i].item == a
      && 0 <= j < |v.log| && v.log[j].Wrote? && v.log[j].item == b
      && PaymentOf(v.log, i) == PaymentOf(v.log, j);
    var payment := PaymentOf(v.log, i);
    assert PaidFor(v, a, payment) && PaidFor(v, b, payment);
    OneTransferPaysBothExactlyIfAlike(v.rows[a].terms, v.rows[b].terms);
  }

  /** Two pending sessions that are alike are both credited for one transfer, in
      a run in which nothing fails. */
  lemma AlikeAreCreditedByOne(w: World, a: Item, b: Item) returns (run: seq<Event>, v: World)
    requires Quiet(w) && a in w.rows && b in w.rows && a.Session? && b.Session? && a != b
    requires w.rows[a].status == w.rows[b].status == Pending && Alike(w.rows[a].terms, w.rows[b].terms)
    requires w.rows[a].user in w.balances && w.rows[b].user in w.balances
    requires forall u :: u in w.balances ==> w.balances[u].cents >= 0 && w.balances[u].units >= 0.0
    ensures Leads(w, run, v, NothingFails) && CreditedByOne(v.log, a, b)
  {
    var payment := CommonPayment(w.rows[a].terms, w.rows[b].terms);
    CommonPaymentPaysBoth(w.rows[a].terms, w.rows[b].terms);
    var first, mid := PendingSessionIsWritten(w, 0, a, payment, 1.0);
    var second;
    second, v := PendingSessionIsWritten(mid, 1, b, payment, 1.0);
    run := first + second;
    Join(w, first, mid, second, v, NothingFails);
    TwoCredits(mid.log, v.log, a, b, payment);
  }

  lemma TwoCredits(first: seq<Entry>, log: seq<Entry>, a: Item, b: Item, payment: Payment)
    requires |first| == 2 && |log| == 4 && log[..2] == first
    requires first[0].Recorded? && first[0].item == a && first[0].payment == payment
    requires first[1].Wrote? && first[1].item == a && first[1].record == 0 && first[1].cents == first[0].cents
    requires log[2].Recorded? && log[2].item == b && log[2].payment == payment
    requires log[3].Wrote? && log[3].item == b && log[3].record == 2 && log[3].cents == log[2].cents
    ensures CreditedByOne(log, a, b)
  {
    assert log[0] == first[0] && log[1] == first[1];
    assert PaymentOf(log, 1) == PaymentOf(log, 3);
  }

  /** Exactly when one transfer may credit two pending sessions: some run from
      here does so if and only if they wait for the same kind of transfer to the
      same wallet. A failing call is not needed, and nothing in the store stands
      in the way. */
  lemma OneTransferCreditsTwoExactlyIfAlike(w: World, a: Item, b: Item)
    requires Quiet(w) && a in w.rows && b in w.rows && a.Session? && b.Session? && a != b
    requires w.rows[a].status == w.rows[b].status == Pending
    requires w.rows[a].user in w.balances && w.rows[b].user in w.balances
    requires forall u :: u in w.balances ==> w.balances[u].cents >= 0 && w.balances[u].units >= 0.0
    ensures (exists run :: IsRun(w, run) && CreditedByOne(Final(w, run).log, a, b))
            <==> Alike(w.rows[a].terms, w.rows[b].terms)
    ensures (exists run :: Along(w, run, NothingFails) && IsRun(w, run) && CreditedByOne(Final(w, run).log, a, b))
            <==> Alike(w.rows[a].terms, w.rows[b].terms)
  {
    if Alike(w.rows[a].terms, w.rows[b].terms) {
      var run, v := AlikeAreCreditedByOne(w, a, b);
    }
    forall run | IsRun(w, run) && CreditedByOne(Final(w, run).log, a, b)
      ensures Alike(w.rows[a].terms, w.rows[b].terms)
    {
      OneTransferCreditsOnlyAlike(w, run, a, b);
      RunKeepsTerms(w, run, a);
      RunKeepsTerms(w, run, b);
    }
  }

  // ---- With a unique signature ----

  /** The store refuses a second record with a signature, as a unique constraint
      on it would make it do. */
  ghost predicate RefusesKnownSignature(w: World, e: Event) {
    e.Call? && CanCall(w, e.worker, e.outcome) && EffectOf(w, e.worker, e.outcome).change.Create? ==>
      forall i :: 0 <= i < |w.log| && w.log[i].Recorded? ==>
        w.log[i].payment.tx.signature != EffectOf(w, e.worker, e.outcome).change.payment.tx.signature
  }

  ghost predicate SignedOnce(log: seq<Entry>) {
    forall i, j :: 0 <= i < j < |log| && log[i].Recorded? && log[j].Recorded? ==>
      log[i].payment.tx.signature != log[j].payment.tx.signature
  }

  lemma StepSignsOnce(w: World, e: Event)
    requires SignedOnce(w.log) && Enabled(w, e) && RefusesKnownSignature(w, e)
    ensures SignedOnce(Next(w, e).log)
  {
    StepGrowsLog(w, e);
    StepRecords(w, e);
    if e.Call? && EffectOf(w, e.worker, e.outcome).change.Create? {
      ApplyLog(w, w.workers[e.worker].item, EffectOf(w, e.worker, e.outcome).change);
    } else {
      RecordsNothing(w, e);
    }
    OneMoreSignsOnce(w.log, Next(w, e).log);
  }

  lemma RecordsNothing(w: World, e: Event)
    requires Enabled(w, e) && !(e.Call? && EffectOf(w, e.worker, e.outcome).change.Create?)
    ensures var v := Next(w, e); |v.log| == |w.log| + 1 ==> !v.log[|w.log|].Recorded?
  {
    if e.Call? {
      CallIsPaid(w, e.worker, e.outcome);
      ApplyLog(w, w.workers[e.worker].item, EffectOf(w, e.worker, e.outcome).change);
    } else if e.Work? {
      ApplyLog(w, w.job.item, JobChange(w.job));
    }
  }

  lemma OneMoreSignsOnce(log: seq<Entry>, log': seq<Entry>)
    requires SignedOnce(log) && (log' == log || (|log'| == |log| + 1 && log'[..|log|] == log))
    requires |log'| == |log| + 1 && log'[|log|].Recorded? ==>
               forall i :: 0 <= i < |log| && log[i].Recorded? ==>
                 log[i].payment.tx.signature != log'[|log|].payment.tx.signature
    ensures SignedOnce(log')
  {
    forall i | 0 <= i < |log| ensures log'[i] == log[i] {
      assert log'[..|log|][i] == log'[i] || log' == log;
    }
  }

  lemma {:induction false} RunSignsOnce(w: World, run: seq<Event>)
    requires SignedOnce(w.log) && Along(w, run, RefusesKnownSignature)
    ensures IsRun(w, run) && SignedOnce(Final(w, run).log)
    decreases |run|
  {
    if run != [] {
      StepSignsOnce(w, run[0]);
      RunSignsOnce(Next(w, run[0]), run[1..]);
    }
  }

  /** Then each transaction is behind at most one balance write, of any item,
      whatever fails: also of sessions that are alike. */
  lemma UniqueSignaturesMeanOneCredit(w: World, run: seq<Event>, i: nat, j: nat)
    requires Quiet(w) && Along(w, run, RefusesKnownSignature)
    ensures IsRun(w, run) && WritesAreBacked(Final(w, run).log)
    ensures var log := Final(w, run).log;
            i < j < |log| && log[i].Wrote? && log[j].Wrote? ==>
              PaymentOf(log, i).tx.signature != PaymentOf(log, j).tx.signature
  {
    RunSignsOnce(w, run);
    EveryWriteHasItsRecord(w, run, Session(""));
    var log := Final(w, run).log;
    if i < j < |log| && log[i].Wrote? && log[j].Wrote? {
      assert Backed(log, i) && Backed(log, j);
      var a, b := log[i].record, log[j].record;
      assert a < b || b < a;
    }
  }
}
