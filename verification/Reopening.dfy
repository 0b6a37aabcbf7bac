/** Exactly when an item can be settled against the balance, for the first time
    or again, if no call after a balance write fails from now on. */
module Reopening {
  import opened Currency
  import opened Exclusion
  import Helius
  import opened Ledger
  import opened Paths
  import opened PaymentMatch
  import opened Settlement
  import opened Steps

  /** A worker that may still write, or put the item back. */
  predicate MayReturn(pc: Pc) {
    Settling(pc) || pc.Resetting?
  }

  ghost predicate Open(v: World, item: Item) {
    && item in v.rows
    && (Claimable(v.rows[item].status)
        || exists k :: k in v.workers && v.workers[k].item == item && MayReturn(v.workers[k].pc))
  }

  // ---- What is not open stays so ----

  /** A change to any item by a thread that is not one of the workers. */
  lemma RowChangeKeepsClosed(w: World, i: Item, change: Change, item: Item)
    requires item in w.rows && !Open(w, item) && i in w.rows && !change.Write?
    requires change.SetStatus? && Claimable(change.status) ==> Claimable(w.rows[i].status)
    ensures item in Apply(w, i, change).rows && !Open(Apply(w, i, change), item)
    ensures Writes(Apply(w, i, change).log, item) == Writes(w.log, item)
  {
    ApplyKeepsRows(w, i, change);
    ApplyLog(w, i, change);
    ApplyKeepsThreads(w, i, change);
    RowChangeIsNoWrite(w, i, change, item);
  }

  lemma RowChangeIsNoWrite(w: World, i: Item, change: Change, item: Item)
    requires i in w.rows && !change.Write?
    ensures Writes(Apply(w, i, change).log, item) == Writes(w.log, item)
  {
    if change.Create? { WritesOfOneMore(w.log, Recorded(i, change.cents, change.payment), item); }
    if change.FailRow? { WritesOfOneMore(w.log, MarkedFailed(i), item); }
  }

  /** A call for an item that is not open. */
  lemma CallLeavesClosed(w: World, k: nat, outcome: Outcome)
    requires CanCall(w, k, outcome) && !Open(w, w.workers[k].item) && NoLateFailure(w, Call(k, outcome))
    ensures var effect := EffectOf(w, k, outcome);
            && !MayReturn(effect.pc) && !effect.change.Write?
            && (effect.change.SetStatus? ==> !Claimable(effect.change.status))
  {
    assert !MayReturn(w.workers[k].pc);
  }

  lemma CallKeepsClosed(w: World, k: nat, outcome: Outcome, item: Item)
    requires item in w.rows && !Open(w, item) && CanCall(w, k, outcome) && NoLateFailure(w, Call(k, outcome))
    ensures var v := Next(w, Call(k, outcome));
            item in v.rows && !Open(v, item) && Writes(v.log, item) == Writes(w.log, item)
  {
    if w.workers[k].item == item {
      CallOnClosed(w, k, outcome);
    } else {
      CallOnOther(w, k, outcome, item);
    }
  }

  lemma CallOnClosed(w: World, k: nat, outcome: Outcome)
    requires CanCall(w, k, outcome) && !Open(w, w.workers[k].item) && NoLateFailure(w, Call(k, outcome))
    ensures var v, item := Next(w, Call(k, outcome)), w.workers[k].item;
            item in v.rows && !Open(v, item) && Writes(v.log, item) == Writes(w.log, item)
  {
    var item, effect := w.workers[k].item, EffectOf(w, k, outcome);
    CallLeavesClosed(w, k, outcome);
    RowChangeKeepsClosed(w, item, effect.change, item);
    MovedStaysClosed(Apply(w, item, effect.change), k, effect.pc, item);
  }

  lemma MovedStaysClosed(v: World, k: nat, pc: Pc, item: Item)
    requires k in v.workers && item in v.rows && !Open(v, item) && (v.workers[k].item == item ==> !MayReturn(pc))
    ensures !Open(Moved(v, k, pc), item)
  {
    assert forall n :: n in v.workers && v.workers[n].item == item ==> !MayReturn(v.workers[n].pc);
  }

  lemma CallOnOther(w: World, k: nat, outcome: Outcome, item: Item)
    requires item in w.rows && !Open(w, item) && CanCall(w, k, outcome) && w.workers[k].item != item
    ensures var v := Next(w, Call(k, outcome));
            item in v.rows && !Open(v, item) && Writes(v.log, item) == Writes(w.log, item)
  {
    var i, effect := w.workers[k].item, EffectOf(w, k, outcome);
    var u := Apply(w, i, effect.change);
    ApplyKeepsRows(w, i, effect.change);
    ApplyLog(w, i, effect.change);
    ApplyKeepsThreads(w, i, effect.change);
    CallOnBalance(w, k, outcome);
    if effect.change.Write? {
      WritesOfOneMore(w.log, effect.change.entry, item);
    } else {
      RowChangeIsNoWrite(w, i, effect.change, item);
    }
    assert !Open(u, item);
    MovedStaysClosed(u, k, effect.pc, item);
  }

  lemma StepKeepsClosed(w: World, e: Event, item: Item)
    requires item in w.rows && !Open(w, item) && Enabled(w, e) && NoLateFailure(w, e)
    ensures item in Next(w, e).rows && !Open(Next(w, e), item) && Writes(Next(w, e).log, item) == Writes(w.log, item)
  {
    if RowStep(e) {
      RowChangeKeepsClosed(w, e.item, RowChange(w, e), item);
    } else if e.Work? {
      RowChangeKeepsClosed(w, w.job.item, JobChange(w.job), item);
    } else if e.Call? {
      CallKeepsClosed(w, e.worker, e.outcome, item);
    }
  }

  lemma {:induction false} ClosedIsNotWritten(v: World, more: seq<Event>, item: Item)
    requires item in v.rows && !Open(v, item) && Along(v, more, NoLateFailure)
    ensures IsRun(v, more) && Writes(Final(v, more).log, item) == Writes(v.log, item)
    decreases |more|
  {
    if more != [] {
      StepKeepsClosed(v, more[0], item);
      ClosedIsNotWritten(Next(v, more[0]), more[1..], item);
    }
  }

  /** A withdrawal or session cancelled before a worker has claimed it is never
      settled, if it was not before. */
  lemma CancelledIsNotSettled(w: World, item: Item, more: seq<Event>)
    requires Enabled(w, Cancel(item)) && Along(Next(w, Cancel(item)), more, NoLateFailure)
    requires forall k :: k in w.workers && w.workers[k].item == item ==> !MayReturn(w.workers[k].pc)
    ensures item in Next(w, Cancel(item)).rows && Next(w, Cancel(item)).rows[item].status == Cancelled
    ensures IsRun(Next(w, Cancel(item)), more)
    ensures Writes(Final(Next(w, Cancel(item)), more).log, item) == Writes(w.log, item)
  {
    ClosedIsNotWritten(Next(w, Cancel(item)), more, item);
  }

  // ---- Withdrawals are dispatched with a hash ----

  ghost predicate DispatchedWithHash(w: World) {
    && (forall k :: k in w.workers && w.workers[k].item.Withdrawal? ==> w.workers[k].hash != "")
    && (forall s :: s in w.backlog ==> s.hash != "")
  }

  lemma StepDispatchesWithHash(w: World, e: Event)
    requires DispatchedWithHash(w) && Enabled(w, e)
    ensures DispatchedWithHash(Next(w, e))
  {
    var v := Next(w, e);
    forall k | k in v.workers && v.workers[k].item.Withdrawal? ensures v.workers[k].hash != "" {
      if !(e.Call? && e.worker == k) { StepMovesOneWorker(w, e, k); }
    }
    forall s | s in v.backlog ensures s.hash != "" {
      StepOfBacklog(w, e, s);
    }
  }

  lemma {:induction false} RunDispatchesWithHash(w: World, run: seq<Event>)
    requires DispatchedWithHash(w) && IsRun(w, run)
    ensures DispatchedWithHash(Final(w, run))
    decreases |run|
  {
    if run != [] {
      StepDispatchesWithHash(w, run[0]);
      RunDispatchesWithHash(Next(w, run[0]), run[1..]);
    }
  }

  // ---- What is open may become pending ----

  /** A worker that has yet to write may fail, and is then to reset its item. */
  lemma SettlingMayFail(v: World, k: nat) returns (more: seq<Event>, after: World)
    requires k in v.workers && v.workers[k].item in v.rows && Settling(v.workers[k].pc)
    requires v.workers[k].item.Withdrawal? ==> v.workers[k].hash != ""
    ensures Leads(v, more, after, NoLateFailure) && after == Moved(v, k, Resetting)
  {
    more, after := [], v;
    if v.workers[k].pc.Claimed? {
      PrepareCall(v, k);
      more, after := Extend(v, more, after, Call(k, Ok), NoLateFailure);
      MovedAgain(v, k, Checking(0), Resetting);
    }
    CheckedMayFail(after, k);
    var last := if after.workers[k].pc.Checking? then Chain(Permanent) else Err;
    more, after := Extend(v, more, after, Call(k, last), NoLateFailure);
  }

  lemma CheckedMayFail(v: World, k: nat)
    requires k in v.workers && v.workers[k].item in v.rows && Settling(v.workers[k].pc) && !v.workers[k].pc.Claimed?
    ensures var e := Call(k, if v.workers[k].pc.Checking? then Chain(Permanent) else Err);
            Enabled(v, e) && Next(v, e) == Moved(v, k, Resetting)
  {
  }

  lemma ResetCall(v: World, k: nat)
    requires k in v.workers && v.workers[k].pc.Resetting? && v.workers[k].item in v.rows
    ensures Enabled(v, Call(k, Ok))
    ensures var item := v.workers[k].item;
            Next(v, Call(k, Ok)) == Moved(v.(rows := v.rows[item := v.rows[item].(status := Pending)]), k, Done(Reset))
  {
  }

  /** An open item can become pending again. */
  lemma OpenMayBePending(v: World, item: Item) returns (more: seq<Event>, after: World)
    requires Open(v, item) && DispatchedWithHash(v)
    ensures Leads(v, more, after, NoLateFailure)
    ensures after == v.(rows := v.rows[item := v.rows[item].(status := Pending)], workers := after.workers)
  {
    more, after := [], v;
    if v.rows[item].status == AwaitingReview {
      more, after := Extend(v, more, after, Approve(item), NoLateFailure);
    } else if v.rows[item].status != Pending {
      var k :| k in v.workers && v.workers[k].item == item && MayReturn(v.workers[k].pc);
      if !v.workers[k].pc.Resetting? {
        more, after := SettlingMayFail(v, k);
      }
      ResetCall(after, k);
      more, after := Extend(v, more, after, Call(k, Ok), NoLateFailure);
    }
    assert after.rows == v.rows[item := v.rows[item].(status := Pending)];
  }

  /** The poller may drop what it is at. */
  lemma {:induction false} PollerMayPass(v: World) returns (more: seq<Event>, after: World)
    requires v.job.Idle?
    ensures Leads(v, more, after, NoLateFailure) && after == v.(page := map[])
    decreases |v.page|
  {
    more, after := [], v;
    if v.page != map[] {
      var i :| i in v.page;
      var first, mid := Extend(v, [], v, Pass(i), NoLateFailure);
      var second;
      second, after := PollerMayPass(mid);
      more := first + second;
      Join(v, first, mid, second, after, NoLateFailure);
    }
  }

  lemma PollerMayIdle(v: World) returns (more: seq<Event>, after: World)
    requires !v.job.Idle? ==> v.job.item in v.rows
    ensures Leads(v, more, after, NoLateFailure) && after == v.(page := map[], job := Idle)
  {
    var first, mid := [], v;
    if !v.job.Idle? {
      first, mid := Extend(v, first, mid, Work(false), NoLateFailure);
    }
    var second;
    second, after := PollerMayPass(mid);
    more := first + second;
    Join(v, first, mid, second, after, NoLateFailure);
  }

  // ---- What is pending may be written ----

  /** A session that there is no row of. */
  lemma {:induction false} UnusedSession(items: set<Item>) returns (id: string)
    ensures id != "" && forall i :: i in items ==> |i.id| < |id|
    decreases items
  {
    id := "1";
    if items != {} {
      var i :| i in items;
      var rest := UnusedSession(items - {i});
      id := rest + i.id;
      assert forall j :: j in items ==> j == i || j in items - {i};
    }
  }

  /** Terms that are paid with so much. */
  function TermsOf(amount: real): Terms {
    Terms("wallet", amount, Helius.USDC, "mint", 6)
  }

  lemma PaidInFull(amount: real)
    requires amount >= 0.0
    ensures var p := CommonPayment(TermsOf(amount), TermsOf(amount)); Pays(p, TermsOf(amount)) && Amount(p, 6) == amount
    ensures CryptoToUSDCents(amount, 1.0) as real >= 100.0 * amount - 0.5
  {
    CommonPaymentPaysBoth(TermsOf(amount), TermsOf(amount));
    CryptoToUSDCentsIsNearestEven(amount, 1.0, 0);
  }

  /** A deposit may raise a balance by as much as is needed. */
  lemma BalanceMayBeRaised(v: World, user: string, amount: real) returns (more: seq<Event>, after: World)
    requires user in v.balances && v.balances[user].cents >= 0 && v.balances[user].units >= 0.0 && amount >= 0.0
    ensures Leads(v, more, after, NothingFails)
    ensures user in after.balances && after.page == v.page && after.job == v.job
    ensures after.balances[user].cents as real >= 100.0 * amount - 0.5 && after.balances[user].units >= amount
    ensures forall i :: i in v.rows ==>
              i in after.rows && after.rows[i] == v.rows[i] && Writes(after.log, i) == Writes(v.log, i)
  {
    var id := UnusedSession(v.rows.Keys);
    var item, terms := Session(id), TermsOf(amount);
    assert item !in v.rows;
    PaidInFull(amount);
    var payment := CommonPayment(terms, terms);
    var first, begun := Extend(v, [], v, OpenSession(item, user, terms), NothingFails);
    var k := Unused(v.workers.Keys);
    var second;
    second, after := PendingSessionIsWritten(begun, k, item, payment, 1.0);
    more := first + second;
    Join(v, first, begun, second, after, NothingFails);
    forall i | i in v.rows ensures Writes(after.log, i) == Writes(v.log, i) {
      WritesOfTwoMore(v.log, after.log[|v.log|], after.log[|v.log| + 1], i);
    }
  }

  lemma PendingSessionMayBeWritten(v: World, item: Item) returns (more: seq<Event>, after: World)
    requires item in v.rows && item.Session? && v.rows[item].status == Pending && v.rows[item].user in v.balances
    requires var b := v.balances[v.rows[item].user]; b.cents >= 0 && b.units >= 0.0
    ensures Leads(v, more, after, NothingFails) && Writes(after.log, item) == Writes(v.log, item) + 1
  {
    var terms := v.rows[item].terms;
    var k := Unused(v.workers.Keys);
    CommonPaymentPaysBoth(terms, terms);
    more, after := PendingSessionIsWritten(v, k, item, CommonPayment(terms, terms), 1.0);
    WritesOfTwoMore(v.log, after.log[|v.log|], after.log[|v.log| + 1], item);
  }

  /** A deposit raises the balance first, so that it covers the withdrawal. */
  lemma PendingWithdrawalMayBeWritten(v: World, item: Item) returns (more: seq<Event>, after: World)
    requires item in v.rows && item.Withdrawal? && v.rows[item].status == Pending && v.rows[item].hash != ""
    requires v.page == map[] && v.job.Idle? && v.rows[item].user in v.balances
    requires var b := v.balances[v.rows[item].user]; b.cents >= 0 && b.units >= 0.0
    ensures Leads(v, more, after, NothingFails) && Writes(after.log, item) == Writes(v.log, item) + 1
  {
    var row := v.rows[item];
    var first, raised := BalanceMayBeRaised(v, row.user, Max(row.units, 0.0) + row.usdCents as real + 1.0);
    var k := Unused(raised.workers.Keys);
    var second;
    second, after := PendingWithdrawalIsWritten(raised, k, item, CommonPayment(row.terms, row.terms));
    WritesOfTwoMore(raised.log, after.log[|raised.log|], after.log[|raised.log| + 1], item);
    more := first + second;
    Join(v, first, raised, second, after, NothingFails);
  }

  /** A withdrawal may be given a hash. */
  lemma HashMayBeSet(v: World, item: Item) returns (more: seq<Event>, after: World)
    requires item in v.rows && item.Withdrawal?
    ensures Leads(v, more, after, NoLateFailure)
    ensures after == v.(rows := after.rows) && item in after.rows
    ensures after.rows[item].hash != "" && after.rows[item] == v.rows[item].(hash := after.rows[item].hash)
  {
    more, after := [], v;
    if v.rows[item].hash == "" {
      more, after := Extend(v, more, after, SetHash(item, "hash"), NoLateFailure);
    }
  }

  lemma PendingMayBeWritten(v: World, item: Item) returns (more: seq<Event>, after: World)
    requires item in v.rows && v.rows[item].status == Pending && v.rows[item].user in v.balances
    requires !v.job.Idle? ==> v.job.item in v.rows
    requires var b := v.balances[v.rows[item].user]; b.cents >= 0 && b.units >= 0.0
    ensures Leads(v, more, after, NoLateFailure) && Writes(after.log, item) == Writes(v.log, item) + 1
  {
    if item.Session? {
      more, after := PendingSessionMayBeWritten(v, item);
      Weaken(v, more, NothingFails, NoLateFailure);
    } else {
      var first, idle := PollerMayIdle(v);
      var second, hashed := HashMayBeSet(idle, item);
      Join(v, first, idle, second, hashed, NoLateFailure);
      var third;
      third, after := PendingWithdrawalMayBeWritten(hashed, item);
      Weaken(hashed, third, NothingFails, NoLateFailure);
      Join(v, first + second, hashed, third, after, NoLateFailure);
      more := first + second + third;
    }
  }

  lemma OpenMayBeWritten(v: World, item: Item) returns (more: seq<Event>, after: World)
    requires Open(v, item) && DispatchedWithHash(v) && Known(v) && v.rows[item].user in v.balances
    requires var b := v.balances[v.rows[item].user]; b.cents >= 0 && b.units >= 0.0
    ensures Leads(v, more, after, NoLateFailure) && Writes(after.log, item) == Writes(v.log, item) + 1
  {
    var first, pending := OpenMayBePending(v, item);
    var second;
    second, after := PendingMayBeWritten(pending, item);
    more := first + second;
    Join(v, first, pending, second, after, NoLateFailure);
  }

  /** In every state of every run, and for every session and withdrawal, settled
      before or not: some run on from there in which no call after a balance
      write fails settles it (again) if and only if it is claimable, or has a
      worker that has yet to write or is to put it back. */
  lemma SettledAgainExactlyIfOpen(w: World, run: seq<Event>, v: World, item: Item)
    requires Quiet(w) && IsRun(w, run) && v == Final(w, run) && item in v.rows && v.rows[item].user in v.balances
    requires var b := v.balances[v.rows[item].user]; b.cents >= 0 && b.units >= 0.0
    ensures (exists more ::
               && Along(v, more, NoLateFailure) && IsRun(v, more)
               && Writes(Final(v, more).log, item) > Writes(v.log, item))
            <==> Open(v, item)
  {
    RunDispatchesWithHash(w, run);
    RunKeepsExclusive(w, run);
    if Open(v, item) {
      var more, after := OpenMayBeWritten(v, item);
    } else {
      forall more | Along(v, more, NoLateFailure)
        ensures IsRun(v, more) && Writes(Final(v, more).log, item) == Writes(v.log, item)
      {
        ClosedIsNotWritten(v, more, item);
      }
    }
  }
}
