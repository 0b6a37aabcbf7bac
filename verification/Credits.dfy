/** What is written to a balance for an item: for a deposit what its transfer is
    worth at the rate its check came with, for a withdrawal its own amounts. */
module Credits {
  import opened Currency
  import opened Exclusion
  import opened Ledger
  import opened PaymentMatch
  import opened Steps

  /** The event is a check by worker k that found this transfer for the item,
      and the cents and units are what the item is to be settled with. */
  predicate Worth(e: Event, k: nat, item: Item, row: Row, payment: Payment, cents: int, units: real) {
    && e.Call? && e.worker == k && e.outcome.Chain? && e.outcome.answer.Paid?
    && e.outcome.answer.payment == payment
    && if item.Session? then
         && units == Amount(payment, row.terms.decimals) * e.outcome.answer.rate
         && TiesToEven(100.0 * units, cents)
       else
         cents == row.usdCents && units == row.units
  }

  /** One of the steps so far is such a check. */
  ghost predicate Found(past: seq<Event>, k: nat, item: Item, row: Row, payment: Payment, cents: int, units: real) {
    exists i :: 0 <= i < |past| && Worth(past[i], k, item, row, payment, cents, units)
  }

  lemma FoundStays(past: seq<Event>, e: Event, k: nat, item: Item, row: Row, after: Row,
                   payment: Payment, cents: int, units: real)
    requires Found(past, k, item, row, payment, cents, units) && SameTerms(after, row)
    ensures Found(past + [e], k, item, after, payment, cents, units)
  {
    var i :| 0 <= i < |past| && Worth(past[i], k, item, row, payment, cents, units);
    assert Worth((past + [e])[i], k, item, after, payment, cents, units);
  }

  /** What a worker carries is what it found, for the transfer it has recorded or
      is to record. */
  ghost predicate Carried(past: seq<Event>, w: World, k: nat)
    requires k in w.workers && w.workers[k].item in w.rows
  {
    var item, pc := w.workers[k].item, w.workers[k].pc;
    && (pc.Recording? ==> Found(past, k, item, w.rows[item], pc.payment, pc.cents, pc.units))
    && (pc.Reading? || pc.Writing? ==>
          && pc.record < |w.log| && w.log[pc.record].Recorded?
          && Found(past, k, item, w.rows[item], w.log[pc.record].payment, pc.cents, pc.units))
  }

  /** Step j is worker k's, and what it writes for the item is what that worker
      had found before, for this transfer. */
  ghost predicate WrittenAt(past: seq<Event>, w: World, k: nat, j: nat, e: Entry, payment: Payment)
    requires e.Wrote? && e.item in w.rows
  {
    && k in w.workers && w.workers[k].item == e.item && j < |past| && past[j] == Call(k, Ok)
    && Found(past[..j], k, e.item, w.rows[e.item], payment, e.cents, e.units)
  }

  /** A balance write is of what a worker of the item had found, for the transfer
      in the write's record. */
  ghost predicate Justified(past: seq<Event>, w: World, e: Entry) {
    e.Wrote? ==>
      && e.item in w.rows && e.record < |w.log| && w.log[e.record].Recorded?
      && exists k, j :: WrittenAt(past, w, k, j, e, w.log[e.record].payment)
  }

  ghost predicate AllCarried(past: seq<Event>, w: World)
    requires Known(w)
  {
    forall k :: k in w.workers ==> Carried(past, w, k)
  }

  ghost predicate AllJustified(past: seq<Event>, w: World) {
    forall i :: 0 <= i < |w.log| ==> Justified(past, w, w.log[i])
  }

  ghost predicate Inv(past: seq<Event>, w: World) {
    Known(w) && AllCarried(past, w) && AllJustified(past, w)
  }

  // ---- Workers ----

  /** A check is worth what the protocol makes of it. */
  lemma CheckIsWorth(w: World, k: nat, outcome: Outcome)
    requires CanCall(w, k, outcome) && EffectOf(w, k, outcome).pc.Recording?
    ensures var item, pc := w.workers[k].item, EffectOf(w, k, outcome).pc;
            Worth(Call(k, outcome), k, item, w.rows[item], pc.payment, pc.cents, pc.units)
  {
    var worker := w.workers[k];
    AnswerIsWorth(k, worker.item, w.rows[worker.item], w.retries, worker.pc.attempt, outcome.answer);
  }

  lemma AnswerIsWorth(k: nat, item: Item, row: Row, retries: nat, attempt: nat, answer: Answer)
    requires FitsAnswer(item, row, answer) && AfterCheck(item, row, retries, attempt, answer).Recording?
    ensures var pc := AfterCheck(item, row, retries, attempt, answer);
            Worth(Call(k, Chain(answer)), k, item, row, pc.payment, pc.cents, pc.units)
  {
    if item.Session? { NearestCent(Amount(answer.payment, row.terms.decimals), answer.rate); }
  }

  lemma NearestCent(amount: real, rate: real)
    requires amount >= 0.0 && rate >= 0.0
    ensures TiesToEven(100.0 * (amount * rate), CryptoToUSDCents(amount, rate))
  {
    CryptoToUSDCentsIsNearestEven(amount, rate, CryptoToUSDCents(amount, rate));
    assert 100.0 * (amount * rate) == amount * rate * 100.0;
  }

  /** Otherwise a call hands on what the worker carries. */
  lemma CallHandsOn(w: World, k: nat, outcome: Outcome)
    requires CanCall(w, k, outcome)
    ensures var pc, effect := w.workers[k].pc, EffectOf(w, k, outcome);
            && (effect.pc.Reading? ==>
                  && pc.Recording? && effect.change == Create(pc.cents, pc.payment)
                  && effect.pc == Reading(pc.cents, pc.units, |w.log|))
            && (effect.pc.Writing? ==>
                  && pc.Reading? && effect.change.Nothing?
                  && effect.pc.record == pc.record && effect.pc.cents == pc.cents && effect.pc.units == pc.units)
            && (effect.pc.Recording? ==> effect.change.Nothing?)
  {
  }

  lemma LogStays(w: World, e: Event, record: nat)
    requires Enabled(w, e) && record < |w.log|
    ensures record < |Next(w, e).log| && Next(w, e).log[record] == w.log[record]
  {
    StepGrowsLog(w, e);
    if Next(w, e).log != w.log { assert Next(w, e).log[..|w.log|][record] == w.log[record]; }
  }

  lemma CallKeepsCarried(past: seq<Event>, w: World, k: nat, outcome: Outcome)
    requires CanCall(w, k, outcome) && Carried(past, w, k)
    ensures var e := Call(k, outcome); var v := Next(w, e);
            k in v.workers && v.workers[k].item in v.rows && Carried(past + [e], v, k)
  {
    var e := Call(k, outcome);
    var v, item, effect := Next(w, e), w.workers[k].item, EffectOf(w, k, outcome);
    StepKeepsTerms(w, e, item);
    CallHandsOn(w, k, outcome);
    ApplyLog(w, item, effect.change);
    if effect.pc.Recording? {
      CheckIsWorth(w, k, outcome);
      assert Worth((past + [e])[|past|], k, item, v.rows[item], effect.pc.payment, effect.pc.cents, effect.pc.units);
    } else if effect.pc.Reading? {
      var pc := w.workers[k].pc;
      FoundStays(past, e, k, item, w.rows[item], v.rows[item], pc.payment, pc.cents, pc.units);
    } else if effect.pc.Writing? {
      var pc := w.workers[k].pc;
      FoundStays(past, e, k, item, w.rows[item], v.rows[item], w.log[pc.record].payment, pc.cents, pc.units);
    }
  }

  lemma OthersKeepCarried(past: seq<Event>, w: World, e: Event, k: nat)
    requires Enabled(w, e) && k in w.workers && w.workers[k].item in w.rows && Carried(past, w, k)
    requires k in Next(w, e).workers && Next(w, e).workers[k] == w.workers[k]
    ensures Next(w, e).workers[k].item in Next(w, e).rows && Carried(past + [e], Next(w, e), k)
  {
    var v, item, pc := Next(w, e), w.workers[k].item, w.workers[k].pc;
    StepKeepsTerms(w, e, item);
    if pc.Recording? {
      FoundStays(past, e, k, item, w.rows[item], v.rows[item], pc.payment, pc.cents, pc.units);
    } else if pc.Reading? || pc.Writing? {
      LogStays(w, e, pc.record);
      FoundStays(past, e, k, item, w.rows[item], v.rows[item], w.log[pc.record].payment, pc.cents, pc.units);
    }
  }

  lemma StepKeepsCarried(past: seq<Event>, w: World, e: Event, k: nat)
    requires Inv(past, w) && Enabled(w, e) && Known(Next(w, e)) && k in Next(w, e).workers
    ensures Carried(past + [e], Next(w, e), k)
  {
    if e.Call? && e.worker == k {
      CallKeepsCarried(past, w, k, e.outcome);
    } else {
      StepMovesOneWorker(w, e, k);
      if k in w.workers && Next(w, e).workers[k] == w.workers[k] { OthersKeepCarried(past, w, e, k); }
    }
  }

  // ---- Entries ----

  lemma StepKeepsJustified(past: seq<Event>, w: World, e: Event, entry: Entry)
    requires Enabled(w, e) && Justified(past, w, entry)
    ensures Justified(past + [e], Next(w, e), entry)
  {
    if entry.Wrote? {
      var v, payment := Next(w, e), w.log[entry.record].payment;
      var k, j :| WrittenAt(past, w, k, j, entry, payment);
      StepKeepsTerms(w, e, entry.item);
      StepKeepsWorkers(w, e);
      LogStays(w, e, entry.record);
      WrittenStays(past, w, e, k, j, entry, payment, v);
    }
  }

  lemma WrittenStays(past: seq<Event>, w: World, e: Event, k: nat, j: nat, entry: Entry, payment: Payment, v: World)
    requires entry.Wrote? && entry.item in w.rows && WrittenAt(past, w, k, j, entry, payment)
    requires entry.item in v.rows && SameTerms(v.rows[entry.item], w.rows[entry.item])
    requires k in v.workers && v.workers[k].item == w.workers[k].item
    ensures WrittenAt(past + [e], v, k, j, entry, payment)
  {
    assert (past + [e])[..j] == past[..j];
    var i :| 0 <= i < j && Worth(past[..j][i], k, entry.item, w.rows[entry.item], payment, entry.cents, entry.units);
    assert Worth(past[..j][i], k, entry.item, v.rows[entry.item], payment, entry.cents, entry.units);
  }

  lemma WriteIsJustified(past: seq<Event>, w: World, k: nat, outcome: Outcome)
    requires Known(w) && CanCall(w, k, outcome) && Carried(past, w, k) && EffectOf(w, k, outcome).change.Write?
    ensures Justified(past + [Call(k, outcome)], Next(w, Call(k, outcome)), EffectOf(w, k, outcome).change.entry)
  {
    var e, entry := Call(k, outcome), EffectOf(w, k, outcome).change.entry;
    var v := Next(w, e);
    CallOnBalance(w, k, outcome);
    StepKeepsTerms(w, e, entry.item);
    StepKeepsWorkers(w, e);
    LogStays(w, e, entry.record);
    assert (past + [e])[..|past|] == past;
    var payment := w.log[entry.record].payment;
    var i :| 0 <= i < |past| && Worth(past[i], k, entry.item, w.rows[entry.item], payment, entry.cents, entry.units);
    assert Worth(past[i], k, entry.item, v.rows[entry.item], payment, entry.cents, entry.units);
    assert WrittenAt(past + [e], v, k, |past|, entry, payment);
  }

  /** The entry that a step adds. */
  lemma NewEntryIsJustified(past: seq<Event>, w: World, e: Event)
    requires Inv(past, w) && Enabled(w, e) && |Next(w, e).log| == |w.log| + 1
    ensures Justified(past + [e], Next(w, e), Next(w, e).log[|w.log|])
  {
    StepGrowsLog(w, e);
    if Next(w, e).log[|w.log|].Wrote? { WriteIsJustified(past, w, e.worker, e.outcome); }
  }

  lemma OldEntryIsJustified(past: seq<Event>, w: World, e: Event, i: nat)
    requires Inv(past, w) && Enabled(w, e) && i < |w.log|
    ensures i < |Next(w, e).log| && Justified(past + [e], Next(w, e), Next(w, e).log[i])
  {
    LogStays(w, e, i);
    StepKeepsJustified(past, w, e, w.log[i]);
  }

  lemma LogGrowsByOne(w: World, e: Event)
    requires Enabled(w, e)
    ensures |Next(w, e).log| == |w.log| || |Next(w, e).log| == |w.log| + 1
  {
    StepGrowsLog(w, e);
  }

  lemma StepKeepsAllCarried(past: seq<Event>, w: World, e: Event)
    requires Inv(past, w) && Enabled(w, e) && Known(Next(w, e))
    ensures AllCarried(past + [e], Next(w, e))
  {
    forall k | k in Next(w, e).workers ensures Carried(past + [e], Next(w, e), k) {
      StepKeepsCarried(past, w, e, k);
    }
  }

  lemma StepKeepsAllJustified(past: seq<Event>, w: World, e: Event)
    requires Inv(past, w) && Enabled(w, e)
    ensures AllJustified(past + [e], Next(w, e))
  {
    var v := Next(w, e);
    LogGrowsByOne(w, e);
    forall i | 0 <= i < |w.log| ensures Justified(past + [e], v, v.log[i]) {
      OldEntryIsJustified(past, w, e, i);
    }
    if |v.log| == |w.log| + 1 { NewEntryIsJustified(past, w, e); }
  }

  lemma StepKeepsInv(past: seq<Event>, w: World, e: Event)
    requires Inv(past, w) && Enabled(w, e)
    ensures Inv(past + [e], Next(w, e))
  {
    StepKeepsKnown(w, e);
    StepKeepsAllCarried(past, w, e);
    StepKeepsAllJustified(past, w, e);
  }

  lemma {:induction false} RunKeepsInv(past: seq<Event>, w: World, run: seq<Event>)
    requires Inv(past, w) && IsRun(w, run)
    ensures Inv(past + run, Final(w, run))
    decreases |run|
  {
    if run == [] {
      assert past + run == past;
    } else {
      StepKeepsInv(past, w, run[0]);
      RunKeepsInv(past + [run[0]], Next(w, run[0]), run[1..]);
      assert past + [run[0]] + run[1..] == past + run;
    }
  }

  /** Step i of the run is a check by worker k, and what the entry says was
      written is what the check was worth: for a session the amount of the
      transfer in the entry's record times the rate of the check, and the nearest
      cent to it with ties to even; for a withdrawal its own cents and units. */
  ghost predicate WorthOfCheck(run: seq<Event>, i: nat, k: nat, v: World, e: Entry)
    requires e.Wrote? && e.item in v.rows && e.record < |v.log| && v.log[e.record].Recorded?
  {
    && i < |run| && run[i].Call? && run[i].worker == k && run[i].outcome.Chain? && run[i].outcome.answer.Paid?
    && run[i].outcome.answer.payment == v.log[e.record].payment
    && (e.item.Session? ==>
          && e.units == Amount(v.log[e.record].payment, v.rows[e.item].terms.decimals) * run[i].outcome.answer.rate
          && TiesToEven(100.0 * e.units, e.cents))
    && (e.item.Withdrawal? ==> e.cents == v.rows[e.item].usdCents && e.units == v.rows[e.item].units)
  }

  lemma JustifiedIsWorth(run: seq<Event>, v: World, e: Entry) returns (i: nat, j: nat, k: nat)
    requires e.Wrote? && Justified(run, v, e)
    ensures k in v.workers && v.workers[k].item == e.item && i < j < |run| && run[j] == Call(k, Ok)
    ensures WorthOfCheck(run, i, k, v, e)
  {
    var payment := v.log[e.record].payment;
    k, j :| WrittenAt(run, v, k, j, e, payment);
    i :| 0 <= i < j && Worth(run[..j][i], k, e.item, v.rows[e.item], payment, e.cents, e.units);
    assert run[..j][i] == run[i];
  }

  /** In every run, whatever fails, each balance write is a step of a worker on
      its item, and is worth what an earlier check of that worker was. */
  lemma WritesAreWorthTheirPayment(w: World, run: seq<Event>, n: nat) returns (i: nat, j: nat, k: nat)
    requires Quiet(w) && IsRun(w, run) && n < |Final(w, run).log| && Final(w, run).log[n].Wrote?
    ensures var v := Final(w, run);
            var e := v.log[n];
            && k in v.workers && v.workers[k].item == e.item && i < j < |run| && run[j] == Call(k, Ok)
            && e.item in v.rows && e.record < |v.log| && v.log[e.record].Recorded?
            && WorthOfCheck(run, i, k, v, e)
  {
    RunKeepsInv([], w, run);
    assert [] + run == run;
    var v := Final(w, run);
    assert Justified(run, v, v.log[n]);
    i, j, k := JustifiedIsWorth(run, v, v.log[n]);
  }
}
