/** Runs that take one item through the protocol, call by call. */
module Paths {
  import opened Currency
  import opened Ledger
  import opened PaymentMatch
  import opened Steps

  function Moved(v: World, k: nat, pc: Pc): World
    requires k in v.workers
  {
    v.(workers := v.workers[k := v.workers[k].(pc := pc)])
  }

  lemma MovedAgain(v: World, k: nat, pc: Pc, next: Pc)
    requires k in v.workers
    ensures Moved(Moved(v, k, pc), k, next) == Moved(v, k, next)
  {
    var worker := v.workers[k].(pc := next);
    assert v.workers[k := v.workers[k].(pc := pc)][k := worker] == v.workers[k := worker];
  }

  /** The worker's next call succeeds. */
  ghost function OnlyGoesOn(k: nat): (World, Event) -> bool {
    (v: World, e: Event) => e == Call(k, Ok)
  }

  // ---- Single calls ----

  lemma ClaimCall(v: World, k: nat)
    requires k in v.workers && v.workers[k].pc.Start? && v.workers[k].item in v.rows
    requires v.rows[v.workers[k].item].status == Pending
    ensures Enabled(v, Call(k, Ok))
    ensures var item := v.workers[k].item;
            Next(v, Call(k, Ok)) == Moved(v.(rows := v.rows[item := v.rows[item].(status := Processing)]), k, Claimed)
  {
  }

  lemma PrepareCall(v: World, k: nat)
    requires k in v.workers && v.workers[k].pc.Claimed? && v.workers[k].item in v.rows
    requires v.workers[k].item.Withdrawal? ==> v.workers[k].hash != ""
    ensures Enabled(v, Call(k, Ok)) && Next(v, Call(k, Ok)) == Moved(v, k, Checking(0))
  {
  }

  lemma CheckCall(v: World, k: nat, answer: Answer)
    requires k in v.workers && v.workers[k].pc.Checking? && v.workers[k].item in v.rows
    requires FitsAnswer(v.workers[k].item, v.rows[v.workers[k].item], answer)
    ensures Enabled(v, Call(k, Chain(answer)))
    ensures var item := v.workers[k].item;
            Next(v, Call(k, Chain(answer)))
            == Moved(v, k, AfterCheck(item, v.rows[item], v.retries, v.workers[k].pc.attempt, answer))
  {
  }

  lemma RecordCall(v: World, k: nat)
    requires k in v.workers && v.workers[k].pc.Recording? && v.workers[k].item in v.rows
    ensures Enabled(v, Call(k, Ok))
    ensures var worker := v.workers[k];
            Next(v, Call(k, Ok))
            == Moved(v.(log := v.log + [Recorded(worker.item, worker.pc.cents, worker.pc.payment)]), k,
                     Reading(worker.pc.cents, worker.pc.units, |v.log|))
  {
  }

  lemma ReadCall(v: World, k: nat)
    requires k in v.workers && v.workers[k].pc.Reading? && v.workers[k].item in v.rows
    requires v.rows[v.workers[k].item].user in v.balances
    ensures Enabled(v, Call(k, Ok))
    ensures var pc := v.workers[k].pc;
            Next(v, Call(k, Ok))
            == Moved(v, k, Writing(pc.cents, pc.units, pc.record, v.balances[v.rows[v.workers[k].item].user]))
  {
  }

  /** The row of the balance once it is written. */
  function Written(b: Balance, item: Item, cents: int, units: real): Balance {
    Balance(b.cents + Signed(item, cents), b.units + SignedUnits(item, units), b.reserved)
  }

  predicate Covers(b: Balance, item: Item, cents: int, units: real) {
    b.cents + Signed(item, cents) >= 0 && b.units + SignedUnits(item, units) >= 0.0
  }

  function AfterWrite(item: Item, row: Row): Pc {
    if item.Session? || row.released then Completing else Releasing
  }

  lemma WriteCall(v: World, k: nat)
    requires k in v.workers && v.workers[k].pc.Writing? && v.workers[k].item in v.rows
    requires v.rows[v.workers[k].item].user in v.balances
    requires var worker := v.workers[k];
             && Covers(worker.pc.seen, worker.item, worker.pc.cents, worker.pc.units)
             && worker.pc.seen == v.balances[v.rows[worker.item].user]
    ensures Enabled(v, Call(k, Ok))
    ensures var worker := v.workers[k];
            var row, pc := v.rows[worker.item], worker.pc;
            Next(v, Call(k, Ok))
            == Moved(v.(balances := v.balances[row.user := Written(pc.seen, worker.item, pc.cents, pc.units)],
                        log := v.log + [Wrote(worker.item, row.user, pc.cents, pc.units, pc.record)]),
                     k, AfterWrite(worker.item, row))
  {
  }

  lemma ReleaseCall(w: World, k: nat)
    requires k in w.workers && w.workers[k].pc.Releasing? && w.workers[k].item in w.rows
    ensures Enabled(w, Call(k, Ok))
    ensures Next(w, Call(k, Ok)) == Moved(Apply(w, w.workers[k].item, FreeReservation), k, Completing)
  {
  }

  lemma CompleteCall(w: World, k: nat)
    requires k in w.workers && w.workers[k].pc.Completing? && w.workers[k].item in w.rows
    ensures Enabled(w, Call(k, Ok))
    ensures var item, hash := w.workers[k].item, w.workers[k].hash;
            Next(w, Call(k, Ok))
            == Moved(w.(rows := w.rows[item := UpdateRow(w.rows[item], Completed, hash)]), k, Done(Settled))
  {
  }

  // ---- To the verified payment ----

  lemma SessionIsStarted(v: World, k: nat, item: Item) returns (more: seq<Event>, after: World)
    requires item in v.rows && item.Session? && k !in v.workers
    ensures Leads(v, more, after, NothingFails)
    ensures after == v.(workers := v.workers[k := Worker(item, "", Start)])
  {
    more, after := Extend(v, [], v, StartSession(k, item), NothingFails);
  }

  lemma WithdrawalIsStarted(v: World, k: nat, item: Item) returns (more: seq<Event>, after: World)
    requires item in v.rows && item.Withdrawal? && v.rows[item].status == Pending && v.rows[item].hash != ""
    requires v.page == map[] && v.job.Idle? && k !in v.workers
    ensures Leads(v, more, after, NothingFails)
    ensures after == v.(workers := v.workers[k := Worker(item, v.rows[item].hash, Start)])
  {
    var s := Snapshot(item, v.rows[item].hash);
    more, after := Extend(v, [], v, LoadPage(map[item := s.hash]), NothingFails);
    more, after := Extend(v, more, after, Collect(item), NothingFails);
    assert after.page == map[] && s in after.backlog;
    more, after := Extend(v, more, after, StartWithdrawal(k, s), NothingFails);
    assert after.backlog == v.backlog;
  }

  lemma StartedIsPrepared(v: World, k: nat) returns (more: seq<Event>, after: World)
    requires k in v.workers && v.workers[k].pc.Start? && v.workers[k].item in v.rows
    requires v.rows[v.workers[k].item].status == Pending
    requires v.workers[k].item.Withdrawal? ==> v.workers[k].hash != ""
    ensures Leads(v, more, after, NothingFails)
    ensures var item := v.workers[k].item;
            after == Moved(v.(rows := v.rows[item := v.rows[item].(status := Processing)]), k, Checking(0))
  {
    var item := v.workers[k].item;
    ClaimCall(v, k);
    more, after := Extend(v, [], v, Call(k, Ok), NothingFails);
    PrepareCall(after, k);
    MovedAgain(v.(rows := v.rows[item := v.rows[item].(status := Processing)]), k, Claimed, Checking(0));
    more, after := Extend(v, more, after, Call(k, Ok), NothingFails);
  }

  /** A worker claims a pending item and finds it paid. */
  lemma StartedIsPaid(v: World, k: nat, payment: Payment, rate: real) returns (more: seq<Event>, after: World)
    requires k in v.workers && v.workers[k].pc.Start? && v.workers[k].item in v.rows
    requires v.rows[v.workers[k].item].status == Pending
    requires v.workers[k].item.Withdrawal? ==> v.workers[k].hash != ""
    requires FitsAnswer(v.workers[k].item, v.rows[v.workers[k].item], Paid(payment, rate))
    ensures Leads(v, more, after, NothingFails)
    ensures var item := v.workers[k].item;
            after == Moved(v.(rows := v.rows[item := v.rows[item].(status := Processing)]), k,
                           AfterCheck(item, v.rows[item], v.retries, 0, Paid(payment, rate)))
  {
    var item, answer := v.workers[k].item, Paid(payment, rate);
    more, after := StartedIsPrepared(v, k);
    var u := v.(rows := v.rows[item := v.rows[item].(status := Processing)]);
    var pc := AfterCheck(item, v.rows[item], v.retries, 0, answer);
    CheckCall(after, k, answer);
    SameAnswer(item, u.rows[item], v.rows[item], v.retries, 0, answer);
    MovedAgain(u, k, Checking(0), pc);
    more, after := Extend(v, more, after, Call(k, Chain(answer)), NothingFails);
  }

  /** What a paid session's worker records. */
  function PaidPc(row: Row, payment: Payment, rate: real): Pc {
    var amount := Amount(payment, row.terms.decimals);
    Recording(CryptoToUSDCents(amount, rate), amount * rate, payment)
  }

  lemma PendingSessionIsPaid(v: World, k: nat, item: Item, payment: Payment, rate: real)
    returns (more: seq<Event>, after: World)
    requires item in v.rows && item.Session? && v.rows[item].status == Pending && k !in v.workers
    requires FitsAnswer(item, v.rows[item], Paid(payment, rate))
    ensures Leads(v, more, after, NothingFails)
    ensures after == v.(rows := v.rows[item := v.rows[item].(status := Processing)],
                        workers := v.workers[k := Worker(item, "", PaidPc(v.rows[item], payment, rate))])
  {
    assert AfterCheck(item, v.rows[item], v.retries, 0, Paid(payment, rate)) == PaidPc(v.rows[item], payment, rate);
    var first, started := SessionIsStarted(v, k, item);
    var second;
    second, after := StartedIsPaid(started, k, payment, rate);
    more := first + second;
    Join(v, first, started, second, after, NothingFails);
    assert after.workers == v.workers[k := Worker(item, "", PaidPc(v.rows[item], payment, rate))];
  }

  lemma PendingWithdrawalIsPaid(v: World, k: nat, item: Item, payment: Payment)
    returns (more: seq<Event>, after: World)
    requires item in v.rows && item.Withdrawal? && v.rows[item].status == Pending && v.rows[item].hash != ""
    requires v.page == map[] && v.job.Idle? && k !in v.workers
    ensures Leads(v, more, after, NothingFails)
    ensures var row := v.rows[item];
            after == v.(rows := v.rows[item := row.(status := Processing)],
                        workers := v.workers[k := Worker(item, row.hash, Recording(row.usdCents, row.units, payment))])
  {
    var first, started := WithdrawalIsStarted(v, k, item);
    var second;
    second, after := StartedIsPaid(started, k, payment, 0.0);
    more := first + second;
    Join(v, first, started, second, after, NothingFails);
    var row := v.rows[item];
    assert after.workers == v.workers[k := Worker(item, row.hash, Recording(row.usdCents, row.units, payment))];
  }

  // ---- To the balance write ----

  lemma PaidIsRead(v: World, k: nat) returns (more: seq<Event>, after: World)
    requires k in v.workers && v.workers[k].pc.Recording? && v.workers[k].item in v.rows
    requires v.rows[v.workers[k].item].user in v.balances
    ensures Leads(v, more, after, OnlyGoesOn(k))
    ensures var worker := v.workers[k];
            after == Moved(v.(log := v.log + [Recorded(worker.item, worker.pc.cents, worker.pc.payment)]), k,
                           Writing(worker.pc.cents, worker.pc.units, |v.log|, v.balances[v.rows[worker.item].user]))
  {
    RecordCall(v, k);
    more, after := Extend(v, [], v, Call(k, Ok), OnlyGoesOn(k));
    ReadCall(after, k);
    more, after := Extend(v, more, after, Call(k, Ok), OnlyGoesOn(k));
  }

  /** From the record to the balance write, when every call succeeds. */
  lemma PaidIsWritten(v: World, k: nat) returns (more: seq<Event>, after: World)
    requires k in v.workers && v.workers[k].pc.Recording? && v.workers[k].item in v.rows
    requires v.rows[v.workers[k].item].user in v.balances
    requires var worker := v.workers[k];
             Covers(v.balances[v.rows[worker.item].user], worker.item, worker.pc.cents, worker.pc.units)
    ensures Leads(v, more, after, OnlyGoesOn(k)) && Leads(v, more, after, NothingFails)
    ensures var worker := v.workers[k];
            var item, row, pc := worker.item, v.rows[worker.item], worker.pc;
            var b := Written(v.balances[row.user], item, pc.cents, pc.units);
            after == Moved(v.(balances := v.balances[row.user := b],
                              log := v.log + [Recorded(item, pc.cents, pc.payment)]
                                           + [Wrote(item, row.user, pc.cents, pc.units, |v.log|)]),
                           k, AfterWrite(item, row))
  {
    more, after := PaidIsRead(v, k);
    WriteCall(after, k);
    more, after := Extend(v, more, after, Call(k, Ok), OnlyGoesOn(k));
    Weaken(v, more, OnlyGoesOn(k), NothingFails);
  }

  /** A session that is pending can be claimed and settled by a new worker,
      whether or not it has been settled before. */
  lemma PendingSessionIsWritten(v: World, k: nat, item: Item, payment: Payment, rate: real)
    returns (more: seq<Event>, after: World)
    requires item in v.rows && item.Session? && v.rows[item].status == Pending && k !in v.workers
    requires FitsAnswer(item, v.rows[item], Paid(payment, rate)) && v.rows[item].user in v.balances
    requires var b := v.balances[v.rows[item].user]; b.cents >= 0 && b.units >= 0.0
    ensures Leads(v, more, after, NothingFails)
    ensures var row, pc := v.rows[item], PaidPc(v.rows[item], payment, rate);
            && pc.cents >= 0 && pc.units >= 0.0
            && after == v.(rows := v.rows[item := row.(status := Processing)],
                           workers := v.workers[k := Worker(item, "", Completing)],
                           balances := v.balances[row.user := Written(v.balances[row.user], item, pc.cents, pc.units)],
                           log := v.log + [Recorded(item, pc.cents, payment)]
                                        + [Wrote(item, row.user, pc.cents, pc.units, |v.log|)])
  {
    var amount := Amount(payment, v.rows[item].terms.decimals);
    CryptoToUSDCentsIsNearestEven(amount, rate, 0);
    assert amount * rate >= 0.0;
    var first, paid := PendingSessionIsPaid(v, k, item, payment, rate);
    var second;
    second, after := PaidIsWritten(paid, k);
    more := first + second;
    Join(v, first, paid, second, after, NothingFails);
  }

  lemma PendingWithdrawalIsWritten(v: World, k: nat, item: Item, payment: Payment)
    returns (more: seq<Event>, after: World)
    requires item in v.rows && item.Withdrawal? && v.rows[item].status == Pending && v.rows[item].hash != ""
    requires v.page == map[] && v.job.Idle? && k !in v.workers && v.rows[item].user in v.balances
    requires var row := v.rows[item]; Covers(v.balances[row.user], item, row.usdCents, row.units)
    ensures Leads(v, more, after, NothingFails)
    ensures var row := v.rows[item];
            after == v.(rows := v.rows[item := row.(status := Processing)],
                        workers := v.workers[k := Worker(item, row.hash, AfterWrite(item, row))],
                        balances := v.balances[row.user :=
                          Written(v.balances[row.user], item, row.usdCents, row.units)],
                        log := v.log + [Recorded(item, row.usdCents, payment)]
                                     + [Wrote(item, row.user, row.usdCents, row.units, |v.log|)])
  {
    var first, paid := PendingWithdrawalIsPaid(v, k, item, payment);
    var second;
    second, after := PaidIsWritten(paid, k);
    more := first + second;
    Join(v, first, paid, second, after, NothingFails);
  }

  // ---- A late failure ----

  /** The completed-status write fails, and the reset succeeds. */
  lemma CompletionFails(v: World, k: nat, item: Item) returns (steps: seq<Event>, after: World)
    requires item in v.rows && k in v.workers && v.workers[k].item == item && v.workers[k].pc.Completing?
    ensures steps == [Call(k, Err), Call(k, Ok)] && Leads(v, steps, after, Anything)
    ensures after == Moved(v.(rows := v.rows[item := v.rows[item].(status := Pending)]), k, Done(Reset))
  {
    steps, after := Extend(v, [], v, Call(k, Err), Anything);
    assert after == Moved(v, k, Resetting);
    steps, after := Extend(v, steps, after, Call(k, Ok), Anything);
    assert after.workers == v.workers[k := v.workers[k].(pc := Done(Reset))];
    assert steps == [Call(k, Err), Call(k, Ok)];
  }

  /** A number no worker has. */
  lemma {:induction false} Unused(keys: set<nat>) returns (k: nat)
    ensures forall i :: i in keys ==> i < k
    decreases keys
  {
    k := 0;
    if keys != {} {
      var i :| i in keys;
      var rest := Unused(keys - {i});
      k := if i < rest then rest else i + 1;
      assert forall j :: j in keys ==> j == i || j in keys - {i};
    }
  }
}
